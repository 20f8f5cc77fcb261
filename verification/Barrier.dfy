/**
 The barrier for `n` tasks, as a transition system over any number of tasks that call `wait` any
 number of times. Every call has its own number. The word holds a count and a queue; the call that
 takes the count from one to zero resets the barrier: it empties the queue, counts who was in it
 while it delivers their results, and swaps the new count in. Whoever meets a count of zero
 queues up to be told to try again. Nobody cancels.
 */
module Barrier {
  import opened FairQueue

  datatype Result = Queued | OwedBy(setter: nat) | Given(code: nat)

  const LAST := 1     // the caller was the last to reach the barrier
  const RELEASED := 0 // everybody has reached the barrier, somebody else was the last
  const RETRY := 2    // the barrier was being reset

  /** Where a call is. */
  datatype Call =
    | Counting                                     // about to access the word in `count_down`
    | Waiting(retry: bool, result: Result)         // polling its entry
    | Releasing(pending: seq<nat>, rebuilt: nat)   // delivering RELEASED, and counting
    | Retrying(pending: seq<nat>)                  // delivering RETRY

  datatype Sys = Sys(
    count: nat,
    queue: seq<nat>,         // calls, oldest first
    calls: map<nat, Call>,
    nextId: nat,
    // History.
    counted: seq<nat>,       // calls in the order in which they counted down
    done: nat,               // how many had counted down when the count was last reset
    returned: map<nat, bool>)

  datatype Label =
    | Arrive
    | CountDown(t: nat)
    | ReleaseOne(t: nat)
    | Swap(t: nat)
    | RetryOne(t: nat)
    | Finish(t: nat)
    | Return(t: nat)

  predicate Enabled(s: Sys, l: Label) {
    match l
    case Arrive => true
    case CountDown(t) => t in s.calls && s.calls[t].Counting?
    case ReleaseOne(t) =>
      t in s.calls && s.calls[t].Releasing? && s.calls[t].pending != [] && AwaitsResult(s, Newest(s.calls[t].pending))
    case Swap(t) => t in s.calls && s.calls[t].Releasing? && s.calls[t].pending == []
    case RetryOne(t) =>
      t in s.calls && s.calls[t].Retrying? && s.calls[t].pending != [] && AwaitsResult(s, Newest(s.calls[t].pending))
    case Finish(t) => t in s.calls && s.calls[t].Retrying? && s.calls[t].pending == []
    case Return(t) => t in s.calls && s.calls[t].Waiting? && s.calls[t].result.Given?
  }

  predicate AwaitsResult(s: Sys, id: nat) {
    id in s.calls && s.calls[id].Waiting?
  }

  function Newest(pending: seq<nat>): nat
    requires pending != []
  {
    pending[|pending| - 1]
  }

  function Older(pending: seq<nat>): seq<nat>
    requires pending != []
  {
    pending[..|pending| - 1]
  }

  /** The calls in `q` are waiting for thread `t` now. */
  function Owe(calls: map<nat, Call>, q: seq<nat>, t: nat): (r: map<nat, Call>)
    ensures r.Keys == calls.Keys
  {
    map id | id in calls ::
      if id in q && calls[id].Waiting? then calls[id].(result := OwedBy(t)) else calls[id]
  }

  function Deliver(s: Sys, t: nat, code: nat, next: Call): Sys
    requires t in s.calls && (s.calls[t].Releasing? || s.calls[t].Retrying?)
    requires s.calls[t].pending != [] && AwaitsResult(s, Newest(s.calls[t].pending))
  {
    var id := Newest(s.calls[t].pending);
    s.(calls := s.calls[id := s.calls[id].(result := Given(code))][t := next])
  }

  function DoCountDown(s: Sys, t: nat): Sys
    requires Enabled(s, CountDown(t))
  {
    if s.count == 0 then
      s.(queue := s.queue + [t], calls := s.calls[t := Waiting(true, Queued)])
    else if s.count == 1 then
      s.(count := 0, queue := [],
         calls := Owe(s.calls, s.queue, t)[t := Releasing(s.queue, 1)],
         counted := s.counted + [t])
    else
      s.(count := s.count - 1, queue := s.queue + [t],
         calls := s.calls[t := Waiting(false, Queued)],
         counted := s.counted + [t])
  }

  function Do(s: Sys, l: Label): Sys
    requires Enabled(s, l)
  {
    match l
    case Arrive => s.(calls := s.calls[s.nextId := Counting], nextId := s.nextId + 1)
    case CountDown(t) => DoCountDown(s, t)
    case ReleaseOne(t) =>
      Deliver(s, t, RELEASED, Releasing(Older(s.calls[t].pending), s.calls[t].rebuilt + 1))
    case Swap(t) =>
      s.(count := s.calls[t].rebuilt, queue := [],
         calls := Owe(s.calls, s.queue, t)[t := Retrying(s.queue)],
         done := |s.counted|)
    case RetryOne(t) => Deliver(s, t, RETRY, Retrying(Older(s.calls[t].pending)))
    case Finish(t) => s.(calls := s.calls[t := Waiting(false, Given(LAST))])
    case Return(t) =>
      if s.calls[t].retry then s.(calls := s.calls[t := Counting])
      else s.(calls := s.calls - {t}, returned := s.returned[t := s.calls[t].result.code == LAST])
  }

  function Init(n: nat): Sys {
    Sys(n, [], map[], 0, [], 0, map[])
  }

  predicate Legal(s: Sys, run: seq<Label>)
    decreases |run|
  {
    run == [] || (Enabled(s, run[0]) && Legal(Do(s, run[0]), run[1..]))
  }

  function Final(s: Sys, run: seq<Label>): Sys
    requires Legal(s, run)
    decreases |run|
  {
    if run == [] then s else Final(Do(s, run[0]), run[1..])
  }

  // ---------- The invariant ----------

  /** The count-down at position `k` is the last of its generation. */
  predicate IsLast(n: nat, k: nat)
    requires n > 0
  {
    k % n == n - 1
  }

  /** As many count-downs as fit the generations up to that of position `k`. */
  function EndOf(n: nat, k: nat): nat
    requires n > 0
  {
    k - k % n + n
  }

  /** The call `id` made the count-down at position `k`. */
  ghost predicate CountedAt(s: Sys, id: nat, k: nat) {
    k < |s.counted| && s.counted[k] == id
  }

  /** The call `id` counted down in a generation that is complete, and `last` says if it was the last. */
  ghost predicate Completed(n: nat, s: Sys, id: nat, last: bool)
    requires n > 0
  {
    exists k: nat :: CountedAt(s, id, k) && EndOf(n, k) <= |s.counted| && last == IsLast(n, k)
  }

  ghost predicate WordOk(n: nat, s: Sys)
    requires n > 0
  {
    && s.done % n == 0 && s.done <= |s.counted| <= s.done + n
    && (s.count != 0 ==> s.queue == s.counted[s.done..] && |s.counted| + s.count == s.done + n)
    && (s.count == 0 ==>
          && |s.counted| == s.done + n
          && s.counted[s.done + n - 1] in s.calls && s.calls[s.counted[s.done + n - 1]].Releasing?)
  }

  ghost predicate QueueOk(s: Sys) {
    && Distinct(s.counted) && Distinct(s.queue)
    && (forall id :: id in s.counted ==> id < s.nextId)
    && (forall id :: id in s.calls ==> id < s.nextId)
    && (forall id :: id in s.queue ==> id in s.calls && s.calls[id] == Waiting(s.count == 0, Queued))
    && (forall id :: id in s.counted ==> id in s.calls || id in s.returned)
  }

  ghost predicate CallOk(n: nat, s: Sys, id: nat)
    requires n > 0 && id in s.calls
  {
    match s.calls[id]
    case Counting => id !in s.counted
    case Waiting(retry, result) =>
      && (retry <==> id !in s.counted)
      && (match result
          case Queued => id in s.queue
          case OwedBy(t) => t in s.calls && (if retry then s.calls[t].Retrying? else s.calls[t].Releasing?) && id in s.calls[t].pending
          case Given(code) =>
            if retry then code == RETRY
            else (code == LAST || code == RELEASED) && Completed(n, s, id, code == LAST))
    case Releasing(pending, rebuilt) =>
      && s.count == 0 && |s.counted| == s.done + n && id == s.counted[s.done + n - 1]
      && |pending| + rebuilt == n && rebuilt > 0 && pending == s.counted[s.done..s.done + |pending|]
      && (forall i :: i in pending ==> i in s.calls && s.calls[i] == Waiting(false, OwedBy(id)))
    case Retrying(pending) =>
      && Completed(n, s, id, true)
      && Distinct(pending)
      && (forall i :: i in pending ==> i in s.calls && s.calls[i] == Waiting(true, OwedBy(id)))
  }

  ghost predicate ReturnOk(n: nat, s: Sys, id: nat)
    requires n > 0 && id in s.returned
  {
    && id !in s.calls
    && Completed(n, s, id, s.returned[id])
  }

  ghost predicate Inv(n: nat, s: Sys)
    requires n > 0
  {
    && WordOk(n, s)
    && QueueOk(s)
    && (forall id :: id in s.calls ==> CallOk(n, s, id))
    && (forall id :: id in s.returned ==> ReturnOk(n, s, id))
  }

  // ---------- Steps ----------

  /** Positions among the count-downs of a generation that began at a multiple of `n`. */
  lemma PositionInGeneration(n: nat, done: nat, j: nat)
    requires j < n && done % n == 0
    ensures (done + j) % n == j && (done + n) % n == 0
  {
    var q := done / n;
    assert done == n * q;
    assert done + j == n * q + j;
    assert done + n == n * (q + 1) by {
      assert n * (q + 1) == n * q + n;
    }
    QuotientIsUnique(done + j, n, q, j);
    QuotientIsUnique(done + n, n, q + 1, 0);
  }

  lemma QuotientIsUnique(a: nat, n: nat, q: nat, r: nat)
    requires r < n && a == n * q + r
    ensures a % n == r
  {
    var d := a / n - q;
    assert n * d == r - a % n;
    assert d >= 1 ==> n * d >= n;
    assert d <= -1 ==> n * d + n <= 0;
  }

  /** Later count-downs do not change what is complete. */
  lemma CompletedStays(n: nat, s: Sys, s': Sys, id: nat, last: bool)
    requires n > 0 && Completed(n, s, id, last) && s.counted <= s'.counted
    ensures Completed(n, s', id, last)
  {
    var k: nat :| CountedAt(s, id, k) && EndOf(n, k) <= |s.counted| && last == IsLast(n, k);
    assert CountedAt(s', id, k);
  }

  /** What a waiting call depends on. */
  lemma KeepsWaiting(n: nat, s: Sys, s': Sys, id: nat)
    requires n > 0 && id in s.calls && s.calls[id].Waiting? && CallOk(n, s, id)
    requires id in s'.calls && s'.calls[id] == s.calls[id]
    requires s.counted <= s'.counted && (id in s'.counted ==> id in s.counted)
    requires s.calls[id].result == Queued ==> id in s'.queue
    requires s.calls[id].result.OwedBy? ==>
               var t := s.calls[id].result.setter;
               t in s'.calls && id in PendingOf(s'.calls[t]) && t in s.calls && s'.calls[t].Releasing? == s.calls[t].Releasing?
    ensures CallOk(n, s', id)
  {
    if s.calls[id].result.Given? && !s.calls[id].retry {
      CompletedStays(n, s, s', id, s.calls[id].result.code == LAST);
    }
  }

  function PendingOf(call: Call): seq<nat> {
    match call
    case Releasing(pending, _) => pending
    case Retrying(pending) => pending
    case _ => []
  }

  /** What a call that delivers results depends on. */
  lemma KeepsSetter(n: nat, s: Sys, s': Sys, id: nat)
    requires n > 0 && id in s.calls && !s.calls[id].Waiting? && CallOk(n, s, id)
    requires id in s'.calls && s'.calls[id] == s.calls[id]
    requires s.counted <= s'.counted && (id in s'.counted ==> id in s.counted)
    requires s.calls[id].Releasing? ==> s'.count == s.count && s'.done == s.done && s'.counted == s.counted
    requires forall i :: i in PendingOf(s.calls[id]) ==> i in s'.calls && s'.calls[i] == s.calls[i]
    ensures CallOk(n, s', id)
  {
    if s.calls[id].Retrying? {
      CompletedStays(n, s, s', id, true);
    }
  }

  lemma KeepsReturns(n: nat, s: Sys, s': Sys)
    requires n > 0 && s.counted <= s'.counted && s'.returned == s.returned
    requires forall id :: id in s.returned ==> ReturnOk(n, s, id) && id !in s'.calls
    ensures forall id :: id in s'.returned ==> ReturnOk(n, s', id)
  {
    forall id | id in s'.returned
      ensures ReturnOk(n, s', id)
    {
      assert ReturnOk(n, s, id);
      CompletedStays(n, s, s', id, s.returned[id]);
    }
  }

  lemma ArriveKeepsInv(n: nat, s: Sys)
    requires n > 0 && Inv(n, s)
    ensures Inv(n, Do(s, Arrive))
  {
    var s' := Do(s, Arrive);
    forall id | id in s'.calls
      ensures CallOk(n, s', id)
    {
      if id in s.calls {
        assert CallOk(n, s, id);
        if s.calls[id].Waiting? {
          KeepsWaiting(n, s, s', id);
        } else {
          KeepsSetter(n, s, s', id);
        }
      }
    }
    ReturnedAreOld(n, s);
    KeepsReturns(n, s, s');
  }

  lemma CompletedIsCounted(n: nat, s: Sys, id: nat, last: bool)
    requires n > 0 && Completed(n, s, id, last)
    ensures id in s.counted
  {
    var k: nat :| CountedAt(s, id, k) && EndOf(n, k) <= |s.counted| && last == IsLast(n, k);
  }

  lemma ReturnedAreOld(n: nat, s: Sys)
    requires n > 0 && QueueOk(s) && forall id :: id in s.returned ==> ReturnOk(n, s, id)
    ensures forall id :: id in s.returned ==> id < s.nextId && id !in s.calls && id in s.counted
  {
    forall id | id in s.returned
      ensures id in s.counted && id !in s.calls
    {
      assert ReturnOk(n, s, id);
      CompletedIsCounted(n, s, id, s.returned[id]);
    }
  }

  // ---------- Counting down ----------

  /** The count is zero: the call queues up to be told to try again. */
  lemma QueueForRetryKeepsInv(n: nat, s: Sys, t: nat)
    requires n > 0 && Inv(n, s) && Enabled(s, CountDown(t)) && s.count == 0
    ensures Inv(n, Do(s, CountDown(t)))
  {
    var s' := Do(s, CountDown(t));
    assert CallOk(n, s, t);
    assert t !in s.queue;
    forall id | id in s'.calls
      ensures CallOk(n, s', id)
    {
      if id != t {
        assert CallOk(n, s, id);
        OtherCallStays(n, s, s', t, id);
      } else {
        assert s'.queue[|s.queue|] == t;
      }
    }
    KeepsReturns(n, s, s');
  }

  /** The step of a counting call touches no other call as long as the barrier is not reset. */
  lemma OtherCallStays(n: nat, s: Sys, s': Sys, t: nat, id: nat)
    requires n > 0 && id in s.calls && CallOk(n, s, id) && id != t
    requires t in s.calls && s.calls[t].Counting?
    requires forall i :: i in s.calls && i != t ==> i in s'.calls && s'.calls[i] == s.calls[i]
    requires s'.count == s.count || (s.count > 1 && s'.count > 0)
    requires s'.done == s.done && s.queue <= s'.queue
    requires s'.counted == s.counted || (s.count > 1 && s'.counted == s.counted + [t])
    ensures CallOk(n, s', id)
  {
    if s.calls[id].Waiting? {
      KeepsWaiting(n, s, s', id);
    } else {
      KeepsSetter(n, s, s', id);
    }
  }

  /** The count is at least two. */
  lemma CountDownKeepsInv(n: nat, s: Sys, t: nat)
    requires n > 0 && Inv(n, s) && Enabled(s, CountDown(t)) && s.count > 1
    ensures Inv(n, Do(s, CountDown(t)))
  {
    var s' := Do(s, CountDown(t));
    assert CallOk(n, s, t);
    assert t !in s.queue && t !in s.counted;
    assert s'.counted[s.done..] == s.counted[s.done..] + [t];
    forall id | id in s'.calls
      ensures CallOk(n, s', id)
    {
      if id != t {
        assert CallOk(n, s, id);
        OtherCallStays(n, s, s', t, id);
      } else {
        assert s'.queue[|s.queue|] == t && s'.counted[|s.counted|] == t;
      }
    }
    KeepsReturns(n, s, s');
  }

  /** The count is one: the call empties the queue and goes on to reset the barrier. */
  lemma LastKeepsInv(n: nat, s: Sys, t: nat)
    requires n > 0 && Inv(n, s) && Enabled(s, CountDown(t)) && s.count == 1
    ensures Inv(n, Do(s, CountDown(t)))
  {
    var s' := Do(s, CountDown(t));
    LastKeepsWord(n, s, t);
    assert s'.counted[s.done..s.done + |s.queue|] == s.counted[s.done..];
    forall id | id in s'.calls
      ensures CallOk(n, s', id)
    {
      if id != t {
        assert CallOk(n, s, id);
        CallAtReset(n, s, s', t, id);
      }
    }
    KeepsReturns(n, s, s');
  }

  lemma LastKeepsWord(n: nat, s: Sys, t: nat)
    requires n > 0 && Inv(n, s) && Enabled(s, CountDown(t)) && s.count == 1
    ensures t !in s.queue && t !in s.counted
    ensures WordOk(n, Do(s, CountDown(t))) && QueueOk(Do(s, CountDown(t)))
  {
    assert CallOk(n, s, t);
  }

  lemma CallAtReset(n: nat, s: Sys, s': Sys, t: nat, id: nat)
    requires n > 0 && id in s.calls && CallOk(n, s, id) && id != t
    requires t in s.calls && s.calls[t].Counting? && s.count == 1
    requires s'.calls == Owe(s.calls, s.queue, t)[t := Releasing(s.queue, 1)]
    requires forall i :: i in s.queue ==> i in s.calls && s.calls[i] == Waiting(false, Queued)
    requires s'.counted == s.counted + [t]
    ensures CallOk(n, s', id)
  {
    if id in s.queue {
      assert s'.calls[id] == Waiting(false, OwedBy(t));
    } else if s.calls[id].Waiting? {
      KeepsWaiting(n, s, s', id);
    } else {
      KeepsSetter(n, s, s', id);
    }
  }

  // ---------- Resetting ----------

  /** The count that is swapped in is the number of tasks, and whoever queued up meanwhile is told. */
  lemma SwapKeepsInv(n: nat, s: Sys, t: nat)
    requires n > 0 && Inv(n, s) && Enabled(s, Swap(t))
    ensures Inv(n, Do(s, Swap(t)))
  {
    var s' := Do(s, Swap(t));
    assert CallOk(n, s, t);
    PositionInGeneration(n, s.done, n - 1);
    assert CountedAt(s', t, s.done + n - 1);
    assert s'.counted[s'.done..] == [];
    forall id | id in s'.calls
      ensures CallOk(n, s', id)
    {
      if id != t {
        assert CallOk(n, s, id);
        CallAtSwap(n, s, s', t, id);
      }
    }
    KeepsReturns(n, s, s');
  }

  lemma CallAtSwap(n: nat, s: Sys, s': Sys, t: nat, id: nat)
    requires n > 0 && id in s.calls && CallOk(n, s, id) && id != t
    requires t in s.calls && s.calls[t].Releasing? && s.calls[t].pending == [] && CallOk(n, s, t)
    requires s'.calls == Owe(s.calls, s.queue, t)[t := Retrying(s.queue)]
    requires forall i :: i in s.queue ==> i in s.calls && s.calls[i] == Waiting(true, Queued)
    requires s'.counted == s.counted
    ensures CallOk(n, s', id)
  {
    if id in s.queue {
      assert s'.calls[id] == Waiting(true, OwedBy(t));
    } else if s.calls[id].Waiting? {
      KeepsWaiting(n, s, s', id);
    } else {
      KeepsSetter(n, s, s', id);
    }
  }

  /** Delivering a result to the newest call of a list changes that call and the list only. */
  lemma CallAtDelivery(n: nat, s: Sys, t: nat, code: nat, next: Call, id: nat)
    requires n > 0 && id in s.calls && CallOk(n, s, id) && id != t
    requires t in s.calls && (s.calls[t].Releasing? || s.calls[t].Retrying?) && CallOk(n, s, t)
    requires s.calls[t].pending != [] && AwaitsResult(s, Newest(s.calls[t].pending))
    requires id != Newest(s.calls[t].pending)
    requires next.Releasing? == s.calls[t].Releasing? && next.Retrying? == s.calls[t].Retrying?
    requires PendingOf(next) == Older(s.calls[t].pending)
    ensures CallOk(n, Deliver(s, t, code, next), id)
  {
    var s' := Deliver(s, t, code, next);
    var pending := s.calls[t].pending;
    assert forall i :: i in pending && i != Newest(pending) ==> i in Older(pending);
    if s.calls[id].Waiting? {
      KeepsWaiting(n, s, s', id);
    } else {
      KeepsSetter(n, s, s', id);
    }
  }

  /** Delivering a result touches neither the word nor the queue. */
  lemma DeliveryKeepsWord(n: nat, s: Sys, t: nat, code: nat, next: Call)
    requires n > 0 && WordOk(n, s) && QueueOk(s)
    requires t in s.calls && (s.calls[t].Releasing? || s.calls[t].Retrying?)
    requires s.calls[t].pending != [] && AwaitsResult(s, Newest(s.calls[t].pending))
    requires s.calls[Newest(s.calls[t].pending)].result.OwedBy?
    requires next.Releasing? == s.calls[t].Releasing? && next.Retrying? == s.calls[t].Retrying?
    ensures WordOk(n, Deliver(s, t, code, next)) && QueueOk(Deliver(s, t, code, next))
  {
  }

  /** The call that gets its result was not the last of its generation, which is complete. */
  lemma ReleaseOneLocal(n: nat, s: Sys, t: nat)
    requires n > 0 && WordOk(n, s) && Enabled(s, ReleaseOne(t)) && CallOk(n, s, t)
    requires Distinct(s.counted)
    ensures CallOk(n, Do(s, ReleaseOne(t)), t)
    ensures CallOk(n, Do(s, ReleaseOne(t)), Newest(s.calls[t].pending))
  {
    var s' := Do(s, ReleaseOne(t));
    var pending := s.calls[t].pending;
    var j := |pending| - 1;
    assert Newest(pending) == s.counted[s.done + j];
    PositionInGeneration(n, s.done, j);
    assert CountedAt(s', Newest(pending), s.done + j);
    assert Older(pending) == s.counted[s.done..s.done + j];
  }

  lemma ReleaseOneKeepsInv(n: nat, s: Sys, t: nat)
    requires n > 0 && Inv(n, s) && Enabled(s, ReleaseOne(t))
    ensures Inv(n, Do(s, ReleaseOne(t)))
  {
    var s' := Do(s, ReleaseOne(t));
    assert CallOk(n, s, t);
    var newest := Newest(s.calls[t].pending);
    ReleaseOneLocal(n, s, t);
    DeliveryKeepsWord(n, s, t, RELEASED, s'.calls[t]);
    forall id | id in s'.calls
      ensures CallOk(n, s', id)
    {
      if id != t && id != newest {
        assert CallOk(n, s, id);
        CallAtDelivery(n, s, t, RELEASED, s'.calls[t], id);
      }
    }
    KeepsReturns(n, s, s');
  }

  lemma RetryOneKeepsInv(n: nat, s: Sys, t: nat)
    requires n > 0 && Inv(n, s) && Enabled(s, RetryOne(t))
    ensures Inv(n, Do(s, RetryOne(t)))
  {
    var s' := Do(s, RetryOne(t));
    assert CallOk(n, s, t);
    var newest := Newest(s.calls[t].pending);
    DeliveryKeepsWord(n, s, t, RETRY, s'.calls[t]);
    forall id | id in s'.calls
      ensures CallOk(n, s', id)
    {
      assert CallOk(n, s, id);
      if id == t {
        CompletedStays(n, s, s', id, true);
      } else if id != newest {
        CallAtDelivery(n, s, t, RETRY, s'.calls[t], id);
      }
    }
    KeepsReturns(n, s, s');
  }

  lemma FinishKeepsInv(n: nat, s: Sys, t: nat)
    requires n > 0 && Inv(n, s) && Enabled(s, Finish(t))
    ensures Inv(n, Do(s, Finish(t)))
  {
    var s' := Do(s, Finish(t));
    assert CallOk(n, s, t);
    CompletedStays(n, s, s', t, true);
    CompletedIsCounted(n, s, t, true);
    forall id | id in s'.calls
      ensures CallOk(n, s', id)
    {
      if id != t {
        assert CallOk(n, s, id);
        if s.calls[id].Waiting? {
          KeepsWaiting(n, s, s', id);
        } else {
          KeepsSetter(n, s, s', id);
        }
      }
    }
    KeepsReturns(n, s, s');
  }

  lemma ReturnKeepsInv(n: nat, s: Sys, t: nat)
    requires n > 0 && Inv(n, s) && Enabled(s, Return(t))
    ensures Inv(n, Do(s, Return(t)))
  {
    assert CallOk(n, s, t);
    ReturnKeepsWord(n, s, t);
    ReturnKeepsCalls(n, s, t);
    ReturnKeepsReturns(n, s, t);
  }

  lemma ReturnKeepsWord(n: nat, s: Sys, t: nat)
    requires n > 0 && WordOk(n, s) && QueueOk(s) && Enabled(s, Return(t)) && CallOk(n, s, t)
    ensures WordOk(n, Do(s, Return(t))) && QueueOk(Do(s, Return(t)))
  {
  }

  lemma ReturnKeepsCalls(n: nat, s: Sys, t: nat)
    requires n > 0 && Enabled(s, Return(t))
    requires forall id :: id in s.calls ==> CallOk(n, s, id)
    ensures forall id :: id in Do(s, Return(t)).calls ==> CallOk(n, Do(s, Return(t)), id)
  {
    var s' := Do(s, Return(t));
    assert CallOk(n, s, t);
    forall id | id in s'.calls
      ensures CallOk(n, s', id)
    {
      if id != t {
        assert CallOk(n, s, id);
        if s.calls[id].Waiting? {
          KeepsWaiting(n, s, s', id);
        } else {
          KeepsSetter(n, s, s', id);
        }
      }
    }
  }

  lemma ReturnKeepsReturns(n: nat, s: Sys, t: nat)
    requires n > 0 && Enabled(s, Return(t)) && CallOk(n, s, t)
    requires forall id :: id in s.returned ==> ReturnOk(n, s, id)
    ensures forall id :: id in Do(s, Return(t)).returned ==> ReturnOk(n, Do(s, Return(t)), id)
  {
    var s' := Do(s, Return(t));
    forall id | id in s'.returned
      ensures ReturnOk(n, s', id)
    {
      if id != t {
        assert ReturnOk(n, s, id);
      }
      CompletedStays(n, s, s', id, s'.returned[id]);
    }
  }

  lemma StepKeepsInv(n: nat, s: Sys, l: Label)
    requires n > 0 && Inv(n, s) && Enabled(s, l)
    ensures Inv(n, Do(s, l))
  {
    match l
    case Arrive => ArriveKeepsInv(n, s);
    case CountDown(t) =>
      if s.count == 0 {
        QueueForRetryKeepsInv(n, s, t);
      } else if s.count == 1 {
        LastKeepsInv(n, s, t);
      } else {
        CountDownKeepsInv(n, s, t);
      }
    case ReleaseOne(t) => ReleaseOneKeepsInv(n, s, t);
    case Swap(t) => SwapKeepsInv(n, s, t);
    case RetryOne(t) => RetryOneKeepsInv(n, s, t);
    case Finish(t) => FinishKeepsInv(n, s, t);
    case Return(t) => ReturnKeepsInv(n, s, t);
  }

  lemma {:induction false} RunKeepsInv(n: nat, s: Sys, run: seq<Label>)
    requires n > 0 && Inv(n, s) && Legal(s, run)
    ensures Inv(n, Final(s, run))
    decreases |run|
  {
    if run != [] {
      StepKeepsInv(n, s, run[0]);
      RunKeepsInv(n, Do(s, run[0]), run[1..]);
    }
  }

  /** The states that some interleaving of any number of calls reaches. */
  ghost predicate Reachable(n: nat, s: Sys) {
    exists run: seq<Label> :: Legal(Init(n), run) && Final(Init(n), run) == s
  }

  lemma ReachableHoldsInv(n: nat, s: Sys)
    requires n > 0 && Reachable(n, s)
    ensures Inv(n, s)
  {
    var run: seq<Label> :| Legal(Init(n), run) && Final(Init(n), run) == s;
    RunKeepsInv(n, Init(n), run);
  }

  // ---------- Theorems ----------

  /** The count and the queue add up to the number of tasks, except while the barrier is reset. */
  lemma CountIsConserved(n: nat, s: Sys)
    requires n > 0 && Reachable(n, s) && s.count != 0
    ensures s.count + |s.queue| == n
    ensures forall id :: id in s.queue ==> id in s.calls && s.calls[id] == Waiting(false, Queued) && id in s.counted
    ensures forall t :: t in s.calls ==> !s.calls[t].Releasing?
  {
    ReachableHoldsInv(n, s);
    forall id | id in s.calls
      ensures CallOk(n, s, id)
    {
    }
  }

  /** While the count is zero exactly one call resets the barrier, and nobody in the queue has counted down. */
  lemma OneCallResets(n: nat, s: Sys)
    requires n > 0 && Reachable(n, s) && s.count == 0
    ensures exists t :: t in s.calls && s.calls[t].Releasing?
    ensures forall t, u :: t in s.calls && u in s.calls && s.calls[t].Releasing? && s.calls[u].Releasing? ==> t == u
    ensures forall id :: id in s.queue ==> id in s.calls && s.calls[id] == Waiting(true, Queued) && id !in s.counted
  {
    ReachableHoldsInv(n, s);
    forall id | id in s.calls
      ensures CallOk(n, s, id)
    {
    }
  }

  /** The count rebuilt by walking the queue is the number of tasks, in every generation. */
  lemma RebuiltCountIsExact(n: nat, s: Sys, t: nat)
    requires n > 0 && Reachable(n, s) && Enabled(s, Swap(t))
    ensures Do(s, Swap(t)).count == n && |s.counted| == s.done + n
  {
    ReachableHoldsInv(n, s);
    assert CallOk(n, s, t);
  }

  /**
   Generations. The count-downs of all calls, in order, fall into generations of `n`. A call that
   has returned counted down exactly once, its generation was complete by then, and it returned
   `true` exactly if its count-down was the last of its generation.
   */
  lemma Generations(n: nat, s: Sys, id: nat)
    requires n > 0 && Reachable(n, s) && id in s.returned
    ensures multiset(s.counted)[id] == 1
    ensures exists k: nat :: CountedAt(s, id, k) && EndOf(n, k) <= |s.counted| && (s.returned[id] <==> IsLast(n, k))
  {
    ReachableHoldsInv(n, s);
    assert ReturnOk(n, s, id);
    CompletedIsCounted(n, s, id, s.returned[id]);
    DistinctMeansOnce(s.counted, id);
  }

  /**
   Of the `n` calls of one generation exactly one returns `true`: once all of them have returned,
   it is the one that counted down last.
   */
  lemma OneCallReturnsTrue(n: nat, s: Sys, start: nat)
    requires n > 0 && Reachable(n, s) && start % n == 0 && start + n <= |s.counted|
    requires forall k :: start <= k < start + n ==> s.counted[k] in s.returned
    ensures forall k :: start <= k < start + n ==> (s.returned[s.counted[k]] <==> k == start + n - 1)
  {
    ReachableHoldsInv(n, s);
    forall k | start <= k < start + n
      ensures s.returned[s.counted[k]] <==> k == start + n - 1
    {
      assert ReturnOk(n, s, s.counted[k]);
      var j: nat :| CountedAt(s, s.counted[k], j) && EndOf(n, j) <= |s.counted| && s.returned[s.counted[k]] == IsLast(n, j);
      assert j == k;
      PositionInGeneration(n, start, k - start);
    }
  }

  /** A call that is told to try again has not counted down, and no call counts down twice. */
  lemma RetryHasNotCounted(n: nat, s: Sys, t: nat)
    requires n > 0 && Reachable(n, s) && t in s.calls
    ensures s.calls[t].Counting? || (s.calls[t].Waiting? && s.calls[t].retry) ==> t !in s.counted
    ensures s.calls[t].Waiting? && s.calls[t].result == Given(RETRY) ==> s.calls[t].retry
    ensures multiset(s.counted)[t] <= 1
  {
    ReachableHoldsInv(n, s);
    assert CallOk(n, s, t);
    DistinctMeansOnce(s.counted, t);
  }

  /** Results are set once: a call whose result is due has none yet. */
  lemma ResultIsSetOnce(n: nat, s: Sys, t: nat)
    requires n > 0 && Reachable(n, s) && t in s.calls
    requires (s.calls[t].Releasing? || s.calls[t].Retrying?) && PendingOf(s.calls[t]) != []
    ensures var id := Newest(PendingOf(s.calls[t]));
            AwaitsResult(s, id) && s.calls[id].result == OwedBy(t) && s.calls[id].retry == s.calls[t].Retrying?
  {
    ReachableHoldsInv(n, s);
    assert CallOk(n, s, t);
    assert Newest(PendingOf(s.calls[t])) in PendingOf(s.calls[t]);
  }

  /**
   Nobody is left behind: when every call waits for a result that nobody owes it, the barrier is
   not being reset, and those who wait are exactly those who have counted down since the last reset.
   */
  lemma NobodyIsLeftBehind(n: nat, s: Sys)
    requires n > 0 && Reachable(n, s)
    requires forall id :: id in s.calls ==> s.calls[id].Waiting? && !s.calls[id].result.Given?
    ensures s.count > 0 && s.count + |s.queue| == n && s.done <= |s.counted| && s.queue == s.counted[s.done..]
    ensures forall id :: id in s.calls <==> id in s.queue
  {
    ReachableHoldsInv(n, s);
    forall id | id in s.calls
      ensures id in s.queue
    {
      assert CallOk(n, s, id);
    }
  }
}
