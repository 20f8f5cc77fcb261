/**
 Progress of the barrier: without new calls it comes to rest, and then the calls of every complete
 generation have returned, and all others wait, having counted down once. A rank built from the
 calls that have not counted down yet, from whether the barrier is being reset, and from how far
 each call has come, falls with every step; and until the barrier rests there is a step to take.
 */
module GenerationProgress {
  import opened FairQueue
  import opened Barrier
  import opened Measures

  // ---------- The rank ----------

  function NotCounted(s: Sys): set<nat> {
    set id | id in s.calls && id !in s.counted
  }

  function Resetting(s: Sys): nat {
    if s.count == 0 then 1 else 0
  }

  /** How far a call is from its end, as long as the barrier is not reset again. */
  function Weight(call: Call): nat {
    match call
    case Counting => 4
    case Waiting(retry, Queued) => 3
    case Waiting(retry, OwedBy(_)) => if retry then 6 else 2
    case Waiting(retry, Given(_)) => if retry then 5 else 1
    case Releasing(_, _) => 4
    case Retrying(_) => 3
  }

  function Weights(calls: map<nat, Call>): map<nat, nat> {
    map id | id in calls :: Weight(calls[id])
  }

  ghost function Work(s: Sys): nat {
    Sum(Weights(s.calls))
  }

  ghost predicate LowerRank(s': Sys, s: Sys) {
    || |NotCounted(s')| < |NotCounted(s)|
    || (|NotCounted(s')| == |NotCounted(s)|
        && (Resetting(s') < Resetting(s) || (Resetting(s') == Resetting(s) && Work(s') < Work(s))))
  }

  lemma CountingLowersRank(n: nat, s: Sys, t: nat)
    requires n > 0 && Inv(n, s) && Enabled(s, CountDown(t)) && s.count != 0
    ensures LowerRank(Do(s, CountDown(t)), s)
  {
    assert CallOk(n, s, t);
    assert NotCounted(Do(s, CountDown(t))) == NotCounted(s) - {t};
    assert t in NotCounted(s);
  }

  lemma WorkFalls(s: Sys, s': Sys, t: nat)
    requires s'.calls.Keys <= s.calls.Keys && t in s.calls
    requires forall id :: id in s'.calls ==> Weight(s'.calls[id]) <= Weight(s.calls[id])
    requires t in s'.calls ==> Weight(s'.calls[t]) < Weight(s.calls[t])
    ensures Work(s') < Work(s)
  {
    SumDecreases(Weights(s.calls), Weights(s'.calls), t);
  }

  lemma SwapLowersRank(n: nat, s: Sys, t: nat)
    requires n > 0 && Inv(n, s) && Enabled(s, Swap(t))
    ensures LowerRank(Do(s, Swap(t)), s)
  {
    assert CallOk(n, s, t);
    assert NotCounted(Do(s, Swap(t))) == NotCounted(s);
  }

  lemma DeliveryLowersRank(n: nat, s: Sys, l: Label)
    requires n > 0 && Inv(n, s) && Enabled(s, l) && (l.ReleaseOne? || l.RetryOne?)
    ensures LowerRank(Do(s, l), s)
  {
    assert CallOk(n, s, l.t);
    var id := Newest(PendingOf(s.calls[l.t]));
    assert id in PendingOf(s.calls[l.t]);
    assert NotCounted(Do(s, l)) == NotCounted(s);
    WorkFalls(s, Do(s, l), id);
  }

  lemma OwnStepLowersRank(n: nat, s: Sys, l: Label)
    requires n > 0 && Inv(n, s) && Enabled(s, l)
    requires (l.CountDown? && s.count == 0) || l.Finish? || l.Return?
    ensures LowerRank(Do(s, l), s)
  {
    assert CallOk(n, s, l.t);
    assert NotCounted(Do(s, l)) == NotCounted(s);
    WorkFalls(s, Do(s, l), l.t);
  }

  /** Every step but a new call brings the barrier closer to rest. */
  lemma StepLowersRank(n: nat, s: Sys, l: Label)
    requires n > 0 && Reachable(n, s) && Enabled(s, l) && l != Arrive
    ensures LowerRank(Do(s, l), s)
  {
    ReachableHoldsInv(n, s);
    match l
    case CountDown(t) =>
      if s.count == 0 {
        OwnStepLowersRank(n, s, l);
      } else {
        CountingLowersRank(n, s, t);
      }
    case Swap(t) => SwapLowersRank(n, s, t);
    case ReleaseOne(_) | RetryOne(_) => DeliveryLowersRank(n, s, l);
    case Finish(_) | Return(_) => OwnStepLowersRank(n, s, l);
  }

  // ---------- There is a step to take ----------

  /** Every call waits in the queue, and no result is due. */
  ghost predicate AtRest(s: Sys) {
    forall id :: id in s.calls ==> s.calls[id].Waiting? && s.calls[id].result == Queued
  }

  lemma SetterMoves(n: nat, s: Sys, t: nat) returns (l: Label)
    requires n > 0 && Inv(n, s) && t in s.calls && (s.calls[t].Releasing? || s.calls[t].Retrying?)
    ensures l != Arrive && Enabled(s, l)
  {
    assert CallOk(n, s, t);
    var pending := PendingOf(s.calls[t]);
    if pending == [] {
      l := if s.calls[t].Releasing? then Swap(t) else Finish(t);
    } else {
      assert Newest(pending) in pending;
      l := if s.calls[t].Releasing? then ReleaseOne(t) else RetryOne(t);
    }
  }

  /** Until the barrier rests, some call can take a step. */
  lemma SomeoneMoves(n: nat, s: Sys) returns (l: Label)
    requires n > 0 && Reachable(n, s) && !AtRest(s)
    ensures l != Arrive && Enabled(s, l) && LowerRank(Do(s, l), s)
  {
    ReachableHoldsInv(n, s);
    var id :| id in s.calls && !(s.calls[id].Waiting? && s.calls[id].result == Queued);
    assert CallOk(n, s, id);
    match s.calls[id] {
      case Counting => l := CountDown(id);
      case Waiting(_, Given(_)) => l := Return(id);
      case Waiting(_, OwedBy(t)) => l := SetterMoves(n, s, t);
      case _ => l := SetterMoves(n, s, id);
    }
    StepLowersRank(n, s, l);
  }

  // ---------- Fair runs ----------

  /** Some call, not a new one, takes a step between `i` and `i + 1`. */
  ghost predicate StepAt(run: nat -> Sys, i: nat) {
    exists l :: l != Arrive && Enabled(run(i), l) && Do(run(i), l) == run(i + 1)
  }

  ghost predicate StepOrStill(run: nat -> Sys, i: nat) {
    run(i + 1) == run(i) || StepAt(run, i)
  }

  ghost predicate StepFollows(run: nat -> Sys, i: nat) {
    !AtRest(run(i)) ==> exists j: nat :: i <= j && StepAt(run, j)
  }

  /** An infinite run without new calls in which, until the barrier rests, some step is eventually taken. */
  ghost predicate FairRun(run: nat -> Sys) {
    && (forall i: nat :: StepOrStill(run, i))
    && (forall i: nat :: StepFollows(run, i))
  }

  lemma Advance(n: nat, run: nat -> Sys, i: nat) returns (k: nat)
    requires n > 0 && FairRun(run) && Reachable(n, run(i)) && !AtRest(run(i))
    ensures i < k && Reachable(n, run(k)) && LowerRank(run(k), run(i)) && run(k).nextId == run(i).nextId
  {
    assert StepFollows(run, i);
    var m: nat :| i <= m && StepAt(run, m);
    var step := (j: nat) => StepAt(run, j);
    forall j: nat
      ensures StillOr(run, step, j)
    {
      assert StepOrStill(run, j);
    }
    var j := FirstStep(run, step, i, m);
    var l :| l != Arrive && Enabled(run(j), l) && Do(run(j), l) == run(j + 1);
    k := j + 1;
    StepLowersRank(n, run(j), l);
    StepStaysReachable(n, run(j), l);
  }

  lemma {:induction false} RestsFrom(n: nat, run: nat -> Sys, i: nat) returns (m: nat)
    requires n > 0 && FairRun(run) && Reachable(n, run(i))
    ensures AtRest(run(m)) && Reachable(n, run(m)) && run(m).nextId == run(i).nextId
    decreases |NotCounted(run(i))|, Resetting(run(i)), Work(run(i))
  {
    if AtRest(run(i)) {
      m := i;
    } else {
      var k := Advance(n, run, i);
      m := RestsFrom(n, run, k);
    }
  }

  lemma {:induction false} RunThenStep(s: Sys, run: seq<Label>, l: Label)
    requires Legal(s, run) && Enabled(Final(s, run), l)
    ensures Legal(s, run + [l]) && Final(s, run + [l]) == Do(Final(s, run), l)
    decreases |run|
  {
    if run == [] {
      assert run + [l] == [l];
      assert [l][1..] == [];
    } else {
      assert (run + [l])[1..] == run[1..] + [l];
      RunThenStep(Do(s, run[0]), run[1..], l);
    }
  }

  lemma StepStaysReachable(n: nat, s: Sys, l: Label)
    requires Reachable(n, s) && Enabled(s, l)
    ensures Reachable(n, Do(s, l))
  {
    var run: seq<Label> :| Legal(Init(n), run) && Final(Init(n), run) == s;
    RunThenStep(Init(n), run, l);
  }

  // ---------- Nobody is forgotten ----------

  /** Every call that has ever begun is still there, or has returned. */
  ghost predicate Accounted(s: Sys) {
    forall id: nat :: id < s.nextId ==> id in s.calls || id in s.returned
  }

  lemma {:induction false} RunKeepsAccounted(s: Sys, run: seq<Label>)
    requires Accounted(s) && Legal(s, run)
    ensures Accounted(Final(s, run))
    decreases |run|
  {
    if run != [] {
      RunKeepsAccounted(Do(s, run[0]), run[1..]);
    }
  }

  /** A sequence without duplicates of all numbers below `k` has length `k`. */
  lemma {:induction false} CountBelow(ids: seq<nat>, k: nat)
    requires Distinct(ids)
    requires forall id: nat :: id in ids ==> id < k
    requires forall id: nat :: id < k ==> id in ids
    ensures |ids| == k
    decreases k
  {
    if ids == [] {
      assert k == 0 || 0 !in ids;
    } else {
      assert ids[0] in ids;
      var i := IndexOf(ids, k - 1);
      var rest := RemoveAt(ids, i);
      forall j | 0 <= j < |rest|
        ensures rest[j] < k - 1
      {
        var from := if j < i then j else j + 1;
        assert rest[j] == ids[from] && ids[from] in ids;
      }
      forall id: nat | id < k - 1
        ensures id in rest
      {
        assert id in ids;
        var j := IndexOf(ids, id);
        assert rest[if j < i then j else j - 1] == id;
      }
      CountBelow(rest, k - 1);
    }
  }

  /**
   What rest means: of all calls that ever began, each has counted down exactly once; those of
   complete generations have returned, and the others, fewer than `n`, wait in the queue.
   */
  ghost predicate Settled(n: nat, s: Sys) {
    && s.done <= |s.counted| < s.done + n && s.done % n == 0
    && |s.counted| == s.nextId
    && (forall id: nat :: id < s.nextId ==> multiset(s.counted)[id] == 1)
    && (forall k :: 0 <= k < s.done ==> s.counted[k] in s.returned)
    && (forall k :: s.done <= k < |s.counted| ==> s.counted[k] in s.calls && s.calls[s.counted[k]] == Waiting(false, Queued))
    && s.count == n - (|s.counted| - s.done) && s.queue == s.counted[s.done..]
  }

  lemma RestIsSettled(n: nat, s: Sys)
    requires n > 0 && Reachable(n, s) && AtRest(s)
    ensures Settled(n, s)
  {
    ReachableHoldsInv(n, s);
    NobodyIsLeftBehind(n, s);
    var run: seq<Label> :| Legal(Init(n), run) && Final(Init(n), run) == s;
    RunKeepsAccounted(Init(n), run);
    forall id: nat | id < s.nextId
      ensures id in s.counted && multiset(s.counted)[id] == 1
    {
      DistinctMeansOnce(s.counted, id);
      if id in s.returned {
        assert ReturnOk(n, s, id);
        CompletedIsCounted(n, s, id, s.returned[id]);
      } else {
        assert id in s.queue;
      }
    }
    CountBelow(s.counted, s.nextId);
    forall k | s.done <= k < |s.counted|
      ensures s.counted[k] in s.calls && s.calls[s.counted[k]] == Waiting(false, Queued)
    {
      assert s.queue[k - s.done] == s.counted[k];
    }
    forall k | 0 <= k < s.done
      ensures s.counted[k] in s.returned
    {
      assert s.counted[k] in s.counted && s.counted[k] !in s.queue;
    }
  }

  /**
   Every fair run without new calls comes to rest: every call that ever began has counted down once,
   however often it was told to try again, and has returned unless its generation is incomplete.
   */
  lemma EveryFairRunRests(n: nat, run: nat -> Sys)
    requires n > 0 && Reachable(n, run(0)) && FairRun(run)
    ensures exists m: nat :: Settled(n, run(m)) && run(m).nextId == run(0).nextId
  {
    var m := RestsFrom(n, run, 0);
    RestIsSettled(n, run(m));
  }

  // ---------- Any number of calls ----------

  lemma {:induction false} ComeToRest(n: nat, s: Sys) returns (s': Sys)
    requires n > 0 && Reachable(n, s)
    ensures Reachable(n, s') && AtRest(s') && s'.nextId == s.nextId
    decreases |NotCounted(s)|, Resetting(s), Work(s)
  {
    if AtRest(s) {
      s' := s;
    } else {
      var l := SomeoneMoves(n, s);
      StepStaysReachable(n, s, l);
      s' := ComeToRest(n, Do(s, l));
    }
  }

  /**
   Any number of calls can be made. The first `k` calls come to rest together: all but the last
   `k % n` that counted down have returned.
   */
  lemma {:induction false} CallsSettle(n: nat, k: nat) returns (s: Sys)
    requires n > 0
    ensures Reachable(n, s) && AtRest(s) && Settled(n, s) && |s.counted| == k
  {
    if k == 0 {
      s := Init(n);
      assert Legal(Init(n), []) && Final(Init(n), []) == s;
    } else {
      var s0 := CallsSettle(n, k - 1);
      StepStaysReachable(n, s0, Arrive);
      s := ComeToRest(n, Do(s0, Arrive));
      RestIsSettled(n, s);
    }
  }
}
