/**
 The gate: tasks queue up while it is controlled, and whoever permits, rejects, opens or seals it
 takes the whole queue out in one atomic update and then gives every entry its result.
 */
module Gate {
  import opened FairQueue
  import LinkedQueue

  datatype State = Controlled | Sealed | Open
  {
    function Code(): nat {
      match this
      case Controlled => 0
      case Sealed => 1
      case Open => 2
    }
  }

  const REJECTED := 4
  const SEALED_ERROR := 8
  const SPURIOUS_FAILURE := 12

  /** What the callers of `wake_all` ask for: `permit`, `reject`, `open`, `seal`, or a dropped pager. */
  predicate Request(next: Option<State>, error: nat) {
    || (next == None && (error == 0 || error == REJECTED || error == SPURIOUS_FAILURE))
    || (next == Some(Open) && error == 0)
    || (next == Some(Sealed) && error == SEALED_ERROR)
  }

  function NextState(state: State, next: Option<State>): State {
    match next
    case Some(s) => s
    case None => state
  }

  // ---------- All interleavings ----------

  /**
   One call of `wake_all`: it took out the entries that were pushed at positions `start` to `end`,
   and the oldest `left` of them still lack their result.
   */
  datatype Walk = Walk(before: State, start: nat, end: nat, left: nat, code: nat)
  {
    predicate Took(k: nat) {
      start <= k < end
    }

    predicate HasSet(k: nat) {
      start + left <= k < end
    }

    /** What `wake_all` returns when it is done. */
    function Count(): int {
      end - start - left
    }
  }

  datatype Sys = Sys(
    state: State,
    queue: seq<nat>,        // entries, oldest first
    results: map<nat, nat>,
    walks: seq<Walk>,       // all calls of `wake_all`, in the order of their updates of the word
    nextId: nat,
    pushed: seq<nat>)       // all entries that were ever pushed, in order

  datatype Label =
    | Enter
    | WakeAll(next: Option<State>, error: nat)
    | SetOne(w: nat)

  predicate Enabled(s: Sys, l: Label) {
    match l
    case Enter => true
    case WakeAll(next, error) => Request(next, error)
    case SetOne(w) => w < |s.walks| && s.walks[w].left > 0 && s.walks[w].start + s.walks[w].left <= |s.pushed|
  }

  function Do(s: Sys, l: Label): Sys
    requires Enabled(s, l)
  {
    match l
    case Enter =>
      if s.state == Controlled then
        s.(queue := s.queue + [s.nextId], pushed := s.pushed + [s.nextId], nextId := s.nextId + 1)
      else
        var error := if s.state == Sealed then SEALED_ERROR else 0;
        s.(results := s.results[s.nextId := s.state.Code() + error], nextId := s.nextId + 1)
    case WakeAll(next, error) =>
      var state' := NextState(s.state, next);
      var end := |s.pushed|;
      var start := if |s.queue| <= end then end - |s.queue| else 0;
      s.(state := state', queue := [],
         walks := s.walks + [Walk(s.state, start, end, end - start, state'.Code() + error)])
    case SetOne(w) =>
      var walk := s.walks[w];
      s.(results := s.results[s.pushed[walk.start + walk.left - 1] := walk.code],
         walks := s.walks[w := walk.(left := walk.left - 1)])
  }

  function Init(): Sys {
    Sys(Controlled, [], map[], [], 0, [])
  }

  predicate Legal(s: Sys, run: seq<Label>)
    decreases |run|
  {
    run == [] || (Enabled(s, run[0]) && Legal(Do(s, run[0]), run[1..]))
  }

  function Final(s: Sys, run: seq<Label>): Sys
    requires Legal(s, run)
    decreases |run|
  {
    if run == [] then s else Final(Do(s, run[0]), run[1..])
  }

  /** How many of the pushed entries have been taken out. */
  function Taken(s: Sys): nat {
    if s.walks == [] then 0 else s.walks[|s.walks| - 1].end
  }

  ghost predicate WalkOk(s: Sys, w: nat)
    requires w < |s.walks|
  {
    var walk := s.walks[w];
    && walk.start == (if w == 0 then 0 else s.walks[w - 1].end)
    && walk.start + walk.left <= walk.end <= |s.pushed|
    && (walk.before != Controlled ==> walk.start == walk.end)
  }

  /** The entry pushed at position `k` has a result exactly if its walk has come to it. */
  ghost predicate EntryOk(s: Sys, k: nat)
    requires k < |s.pushed|
  {
    && (k >= Taken(s) ==> s.pushed[k] !in s.results)
    && (forall w :: 0 <= w < |s.walks| && s.walks[w].Took(k) ==>
          if s.walks[w].HasSet(k) then s.pushed[k] in s.results && s.results[s.pushed[k]] == s.walks[w].code
          else s.pushed[k] !in s.results)
  }

  ghost predicate Inv(s: Sys) {
    && (s.state != Controlled ==> s.queue == [])
    && Taken(s) <= |s.pushed| && s.queue == s.pushed[Taken(s)..]
    && (forall w :: 0 <= w < |s.walks| ==> WalkOk(s, w))
    && (forall k :: 0 <= k < |s.pushed| ==> EntryOk(s, k))
    && Distinct(s.pushed)
    && (forall i :: 0 <= i < |s.pushed| ==> s.pushed[i] < s.nextId)
    && (forall id :: id in s.results ==> id < s.nextId)
  }

  /** Walks follow each other: what one took, no other took. */
  lemma {:induction false} WalksAreDisjoint(s: Sys, v: nat, w: nat)
    requires v < w < |s.walks| && forall u :: 0 <= u < |s.walks| ==> WalkOk(s, u)
    ensures s.walks[v].end <= s.walks[w].start
    decreases w
  {
    assert WalkOk(s, w) && WalkOk(s, w - 1);
    if v < w - 1 {
      WalksAreDisjoint(s, v, w - 1);
    }
  }

  lemma EnterKeepsInv(s: Sys)
    requires Inv(s)
    ensures Inv(Do(s, Enter))
  {
    var s' := Do(s, Enter);
    forall w | 0 <= w < |s'.walks|
      ensures WalkOk(s', w)
    {
      assert WalkOk(s, w);
    }
    forall k | 0 <= k < |s'.pushed|
      ensures EntryOk(s', k)
    {
      if k < |s.pushed| {
        assert EntryOk(s, k);
      } else {
        forall w | 0 <= w < |s.walks|
          ensures !s.walks[w].Took(k)
        {
          assert WalkOk(s, w);
        }
      }
    }
  }

  lemma WakeAllKeepsInv(s: Sys, next: Option<State>, error: nat)
    requires Inv(s) && Request(next, error)
    ensures Inv(Do(s, WakeAll(next, error)))
  {
    var s' := Do(s, WakeAll(next, error));
    forall w | 0 <= w < |s'.walks|
      ensures WalkOk(s', w)
    {
      if w < |s.walks| {
        assert WalkOk(s, w);
      }
    }
    forall k | 0 <= k < |s'.pushed|
      ensures EntryOk(s', k)
    {
      assert EntryOk(s, k);
    }
  }

  lemma SetOneKeepsInv(s: Sys, w: nat)
    requires Inv(s) && Enabled(s, SetOne(w))
    ensures Inv(Do(s, SetOne(w)))
  {
    var s' := Do(s, SetOne(w));
    assert WalkOk(s, w);
    forall v | 0 <= v < |s'.walks|
      ensures WalkOk(s', v)
    {
      assert WalkOk(s, v);
    }
    forall k | 0 <= k < |s'.pushed|
      ensures EntryOk(s', k)
    {
      assert EntryOk(s, k);
      OneWalkPerEntry(s, w, k);
    }
  }

  lemma OneWalkPerEntry(s: Sys, w: nat, k: nat)
    requires w < |s.walks| && forall u :: 0 <= u < |s.walks| ==> WalkOk(s, u)
    ensures s.walks[w].Took(k) ==> forall v :: 0 <= v < |s.walks| && s.walks[v].Took(k) ==> v == w
    ensures s.walks[w].end <= Taken(s)
  {
    forall v | 0 <= v < |s.walks| && v != w
      ensures if v < w then s.walks[v].end <= s.walks[w].start else s.walks[w].end <= s.walks[v].start
    {
      WalksAreDisjoint(s, if v < w then v else w, if v < w then w else v);
    }
    assert WalkOk(s, |s.walks| - 1);
  }

  lemma StepKeepsInv(s: Sys, l: Label)
    requires Inv(s) && Enabled(s, l)
    ensures Inv(Do(s, l))
  {
    match l
    case Enter => EnterKeepsInv(s);
    case WakeAll(next, error) => WakeAllKeepsInv(s, next, error);
    case SetOne(w) => SetOneKeepsInv(s, w);
  }

  lemma {:induction false} RunKeepsInv(s: Sys, run: seq<Label>)
    requires Inv(s) && Legal(s, run)
    ensures Inv(Final(s, run))
    decreases |run|
  {
    if run != [] {
      StepKeepsInv(s, run[0]);
      RunKeepsInv(Do(s, run[0]), run[1..]);
    }
  }

  ghost predicate Reachable(s: Sys) {
    exists run: seq<Label> :: Legal(Init(), run) && Final(Init(), run) == s
  }

  lemma InitHoldsInv()
    ensures Inv(Init())
  {
    assert Init().pushed[0..] == [];
  }

  lemma ReachableHoldsInv(s: Sys)
    requires Reachable(s)
    ensures Inv(s)
  {
    InitHoldsInv();
    var run: seq<Label> :| Legal(Init(), run) && Final(Init(), run) == s;
    RunKeepsInv(Init(), run);
  }

  /** A gate that is open or sealed has no queue, and waking it then finds nobody. */
  lemma DecidedGateIsEmpty(s: Sys)
    requires Reachable(s)
    ensures s.state != Controlled ==> s.queue == []
    ensures forall w :: 0 <= w < |s.walks| && s.walks[w].before != Controlled ==> s.walks[w].Count() == 0
  {
    ReachableHoldsInv(s);
    forall w | 0 <= w < |s.walks| && s.walks[w].before != Controlled
      ensures s.walks[w].Count() == 0
    {
      assert WalkOk(s, w);
    }
  }

  /**
   Every entry that was pushed is still queued, or was taken out by exactly one call of `wake_all`,
   which gives it its result exactly once; the calls that are done have counted all they took.
   */
  lemma EveryEntryIsWokenOnce(s: Sys, k: nat)
    requires Reachable(s) && k < |s.pushed|
    ensures s.pushed[k] in s.queue <==> k >= Taken(s)
    ensures s.pushed[k] in s.queue ==> s.pushed[k] !in s.results
    ensures k < Taken(s) ==> exists w: nat ::
              && w < |s.walks| && s.walks[w].Took(k)
              && (s.pushed[k] in s.results <==> s.walks[w].HasSet(k))
              && (s.pushed[k] in s.results ==> s.results[s.pushed[k]] == s.walks[w].code)
              && (forall v :: 0 <= v < |s.walks| && s.walks[v].Took(k) ==> v == w)
  {
    ReachableHoldsInv(s);
    assert EntryOk(s, k);
    assert k >= Taken(s) ==> s.queue[k - Taken(s)] == s.pushed[k];
    if k < Taken(s) {
      var w := FindWalk(s, |s.walks|, k);
      OneWalkPerEntry(s, w, k);
    }
  }

  lemma {:induction false} FindWalk(s: Sys, n: nat, k: nat) returns (w: nat)
    requires 0 < n <= |s.walks| && k < s.walks[n - 1].end && forall u :: 0 <= u < |s.walks| ==> WalkOk(s, u)
    ensures w < n && s.walks[w].Took(k)
    decreases n
  {
    assert WalkOk(s, n - 1);
    if k >= s.walks[n - 1].start {
      w := n - 1;
    } else {
      w := FindWalk(s, n - 1, k);
    }
  }

  /** The counts that all calls of `wake_all` return add up to the number of entries taken out. */
  function TotalCount(walks: seq<Walk>): int {
    if walks == [] then 0 else TotalCount(walks[..|walks| - 1]) + walks[|walks| - 1].Count()
  }

  lemma {:induction false} CountsAddUp(s: Sys, n: nat)
    requires Inv(s) && n <= |s.walks|
    requires forall w :: 0 <= w < n ==> s.walks[w].left == 0
    ensures TotalCount(s.walks[..n]) == if n == 0 then 0 else s.walks[n - 1].end
    decreases n
  {
    if n > 0 {
      assert WalkOk(s, n - 1);
      assert s.walks[..n][..n - 1] == s.walks[..n - 1];
      CountsAddUp(s, n - 1);
    }
  }

  /** When no call is in progress, the counts returned and the queue account for every push. */
  lemma EveryPushIsCounted(s: Sys)
    requires Reachable(s)
    requires forall w :: 0 <= w < |s.walks| ==> s.walks[w].left == 0
    ensures TotalCount(s.walks) + |s.queue| == |s.pushed|
  {
    ReachableHoldsInv(s);
    CountsAddUp(s, |s.walks|);
    assert s.walks[..|s.walks|] == s.walks;
  }

  /** How many entries that were taken out still lack their result. */
  function Left(walks: seq<Walk>): nat {
    if walks == [] then 0 else walks[0].left + Left(walks[1..])
  }

  lemma {:induction false} LeftFalls(walks: seq<Walk>, w: nat, walk: Walk)
    requires w < |walks| && walk.left + 1 == walks[w].left
    ensures Left(walks[w := walk]) + 1 == Left(walks)
  {
    if w > 0 {
      assert walks[w := walk][1..] == walks[1..][w - 1 := walk];
      LeftFalls(walks[1..], w - 1, walk);
    }
  }

  lemma {:induction false} SomeWalkIsOpen(walks: seq<Walk>) returns (w: nat)
    requires Left(walks) > 0
    ensures w < |walks| && walks[w].left > 0
  {
    if walks[0].left > 0 {
      w := 0;
    } else {
      w := SomeWalkIsOpen(walks[1..]);
      w := w + 1;
    }
  }

  lemma {:induction false} NothingLeft(walks: seq<Walk>)
    requires Left(walks) == 0
    ensures forall w :: 0 <= w < |walks| ==> walks[w].left == 0
  {
    if walks != [] {
      NothingLeft(walks[1..]);
      assert forall w :: 0 < w < |walks| ==> walks[w] == walks[1..][w - 1];
    }
  }

  lemma {:induction false} WalksFinish(s: Sys) returns (run: seq<Label>)
    requires Inv(s)
    ensures Legal(s, run) && |run| == Left(s.walks) && forall l :: l in run ==> l.SetOne?
    ensures var s' := Final(s, run);
            && Inv(s') && Left(s'.walks) == 0 && Taken(s') == Taken(s)
            && s'.queue == s.queue && s'.pushed == s.pushed && s'.state == s.state
    decreases Left(s.walks)
  {
    if Left(s.walks) == 0 {
      run := [];
    } else {
      var w := SomeWalkIsOpen(s.walks);
      assert WalkOk(s, w);
      var s1 := Do(s, SetOne(w));
      LeftFalls(s.walks, w, s1.walks[w]);
      SetOneKeepsInv(s, w);
      var rest := WalksFinish(s1);
      run := [SetOne(w)] + rest;
      assert run[1..] == rest;
    }
  }

  /**
   Nobody stays behind: the calls of `wake_all` that are under way come to their ends by themselves,
   and then everybody who does not wait in the queue has a result.
   */
  lemma EverybodyIsToldInTheEnd(s: Sys) returns (run: seq<Label>)
    requires Reachable(s)
    ensures Legal(s, run) && |run| == Left(s.walks) && forall l :: l in run ==> l.SetOne?
    ensures var s' := Final(s, run);
            && s'.queue == s.queue && s'.pushed == s.pushed && s'.state == s.state
            && (forall w :: 0 <= w < |s'.walks| ==> s'.walks[w].left == 0)
            && (forall k :: 0 <= k < |s'.pushed| ==> s'.pushed[k] in s'.queue || s'.pushed[k] in s'.results)
  {
    ReachableHoldsInv(s);
    run := WalksFinish(s);
    var s' := Final(s, run);
    NothingLeft(s'.walks);
    forall k | 0 <= k < |s'.pushed|
      ensures s'.pushed[k] in s'.queue || s'.pushed[k] in s'.results
    {
      assert EntryOk(s', k);
      if k < Taken(s') {
        var w := FindWalk(s', |s'.walks|, k);
      } else {
        assert s'.queue[k - Taken(s')] == s'.pushed[k];
      }
    }
  }

  // ---------- Deciding ----------

  /** The result codes, with the state in the two low bits and the error above. */
  lemma Codes(s: Sys, next: Option<State>, error: nat)
    requires Request(next, error)
    ensures var s' := Do(s, WakeAll(next, error));
            var walk := s'.walks[|s.walks|];
            && s'.walks == s.walks + [walk] && walk.before == s.state
            && (next == Some(Sealed) ==> s'.state == Sealed && walk.code == 9)
            && (next == Some(Open) ==> s'.state == Open && walk.code == 2)
            && (next == None ==> s'.state == s.state)
            && (next == None && s.state == Controlled ==> walk.code == error && error in {0, 4, 12})
  {
  }

  /** What a task gets that enters now; `None` if it has to wait. */
  function Answer(s: Sys): Option<nat> {
    var s' := Do(s, Enter);
    if s.nextId in s'.results then Some(s'.results[s.nextId]) else None
  }

  lemma AnswerIsTheState(s: Sys)
    requires Inv(s)
    ensures Answer(s) == match s.state case Controlled => None case Sealed => Some(9) case Open => Some(2)
    ensures s.state == Controlled ==> Do(s, Enter).queue == s.queue + [s.nextId]
  {
  }

  lemma {:induction false} DecisionStays(s: Sys, run: seq<Label>, other: State)
    requires Inv(s) && Legal(s, run) && s.state != Controlled
    requires other == (if s.state == Sealed then Open else Sealed)
    requires forall l :: l in run && l.WakeAll? ==> l.next != Some(other)
    ensures Inv(Final(s, run)) && Final(s, run).state == s.state
    decreases |run|
  {
    if run != [] {
      assert run[0] in run && forall l :: l in run[1..] ==> l in run;
      StepKeepsInv(s, run[0]);
      DecisionStays(Do(s, run[0]), run[1..], other);
    }
  }

  /** From sealing the gate until somebody opens it, every task that enters is told that it is sealed. */
  lemma SealedUntilOpened(s: Sys, run: seq<Label>)
    requires Reachable(s)
    requires Legal(Do(s, WakeAll(Some(Sealed), SEALED_ERROR)), run)
    requires forall l :: l in run && l.WakeAll? ==> l.next != Some(Open)
    ensures Answer(Final(Do(s, WakeAll(Some(Sealed), SEALED_ERROR)), run)) == Some(9)
  {
    ReachableHoldsInv(s);
    StepKeepsInv(s, WakeAll(Some(Sealed), SEALED_ERROR));
    var s' := Do(s, WakeAll(Some(Sealed), SEALED_ERROR));
    DecisionStays(s', run, Open);
    AnswerIsTheState(Final(s', run));
  }

  /** From opening the gate until somebody seals it, every task enters at once. */
  lemma OpenUntilSealed(s: Sys, run: seq<Label>)
    requires Reachable(s)
    requires Legal(Do(s, WakeAll(Some(Open), 0)), run)
    requires forall l :: l in run && l.WakeAll? ==> l.next != Some(Sealed)
    ensures Answer(Final(Do(s, WakeAll(Some(Open), 0)), run)) == Some(2)
  {
    ReachableHoldsInv(s);
    StepKeepsInv(s, WakeAll(Some(Open), 0));
    var s' := Do(s, WakeAll(Some(Open), 0));
    DecisionStays(s', run, Sealed);
    AnswerIsTheState(Final(s', run));
  }

  lemma {:induction false} NothingDecides(s: Sys, run: seq<Label>)
    requires Inv(s) && Legal(s, run) && s.state == Controlled
    requires forall l :: l in run && l.WakeAll? ==> l.next == None
    ensures Inv(Final(s, run)) && Final(s, run).state == Controlled
    decreases |run|
  {
    if run != [] {
      assert run[0] in run && forall l :: l in run[1..] ==> l in run;
      StepKeepsInv(s, run[0]);
      NothingDecides(Do(s, run[0]), run[1..]);
    }
  }

  /** Until somebody opens or seals it, a new gate makes every task wait. */
  lemma ControlledUntilDecided(run: seq<Label>)
    requires Legal(Init(), run)
    requires forall l :: l in run && l.WakeAll? ==> l.next == None
    ensures Answer(Final(Init(), run)) == None
  {
    InitHoldsInv();
    NothingDecides(Init(), run);
    AnswerIsTheState(Final(Init(), run));
  }

  // ---------- The list ----------

  /** The gate's word over linked entries, between two atomic accesses. */
  class Word {
    var state: State
    var tail: LinkedQueue.Entry?
    ghost var queue: seq<LinkedQueue.Entry>  // oldest first

    ghost predicate Valid()
      reads this, queue
    {
      && Distinct(queue)
      && LinkedQueue.NextOk(queue, 0)
      && LinkedQueue.Pending(queue)
      && tail == (if queue == [] then null else queue[|queue| - 1])
      && (state != Controlled ==> queue == [])
    }

    constructor ()
      ensures Valid() && state == Controlled && queue == []
    {
      state, tail, queue := Controlled, null, [];
    }

    /** `push_wait_queue_entry`: queues the entry, or answers at once if the gate is decided. */
    method Push(entry: LinkedQueue.Entry)
      requires Valid() && entry !in queue && entry.result == None
      modifies this`tail, this`queue, entry
      ensures Valid()
      ensures state == Controlled ==> queue == old(queue) + [entry] && entry.result == None
      ensures state != Controlled ==> queue == [] && entry.result == Some(if state == Sealed then 9 else 2)
    {
      match state {
        case Controlled =>
          entry.next := tail;
          tail := entry;
          ghost var q := queue;
          queue := queue + [entry];
          forall i | 0 <= i < |queue|
            ensures LinkedQueue.NextAt(queue, 0, i)
          {
            assert i < |q| ==> old(LinkedQueue.NextAt(q, 0, i));
          }
        case Sealed => entry.SetResult(Sealed.Code() + SEALED_ERROR);
        case Open => entry.SetResult(Open.Code());
      }
    }

    /** Other threads arrive at the gate. */
    method PushAll(arrivals: seq<LinkedQueue.Entry>)
      requires Valid() && queue == [] && Distinct(arrivals) && LinkedQueue.Pending(arrivals)
      modifies this`tail, this`queue, arrivals
      ensures Valid()
      ensures state == Controlled ==> queue == arrivals
      ensures state != Controlled ==> forall i :: 0 <= i < |arrivals| ==> arrivals[i].result == Some(if state == Sealed then 9 else 2)
    {
      for i := 0 to |arrivals|
        invariant Valid()
        invariant queue == if state == Controlled then arrivals[..i] else []
        invariant forall j :: i <= j < |arrivals| ==> arrivals[j].result == None
        invariant state != Controlled ==> forall j :: 0 <= j < i ==> arrivals[j].result == Some(if state == Sealed then 9 else 2)
      {
        Push(arrivals[i]);
      }
    }

    /**
     `wake_all`: takes the whole queue out, then gives every entry its result and counts it. Whoever
     arrives between the update of the word and the walk is neither woken nor counted: the arrivals
     queue up, or are answered at once if the gate is decided now.
     */
    method WakeAll(next: Option<State>, error: nat, arrivals: seq<LinkedQueue.Entry>) returns (before: State, count: nat)
      requires Valid() && Request(next, error)
      requires Distinct(arrivals) && LinkedQueue.Pending(arrivals)
      requires forall i :: 0 <= i < |arrivals| ==> arrivals[i] !in queue
      modifies this, queue, arrivals
      ensures Valid()
      ensures before == old(state)
      ensures state == match next case Some(decided) => decided case None => before
      ensures state == Controlled ==> queue == arrivals
      ensures state != Controlled ==> forall i :: 0 <= i < |arrivals| ==> arrivals[i].result == Some(if state == Sealed then 9 else 2)
      ensures count == |old(queue)| && (before != Controlled ==> count == 0)
      ensures forall i :: 0 <= i < |old(queue)| ==> old(queue)[i].result == Some(state.Code() + error)
    {
      var tailEntry := tail;
      ghost var taken := queue;
      before := state;
      state := NextState(state, next);
      tail, queue := null, [];
      PushAll(arrivals);
      assert forall i :: 0 <= i < |taken| ==> taken[i] !in arrivals;
      count := LinkedQueue.SetResults(tailEntry, state.Code() + error, taken);
    }

    /** `permit`: lets everybody in who waits at a controlled gate. */
    method Permit(arrivals: seq<LinkedQueue.Entry>) returns (permitted: nat, refused: Option<State>)
      requires Valid() && Distinct(arrivals) && LinkedQueue.Pending(arrivals)
      requires forall i :: 0 <= i < |arrivals| ==> arrivals[i] !in queue
      modifies this, queue, arrivals
      ensures Valid() && state == old(state)
      ensures refused == if old(state) == Controlled then None else Some(old(state))
      ensures permitted == |old(queue)| && (state == Controlled ==> queue == arrivals)
      ensures forall i :: 0 <= i < |old(queue)| ==> old(queue)[i].result == Some(0)
    {
      var before;
      before, permitted := WakeAll(None, 0, arrivals);
      refused := if before == Controlled then None else Some(before);
    }

    /** `reject`: turns everybody away who waits at a controlled gate. */
    method Reject(arrivals: seq<LinkedQueue.Entry>) returns (rejected: nat, refused: Option<State>)
      requires Valid() && Distinct(arrivals) && LinkedQueue.Pending(arrivals)
      requires forall i :: 0 <= i < |arrivals| ==> arrivals[i] !in queue
      modifies this, queue, arrivals
      ensures Valid() && state == old(state)
      ensures refused == if old(state) == Controlled then None else Some(old(state))
      ensures rejected == |old(queue)| && (state == Controlled ==> queue == arrivals)
      ensures forall i :: 0 <= i < |old(queue)| ==> old(queue)[i].result == Some(4)
    {
      var before;
      before, rejected := WakeAll(None, REJECTED, arrivals);
      refused := if before == Controlled then None else Some(before);
    }

    /**
     A pager is dropped: if its entry has no result yet, everybody who waits is woken with a spurious
     failure, so that the entry gets one.
     */
    method DropPager(entry: LinkedQueue.Entry, arrivals: seq<LinkedQueue.Entry>)
      requires Valid() && Distinct(arrivals) && LinkedQueue.Pending(arrivals)
      requires entry !in arrivals && forall i :: 0 <= i < |arrivals| ==> arrivals[i] !in queue
      requires entry in queue <==> entry.result == None
      modifies this, queue, arrivals
      ensures Valid() && state == old(state) && entry.result.Some?
      ensures old(entry.result).Some? ==> unchanged(this) && unchanged(old(queue)) && unchanged(arrivals)
      ensures old(entry.result) == None ==>
                queue == arrivals && forall i :: 0 <= i < |old(queue)| ==> old(queue)[i].result == Some(12)
    {
      if entry.result == None {
        var _, _ := WakeAll(None, SPURIOUS_FAILURE, arrivals);
      }
    }

    /** `open`: lets everybody in who waits, and everybody who comes. */
    method Unbar(arrivals: seq<LinkedQueue.Entry>) returns (before: State, count: nat)
      requires Valid() && Distinct(arrivals) && LinkedQueue.Pending(arrivals)
      requires forall i :: 0 <= i < |arrivals| ==> arrivals[i] !in queue
      modifies this, queue, arrivals
      ensures Valid() && state == Open && queue == []
      ensures before == old(state) && count == |old(queue)|
      ensures forall i :: 0 <= i < |old(queue)| ==> old(queue)[i].result == Some(2)
      ensures forall i :: 0 <= i < |arrivals| ==> arrivals[i].result == Some(2)
    {
      before, count := WakeAll(Some(Open), 0, arrivals);
    }

    /** `seal`: turns everybody away who waits, and everybody who comes. */
    method Seal(arrivals: seq<LinkedQueue.Entry>) returns (before: State, count: nat)
      requires Valid() && Distinct(arrivals) && LinkedQueue.Pending(arrivals)
      requires forall i :: 0 <= i < |arrivals| ==> arrivals[i] !in queue
      modifies this, queue, arrivals
      ensures Valid() && state == Sealed && queue == []
      ensures before == old(state) && count == |old(queue)|
      ensures forall i :: 0 <= i < |old(queue)| ==> old(queue)[i].result == Some(9)
      ensures forall i :: 0 <= i < |arrivals| ==> arrivals[i].result == Some(9)
    {
      before, count := WakeAll(Some(Sealed), SEALED_ERROR, arrivals);
    }
  }
}
