/**
 Progress: without new requests, every fair run comes to rest: the queue is empty, every call has
 returned, and every entry has been consumed or cancelled. A rank built from
 `(DATA_MASK + 1) * queue length + data` decreases with every step that is not idle waiting, and
 until all is settled some thread can take such a step.
 */
module QueueProgress {
  import opened Opcodes
  import opened FairQueue
  import opened QueueMachine
  import opened QueueInvariant
  import opened QueueSteps
  import opened QueueTheorems
  import opened QueueOwners
  import opened Measures

  /** The steps of calls that have started, of owners that release and of waiters that take their results. */
  predicate Internal(l: Label) {
    || l.Release? || l.ScanStep? || l.KeepStep? || l.TransferStep? || l.DeliverStep? || l.Resume?
    || l.Consume? || l.SpinStep? || l.FindStep? || l.AwaitStep? || l.GiveBackStep?
  }

  predicate NewRequest(l: Label) {
    l.Acquire? || l.Register? || l.Push?
  }

  // ---------- The measure of the word ----------

  function Measure(s: Sys): nat {
    (DATA_MASK + 1) * |s.queue| + s.data
  }

  ghost predicate SameWord(s: Sys, s': Sys) {
    s'.data == s.data && s'.queue == s.queue
  }

  lemma HandDecreasesMeasure(s: Sys, s': Sys, k: nat)
    requires k <= |s.queue|
    requires s'.queue == s.queue[k..] && s'.data == s.data + SumAcquired(s.queue[..k]) && s'.data <= DATA_MASK
    ensures SameWord(s, s') || Measure(s') < Measure(s)
  {
    if k == 0 {
      assert s.queue[..0] == [] && s.queue[0..] == s.queue;
    }
  }

  lemma DataStaysInRange(c: Client, s: Sys, l: Label)
    requires Inv(c, s) && Enabled(c, s, l)
    ensures Do(c, s, l).data <= DATA_MASK
  {
    StepKeepsInv(c, s, l);
  }

  lemma ScanDecreasesMeasure(c: Client, s: Sys, t: nat)
    requires Inv(c, s) && Enabled(c, s, ScanStep(t))
    ensures SameWord(s, DoScan(c, s, t)) || Measure(DoScan(c, s, t)) < Measure(s)
  {
    DataStaysInRange(c, s, ScanStep(t));
    if !DoScan(c, s, t).locked {
      ResetIsGreedy(c, s, t);
      HandDecreasesMeasure(s, DoScan(c, s, t), |s.queue|);
    } else {
      ScanKeepsWord(c, s, t);
    }
  }

  lemma ScanKeepsWord(c: Client, s: Sys, t: nat)
    requires Enabled(c, s, ScanStep(t)) && s.locked
    requires DoScan(c, s, t).locked
    ensures SameWord(s, DoScan(c, s, t))
  {
  }

  lemma CommitDecreasesMeasure(c: Client, s: Sys, l: Label)
    requires Inv(c, s) && Enabled(c, s, l)
    requires l.KeepStep? || l.TransferStep?
    ensures SameWord(s, Do(c, s, l)) || Measure(Do(c, s, l)) < Measure(s)
  {
    DataStaysInRange(c, s, l);
    assert LocalOk(c, s, l.t, s.threads[l.t]);
    if !SameWord(s, Do(c, s, l)) {
      HandDecreasesMeasure(s, Do(c, s, l), s.threads[l.t].r.k);
    }
  }

  lemma FindDecreasesMeasure(c: Client, s: Sys, t: nat)
    requires ThreadsOk(c, s) && Enabled(c, s, FindStep(t))
    ensures SameWord(s, DoFind(c, s, t)) || Measure(DoFind(c, s, t)) < Measure(s)
  {
    var Find(target, seen, r) := s.threads[t];
    assert LocalOk(c, s, t, s.threads[t]);
    var i := Position(s, target, r.len);
    if i < r.len {
      FindOutcome(c, s, t, target, seen, r, i);
    }
  }

  lemma ReleaseDecreasesMeasure(c: Client, s: Sys, l: Label)
    requires Enabled(c, s, l) && Internal(l)
    requires !l.ScanStep? && !l.KeepStep? && !l.TransferStep? && !l.FindStep?
    ensures SameWord(s, Do(c, s, l)) || Measure(Do(c, s, l)) < Measure(s)
  {
  }

  lemma OtherStepsKeepMeasure(c: Client, s: Sys, l: Label)
    requires Enabled(c, s, l) && !NewRequest(l) && !Internal(l)
    ensures SameWord(s, Do(c, s, l)) || Measure(Do(c, s, l)) < Measure(s)
  {
  }

  /**
   Every grant, every release of a non-zero amount, every cancellation of a queued entry and poison
   bring the measure down, and no step that is not a new request brings it up.
   */
  lemma OnlyRequestsRaiseMeasure(c: Client, s: Sys, l: Label)
    requires Reachable(c, s) && Enabled(c, s, l) && !NewRequest(l)
    ensures SameWord(s, Do(c, s, l)) || Measure(Do(c, s, l)) < Measure(s)
  {
    if Internal(l) {
      ReachableHoldsInv(c, s);
      InternalStepsDecreaseMeasure(c, s, l);
    } else {
      OtherStepsKeepMeasure(c, s, l);
    }
  }

  lemma InternalStepsDecreaseMeasure(c: Client, s: Sys, l: Label)
    requires Inv(c, s) && Enabled(c, s, l) && Internal(l)
    ensures SameWord(s, Do(c, s, l)) || Measure(Do(c, s, l)) < Measure(s)
  {
    if l.ScanStep? {
      ScanDecreasesMeasure(c, s, l.t);
    } else if l.KeepStep? || l.TransferStep? {
      CommitDecreasesMeasure(c, s, l);
    } else if l.FindStep? {
      FindDecreasesMeasure(c, s, l.t);
    } else {
      ReleaseDecreasesMeasure(c, s, l);
    }
  }

  // ---------- The work left to threads inside a call ----------

  predicate Stale(data: nat, n: nat, r: Round) {
    data != r.data || n != r.len
  }

  function RoundWork(data: nat, n: nat, r: Round): nat {
    (if r.k <= r.len then r.len - r.k else 0) + 10 + (if Stale(data, n, r) then n + 30 else 0)
  }

  function AfterWork(n: nat, after: After): nat {
    if after.ThenAwait? then n + 30 else 0
  }

  /** A bound on the steps thread-local state `l` can still take while the word stays as it is. */
  function Work(data: nat, n: nat, l: Local): nat {
    match l
    case Scan(r, after) => RoundWork(data, n, r) + AfterWork(n, after)
    case Keep(r, after) => 5 + (if Stale(data, n, r) then n + 30 else 0) + AfterWork(n, after)
    case Transfer(r, after) => n + 20 + AfterWork(n, after)
    case Deliver(pending, _, next, after) =>
      |pending| + 1 + AfterWork(n, after) + (if next.Some? then RoundWork(data, n, next.value) else 0)
    case Spin(_) => 3 * n + 100
    case Find(_, _, r) => if Stale(data, n, r) then 3 * n + 80 else 2 * n + 50
    case Await(_, _) => n + 25
    case GiveBack(_, seen) => if seen == data then 1 else 2
  }

  function Weights(data: nat, n: nat, threads: map<nat, Local>): map<nat, nat> {
    map t | t in threads :: Work(data, n, threads[t])
  }

  ghost function WorkSum(data: nat, n: nat, threads: map<nat, Local>): nat {
    Sum(Weights(data, n, threads))
  }

  lemma WorkSumSplit(data: nat, n: nat, threads: map<nat, Local>, t: nat)
    requires t in threads
    ensures WorkSum(data, n, threads) == Work(data, n, threads[t]) + WorkSum(data, n, threads - {t})
  {
    SumSplit(Weights(data, n, threads), t);
    assert Weights(data, n, threads) - {t} == Weights(data, n, threads - {t});
  }

  function NotTaken(s: Sys): set<nat> {
    set id | id in s.entries && !s.entries[id].status.Taken?
  }

  ghost function TotalWork(s: Sys): nat {
    WorkSum(s.data, |s.queue|, s.threads) + (|s.queue| + 20) * |s.owners| + |NotTaken(s)|
  }

  /** Steps that touch neither the word nor an owner, only thread `t` and possibly results. */
  lemma LocalStepDecreasesWork(s: Sys, s': Sys, t: nat)
    requires t in s.threads && t in s'.threads
    requires s'.data == s.data && s'.queue == s.queue && s'.owners == s.owners
    requires s'.threads == s.threads[t := s'.threads[t]]
    requires Work(s.data, |s.queue|, s'.threads[t]) < Work(s.data, |s.queue|, s.threads[t])
    requires s'.entries.Keys == s.entries.Keys
    requires forall id :: id in s.entries && s.entries[id].status.Taken? ==> s'.entries[id].status.Taken?
    ensures TotalWork(s') < TotalWork(s)
  {
    WorkSumSplit(s.data, |s.queue|, s.threads, t);
    WorkSumSplit(s.data, |s.queue|, s'.threads, t);
    assert s'.threads - {t} == s.threads - {t};
    SubsetIsSmaller(NotTaken(s'), NotTaken(s));
  }

  lemma SubsetIsSmaller(a: set<nat>, b: set<nat>)
    requires a <= b
    ensures |a| <= |b|
  {
    assert b == a + (b - a);
  }

  lemma FinishDecreasesWork(s: Sys, t: nat)
    requires t in s.threads
    ensures WorkSum(s.data, |s.queue|, s.threads - {t}) <= WorkSum(s.data, |s.queue|, s.threads)
    ensures Work(s.data, |s.queue|, s.threads[t]) > 0 ==>
              WorkSum(s.data, |s.queue|, s.threads - {t}) < WorkSum(s.data, |s.queue|, s.threads)
  {
    WorkSumSplit(s.data, |s.queue|, s.threads, t);
  }

  lemma EmptyHand(c: Client, s: Sys, t: nat, again: Option<Round>, after: After)
    ensures var s' := HandState(s, t, 0, again, after);
            && s'.queue == s.queue && s'.data == s.data && s'.owners == s.owners && s'.entries == s.entries
            && s'.threads == s.threads[t := s'.threads[t]]
  {
    assert s.queue[..0] == [] && s.queue[0..] == s.queue;
    assert Ids(s.queue[..0]) == [];
    assert s.owners + OwnersOf(s.queue[..0]) == s.owners;
    assert Resolve(s.entries, s.queue[..0], t, Acquired) == s.entries;
  }

  lemma HandMovesTail(s: Sys, s': Sys, k: nat)
    requires k <= |s.queue|
    requires s'.queue == s.queue[k..]
    requires s'.queue == s.queue
    ensures k == 0
  {
  }

  lemma ScanDecreasesWork(c: Client, s: Sys, t: nat)
    requires Inv(c, s) && Enabled(c, s, ScanStep(t))
    requires SameWord(s, DoScan(c, s, t))
    ensures TotalWork(DoScan(c, s, t)) < TotalWork(s)
  {
    assert LocalOk(c, s, t, s.threads[t]);
    if !DoScan(c, s, t).locked {
      ResetIsGreedy(c, s, t);
    }
    LocalStepDecreasesWork(s, DoScan(c, s, t), t);
  }

  lemma KeepDecreasesWork(c: Client, s: Sys, t: nat)
    requires Inv(c, s) && Enabled(c, s, KeepStep(t))
    requires SameWord(s, DoKeep(c, s, t))
    ensures TotalWork(DoKeep(c, s, t)) < TotalWork(s)
  {
    var r, after := s.threads[t].r, s.threads[t].after;
    assert LocalOk(c, s, t, s.threads[t]);
    if s.data == r.data {
      HandMovesTail(s, DoKeep(c, s, t), r.k);
      EmptyHand(c, s, t, None, after);
    }
    LocalStepDecreasesWork(s, DoKeep(c, s, t), t);
  }

  lemma TransferDecreasesWork(c: Client, s: Sys, t: nat)
    requires Inv(c, s) && Enabled(c, s, TransferStep(t))
    requires SameWord(s, DoTransfer(c, s, t))
    ensures TotalWork(DoTransfer(c, s, t)) < TotalWork(s)
  {
    var r, after := s.threads[t].r, s.threads[t].after;
    assert LocalOk(c, s, t, s.threads[t]);
    HandMovesTail(s, DoTransfer(c, s, t), r.k);
    EmptyHand(c, s, t, Some(r), after);
    LocalStepDecreasesWork(s, DoTransfer(c, s, t), t);
  }

  lemma FindDecreasesWork(c: Client, s: Sys, t: nat)
    requires Inv(c, s) && Enabled(c, s, FindStep(t))
    requires SameWord(s, DoFind(c, s, t))
    ensures TotalWork(DoFind(c, s, t)) < TotalWork(s)
  {
    var Find(target, seen, r) := s.threads[t];
    assert LocalOk(c, s, t, s.threads[t]);
    var i := Position(s, target, r.len);
    if i < r.len {
      FindOutcome(c, s, t, target, seen, r, i);
    }
    LocalStepDecreasesWork(s, DoFind(c, s, t), t);
  }

  lemma GiveUpWork(data: nat, n: nat, threads: map<nat, Local>, threads': map<nat, Local>, t: nat)
    requires threads' - {t} == threads - {t}
    requires t in threads' ==> Work(data, n, threads'[t]) < n + 20
    ensures WorkSum(data, n, threads') < WorkSum(data, n, threads) + n + 20
  {
    if t in threads {
      WorkSumSplit(data, n, threads, t);
    } else {
      assert threads - {t} == threads;
    }
    if t in threads' {
      WorkSumSplit(data, n, threads', t);
    } else {
      assert threads' - {t} == threads';
    }
  }

  lemma OneOwnerLess(n: nat, m: nat)
    requires m > 0
    ensures (n + 20) * (m - 1) == (n + 20) * m - (n + 20)
  {
  }

  /** Releasing nothing still retires an owner. */
  lemma GiveUpDecreasesWork(s: Sys, s1: Sys, t: nat, op: Opcode, i: nat)
    requires op.CanRelease(s.data) && i < |s.owners|
    requires s1.data == s.data && s1.queue == s.queue && s1.owners == s.owners && s1.threads == s.threads && s1.locked == s.locked
    requires NotTaken(s1) == NotTaken(s)
    requires SameWord(s, GiveUp(s1, t, op, i))
    ensures TotalWork(GiveUp(s1, t, op, i)) < TotalWork(s)
  {
    var s' := GiveUp(s1, t, op, i);
    assert NotTaken(s') == NotTaken(s);
    OneOwnerLess(|s.queue|, |s.owners|);
    assert s'.threads - {t} == s.threads - {t};
    GiveUpWork(s.data, |s.queue|, s.threads, s'.threads, t);
  }

  lemma ConsumeDecreasesWork(c: Client, s: Sys, id: nat)
    requires Enabled(c, s, Consume(id))
    ensures TotalWork(DoConsume(c, s, id)) < TotalWork(s)
  {
    assert NotTaken(DoConsume(c, s, id)) == NotTaken(s) - {id};
  }

  lemma ResumeDecreasesWork(c: Client, s: Sys, t: nat)
    requires Enabled(c, s, Resume(t))
    ensures TotalWork(DoResume(c, s, t)) < TotalWork(s)
  {
    var s' := DoResume(c, s, t);
    assert s'.data == s.data && s'.queue == s.queue && s'.owners == s.owners && s'.entries == s.entries;
    if t in s'.threads {
      LocalStepDecreasesWork(s, s', t);
    } else {
      assert NotTaken(s') == NotTaken(s);
      FinishDecreasesWork(s, t);
    }
  }

  lemma GiveBackDecreasesWork(c: Client, s: Sys, t: nat, retry: bool)
    requires ThreadsOk(c, s) && EntriesOk(c, s) && Enabled(c, s, GiveBackStep(t, retry))
    requires SameWord(s, DoGiveBack(c, s, t, retry))
    requires DoGiveBack(c, s, t, retry) != s
    ensures TotalWork(DoGiveBack(c, s, t, retry)) < TotalWork(s)
  {
    var GiveBack(target, seen) := s.threads[t];
    assert LocalOk(c, s, t, s.threads[t]);
    assert EntryOk(c, s, target.id);
    if retry {
      LocalStepDecreasesWork(s, DoGiveBack(c, s, t, retry), t);
    } else {
      var s1 := SetStatus(s, target.id, GivenBack);
      assert NotTaken(s1) == NotTaken(s);
      GiveUpDecreasesWork(s, s1, t, target.op, IndexOf(s.owners, Owner(target.id, target.op, false)));
    }
  }

  lemma QuietDecreasesWork(c: Client, s: Sys, l: Label)
    requires ThreadsOk(c, s) && Enabled(c, s, l) && Do(c, s, l) != s
    requires l.DeliverStep? || l.AwaitStep? || l.SpinStep?
    ensures TotalWork(Do(c, s, l)) < TotalWork(s)
  {
    assert LocalOk(c, s, l.t, s.threads[l.t]);
    LocalStepDecreasesWork(s, Do(c, s, l), l.t);
  }

  lemma IdleWordDecreasesWork(c: Client, s: Sys, l: Label)
    requires Inv(c, s) && Enabled(c, s, l) && Internal(l) && Do(c, s, l) != s
    requires SameWord(s, Do(c, s, l))
    ensures TotalWork(Do(c, s, l)) < TotalWork(s)
  {
    if l.ScanStep? || l.KeepStep? || l.TransferStep? || l.FindStep? {
      ProcessingDecreasesWork(c, s, l);
    } else {
      match l
      case GiveBackStep(t, retry) => GiveBackDecreasesWork(c, s, t, retry);
      case Release(t, i) => GiveUpDecreasesWork(s, s, t, s.owners[i].op, i);
      case Consume(id) => ConsumeDecreasesWork(c, s, id);
      case Resume(t) => ResumeDecreasesWork(c, s, t);
      case DeliverStep(_) | AwaitStep(_) | SpinStep(_) => QuietDecreasesWork(c, s, l);
    }
  }

  lemma ProcessingDecreasesWork(c: Client, s: Sys, l: Label)
    requires Inv(c, s) && Enabled(c, s, l)
    requires l.ScanStep? || l.KeepStep? || l.TransferStep? || l.FindStep?
    requires SameWord(s, Do(c, s, l))
    ensures TotalWork(Do(c, s, l)) < TotalWork(s)
  {
    match l
    case ScanStep(t) => ScanDecreasesWork(c, s, t);
    case KeepStep(t) => KeepDecreasesWork(c, s, t);
    case TransferStep(t) => TransferDecreasesWork(c, s, t);
    case FindStep(t) => FindDecreasesWork(c, s, t);
  }

  /** Every internal step that is not idle waiting brings the rank down. */
  lemma StepDecreasesRank(c: Client, s: Sys, l: Label)
    requires Inv(c, s) && Enabled(c, s, l) && Internal(l) && Do(c, s, l) != s
    ensures Measure(Do(c, s, l)) < Measure(s)
            || (Measure(Do(c, s, l)) == Measure(s) && TotalWork(Do(c, s, l)) < TotalWork(s))
  {
    InternalStepsDecreaseMeasure(c, s, l);
    if SameWord(s, Do(c, s, l)) {
      IdleWordDecreasesWork(c, s, l);
    }
  }

  // ---------- Nobody is stuck ----------

  /** The label is a step that really changes something and is no new request. */
  ghost predicate Moves(c: Client, s: Sys, l: Label) {
    Internal(l) && Enabled(c, s, l) && Do(c, s, l) != s
  }

  lemma {:induction false} FreshThread(threads: map<nat, Local>) returns (t: nat)
    ensures t !in threads
    ensures forall u :: u in threads ==> u < t
    decreases |threads|
  {
    if threads == map[] {
      t := 0;
    } else {
      var u :| u in threads;
      var v := FreshThread(threads - {u});
      assert forall w :: w in threads ==> w == u || w in threads - {u};
      t := if u < v then v else u + 1;
    }
  }

  /** The processor of a locked queue can always take its next step. */
  lemma ProcessorMoves(c: Client, s: Sys, t: nat) returns (l: Label)
    requires Inv(c, s)
    requires t in s.threads && s.threads[t].HoldsLock()
    ensures Moves(c, s, l)
  {
    assert LocalOk(c, s, t, s.threads[t]);
    match s.threads[t]
    case Scan(_, _) => l := ScanStep(t); assert Do(c, s, l).threads[t] != s.threads[t];
    case Keep(_, _) => l := KeepStep(t); assert !Do(c, s, l).threads[t].Keep?;
    case Transfer(_, _) => l := TransferStep(t); assert !Do(c, s, l).threads[t].Transfer?;
    case Deliver(_, _, _, _) => l := DelivererMoves(c, s, t);
    case Find(target, seen, r) => l := FinderMoves(c, s, t, target, seen, r);
  }

  lemma FinderMoves(c: Client, s: Sys, t: nat, target: Waiter, seen: nat, r: Round) returns (l: Label)
    requires Inv(c, s)
    requires t in s.threads && s.threads[t] == Find(target, seen, r)
    ensures Moves(c, s, l)
  {
    l := FindStep(t);
    assert LocalOk(c, s, t, s.threads[t]);
    var i := Position(s, target, r.len);
    if i < r.len {
      FindOutcome(c, s, t, target, seen, r, i);
      if i + 1 == r.len && !Unchanged(s, r) {
        assert Do(c, s, l).threads[t] == Find(target, seen, FirstRound(s));
      } else {
        assert |Do(c, s, l).queue| < |s.queue|;
      }
    } else {
      assert Do(c, s, l).threads[t].Scan?;
    }
  }

  /** A thread that owes results, or has just set the last one, can go on. */
  lemma DelivererMoves(c: Client, s: Sys, t: nat) returns (l: Label)
    requires Inv(c, s)
    requires t in s.threads && s.threads[t].Deliver?
    ensures Moves(c, s, l)
  {
    assert LocalOk(c, s, t, s.threads[t]);
    if s.threads[t].pending == [] {
      l := Resume(t);
      assert t in Do(c, s, l).threads ==> !Do(c, s, l).threads[t].Deliver?;
    } else {
      l := DeliverStep(t);
      assert s.threads[t].pending[0] in s.threads[t].pending;
      assert |Do(c, s, l).delivered| > |s.delivered|;
    }
  }

  lemma CancellerMoves(c: Client, s: Sys, id: nat, t: nat) returns (l: Label)
    requires Inv(c, s) && !s.locked && s.queue != []
    requires id in s.entries && s.entries[id].status == Ready(Acquired)
    requires t in s.threads && TargetOf(s.threads[t]) == Some(id)
    ensures Moves(c, s, l)
  {
    assert LocalOk(c, s, t, s.threads[t]);
    match s.threads[t]
    case Spin(_) => l := SpinStep(t); assert Do(c, s, l).threads[t].Find?;
    case Await(_, _) => l := AwaitStep(t); assert Do(c, s, l).threads[t].GiveBack?;
    case Deliver(_, _, _, _) => l := DelivererMoves(c, s, t);
    case GiveBack(target, seen) => l := GiverMoves(c, s, t, target, seen);
  }

  /** Whoever owns part of the word can release it, or some thread can bring that about. */
  lemma OwnerMoves(c: Client, s: Sys, i: nat) returns (l: Label)
    requires Inv(c, s) && OwnersMatch(s) && !s.locked && s.queue != []
    requires i < |s.owners| && s.owners[i].op.Acquired() > 0
    ensures Moves(c, s, l)
  {
    if s.owners[i].claimed {
      var t := FreshThread(s.threads);
      OwnersCanRelease(c, s, i);
      l := Release(t, i);
      assert Do(c, s, l).data < s.data;
    } else {
      var id := s.owners[i].id;
      assert UnclaimedOk(s, s.owners[i]);
      assert EntryOk(c, s, id);
      match s.entries[id].status
      case Resolved(u, _) => l := DelivererMoves(c, s, u);
      case Ready(_) =>
        if s.entries[id].canceller.Some? {
          l := CancellerMoves(c, s, id, s.entries[id].canceller.value);
        } else {
          l := Consume(id);
          assert Do(c, s, l).entries[id].status.Taken?;
        }
    }
  }

  /** While anybody is queued, some thread or some owner can take a step that is not idle waiting. */
  lemma QueueMoves(c: Client, s: Sys) returns (l: Label)
    requires Inv(c, s) && OwnersMatch(s)
    requires s.queue != []
    ensures Moves(c, s, l)
  {
    if s.locked {
      l := ProcessorMoves(c, s, s.holder.value);
    } else {
      var i := SomeoneOwns(s.owners);
      l := OwnerMoves(c, s, i);
    }
  }

  /** The entry has been consumed by its owner, or cancelled before or after its grant. */
  predicate Closed(status: Status) {
    status.Taken? || status.Unlinked? || status.GivenBack?
  }

  /** Nobody is queued, every call has returned, and every entry that was ever pushed is closed. */
  ghost predicate Settled(s: Sys) {
    && s.queue == []
    && s.threads == map[]
    && forall id :: id in s.entries ==> Closed(s.entries[id].status)
  }

  /** With an empty queue, a thread inside a call is delivering, or cancelling an entry that was granted. */
  lemma ThreadMoves(c: Client, s: Sys, t: nat) returns (l: Label)
    requires Inv(c, s) && s.queue == [] && t in s.threads
    ensures Moves(c, s, l)
  {
    assert LocalOk(c, s, t, s.threads[t]);
    match s.threads[t]
    case Deliver(_, _, _, _) => l := DelivererMoves(c, s, t);
    case Spin(target) =>
      assert EntryOk(c, s, target.id);
      l := SpinStep(t);
      assert Do(c, s, l).threads[t].Await?;
    case Await(target, _) =>
      assert EntryOk(c, s, target.id);
      if s.entries[target.id].status.Ready? {
        l := AwaitStep(t);
        assert Do(c, s, l).threads[t].GiveBack?;
      } else {
        l := DelivererMoves(c, s, s.entries[target.id].status.setter);
      }
    case GiveBack(target, seen) => l := GiverMoves(c, s, t, target, seen);
  }

  lemma GiverMoves(c: Client, s: Sys, t: nat, target: Waiter, seen: nat) returns (l: Label)
    requires ThreadsOk(c, s) && t in s.threads && s.threads[t] == GiveBack(target, seen)
    ensures Moves(c, s, l)
  {
    assert LocalOk(c, s, t, s.threads[t]);
    if seen == s.data {
      l := GiveBackStep(t, false);
      assert Do(c, s, l).entries[target.id].status == GivenBack;
    } else {
      l := GiveBackStep(t, true);
      assert Do(c, s, l).threads[t] == GiveBack(target, s.data);
    }
  }

  /** With an empty queue and no thread inside a call, an open entry awaits its owner. */
  lemma EntryMoves(c: Client, s: Sys, id: nat) returns (l: Label)
    requires QueueOk(c, s) && EntriesOk(c, s) && s.queue == [] && s.threads == map[]
    requires id in s.entries && !Closed(s.entries[id].status)
    ensures Moves(c, s, l)
  {
    assert EntryOk(c, s, id);
    l := Consume(id);
    assert Do(c, s, l).entries[id].status.Taken?;
  }

  /** Until all is settled, some thread or some owner can take a step that is not idle waiting. */
  lemma SomeoneMoves(c: Client, s: Sys) returns (l: Label)
    requires Inv(c, s) && OwnersMatch(s)
    requires !Settled(s)
    ensures Moves(c, s, l)
  {
    if s.queue != [] {
      l := QueueMoves(c, s);
    } else if s.threads != map[] {
      var t :| t in s.threads;
      l := ThreadMoves(c, s, t);
    } else {
      var id :| id in s.entries && !Closed(s.entries[id].status);
      l := EntryMoves(c, s, id);
    }
  }

  // ---------- Fair runs ----------

  ghost predicate Step(c: Client, s: Sys, s': Sys) {
    exists l :: Moves(c, s, l) && Do(c, s, l) == s'
  }

  ghost predicate StepAt(c: Client, run: nat -> Sys, n: nat) {
    Step(c, run(n), run(n + 1))
  }

  /** Between `n` and `n + 1` some thread takes a step, or all of them wait idly. */
  ghost predicate StepOrIdle(c: Client, run: nat -> Sys, n: nat) {
    run(n + 1) == run(n) || StepAt(c, run, n)
  }

  /** If not all is settled at `n`, some step is taken later on. */
  ghost predicate StepFollows(c: Client, run: nat -> Sys, n: nat) {
    !Settled(run(n)) ==> exists m: nat :: n <= m && StepAt(c, run, m)
  }

  /**
   An infinite run without new requests in which threads may wait idly, but in which some step that
   can be taken is eventually taken until all is settled.
   */
  ghost predicate FairRun(c: Client, run: nat -> Sys) {
    && (forall n: nat :: StepOrIdle(c, run, n))
    && (forall n: nat :: StepFollows(c, run, n))
  }

  lemma NextStep(c: Client, run: nat -> Sys, n: nat) returns (k: nat)
    requires FairRun(c, run)
    requires !Settled(run(n))
    ensures n <= k && run(k) == run(n) && StepAt(c, run, k)
  {
    assert StepFollows(c, run, n);
    var m: nat :| n <= m && StepAt(c, run, m);
    var step := (i: nat) => StepAt(c, run, i);
    forall i: nat
      ensures StillOr(run, step, i)
    {
      assert StepOrIdle(c, run, i);
    }
    k := FirstStep(run, step, n, m);
  }

  ghost predicate LowerRank(s': Sys, s: Sys) {
    Measure(s') < Measure(s) || (Measure(s') == Measure(s) && TotalWork(s') < TotalWork(s))
  }

  lemma StepLowersRank(c: Client, s: Sys, s': Sys)
    requires Reachable(c, s) && Step(c, s, s')
    ensures Reachable(c, s') && LowerRank(s', s)
  {
    var l :| Moves(c, s, l) && Do(c, s, l) == s';
    ReachableHoldsInv(c, s);
    StepDecreasesRank(c, s, l);
    StepStaysReachable(c, s, l);
  }

  /** Until all is settled, a fair run comes to a state of lower rank. */
  lemma Advance(c: Client, run: nat -> Sys, n: nat) returns (k: nat)
    requires FairRun(c, run) && Reachable(c, run(n)) && !Settled(run(n))
    ensures n < k && Reachable(c, run(k)) && LowerRank(run(k), run(n))
  {
    var j := NextStep(c, run, n);
    k := j + 1;
    StepLowersRank(c, run(j), run(k));
  }

  lemma {:induction false} SettlesFrom(c: Client, run: nat -> Sys, n: nat) returns (m: nat)
    requires FairRun(c, run)
    requires Reachable(c, run(n))
    ensures n <= m && Settled(run(m))
    decreases Measure(run(n)), TotalWork(run(n))
  {
    if Settled(run(n)) {
      m := n;
    } else {
      var k := Advance(c, run, n);
      m := SettlesFrom(c, run, k);
    }
  }

  /** Nobody loses an entry: internal steps neither forget entries nor make up new ones. */
  lemma {:induction false} EntriesStay(c: Client, run: nat -> Sys, n: nat, m: nat)
    requires FairRun(c, run) && n <= m
    ensures run(m).entries.Keys == run(n).entries.Keys
    decreases m - n
  {
    if n < m {
      assert StepOrIdle(c, run, n);
      if run(n + 1) != run(n) {
        var l :| Moves(c, run(n), l) && Do(c, run(n), l) == run(n + 1);
        StepKeepsEntries(c, run(n), l);
      }
      EntriesStay(c, run, n + 1, m);
    }
  }

  lemma StepKeepsEntries(c: Client, s: Sys, l: Label)
    requires Enabled(c, s, l) && Internal(l)
    ensures Do(c, s, l).entries.Keys == s.entries.Keys
  {
    if l.ScanStep? || l.KeepStep? || l.TransferStep? {
      GrantKeepsEntries(c, s, l);
    } else if l.GiveBackStep? || l.FindStep? {
      CancellationKeepsEntries(c, s, l);
    }
  }

  lemma GrantKeepsEntries(c: Client, s: Sys, l: Label)
    requires Enabled(c, s, l)
    requires l.ScanStep? || l.KeepStep? || l.TransferStep?
    ensures Do(c, s, l).entries.Keys == s.entries.Keys
  {
  }

  lemma CancellationKeepsEntries(c: Client, s: Sys, l: Label)
    requires Enabled(c, s, l)
    requires l.GiveBackStep? || l.FindStep?
    ensures Do(c, s, l).entries.Keys == s.entries.Keys
  {
    if l.FindStep? {
      var target := s.threads[l.t].target;
      assert SetStatus(s, target.id, Unlinked).entries.Keys == s.entries.Keys;
    } else {
      var target := s.threads[l.t].target;
      assert SetStatus(s, target.id, GivenBack).entries.Keys == s.entries.Keys;
    }
  }

  /**
   Every fair run serves everybody: from any reachable state it comes to a state in which nobody is
   queued, every call has returned, and every entry that was pushed has been consumed or cancelled.
   */
  lemma EveryFairRunSettles(c: Client, run: nat -> Sys)
    requires Reachable(c, run(0))
    requires FairRun(c, run)
    ensures exists m: nat :: Settled(run(m)) && run(m).entries.Keys == run(0).entries.Keys
  {
    var m := SettlesFrom(c, run, 0);
    EntriesStay(c, run, 0, m);
  }

  /** Fairness can always be met: until all is settled there is a step to take. */
  lemma NobodyDeadlocks(c: Client, s: Sys)
    requires Reachable(c, s)
    requires !Settled(s)
    ensures exists l :: Moves(c, s, l)
  {
    ReachableHoldsInv(c, s);
    ReachableOwnersMatch(c, s);
    var l := SomeoneMoves(c, s);
  }
}
