/** What the invariant means for every run of a lock or a semaphore. */
module QueueTheorems {
  import opened Opcodes
  import opened FairQueue
  import opened QueueMachine
  import opened QueueInvariant
  import opened QueueSteps

  /** The states that some interleaving of any number of threads reaches. */
  ghost predicate Reachable(c: Client, s: Sys) {
    exists withheld: nat, run: seq<Label> :: ReachedBy(c, withheld, run, s)
  }

  ghost predicate ReachedBy(c: Client, withheld: nat, run: seq<Label>, s: Sys) {
    && ValidInit(c, withheld)
    && Legal(c, Init(c, withheld), run)
    && Final(c, Init(c, withheld), run) == s
  }

  lemma ReachableHoldsInv(c: Client, s: Sys)
    requires Reachable(c, s)
    ensures Inv(c, s)
  {
    var withheld: nat, run: seq<Label> :| ReachedBy(c, withheld, run, s);
    InitHoldsInv(c, withheld);
    RunKeepsInv(c, Init(c, withheld), run);
  }

  lemma {:induction false} RunExtends(c: Client, s: Sys, run: seq<Label>, l: Label)
    requires Legal(c, s, run) && Enabled(c, Final(c, s, run), l)
    ensures Legal(c, s, run + [l])
    ensures Final(c, s, run + [l]) == Do(c, Final(c, s, run), l)
    decreases |run|
  {
    if run == [] {
      assert run + [l] == [l];
      assert [l][1..] == [];
    } else {
      assert (run + [l])[1..] == run[1..] + [l];
      RunExtends(c, Do(c, s, run[0]), run[1..], l);
    }
  }

  lemma StepStaysReachable(c: Client, s: Sys, l: Label)
    requires Reachable(c, s) && Enabled(c, s, l)
    ensures Reachable(c, Do(c, s, l))
  {
    var withheld: nat, run: seq<Label> :| ReachedBy(c, withheld, run, s);
    RunExtends(c, Init(c, withheld), run, l);
    assert ReachedBy(c, withheld, run + [l], Do(c, s, l));
  }

  // ---------- Nobody is stranded ----------

  lemma {:induction false} SomeoneOwns(owners: seq<Owner>) returns (i: nat)
    requires SumOwned(owners) > 0
    ensures i < |owners| && owners[i].op.Acquired() > 0
    decreases |owners|
  {
    if owners[0].op.Acquired() > 0 {
      i := 0;
    } else {
      var j := SomeoneOwns(owners[1..]);
      i := j + 1;
    }
  }

  /**
   If nobody is processing the queue, its head really cannot be served, and somebody owns what it
   waits for and is able to release it.
   */
  lemma NoStrandedWaiter(c: Client, s: Sys)
    requires Reachable(c, s)
    requires !s.locked && s.queue != []
    ensures s.data != 0 && s.data + s.queue[0].op.Desired() > c.Max()
    ensures match s.queue[0].op
            case Exclusive => s.data != 0
            case Shared => s.data >= 62
            case Semaphore(n) => s.data + n > 63
            case Wait(n) => if n == 1 then s.data >= 62 else s.data != 0
            case Barrier(_) => false
    ensures exists i :: 0 <= i < |s.owners| && s.owners[i].op.Acquired() > 0 && s.owners[i].op.CanRelease(s.data)
  {
    ReachableHoldsInv(c, s);
    assert WaiterOk(c, s, s.queue[0]);
    var i := SomeoneOwns(s.owners);
    OwnersCanRelease(c, s, i);
  }

  /** LOCKED is a mutual exclusion lock on the queue: it is set exactly while one thread processes. */
  lemma OneProcessor(c: Client, s: Sys)
    requires Reachable(c, s)
    ensures forall t, u :: t in s.threads && u in s.threads && s.threads[t].HoldsLock() && s.threads[u].HoldsLock() ==> t == u
    ensures s.locked && s.queue != [] <==> exists t :: t in s.threads && s.threads[t].HoldsLock()
  {
    ReachableHoldsInv(c, s);
    forall t | t in s.threads
      ensures s.threads[t].HoldsLock() <==> s.holder == Some(t)
    {
      assert LocalOk(c, s, t, s.threads[t]);
    }
  }

  // ---------- Conservation ----------

  /**
   The count in the word is the sum of all grants that have not been released. It stays within its
   six bits, and every outstanding grant can be taken out of it without a borrow.
   */
  lemma Conservation(c: Client, s: Sys)
    requires Reachable(c, s)
    ensures s.data == SumOwned(s.owners) <= DATA_MASK
    ensures forall i :: 0 <= i < |s.owners| ==> s.owners[i].op.CanRelease(s.data) && s.owners[i].op.Acquired() <= s.data
  {
    ReachableHoldsInv(c, s);
    forall i | 0 <= i < |s.owners|
      ensures s.owners[i].op.CanRelease(s.data) && s.owners[i].op.Acquired() <= s.data
    {
      OwnersCanRelease(c, s, i);
      OwnerWithinData(c, s, i);
    }
  }

  function CountShared(owners: seq<Owner>): nat {
    if owners == [] then 0 else (if owners[0].op == Shared then 1 else 0) + CountShared(owners[1..])
  }

  lemma {:induction false} SharedSum(c: Client, owners: seq<Owner>)
    requires c.LockClient?
    requires forall i :: 0 <= i < |owners| ==> c.Admits(owners[i].op) && owners[i].op != Exclusive
    ensures SumOwned(owners) == CountShared(owners)
    decreases |owners|
  {
    if owners != [] {
      assert c.Admits(owners[0].op);
      SharedSum(c, owners[1..]);
    }
  }

  /**
   Readers and writers exclude each other: the word is full exactly when there is an exclusive
   owner, who is then the only one to own anything; otherwise the word counts the shared owners.
   */
  lemma ReadersWriterExclusion(c: Client, s: Sys)
    requires Reachable(c, s) && c.LockClient?
    ensures s.data == 63 <==> HasExclusive(s.owners)
    ensures forall i, j :: 0 <= i < |s.owners| && 0 <= j < |s.owners| && i != j && s.owners[i].op == Exclusive ==>
              s.owners[j].op.Acquired() == 0
    ensures !HasExclusive(s.owners) ==> s.data == CountShared(s.owners) <= 62
  {
    ReachableHoldsInv(c, s);
    forall i, j | 0 <= i < |s.owners| && 0 <= j < |s.owners| && i != j && s.owners[i].op == Exclusive
      ensures s.owners[j].op.Acquired() == 0
    {
      TwoOwnersWithinSum(s.owners, if i < j then i else j, if i < j then j else i);
    }
    if HasExclusive(s.owners) {
      var i :| 0 <= i < |s.owners| && s.owners[i].op == Exclusive;
      OwnerWithinData(c, s, i);
    } else {
      SharedSum(c, s.owners);
    }
  }

  // ---------- Order ----------

  /**
   Grants happen in the order of the pushes, nobody is granted twice, and nobody who is still
   queued came before somebody who was granted.
   */
  lemma FirstComeFirstServed(c: Client, s: Sys)
    requires Reachable(c, s)
    ensures forall i, j :: 0 <= i < j < |s.granted| ==> s.granted[i] < s.granted[j]
    ensures forall i, j :: 0 <= i < |s.granted| && 0 <= j < |s.queue| ==> s.granted[i] < s.queue[j].id
    ensures forall id :: id in s.granted ==> id in s.entries && s.entries[id].status != Queued
  {
    ReachableHoldsInv(c, s);
  }

  // ---------- Results ----------

  /**
   Every entry gets its result exactly once, or never if it was unlinked: the result of an entry
   that awaits delivery is owed by exactly one thread, which lists it exactly once.
   */
  lemma ResultsAreSetOnce(c: Client, s: Sys, id: nat)
    requires Reachable(c, s)
    requires id in s.entries
    ensures var e := s.entries[id];
            && multiset(s.delivered)[id] == (if e.status.Delivered() then 1 else 0)
            && (e.status == Queued <==> Waiter(id, e.op) in s.queue)
            && (forall t :: t in s.threads && s.threads[t].Deliver? ==>
                  multiset(s.threads[t].pending)[id] ==
                    if e.status == Resolved(t, s.threads[t].code) then 1 else 0)
            && (e.status.Resolved? ==> e.status.setter in s.threads && s.threads[e.status.setter].Deliver?)
  {
    ReachableHoldsInv(c, s);
    var e := s.entries[id];
    assert EntryOk(c, s, id);
    DistinctMeansOnce(s.delivered, id);
    forall t | t in s.threads && s.threads[t].Deliver?
      ensures multiset(s.threads[t].pending)[id] ==
                if e.status == Resolved(t, s.threads[t].code) then 1 else 0
    {
      assert LocalOk(c, s, t, s.threads[t]);
      DistinctMeansOnce(s.threads[t].pending, id);
    }
    if Waiter(id, e.op) in s.queue {
      assert WaiterOk(c, s, Waiter(id, e.op));
    }
  }

  /** `set_result` never meets an entry that already has a result: its debug assertions hold. */
  lemma ResultIsSetOnFreshEntry(c: Client, s: Sys, t: nat)
    requires Reachable(c, s)
    requires t in s.threads && s.threads[t].Deliver? && s.threads[t].pending != []
    ensures Enabled(c, s, DeliverStep(t))
    ensures s.threads[t].pending[0] !in s.delivered
    ensures s.entries[s.threads[t].pending[0]].status == Resolved(t, s.threads[t].code)
  {
    ReachableHoldsInv(c, s);
    assert LocalOk(c, s, t, s.threads[t]);
    assert s.threads[t].pending[0] in s.threads[t].pending;
  }

  /** When all calls have returned, every pushed entry waits, has its result, or was cancelled. */
  lemma QuietState(c: Client, s: Sys, id: nat)
    requires Reachable(c, s)
    requires s.threads == map[]
    requires id in s.entries
    ensures var e := s.entries[id];
            && !e.status.Resolved?
            && (e.canceller.Some? <==> e.status.Unlinked? || e.status.GivenBack?)
            && (e.status.Unlinked? ==> id !in s.delivered)
            && (e.status.GivenBack? ==> multiset(s.delivered)[id] == 1)
  {
    ReachableHoldsInv(c, s);
    assert EntryOk(c, s, id);
    DistinctMeansOnce(s.delivered, id);
  }

  // ---------- Cancellation ----------

  /**
   A canceller whose entry was granted keeps a stale copy of the word. That copy always passes
   `can_release`, and so does the current word, so the grant is never leaked.
   */
  lemma StaleWordCanRelease(c: Client, s: Sys, t: nat)
    requires Reachable(c, s)
    requires t in s.threads && (s.threads[t].Await? || s.threads[t].GiveBack?)
    ensures s.threads[t].target.op.CanRelease(s.threads[t].seen)
    ensures s.threads[t].target.op.CanRelease(s.data)
    ensures Owner(s.threads[t].target.id, s.threads[t].target.op, false) in s.owners
  {
    ReachableHoldsInv(c, s);
    assert LocalOk(c, s, t, s.threads[t]);
    GrantedCanRelease(c, s, s.threads[t].target.id);
    assert EntryOk(c, s, s.threads[t].target.id);
  }

  /** Giving back a cancelled grant takes out exactly what that grant had put into the word. */
  lemma GiveBackIsExact(c: Client, s: Sys, t: nat)
    requires Reachable(c, s)
    requires Enabled(c, s, GiveBackStep(t, false))
    ensures var target := s.threads[t].target;
            var s' := Do(c, s, GiveBackStep(t, false));
            var i := IndexOf(s.owners, Owner(target.id, target.op, false));
            && i < |s.owners|
            && s'.data == s.data - target.op.Acquired()
            && s'.owners == RemoveAt(s.owners, i)
            && s'.queue == s.queue
            && s'.entries == s.entries[target.id := s.entries[target.id].(status := GivenBack)]
            && (s.queue != [] && !s.locked ==> s'.threads[t].Scan?)
  {
    StaleWordCanRelease(c, s, t);
  }

  /** A waiter that has not been granted is removed, and nothing else changes. */
  lemma UnlinkIsExact(c: Client, s: Sys, t: nat)
    requires Reachable(c, s)
    requires t in s.threads && s.threads[t].Find?
    requires s.threads[t].target.id in s.entries && s.entries[s.threads[t].target.id].status == Queued
    ensures Enabled(c, s, FindStep(t))
    ensures var target := s.threads[t].target;
            var s' := Do(c, s, FindStep(t));
            && target in s.queue
            && s'.data == s.data && s'.owners == s.owners && s'.granted == s.granted
            && (s'.queue == s.queue ==> s' == Go(s, t, Find(target, s.threads[t].seen, FirstRound(s))) && s.threads[t].r.clock < s.clock)
            && (s'.queue != s.queue ==>
                  && s'.queue == RemoveAt(s.queue, IndexOf(s.queue, target))
                  && s'.entries == s.entries[target.id := s.entries[target.id].(status := Unlinked)]
                  && (s'.queue == [] <==> !s'.locked))
  {
    ReachableHoldsInv(c, s);
    var Find(target, seen, r) := s.threads[t];
    assert LocalOk(c, s, t, s.threads[t]);
    var i := Position(s, target, r.len);
    IndexInPrefix(s.queue, r.len, target);
    FindOutcome(c, s, t, target, seen, r, i);
  }

  lemma {:induction false} IndexInPrefix(q: seq<Waiter>, n: nat, w: Waiter)
    requires n <= |q|
    requires w in q[..n]
    ensures IndexOf(q, w) == IndexOf(q[..n], w)
    decreases |q|
  {
    if q[0] != w {
      assert q[..n][1..] == q[1..][..n - 1];
      IndexInPrefix(q[1..], n - 1, w);
    }
  }

  /** A thread that is cancelling never loses its entry to anybody else. */
  lemma CancellerKeepsEntry(c: Client, s: Sys, t: nat)
    requires Reachable(c, s)
    requires t in s.threads && TargetOf(s.threads[t]).Some?
    ensures var id := TargetOf(s.threads[t]).value;
            id in s.entries && s.entries[id].canceller == Some(t) && s.entries[id].status.Live()
  {
    ReachableHoldsInv(c, s);
    assert LocalOk(c, s, t, s.threads[t]);
  }

  // ---------- Processing ----------

  /**
   Whenever processing ends, however many pushes and releases disturbed it, the last round has
   granted exactly the greedy prefix of the actual queue from the actual count.
   */
  lemma UnlockIsGreedy(c: Client, s: Sys, t: nat, l: Label)
    requires Reachable(c, s)
    requires l == ScanStep(t) || l == KeepStep(t)
    requires Enabled(c, s, l)
    requires !Do(c, s, l).locked
    ensures var g := Greedy(c.Max(), s.data, s.queue);
            var s' := Do(c, s, l);
            && s'.queue == s.queue[g..]
            && s'.data == s.data + SumAcquired(s.queue[..g])
            && s'.owners == s.owners + OwnersOf(s.queue[..g])
            && s'.threads[t].Deliver? && s'.threads[t].pending == IdsNewestFirst(s.queue[..g])
  {
    ReachableHoldsInv(c, s);
    if l == ScanStep(t) {
      ResetIsGreedy(c, s, t);
    } else {
      KeepIsGreedy(c, s, t);
    }
  }

  /** The tail of the queue was granted too: the queue is reset. */
  lemma ResetIsGreedy(c: Client, s: Sys, t: nat)
    requires WordOk(c, s) && ThreadsOk(c, s)
    requires Enabled(c, s, ScanStep(t)) && !DoScan(c, s, t).locked
    ensures Greedy(c.Max(), s.data, s.queue) == |s.queue|
    ensures DoScan(c, s, t) == HandState(s, t, |s.queue|, None, s.threads[t].after)
  {
    var r := s.threads[t].r;
    assert LocalOk(c, s, t, s.threads[t]);
    ScanExtends(c, s, r);
    GreedyIsUnique(c.Max(), s.data, s.queue, r.len);
  }

  /** The waiter at position `k` does not fit: it becomes the head. */
  lemma KeepIsGreedy(c: Client, s: Sys, t: nat)
    requires Inv(c, s)
    requires Enabled(c, s, KeepStep(t)) && !DoKeep(c, s, t).locked
    ensures Greedy(c.Max(), s.data, s.queue) < |s.queue|
    ensures DoKeep(c, s, t) == HandState(s, t, Greedy(c.Max(), s.data, s.queue), None, s.threads[t].after)
  {
    var r := s.threads[t].r;
    assert LocalOk(c, s, t, s.threads[t]);
    GreedyIsUnique(c.Max(), s.data, s.queue, r.k);
  }

  /**
   A round that loses the race still grants a legal prefix of the actual queue: all that its snapshot
   had room for, except that it may leave out the snapshot's tail.
   */
  lemma RetryIsLegal(c: Client, s: Sys, t: nat)
    requires Reachable(c, s)
    requires Enabled(c, s, TransferStep(t))
    ensures var r, k := s.threads[t].r, s.threads[t].r.k;
            var s' := Do(c, s, TransferStep(t));
            && k < r.len <= |s.queue|
            && (k + 1 == r.len || !FitsAfter(c.Max(), r.data, s.queue, k))
            && LegalGrants(c.Max(), s.data, s.queue, k)
            && s'.queue == s.queue[k..]
            && s'.data == s.data + SumAcquired(s.queue[..k])
            && s'.owners == s.owners + OwnersOf(s.queue[..k])
            && s'.locked
            && s'.threads[t].Deliver? && s'.threads[t].pending == IdsNewestFirst(s.queue[..k])
  {
    ReachableHoldsInv(c, s);
    var r := s.threads[t].r;
    assert LocalOk(c, s, t, s.threads[t]);
    LegalGrantsWithLess(c.Max(), r.data, s.data, s.queue, r.k);
  }

  /**
   Every extra round is paid for by a push or a release: a processor in its `rounds`-th round has
   been disturbed at least `rounds - 1` times since its first snapshot.
   */
  lemma RoundsAreCharged(c: Client, s: Sys, t: nat)
    requires Reachable(c, s)
    requires t in s.threads
    ensures var l := s.threads[t];
            && (l.Scan? || l.Keep? || l.Transfer? ==> l.r.rounds - 1 <= s.clock - l.r.start)
            && (l.Transfer? ==> l.r.rounds <= s.clock - l.r.start)
            && (l.Deliver? && l.next.Some? ==> l.next.value.rounds - 1 <= s.clock - l.next.value.start)
  {
    ReachableHoldsInv(c, s);
    assert LocalOk(c, s, t, s.threads[t]);
  }

  // ---------- Poison ----------

  /** The word is LOCKED over a null address exactly while the lock is poisoned; nobody owns or processes it then. */
  lemma PoisonedWord(c: Client, s: Sys)
    requires Reachable(c, s)
    ensures s.poisoned <==> s.locked && s.queue == []
    ensures s.poisoned ==> s.data == 0 && SumOwned(s.owners) == 0
    ensures s.poisoned ==> forall t :: t in s.threads ==> !s.threads[t].HoldsLock()
  {
    ReachableHoldsInv(c, s);
    forall t | t in s.threads
      ensures s.threads[t].HoldsLock() <==> s.holder == Some(t)
    {
      assert LocalOk(c, s, t, s.threads[t]);
    }
  }

  /** Nothing can be acquired, queued or released on a poisoned lock; only clearing it helps. */
  lemma PoisonRefusesEverything(c: Client, s: Sys)
    requires Reachable(c, s) && s.poisoned
    ensures forall op :: !Enabled(c, s, Acquire(op)) && !Enabled(c, s, Register(op)) && !Enabled(c, s, Push(op))
    ensures forall t: nat, i: nat :: Enabled(c, s, Release(t, i)) ==> s.owners[i].op.Wait?
    ensures forall t: nat, i: nat :: !Enabled(c, s, Poison(t, i))
    ensures Enabled(c, s, ClearPoison)
    ensures var s' := Do(c, s, ClearPoison); !s'.locked && s'.data == 0 && s'.queue == []
  {
    ReachableHoldsInv(c, s);
    forall t: nat, i: nat | Enabled(c, s, Release(t, i))
      ensures s.owners[i].op.Wait?
    {
      OwnerWithinData(c, s, i);
      assert c.Admits(s.owners[i].op);
    }
  }

  /** Poisoning settles every queued entry with `Poisoned`, and every other entry is left alone. */
  lemma PoisonReachesTheQueue(c: Client, s: Sys, t: nat, i: nat, id: nat)
    requires Reachable(c, s)
    requires Enabled(c, s, Poison(t, i))
    requires id in s.entries
    ensures var s' := Do(c, s, Poison(t, i));
            && s'.poisoned && s'.granted == s.granted
            && s'.threads[t].Deliver? && s'.threads[t].code == Poisoned
            && s'.threads[t].pending == IdsNewestFirst(s.queue)
            && (forall u :: u in s.threads ==> !s.threads[u].HoldsLock())
            && s'.entries[id].status ==
                 if s.entries[id].status == Queued then Resolved(t, Poisoned) else s.entries[id].status
  {
    ReachableHoldsInv(c, s);
    forall u | u in s.threads
      ensures !s.threads[u].HoldsLock()
    {
      assert LocalOk(c, s, u, s.threads[u]);
    }
    AllIds(c, s, id);
  }

  predicate HasCode(status: Status, code: Code) {
    (status.Resolved? || status.Ready? || status.Taken?) && status.code == code
  }

  /** Once settled with `Poisoned`, an entry never gets another result. */
  lemma PoisonIsFinal(c: Client, s: Sys, l: Label, id: nat)
    requires Reachable(c, s) && Enabled(c, s, l)
    requires id in s.entries && HasCode(s.entries[id].status, Poisoned)
    ensures id in Do(c, s, l).entries && HasCode(Do(c, s, l).entries[id].status, Poisoned)
  {
    ReachableHoldsInv(c, s);
    assert EntryOk(c, s, id);
    if l.ScanStep? || l.KeepStep? || l.TransferStep? || l.Poison? {
      GrantsSpareSettled(c, s, l, id);
    } else if l.DeliverStep? || l.FindStep? || l.GiveBackStep? || l.Consume? {
      ResultsSpareSettled(c, s, l, id);
    } else {
      OthersSpareSettled(c, s, l, id);
    }
  }

  lemma ResultsSpareSettled(c: Client, s: Sys, l: Label, id: nat)
    requires ThreadsOk(c, s) && EntriesOk(c, s) && Enabled(c, s, l)
    requires c == LockClient(true)
    requires l.DeliverStep? || l.FindStep? || l.GiveBackStep? || l.Consume?
    requires id in s.entries && HasCode(s.entries[id].status, Poisoned)
    ensures id in Do(c, s, l).entries && HasCode(Do(c, s, l).entries[id].status, Poisoned)
  {
    CancellersAreAllowed(c, s);
    if l.DeliverStep? {
      assert LocalOk(c, s, l.t, s.threads[l.t]);
    }
  }

  lemma CancellersAreAllowed(c: Client, s: Sys)
    requires ThreadsOk(c, s) && EntriesOk(c, s)
    ensures forall t :: t in s.threads && TargetOf(s.threads[t]).Some? ==> c.Cancellable()
  {
    forall t | t in s.threads && TargetOf(s.threads[t]).Some?
      ensures c.Cancellable()
    {
      assert LocalOk(c, s, t, s.threads[t]);
      assert EntryOk(c, s, TargetOf(s.threads[t]).value);
    }
  }

  lemma OthersSpareSettled(c: Client, s: Sys, l: Label, id: nat)
    requires EntriesOk(c, s) && Enabled(c, s, l)
    requires !l.ScanStep? && !l.KeepStep? && !l.TransferStep? && !l.Poison?
    requires !l.DeliverStep? && !l.FindStep? && !l.GiveBackStep? && !l.Consume?
    requires id in s.entries
    ensures id in Do(c, s, l).entries && Do(c, s, l).entries[id].status == s.entries[id].status
  {
    IdsAreOld(c, s);
  }

  /** Handing over ownership or poison concerns queued entries only. */
  lemma GrantsSpareSettled(c: Client, s: Sys, l: Label, id: nat)
    requires QueueOk(c, s) && ThreadsOk(c, s) && Enabled(c, s, l)
    requires l.ScanStep? || l.KeepStep? || l.TransferStep? || l.Poison?
    requires id in s.entries && s.entries[id].status != Queued
    ensures id in Do(c, s, l).entries && Do(c, s, l).entries[id] == s.entries[id]
  {
    match l
    case ScanStep(t) => PrefixIdsAreQueued(c, s, t, s.threads[t].r.len);
    case KeepStep(t) => PrefixIdsAreQueued(c, s, t, s.threads[t].r.k);
    case TransferStep(t) => PrefixIdsAreQueued(c, s, t, s.threads[t].r.k);
    case Poison(t, i) => PoisonSparesSettled(c, s, t, i, id);
  }

  lemma PoisonSparesSettled(c: Client, s: Sys, t: nat, i: nat, id: nat)
    requires QueueOk(c, s) && Enabled(c, s, Poison(t, i))
    requires id in s.entries && s.entries[id].status != Queued
    ensures id in Do(c, s, Poison(t, i)).entries && Do(c, s, Poison(t, i)).entries[id] == s.entries[id]
  {
    PrefixIdsAreQueued(c, s, t, |s.queue|);
  }

  lemma PrefixIdsAreQueued(c: Client, s: Sys, t: nat, k: nat)
    requires QueueOk(c, s)
    ensures k <= |s.queue| ==> forall id :: id in Ids(s.queue[..k]) ==> id in s.entries && s.entries[id].status == Queued
    ensures forall id :: id in Ids(s.queue) ==> id in s.entries && s.entries[id].status == Queued
  {
    if k <= |s.queue| {
      PrefixIds(c, s, k);
    }
    assert s.queue[..|s.queue|] == s.queue;
    PrefixIds(c, s, |s.queue|);
  }
}
