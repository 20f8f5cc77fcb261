/**
 What the protocol means to its users, in their own terms: which requests can be served, who may
 release, poison or cancel, what a waiter is told, and what the numbers in the word count.
 */
module QueueMeaning {
  import opened Opcodes
  import opened FairQueue
  import opened QueueMachine
  import opened QueueInvariant
  import opened QueueSteps
  import opened QueueTheorems
  import opened QueueOwners

  // ---------- Serving ----------

  /**
   The head of a lock's queue can be served by the same counts on which a caller would not have to
   queue up at all: waiting for shared access is over as soon as a 63rd owner would not be needed,
   and waiting for exclusive access only when nobody owns the lock.
   */
  lemma LockServes(c: Client, data: nat, op: Opcode)
    requires c.LockClient? && c.Admits(op) && data <= 63
    ensures op == Shared || op == Wait(1) ==> (Fits(c.Max(), data, op) <==> data < 62)
    ensures op == Exclusive || op == Wait(63) ==> (Fits(c.Max(), data, op) <==> data == 0)
  {
  }

  lemma SemaphoreServes(data: nat, n: nat)
    requires data <= 63 && n <= 63
    ensures Fits(SemaphoreClient.Max(), data, Semaphore(n)) <==> data + n <= 63
  {
  }

  /** Which requests a lock serves at once and which it queues, in every state; a poisoned lock does neither. */
  lemma LockAccepts(c: Client, s: Sys)
    requires Reachable(c, s) && c.LockClient?
    ensures var free := s.data == 0 && s.queue == [] && !s.poisoned;
            && (Enabled(c, s, Acquire(Exclusive)) <==> free) && (Enabled(c, s, Register(Exclusive)) <==> free)
            && (Enabled(c, s, Push(Exclusive)) <==> !free && !s.poisoned)
    ensures var room := s.data < 62 && s.queue == [] && !s.poisoned;
            && (Enabled(c, s, Acquire(Shared)) <==> room) && (Enabled(c, s, Register(Shared)) <==> room)
            && (Enabled(c, s, Push(Shared)) <==> !room && !s.poisoned)
    ensures Enabled(c, s, Push(Wait(63))) <==> s.data != 0
    ensures Enabled(c, s, Push(Wait(1))) <==> s.data >= 62
  {
    PoisonedWord(c, s);
  }

  /** A semaphore serves a request at once if nobody is queued and the permits suffice, and queues it otherwise. */
  lemma SemaphoreAccepts(s: Sys, n: nat)
    requires Reachable(SemaphoreClient, s) && n <= 63
    ensures var now := s.queue == [] && s.data + n <= 63;
            && (Enabled(SemaphoreClient, s, Acquire(Semaphore(n))) <==> now)
            && (Enabled(SemaphoreClient, s, Register(Semaphore(n))) <==> now)
            && (Enabled(SemaphoreClient, s, Push(Semaphore(n))) <==> !now)
  {
    PoisonedWord(SemaphoreClient, s);
    ReachableHoldsInv(SemaphoreClient, s);
  }

  // ---------- Owning ----------

  function CountPermits(owners: seq<Owner>): nat {
    if owners == [] then 0
    else (if owners[0].op.Semaphore? then owners[0].op.permits else 0) + CountPermits(owners[1..])
  }

  lemma {:induction false} PermitSum(owners: seq<Owner>)
    requires forall i :: 0 <= i < |owners| ==> owners[i].op.Semaphore?
    ensures SumOwned(owners) == CountPermits(owners)
  {
    if owners != [] {
      PermitSum(owners[1..]);
    }
  }

  /** A semaphore's word counts the permits that are taken, of which there are never more than 63. */
  lemma PermitsAreConserved(s: Sys)
    requires Reachable(SemaphoreClient, s)
    ensures s.data == CountPermits(s.owners) <= 63
  {
    ReachableHoldsInv(SemaphoreClient, s);
    forall i | 0 <= i < |s.owners|
      ensures s.owners[i].op.Semaphore?
    {
      assert SemaphoreClient.Admits(s.owners[i].op);
    }
    PermitSum(s.owners);
  }

  lemma {:induction false} SomeoneShares(owners: seq<Owner>)
    ensures CountShared(owners) > 0 <==> exists i :: 0 <= i < |owners| && owners[i].op == Shared
  {
    if owners != [] {
      SomeoneShares(owners[1..]);
      if owners[0].op != Shared {
        assert forall i :: 0 <= i < |owners| - 1 ==> owners[1..][i] == owners[i + 1];
        if CountShared(owners[1..]) > 0 {
          var i :| 0 <= i < |owners| - 1 && owners[1..][i].op == Shared;
          assert owners[i + 1].op == Shared;
        }
      }
    }
  }

  /** In every state of a lock the test before a release says whether there is such an owner. */
  lemma ReleaseNeedsAnOwner(c: Client, s: Sys)
    requires Reachable(c, s) && c.LockClient?
    ensures Shared.CanRelease(s.data) <==> exists i :: 0 <= i < |s.owners| && s.owners[i].op == Shared
    ensures Exclusive.CanRelease(s.data) <==> exists i :: 0 <= i < |s.owners| && s.owners[i].op == Exclusive
  {
    ReadersWriterExclusion(c, s);
    SomeoneShares(s.owners);
    if HasExclusive(s.owners) {
      var i :| 0 <= i < |s.owners| && s.owners[i].op == Exclusive;
      assert forall j :: 0 <= j < |s.owners| && s.owners[j].op == Shared ==> j != i && s.owners[j].op.Acquired() == 1;
    }
  }

  /** Any number of shared owners up to 62 can own a lock together, and a 63rd cannot. */
  lemma {:induction false} SharedOwners(c: Client, k: nat) returns (s: Sys)
    requires c.LockClient? && k <= 62
    ensures Reachable(c, s) && CountShared(s.owners) == s.data == k
    ensures !s.locked && s.queue == [] && s.threads == map[]
    ensures Enabled(c, s, Acquire(Shared)) <==> k < 62
    ensures Enabled(c, s, Acquire(Exclusive)) <==> k == 0
  {
    if k == 0 {
      s := Init(c, 0);
      assert ReachedBy(c, 0, [], s);
    } else {
      var s0 := SharedOwners(c, k - 1);
      StepStaysReachable(c, s0, Acquire(Shared));
      s := Do(c, s0, Acquire(Shared));
      CountSharedAppend(s0.owners, s.owners[|s0.owners|]);
    }
  }

  lemma {:induction false} CountSharedAppend(owners: seq<Owner>, o: Owner)
    ensures CountShared(owners + [o]) == CountShared(owners) + if o.op == Shared then 1 else 0
  {
    if owners == [] {
      assert owners + [o] == [o];
    } else {
      assert (owners + [o])[1..] == owners[1..] + [o];
      CountSharedAppend(owners[1..], o);
    }
  }

  // ---------- What owners and waiters may do ----------

  /** Whoever knows that it owns may release, whatever else is going on. */
  lemma OwnerMayRelease(c: Client, s: Sys, t: nat, i: nat)
    requires Reachable(c, s) && t !in s.threads
    requires i < |s.owners| && s.owners[i].claimed
    ensures Enabled(c, s, Release(t, i))
  {
    Conservation(c, s);
  }

  /** Owner `i` of a semaphore knows that it owns `n` permits. */
  ghost predicate Holds(s: Sys, i: nat, n: nat) {
    i < |s.owners| && s.owners[i].claimed && s.owners[i].op == Semaphore(n)
  }

  /** Permits of one holder can be put together. */
  lemma PermitsCanBeJoined(s: Sys, i: nat, j: nat, a: nat, b: nat)
    requires i < j && Holds(s, i, a) && Holds(s, j, b)
    ensures Enabled(SemaphoreClient, s, JoinPermits(i, j))
    ensures var s' := Do(SemaphoreClient, s, JoinPermits(i, j));
            Holds(s', i, a + b) && s' == s.(owners := s'.owners) && |s'.owners| == |s.owners| - 1
  {
  }

  /** Permits may be given back in any portions, whatever the portions in which they were acquired. */
  lemma PermitsMayBeGivenBackInParts(s: Sys, t: nat, i: nat, held: nat, n: nat)
    requires Reachable(SemaphoreClient, s) && t !in s.threads
    requires Holds(s, i, held) && n <= held
    ensures Enabled(SemaphoreClient, s, SplitPermits(i, n))
    ensures var s1 := Do(SemaphoreClient, s, SplitPermits(i, n));
            && Holds(s1, i, n) && Holds(s1, |s.owners|, held - n) && s1 == s.(owners := s1.owners)
            && Enabled(SemaphoreClient, s1, Release(t, i))
            && Do(SemaphoreClient, s1, Release(t, i)).data == s.data - n
  {
    Conservation(SemaphoreClient, s);
  }

  /** An exclusive owner may poison the lock whenever nobody is processing the queue. */
  lemma ExclusiveOwnerMayPoison(s: Sys, t: nat, i: nat)
    requires Reachable(LockClient(true), s) && t !in s.threads && !s.locked
    requires i < |s.owners| && s.owners[i].claimed && s.owners[i].op == Exclusive
    ensures Enabled(LockClient(true), s, Poison(t, i))
  {
    ReadersWriterExclusion(LockClient(true), s);
  }

  /** A waiter that has not taken its result may cancel, whether it has been granted or not. */
  lemma WaiterMayCancel(c: Client, s: Sys, t: nat, id: nat)
    requires Reachable(c, s) && c != LockClient(true) && t !in s.threads
    requires id in s.entries && !s.entries[id].status.Taken? && s.entries[id].canceller == None
    ensures Enabled(c, s, StartCancel(t, id))
  {
    ReachableHoldsInv(c, s);
    assert EntryOk(c, s, id);
  }

  /** A waiter that is not cancelling takes its result as soon as it is final. */
  lemma WaiterMayConsume(c: Client, s: Sys, id: nat)
    requires Reachable(c, s) && id in s.entries && id in s.delivered
    requires s.entries[id].canceller == None && !s.entries[id].status.Taken?
    ensures Enabled(c, s, Consume(id))
  {
    ReachableHoldsInv(c, s);
    assert EntryOk(c, s, id);
  }

  // ---------- What a waiter is told ----------

  /** The entry was granted: its owner is told so, or has given the grant back. */
  predicate ToldAcquired(status: Status) {
    HasCode(status, Acquired) || status.GivenBack?
  }

  ghost predicate GrantsAreTold(s: Sys) {
    forall id :: id in s.granted ==> id in s.entries && ToldAcquired(s.entries[id].status)
  }

  lemma CommitTellsGranted(c: Client, s: Sys, l: Label)
    requires QueueOk(c, s) && ThreadsOk(c, s) && HistoryOk(s) && GrantsAreTold(s) && Enabled(c, s, l)
    requires l.ScanStep? || l.KeepStep? || l.TransferStep?
    ensures GrantsAreTold(Do(c, s, l))
  {
    var s' := Do(c, s, l);
    var k := if l.ScanStep? then s.threads[l.t].r.len else s.threads[l.t].r.k;
    assert LocalOk(c, s, l.t, s.threads[l.t]);
    forall id | id in s'.granted
      ensures id in s'.entries && ToldAcquired(s'.entries[id].status)
    {
      if id in s.granted {
        GrantsSpareSettled(c, s, l, id);
      } else {
        NewlyGranted(c, s, l, k, id);
      }
    }
  }

  lemma NewlyGranted(c: Client, s: Sys, l: Label, k: nat, id: nat)
    requires QueueOk(c, s) && Enabled(c, s, l) && k <= |s.queue|
    requires l.ScanStep? || l.KeepStep? || l.TransferStep?
    requires k == if l.ScanStep? then s.threads[l.t].r.len else s.threads[l.t].r.k
    requires id in Do(c, s, l).granted && id !in s.granted
    ensures id in Do(c, s, l).entries && Do(c, s, l).entries[id].status == Resolved(l.t, Acquired)
  {
    PrefixIds(c, s, k);
  }

  lemma OthersTellGranted(c: Client, s: Sys, l: Label)
    requires QueueOk(c, s) && EntriesOk(c, s) && ThreadsOk(c, s) && GrantsAreTold(s) && Enabled(c, s, l)
    requires !l.ScanStep? && !l.KeepStep? && !l.TransferStep?
    ensures GrantsAreTold(Do(c, s, l))
  {
    OthersGrantNothing(c, s, l);
    forall id | id in s.granted
      ensures id in Do(c, s, l).entries && ToldAcquired(Do(c, s, l).entries[id].status)
    {
      ToldStays(c, s, l, id);
    }
  }

  /** Entry `id` is told that it was granted exactly if it was before. */
  ghost predicate SameTold(s: Sys, s': Sys, id: nat)
    requires id in s.entries
  {
    id in s'.entries && ToldAcquired(s'.entries[id].status) == ToldAcquired(s.entries[id].status)
  }

  /** Only a commit makes a waiter one that will be told that it was granted, and nothing unmakes it. */
  lemma ToldStays(c: Client, s: Sys, l: Label, id: nat)
    requires QueueOk(c, s) && EntriesOk(c, s) && ThreadsOk(c, s) && Enabled(c, s, l)
    requires !l.ScanStep? && !l.KeepStep? && !l.TransferStep? && id in s.entries
    ensures SameTold(s, Do(c, s, l), id)
  {
    if l.DeliverStep? || l.Consume? || l.GiveBackStep? || l.FindStep? {
      SettlingKeepsTold(c, s, l, id);
    } else if l.Poison? {
      PoisonKeepsTold(c, s, l.t, l.i, id);
    } else {
      OthersSpareSettled(c, s, l, id);
    }
  }

  lemma SettlingKeepsTold(c: Client, s: Sys, l: Label, id: nat)
    requires QueueOk(c, s) && ThreadsOk(c, s) && Enabled(c, s, l) && id in s.entries
    requires l.DeliverStep? || l.Consume? || l.GiveBackStep? || l.FindStep?
    ensures SameTold(s, Do(c, s, l), id)
  {
    match l
    case DeliverStep(t) => DeliveryKeepsTold(c, s, t, id);
    case Consume(other) => ConsumingKeepsTold(c, s, id, other);
    case GiveBackStep(t, retry) => GivingBackKeepsTold(c, s, t, retry, id);
    case FindStep(t) => FindKeepsTold(c, s, t, id);
  }

  lemma DeliveryKeepsTold(c: Client, s: Sys, t: nat, id: nat)
    requires ThreadsOk(c, s) && Enabled(c, s, DeliverStep(t)) && id in s.entries
    ensures SameTold(s, DoDeliver(c, s, t), id)
  {
    assert LocalOk(c, s, t, s.threads[t]);
    assert s.threads[t].pending[0] in s.threads[t].pending;
  }

  lemma ConsumingKeepsTold(c: Client, s: Sys, id: nat, other: nat)
    requires Enabled(c, s, Consume(other)) && id in s.entries
    ensures SameTold(s, DoConsume(c, s, other), id)
  {
  }

  lemma GivingBackKeepsTold(c: Client, s: Sys, t: nat, retry: bool, id: nat)
    requires ThreadsOk(c, s) && Enabled(c, s, GiveBackStep(t, retry)) && id in s.entries
    ensures SameTold(s, DoGiveBack(c, s, t, retry), id)
  {
    assert LocalOk(c, s, t, s.threads[t]);
  }

  lemma PoisonKeepsTold(c: Client, s: Sys, t: nat, i: nat, id: nat)
    requires QueueOk(c, s) && Enabled(c, s, Poison(t, i)) && id in s.entries
    ensures SameTold(s, Do(c, s, Poison(t, i)), id)
  {
    if s.entries[id].status != Queued {
      PoisonSparesSettled(c, s, t, i, id);
    }
  }

  lemma FindKeepsTold(c: Client, s: Sys, t: nat, id: nat)
    requires QueueOk(c, s) && ThreadsOk(c, s) && Enabled(c, s, FindStep(t)) && id in s.entries
    ensures SameTold(s, DoFind(c, s, t), id)
  {
    var i := Position(s, s.threads[t].target, s.threads[t].r.len);
    assert LocalOk(c, s, t, s.threads[t]);
    if i < s.threads[t].r.len && id == s.queue[i].id {
      assert WaiterOk(c, s, s.queue[i]);
      FindUnlinks(c, s, t, i);
    } else {
      FindSparesOthers(c, s, t, i);
    }
  }

  lemma FindUnlinks(c: Client, s: Sys, t: nat, i: nat)
    requires Enabled(c, s, FindStep(t)) && s.threads[t].r.len <= |s.queue|
    requires i == Position(s, s.threads[t].target, s.threads[t].r.len) && i < s.threads[t].r.len
    ensures s.queue[i].id in DoFind(c, s, t).entries
    ensures var status := DoFind(c, s, t).entries[s.queue[i].id].status; status == Unlinked || status == s.entries[s.queue[i].id].status
  {
    var Find(target, seen, r) := s.threads[t];
    FindOutcome(c, s, t, target, seen, r, i);
  }

  /** Only a commit grants. */
  lemma OthersGrantNothing(c: Client, s: Sys, l: Label)
    requires ThreadsOk(c, s) && Enabled(c, s, l)
    requires !l.ScanStep? && !l.KeepStep? && !l.TransferStep?
    ensures Do(c, s, l).granted == s.granted
  {
    if l.FindStep? {
      assert LocalOk(c, s, l.t, s.threads[l.t]);
      FindSparesOthers(c, s, l.t, Position(s, s.threads[l.t].target, s.threads[l.t].r.len));
    }
  }

  lemma {:induction false} RunTellsGranted(c: Client, s: Sys, run: seq<Label>)
    requires Inv(c, s) && GrantsAreTold(s) && Legal(c, s, run)
    ensures GrantsAreTold(Final(c, s, run))
    decreases |run|
  {
    if run != [] {
      if run[0].ScanStep? || run[0].KeepStep? || run[0].TransferStep? {
        CommitTellsGranted(c, s, run[0]);
      } else {
        OthersTellGranted(c, s, run[0]);
      }
      StepKeepsInv(c, s, run[0]);
      RunTellsGranted(c, Do(c, s, run[0]), run[1..]);
    }
  }

  lemma ReachableTellsGranted(c: Client, s: Sys)
    requires Reachable(c, s)
    ensures GrantsAreTold(s)
  {
    var withheld: nat, run: seq<Label> :| ReachedBy(c, withheld, run, s);
    InitHoldsInv(c, withheld);
    RunTellsGranted(c, Init(c, withheld), run);
  }

  /** A waiter that comes to be granted is recorded as granted, behind those that were before. */
  lemma GrantsAreRecorded(c: Client, s: Sys, l: Label, id: nat)
    requires Reachable(c, s) && Enabled(c, s, l)
    requires id in s.entries && s.entries[id].status.Queued?
    requires id in Do(c, s, l).entries && ToldAcquired(Do(c, s, l).entries[id].status)
    ensures s.granted <= Do(c, s, l).granted && id in Do(c, s, l).granted
  {
    ReachableHoldsInv(c, s);
    if l.ScanStep? || l.KeepStep? || l.TransferStep? {
      CommitRecords(c, s, l, id);
    } else {
      ToldStays(c, s, l, id);
    }
  }

  lemma CommitRecords(c: Client, s: Sys, l: Label, id: nat)
    requires Inv(c, s) && Enabled(c, s, l)
    requires l.ScanStep? || l.KeepStep? || l.TransferStep?
    requires id in s.entries && s.entries[id].status.Queued?
    requires Do(c, s, l).entries[id].status != s.entries[id].status
    ensures s.granted <= Do(c, s, l).granted && id in Do(c, s, l).granted
  {
    assert LocalOk(c, s, l.t, s.threads[l.t]);
  }

  /**
   The owner of the entry has taken its result: it acquired, and owns exactly what it asked for, or
   the lock is poisoned, and it was never granted anything.
   */
  ghost predicate Told(s: Sys, s': Sys, id: nat) {
    && id in s.entries && id in s'.entries
    && match s'.entries[id].status
       case Taken(Acquired) => Claims(s.owners, s'.owners, id, s.entries[id].op)
       case Taken(Poisoned) => id !in s.granted && s'.owners == s.owners
       case _ => false
  }

  /** The waiter's own grant is now known to it, and nothing else has changed hands. */
  ghost predicate Claims(owners: seq<Owner>, owners': seq<Owner>, id: nat, op: Opcode) {
    exists i :: 0 <= i < |owners| && owners[i] == Owner(id, op, false) && owners' == owners[i := Owner(id, op, true)]
  }

  lemma ConsumerIsTold(c: Client, s: Sys, id: nat)
    requires Enabled(c, s, Consume(id)) && EntryOk(c, s, id) && GrantsAreTold(s)
    ensures Told(s, DoConsume(c, s, id), id)
    ensures id in s.granted ==> DoConsume(c, s, id).entries[id].status == Taken(Acquired)
  {
  }

  /** A waiter that was granted is told so; whoever is told that the lock is poisoned was not granted. */
  lemma WaiterIsTold(c: Client, s: Sys, id: nat)
    requires Reachable(c, s) && Enabled(c, s, Consume(id))
    ensures Told(s, Do(c, s, Consume(id)), id)
    ensures id in s.granted ==> Do(c, s, Consume(id)).entries[id].status == Taken(Acquired)
  {
    ReachableHoldsInv(c, s);
    ReachableTellsGranted(c, s);
    ConsumerIsTold(c, s, id);
  }
}
