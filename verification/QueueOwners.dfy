/** Grants that nobody has claimed yet and entries that were granted are in one-to-one correspondence. */
module QueueOwners {
  import opened Opcodes
  import opened FairQueue
  import opened QueueMachine
  import opened QueueInvariant
  import opened QueueSteps
  import opened QueueTheorems

  ghost predicate UnclaimedOk(s: Sys, o: Owner) {
    !o.claimed ==> o.id in s.entries && s.entries[o.id].status.Granted() && s.entries[o.id].op == o.op
  }

  ghost predicate OwnersMatch(s: Sys) {
    && (forall i :: 0 <= i < |s.owners| ==> UnclaimedOk(s, s.owners[i]))
    && Unique(s.owners)
  }

  ghost predicate Unique(owners: seq<Owner>) {
    forall i, j :: 0 <= i < j < |owners| && !owners[i].claimed && !owners[j].claimed ==> owners[i].id != owners[j].id
  }

  lemma UniqueAppend(a: seq<Owner>, b: seq<Owner>)
    requires Unique(a) && Unique(b)
    requires forall i, j :: 0 <= i < |a| && 0 <= j < |b| && !a[i].claimed && !b[j].claimed ==> a[i].id != b[j].id
    ensures Unique(a + b)
  {
  }

  lemma UniqueRemove(a: seq<Owner>, i: nat)
    requires Unique(a) && i < |a|
    ensures Unique(RemoveAt(a, i))
    ensures !a[i].claimed ==> forall j :: 0 <= j < |RemoveAt(a, i)| && !RemoveAt(a, i)[j].claimed ==> RemoveAt(a, i)[j].id != a[i].id
  {
  }

  /** Entries that stay granted keep their owners matched. */
  lemma MatchSurvives(s: Sys, s': Sys)
    requires OwnersMatch(s)
    requires Unique(s'.owners)
    requires forall o :: o in s'.owners && !o.claimed ==> o in s.owners
    requires forall o :: o in s'.owners && !o.claimed && UnclaimedOk(s, o) ==> UnclaimedOk(s', o)
    ensures OwnersMatch(s')
  {
    forall i | 0 <= i < |s'.owners|
      ensures UnclaimedOk(s', s'.owners[i])
    {
      var o := s'.owners[i];
      assert o in s'.owners;
      if !o.claimed {
        var j :| 0 <= j < |s.owners| && s.owners[j] == o;
        assert UnclaimedOk(s, s.owners[j]);
      }
    }
  }

  lemma HandKeepsMatch(c: Client, s: Sys, s': Sys, t: nat, k: nat)
    requires QueueOk(c, s) && OwnersMatch(s)
    requires k <= |s.queue| && Handed(s, s', t, k)
    ensures OwnersMatch(s')
  {
    var q := s.queue[..k];
    PrefixIds(c, s, k);
    forall i | 0 <= i < |s'.owners|
      ensures UnclaimedOk(s', s'.owners[i])
    {
      if i < |s.owners| {
        assert UnclaimedOk(s, s.owners[i]);
      } else {
        var w := s.queue[i - |s.owners|];
        assert Ids(q)[i - |s.owners|] == w.id;
        assert WaiterOk(c, s, w);
      }
    }
    HandKeepsUnique(c, s, k);
  }

  lemma HandKeepsUnique(c: Client, s: Sys, k: nat)
    requires QueueOk(c, s) && OwnersMatch(s)
    requires k <= |s.queue|
    ensures Unique(s.owners + OwnersOf(s.queue[..k]))
  {
    forall i, j | 0 <= i < |s.owners| && 0 <= j < k && !s.owners[i].claimed
      ensures s.owners[i].id != s.queue[j].id
    {
      assert UnclaimedOk(s, s.owners[i]);
      assert WaiterOk(c, s, s.queue[j]);
    }
    UniqueAppend(s.owners, OwnersOf(s.queue[..k]));
  }

  lemma ProcessingKeepsMatch(c: Client, s: Sys, l: Label)
    requires WordOk(c, s) && QueueOk(c, s) && ThreadsOk(c, s)
    requires OwnersMatch(s) && Enabled(c, s, l)
    requires l.ScanStep? || l.KeepStep? || l.TransferStep?
    ensures OwnersMatch(Do(c, s, l))
  {
    var s' := Do(c, s, l);
    var r := s.threads[l.t].r;
    assert LocalOk(c, s, l.t, s.threads[l.t]);
    if s'.owners != s.owners {
      if l.ScanStep? {
        ResetIsGreedy(c, s, l.t);
        HandKeepsMatch(c, s, s', l.t, |s.queue|);
      } else {
        HandKeepsMatch(c, s, s', l.t, r.k);
      }
    } else {
      CommitWithoutOwners(c, s, l);
      MatchSurvives(s, s');
    }
  }

  lemma CommitWithoutOwners(c: Client, s: Sys, l: Label)
    requires QueueOk(c, s) && ThreadsOk(c, s) && Enabled(c, s, l)
    requires l.ScanStep? || l.KeepStep? || l.TransferStep?
    requires Do(c, s, l).owners == s.owners
    ensures forall id :: id in s.entries && s.entries[id].status != Queued ==>
              id in Do(c, s, l).entries && Do(c, s, l).entries[id] == s.entries[id]
  {
    forall id | id in s.entries && s.entries[id].status != Queued
      ensures id in Do(c, s, l).entries && Do(c, s, l).entries[id] == s.entries[id]
    {
      GrantsSpareSettled(c, s, l, id);
    }
  }

  lemma GiveBackKeepsMatch(c: Client, s: Sys, t: nat, retry: bool)
    requires AccountOk(c, s) && EntriesOk(c, s) && ThreadsOk(c, s)
    requires OwnersMatch(s) && Enabled(c, s, GiveBackStep(t, retry))
    ensures OwnersMatch(DoGiveBack(c, s, t, retry))
  {
    var s' := DoGiveBack(c, s, t, retry);
    var target := s.threads[t].target;
    var i := IndexOf(s.owners, Owner(target.id, target.op, false));
    assert LocalOk(c, s, t, s.threads[t]);
    assert EntryOk(c, s, target.id);
    if !retry {
      OwnersCanRelease(c, s, i);
      assert s'.owners == RemoveAt(s.owners, i);
      RemovalKeepsMatch(s, s', i);
    } else {
      MatchSurvives(s, s');
    }
  }

  /** The owner of entry `id` goes away, and only that entry changes. */
  lemma RemovalKeepsMatch(s: Sys, s': Sys, i: nat)
    requires OwnersMatch(s) && i < |s.owners| && !s.owners[i].claimed
    requires s'.owners == RemoveAt(s.owners, i)
    requires s'.entries.Keys == s.entries.Keys
    requires forall id :: id in s.entries && id != s.owners[i].id ==> s'.entries[id] == s.entries[id]
    ensures OwnersMatch(s')
  {
    UniqueRemove(s.owners, i);
    MatchSurvives(s, s');
  }

  lemma ConsumeKeepsMatch(c: Client, s: Sys, id: nat)
    requires EntriesOk(c, s) && OwnersMatch(s) && Enabled(c, s, Consume(id))
    ensures OwnersMatch(DoConsume(c, s, id))
  {
    var s' := DoConsume(c, s, id);
    var i := IndexOf(s.owners, Owner(id, s.entries[id].op, false));
    assert EntryOk(c, s, id);
    forall j | 0 <= j < |s'.owners|
      ensures UnclaimedOk(s', s'.owners[j])
    {
      assert UnclaimedOk(s, s.owners[j]);
    }
  }

  lemma ArrivalKeepsMatch(c: Client, s: Sys, l: Label)
    requires EntriesOk(c, s) && OwnersMatch(s) && Enabled(c, s, l)
    requires l.Acquire? || l.Register? || l.Push? || l.StartCancel?
    ensures OwnersMatch(Do(c, s, l))
  {
    var s' := Do(c, s, l);
    IdsAreOld(c, s);
    forall j | 0 <= j < |s'.owners|
      ensures UnclaimedOk(s', s'.owners[j])
      ensures j < |s.owners| && !s.owners[j].claimed ==> s.owners[j].id < s.nextId
    {
      if j < |s.owners| {
        assert UnclaimedOk(s, s.owners[j]);
      }
    }
  }

  lemma ReleaseKeepsMatch(c: Client, s: Sys, t: nat, i: nat)
    requires OwnersMatch(s) && Enabled(c, s, Release(t, i))
    ensures OwnersMatch(Do(c, s, Release(t, i)))
  {
    UniqueRemove(s.owners, i);
    MatchSurvives(s, Do(c, s, Release(t, i)));
  }

  lemma PoisonKeepsMatch(c: Client, s: Sys, t: nat, i: nat)
    requires QueueOk(c, s) && OwnersMatch(s) && Enabled(c, s, Poison(t, i))
    ensures OwnersMatch(Do(c, s, Poison(t, i)))
  {
    UniqueRemove(s.owners, i);
    PrefixIdsAreQueued(c, s, t, |s.queue|);
    MatchSurvives(s, Do(c, s, Poison(t, i)));
  }

  lemma SplitKeepsMatch(c: Client, s: Sys, i: nat, n: nat)
    requires OwnersMatch(s) && Enabled(c, s, SplitPermits(i, n))
    ensures OwnersMatch(Do(c, s, SplitPermits(i, n)))
  {
    var s' := Do(c, s, SplitPermits(i, n));
    forall j | 0 <= j < |s'.owners|
      ensures UnclaimedOk(s', s'.owners[j])
    {
      if j < |s.owners| {
        assert UnclaimedOk(s, s.owners[j]);
      }
    }
  }

  lemma JoinKeepsMatch(c: Client, s: Sys, i: nat, j: nat)
    requires OwnersMatch(s) && Enabled(c, s, JoinPermits(i, j))
    ensures OwnersMatch(Do(c, s, JoinPermits(i, j)))
  {
    var s' := Do(c, s, JoinPermits(i, j));
    forall k | 0 <= k < |s'.owners|
      ensures UnclaimedOk(s', s'.owners[k])
    {
      assert UnclaimedOk(s, s.owners[if k < j then k else k + 1]);
    }
  }

  /** The search unlinks an entry that is queued, so it spares those that were granted. */
  lemma FindSparesGranted(c: Client, s: Sys, t: nat)
    requires QueueOk(c, s) && ThreadsOk(c, s) && Enabled(c, s, FindStep(t))
    ensures DoFind(c, s, t).owners == s.owners
    ensures forall id :: id in s.entries && s.entries[id].status.Granted() ==>
              id in DoFind(c, s, t).entries && DoFind(c, s, t).entries[id] == s.entries[id]
  {
    var Find(target, seen, r) := s.threads[t];
    var i := Position(s, target, r.len);
    assert LocalOk(c, s, t, s.threads[t]);
    FindSparesOthers(c, s, t, i);
    if i < r.len {
      assert WaiterOk(c, s, s.queue[i]);
    }
  }

  lemma FindSparesOthers(c: Client, s: Sys, t: nat, i: nat)
    requires Enabled(c, s, FindStep(t)) && s.threads[t].r.len <= |s.queue|
    requires i == Position(s, s.threads[t].target, s.threads[t].r.len)
    ensures DoFind(c, s, t).owners == s.owners && DoFind(c, s, t).entries.Keys == s.entries.Keys
    ensures DoFind(c, s, t).granted == s.granted
    ensures forall id :: id in s.entries && (i >= s.threads[t].r.len || id != s.queue[i].id) ==>
              DoFind(c, s, t).entries[id] == s.entries[id]
  {
    var Find(target, seen, r) := s.threads[t];
    if i < r.len {
      FindOutcome(c, s, t, target, seen, r, i);
    }
  }

  lemma FindKeepsMatch(c: Client, s: Sys, t: nat)
    requires QueueOk(c, s) && ThreadsOk(c, s)
    requires OwnersMatch(s) && Enabled(c, s, FindStep(t))
    ensures OwnersMatch(DoFind(c, s, t))
  {
    FindSparesGranted(c, s, t);
    MatchSurvives(s, DoFind(c, s, t));
  }

  lemma QuietStepKeepsMatch(c: Client, s: Sys, l: Label)
    requires OwnersMatch(s) && Enabled(c, s, l)
    requires l.Resume? || l.SpinStep? || l.AwaitStep? || l.ClearPoison?
    ensures OwnersMatch(Do(c, s, l))
  {
    MatchSurvives(s, Do(c, s, l));
  }

  lemma DeliverKeepsMatch(c: Client, s: Sys, t: nat)
    requires ThreadsOk(c, s) && OwnersMatch(s) && Enabled(c, s, DeliverStep(t))
    ensures OwnersMatch(DoDeliver(c, s, t))
  {
    assert LocalOk(c, s, t, s.threads[t]);
    MatchSurvives(s, DoDeliver(c, s, t));
  }

  lemma OuterStepKeepsMatch(c: Client, s: Sys, l: Label)
    requires Inv(c, s) && OwnersMatch(s) && Outer(l) && Enabled(c, s, l)
    ensures OwnersMatch(Do(c, s, l))
  {
    match l
    case Consume(id) => ConsumeKeepsMatch(c, s, id);
    case Acquire(_) | Register(_) | Push(_) | StartCancel(_, _) => ArrivalKeepsMatch(c, s, l);
    case Release(t, i) => ReleaseKeepsMatch(c, s, t, i);
    case Poison(t, i) => PoisonKeepsMatch(c, s, t, i);
    case SplitPermits(i, n) => SplitKeepsMatch(c, s, i, n);
    case JoinPermits(i, j) => JoinKeepsMatch(c, s, i, j);
    case ClearPoison => QuietStepKeepsMatch(c, s, l);
  }

  lemma InnerStepKeepsMatch(c: Client, s: Sys, l: Label)
    requires Inv(c, s) && OwnersMatch(s) && !Outer(l) && Enabled(c, s, l)
    ensures OwnersMatch(Do(c, s, l))
  {
    match l
    case ScanStep(_) | KeepStep(_) | TransferStep(_) => ProcessingKeepsMatch(c, s, l);
    case GiveBackStep(t, retry) => GiveBackKeepsMatch(c, s, t, retry);
    case FindStep(t) => FindKeepsMatch(c, s, t);
    case DeliverStep(t) => DeliverKeepsMatch(c, s, t);
    case Resume(_) | SpinStep(_) | AwaitStep(_) => QuietStepKeepsMatch(c, s, l);
  }

  lemma StepKeepsMatch(c: Client, s: Sys, l: Label)
    requires Inv(c, s) && OwnersMatch(s) && Enabled(c, s, l)
    ensures OwnersMatch(Do(c, s, l))
  {
    if Outer(l) {
      OuterStepKeepsMatch(c, s, l);
    } else {
      InnerStepKeepsMatch(c, s, l);
    }
  }

  lemma {:induction false} RunKeepsMatch(c: Client, s: Sys, run: seq<Label>)
    requires Inv(c, s) && OwnersMatch(s) && Legal(c, s, run)
    ensures OwnersMatch(Final(c, s, run))
    decreases |run|
  {
    if run != [] {
      StepKeepsMatch(c, s, run[0]);
      StepKeepsInv(c, s, run[0]);
      RunKeepsMatch(c, Do(c, s, run[0]), run[1..]);
    }
  }

  lemma ReachableOwnersMatch(c: Client, s: Sys)
    requires Reachable(c, s)
    ensures OwnersMatch(s)
  {
    var withheld: nat, run: seq<Label> :| ReachedBy(c, withheld, run, s);
    InitHoldsInv(c, withheld);
    RunKeepsMatch(c, Init(c, withheld), run);
  }

  /**
   Every entry that was granted and not yet claimed or given back stands for exactly one share of
   the word, and every unclaimed share for exactly one such entry.
   */
  lemma GrantsAreOwnedOnce(c: Client, s: Sys)
    requires Reachable(c, s)
    ensures forall id :: id in s.entries && s.entries[id].status.Granted() ==> Owner(id, s.entries[id].op, false) in s.owners
    ensures forall i :: 0 <= i < |s.owners| ==> UnclaimedOk(s, s.owners[i])
    ensures forall i, j :: 0 <= i < j < |s.owners| && !s.owners[i].claimed && !s.owners[j].claimed ==>
              s.owners[i].id != s.owners[j].id
  {
    ReachableHoldsInv(c, s);
    ReachableOwnersMatch(c, s);
    forall id | id in s.entries && s.entries[id].status.Granted()
      ensures Owner(id, s.entries[id].op, false) in s.owners
    {
      assert EntryOk(c, s, id);
    }
  }
}
