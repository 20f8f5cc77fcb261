/** Every step of the wait queue protocol keeps its invariant. */
module QueueSteps {
  import opened Opcodes
  import opened FairQueue
  import opened QueueMachine
  import opened QueueInvariant

  // ---------- Steps that only change local variables ----------

  /** What is left of the invariant while thread `t` is between two local states. */
  ghost predicate SharedOk(c: Client, s: Sys) {
    WordOk(c, s) && AccountOk(c, s) && QueueOk(c, s) && EntriesOk(c, s) && HistoryOk(s)
  }

  lemma MoveKeepsInv(c: Client, s: Sys, t: nat, l: Local)
    requires Inv(c, s)
    requires t in s.threads
    requires LocalOk(c, s, t, l)
    requires TargetOf(l) == TargetOf(s.threads[t])
    requires s.threads[t].Deliver? ==> s.threads[t].pending == []
    ensures Inv(c, Go(s, t, l))
  {
    var s' := Go(s, t, l);
    assert LocalOk(c, s, t, s.threads[t]);
    forall u | u in s'.threads
      ensures LocalOk(c, s', u, s'.threads[u])
    {
      LocalIsStable(c, s, s', u, s'.threads[u]);
    }
    MoveKeepsEntries(c, s, t, l);
    SameQueue(c, s, s');
  }

  lemma MoveKeepsEntries(c: Client, s: Sys, t: nat, l: Local)
    requires EntriesOk(c, s) && t in s.threads
    requires TargetOf(l) == TargetOf(s.threads[t])
    requires s.threads[t].Deliver? ==> s.threads[t].pending == []
    ensures EntriesOk(c, Go(s, t, l))
  {
    forall id | id in s.entries
      ensures EntryOk(c, Go(s, t, l), id)
    {
      assert EntryOk(c, s, id);
    }
  }

  lemma FinishKeepsInv(c: Client, s: Sys, t: nat)
    requires Inv(c, s)
    requires t in s.threads
    requires !s.threads[t].HoldsLock()
    requires TargetOf(s.threads[t]).None?
    requires s.threads[t].Deliver? ==> s.threads[t].pending == []
    ensures Inv(c, Finish(s, t))
  {
    var s' := Finish(s, t);
    assert LocalOk(c, s, t, s.threads[t]);
    forall u | u in s'.threads
      ensures LocalOk(c, s', u, s'.threads[u])
    {
      LocalIsStable(c, s, s', u, s'.threads[u]);
    }
    forall id | id in s'.entries
      ensures EntryOk(c, s', id)
    {
      assert EntryOk(c, s, id);
    }
    assert QueueOk(c, s') by {
      forall i | 0 <= i < |s'.queue|
        ensures WaiterOk(c, s', s'.queue[i])
      {
        assert WaiterOk(c, s, s.queue[i]);
      }
    }
  }

  lemma ResumeKeepsInv(c: Client, s: Sys, t: nat)
    requires Inv(c, s)
    requires Enabled(c, s, Resume(t))
    ensures Inv(c, Do(c, s, Resume(t)))
  {
    assert LocalOk(c, s, t, s.threads[t]);
    match s.threads[t].next
    case Some(r) => MoveKeepsInv(c, s, t, Scan(r, s.threads[t].after));
    case None =>
      match s.threads[t].after
      case Return => FinishKeepsInv(c, s, t);
      case ThenAwait(target, seen) => MoveKeepsInv(c, s, t, Await(target, seen));
  }

  lemma AwaitKeepsInv(c: Client, s: Sys, t: nat)
    requires Inv(c, s)
    requires Enabled(c, s, AwaitStep(t))
    ensures Inv(c, Do(c, s, AwaitStep(t)))
  {
    assert LocalOk(c, s, t, s.threads[t]);
    MoveKeepsInv(c, s, t, GiveBack(s.threads[t].target, s.threads[t].seen));
  }

  // ---------- Accounting ----------

  lemma OwnerWithinData(c: Client, s: Sys, i: nat)
    requires AccountOk(c, s)
    requires i < |s.owners|
    ensures s.owners[i].op.Acquired() <= s.data
  {
    SumOwnedSplit(s.owners, i);
  }

  /** Whoever owns something can release it: the count in the word always covers it. */
  lemma OwnersCanRelease(c: Client, s: Sys, i: nat)
    requires AccountOk(c, s)
    requires i < |s.owners|
    ensures s.owners[i].op.CanRelease(s.data)
  {
    OwnerWithinData(c, s, i);
    if s.owners[i].op == Shared && s.data == DATA_MASK {
      var j :| 0 <= j < |s.owners| && s.owners[j].op == Exclusive;
      TwoOwnersWithinSum(s.owners, if i < j then i else j, if i < j then j else i);
    }
  }

  lemma GrantedCanRelease(c: Client, s: Sys, id: nat)
    requires AccountOk(c, s) && EntriesOk(c, s)
    requires id in s.entries && s.entries[id].status.Granted()
    ensures s.entries[id].op.CanRelease(s.data)
  {
    assert EntryOk(c, s, id);
    var i :| 0 <= i < |s.owners| && s.owners[i] == Owner(id, s.entries[id].op, false);
    OwnersCanRelease(c, s, i);
  }

  /** A legal prefix never takes more than there is. */
  lemma LegalGrantsStayInRange(c: Client, data: nat, q: seq<Waiter>, k: nat)
    requires k <= |q|
    requires data <= DATA_MASK
    requires forall i :: 0 <= i < |q| ==> c.Admits(q[i].op)
    requires LegalGrants(c.Max(), data, q, k)
    ensures data + SumAcquired(q[..k]) <= DATA_MASK
  {
    if k == 0 {
      assert q[..0] == [];
    } else {
      assert FitsAfter(c.Max(), data, q, k - 1);
      assert c.Admits(q[k - 1].op);
      SumNext(q, k - 1);
    }
  }

  /** Only an exclusive grant can fill a lock. */
  lemma {:induction false} FullLockIsExclusive(c: Client, data: nat, q: seq<Waiter>, k: nat)
    requires c.LockClient?
    requires k <= |q|
    requires data < DATA_MASK
    requires forall i :: 0 <= i < |q| ==> c.Admits(q[i].op)
    requires LegalGrants(c.Max(), data, q, k)
    requires data + SumAcquired(q[..k]) == DATA_MASK
    ensures exists i :: 0 <= i < k && q[i].op == Exclusive
  {
    if k > 0 {
      assert FitsAfter(c.Max(), data, q, k - 1);
      assert c.Admits(q[k - 1].op);
      SumNext(q, k - 1);
      if q[k - 1].op != Exclusive {
        FullLockIsExclusive(c, data, q, k - 1);
      }
    }
  }

  // ---------- Arrivals ----------

  lemma IdsAreOld(c: Client, s: Sys)
    requires EntriesOk(c, s)
    ensures forall id :: id in s.entries ==> id < s.nextId
  {
    forall id | id in s.entries
      ensures id < s.nextId
    {
      assert EntryOk(c, s, id);
    }
  }

  /** An arrival is no thread's step: every thread can rely on it. */
  lemma ArrivalKeepsThreads(c: Client, s: Sys, s': Sys)
    requires ThreadsOk(c, s)
    requires s'.threads == s.threads
    requires forall u :: u in s.threads ==> Rely(s, s', u)
    ensures ThreadsOk(c, s')
  {
    forall u | u in s'.threads
      ensures LocalOk(c, s', u, s'.threads[u])
    {
      LocalIsStable(c, s, s', u, s.threads[u]);
    }
  }

  lemma AddOwnerKeepsAccount(c: Client, s: Sys, s': Sys, o: Owner)
    requires AccountOk(c, s)
    requires c.Admits(o.op)
    requires Fits(c.Max(), s.data, o.op)
    requires s'.data == s.data + o.op.Acquired()
    requires s'.owners == s.owners + [o]
    ensures AccountOk(c, s')
  {
    SumOwnedAppend(s.owners, [o]);
    if c.LockClient? && s'.data == DATA_MASK {
      assert s'.owners[|s.owners|].op == Exclusive;
    }
  }

  lemma AcquireKeepsInv(c: Client, s: Sys, op: Opcode)
    requires Inv(c, s)
    requires Enabled(c, s, Acquire(op))
    ensures Inv(c, Do(c, s, Acquire(op)))
  {
    var s' := Do(c, s, Acquire(op));
    AddOwnerKeepsAccount(c, s, s', Owner(s.nextId, op, true));
    forall id | id in s'.entries
      ensures EntryOk(c, s', id)
    {
      assert EntryOk(c, s, id);
    }
    ArrivalKeepsThreads(c, s, s');
  }

  lemma DistinctAppend(ids: seq<nat>, id: nat)
    requires Distinct(ids)
    requires id !in ids
    ensures Distinct(ids + [id])
  {
    forall i, j | 0 <= i < j < |ids| + 1
      ensures (ids + [id])[i] != (ids + [id])[j]
    {
      assert ids[i] in ids;
    }
  }

  lemma RegisterKeepsInv(c: Client, s: Sys, op: Opcode)
    requires Inv(c, s)
    requires Enabled(c, s, Register(op))
    ensures Inv(c, Do(c, s, Register(op)))
  {
    var s' := Do(c, s, Register(op));
    var o := Owner(s.nextId, op, false);
    AddOwnerKeepsAccount(c, s, s', o);
    IdsAreOld(c, s);
    RegisterKeepsEntries(c, s, op);
    RegisterKeepsHistory(c, s, op);
    ArrivalKeepsThreads(c, s, s');
  }

  lemma RegisterKeepsEntries(c: Client, s: Sys, op: Opcode)
    requires EntriesOk(c, s) && Enabled(c, s, Register(op))
    ensures EntriesOk(c, Do(c, s, Register(op)))
  {
    var s' := Do(c, s, Register(op));
    assert s'.owners[|s.owners|] == Owner(s.nextId, op, false);
    forall id | id in s'.entries
      ensures EntryOk(c, s', id)
    {
      if id != s.nextId {
        assert EntryOk(c, s, id);
      }
    }
  }

  lemma RegisterKeepsHistory(c: Client, s: Sys, op: Opcode)
    requires EntriesOk(c, s) && QueueOk(c, s) && HistoryOk(s) && Enabled(c, s, Register(op))
    ensures QueueOk(c, Do(c, s, Register(op))) && HistoryOk(Do(c, s, Register(op)))
  {
    IdsAreOld(c, s);
    DistinctAppend(s.delivered, s.nextId);
  }

  lemma PushKeepsInv(c: Client, s: Sys, op: Opcode)
    requires Inv(c, s)
    requires Enabled(c, s, Push(op))
    ensures Inv(c, Do(c, s, Push(op)))
  {
    PushKeepsQueue(c, s, op);
    PushKeepsEntries(c, s, op);
    PushKeepsHistory(c, s, op);
    PushKeepsWord(c, s, op);
    PushKeepsThreads(c, s, op);
  }

  lemma PushKeepsThreads(c: Client, s: Sys, op: Opcode)
    requires ThreadsOk(c, s) && EntriesOk(c, s) && Enabled(c, s, Push(op))
    ensures ThreadsOk(c, Do(c, s, Push(op)))
  {
    IdsAreOld(c, s);
    ArrivalKeepsThreads(c, s, Do(c, s, Push(op)));
  }

  lemma PushKeepsWord(c: Client, s: Sys, op: Opcode)
    requires WordOk(c, s) && AccountOk(c, s) && Enabled(c, s, Push(op))
    ensures WordOk(c, Do(c, s, Push(op))) && AccountOk(c, Do(c, s, Push(op)))
  {
  }

  lemma PushKeepsQueue(c: Client, s: Sys, op: Opcode)
    requires QueueOk(c, s) && EntriesOk(c, s)
    requires Enabled(c, s, Push(op))
    ensures QueueOk(c, Do(c, s, Push(op)))
  {
    var s' := Do(c, s, Push(op));
    IdsAreOld(c, s);
    forall i | 0 <= i < |s'.queue|
      ensures WaiterOk(c, s', s'.queue[i]) && (i < |s.queue| ==> s'.queue[i].id < s.nextId)
    {
      if i < |s.queue| {
        assert WaiterOk(c, s, s.queue[i]);
      }
    }
    assert s'.queue[|s.queue|] == Waiter(s.nextId, op);
  }

  lemma PushKeepsEntries(c: Client, s: Sys, op: Opcode)
    requires EntriesOk(c, s)
    requires Enabled(c, s, Push(op))
    ensures EntriesOk(c, Do(c, s, Push(op)))
  {
    var s' := Do(c, s, Push(op));
    IdsAreOld(c, s);
    forall id | id in s'.entries
      ensures EntryOk(c, s', id)
    {
      if id != s.nextId {
        assert EntryOk(c, s, id);
      }
    }
  }

  lemma PushKeepsHistory(c: Client, s: Sys, op: Opcode)
    requires HistoryOk(s) && EntriesOk(c, s)
    requires Enabled(c, s, Push(op))
    ensures HistoryOk(Do(c, s, Push(op)))
  {
    var s' := Do(c, s, Push(op));
    IdsAreOld(c, s);
    forall i, j | 0 <= i < |s'.granted| && 0 <= j < |s'.queue|
      ensures s'.granted[i] < s'.queue[j].id
    {
      assert s.granted[i] in s.granted;
    }
  }

  // ---------- Handing over ownership ----------

  /** When a processor may hand ownership to the first `k` waiters of the actual queue. */
  ghost predicate HandOk(c: Client, s: Sys, t: nat, k: nat, again: Option<Round>, after: After) {
    && t in s.threads && s.threads[t].HoldsLock() && !s.threads[t].Deliver? && !s.threads[t].Find?
    && s.threads[t].after == after
    && k <= |s.queue|
    && LegalGrants(c.Max(), s.data, s.queue, k)
    && match again
       case None => k < |s.queue| ==> !FitsAfter(c.Max(), s.data, s.queue, k)
       case Some(r) => k < |s.queue| && r.rounds >= 1 && r.start + r.rounds <= s.clock
  }

  function HandState(s: Sys, t: nat, k: nat, again: Option<Round>, after: After): Sys
    requires k <= |s.queue|
  {
    Hand(s, t, k, SumAcquired(s.queue[..k]), again, after)
  }

  lemma QueueIsAdmitted(c: Client, s: Sys)
    requires QueueOk(c, s)
    ensures forall i :: 0 <= i < |s.queue| ==> c.Admits(s.queue[i].op)
  {
    forall i | 0 <= i < |s.queue|
      ensures c.Admits(s.queue[i].op)
    {
      assert WaiterOk(c, s, s.queue[i]);
    }
  }

  /** The fields that a commit of the first `k` waiters changes. */
  ghost predicate Handed(s: Sys, s': Sys, t: nat, k: nat)
    requires k <= |s.queue|
  {
    && s'.data == s.data + SumAcquired(s.queue[..k])
    && s'.queue == s.queue[k..]
    && s'.owners == s.owners + OwnersOf(s.queue[..k])
    && s'.granted == s.granted + Ids(s.queue[..k])
    && s'.delivered == s.delivered
    && s'.nextId == s.nextId
    && s'.clock == s.clock
    && s'.entries == Resolve(s.entries, s.queue[..k], t, Acquired)
  }

  lemma HandKeepsWord(c: Client, s: Sys, t: nat, k: nat, again: Option<Round>, after: After)
    requires WordOk(c, s)
    requires HandOk(c, s, t, k, again, after)
    requires s.holder == Some(t)
    ensures WordOk(c, HandState(s, t, k, again, after))
  {
    if k < |s.queue| {
      assert s.queue[k..][0] == s.queue[k];
    }
  }

  lemma HandKeepsSum(c: Client, s: Sys, s': Sys, t: nat, k: nat)
    requires AccountOk(c, s) && QueueOk(c, s)
    requires k <= |s.queue|
    requires LegalGrants(c.Max(), s.data, s.queue, k)
    requires Handed(s, s', t, k)
    ensures s'.data == SumOwned(s'.owners)
    ensures s'.data <= DATA_MASK
  {
    QueueIsAdmitted(c, s);
    SumOwnedAppend(s.owners, OwnersOf(s.queue[..k]));
    SumOwnersOf(s.queue[..k]);
    LegalGrantsStayInRange(c, s.data, s.queue, k);
  }

  lemma HandKeepsAccount(c: Client, s: Sys, s': Sys, t: nat, k: nat)
    requires AccountOk(c, s) && QueueOk(c, s)
    requires k <= |s.queue|
    requires LegalGrants(c.Max(), s.data, s.queue, k)
    requires Handed(s, s', t, k)
    ensures AccountOk(c, s')
  {
    HandKeepsSum(c, s, s', t, k);
    QueueIsAdmitted(c, s);
    forall i | 0 <= i < |s'.owners|
      ensures c.Admits(s'.owners[i].op)
    {
      if i >= |s.owners| {
        assert s'.owners[i].op == s.queue[i - |s.owners|].op;
      }
    }
    if c.LockClient? && s'.data == DATA_MASK {
      HandKeepsExclusive(c, s, s', t, k);
    }
  }

  lemma HandKeepsExclusive(c: Client, s: Sys, s': Sys, t: nat, k: nat)
    requires AccountOk(c, s) && QueueOk(c, s)
    requires k <= |s.queue|
    requires LegalGrants(c.Max(), s.data, s.queue, k)
    requires Handed(s, s', t, k)
    requires c.LockClient? && s'.data == DATA_MASK
    ensures HasExclusive(s'.owners)
  {
    QueueIsAdmitted(c, s);
    if s.data == DATA_MASK {
      var i :| 0 <= i < |s.owners| && s.owners[i].op == Exclusive;
      assert s'.owners[i].op == Exclusive;
    } else {
      FullLockIsExclusive(c, s.data, s.queue, k);
      var i :| 0 <= i < k && s.queue[i].op == Exclusive;
      assert s'.owners[|s.owners| + i].op == Exclusive;
    }
  }

  /** The identifiers of the first `k` waiters are those of no waiter behind them. */
  lemma PrefixIds(c: Client, s: Sys, k: nat)
    requires QueueOk(c, s)
    requires k <= |s.queue|
    ensures forall j :: k <= j < |s.queue| ==> s.queue[j].id !in Ids(s.queue[..k])
    ensures forall id :: id in Ids(s.queue[..k]) ==> id in s.entries && s.entries[id].status == Queued
  {
    forall id | id in Ids(s.queue[..k])
      ensures id in s.entries && s.entries[id].status == Queued
    {
      var i :| 0 <= i < k && Ids(s.queue[..k])[i] == id;
      assert WaiterOk(c, s, s.queue[i]);
    }
  }

  lemma HandKeepsQueue(c: Client, s: Sys, s': Sys, t: nat, k: nat)
    requires QueueOk(c, s)
    requires k <= |s.queue|
    requires Handed(s, s', t, k)
    ensures QueueOk(c, s')
  {
    PrefixIds(c, s, k);
    forall i | 0 <= i < |s'.queue|
      ensures WaiterOk(c, s', s'.queue[i])
    {
      assert WaiterOk(c, s, s.queue[k + i]);
      assert s'.queue[i] == s.queue[k + i];
    }
    forall id | id in s'.entries && s'.entries[id].status == Queued
      ensures Waiter(id, s'.entries[id].op) in s'.queue
    {
      StillQueued(s, k, Waiter(id, s.entries[id].op));
    }
  }

  lemma StillQueued(s: Sys, k: nat, w: Waiter)
    requires k <= |s.queue|
    requires w in s.queue
    requires w.id !in Ids(s.queue[..k])
    ensures w in s.queue[k..]
  {
    var i :| 0 <= i < |s.queue| && s.queue[i] == w;
    assert s.queue[k..][i - k] == w;
  }

  lemma OwnerOfWaiter(c: Client, s: Sys, k: nat, id: nat)
    requires QueueOk(c, s)
    requires k <= |s.queue|
    requires id in Ids(s.queue[..k])
    ensures id in s.entries && Owner(id, s.entries[id].op, false) in OwnersOf(s.queue[..k])
    ensures id in IdsNewestFirst(s.queue[..k])
  {
    var i :| 0 <= i < k && Ids(s.queue[..k])[i] == id;
    assert WaiterOk(c, s, s.queue[i]);
    SamePosition(s.queue[..k], i);
  }

  /** A waiter, its future owner and its identifier are at the same position, or at the mirrored one. */
  lemma SamePosition(q: seq<Waiter>, i: nat)
    requires i < |q|
    ensures Owner(q[i].id, q[i].op, false) in OwnersOf(q) && q[i].id in Ids(q) && q[i].id in IdsNewestFirst(q)
  {
    assert OwnersOf(q)[i] == Owner(q[i].id, q[i].op, false);
    assert Ids(q)[i] == q[i].id;
    assert IdsNewestFirst(q)[|q| - 1 - i] == q[i].id;
  }

  lemma HandKeepsEntries(c: Client, s: Sys, s': Sys, t: nat, k: nat)
    requires QueueOk(c, s) && EntriesOk(c, s)
    requires k <= |s.queue|
    requires Handed(s, s', t, k)
    requires t in s.threads && !s.threads[t].Deliver?
    requires t in s'.threads && s'.threads[t].Deliver?
    requires s'.threads[t].pending == IdsNewestFirst(s.queue[..k]) && s'.threads[t].code == Acquired
    requires TargetOf(s'.threads[t]) == TargetOf(s.threads[t])
    requires s'.threads == s.threads[t := s'.threads[t]]
    ensures EntriesOk(c, s')
  {
    PrefixIds(c, s, k);
    forall id | id in s'.entries
      ensures EntryOk(c, s', id)
    {
      assert EntryOk(c, s, id);
      if id in Ids(s.queue[..k]) {
        OwnerOfWaiter(c, s, k, id);
        assert Owner(id, s'.entries[id].op, false) in s'.owners;
      }
    }
  }

  lemma IncreasingAppend(a: seq<nat>, b: seq<nat>)
    requires Increasing(a) && Increasing(b)
    requires forall i, j :: 0 <= i < |a| && 0 <= j < |b| ==> a[i] < b[j]
    ensures Increasing(a + b)
  {
  }

  lemma HandKeepsOrder(c: Client, s: Sys, k: nat)
    requires QueueOk(c, s) && HistoryOk(s)
    requires k <= |s.queue|
    ensures Increasing(s.granted + Ids(s.queue[..k]))
    ensures forall i, j :: 0 <= i < |s.granted + Ids(s.queue[..k])| && 0 <= j < |s.queue[k..]| ==>
              (s.granted + Ids(s.queue[..k]))[i] < s.queue[k..][j].id
  {
    IncreasingAppend(s.granted, Ids(s.queue[..k]));
  }

  lemma HandKeepsHistory(c: Client, s: Sys, s': Sys, t: nat, k: nat)
    requires QueueOk(c, s) && HistoryOk(s)
    requires k <= |s.queue|
    requires Handed(s, s', t, k)
    ensures HistoryOk(s')
  {
    PrefixIds(c, s, k);
    HandKeepsOrder(c, s, k);
  }

  lemma HandGuarantees(c: Client, s: Sys, t: nat, k: nat, again: Option<Round>, after: After)
    requires QueueOk(c, s)
    requires HandOk(c, s, t, k, again, after)
    requires s.holder == Some(t)
    ensures Guarantee(s, HandState(s, t, k, again, after), t)
  {
    var s' := HandState(s, t, k, again, after);
    PrefixIds(c, s, k);
    forall u | u in s.threads && u != t
      ensures Rely(s, s', u)
    {
      forall id | id in s.entries
        ensures EntryStable(s, s', u, id)
      {
      }
    }
  }

  lemma PendingIds(c: Client, s: Sys, k: nat)
    requires QueueOk(c, s)
    requires k <= |s.queue|
    ensures Distinct(IdsNewestFirst(s.queue[..k]))
    ensures forall id :: id in IdsNewestFirst(s.queue[..k]) ==> id in Ids(s.queue[..k])
  {
    var pending := IdsNewestFirst(s.queue[..k]);
    forall id | id in pending
      ensures id in Ids(s.queue[..k])
    {
      var i :| 0 <= i < k && pending[i] == id;
      assert Ids(s.queue[..k])[k - 1 - i] == id;
    }
  }

  lemma HandedIsPending(c: Client, s: Sys, s': Sys, t: nat, k: nat)
    requires QueueOk(c, s)
    requires k <= |s.queue|
    requires Handed(s, s', t, k)
    ensures PendingOk(s', t, IdsNewestFirst(s.queue[..k]), Acquired)
  {
    PrefixIds(c, s, k);
    PendingIds(c, s, k);
  }

  lemma HandKeepsAfter(c: Client, s: Sys, s': Sys, t: nat, k: nat, after: After)
    requires QueueOk(c, s)
    requires k <= |s.queue|
    requires Handed(s, s', t, k)
    requires AfterOk(c, s, t, after)
    ensures AfterOk(c, s', t, after)
  {
    PrefixIds(c, s, k);
  }

  lemma HandLocal(c: Client, s: Sys, t: nat, k: nat, again: Option<Round>, after: After)
    requires AccountOk(c, s) && QueueOk(c, s)
    requires HandOk(c, s, t, k, again, after)
    requires AfterOk(c, s, t, after)
    requires s.holder == Some(t)
    ensures LocalOk(c, HandState(s, t, k, again, after), t, HandState(s, t, k, again, after).threads[t])
  {
    var s' := HandState(s, t, k, again, after);
    HandKeepsSum(c, s, s', t, k);
    HandedIsPending(c, s, s', t, k);
    HandKeepsAfter(c, s, s', t, k, after);
    assert s'.queue[..0] == [];
  }

  lemma HandKeepsInv(c: Client, s: Sys, t: nat, k: nat, again: Option<Round>, after: After)
    requires Inv(c, s)
    requires HandOk(c, s, t, k, again, after)
    ensures Inv(c, HandState(s, t, k, again, after))
  {
    var s' := HandState(s, t, k, again, after);
    assert LocalOk(c, s, t, s.threads[t]);
    HandLocal(c, s, t, k, again, after);
    HandGuarantees(c, s, t, k, again, after);
    OthersKeepTheirKnowledge(c, s, s', t);
    HandKeepsShared(c, s, t, k, again, after);
  }

  lemma HandKeepsShared(c: Client, s: Sys, t: nat, k: nat, again: Option<Round>, after: After)
    requires SharedOk(c, s)
    requires HandOk(c, s, t, k, again, after)
    requires s.holder == Some(t)
    ensures SharedOk(c, HandState(s, t, k, again, after))
  {
    var s' := HandState(s, t, k, again, after);
    HandKeepsWord(c, s, t, k, again, after);
    HandKeepsAccount(c, s, s', t, k);
    HandKeepsQueue(c, s, s', t, k);
    HandKeepsEntries(c, s, s', t, k);
    HandKeepsHistory(c, s, s', t, k);
  }

  lemma ScanKeepsInv(c: Client, s: Sys, t: nat)
    requires Inv(c, s)
    requires Enabled(c, s, ScanStep(t))
    ensures Inv(c, DoScan(c, s, t))
  {
    assert LocalOk(c, s, t, s.threads[t]);
    var Scan(r, after) := s.threads[t];
    if Fits(c.Max(), r.data + r.transferred, s.queue[r.k].op) {
      ScanExtends(c, s, r);
      ScanFits(c, s, t, r, after);
    } else {
      MoveKeepsInv(c, s, t, Keep(r, after));
    }
  }

  lemma ScanFits(c: Client, s: Sys, t: nat, r: Round, after: After)
    requires Inv(c, s)
    requires t in s.threads && s.threads[t] == Scan(r, after)
    requires r.k < r.len <= |s.queue| && RoundOk(c, s, r) && AfterOk(c, s, t, after) && s.holder == Some(t)
    requires Fits(c.Max(), r.data + r.transferred, s.queue[r.k].op)
    requires RoundOk(c, s, r.(k := r.k + 1, transferred := r.transferred + s.queue[r.k].op.Acquired()))
    ensures Inv(c, DoScan(c, s, t))
  {
    if r.k + 1 < r.len {
      var next := Scan(r.(k := r.k + 1, transferred := r.transferred + s.queue[r.k].op.Acquired()), after);
      assert DoScan(c, s, t) == Go(s, t, next);
      ScanMoves(c, s, t, next);
    } else {
      ScanTail(c, s, t, r, after);
    }
  }

  lemma ScanMoves(c: Client, s: Sys, t: nat, next: Local)
    requires Inv(c, s)
    requires t in s.threads && s.threads[t].Scan?
    requires s.holder == Some(t)
    requires next.Scan? && next.after == s.threads[t].after
    requires RoundOk(c, s, next.r) && next.r.k < next.r.len
    requires AfterOk(c, s, t, next.after)
    ensures Inv(c, Go(s, t, next))
  {
    MoveKeepsInv(c, s, t, next);
  }

  lemma ScanTail(c: Client, s: Sys, t: nat, r: Round, after: After)
    requires Inv(c, s)
    requires t in s.threads && s.threads[t] == Scan(r, after)
    requires r.k + 1 == r.len <= |s.queue| && RoundOk(c, s, r) && AfterOk(c, s, t, after) && s.holder == Some(t)
    requires Fits(c.Max(), r.data + r.transferred, s.queue[r.k].op)
    requires RoundOk(c, s, r.(k := r.k + 1, transferred := r.transferred + s.queue[r.k].op.Acquired()))
    ensures Inv(c, DoScan(c, s, t))
  {
    if Unchanged(s, r) {
      assert DoScan(c, s, t) == HandState(s, t, r.len, None, after);
      HandKeepsInv(c, s, t, r.len, None, after);
    } else {
      assert DoScan(c, s, t) == Go(s, t, Transfer(r, after));
      MoveKeepsInv(c, s, t, Transfer(r, after));
    }
  }

  lemma ScanExtends(c: Client, s: Sys, r: Round)
    requires RoundOk(c, s, r) && r.k < r.len
    requires Fits(c.Max(), r.data + r.transferred, s.queue[r.k].op)
    ensures RoundOk(c, s, r.(k := r.k + 1, transferred := r.transferred + s.queue[r.k].op.Acquired()))
  {
    assert FitsAfter(c.Max(), r.data, s.queue, r.k);
    SumNext(s.queue, r.k);
  }

  lemma KeepKeepsInv(c: Client, s: Sys, t: nat)
    requires Inv(c, s)
    requires Enabled(c, s, KeepStep(t))
    ensures Inv(c, DoKeep(c, s, t))
  {
    assert LocalOk(c, s, t, s.threads[t]);
    var Keep(r, after) := s.threads[t];
    if s.data == r.data {
      HandKeepsInv(c, s, t, r.k, None, after);
    } else {
      MoveKeepsInv(c, s, t, Transfer(r, after));
    }
  }

  lemma TransferKeepsInv(c: Client, s: Sys, t: nat)
    requires Inv(c, s)
    requires Enabled(c, s, TransferStep(t))
    ensures Inv(c, DoTransfer(c, s, t))
  {
    assert LocalOk(c, s, t, s.threads[t]);
    var Transfer(r, after) := s.threads[t];
    LegalGrantsWithLess(c.Max(), r.data, s.data, s.queue, r.k);
    HandKeepsInv(c, s, t, r.k, Some(r), after);
  }

  // ---------- Releasing ----------

  lemma RemoveAtKeepsOthers(owners: seq<Owner>, i: nat, o: Owner)
    requires i < |owners|
    requires o in owners && o != owners[i]
    ensures o in RemoveAt(owners, i)
  {
    var j :| 0 <= j < |owners| && owners[j] == o;
    assert RemoveAt(owners, i)[if j < i then j else j - 1] == o;
  }

  lemma RemoveOwnerKeepsAccount(c: Client, s: Sys, s': Sys, i: nat)
    requires AccountOk(c, s)
    requires i < |s.owners|
    requires s'.data == s.data - s.owners[i].op.Acquired()
    requires s'.owners == RemoveAt(s.owners, i)
    ensures AccountOk(c, s')
  {
    SumOwnedSplit(s.owners, i);
    if c.LockClient? && s'.data == DATA_MASK {
      var j :| 0 <= j < |s.owners| && s.owners[j].op == Exclusive;
      assert s'.owners[if j < i then j else j - 1].op == Exclusive;
    }
  }

  /** The fields that giving up the owner at position `i` changes. */
  ghost predicate GaveUp(s: Sys, s': Sys, i: nat)
    requires i < |s.owners|
  {
    && s'.data == s.data - s.owners[i].op.Acquired()
    && s'.owners == RemoveAt(s.owners, i)
    && s'.queue == s.queue
    && s'.nextId == s.nextId
    && s'.poisoned == s.poisoned
    && s'.granted == s.granted
    && s'.delivered == s.delivered
    && s'.clock >= s.clock
    && (s'.clock == s.clock ==> s'.data == s.data)
  }

  lemma ReleaseKeepsEntries(c: Client, s: Sys, s': Sys, t: nat, i: nat)
    requires EntriesOk(c, s)
    requires t !in s.threads
    requires i < |s.owners| && s.owners[i].claimed
    requires GaveUp(s, s', i)
    requires s'.entries == s.entries
    requires forall u :: u in s.threads ==> u in s'.threads && s'.threads[u] == s.threads[u]
    ensures EntriesOk(c, s')
  {
    forall id | id in s'.entries
      ensures EntryOk(c, s', id)
    {
      assert EntryOk(c, s, id);
      if s.entries[id].status.Granted() {
        RemoveAtKeepsOthers(s.owners, i, Owner(id, s.entries[id].op, false));
      }
    }
  }

  lemma SameQueue(c: Client, s: Sys, s': Sys)
    requires QueueOk(c, s)
    requires s'.queue == s.queue && s'.entries == s.entries
    ensures QueueOk(c, s')
  {
    forall i | 0 <= i < |s'.queue|
      ensures WaiterOk(c, s', s'.queue[i])
    {
      assert WaiterOk(c, s, s.queue[i]);
    }
  }

  lemma GiveUpKeepsWord(c: Client, s: Sys, t: nat, op: Opcode, i: nat)
    requires WordOk(c, s)
    requires op.CanRelease(s.data)
    requires s.holder != Some(t)
    ensures WordOk(c, GiveUp(s, t, op, i))
  {
  }

  lemma GiveUpLocal(c: Client, s: Sys, t: nat, op: Opcode, i: nat)
    requires op.CanRelease(s.data)
    requires s.data <= DATA_MASK
    requires s.holder != Some(t)
    ensures t in GiveUp(s, t, op, i).threads ==> LocalOk(c, GiveUp(s, t, op, i), t, GiveUp(s, t, op, i).threads[t])
  {
    assert s.queue[..0] == [];
  }

  lemma ReleaseKeepsInv(c: Client, s: Sys, t: nat, i: nat)
    requires Inv(c, s)
    requires Enabled(c, s, Release(t, i))
    ensures Inv(c, GiveUp(s, t, s.owners[i].op, i))
  {
    ReleaseKeepsShared(c, s, t, i);
    ReleaseKeepsThreads(c, s, t, i);
  }

  lemma ReleaseKeepsShared(c: Client, s: Sys, t: nat, i: nat)
    requires SharedOk(c, s)
    requires Enabled(c, s, Release(t, i))
    ensures SharedOk(c, GiveUp(s, t, s.owners[i].op, i))
  {
    var s' := GiveUp(s, t, s.owners[i].op, i);
    assert s.threads - {t} == s.threads;
    assert GaveUp(s, s', i);
    GiveUpKeepsWord(c, s, t, s.owners[i].op, i);
    RemoveOwnerKeepsAccount(c, s, s', i);
    ReleaseKeepsEntries(c, s, s', t, i);
    SameQueue(c, s, s');
  }

  lemma ReleaseKeepsThreads(c: Client, s: Sys, t: nat, i: nat)
    requires Inv(c, s)
    requires Enabled(c, s, Release(t, i))
    ensures ThreadsOk(c, GiveUp(s, t, s.owners[i].op, i))
  {
    var op := s.owners[i].op;
    var s' := GiveUp(s, t, op, i);
    assert s.threads - {t} == s.threads;
    RemoveOwnerKeepsAccount(c, s, s', i);
    GiveUpLocal(c, s, t, op, i);
    ReleaseGuarantees(c, s, t, op, i);
    OthersKeepTheirKnowledge(c, s, s', t);
  }

  lemma ReleaseGuarantees(c: Client, s: Sys, t: nat, op: Opcode, i: nat)
    requires WordOk(c, s)
    requires op.CanRelease(s.data)
    requires s.holder != Some(t)
    ensures Guarantee(s, GiveUp(s, t, op, i), t)
  {
  }

  lemma GiveBackKeepsEntries(c: Client, s: Sys, s': Sys, t: nat, i: nat, target: Waiter)
    requires EntriesOk(c, s)
    requires target.id in s.entries
    requires t in s.threads && s.threads[t].GiveBack? && s.threads[t].target == target
    requires i < |s.owners| && s.owners[i] == Owner(target.id, target.op, false)
    requires GaveUp(s, s', i)
    requires s.entries[target.id].canceller.Some?
    requires s'.entries == s.entries[target.id := s.entries[target.id].(status := GivenBack)]
    requires forall u :: u in s.threads && u != t ==> u in s'.threads && s'.threads[u] == s.threads[u]
    ensures EntriesOk(c, s')
  {
    forall id | id in s'.entries
      ensures EntryOk(c, s', id)
    {
      assert EntryOk(c, s, id);
      if id != target.id && s.entries[id].status.Granted() {
        RemoveAtKeepsOthers(s.owners, i, Owner(id, s.entries[id].op, false));
      }
    }
  }

  /** Marks one entry that is not queued as finished for good. */
  lemma RetireKeepsQueue(c: Client, s: Sys, s': Sys, id: nat, status: Status)
    requires QueueOk(c, s)
    requires id in s.entries && s.entries[id].status != Queued && status != Queued
    requires s'.queue == s.queue
    requires s'.entries == s.entries[id := s.entries[id].(status := status)]
    ensures QueueOk(c, s')
  {
    forall i | 0 <= i < |s'.queue|
      ensures WaiterOk(c, s', s'.queue[i])
    {
      assert WaiterOk(c, s, s.queue[i]);
    }
  }

  lemma GiveBackKeepsHistory(s: Sys, s': Sys, target: Waiter)
    requires HistoryOk(s)
    requires target.id in s.entries && s.entries[target.id].status.Ready?
    requires s'.entries == s.entries[target.id := s.entries[target.id].(status := GivenBack)]
    requires s'.queue == s.queue && s'.granted == s.granted && s'.delivered == s.delivered
    ensures HistoryOk(s')
  {
  }

  lemma GiveBackGuarantees(c: Client, s: Sys, t: nat, target: Waiter, i: nat)
    requires WordOk(c, s)
    requires target.op.CanRelease(s.data)
    requires target.id in s.entries && s.entries[target.id].status.Ready? && s.entries[target.id].canceller == Some(t)
    requires s.holder != Some(t)
    ensures Guarantee(s, GiveUp(SetStatus(s, target.id, GivenBack), t, target.op, i), t)
  {
    var s' := GiveUp(SetStatus(s, target.id, GivenBack), t, target.op, i);
    forall u | u in s.threads && u != t
      ensures Rely(s, s', u)
    {
    }
  }

  lemma GiveBackReleases(c: Client, s: Sys, t: nat, target: Waiter, i: nat)
    requires Inv(c, s)
    requires t in s.threads && s.threads[t].GiveBack? && s.threads[t].target == target
    requires i < |s.owners| && s.owners[i] == Owner(target.id, target.op, false)
    requires target.id in s.entries && target.op.CanRelease(s.data)
    ensures Inv(c, GiveUp(SetStatus(s, target.id, GivenBack), t, target.op, i))
  {
    var s1 := SetStatus(s, target.id, GivenBack);
    var s' := GiveUp(s1, t, target.op, i);
    assert LocalOk(c, s, t, s.threads[t]);
    assert GaveUp(s, s', i);
    GiveUpKeepsWord(c, s1, t, target.op, i);
    RemoveOwnerKeepsAccount(c, s, s', i);
    GiveBackKeepsEntries(c, s, s', t, i, target);
    RetireKeepsQueue(c, s, s', target.id, GivenBack);
    GiveBackKeepsHistory(s, s', target);
    GiveUpLocal(c, s1, t, target.op, i);
    GiveBackGuarantees(c, s, t, target, i);
    OthersKeepTheirKnowledge(c, s, s', t);
  }

  lemma GiveBackKeepsInv(c: Client, s: Sys, t: nat, retry: bool)
    requires Inv(c, s)
    requires Enabled(c, s, GiveBackStep(t, retry))
    ensures Inv(c, DoGiveBack(c, s, t, retry))
  {
    assert LocalOk(c, s, t, s.threads[t]);
    var GiveBack(target, seen) := s.threads[t];
    assert EntryOk(c, s, target.id);
    if retry {
      GrantedCanRelease(c, s, target.id);
      MoveKeepsInv(c, s, t, GiveBack(target, s.data));
    } else {
      GiveBackReleases(c, s, t, target, IndexOf(s.owners, Owner(target.id, target.op, false)));
    }
  }

  // ---------- Results ----------

  lemma DeliverKeepsEntries(c: Client, s: Sys, t: nat)
    requires EntriesOk(c, s)
    requires Enabled(c, s, DeliverStep(t))
    requires LocalOk(c, s, t, s.threads[t])
    ensures EntriesOk(c, DoDeliver(c, s, t))
  {
    var s' := DoDeliver(c, s, t);
    forall id | id in s'.entries
      ensures EntryOk(c, s', id)
    {
      assert EntryOk(c, s, id);
    }
  }

  lemma DeliverKeepsHistory(c: Client, s: Sys, t: nat)
    requires HistoryOk(s)
    requires Enabled(c, s, DeliverStep(t))
    requires LocalOk(c, s, t, s.threads[t])
    ensures HistoryOk(DoDeliver(c, s, t))
  {
    DistinctAppend(s.delivered, s.threads[t].pending[0]);
  }

  lemma DeliverLocal(c: Client, s: Sys, t: nat)
    requires Enabled(c, s, DeliverStep(t))
    requires LocalOk(c, s, t, s.threads[t])
    ensures LocalOk(c, DoDeliver(c, s, t), t, DoDeliver(c, s, t).threads[t])
    ensures Guarantee(s, DoDeliver(c, s, t), t)
  {
    var s' := DoDeliver(c, s, t);
    var l := s.threads[t];
    assert AfterOk(c, s', t, l.after);
    forall id | id in l.pending[1..]
      ensures id in s'.entries && s'.entries[id].status == Resolved(t, l.code)
    {
      var i :| 1 <= i < |l.pending| && l.pending[i] == id;
      assert l.pending[0] != l.pending[i];
    }
  }

  lemma DeliverKeepsInv(c: Client, s: Sys, t: nat)
    requires Inv(c, s)
    requires Enabled(c, s, DeliverStep(t))
    ensures Inv(c, DoDeliver(c, s, t))
  {
    var s' := DoDeliver(c, s, t);
    var l := s.threads[t];
    assert LocalOk(c, s, t, l);
    RetireKeepsQueue(c, s, s', l.pending[0], Ready(l.code));
    DeliverKeepsEntries(c, s, t);
    DeliverKeepsHistory(c, s, t);
    DeliverLocal(c, s, t);
    OthersKeepTheirKnowledge(c, s, s', t);
  }

  lemma ConsumeKeepsAccount(c: Client, s: Sys, id: nat)
    requires AccountOk(c, s)
    requires Enabled(c, s, Consume(id))
    ensures AccountOk(c, DoConsume(c, s, id))
  {
    var s' := DoConsume(c, s, id);
    var i := IndexOf(s.owners, Owner(id, s.entries[id].op, false));
    if s'.owners != s.owners {
      SumOwnedSplit(s.owners, i);
      SumOwnedSplit(s'.owners, i);
      assert s'.owners[..i] == s.owners[..i] && s'.owners[i + 1..] == s.owners[i + 1..];
      if HasExclusive(s.owners) {
        var j :| 0 <= j < |s.owners| && s.owners[j].op == Exclusive;
        assert s'.owners[j].op == Exclusive;
      }
    }
  }

  lemma ConsumeKeepsEntries(c: Client, s: Sys, id: nat)
    requires EntriesOk(c, s)
    requires Enabled(c, s, Consume(id))
    ensures EntriesOk(c, DoConsume(c, s, id))
  {
    var s' := DoConsume(c, s, id);
    forall id' | id' in s'.entries
      ensures EntryOk(c, s', id')
    {
      assert EntryOk(c, s, id');
      if id' != id && s.entries[id'].status.Granted() {
        var j :| 0 <= j < |s.owners| && s.owners[j] == Owner(id', s.entries[id'].op, false);
        assert s'.owners[j] == s.owners[j];
      }
    }
  }

  lemma ConsumeKeepsInv(c: Client, s: Sys, id: nat)
    requires Inv(c, s)
    requires Enabled(c, s, Consume(id))
    ensures Inv(c, DoConsume(c, s, id))
  {
    var s' := DoConsume(c, s, id);
    ConsumeKeepsAccount(c, s, id);
    ConsumeKeepsEntries(c, s, id);
    RetireKeepsQueue(c, s, s', id, Taken(s.entries[id].status.code));
    ConsumeKeepsHistory(s, s', id, s.entries[id].status.code);
    ConsumeKeepsThreads(c, s, id);
  }

  lemma ConsumeKeepsThreads(c: Client, s: Sys, id: nat)
    requires ThreadsOk(c, s)
    requires Enabled(c, s, Consume(id))
    ensures ThreadsOk(c, DoConsume(c, s, id))
  {
    ArrivalKeepsThreads(c, s, DoConsume(c, s, id));
  }

  lemma ConsumeKeepsHistory(s: Sys, s': Sys, id: nat, code: Code)
    requires HistoryOk(s)
    requires id in s.entries && s.entries[id].status == Ready(code)
    requires s'.entries == s.entries[id := s.entries[id].(status := Taken(code))]
    requires s'.queue == s.queue && s'.granted == s.granted && s'.delivered == s.delivered
    ensures HistoryOk(s')
  {
  }

  // ---------- Cancelling ----------

  lemma StartCancelKeepsEntries(c: Client, s: Sys, t: nat, id: nat)
    requires EntriesOk(c, s)
    requires Enabled(c, s, StartCancel(t, id))
    ensures EntriesOk(c, Do(c, s, StartCancel(t, id)))
  {
    var s' := Do(c, s, StartCancel(t, id));
    forall id' | id' in s'.entries
      ensures EntryOk(c, s', id')
    {
      assert EntryOk(c, s, id');
    }
  }

  lemma StartCancelKeepsThreads(c: Client, s: Sys, t: nat, id: nat)
    requires WordOk(c, s) && ThreadsOk(c, s)
    requires Enabled(c, s, StartCancel(t, id))
    ensures ThreadsOk(c, Do(c, s, StartCancel(t, id)))
  {
    var s' := Do(c, s, StartCancel(t, id));
    assert LocalOk(c, s', t, s'.threads[t]);
    OthersKeepTheirKnowledge(c, s, s', t);
  }

  lemma StartCancelKeepsInv(c: Client, s: Sys, t: nat, id: nat)
    requires Inv(c, s)
    requires Enabled(c, s, StartCancel(t, id))
    ensures Inv(c, Do(c, s, StartCancel(t, id)))
  {
    var s' := Do(c, s, StartCancel(t, id));
    StartCancelKeepsEntries(c, s, t, id);
    MarkKeepsQueue(c, s, s', id, Some(t));
    StartCancelKeepsThreads(c, s, t, id);
  }

  lemma MarkKeepsQueue(c: Client, s: Sys, s': Sys, id: nat, canceller: Option<nat>)
    requires QueueOk(c, s) && HistoryOk(s)
    requires id in s.entries
    requires s'.queue == s.queue && s'.granted == s.granted && s'.delivered == s.delivered
    requires s'.entries == s.entries[id := s.entries[id].(canceller := canceller)]
    ensures QueueOk(c, s') && HistoryOk(s')
  {
    forall i | 0 <= i < |s'.queue|
      ensures WaiterOk(c, s', s'.queue[i])
    {
      assert WaiterOk(c, s, s.queue[i]);
    }
  }

  lemma SpinKeepsInv(c: Client, s: Sys, t: nat)
    requires Inv(c, s)
    requires Enabled(c, s, SpinStep(t))
    ensures Inv(c, DoSpin(c, s, t))
  {
    assert LocalOk(c, s, t, s.threads[t]);
    var target := s.threads[t].target;
    if s.entries[target.id].status != Queued {
      GrantedCanRelease(c, s, target.id);
    }
    if !s.locked {
      if s.queue == [] {
        MoveKeepsInv(c, s, t, Await(target, s.data));
      } else {
        SpinLocks(c, s, t, target);
      }
    }
  }

  lemma SpinLocksThreads(c: Client, s: Sys, t: nat, target: Waiter)
    requires WordOk(c, s) && AccountOk(c, s) && QueueOk(c, s) && ThreadsOk(c, s)
    requires t in s.threads && s.threads[t] == Spin(target)
    requires !s.locked && s.queue != []
    requires CancelOk(c, s, t, target)
    requires s.entries[target.id].status != Queued ==> target.op.CanRelease(s.data)
    ensures ThreadsOk(c, Go(LockBy(s, t), t, Find(target, s.data, FirstRound(s))))
  {
    var s' := Go(LockBy(s, t), t, Find(target, s.data, FirstRound(s)));
    assert s.queue[..|s.queue|] == s.queue && s.queue[..0] == [];
    assert LocalOk(c, s', t, s'.threads[t]);
    OthersKeepTheirKnowledge(c, s, s', t);
  }

  lemma SpinLocks(c: Client, s: Sys, t: nat, target: Waiter)
    requires Inv(c, s)
    requires t in s.threads && s.threads[t] == Spin(target)
    requires !s.locked && s.queue != []
    requires CancelOk(c, s, t, target)
    requires s.entries[target.id].status != Queued ==> target.op.CanRelease(s.data)
    ensures Inv(c, Go(LockBy(s, t), t, Find(target, s.data, FirstRound(s))))
  {
    var s' := Go(LockBy(s, t), t, Find(target, s.data, FirstRound(s)));
    SameQueue(c, s, s');
    SameEntries(c, s, s', t);
    SpinLocksThreads(c, s, t, target);
  }

  lemma SameEntries(c: Client, s: Sys, s': Sys, t: nat)
    requires EntriesOk(c, s)
    requires s'.entries == s.entries && s'.owners == s.owners && s'.nextId == s.nextId
    requires t in s.threads && t in s'.threads && s'.threads == s.threads[t := s'.threads[t]]
    requires !s.threads[t].Deliver?
    requires TargetOf(s'.threads[t]) == TargetOf(s.threads[t])
    ensures EntriesOk(c, s')
  {
    forall id | id in s'.entries
      ensures EntryOk(c, s', id)
    {
      assert EntryOk(c, s, id);
    }
  }

  /** The entry at position `i` is unlinked. */
  ghost predicate UnlinkedAt(s: Sys, s': Sys, i: nat)
    requires i < |s.queue|
  {
    && s.queue[i].id in s.entries
    && s'.queue == RemoveAt(s.queue, i)
    && s'.entries == s.entries[s.queue[i].id := s.entries[s.queue[i].id].(status := Unlinked)]
    && s'.data == s.data && s'.owners == s.owners && s'.nextId == s.nextId
    && s'.granted == s.granted && s'.delivered == s.delivered
    && s'.clock == s.clock && s'.poisoned == s.poisoned
  }

  lemma UnlinkKeepsQueue(c: Client, s: Sys, s': Sys, i: nat)
    requires QueueOk(c, s)
    requires i < |s.queue| && UnlinkedAt(s, s', i)
    ensures QueueOk(c, s')
  {
    assert WaiterOk(c, s, s.queue[i]);
    forall j | 0 <= j < |s'.queue|
      ensures WaiterOk(c, s', s'.queue[j])
    {
      assert WaiterOk(c, s, s.queue[if j < i then j else j + 1]);
    }
    forall id | id in s'.entries && s'.entries[id].status == Queued
      ensures Waiter(id, s'.entries[id].op) in s'.queue
    {
      RemoveAtKeepsWaiter(s.queue, i, Waiter(id, s.entries[id].op));
    }
  }

  lemma RemoveAtKeepsWaiter(q: seq<Waiter>, i: nat, w: Waiter)
    requires i < |q|
    requires w in q && w.id != q[i].id
    ensures w in RemoveAt(q, i)
  {
    var j :| 0 <= j < |q| && q[j] == w;
    assert RemoveAt(q, i)[if j < i then j else j - 1] == w;
  }

  lemma UnlinkKeepsHistory(c: Client, s: Sys, s': Sys, i: nat)
    requires HistoryOk(s)
    requires i < |s.queue| && UnlinkedAt(s, s', i)
    requires s.entries[s.queue[i].id].status == Queued
    ensures HistoryOk(s')
  {
    forall j, k | 0 <= j < |s'.granted| && 0 <= k < |s'.queue|
      ensures s'.granted[j] < s'.queue[k].id
    {
      assert s'.queue[k] == s.queue[if k < i then k else k + 1];
    }
  }

  lemma UnlinkKeepsEntries(c: Client, s: Sys, s': Sys, t: nat, i: nat)
    requires EntriesOk(c, s)
    requires i < |s.queue| && UnlinkedAt(s, s', i)
    requires t in s.threads && s.threads[t].Find? && s.threads[t].target.id == s.queue[i].id
    requires s.entries[s.queue[i].id].canceller.Some?
    requires s.entries[s.queue[i].id].status == Queued
    requires forall u :: u in s.threads && u != t ==> u in s'.threads && s'.threads[u] == s.threads[u]
    ensures EntriesOk(c, s')
  {
    forall id | id in s'.entries
      ensures EntryOk(c, s', id)
    {
      assert EntryOk(c, s, id);
    }
  }

  lemma UnlinkGuarantees(c: Client, s: Sys, s': Sys, t: nat, i: nat)
    requires i < |s.queue| && UnlinkedAt(s, s', i)
    requires s.entries[s.queue[i].id].canceller == Some(t)
    requires s.entries[s.queue[i].id].status == Queued
    requires s.holder == Some(t) && (s'.holder == Some(t) || s'.holder.None?)
    requires forall u :: u in s'.threads && u != t ==> u in s.threads && s'.threads[u] == s.threads[u]
    ensures Guarantee(s, s', t)
  {
  }

  lemma UnlinkLocal(c: Client, s: Sys, s': Sys, t: nat, i: nat, r: Round)
    requires i < |s.queue| && UnlinkedAt(s, s', i)
    requires RoundOk(c, s, r) && r.k == 0 && i < r.len && r.len > 1
    requires s'.holder == Some(t)
    ensures LocalOk(c, s', t, Scan(r.(len := r.len - 1), Return))
  {
    assert s'.queue[..0] == [];
  }

  lemma UnlinkKeepsInv(c: Client, s: Sys, t: nat, i: nat, target: Waiter, r: Round)
    requires Inv(c, s)
    requires t in s.threads && s.threads[t].Find? && s.threads[t].target == target && s.threads[t].r == r
    requires r.len > 1 && i < r.len <= |s.queue| && s.queue[i] == target
    requires target.id in s.entries
    ensures Inv(c, Go(SetStatus(s, target.id, Unlinked).(queue := RemoveAt(s.queue, i)), t,
                      Scan(r.(len := r.len - 1), Return)))
  {
    var s' := Go(SetStatus(s, target.id, Unlinked).(queue := RemoveAt(s.queue, i)), t,
                 Scan(r.(len := r.len - 1), Return));
    assert LocalOk(c, s, t, s.threads[t]);
    assert WaiterOk(c, s, s.queue[i]);
    assert UnlinkedAt(s, s', i);
    UnlinkKeepsQueue(c, s, s', i);
    UnlinkKeepsHistory(c, s, s', i);
    UnlinkKeepsEntries(c, s, s', t, i);
    UnlinkGuarantees(c, s, s', t, i);
    UnlinkLocal(c, s, s', t, i, r);
    OthersKeepTheirKnowledge(c, s, s', t);
  }

  lemma UnlinkLastKeepsInv(c: Client, s: Sys, t: nat, target: Waiter)
    requires Inv(c, s)
    requires t in s.threads && s.threads[t].Find? && s.threads[t].target == target
    requires |s.queue| == 1 && s.queue[0] == target
    requires target.id in s.entries
    ensures Inv(c, Finish(Unlock(SetStatus(s, target.id, Unlinked).(queue := RemoveAt(s.queue, 0))), t))
  {
    var s' := Finish(Unlock(SetStatus(s, target.id, Unlinked).(queue := RemoveAt(s.queue, 0))), t);
    assert LocalOk(c, s, t, s.threads[t]);
    assert WaiterOk(c, s, s.queue[0]);
    assert UnlinkedAt(s, s', 0);
    UnlinkKeepsQueue(c, s, s', 0);
    UnlinkKeepsHistory(c, s, s', 0);
    UnlinkKeepsEntries(c, s, s', t, 0);
    UnlinkGuarantees(c, s, s', t, 0);
    OthersKeepTheirKnowledge(c, s, s', t);
  }

  lemma FindKeepsInv(c: Client, s: Sys, t: nat)
    requires Inv(c, s)
    requires Enabled(c, s, FindStep(t))
    ensures Inv(c, DoFind(c, s, t))
  {
    assert LocalOk(c, s, t, s.threads[t]);
    var Find(target, seen, r) := s.threads[t];
    var i := Position(s, target, r.len);
    if i >= r.len {
      MoveKeepsInv(c, s, t, Scan(r, ThenAwait(target, seen)));
    } else {
      FindUnlinks(c, s, t, target, seen, r, i);
    }
  }

  lemma FindUnlinks(c: Client, s: Sys, t: nat, target: Waiter, seen: nat, r: Round, i: nat)
    requires Inv(c, s)
    requires Enabled(c, s, FindStep(t)) && s.threads[t] == Find(target, seen, r)
    requires i == Position(s, target, r.len) < r.len <= |s.queue| && s.queue[i] == target
    ensures Inv(c, DoFind(c, s, t))
  {
    FindOutcome(c, s, t, target, seen, r, i);
    if i + 1 == r.len && !Unchanged(s, r) {
      FindRestarts(c, s, t, target, seen, r, i);
    } else if r.len > 1 {
      UnlinkKeepsInv(c, s, t, i, target, r);
    } else {
      UnlinkLastKeepsInv(c, s, t, target);
    }
  }

  lemma FindOutcome(c: Client, s: Sys, t: nat, target: Waiter, seen: nat, r: Round, i: nat)
    requires Enabled(c, s, FindStep(t)) && s.threads[t] == Find(target, seen, r)
    requires i == Position(s, target, r.len) < r.len <= |s.queue|
    ensures DoFind(c, s, t) ==
            if i + 1 == r.len && !Unchanged(s, r) then
              Go(s, t, Find(target, seen, FirstRound(s)))
            else if r.len > 1 then
              Go(SetStatus(s, target.id, Unlinked).(queue := RemoveAt(s.queue, i)), t,
                 Scan(r.(len := r.len - 1), Return))
            else
              Finish(Unlock(SetStatus(s, target.id, Unlinked).(queue := RemoveAt(s.queue, 0))), t)
  {
  }

  lemma FindRestarts(c: Client, s: Sys, t: nat, target: Waiter, seen: nat, r: Round, i: nat)
    requires Inv(c, s)
    requires t in s.threads && s.threads[t] == Find(target, seen, r)
    requires i < |s.queue| && s.queue[i] == target
    ensures Inv(c, Go(s, t, Find(target, seen, FirstRound(s))))
  {
    assert LocalOk(c, s, t, s.threads[t]);
    assert WaiterOk(c, s, s.queue[i]);
    assert s.queue[..|s.queue|] == s.queue && s.queue[..0] == [];
    MoveKeepsInv(c, s, t, Find(target, seen, FirstRound(s)));
  }

  // ---------- Regrouping permits ----------

  lemma UpdateOwnerSum(owners: seq<Owner>, i: nat, o: Owner)
    requires i < |owners|
    ensures SumOwned(owners[i := o]) == SumOwned(owners) - owners[i].op.Acquired() + o.op.Acquired()
  {
    SumOwnedSplit(owners, i);
    SumOwnedSplit(owners[i := o], i);
    assert owners[i := o][..i] == owners[..i] && owners[i := o][i + 1..] == owners[i + 1..];
  }

  /** Claimed owners are nobody's pending grant. */
  lemma RegroupKeepsEntries(c: Client, s: Sys, s': Sys)
    requires EntriesOk(c, s)
    requires s' == s.(owners := s'.owners)
    requires forall o :: o in s.owners && !o.claimed ==> o in s'.owners
    ensures EntriesOk(c, s')
  {
    forall id | id in s'.entries
      ensures EntryOk(c, s', id)
    {
      assert EntryOk(c, s, id);
    }
  }

  lemma RegroupKeepsInv(c: Client, s: Sys, s': Sys)
    requires Inv(c, s)
    requires s' == s.(owners := s'.owners)
    requires forall o :: o in s.owners && !o.claimed ==> o in s'.owners
    requires AccountOk(c, s')
    ensures Inv(c, s')
  {
    RegroupKeepsEntries(c, s, s');
    SameQueue(c, s, s');
    ArrivalKeepsThreads(c, s, s');
  }

  lemma SplitKeepsInv(c: Client, s: Sys, i: nat, n: nat)
    requires Inv(c, s)
    requires Enabled(c, s, SplitPermits(i, n))
    ensures Inv(c, Do(c, s, SplitPermits(i, n)))
  {
    var s' := Do(c, s, SplitPermits(i, n));
    var a := Owner(s.owners[i].id, Semaphore(n), true);
    var b := Owner(s.owners[i].id, Semaphore(s.owners[i].op.permits - n), true);
    UpdateOwnerSum(s.owners, i, a);
    SumOwnedAppend(s.owners[i := a], [b]);
    assert c.Admits(s.owners[i].op);
    assert AccountOk(c, s');
    forall o | o in s.owners && !o.claimed
      ensures o in s'.owners
    {
      var j :| 0 <= j < |s.owners| && s.owners[j] == o;
      assert s'.owners[j] == o;
    }
    RegroupKeepsInv(c, s, s');
  }

  lemma JoinKeepsSum(s: Sys, i: nat, j: nat, o: Owner)
    requires i < j < |s.owners|
    requires o.op.Acquired() == s.owners[i].op.Acquired() + s.owners[j].op.Acquired()
    ensures SumOwned(RemoveAt(s.owners[i := o], j)) == SumOwned(s.owners)
  {
    UpdateOwnerSum(s.owners, i, o);
    SumOwnedSplit(s.owners[i := o], j);
  }

  lemma JoinKeepsAccount(c: Client, s: Sys, i: nat, j: nat)
    requires AccountOk(c, s)
    requires Enabled(c, s, JoinPermits(i, j))
    ensures AccountOk(c, Do(c, s, JoinPermits(i, j)))
  {
    var a, b := s.owners[i], s.owners[j];
    var o := Owner(a.id, Semaphore(a.op.permits + b.op.permits), true);
    TwoOwnersWithinSum(s.owners, i, j);
    JoinKeepsSum(s, i, j, o);
    assert c.Admits(a.op) && c == SemaphoreClient;
    assert Do(c, s, JoinPermits(i, j)).owners == RemoveAt(s.owners[i := o], j);
  }

  lemma JoinKeepsInv(c: Client, s: Sys, i: nat, j: nat)
    requires Inv(c, s)
    requires Enabled(c, s, JoinPermits(i, j))
    ensures Inv(c, Do(c, s, JoinPermits(i, j)))
  {
    var s' := Do(c, s, JoinPermits(i, j));
    JoinKeepsAccount(c, s, i, j);
    var o' := Owner(s.owners[i].id, Semaphore(s.owners[i].op.permits + s.owners[j].op.permits), true);
    var owners := s.owners[i := o'];
    forall o | o in s.owners && !o.claimed
      ensures o in s'.owners
    {
      var k :| 0 <= k < |s.owners| && s.owners[k] == o;
      assert owners[k] == o;
      RemoveAtKeepsOthers(owners, j, o);
    }
    RegroupKeepsInv(c, s, s');
  }

  // ---------- Poison ----------

  lemma PoisonKeepsAccount(c: Client, s: Sys, t: nat, i: nat)
    requires AccountOk(c, s)
    requires Enabled(c, s, Poison(t, i))
    ensures AccountOk(c, Do(c, s, Poison(t, i)))
  {
    var s' := Do(c, s, Poison(t, i));
    RemoveOwnerKeepsAccount(c, s, s', i);
  }

  lemma AllIds(c: Client, s: Sys, id: nat)
    requires QueueOk(c, s)
    requires id in s.entries
    ensures id in Ids(s.queue) <==> s.entries[id].status == Queued
    ensures id in Ids(s.queue) <==> id in IdsNewestFirst(s.queue)
  {
    assert s.queue[..|s.queue|] == s.queue;
    PrefixIds(c, s, |s.queue|);
    PendingIds(c, s, |s.queue|);
    if s.entries[id].status == Queued {
      var i :| 0 <= i < |s.queue| && s.queue[i] == Waiter(id, s.entries[id].op);
      SamePosition(s.queue, i);
    }
    if id in Ids(s.queue) {
      var i :| 0 <= i < |s.queue| && Ids(s.queue)[i] == id;
      SamePosition(s.queue, i);
    }
  }

  lemma PoisonKeepsEntries(c: Client, s: Sys, t: nat, i: nat)
    requires EntriesOk(c, s) && QueueOk(c, s) && HistoryOk(s)
    requires Enabled(c, s, Poison(t, i))
    ensures EntriesOk(c, Do(c, s, Poison(t, i)))
  {
    var s' := Do(c, s, Poison(t, i));
    forall id | id in s'.entries
      ensures EntryOk(c, s', id)
    {
      assert EntryOk(c, s, id);
      AllIds(c, s, id);
      if s.entries[id].status.Granted() {
        RemoveAtKeepsOthers(s.owners, i, Owner(id, s.entries[id].op, false));
      }
    }
  }

  lemma PoisonKeepsHistory(c: Client, s: Sys, t: nat, i: nat)
    requires QueueOk(c, s) && HistoryOk(s) && Enabled(c, s, Poison(t, i))
    ensures QueueOk(c, Do(c, s, Poison(t, i))) && HistoryOk(Do(c, s, Poison(t, i)))
  {
    var s' := Do(c, s, Poison(t, i));
    forall id | id in s'.entries
      ensures s'.entries[id].status.Delivered() == s.entries[id].status.Delivered()
      ensures s'.entries[id].status != Queued
    {
      AllIds(c, s, id);
    }
  }

  lemma PoisonPending(c: Client, s: Sys, t: nat, i: nat)
    requires QueueOk(c, s) && Enabled(c, s, Poison(t, i))
    ensures PendingOk(Do(c, s, Poison(t, i)), t, IdsNewestFirst(s.queue), Poisoned)
  {
    assert s.queue[..|s.queue|] == s.queue;
    PrefixIds(c, s, |s.queue|);
    PendingIds(c, s, |s.queue|);
  }

  lemma PoisonGuarantees(c: Client, s: Sys, t: nat, i: nat)
    requires WordOk(c, s) && EntriesOk(c, s) && QueueOk(c, s) && Enabled(c, s, Poison(t, i))
    ensures Guarantee(s, Do(c, s, Poison(t, i)), t)
  {
    forall id | id in s.entries
      ensures id in Ids(s.queue) <==> s.entries[id].status == Queued
      ensures s.entries[id].canceller.None?
    {
      AllIds(c, s, id);
      assert EntryOk(c, s, id);
    }
  }

  lemma PoisonKeepsThreads(c: Client, s: Sys, t: nat, i: nat)
    requires WordOk(c, s) && EntriesOk(c, s) && QueueOk(c, s) && ThreadsOk(c, s)
    requires Enabled(c, s, Poison(t, i))
    ensures ThreadsOk(c, Do(c, s, Poison(t, i)))
  {
    var s' := Do(c, s, Poison(t, i));
    PoisonPending(c, s, t, i);
    PoisonGuarantees(c, s, t, i);
    assert LocalOk(c, s', t, s'.threads[t]);
    OthersKeepTheirKnowledge(c, s, s', t);
  }

  lemma PoisonKeepsInv(c: Client, s: Sys, t: nat, i: nat)
    requires Inv(c, s)
    requires Enabled(c, s, Poison(t, i))
    ensures Inv(c, Do(c, s, Poison(t, i)))
  {
    PoisonKeepsAccount(c, s, t, i);
    PoisonKeepsEntries(c, s, t, i);
    PoisonKeepsHistory(c, s, t, i);
    PoisonKeepsThreads(c, s, t, i);
  }

  lemma ClearPoisonKeepsInv(c: Client, s: Sys)
    requires Inv(c, s)
    requires Enabled(c, s, ClearPoison)
    ensures Inv(c, Do(c, s, ClearPoison))
  {
    var s' := Do(c, s, ClearPoison);
    SameQueue(c, s, s');
    forall id | id in s'.entries
      ensures EntryOk(c, s', id)
    {
      assert EntryOk(c, s, id);
    }
    ArrivalKeepsThreads(c, s, s');
  }

  // ---------- All steps ----------

  /** Steps with which a call starts, or that owners take. */
  predicate Outer(l: Label) {
    || l.Acquire? || l.Register? || l.Push? || l.Release? || l.Consume? || l.StartCancel?
    || l.SplitPermits? || l.JoinPermits? || l.Poison? || l.ClearPoison?
  }

  lemma OuterStepKeepsInv(c: Client, s: Sys, l: Label)
    requires Inv(c, s)
    requires Outer(l) && Enabled(c, s, l)
    ensures Inv(c, Do(c, s, l))
  {
    match l
    case Acquire(op) => AcquireKeepsInv(c, s, op);
    case Register(op) => RegisterKeepsInv(c, s, op);
    case Push(op) => PushKeepsInv(c, s, op);
    case Release(t, i) => ReleaseKeepsInv(c, s, t, i);
    case Consume(id) => ConsumeKeepsInv(c, s, id);
    case StartCancel(t, id) => StartCancelKeepsInv(c, s, t, id);
    case SplitPermits(i, n) => SplitKeepsInv(c, s, i, n);
    case JoinPermits(i, j) => JoinKeepsInv(c, s, i, j);
    case Poison(t, i) => PoisonKeepsInv(c, s, t, i);
    case ClearPoison => ClearPoisonKeepsInv(c, s);
  }

  lemma InnerStepKeepsInv(c: Client, s: Sys, l: Label)
    requires Inv(c, s)
    requires !Outer(l) && Enabled(c, s, l)
    ensures Inv(c, Do(c, s, l))
  {
    match l
    case ScanStep(t) => ScanKeepsInv(c, s, t);
    case KeepStep(t) => KeepKeepsInv(c, s, t);
    case TransferStep(t) => TransferKeepsInv(c, s, t);
    case DeliverStep(t) => DeliverKeepsInv(c, s, t);
    case Resume(t) => ResumeKeepsInv(c, s, t);
    case SpinStep(t) => SpinKeepsInv(c, s, t);
    case FindStep(t) => FindKeepsInv(c, s, t);
    case AwaitStep(t) => AwaitKeepsInv(c, s, t);
    case GiveBackStep(t, retry) => GiveBackKeepsInv(c, s, t, retry);
  }

  /** Every step of every thread keeps the invariant. */
  lemma StepKeepsInv(c: Client, s: Sys, l: Label)
    requires Inv(c, s)
    requires Enabled(c, s, l)
    ensures Inv(c, Do(c, s, l))
  {
    if Outer(l) {
      OuterStepKeepsInv(c, s, l);
    } else {
      InnerStepKeepsInv(c, s, l);
    }
  }

  lemma InitHoldsInv(c: Client, withheld: nat)
    requires ValidInit(c, withheld)
    ensures Inv(c, Init(c, withheld))
  {
  }

  lemma {:induction false} RunKeepsInv(c: Client, s: Sys, run: seq<Label>)
    requires Inv(c, s)
    requires Legal(c, s, run)
    ensures Inv(c, Final(c, s, run))
    decreases |run|
  {
    if run != [] {
      StepKeepsInv(c, s, run[0]);
      RunKeepsInv(c, Do(c, s, run[0]), run[1..]);
    }
  }
}
