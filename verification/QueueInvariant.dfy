/**
 The invariant of the wait queue protocol, proved by rely and guarantee: what each thread knows
 about the shared state while it is inside a call survives every step of every other thread.
 */
module QueueInvariant {
  import opened Opcodes
  import opened FairQueue
  import opened QueueMachine

  // ---------- The shared state ----------

  ghost predicate WordOk(c: Client, s: Sys) {
    && s.locked == (s.holder.Some? || s.poisoned)
    && (s.poisoned ==> c == LockClient(true) && s.holder.None? && s.queue == [] && s.data == 0)
    && (s.holder.Some? ==> s.queue != [] && s.holder.value in s.threads && s.threads[s.holder.value].HoldsLock())
    && (!s.locked && s.queue != [] ==> !Fits(c.Max(), s.data, s.queue[0].op))
  }

  ghost predicate AccountOk(c: Client, s: Sys) {
    && s.data == SumOwned(s.owners)
    && s.data <= DATA_MASK
    && (forall i :: 0 <= i < |s.owners| ==> c.Admits(s.owners[i].op))
    && (c.LockClient? && s.data == DATA_MASK ==> HasExclusive(s.owners))
  }

  ghost predicate HasExclusive(owners: seq<Owner>) {
    exists i :: 0 <= i < |owners| && owners[i].op == Exclusive
  }

  ghost predicate QueueOk(c: Client, s: Sys) {
    && (forall i :: 0 <= i < |s.queue| ==> WaiterOk(c, s, s.queue[i]))
    && (forall i, j :: 0 <= i < j < |s.queue| ==> s.queue[i].id < s.queue[j].id)
    && (forall id :: id in s.entries && s.entries[id].status == Queued ==> Waiter(id, s.entries[id].op) in s.queue)
  }

  ghost predicate WaiterOk(c: Client, s: Sys, w: Waiter) {
    && w.id in s.entries
    && s.entries[w.id].status == Queued
    && s.entries[w.id].op == w.op
    && c.Admits(w.op)
  }

  /** The entry that a cancelling thread is working on. */
  function TargetOf(l: Local): Option<nat> {
    match l
    case Spin(target) => Some(target.id)
    case Find(target, _, _) => Some(target.id)
    case Await(target, _) => Some(target.id)
    case GiveBack(target, _) => Some(target.id)
    case _ => if l.after.ThenAwait? then Some(l.after.target.id) else None
  }

  ghost predicate EntryOk(c: Client, s: Sys, id: nat)
    requires id in s.entries
  {
    var e := s.entries[id];
    && id < s.nextId
    && (e.status.Resolved? ==>
          && e.status.setter in s.threads
          && s.threads[e.status.setter].Deliver?
          && id in s.threads[e.status.setter].pending
          && s.threads[e.status.setter].code == e.status.code)
    && (e.status.Granted() ==> Owner(id, e.op, false) in s.owners)
    && ((e.status.Resolved? || e.status.Ready? || e.status.Taken?) && e.status.code == Poisoned ==> c == LockClient(true))
    && (e.canceller.None? ==> !e.status.Unlinked? && !e.status.GivenBack?)
    && (e.canceller.Some? ==>
          && c.Cancellable()
          && !e.status.Taken?
          && (e.status.Live() ==>
                e.canceller.value in s.threads && TargetOf(s.threads[e.canceller.value]) == Some(id)))
  }

  ghost predicate EntriesOk(c: Client, s: Sys) {
    forall id :: id in s.entries ==> EntryOk(c, s, id)
  }

  ghost predicate Increasing(ids: seq<nat>) {
    forall i, j :: 0 <= i < j < |ids| ==> ids[i] < ids[j]
  }

  ghost predicate HistoryOk(s: Sys) {
    && Distinct(s.delivered)
    && (forall id :: id in s.delivered <==> id in s.entries && s.entries[id].status.Delivered())
    && Increasing(s.granted)
    && (forall id :: id in s.granted ==> id in s.entries && !s.entries[id].status.Queued?)
    && (forall i, j :: 0 <= i < |s.granted| && 0 <= j < |s.queue| ==> s.granted[i] < s.queue[j].id)
  }

  // ---------- What a thread knows ----------

  ghost predicate RoundOk(c: Client, s: Sys, r: Round) {
    && r.k <= r.len <= |s.queue|
    && s.data <= r.data <= DATA_MASK
    && r.transferred == SumAcquired(s.queue[..r.k])
    && LegalGrants(c.Max(), r.data, s.queue, r.k)
    && r.clock <= s.clock
    && (r.clock == s.clock ==> Unchanged(s, r))
    && r.rounds >= 1
    && r.start + r.rounds - 1 <= r.clock
  }

  ghost predicate CancelOk(c: Client, s: Sys, t: nat, target: Waiter) {
    && target.id in s.entries
    && s.entries[target.id].op == target.op
    && s.entries[target.id].canceller == Some(t)
    && s.entries[target.id].status.Live()
  }

  ghost predicate GrantOk(c: Client, s: Sys, t: nat, target: Waiter, seen: nat) {
    && CancelOk(c, s, t, target)
    && s.entries[target.id].status.Granted()
    && target.op.CanRelease(seen)
  }

  ghost predicate AfterOk(c: Client, s: Sys, t: nat, after: After) {
    after.ThenAwait? ==> GrantOk(c, s, t, after.target, after.seen)
  }

  ghost predicate PendingOk(s: Sys, t: nat, pending: seq<nat>, code: Code) {
    && Distinct(pending)
    && forall id :: id in pending ==> id in s.entries && s.entries[id].status == Resolved(t, code)
  }

  ghost predicate LocalOk(c: Client, s: Sys, t: nat, l: Local) {
    && (l.HoldsLock() <==> s.holder == Some(t))
    && match l
       case Scan(r, after) => RoundOk(c, s, r) && r.k < r.len && AfterOk(c, s, t, after)
       case Keep(r, after) =>
         RoundOk(c, s, r) && r.k < r.len && AfterOk(c, s, t, after) && !FitsAfter(c.Max(), r.data, s.queue, r.k)
       case Transfer(r, after) =>
         && RoundOk(c, s, r) && r.k < r.len && AfterOk(c, s, t, after) && r.clock < s.clock
         && (r.k + 1 == r.len || !FitsAfter(c.Max(), r.data, s.queue, r.k))
       case Deliver(pending, code, next, after) =>
         && PendingOk(s, t, pending, code)
         && AfterOk(c, s, t, after)
         && (next.Some? ==> RoundOk(c, s, next.value) && next.value.k == 0 < next.value.len)
       case Spin(target) => CancelOk(c, s, t, target)
       case Find(target, seen, r) =>
         && CancelOk(c, s, t, target)
         && RoundOk(c, s, r) && r.k == 0 < r.len
         && (s.entries[target.id].status == Queued ==> target in s.queue[..r.len])
         && (s.entries[target.id].status != Queued ==> target.op.CanRelease(seen))
       case Await(target, seen) => GrantOk(c, s, t, target, seen)
       case GiveBack(target, seen) => GrantOk(c, s, t, target, seen) && s.entries[target.id].status.Ready?
  }

  ghost predicate ThreadsOk(c: Client, s: Sys) {
    forall t :: t in s.threads ==> LocalOk(c, s, t, s.threads[t])
  }

  ghost predicate Inv(c: Client, s: Sys) {
    && WordOk(c, s)
    && AccountOk(c, s)
    && QueueOk(c, s)
    && EntriesOk(c, s)
    && HistoryOk(s)
    && ThreadsOk(c, s)
  }

  // ---------- Rely ----------

  /** What thread `u` can rely on across a step of another thread. */
  ghost predicate Rely(s: Sys, s': Sys, u: nat) {
    && s.clock <= s'.clock
    && (s.holder == Some(u) <==> s'.holder == Some(u))
    && (s.holder == Some(u) ==>
          && s.queue <= s'.queue
          && s'.data <= s.data
          && (s'.clock == s.clock ==> s'.queue == s.queue && s'.data == s.data))
    && (forall id :: id in s.entries ==> EntryStable(s, s', u, id))
  }

  ghost predicate EntryStable(s: Sys, s': Sys, u: nat, id: nat)
    requires id in s.entries
  {
    && id in s'.entries
    && s'.entries[id].op == s.entries[id].op
    && (s.entries[id].status.Resolved? && s.entries[id].status.setter == u ==>
          s'.entries[id].status == s.entries[id].status)
    && (s.entries[id].canceller == Some(u) ==>
          && s'.entries[id].canceller == Some(u)
          && (s.entries[id].status.Live() ==> s'.entries[id].status.Live())
          && (s.entries[id].status.Granted() ==> s'.entries[id].status.Granted())
          && (s.entries[id].status.Ready? ==> s'.entries[id].status.Ready?)
          && (s.holder == Some(u) && s.entries[id].status == Queued ==> s'.entries[id].status == Queued))
  }

  lemma RoundIsStable(c: Client, s: Sys, s': Sys, u: nat, r: Round)
    requires RoundOk(c, s, r)
    requires Rely(s, s', u)
    requires s.holder == Some(u)
    ensures RoundOk(c, s', r)
    ensures r.k < r.len ==> FitsAfter(c.Max(), r.data, s.queue, r.k) == FitsAfter(c.Max(), r.data, s'.queue, r.k)
  {
    assert s.queue[..r.k] == s'.queue[..r.k];
    LegalGrantsOfPrefix(c.Max(), r.data, s.queue, s'.queue, r.k);
  }

  lemma AfterIsStable(c: Client, s: Sys, s': Sys, u: nat, after: After)
    requires AfterOk(c, s, u, after)
    requires Rely(s, s', u)
    ensures AfterOk(c, s', u, after)
  {
    if after.ThenAwait? {
      assert EntryStable(s, s', u, after.target.id);
    }
  }

  lemma LocalIsStable(c: Client, s: Sys, s': Sys, u: nat, l: Local)
    requires LocalOk(c, s, u, l)
    requires Rely(s, s', u)
    ensures LocalOk(c, s', u, l)
  {
    match l
    case Scan(r, after) => RoundIsStable(c, s, s', u, r); AfterIsStable(c, s, s', u, after);
    case Keep(r, after) => RoundIsStable(c, s, s', u, r); AfterIsStable(c, s, s', u, after);
    case Transfer(r, after) => RoundIsStable(c, s, s', u, r); AfterIsStable(c, s, s', u, after);
    case Deliver(pending, code, next, after) =>
      AfterIsStable(c, s, s', u, after);
      if next.Some? {
        RoundIsStable(c, s, s', u, next.value);
      }
      forall id | id in pending
        ensures id in s'.entries && s'.entries[id].status == Resolved(u, code)
      {
        assert EntryStable(s, s', u, id);
      }
    case Spin(target) => assert EntryStable(s, s', u, target.id);
    case Find(target, seen, r) =>
      RoundIsStable(c, s, s', u, r);
      assert EntryStable(s, s', u, target.id);
      assert s.queue[..r.len] == s'.queue[..r.len];
    case Await(target, seen) => assert EntryStable(s, s', u, target.id);
    case GiveBack(target, seen) => assert EntryStable(s, s', u, target.id);
  }

  /** The step of `t` leaves the other threads where they are and gives them what they rely on. */
  ghost predicate Guarantee(s: Sys, s': Sys, t: nat) {
    && (forall u :: u in s'.threads && u != t ==> u in s.threads && s'.threads[u] == s.threads[u])
    && (forall u :: u in s.threads && u != t ==> Rely(s, s', u))
  }

  lemma OthersKeepTheirKnowledge(c: Client, s: Sys, s': Sys, t: nat)
    requires ThreadsOk(c, s)
    requires Guarantee(s, s', t)
    requires t in s'.threads ==> LocalOk(c, s', t, s'.threads[t])
    ensures ThreadsOk(c, s')
  {
    forall u | u in s'.threads
      ensures LocalOk(c, s', u, s'.threads[u])
    {
      if u != t {
        LocalIsStable(c, s, s', u, s.threads[u]);
      }
    }
  }
}
