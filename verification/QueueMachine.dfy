/**
 The concurrent wait queue protocol as a transition system over any number of threads.

 A state holds the one shared word (data, LOCKED bit, queue behind the tail address) and, for
 every thread in the middle of a call, its local variables. One label is one atomic access to
 the word or to an entry, so every interleaving of the source's atomic accesses is a sequence of
 labels.
 */
module QueueMachine {
  import opened Opcodes
  import opened FairQueue

  /** The primitives built on the queue. A lock is either poisonable or has cancellable waiters. */
  datatype Client = LockClient(poisonable: bool) | SemaphoreClient
  {
    /** `max_shared_owners`. */
    function Max(): nat {
      match this
      case LockClient(_) => DATA_MASK - 1
      case SemaphoreClient => DATA_MASK
    }

    /** The operations the primitive enqueues. */
    predicate Admits(op: Opcode) {
      match this
      case LockClient(_) => op == Exclusive || op == Shared || op == Wait(DATA_MASK) || op == Wait(1)
      case SemaphoreClient => op.Semaphore? && op.permits <= DATA_MASK
    }

    predicate Cancellable() {
      this != LockClient(true)
    }
  }

  datatype Code = Acquired | Poisoned

  /** What has become of an entry that was pushed. */
  datatype Status =
    | Queued
    | Resolved(setter: nat, code: Code)  // ownership settled, thread `setter` owes the result
    | Ready(code: Code)              // result finalized, not yet seen by the owner
    | Taken(code: Code)              // result consumed by the owner
    | Unlinked                       // removed by the canceller before it was granted
    | GivenBack                      // granted, then released by the canceller
  {
    predicate Granted() {
      this == Ready(Acquired) || (Resolved? && code == Acquired)
    }

    predicate Live() {
      Queued? || Granted()
    }

    predicate Delivered() {
      Ready? || Taken? || GivenBack?
    }
  }

  datatype Entry = Entry(op: Opcode, status: Status, canceller: Option<nat>)

  /**
   One round of `process_wait_queue`: the snapshot of the word (`data`, queue length `len`), the
   number `k` of waiters that will inherit ownership, and the sum `transferred` they acquire.
   `clock` and `start` are the number of disturbances seen at the snapshot and at the first one.
   */
  datatype Round = Round(data: nat, len: nat, k: nat, transferred: nat, clock: nat, rounds: nat, start: nat)

  /** What the caller of `process_wait_queue` does next. */
  datatype After = Return | ThenAwait(target: Waiter, seen: nat)

  /** The local variables of a thread inside a call. */
  datatype Local =
    | Scan(r: Round, after: After)      // inspecting the waiter at position k
    | Keep(r: Round, after: After)      // it does not fit: about to `fetch_update`
    | Transfer(r: Round, after: After)  // the commit failed: about to `fetch_add`
    | Deliver(pending: seq<nat>, code: Code, next: Option<Round>, after: After)
    | Spin(target: Waiter)              // cancelling: waiting for LOCKED to clear
    | Find(target: Waiter, seen: nat, r: Round)  // cancelling: searching the locked queue
    | Await(target: Waiter, seen: nat)  // cancelling: waiting for the result to be finalized
    | GiveBack(target: Waiter, seen: nat)        // cancelling: in `release_loop`
  {
    predicate HoldsLock() {
      Scan? || Keep? || Transfer? || Find? || (Deliver? && next.Some?)
    }
  }

  datatype Sys = Sys(
    // The shared word.
    data: nat,
    locked: bool,
    queue: seq<Waiter>,  // oldest first
    // The entries and the threads.
    entries: map<nat, Entry>,
    threads: map<nat, Local>,
    nextId: nat,
    // History.
    owners: seq<Owner>,
    holder: Option<nat>,  // the thread that set LOCKED
    poisoned: bool,
    clock: nat,           // pushes and releases of a non-zero amount so far
    granted: seq<nat>,    // queued entries in the order in which they were granted
    delivered: seq<nat>)  // entries in the order in which their results were set

  datatype Label =
    | Acquire(op: Opcode)
    | Register(op: Opcode)
    | Push(op: Opcode)
    | Release(t: nat, i: nat)
    | ScanStep(t: nat)
    | KeepStep(t: nat)
    | TransferStep(t: nat)
    | DeliverStep(t: nat)
    | Resume(t: nat)
    | Consume(id: nat)
    | StartCancel(t: nat, id: nat)
    | SpinStep(t: nat)
    | FindStep(t: nat)
    | AwaitStep(t: nat)
    | GiveBackStep(t: nat, retry: bool)
    | SplitPermits(i: nat, n: nat)
    | JoinPermits(i: nat, j: nat)
    | Poison(t: nat, i: nat)
    | ClearPoison

  // ---------- Guards ----------

  /** The fast path: `try_lock_internal`, `try_share_internal` or `try_acquire_internal` succeeds. */
  predicate FastPath(c: Client, s: Sys, op: Opcode) {
    match op
    case Exclusive => s.data == 0 && !s.locked && s.queue == []
    case Shared => s.data < c.Max() && !s.locked && s.queue == []
    case Semaphore(n) => s.queue == [] && s.data + n <= c.Max()
    case _ => false
  }

  /** The words on which a client decides to push an entry. */
  predicate MayPush(c: Client, s: Sys, op: Opcode) {
    && c.Admits(op)
    && match op
       case Wait(n) => if n == DATA_MASK then s.data != 0 else s.data >= c.Max()
       case _ => !FastPath(c, s, op) && !(s.locked && s.queue == [])
  }

  /** Position of the waiter in the part of the queue that a snapshot reaches. */
  function Position(s: Sys, target: Waiter, len: nat): nat {
    if len <= |s.queue| then IndexOf(s.queue[..len], target) else len
  }

  predicate Unchanged(s: Sys, r: Round) {
    s.data == r.data && |s.queue| == r.len
  }

  predicate Enabled(c: Client, s: Sys, l: Label) {
    match l
    case Acquire(op) => c.Admits(op) && FastPath(c, s, op)
    case Register(op) => c.Admits(op) && FastPath(c, s, op)
    case Push(op) => MayPush(c, s, op)
    case Release(t, i) =>
      t !in s.threads && i < |s.owners| && s.owners[i].claimed && s.owners[i].op.CanRelease(s.data)
    case ScanStep(t) =>
      && t in s.threads && s.threads[t].Scan?
      && s.threads[t].r.k < s.threads[t].r.len <= |s.queue|
    case KeepStep(t) =>
      && t in s.threads && s.threads[t].Keep?
      && s.threads[t].r.k <= |s.queue|
    case TransferStep(t) =>
      && t in s.threads && s.threads[t].Transfer?
      && s.threads[t].r.k <= |s.queue|
    case DeliverStep(t) =>
      && t in s.threads && s.threads[t].Deliver?
      && s.threads[t].pending != [] && s.threads[t].pending[0] in s.entries
    case Resume(t) => t in s.threads && s.threads[t].Deliver? && s.threads[t].pending == []
    case Consume(id) => id in s.entries && s.entries[id].status.Ready? && s.entries[id].canceller.None?
    case StartCancel(t, id) =>
      && c.Cancellable() && t !in s.threads
      && id in s.entries && s.entries[id].status.Live() && s.entries[id].canceller.None?
    case SpinStep(t) => t in s.threads && s.threads[t].Spin?
    case FindStep(t) => t in s.threads && s.threads[t].Find? && s.threads[t].target.id in s.entries
    case AwaitStep(t) =>
      && t in s.threads && s.threads[t].Await?
      && s.threads[t].target.id in s.entries && s.entries[s.threads[t].target.id].status.Ready?
    case GiveBackStep(t, retry) =>
      && t in s.threads && s.threads[t].GiveBack?
      && s.threads[t].target.id in s.entries
      && (retry || !s.threads[t].target.op.CanRelease(s.threads[t].seen) || s.data == s.threads[t].seen)
    case SplitPermits(i, n) =>
      i < |s.owners| && s.owners[i].claimed && s.owners[i].op.Semaphore? && n <= s.owners[i].op.permits
    case JoinPermits(i, j) =>
      && i < j < |s.owners| && s.owners[i].claimed && s.owners[j].claimed
      && s.owners[i].op.Semaphore? && s.owners[j].op.Semaphore?
    case Poison(t, i) =>
      && c == LockClient(true) && t !in s.threads
      && i < |s.owners| && s.owners[i].claimed && s.owners[i].op == Exclusive
      && s.data == DATA_MASK && !s.locked
    case ClearPoison => c == LockClient(true) && s.data == 0 && s.locked && s.queue == []
  }

  // ---------- Steps ----------

  function Snapshot(s: Sys, rounds: nat, start: nat): Round {
    Round(s.data, |s.queue|, 0, 0, s.clock, rounds, start)
  }

  function FirstRound(s: Sys): Round {
    Snapshot(s, 1, s.clock)
  }

  /** The owners of the waiters in `q` are decided: thread `t` owes each of them the result `code`. */
  function Resolve(entries: map<nat, Entry>, q: seq<Waiter>, t: nat, code: Code): (r: map<nat, Entry>)
    ensures r.Keys == entries.Keys
  {
    map id | id in entries ::
      if id in Ids(q) then entries[id].(status := Resolved(t, code)) else entries[id]
  }

  function SetStatus(s: Sys, id: nat, status: Status): Sys
    requires id in s.entries
  {
    s.(entries := s.entries[id := s.entries[id].(status := status)])
  }

  function Go(s: Sys, t: nat, l: Local): Sys {
    s.(threads := s.threads[t := l])
  }

  function Finish(s: Sys, t: nat): Sys {
    s.(threads := s.threads - {t})
  }

  /** The atomic update that hands ownership to the first `k` waiters. */
  function Commit(s: Sys, t: nat, k: nat, sum: nat): Sys
    requires k <= |s.queue|
  {
    s.(data := s.data + sum,
       queue := s.queue[k..],
       owners := s.owners + OwnersOf(s.queue[..k]),
       entries := Resolve(s.entries, s.queue[..k], t, Acquired),
       granted := s.granted + Ids(s.queue[..k]))
  }

  /** Commits, and goes on to set the results; the word stays LOCKED when another round follows. */
  function Hand(s: Sys, t: nat, k: nat, sum: nat, again: Option<Round>, after: After): Sys
    requires k <= |s.queue|
  {
    var s1 := Commit(s, t, k, sum);
    var pending := IdsNewestFirst(s.queue[..k]);
    match again
    case None => Go(Unlock(s1), t, Deliver(pending, Acquired, None, after))
    case Some(r) => Go(s1, t, Deliver(pending, Acquired, Some(Snapshot(s1, r.rounds + 1, r.start)), after))
  }

  function Unlock(s: Sys): Sys {
    s.(locked := false, holder := None)
  }

  function LockBy(s: Sys, t: nat): Sys {
    s.(locked := true, holder := Some(t))
  }

  /** The CAS of `release_loop`: in place, or by taking LOCKED and processing the queue. */
  function GiveUp(s: Sys, t: nat, op: Opcode, i: nat): Sys
    requires op.CanRelease(s.data)
  {
    var amount := op.Acquired();
    var s1 := s.(data := s.data - amount,
                 owners := if i < |s.owners| then RemoveAt(s.owners, i) else s.owners,
                 clock := s.clock + (if amount > 0 then 1 else 0));
    if s.queue == [] || s.locked then Finish(s1, t)
    else Go(LockBy(s1, t), t, Scan(FirstRound(s1), Return))
  }

  function DoScan(c: Client, s: Sys, t: nat): Sys
    requires Enabled(c, s, ScanStep(t))
  {
    var r, after := s.threads[t].r, s.threads[t].after;
    var op := s.queue[r.k].op;
    if !Fits(c.Max(), r.data + r.transferred, op) then
      Go(s, t, Keep(r, after))
    else if r.k + 1 < r.len then
      Go(s, t, Scan(r.(k := r.k + 1, transferred := r.transferred + op.Acquired()), after))
    else if Unchanged(s, r) then
      Hand(s, t, r.len, r.transferred + op.Acquired(), None, after)
    else
      Go(s, t, Transfer(r, after))
  }

  function DoKeep(c: Client, s: Sys, t: nat): Sys
    requires Enabled(c, s, KeepStep(t))
  {
    var r, after := s.threads[t].r, s.threads[t].after;
    if s.data == r.data then
      Hand(s, t, r.k, r.transferred, None, after)
    else
      Go(s, t, Transfer(r, after))
  }

  function DoTransfer(c: Client, s: Sys, t: nat): Sys
    requires Enabled(c, s, TransferStep(t))
  {
    var r, after := s.threads[t].r, s.threads[t].after;
    Hand(s, t, r.k, r.transferred, Some(r), after)
  }

  function DoDeliver(c: Client, s: Sys, t: nat): Sys
    requires Enabled(c, s, DeliverStep(t))
  {
    var l := s.threads[t];
    var s1 := SetStatus(s, l.pending[0], Ready(l.code));
    Go(s1.(delivered := s.delivered + [l.pending[0]]), t, l.(pending := l.pending[1..]))
  }

  function DoResume(c: Client, s: Sys, t: nat): Sys
    requires Enabled(c, s, Resume(t))
  {
    var l := s.threads[t];
    match l.next
    case Some(r) => Go(s, t, Scan(r, l.after))
    case None =>
      match l.after
      case Return => Finish(s, t)
      case ThenAwait(target, seen) => Go(s, t, Await(target, seen))
  }

  function DoConsume(c: Client, s: Sys, id: nat): Sys
    requires Enabled(c, s, Consume(id))
  {
    var e := s.entries[id];
    var s1 := SetStatus(s, id, Taken(e.status.code));
    var i := IndexOf(s.owners, Owner(id, e.op, false));
    if e.status.code == Acquired && i < |s.owners| then
      s1.(owners := s.owners[i := Owner(id, e.op, true)])
    else
      s1
  }

  function DoSpin(c: Client, s: Sys, t: nat): Sys
    requires Enabled(c, s, SpinStep(t))
  {
    var target := s.threads[t].target;
    if s.locked then s
    else if s.queue == [] then Go(s, t, Await(target, s.data))
    else Go(LockBy(s, t), t, Find(target, s.data, FirstRound(s)))
  }

  /** `remove_wait_queue_entry`, one pass over the snapshot. */
  function DoFind(c: Client, s: Sys, t: nat): Sys
    requires Enabled(c, s, FindStep(t))
  {
    var Find(target, seen, r) := s.threads[t];
    var i := Position(s, target, r.len);
    if i >= r.len then
      // The entry is not in the queue any more.
      Go(s, t, Scan(r, ThenAwait(target, seen)))
    else if i + 1 < r.len then
      // Unlinked without an update of the word.
      var s1 := SetStatus(s, target.id, Unlinked).(queue := RemoveAt(s.queue, i));
      Go(s1, t, Scan(r.(len := r.len - 1), Return))
    else if !Unchanged(s, r) then
      // The CAS on the tail failed: walk again from the new tail.
      Go(s, t, Find(target, seen, FirstRound(s)))
    else
      var s1 := SetStatus(s, target.id, Unlinked).(queue := RemoveAt(s.queue, i));
      if i > 0 then Go(s1, t, Scan(r.(len := r.len - 1), Return))
      else Finish(Unlock(s1), t)
  }

  function DoGiveBack(c: Client, s: Sys, t: nat, retry: bool): Sys
    requires Enabled(c, s, GiveBackStep(t, retry))
  {
    var GiveBack(target, seen) := s.threads[t];
    var i := IndexOf(s.owners, Owner(target.id, target.op, false));
    if !target.op.CanRelease(seen) then
      Finish(s, t)
    else if retry then
      Go(s, t, GiveBack(target, s.data))
    else
      GiveUp(SetStatus(s, target.id, GivenBack), t, target.op, i)
  }

  function Do(c: Client, s: Sys, l: Label): Sys
    requires Enabled(c, s, l)
  {
    match l
    case Acquire(op) =>
      s.(data := s.data + op.Acquired(),
         owners := s.owners + [Owner(s.nextId, op, true)],
         nextId := s.nextId + 1)
    case Register(op) =>
      s.(data := s.data + op.Acquired(),
         owners := s.owners + [Owner(s.nextId, op, false)],
         entries := s.entries[s.nextId := Entry(op, Ready(Acquired), None)],
         delivered := s.delivered + [s.nextId],
         nextId := s.nextId + 1)
    case Push(op) =>
      s.(queue := s.queue + [Waiter(s.nextId, op)],
         entries := s.entries[s.nextId := Entry(op, Queued, None)],
         nextId := s.nextId + 1,
         clock := s.clock + 1)
    case Release(t, i) => GiveUp(s, t, s.owners[i].op, i)
    case ScanStep(t) => DoScan(c, s, t)
    case KeepStep(t) => DoKeep(c, s, t)
    case TransferStep(t) => DoTransfer(c, s, t)
    case DeliverStep(t) => DoDeliver(c, s, t)
    case Resume(t) => DoResume(c, s, t)
    case Consume(id) => DoConsume(c, s, id)
    case StartCancel(t, id) =>
      var e := s.entries[id];
      Go(s.(entries := s.entries[id := e.(canceller := Some(t))]), t, Spin(Waiter(id, e.op)))
    case SpinStep(t) => DoSpin(c, s, t)
    case FindStep(t) => DoFind(c, s, t)
    case AwaitStep(t) => Go(s, t, GiveBack(s.threads[t].target, s.threads[t].seen))
    case GiveBackStep(t, retry) => DoGiveBack(c, s, t, retry)
    case SplitPermits(i, n) =>
      var Owner(id, op, claimed) := s.owners[i];
      s.(owners := s.owners[i := Owner(id, Semaphore(n), true)] + [Owner(id, Semaphore(op.permits - n), true)])
    case JoinPermits(i, j) =>
      var a, b := s.owners[i], s.owners[j];
      s.(owners := RemoveAt(s.owners[i := Owner(a.id, Semaphore(a.op.permits + b.op.permits), true)], j))
    case Poison(t, i) =>
      Go(s.(data := 0, locked := true, poisoned := true,
            queue := [],
            owners := RemoveAt(s.owners, i),
            entries := Resolve(s.entries, s.queue, t, Poisoned)),
         t, Deliver(IdsNewestFirst(s.queue), Poisoned, None, Return))
    case ClearPoison => s.(locked := false, poisoned := false)
  }

  // ---------- Runs ----------

  /** A fresh primitive; `withheld` permits belong to whoever constructed the semaphore. */
  function Init(c: Client, withheld: nat): Sys {
    Sys(withheld, false, [], map[], map[], 1,
        if withheld == 0 then [] else [Owner(0, Semaphore(withheld), true)], None, false, 0, [], [])
  }

  predicate ValidInit(c: Client, withheld: nat) {
    match c
    case LockClient(_) => withheld == 0
    case SemaphoreClient => withheld <= DATA_MASK
  }

  /** Whether the labels can be performed one after the other from `s`. */
  predicate Legal(c: Client, s: Sys, run: seq<Label>)
    decreases |run|
  {
    run == [] || (Enabled(c, s, run[0]) && Legal(c, Do(c, s, run[0]), run[1..]))
  }

  function Final(c: Client, s: Sys, run: seq<Label>): Sys
    requires Legal(c, s, run)
    decreases |run|
  {
    if run == [] then s else Final(c, Do(c, s, run[0]), run[1..])
  }
}
