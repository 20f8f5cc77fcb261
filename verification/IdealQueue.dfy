/**
 The protocol refines a queue whose operations are single atomic actions on (count, queue,
 owners): no threads, no LOCKED bit, no snapshots.
 */
module IdealQueue {
  import opened Opcodes
  import opened FairQueue
  import opened QueueMachine
  import opened QueueInvariant
  import opened QueueSteps
  import opened QueueTheorems

  datatype Ideal = Ideal(data: nat, queue: seq<Waiter>, owners: seq<Owner>)

  datatype Action =
    | Enter(owner: Owner)     // acquire without waiting
    | Arrive(waiter: Waiter)  // join the queue at its tail
    | Grant                   // serve the head of the queue
    | Leave(i: nat)           // owner `i` releases
    | Withdraw(i: nat)        // waiter `i` gives up waiting
    | Claim(i: nat)           // owner `i` learns that it owns
    | Split(i: nat, n: nat)   // owner `i` regards its permits as two lots
    | Join(i: nat, j: nat)    // owners `i` and `j` pool their permits
    | Destroy(i: nat)         // owner `i` poisons: everybody waiting leaves

  predicate Can(max: nat, d: Ideal, a: Action) {
    match a
    case Enter(o) => d.queue == [] && Fits(max, d.data, o.op)
    case Arrive(w) => d.queue == [] ==> !Fits(max, d.data, w.op)
    case Grant => d.queue != [] && Fits(max, d.data, d.queue[0].op)
    case Leave(i) => i < |d.owners| && d.owners[i].op.Acquired() <= d.data
    case Withdraw(i) => i < |d.queue|
    case Claim(i) => i < |d.owners| && !d.owners[i].claimed
    case Split(i, n) => i < |d.owners| && d.owners[i].op.Semaphore? && n <= d.owners[i].op.permits
    case Join(i, j) => i < j < |d.owners| && d.owners[i].op.Semaphore? && d.owners[j].op.Semaphore?
    case Destroy(i) => i < |d.owners| && d.owners[i].op == Exclusive && d.data == DATA_MASK
  }

  function Perform(max: nat, d: Ideal, a: Action): Ideal
    requires Can(max, d, a)
  {
    match a
    case Enter(o) => Ideal(d.data + o.op.Acquired(), [], d.owners + [o])
    case Arrive(w) => Ideal(d.data, d.queue + [w], d.owners)
    case Grant =>
      var w := d.queue[0];
      Ideal(d.data + w.op.Acquired(), d.queue[1..], d.owners + [Owner(w.id, w.op, false)])
    case Leave(i) => Ideal(d.data - d.owners[i].op.Acquired(), d.queue, RemoveAt(d.owners, i))
    case Withdraw(i) => Ideal(d.data, RemoveAt(d.queue, i), d.owners)
    case Claim(i) => Ideal(d.data, d.queue, d.owners[i := d.owners[i].(claimed := true)])
    case Split(i, n) =>
      var Owner(id, op, claimed) := d.owners[i];
      Ideal(d.data, d.queue,
            d.owners[i := Owner(id, Semaphore(n), true)] + [Owner(id, Semaphore(op.permits - n), true)])
    case Join(i, j) =>
      var a, b := d.owners[i], d.owners[j];
      Ideal(d.data, d.queue,
            RemoveAt(d.owners[i := Owner(a.id, Semaphore(a.op.permits + b.op.permits), true)], j))
    case Destroy(i) => Ideal(0, [], RemoveAt(d.owners, i))
  }

  /** The actions are possible one after the other and lead from `d` to `d'`. */
  predicate Plays(max: nat, d: Ideal, actions: seq<Action>, d': Ideal)
    decreases |actions|
  {
    if actions == [] then d == d'
    else Can(max, d, actions[0]) && Plays(max, Perform(max, d, actions[0]), actions[1..], d')
  }

  lemma {:induction false} PlaysInSequence(max: nat, d: Ideal, a: seq<Action>, d': Ideal, b: seq<Action>, d'': Ideal)
    requires Plays(max, d, a, d') && Plays(max, d', b, d'')
    ensures Plays(max, d, a + b, d'')
    decreases |a|
  {
    if a == [] {
      assert a + b == b;
    } else {
      assert (a + b)[1..] == a[1..] + b;
      PlaysInSequence(max, Perform(max, d, a[0]), a[1..], d', b, d'');
    }
  }

  // ---------- What the ideal queue promises ----------

  ghost predicate BoundedOwners(owners: seq<Owner>) {
    forall i :: 0 <= i < |owners| ==> Bounded(owners[i].op)
  }

  /** The count is the sum of what is owned, within six bits; and everybody asks for that much at most. */
  ghost predicate IdealOk(d: Ideal) {
    && d.data == SumOwned(d.owners) <= DATA_MASK
    && (forall i :: 0 <= i < |d.queue| ==> Bounded(d.queue[i].op))
    && BoundedOwners(d.owners)
  }

  /** Requests that the ideal queue is made for. */
  predicate Proper(a: Action) {
    match a
    case Enter(o) => Bounded(o.op)
    case Arrive(w) => Bounded(w.op)
    case _ => true
  }

  /** Nobody overtakes, nobody queues up without need, and nobody is served who does not fit. */
  lemma IdealIsFair(max: nat, d: Ideal, a: Action)
    requires Can(max, d, a)
    ensures a.Enter? ==> d.queue == [] && Servable(max, d.data, a.owner.op)
    ensures a.Arrive? && d.queue == [] ==> !Servable(max, d.data, a.waiter.op)
    ensures a.Grant? ==>
              && d.queue != [] && Servable(max, d.data, d.queue[0].op)
              && Perform(max, d, a).queue == d.queue[1..]
              && Perform(max, d, a).owners == d.owners + [Owner(d.queue[0].id, d.queue[0].op, false)]
    ensures a.Arrive? ==> Perform(max, d, a) == d.(queue := d.queue + [a.waiter])
  {
    match a
    case Enter(o) => FitsMeansServable(max, d.data, o.op);
    case Arrive(w) => FitsMeansServable(max, d.data, w.op);
    case Grant => FitsMeansServable(max, d.data, d.queue[0].op);
    case _ =>
  }

  lemma AddingKeepsIdeal(max: nat, d: Ideal, a: Action)
    requires max <= DATA_MASK && IdealOk(d) && Proper(a) && Can(max, d, a)
    requires a.Enter? || a.Grant? || a.Arrive?
    ensures IdealOk(Perform(max, d, a))
  {
    if a.Enter? {
      SumOwnedAppend(d.owners, [a.owner]);
    } else if a.Grant? {
      SumOwnedAppend(d.owners, [Owner(d.queue[0].id, d.queue[0].op, false)]);
    }
  }

  lemma RemovingKeepsIdeal(max: nat, d: Ideal, a: Action)
    requires IdealOk(d) && Can(max, d, a)
    requires a.Leave? || a.Destroy? || a.Withdraw?
    ensures IdealOk(Perform(max, d, a))
  {
    if !a.Withdraw? {
      SumOwnedSplit(d.owners, a.i);
    }
  }

  lemma ClaimKeepsIdeal(max: nat, d: Ideal, i: nat)
    requires IdealOk(d) && Can(max, d, Claim(i))
    ensures IdealOk(Perform(max, d, Claim(i)))
  {
    UpdateOwnerSum(d.owners, i, d.owners[i].(claimed := true));
  }

  lemma SplitKeepsIdeal(max: nat, d: Ideal, i: nat, n: nat)
    requires IdealOk(d) && Can(max, d, Split(i, n))
    ensures IdealOk(Perform(max, d, Split(i, n)))
  {
    var Owner(id, op, _) := d.owners[i];
    var first, second := Owner(id, Semaphore(n), true), Owner(id, Semaphore(op.permits - n), true);
    UpdateOwnerSum(d.owners, i, first);
    SumOwnedAppend(d.owners[i := first], [second]);
  }

  lemma JoinKeepsIdeal(max: nat, d: Ideal, i: nat, j: nat)
    requires IdealOk(d) && Can(max, d, Join(i, j))
    ensures IdealOk(Perform(max, d, Join(i, j)))
  {
    var a, b := d.owners[i], d.owners[j];
    var o := Owner(a.id, Semaphore(a.op.permits + b.op.permits), true);
    JoinedSum(d.owners, i, j, o);
    assert Bounded(o.op);
    BoundedWithout(d.owners[i := o], j);
  }

  lemma JoinedSum(owners: seq<Owner>, i: nat, j: nat, o: Owner)
    requires i < j < |owners|
    requires o.op.Acquired() == owners[i].op.Acquired() + owners[j].op.Acquired()
    ensures SumOwned(RemoveAt(owners[i := o], j)) == SumOwned(owners) >= o.op.Acquired()
  {
    TwoOwnersWithinSum(owners, i, j);
    UpdateOwnerSum(owners, i, o);
    SumOwnedSplit(owners[i := o], j);
  }

  lemma BoundedWithout(owners: seq<Owner>, j: nat)
    requires j < |owners| && BoundedOwners(owners)
    ensures BoundedOwners(RemoveAt(owners, j))
  {
  }

  lemma ActionKeepsIdeal(max: nat, d: Ideal, a: Action)
    requires max <= DATA_MASK && IdealOk(d) && Proper(a) && Can(max, d, a)
    ensures IdealOk(Perform(max, d, a))
  {
    match a
    case Enter(_) | Grant | Arrive(_) => AddingKeepsIdeal(max, d, a);
    case Leave(_) | Destroy(_) | Withdraw(_) => RemovingKeepsIdeal(max, d, a);
    case Claim(i) => ClaimKeepsIdeal(max, d, i);
    case Split(i, n) => SplitKeepsIdeal(max, d, i, n);
    case Join(i, j) => JoinKeepsIdeal(max, d, i, j);
  }

  /** Whatever is played, the ideal queue never hands out more than there is. */
  lemma {:induction false} PlayKeepsIdeal(max: nat, d: Ideal, actions: seq<Action>, d': Ideal)
    requires max <= DATA_MASK && IdealOk(d) && Plays(max, d, actions, d')
    requires forall i :: 0 <= i < |actions| ==> Proper(actions[i])
    ensures IdealOk(d')
    decreases |actions|
  {
    if actions != [] {
      ActionKeepsIdeal(max, d, actions[0]);
      PlayKeepsIdeal(max, Perform(max, d, actions[0]), actions[1..], d');
    }
  }

  function Repeat(k: nat): (r: seq<Action>)
    ensures |r| == k
  {
    if k == 0 then [] else [Grant] + Repeat(k - 1)
  }

  /** Handing ownership to a legal prefix at once is serving the head of the queue that many times. */
  lemma {:induction false} PrefixIsGrants(max: nat, d: Ideal, k: nat)
    requires k <= |d.queue|
    requires LegalGrants(max, d.data, d.queue, k)
    ensures Plays(max, d, Repeat(k),
                  Ideal(d.data + SumAcquired(d.queue[..k]), d.queue[k..], d.owners + OwnersOf(d.queue[..k])))
    decreases k
  {
    var q := d.queue;
    if k == 0 {
      assert q[..0] == [] && q[0..] == q;
      assert d.owners + [] == d.owners;
    } else {
      assert FitsAfter(max, d.data, q, 0) && q[..0] == [];
      var d1 := Perform(max, d, Grant);
      forall j | 0 <= j < k - 1
        ensures FitsAfter(max, d1.data, d1.queue, j)
      {
        assert FitsAfter(max, d.data, q, j + 1);
        FitsAfterHead(max, d.data, q, j);
      }
      PrefixIsGrants(max, d1, k - 1);
      assert q[..k] == [q[0]] + q[1..][..k - 1];
      assert q[1..][k - 1..] == q[k..];
      assert d.owners + OwnersOf(q[..k]) == d1.owners + OwnersOf(q[1..][..k - 1]);
      assert Repeat(k)[1..] == Repeat(k - 1);
    }
  }

  function View(s: Sys): Ideal {
    Ideal(s.data, s.queue, s.owners)
  }

  /** The atomic actions that a step of a thread amounts to. */
  function ActionsOf(c: Client, s: Sys, l: Label): seq<Action>
    requires Enabled(c, s, l)
  {
    match l
    case Acquire(op) => [Enter(Owner(s.nextId, op, true))]
    case Register(op) => [Enter(Owner(s.nextId, op, false))]
    case Push(op) => [Arrive(Waiter(s.nextId, op))]
    case Release(_, i) => [Leave(i)]
    case ScanStep(t) => if DoScan(c, s, t).locked then [] else Repeat(s.threads[t].r.len)
    case KeepStep(t) => if DoKeep(c, s, t).locked then [] else Repeat(s.threads[t].r.k)
    case TransferStep(t) => Repeat(s.threads[t].r.k)
    case Consume(id) =>
      if s.entries[id].status.code == Acquired then [Claim(IndexOf(s.owners, Owner(id, s.entries[id].op, false)))]
      else []
    case FindStep(t) =>
      if DoFind(c, s, t).queue == s.queue then [] else [Withdraw(Position(s, s.threads[t].target, s.threads[t].r.len))]
    case GiveBackStep(t, retry) =>
      if retry then [] else [Leave(IndexOf(s.owners, Owner(s.threads[t].target.id, s.threads[t].target.op, false)))]
    case SplitPermits(i, n) => [Split(i, n)]
    case JoinPermits(i, j) => [Join(i, j)]
    case Poison(_, i) => [Destroy(i)]
    case _ => []
  }

  lemma PlaysOne(max: nat, d: Ideal, a: Action)
    requires Can(max, d, a)
    ensures Plays(max, d, [a], Perform(max, d, a))
  {
    assert [a][1..] == [];
  }

  lemma HandRefines(c: Client, s: Sys, t: nat, k: nat, again: Option<Round>, after: After)
    requires k <= |s.queue| && LegalGrants(c.Max(), s.data, s.queue, k)
    ensures Plays(c.Max(), View(s), Repeat(k), View(HandState(s, t, k, again, after)))
  {
    PrefixIsGrants(c.Max(), View(s), k);
  }

  lemma ScanRefines(c: Client, s: Sys, t: nat)
    requires Inv(c, s) && Enabled(c, s, ScanStep(t))
    ensures Plays(c.Max(), View(s), ActionsOf(c, s, ScanStep(t)), View(DoScan(c, s, t)))
  {
    assert LocalOk(c, s, t, s.threads[t]);
    if !DoScan(c, s, t).locked {
      ResetIsGreedy(c, s, t);
      GreedyIsMaximal(c.Max(), s.data, s.queue);
      HandRefines(c, s, t, |s.queue|, None, s.threads[t].after);
    }
  }

  lemma KeepRefines(c: Client, s: Sys, t: nat)
    requires Inv(c, s) && Enabled(c, s, KeepStep(t))
    ensures Plays(c.Max(), View(s), ActionsOf(c, s, KeepStep(t)), View(DoKeep(c, s, t)))
  {
    assert LocalOk(c, s, t, s.threads[t]);
    if !DoKeep(c, s, t).locked {
      HandRefines(c, s, t, s.threads[t].r.k, None, s.threads[t].after);
    }
  }

  lemma TransferRefines(c: Client, s: Sys, t: nat)
    requires Inv(c, s) && Enabled(c, s, TransferStep(t))
    ensures Plays(c.Max(), View(s), ActionsOf(c, s, TransferStep(t)), View(DoTransfer(c, s, t)))
  {
    var r := s.threads[t].r;
    assert LocalOk(c, s, t, s.threads[t]);
    LegalGrantsWithLess(c.Max(), r.data, s.data, s.queue, r.k);
    HandRefines(c, s, t, r.k, Some(r), s.threads[t].after);
  }

  lemma FindRefines(c: Client, s: Sys, t: nat)
    requires Inv(c, s) && Enabled(c, s, FindStep(t))
    ensures Plays(c.Max(), View(s), ActionsOf(c, s, FindStep(t)), View(DoFind(c, s, t)))
  {
    var Find(target, seen, r) := s.threads[t];
    var i := Position(s, target, r.len);
    assert LocalOk(c, s, t, s.threads[t]);
    if i < r.len {
      FindOutcome(c, s, t, target, seen, r, i);
      if DoFind(c, s, t).queue != s.queue {
        PlaysOne(c.Max(), View(s), Withdraw(i));
      }
    }
  }

  lemma GiveBackRefines(c: Client, s: Sys, t: nat)
    requires Inv(c, s) && Enabled(c, s, GiveBackStep(t, false))
    ensures Plays(c.Max(), View(s), ActionsOf(c, s, GiveBackStep(t, false)), View(DoGiveBack(c, s, t, false)))
  {
    var GiveBack(target, seen) := s.threads[t];
    var i := IndexOf(s.owners, Owner(target.id, target.op, false));
    assert LocalOk(c, s, t, s.threads[t]);
    assert EntryOk(c, s, target.id);
    OwnersCanRelease(c, s, i);
    OwnerWithinData(c, s, i);
    PlaysOne(c.Max(), View(s), Leave(i));
  }

  /** Every step of every thread is a sequence of atomic actions on the ideal queue. */
  lemma StepRefines(c: Client, s: Sys, l: Label)
    requires Inv(c, s) && Enabled(c, s, l)
    ensures Plays(c.Max(), View(s), ActionsOf(c, s, l), View(Do(c, s, l)))
  {
    if l.ScanStep? {
      ScanRefines(c, s, l.t);
    } else if l.KeepStep? {
      KeepRefines(c, s, l.t);
    } else if l.TransferStep? {
      TransferRefines(c, s, l.t);
    } else if l.FindStep? {
      FindRefines(c, s, l.t);
    } else if l.GiveBackStep? && !l.retry {
      GiveBackRefines(c, s, l.t);
    } else if l.Resume? || l.DeliverStep? || l.StartCancel? || l.SpinStep? || l.AwaitStep? || l.GiveBackStep? || l.ClearPoison? {
      InvisibleStep(c, s, l);
    } else {
      VisibleStepRefines(c, s, l);
    }
  }

  /** Delivering results, spinning and bookkeeping change nothing that the ideal queue has. */
  lemma InvisibleStep(c: Client, s: Sys, l: Label)
    requires Inv(c, s) && Enabled(c, s, l)
    requires l.Resume? || l.DeliverStep? || l.StartCancel? || l.SpinStep? || l.AwaitStep? || l.ClearPoison? || (l.GiveBackStep? && l.retry)
    ensures ActionsOf(c, s, l) == [] && View(Do(c, s, l)) == View(s)
  {
    if l.GiveBackStep? {
      assert LocalOk(c, s, l.t, s.threads[l.t]);
    }
  }

  lemma VisibleStepRefines(c: Client, s: Sys, l: Label)
    requires Inv(c, s) && Enabled(c, s, l)
    requires l.Acquire? || l.Register? || l.Push? || l.Release? || l.Consume? || l.SplitPermits? || l.JoinPermits? || l.Poison?
    ensures Plays(c.Max(), View(s), ActionsOf(c, s, l), View(Do(c, s, l)))
  {
    var acts := ActionsOf(c, s, l);
    if l.Release? {
      OwnerWithinData(c, s, l.i);
    }
    if l.Consume? {
      assert EntryOk(c, s, l.id);
    }
    if acts != [] {
      VisibleStepIsAction(c, s, l);
      PlaysOne(c.Max(), View(s), acts[0]);
    }
  }

  lemma VisibleStepIsAction(c: Client, s: Sys, l: Label)
    requires WordOk(c, s) && Enabled(c, s, l)
    requires l.Acquire? || l.Register? || l.Push? || l.Release? || l.Consume? || l.SplitPermits? || l.JoinPermits? || l.Poison?
    requires ActionsOf(c, s, l) != []
    requires l.Release? ==> s.owners[l.i].op.Acquired() <= s.data
    requires l.Consume? ==> Owner(l.id, s.entries[l.id].op, false) in s.owners
    ensures |ActionsOf(c, s, l)| == 1
    ensures Can(c.Max(), View(s), ActionsOf(c, s, l)[0])
    ensures Perform(c.Max(), View(s), ActionsOf(c, s, l)[0]) == View(Do(c, s, l))
  {
    if l.Acquire? || l.Register? || l.Push? {
      ArrivalIsAction(c, s, l);
    } else if l.SplitPermits? || l.JoinPermits? {
      RegroupingIsAction(c, s, l);
    }
  }

  lemma ArrivalIsAction(c: Client, s: Sys, l: Label)
    requires WordOk(c, s) && Enabled(c, s, l)
    requires l.Acquire? || l.Register? || l.Push?
    ensures Can(c.Max(), View(s), ActionsOf(c, s, l)[0])
    ensures Perform(c.Max(), View(s), ActionsOf(c, s, l)[0]) == View(Do(c, s, l))
  {
  }

  lemma RegroupingIsAction(c: Client, s: Sys, l: Label)
    requires Enabled(c, s, l)
    requires l.SplitPermits? || l.JoinPermits?
    ensures Can(c.Max(), View(s), ActionsOf(c, s, l)[0])
    ensures Perform(c.Max(), View(s), ActionsOf(c, s, l)[0]) == View(Do(c, s, l))
  {
  }

  function ActionsOfRun(c: Client, s: Sys, run: seq<Label>): seq<Action>
    requires Legal(c, s, run)
    decreases |run|
  {
    if run == [] then [] else ActionsOf(c, s, run[0]) + ActionsOfRun(c, Do(c, s, run[0]), run[1..])
  }

  /** What the threads do together in a run, the ideal queue could have done by itself, one atomic action after the other. */
  lemma {:induction false} RunRefines(c: Client, s: Sys, run: seq<Label>)
    requires Inv(c, s) && Legal(c, s, run)
    ensures Plays(c.Max(), View(s), ActionsOfRun(c, s, run), View(Final(c, s, run)))
    decreases |run|
  {
    if run != [] {
      var s1 := Do(c, s, run[0]);
      StepRefines(c, s, run[0]);
      StepKeepsInv(c, s, run[0]);
      RunRefines(c, s1, run[1..]);
      PlaysInSequence(c.Max(), View(s), ActionsOf(c, s, run[0]), View(s1),
                      ActionsOfRun(c, s1, run[1..]), View(Final(c, s, run)));
    }
  }
}
