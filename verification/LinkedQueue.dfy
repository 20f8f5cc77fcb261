/**
 The queue operations as the imperative code they are: loops over entries linked by `next` (towards
 the head) and `prev` (towards the tail), with other threads interfering before every access to
 the shared word. What the others may do while LOCKED is set is what the protocol allows them:
 push entries at the tail and release in place. Which of them do it, and when, is a script that
 every contract quantifies over.
 */
module LinkedQueue {
  import opened Opcodes
  import opened FairQueue

  class Entry {
    const id: nat
    const op: Opcode
    var next: Entry?  // the entry that was pushed right before this one
    var prev: Entry?  // the entry that was pushed right after this one
    var result: Option<nat>

    constructor (id: nat, op: Opcode, next: Entry?)
      ensures this.id == id && this.op == op
      ensures this.next == next && prev == null && result == None
    {
      this.id, this.op := id, op;
      this.next, this.prev, this.result := next, null, None;
    }

    /** The result is final: from here on the entry belongs to its owner, who may use it again. */
    method SetResult(code: nat)
      requires result == None
      modifies this
      ensures result == Some(code)
    {
      result := Some(code);
      next, prev := null, null;
    }
  }

  /** What another thread does to a LOCKED word in one atomic step. */
  datatype Interference = Pushes(op: Opcode) | Releases(amount: nat)

  datatype Word = Word(data: nat, locked: bool, tail: Entry?)

  /** The number of steps that other threads still take. */
  function Budget(script: seq<seq<Interference>>): nat {
    if script == [] then 0 else |script[0]| + Budget(script[1..])
  }

  ghost function Waiters(q: seq<Entry>): (r: seq<Waiter>)
    ensures |r| == |q|
    ensures forall i :: 0 <= i < |q| ==> r[i] == Waiter(q[i].id, q[i].op)
  {
    seq(|q|, i requires 0 <= i < |q| => Waiter(q[i].id, q[i].op))
  }

  /** Following `next` from the newest entry enumerates the queue and ends at entry `cut`. */
  ghost predicate NextOk(q: seq<Entry>, cut: nat)
    reads q`next
  {
    forall i :: 0 <= i < |q| ==> NextAt(q, cut, i)
  }

  ghost predicate NextAt(q: seq<Entry>, cut: nat, i: nat)
    requires i < |q|
    reads q`next
  {
    q[i].next == if i == 0 || i == cut then null else q[i - 1]
  }

  /** Where `prev` has been set it points to the next newer entry. */
  ghost predicate PrevOk(q: seq<Entry>)
    reads q`prev
  {
    && (forall i :: 0 <= i < |q| - 1 ==> q[i].prev == null || q[i].prev == q[i + 1])
    && (q != [] ==> q[|q| - 1].prev == null)
  }

  /** `prev` is set on exactly the entries older than entry `n - 1`. */
  ghost predicate PrevSet(q: seq<Entry>, n: nat)
    reads q`prev
  {
    forall i :: 0 <= i < |q| ==> PrevAt(q, n, i)
  }

  ghost predicate PrevAt(q: seq<Entry>, n: nat, i: nat)
    requires i < |q|
    reads q`prev
  {
    q[i].prev == if i + 1 < n && i + 1 < |q| then q[i + 1] else null
  }

  ghost predicate Pending(q: seq<Entry>)
    reads q`result
  {
    forall i :: 0 <= i < |q| ==> q[i].result == None
  }

  /**
   `iter_forward` over entries that have been taken out of a queue: gives each of them the same
   result, newest first, and counts them. The link to the next entry is read before the result is
   set, because from then on the entry may be gone.
   */
  method SetResults(tailEntry: Entry?, code: nat, ghost q: seq<Entry>) returns (count: nat)
    requires Distinct(q) && NextOk(q, 0) && Pending(q)
    requires tailEntry == if q == [] then null else q[|q| - 1]
    modifies q
    ensures count == |q|
    ensures forall i :: 0 <= i < |q| ==> q[i].result == Some(code)
  {
    count := 0;
    var entry: Entry? := tailEntry;
    ghost var i := |q|;
    assert q[..i] == q;
    while entry != null
      invariant 0 <= i <= |q| && count == |q| - i
      invariant entry == if i == 0 then null else q[i - 1]
      invariant NextOk(q[..i], 0) && Pending(q[..i])
      invariant forall j :: i <= j < |q| ==> q[j].result == Some(code)
      decreases i
    {
      assert q[..i][i - 1] == q[i - 1] && NextAt(q[..i], 0, i - 1);
      var nextEntry := entry.next;
      label before:
      entry.SetResult(code);
      i := i - 1;
      forall j | 0 <= j < i
        ensures NextAt(q[..i], 0, j)
      {
        assert old@before(NextAt(q[..i + 1], 0, j));
      }
      entry := nextEntry;
      count := count + 1;
    }
  }

  // ---------- Other threads ----------

  /** The operations of the entries that other threads push, in order. */
  function PushedBy(steps: seq<Interference>): seq<Opcode> {
    if steps == [] then []
    else PushedBy(steps[..|steps| - 1]) + match steps[|steps| - 1] case Pushes(op) => [op] case Releases(_) => []
  }

  /** The count after other threads have released what it covers. */
  function CountAfterSteps(data: nat, steps: seq<Interference>): nat {
    if steps == [] then data
    else
      var before := CountAfterSteps(data, steps[..|steps| - 1]);
      match steps[|steps| - 1]
      case Pushes(_) => before
      case Releases(amount) => if amount <= before then before - amount else before
  }

  lemma OneMoreStep(data: nat, steps: seq<Interference>, i: nat)
    requires i < |steps|
    ensures CountAfterSteps(data, steps[..i + 1]) == CountAfterSteps(CountAfterSteps(data, steps[..i]), [steps[i]])
    ensures PushedBy(steps[..i + 1]) == PushedBy(steps[..i]) + PushedBy([steps[i]])
  {
    assert steps[..i + 1][..i] == steps[..i] && [steps[i]][..0] == [];
  }

  function Ops(q: seq<Entry>): seq<Opcode> {
    seq(|q|, i requires 0 <= i < |q| => q[i].op)
  }

  /** The steps that a script has before the next access. */
  function NextSteps(script: seq<seq<Interference>>): seq<Interference> {
    if script == [] then [] else script[0]
  }

  class Primitive {
    const max: nat
    // The shared word.
    var data: nat
    var locked: bool
    var tail: Entry?
    var nextId: nat
    // The steps of other threads before each of our accesses to the word.
    var script: seq<seq<Interference>>
    // What the word stands for, and what the other threads have done.
    ghost var queue: seq<Entry>  // oldest first
    ghost var cut: nat           // position of the entry whose `next` the processor has cut
    ghost var disturbances: nat  // pushes and releases of a non-zero amount
    ghost var released: nat      // their total amount

    ghost predicate Valid()
      reads this, queue
    {
      && Distinct(queue)
      && NextOk(queue, cut)
      && PrevOk(queue)
      && Pending(queue)
      && tail == (if queue == [] then null else queue[|queue| - 1])
      && (cut > 0 ==> cut < |queue|)
    }

    /** The word was `w` at some point since LOCKED was set, when the queue had `n` entries. */
    ghost predicate Snapshot(w: Word, n: nat, mark: nat)
      reads this
    {
      && w.locked && locked
      && 0 < n <= |queue|
      && w.tail == queue[n - 1]
      && data <= w.data
      && mark <= disturbances
      && disturbances <= mark + (w.data - data) + (|queue| - n)
      && (mark == disturbances ==> data == w.data && n == |queue|)
    }

    /** Whoever is queued now was queued before or has been pushed since. */
    twostate predicate NoStrangers()
      reads this
    {
      forall e :: e in queue ==> e in old(queue) || fresh(e)
    }

    /** What other threads may have done between two accesses of the processor. */
    twostate predicate Rely()
      reads this, queue
    {
      && old(queue) <= queue
      && (forall i :: |old(queue)| <= i < |queue| ==> fresh(queue[i]) && queue[i].prev == null)
      && locked == old(locked)
      && cut == old(cut)
      && data + released == old(data) + old(released)
      && released >= old(released)
      && disturbances + Budget(script) <= old(disturbances) + old(Budget(script))
      && old(disturbances) <= disturbances
      && disturbances <= old(disturbances) + (|queue| - |old(queue)|) + (released - old(released))
      && (disturbances == old(disturbances) ==> queue == old(queue) && data == old(data))
    }

    /** Other threads have taken exactly these steps. */
    twostate predicate Took(steps: seq<Interference>)
      reads this
    {
      Ops(queue) == Ops(old(queue)) + PushedBy(steps) && data == CountAfterSteps(old(data), steps)
    }

    /** The first `k` entries have left the queue, and others may have been pushed. */
    twostate predicate Shifted(k: nat)
      reads this, queue
    {
      && k <= |old(queue)|
      && old(queue)[k..] <= queue
      && (forall i :: |old(queue)| - k <= i < |queue| ==> fresh(queue[i]) && queue[i].prev == null)
    }

    method Push(op: Opcode)
      requires Valid() && locked && queue != []
      modifies this`tail, this`nextId, this`queue, this`disturbances
      ensures Valid()
      ensures |queue| == |old(queue)| + 1 && queue[..|old(queue)|] == old(queue) && fresh(queue[|old(queue)|])
      ensures queue[|old(queue)|].prev == null
      ensures queue[|old(queue)|].op == op
      ensures disturbances == old(disturbances) + 1
    {
      ghost var q := queue;
      var e := new Entry(nextId, op, tail);
      tail := e;
      nextId := nextId + 1;
      queue := queue + [e];
      disturbances := disturbances + 1;
      assert NextOk(q, cut) && PrevOk(q) && Pending(q);
      forall i | 0 <= i < |queue|
        ensures NextAt(queue, cut, i)
      {
        if i < |q| {
          assert NextAt(q, cut, i);
        }
      }
    }

    /** One step of another thread. A release that the count does not cover does not happen. */
    method Disturb(step: Interference)
      requires Valid() && locked && queue != []
      modifies this
      ensures Valid() && script == old(script)
      ensures old(queue) <= queue && cut == old(cut) && locked
      ensures forall i :: |old(queue)| <= i < |queue| ==> fresh(queue[i]) && queue[i].prev == null
      ensures data + released == old(data) + old(released) && released >= old(released)
      ensures old(disturbances) <= disturbances <= old(disturbances) + 1
      ensures disturbances <= old(disturbances) + (|queue| - |old(queue)|) + (released - old(released))
      ensures disturbances == old(disturbances) ==> queue == old(queue) && data == old(data)
      ensures Took([step])
    {
      assert [step][..0] == [];
      match step
      case Pushes(op) => Push(op);
      case Releases(amount) =>
        if 0 < amount <= data {
          data := data - amount;
          released := released + amount;
          disturbances := disturbances + 1;
        }
    }

    /** Other threads take these steps, one after the other. */
    method TakeSteps(steps: seq<Interference>)
      requires Valid() && locked && queue != []
      modifies this
      ensures Valid() && script == old(script) && Took(steps)
      ensures old(queue) <= queue && cut == old(cut) && locked
      ensures forall i :: |old(queue)| <= i < |queue| ==> fresh(queue[i]) && queue[i].prev == null
      ensures data + released == old(data) + old(released) && released >= old(released)
      ensures old(disturbances) <= disturbances <= old(disturbances) + |steps|
      ensures disturbances <= old(disturbances) + (|queue| - |old(queue)|) + (released - old(released))
      ensures disturbances == old(disturbances) ==> queue == old(queue) && data == old(data)
      decreases |steps|
    {
      if steps != [] {
        var last := |steps| - 1;
        TakeSteps(steps[..last]);
        Disturb(steps[last]);
        OneMoreStep(old(data), steps, last);
        assert steps[..last + 1] == steps;
      } else {
        assert Ops(queue) + [] == Ops(queue);
      }
    }

    /** Other threads take the steps that the script has for them before our next access. */
    method Interfere()
      requires Valid() && locked && queue != []
      modifies this
      ensures Valid() && Rely()
      ensures script == if old(script) == [] then [] else old(script)[1..]
      ensures |queue| == |old(queue)| + |PushedBy(NextSteps(old(script)))|
      ensures data == CountAfterSteps(old(data), NextSteps(old(script)))
    {
      if script != [] {
        var steps := script[0];
        script := script[1..];
        TakeSteps(steps);
      }
    }

    // ---------- Walking ----------

    /** `iter_forward` with `set_prev`: walks to the head and sets `prev` on the way. */
    method FindHead(tailEntry: Entry, ghost n: nat) returns (head: Entry)
      requires Valid() && cut == 0
      requires 0 < n <= |queue| && tailEntry == queue[n - 1]
      requires forall i :: n - 1 <= i < |queue| ==> PrevAt(queue, 0, i)
      modifies queue`prev
      ensures unchanged(this)
      ensures Valid() && PrevSet(queue, n)
      ensures head == queue[0]
    {
      head := tailEntry;
      ghost var i := n - 1;
      assert NextAt(queue, cut, i);
      forall j | i <= j < |queue|
        ensures PrevAt(queue, n, j)
      {
        assert PrevAt(queue, 0, j);
      }
      while head.next != null
        invariant 0 <= i < n && head == queue[i] && NextAt(queue, cut, i)
        invariant unchanged(this) && PrevOk(queue) && NextOk(queue, cut)
        invariant forall j :: i <= j < |queue| ==> PrevAt(queue, n, j)
        decreases i
      {
        label before:
        head.next.prev := head;
        head := head.next;
        i := i - 1;
        forall j | i <= j < |queue|
          ensures PrevAt(queue, n, j)
        {
          assert i < j ==> old@before(PrevAt(queue, n, j));
        }
        assert NextAt(queue, cut, i);
      }
    }

    /** `set_prev_ptr`: sets `prev` on the entries pushed since the last walk, and stops there. */
    method SetPrev(tailEntry: Entry, ghost m: nat, ghost n: nat)
      requires Valid() && cut == 0
      requires 0 < m <= n <= |queue| && tailEntry == queue[n - 1]
      requires PrevSet(queue, m)
      modifies queue`prev
      ensures unchanged(this)
      ensures Valid() && PrevSet(queue, n)
    {
      var entry: Entry? := tailEntry;
      ghost var i: int := n - 1;
      forall j | n - 1 <= j < |queue|
        ensures PrevAt(queue, n, j)
      {
        assert PrevAt(queue, m, j);
      }
      while entry != null
        invariant m - 1 <= i < n || (m == 1 && i == -1)
        invariant entry == if i >= 0 then queue[i] else null
        invariant unchanged(this) && PrevOk(queue) && NextOk(queue, cut)
        invariant forall j :: 0 <= j < |queue| && j < i ==> PrevAt(queue, m, j)
        invariant forall j :: 0 <= j < |queue| && i <= j ==> PrevAt(queue, n, j)
        decreases i
      {
        assert NextAt(queue, cut, i);
        var nextEntry := entry.next;
        if nextEntry != null {
          if nextEntry.prev == null {
            assert PrevAt(queue, m, i - 1);
            label before:
            nextEntry.prev := entry;
            forall j | 0 <= j < |queue|
              ensures j < i - 1 ==> PrevAt(queue, m, j)
              ensures i - 1 <= j ==> PrevAt(queue, n, j)
            {
              assert j < i - 1 ==> old@before(PrevAt(queue, m, j));
              assert i <= j ==> old@before(PrevAt(queue, n, j));
            }
          } else {
            assert PrevAt(queue, m, i - 1);
            forall j | 0 <= j < i
              ensures PrevAt(queue, n, j)
            {
              assert PrevAt(queue, m, j);
            }
            return;
          }
        }
        entry := nextEntry;
        i := i - 1;
      }
    }

    /** `iter_backward`: from the head, the entries that can inherit ownership under the snapshot. */
    method Scan(w: Word, head: Entry, ghost n: nat)
      returns (entry: Entry, ghost k: nat, transferred: nat, resolved: Entry?, fits: bool)
      requires Valid() && PrevSet(queue, n)
      requires 0 < n <= |queue| && head == queue[0]
      ensures k < n && entry == queue[k]
      ensures transferred == SumAcquired(Waiters(queue)[..k])
      ensures LegalGrants(max, w.data, Waiters(queue), k)
      ensures fits == FitsAfter(max, w.data, Waiters(queue), k)
      ensures fits ==> k == n - 1
      ensures resolved == if k == 0 then null else queue[k - 1]
    {
      entry, k, transferred, resolved, fits := head, 0, 0, null, true;
      assert Waiters(queue)[..0] == [];
      while true
        invariant fits && k < n && entry == queue[k]
        invariant transferred == SumAcquired(Waiters(queue)[..k])
        invariant LegalGrants(max, w.data, Waiters(queue), k)
        invariant resolved == if k == 0 then null else queue[k - 1]
        decreases n - k
      {
        if !(w.data + transferred == 0 || w.data + transferred + entry.op.Desired() <= max) {
          fits := false;
          return;
        }
        assert FitsAfter(max, w.data, Waiters(queue), k);
        assert PrevAt(queue, n, k);
        if entry.prev == null {
          return;
        }
        SumNext(Waiters(queue), k);
        transferred := transferred + entry.op.Acquired();
        resolved := entry;
        entry := entry.prev;
        k := k + 1;
      }
    }

    // ---------- Accesses to the word ----------

    /** The CAS that resets the queue after its tail has been granted. */
    method TryReset(w: Word, newData: nat, ghost n: nat, ghost mark: nat) returns (ok: bool)
      requires Valid() && cut == 0 && queue != [] && Snapshot(w, n, mark)
      modifies this
      ensures Valid() && cut == 0
      ensures ok ==>
                && !locked && queue == [] && data == newData
                && n == |old(queue)| && old(data) == w.data
                && released == old(released) && disturbances == old(disturbances)
                && Budget(script) <= old(Budget(script))
      ensures !ok ==> Rely() && disturbances > mark
    {
      Interfere();
      ok := data == w.data && locked == w.locked && tail == w.tail;
      if ok {
        data, locked, tail := newData, false, null;
        queue := [];
      }
    }

    /** The `fetch_update` that commits the transfers if no share was released meanwhile. */
    method TryKeep(d: nat, transferred: nat, ghost k: nat, ghost mark: nat) returns (ok: bool)
      requires Valid() && locked && k < |queue| && cut == k
      requires data <= d && mark <= disturbances && (disturbances == mark ==> data == d)
      modifies this
      ensures Valid()
      ensures ok ==>
                && !locked && cut == 0 && data == d + transferred
                && Shifted(k)
                && d + released == old(data) + old(released) && old(released) <= released
                && disturbances >= old(disturbances)
                && disturbances + Budget(script) <= old(disturbances) + old(Budget(script))
      ensures !ok ==> Rely() && disturbances > mark
    {
      Interfere();
      ok := data == d;
      if ok {
        UnlockAt(d + transferred, k);
      }
    }

    /** The commit itself: the count is `sum`, and the entries in front of position `cut` have their shares. */
    method UnlockAt(sum: nat, ghost k: nat)
      requires Valid() && k < |queue| && cut == k
      modifies this`data, this`locked, this`queue, this`cut
      ensures Valid() && !locked && data == sum && cut == 0 && queue == old(queue)[k..]
    {
      data, locked := sum, false;
      DropServed(k);
    }

    /** The entries in front of position `cut` have their shares: the queue starts at `cut`. */
    ghost method DropServed(k: nat)
      requires Valid() && k < |queue| && cut == k
      modifies this`queue, this`cut
      ensures Valid() && cut == 0 && queue == old(queue)[k..]
    {
      forall i | 0 <= i < |queue| - k
        ensures NextAt(queue[k..], 0, i)
      {
        assert NextAt(queue, cut, k + i);
      }
      queue := queue[k..];
      cut := 0;
    }

    /** The `fetch_add` that commits the transfers and takes a new snapshot for the next round. */
    method AddTransferred(transferred: nat, ghost k: nat) returns (w: Word)
      requires Valid() && locked && k < |queue| && cut == k
      modifies this
      ensures Valid() && locked && cut == 0
      ensures Shifted(k)
      ensures w == Word(data, locked, tail) && Snapshot(w, |queue|, disturbances)
      ensures data + released == old(data) + old(released) + transferred && old(released) <= released
      ensures transferred <= data <= old(data) + transferred
      ensures old(disturbances) <= disturbances
      ensures disturbances + Budget(script) <= old(disturbances) + old(Budget(script))
    {
      Interfere();
      data := data + transferred;
      w := Word(data, locked, tail);
      DropServed(k);
    }

    // ---------- Results ----------

    /** Delivers the results of a chain of served entries, newest first. */
    method DeliverChain(resolved: Entry?, ghost served: seq<Entry>)
      requires Valid()
      requires Distinct(served) && NextOk(served, 0) && Pending(served)
      requires forall i, j :: 0 <= i < |served| && 0 <= j < |queue| ==> served[i] != queue[j]
      requires resolved == if served == [] then null else served[|served| - 1]
      modifies served
      ensures unchanged(this)
      ensures Valid()
      ensures forall i :: 0 <= i < |served| ==> served[i].result == Some(0)
    {
      var _ := SetResults(resolved, 0, served);
      ValidAfterResult();
    }

    twostate lemma ValidAfterResult()
      requires old(Valid())
      requires unchanged(this)
      requires forall j :: 0 <= j < |queue| ==> unchanged(queue[j])
      ensures Valid()
    {
      forall i | 0 <= i < |queue|
        ensures NextAt(queue, cut, i)
      {
        assert old(NextAt(queue, cut, i));
      }
    }

    // ---------- Processing ----------

    /** The entry at position `k` becomes the head: the entries in front of it have been served. */
    method Cut(entry: Entry, ghost k: nat, ghost n: nat)
      requires Valid() && cut == 0 && PrevSet(queue, n)
      requires k < |queue| && entry == queue[k]
      modifies entry`next, this`cut
      ensures Valid() && cut == k && PrevSet(queue, n)
      ensures Distinct(queue[..k]) && NextOk(queue[..k], 0) && Pending(queue[..k])
    {
      entry.next := null;
      cut := k;
      forall i | 0 <= i < |queue|
        ensures NextAt(queue, cut, i)
      {
        assert i != k ==> old(NextAt(queue, cut, i));
      }
      CutKeepsPrev(n);
      forall i | 0 <= i < k
        ensures NextAt(queue[..k], 0, i)
      {
        assert old(NextAt(queue, cut, i));
      }
    }

    /** Delivering leaves the queue as it is, with its `prev` links. */
    method Deliver(resolved: Entry?, ghost served: seq<Entry>, ghost n: nat)
      requires Valid() && PrevSet(queue, n)
      requires Distinct(served) && NextOk(served, 0) && Pending(served)
      requires forall i, j :: 0 <= i < |served| && 0 <= j < |queue| ==> served[i] != queue[j]
      requires resolved == if served == [] then null else served[|served| - 1]
      modifies served
      ensures unchanged(this)
      ensures Valid() && PrevSet(queue, n)
      ensures forall i :: 0 <= i < |served| ==> served[i].result == Some(0)
    {
      DeliverChain(resolved, served);
      forall i | 0 <= i < |queue|
        ensures PrevAt(queue, n, i)
      {
        assert old(PrevAt(queue, n, i));
      }
    }

    /** `prev` of the queue that starts at position `k` of `q` and has grown since. */
    lemma PrevAfterCommit(q: seq<Entry>, k: nat, n: nat, m: nat)
      requires k < n <= |q| && PrevSet(q, n) && m == n - k
      requires q[k..] <= queue
      requires forall i :: |q| - k <= i < |queue| ==> queue[i].prev == null
      ensures PrevSet(queue, m)
    {
      forall i | 0 <= i < |queue|
        ensures PrevAt(queue, m, i)
      {
        if i < |q| - k {
          assert PrevAt(q, n, k + i);
          assert queue[i] == q[k..][i];
          assert i + 1 < |q| - k ==> queue[i + 1] == q[k..][i + 1];
        }
      }
    }

    /** What the entries in front of position `k` acquired is added to the word, one way or the other. */
    method KeepOrAdd(w: Word, transferred: nat, resetFailed: bool, ghost k: nat, ghost mark: nat)
      returns (unlocked: bool, w': Word)
      requires Valid() && cut == k && locked && k < |queue|
      requires data <= w.data && mark <= disturbances && (disturbances == mark ==> data == w.data)
      requires resetFailed ==> disturbances > mark
      modifies this
      ensures Valid() && cut == 0 && Shifted(k)
      ensures data + released == old(data) + old(released) + transferred && old(released) <= released
      ensures transferred <= data <= w.data + transferred
      ensures old(disturbances) <= disturbances
      ensures disturbances + Budget(script) <= old(disturbances) + old(Budget(script))
      ensures unlocked ==> !locked && !resetFailed && data == w.data + transferred
      ensures !unlocked ==> disturbances > mark && Snapshot(w', |queue|, disturbances)
    {
      unlocked, w' := false, w;
      if !resetFailed {
        unlocked := TryKeep(w.data, transferred, k, mark);
      }
      if !unlocked {
        ghost var q := queue;
        w' := AddTransferred(transferred, k);
        assert q[k..] <= queue;
      }
    }

    lemma FrontIsGone(q: seq<Entry>, k: nat)
      requires k < |q| && Distinct(q) && q[k..] <= queue
      requires forall j :: |q| - k <= j < |queue| ==> queue[j] !in q
      ensures forall i, j :: 0 <= i < k && 0 <= j < |queue| ==> q[i] != queue[j]
      ensures queue[0] == q[k]
    {
      assert forall j :: 0 <= j < |q| - k ==> queue[j] == q[k..][j] == q[k + j];
    }

    /** Commits the shares of the entries in front of position `k`, which stays in the queue. */
    method Commit(w: Word, transferred: nat, resetFailed: bool, ghost k: nat, ghost n: nat, ghost mark: nat)
      returns (unlocked: bool, w': Word)
      requires Valid() && cut == k && locked
      requires k < n <= |queue| && Snapshot(w, n, mark) && PrevSet(queue, n)
      requires if resetFailed then disturbances > mark else !Fits(max, w.data + transferred, queue[k].op)
      modifies this
      ensures Valid() && cut == 0 && PrevSet(queue, n - k)
      ensures old(queue)[k..] <= queue
      ensures NoStrangers()
      ensures forall i, j :: 0 <= i < k && 0 <= j < |queue| ==> old(queue)[i] != queue[j]
      ensures data + released == old(data) + old(released) + transferred && old(released) <= released
      ensures transferred <= data <= w.data + transferred
      ensures old(disturbances) <= disturbances
      ensures disturbances + Budget(script) <= old(disturbances) + old(Budget(script))
      ensures unlocked ==> !locked && !resetFailed && !Fits(max, data, queue[0].op)
      ensures !unlocked ==> disturbances > mark && Snapshot(w', |queue|, disturbances)
    {
      ghost var q := queue;
      unlocked, w' := KeepOrAdd(w, transferred, resetFailed, k, mark);
      assert forall j :: |q| - k <= j < |queue| ==> fresh(queue[j]);
      PrevAfterCommit(q, k, n, n - k);
      FrontIsGone(q, k);
    }

    /** The first `k` entries of `q` form a chain of served entries that await their results. */
    ghost predicate Chain(q: seq<Entry>, k: nat)
      requires k <= |q|
      reads this, q`next, q`result
    {
      && Distinct(q[..k]) && NextOk(q[..k], 0) && Pending(q[..k])
      && (forall i, j :: 0 <= i < k && 0 <= j < |queue| ==> q[i] != queue[j])
    }

    /** Ends a round that does not reset the queue. */
    method EndRound(w: Word, entry: Entry, transferred: nat, resetFailed: bool, ghost k: nat, ghost n: nat, ghost mark: nat)
      returns (unlocked: bool, w': Word)
      requires Valid() && cut == 0
      requires k < n <= |queue| && Snapshot(w, n, mark) && PrevSet(queue, n) && entry == queue[k]
      requires transferred == SumAcquired(Waiters(queue)[..k])
      requires if resetFailed then disturbances > mark else !FitsAfter(max, w.data, Waiters(queue), k)
      modifies this, entry`next
      ensures Valid() && cut == 0 && PrevSet(queue, n - k)
      ensures Chain(old(queue), k) && old(queue)[k..] <= queue && queue[0] == entry
      ensures NoStrangers()
      ensures data + released == old(data) + old(released) + transferred && old(released) <= released
      ensures transferred <= data <= w.data + transferred
      ensures old(disturbances) <= disturbances
      ensures disturbances + Budget(script) <= old(disturbances) + old(Budget(script))
      ensures unlocked ==> !locked && !resetFailed && !Fits(max, data, queue[0].op)
      ensures !unlocked ==> disturbances > mark && Snapshot(w', |queue|, disturbances)
    {
      ghost var q := queue;
      Cut(entry, k, n);
      unlocked, w' := Commit(w, transferred, resetFailed, k, n, mark);
      assert q[k..][0] == entry;
    }

    twostate lemma CutKeepsPrev(n: nat)
      requires queue == old(queue)
      requires old(PrevSet(queue, n))
      requires forall i :: 0 <= i < |queue| ==> queue[i].prev == old(queue[i].prev)
      ensures PrevSet(queue, n)
    {
      forall i | 0 <= i < |queue|
        ensures PrevAt(queue, n, i)
      {
        assert old(PrevAt(queue, n, i));
      }
    }

    lemma WaitersOfPrefix(q: seq<Entry>, q': seq<Entry>, k: nat)
      requires k <= |q| && q <= q'
      ensures Waiters(q)[..k] == Waiters(q')[..k] == Waiters(q[..k])
    {
    }

    /** The whole queue was legal to serve, so it is the greedy prefix of itself. */
    lemma ResetServesAll(q: seq<Entry>, d: nat, k: nat)
      requires k + 1 == |q|
      requires LegalGrants(max, d, Waiters(q), k) && FitsAfter(max, d, Waiters(q), k)
      ensures Greedy(max, d, Waiters(q)) == |q| && LegalGrants(max, d, Waiters(q), |q|)
      ensures Waiters(q)[..|q|] == Waiters(q)
      ensures SumAcquired(Waiters(q)) == SumAcquired(Waiters(q)[..k]) + q[k].op.Acquired()
    {
      GreedyIsUnique(max, d, Waiters(q), |q|);
      SumNext(Waiters(q), k);
      assert Waiters(q)[..k + 1] == Waiters(q);
    }

    lemma ChainOfPrefix(q: seq<Entry>, q': seq<Entry>, k: nat)
      requires k <= |q| && q <= q'
      requires Chain(q', k) && q'[k..] <= queue
      ensures Chain(q, k) && q[k..] <= queue
    {
      assert q[..k] == q'[..k];
      forall i, j | 0 <= i < k && 0 <= j < |queue|
        ensures q[i] != queue[j]
      {
        assert q[i] == q'[i];
      }
    }

    /** The part of a round in which the processor may reset the queue. */
    method Attempt(w: Word, head: Entry, ghost n: nat, ghost mark: nat)
      returns (unlocked: bool, entry: Entry, transferred: nat, resolved: Entry?, fits: bool, ghost k: nat)
      requires Valid() && cut == 0
      requires 0 < n <= |queue| && Snapshot(w, n, mark) && PrevSet(queue, n) && head == queue[0]
      modifies this
      ensures Valid() && cut == 0
      ensures k < n && entry == old(queue)[k]
      ensures transferred == SumAcquired(Waiters(old(queue))[..k])
      ensures resolved == if k == 0 then null else old(queue)[k - 1]
      ensures LegalGrants(max, w.data, Waiters(old(queue)), k)
      ensures fits == FitsAfter(max, w.data, Waiters(old(queue)), k)
      ensures disturbances + Budget(script) <= old(disturbances) + old(Budget(script))
      ensures unlocked ==>
                && !locked && queue == [] && fits && k + 1 == |old(queue)|
                && data == w.data + transferred + entry.op.Acquired() && w.data == old(data)
                && released == old(released) && disturbances == old(disturbances)
      ensures !unlocked ==>
                && old(queue) <= queue && PrevSet(queue, n) && NoStrangers()
                && data + released == old(data) + old(released) && old(released) <= released
                && old(disturbances) <= disturbances && Snapshot(w, n, mark)
                && (fits ==> disturbances > mark)
    {
      ghost var q := queue;
      entry, k, transferred, resolved, fits := Scan(w, head, n);
      unlocked := false;
      if fits {
        unlocked := TryReset(w, w.data + transferred + entry.op.Acquired(), n, mark);
        if !unlocked {
          PrevAfterCommit(q, 0, n, n);
        }
      }
    }

    /** The end of a round in which the queue could not be reset. */
    method SettleRest(w: Word, entry: Entry, transferred: nat, fits: bool, ghost q: seq<Entry>, ghost k: nat, ghost n: nat, ghost mark: nat)
      returns (unlocked: bool, w': Word)
      requires Valid() && cut == 0
      requires k < n <= |q| && q <= queue && entry == q[k]
      requires Snapshot(w, n, mark) && PrevSet(queue, n)
      requires transferred == SumAcquired(Waiters(q)[..k])
      requires LegalGrants(max, w.data, Waiters(q), k)
      requires if fits then disturbances > mark else !FitsAfter(max, w.data, Waiters(q), k)
      modifies this, entry`next
      ensures Valid() && cut == 0 && PrevSet(queue, n - k)
      ensures Chain(q, k) && q[k..] <= queue && queue[0] == entry
      ensures NoStrangers()
      ensures data + released == old(data) + old(released) + transferred && old(released) <= released
      ensures transferred <= data <= w.data + transferred
      ensures old(disturbances) <= disturbances
      ensures disturbances + Budget(script) <= old(disturbances) + old(Budget(script))
      ensures unlocked ==>
                !locked && !Fits(max, data, queue[0].op) && k == Greedy(max, w.data, Waiters(q))
      ensures !unlocked ==> disturbances > mark && Snapshot(w', |queue|, disturbances)
    {
      ghost var q' := queue;
      WaitersOfPrefix(q, q', k);
      FitsOfPrefix(w.data, q, q', k);
      unlocked, w' := EndRound(w, entry, transferred, fits, k, n, mark);
      ChainOfPrefix(q, q', k);
      if unlocked {
        GreedyIsUnique(max, w.data, Waiters(q), k);
      }
    }

    lemma FitsOfPrefix(d: nat, q: seq<Entry>, q': seq<Entry>, k: nat)
      requires k < |q| && q <= q'
      ensures FitsAfter(max, d, Waiters(q), k) == FitsAfter(max, d, Waiters(q'), k)
    {
      WaitersOfPrefix(q, q', k);
    }

    /** Delivers the results of a round that reset the queue. */
    method DeliverAll(entry: Entry, ghost q: seq<Entry>)
      requires Valid() && queue == []
      requires q != [] && Distinct(q) && NextOk(q, 0) && Pending(q) && entry == q[|q| - 1]
      modifies q
      ensures unchanged(this)
      ensures Valid()
      ensures forall i :: 0 <= i < |q| ==> q[i].result == Some(0)
    {
      DeliverChain(entry, q);
    }

    /** Delivers the results of a round that leaves entry `k` of `q` at the head of the queue. */
    method DeliverSome(resolved: Entry?, ghost q: seq<Entry>, ghost k: nat, ghost n: nat)
      requires Valid() && k < n <= |q| && Chain(q, k) && PrevSet(queue, n - k)
      requires resolved == if k == 0 then null else q[k - 1]
      modifies q[..k]
      ensures unchanged(this)
      ensures Valid() && PrevSet(queue, n - k)
      ensures forall i :: 0 <= i < k ==> q[i].result == Some(0)
    {
      Deliver(resolved, q[..k], n - k);
      assert forall i :: 0 <= i < k ==> q[..k][i] == q[i];
    }

    /** What one round has done: the first `k` entries of `q` were served and have left the queue. */
    ghost predicate Served(q: seq<Entry>, k: nat)
      reads this, q
    {
      && k <= |q| && q[k..] <= queue
      && (forall i :: 0 <= i < k ==> q[i].result == Some(0) && q[i] !in queue)
    }

    /** Commits, and delivers what has been committed. */
    method SettleAndDeliver(w: Word, entry: Entry, transferred: nat, resolved: Entry?, fits: bool,
                            ghost q: seq<Entry>, ghost k: nat, ghost n: nat, ghost mark: nat)
      returns (unlocked: bool, w': Word)
      requires Valid() && cut == 0
      requires k < n <= |q| && q <= queue && entry == q[k]
      requires resolved == if k == 0 then null else q[k - 1]
      requires Snapshot(w, n, mark) && PrevSet(queue, n)
      requires transferred == SumAcquired(Waiters(q)[..k])
      requires LegalGrants(max, w.data, Waiters(q), k)
      requires if fits then disturbances > mark else !FitsAfter(max, w.data, Waiters(q), k)
      modifies this, q
      ensures Valid() && cut == 0 && PrevSet(queue, n - k)
      ensures Served(q, k) && queue[0] == entry
      ensures NoStrangers()
      ensures data + released == old(data) + old(released) + transferred && old(released) <= released
      ensures transferred <= data <= w.data + transferred
      ensures old(disturbances) <= disturbances
      ensures disturbances + Budget(script) <= old(disturbances) + old(Budget(script))
      ensures unlocked ==>
                !locked && !Fits(max, data, queue[0].op) && k == Greedy(max, w.data, Waiters(q))
      ensures !unlocked ==> disturbances > mark && Snapshot(w', |queue|, disturbances)
    {
      unlocked, w' := SettleRest(w, entry, transferred, fits, q, k, n, mark);
      DeliverSome(resolved, q, k, n);
    }

    /** With the count at `d`, others released `freed`, and then the waiters were granted at once. */
    ghost predicate LegalBatch(d: nat, freed: int, waiters: seq<Waiter>) {
      0 <= freed <= d && LegalGrants(max, d - freed, waiters, |waiters|)
    }

    /** A prefix that is legal under the snapshot is legal from the count at the commit, which is lower. */
    lemma BatchIsLegal(d: nat, freed: int, snapshot: nat, q: seq<Waiter>, k: nat)
      requires k <= |q| && LegalGrants(max, snapshot, q, k)
      requires 0 <= freed <= d && d - freed <= snapshot
      ensures LegalBatch(d, freed, q[..k])
    {
      LegalGrantsWithLess(max, snapshot, d - freed, q, k);
      LegalGrantsOfFront(max, d - freed, q, k);
    }

    /** One round of `process_wait_queue`: `k` entries at the head of the queue are served. */
    method Round(w: Word, head: Entry, ghost n: nat, ghost mark: nat)
      returns (unlocked: bool, w': Word, head': Entry, ghost k: nat)
      requires Valid() && cut == 0
      requires 0 < n <= |queue| && Snapshot(w, n, mark) && PrevSet(queue, n) && head == queue[0]
      modifies this, queue
      ensures Valid() && cut == 0
      ensures Served(old(queue), k) && NoStrangers()
      ensures data + released == old(data) + old(released) + SumAcquired(Waiters(old(queue))[..k])
      ensures LegalBatch(old(data), released - old(released), Waiters(old(queue))[..k])
      ensures old(disturbances) <= disturbances
      ensures disturbances + Budget(script) <= old(disturbances) + old(Budget(script))
      ensures unlocked ==> !locked && k == Greedy(max, w.data, Waiters(old(queue)))
      ensures unlocked && queue != [] ==> !Fits(max, data, queue[0].op)
      ensures !unlocked ==> disturbances > mark && Snapshot(w', |queue|, disturbances)
      ensures !unlocked ==> k < n && PrevSet(queue, n - k) && head' == queue[0]
    {
      ghost var q := queue;
      var transferred, resolved, fits;
      unlocked, head', transferred, resolved, fits, k := Attempt(w, head, n, mark);
      w' := w;
      if unlocked {
        ResetServesAll(q, w.data, k);
        k := |q|;
        DeliverAll(head', q);
      } else {
        unlocked, w' := SettleAndDeliver(w, head', transferred, resolved, fits, q, k, n, mark);
      }
      BatchIsLegal(old(data), released - old(released), w.data, Waiters(q), k);
    }

    /** Finds the head of the snapshot and makes `prev` lead from there to the snapshot's tail. */
    method Walk(tailEntry: Entry, head: Entry?, ghost m: int, ghost n: nat) returns (head': Entry)
      requires Valid() && cut == 0
      requires 0 < n <= |queue| && tailEntry == queue[n - 1]
      requires if head == null then forall i :: n - 1 <= i < |queue| ==> PrevAt(queue, 0, i)
               else head == queue[0] && 0 < m <= n && PrevSet(queue, m)
      modifies queue`prev
      ensures unchanged(this)
      ensures Valid() && PrevSet(queue, n) && head' == queue[0]
    {
      if head == null {
        head' := FindHead(tailEntry, n);
      } else {
        SetPrev(tailEntry, m, n);
        head' := head;
      }
    }

    /** These entries have left the queue with their results. */
    ghost predicate Done(served: seq<Entry>)
      reads this, served`result
    {
      forall i :: 0 <= i < |served| ==> served[i].result == Some(0) && served[i] !in queue
    }

    twostate lemma DoneStaysDone(served: seq<Entry>)
      requires old(Done(served))
      requires NoStrangers()
      requires forall i :: 0 <= i < |served| ==> served[i].result == old(served[i].result)
      ensures Done(served)
    {
    }

    /** The entries served in this round continue those served before. */
    lemma GrowServed(first: seq<Entry>, served: seq<Entry>, q: seq<Entry>, k: nat)
      requires k <= |q| && first <= served + q
      requires q[k..] <= queue
      ensures first <= served + q[..k] + queue
      ensures Waiters(served + q[..k]) == Waiters(served) + Waiters(q)[..k]
      ensures SumAcquired(Waiters(served + q[..k])) == SumAcquired(Waiters(served)) + SumAcquired(Waiters(q)[..k])
    {
      assert served + q == served + q[..k] + q[k..];
      assert Waiters(served + q[..k]) == Waiters(served) + Waiters(q)[..k];
      SumAcquiredAppend(Waiters(served), Waiters(q)[..k]);
    }

    /** One pass through the loop of `process_wait_queue`. */
    method Pass(w: Word, head: Entry?, ghost m: int)
      returns (unlocked: bool, w': Word, head': Entry, ghost m': int, ghost k: nat)
      requires Valid() && cut == 0 && queue != []
      requires Snapshot(w, |queue|, disturbances)
      requires head != null ==> head == queue[0] && 0 < m <= |queue| && PrevSet(queue, m)
      modifies this, queue
      ensures Valid() && cut == 0
      ensures Served(old(queue), k) && NoStrangers()
      ensures data + released == old(data) + old(released) + SumAcquired(Waiters(old(queue))[..k])
      ensures LegalBatch(old(data), released - old(released), Waiters(old(queue))[..k])
      ensures old(disturbances) <= disturbances
      ensures disturbances + Budget(script) <= old(disturbances) + old(Budget(script))
      ensures unlocked ==> !locked && k == Greedy(max, old(data), Waiters(old(queue)))
      ensures unlocked && queue != [] ==> !Fits(max, data, queue[0].op)
      ensures !unlocked ==> disturbances > old(disturbances) && Snapshot(w', |queue|, disturbances)
      ensures !unlocked ==> head' == queue[0] && 0 < m' <= |queue| && PrevSet(queue, m')
    {
      ghost var q := queue;
      assert PrevAt(q, 0, |q| - 1);
      head' := Walk(w.tail, head, m, |q|);
      assert unchanged(this);
      unlocked, w', head', k := Round(w, head', |q|, disturbances);
      m' := |q| - k;
    }

    /**
     The state of `process_wait_queue` that started from the entries `first`, the count `d`, the
     releases `r` and the disturbances `x`, and has served the entries `served` in the batches `log`.
     */
    ghost predicate Progress(first: seq<Entry>, d: nat, r: nat, x: nat, served: seq<Entry>, log: seq<Batch>)
      reads this, queue, served`result
    {
      && Valid() && cut == 0
      && first <= served + queue
      && Done(served)
      && Waiters(served) == GrantsOf(log)
      && LegalLog(max, d, log) && CountAfter(d, log) == data
      && data + released == d + r + SumAcquired(Waiters(served))
      && x <= disturbances
    }

    /** Another round follows, from the snapshot `w`. */
    ghost predicate Running(first: seq<Entry>, d: nat, r: nat, x: nat, served: seq<Entry>, log: seq<Batch>,
                            w: Word, head: Entry?, m: int)
      reads this, queue, served`result
    {
      && Progress(first, d, r, x, served, log)
      && queue != [] && Snapshot(w, |queue|, disturbances)
      && |log| <= disturbances - x
      && if head == null then log == [] && served == [] && queue == first && data == d && disturbances == x
         else head == queue[0] && 0 < m <= |queue| && PrevSet(queue, m) && disturbances > x
    }

    /** The word has been unlocked. */
    ghost predicate Finished(first: seq<Entry>, d: nat, r: nat, x: nat, served: seq<Entry>, log: seq<Batch>)
      reads this, queue, served`result
    {
      && Progress(first, d, r, x, served, log)
      && !locked
      && (queue != [] ==> !Fits(max, data, queue[0].op) && !Servable(max, data, queue[0].op))
      && (disturbances == x ==> |served| == Greedy(max, d, Waiters(first)))
      && |log| <= 1 + disturbances - x
    }

    /** A pass that serves the first `k` entries of `q` advances the processing. */
    lemma PassIsProgress(first: seq<Entry>, d: nat, r: nat, x: nat, served: seq<Entry>, log: seq<Batch>,
                         q: seq<Entry>, k: nat, b: Batch, before: nat)
      requires Valid() && cut == 0
      requires first <= served + q && Done(served) && Served(q, k) && b.waiters == Waiters(q)[..k]
      requires Waiters(served) == GrantsOf(log) && LegalLog(max, d, log) && CountAfter(d, log) == before
      requires LegalBatch(before, b.freed, b.waiters)
      requires data == before - b.freed + SumAcquired(b.waiters)
      requires before + released - b.freed == d + r + SumAcquired(Waiters(served))
      requires x <= disturbances
      ensures Progress(first, d, r, x, served + q[..k], log + [b])
    {
      GrowServed(first, served, q, k);
      LogGrows(max, d, log, b);
    }

    method NextPass(w: Word, head: Entry?, ghost m: int, ghost first: seq<Entry>, ghost d: nat, ghost r: nat, ghost x: nat,
                    ghost served: seq<Entry>, ghost log: seq<Batch>)
      returns (unlocked: bool, w': Word, head': Entry, ghost m': int, ghost served': seq<Entry>, ghost log': seq<Batch>)
      requires Running(first, d, r, x, served, log, w, head, m)
      modifies this, queue
      ensures NoStrangers()
      ensures Budget(script) <= old(Budget(script))
      ensures unlocked ==> Finished(first, d, r, x, served', log')
      ensures !unlocked ==>
                && Running(first, d, r, x, served', log', w', head', m')
                && Budget(script) < old(Budget(script))
    {
      ghost var q, before, freed0 := queue, data, released;
      ghost var k;
      assert forall i :: 0 <= i < |served| ==> served[i] !in q;
      unlocked, w', head', m', k := Pass(w, head, m);
      DoneStaysDone(served);
      ghost var b := Batch(released - freed0, Waiters(q)[..k]);
      PassIsProgress(first, d, r, x, served, log, q, k, b, before);
      served', log' := served + q[..k], log + [b];
      if unlocked && queue != [] {
        FitsMeansServable(max, data, queue[0].op);
      }
    }

    lemma StartIsRunning(w: Word)
      requires Valid() && cut == 0 && queue != []
      requires Snapshot(w, |queue|, disturbances)
      ensures Running(queue, data, released, disturbances, [], [], w, null, 0)
    {
      assert Waiters([]) == [];
    }

    /**
     Processes the queue until the word is unlocked. The entries in `served` have left the queue at
     its head, each with its result, in the batches of `log`: every batch was legal to grant from the
     actual count at its time, after what others had released. The new head, if there is one, cannot
     be served. Every round but the first is due to at least one push or release by another thread;
     without any, the entries served are the greedy prefix of the queue.
     */
    method ProcessWaitQueue(state: Word) returns (ghost served: seq<Entry>, ghost log: seq<Batch>)
      requires Valid() && cut == 0 && queue != []
      requires Snapshot(state, |queue|, disturbances)
      modifies this, queue
      ensures Valid() && cut == 0 && !locked
      ensures old(queue) <= served + queue && NoStrangers() && Done(served)
      ensures Waiters(served) == GrantsOf(log)
      ensures LegalLog(max, old(data), log) && CountAfter(old(data), log) == data
      ensures data + released == old(data) + old(released) + SumAcquired(Waiters(served))
      ensures queue != [] ==> !Fits(max, data, queue[0].op) && !Servable(max, data, queue[0].op)
      ensures disturbances == old(disturbances) ==> |served| == Greedy(max, old(data), Waiters(old(queue)))
      ensures |log| <= 1 + disturbances - old(disturbances)
    {
      var w, head: Entry?, unlocked := state, null, false;
      ghost var first, d, r, x := queue, data, released, disturbances;
      ghost var m := 0;
      served, log := [], [];
      StartIsRunning(state);
      while !unlocked
        invariant forall i :: 0 <= i < |queue| ==> queue[i] in first || fresh(queue[i])
        invariant if unlocked then Finished(first, d, r, x, served, log)
                  else Running(first, d, r, x, served, log, w, head, m)
        decreases !unlocked, Budget(script)
      {
        unlocked, w, head, m, served, log := NextPass(w, head, m, first, d, r, x, served, log);
        forall i | 0 <= i < |queue|
          ensures queue[i] in first || fresh(queue[i])
        {
          assert queue[i] in queue;
        }
      }
    }

    // ---------- Removing an entry ----------

    /** `iter_forward` with `set_prev`, which stops at the entry that is being looked for. */
    method FindEntry(tailEntry: Entry, target: Entry) returns (found: bool, ghost i: nat)
      requires Valid() && cut == 0 && queue != [] && tailEntry == tail
      modifies queue`prev
      ensures unchanged(this)
      ensures Valid()
      ensures found == (target in queue)
      ensures found ==>
                && i < |queue| && queue[i] == target && NextAt(queue, 0, i)
                && target.prev == if i + 1 < |queue| then queue[i + 1] else null
    {
      var entry: Entry? := tailEntry;
      i := |queue|;
      while entry != null
        invariant 0 <= i <= |queue|
        invariant entry == if i > 0 then queue[i - 1] else null
        invariant unchanged(this) && PrevOk(queue) && NextOk(queue, cut)
        invariant 0 < i < |queue| ==> queue[i - 1].prev == queue[i]
        invariant target !in queue[i..]
        decreases i
      {
        i := i - 1;
        assert NextAt(queue, cut, i);
        var nextEntry := entry.next;
        if nextEntry != null {
          nextEntry.prev := entry;
        }
        if entry == target {
          assert NextAt(queue, cut, i);
          return true, i;
        }
        entry := nextEntry;
      }
      found := false;
    }

    /** The links of the queue without its entry `i`. */
    twostate lemma LinksWithoutEntry(i: nat)
      requires old(Valid()) && old(cut) == cut == 0
      requires i + 1 < old(|queue|) && queue == RemoveAt(old(queue), i)
      requires tail == old(tail)
      requires forall j :: 0 <= j < |old(queue)| && j != i - 1 ==> old(queue)[j].prev == old(queue[j].prev)
      requires forall j :: 0 <= j < |old(queue)| && j != i + 1 ==> old(queue)[j].next == old(queue[j].next)
      requires forall j :: 0 <= j < |old(queue)| ==> old(queue)[j].result == old(queue[j].result)
      requires old(queue)[i + 1].next == if i > 0 then old(queue)[i - 1] else null
      requires i > 0 ==> old(queue)[i - 1].prev == old(queue)[i + 1]
      ensures Valid()
    {
      ghost var q := old(queue);
      forall j | 0 <= j < |queue|
        ensures NextAt(queue, 0, j)
      {
        assert queue[j] == if j < i then q[j] else q[j + 1];
        assert old(NextAt(q, 0, if j < i then j else j + 1));
      }
      assert forall j :: 0 <= j < |queue| ==> queue[j] == if j < i then q[j] else q[j + 1];
    }

    /** An entry that is not the tail is unlinked without any change to the word. */
    method Unlink(entry: Entry, ghost i: nat)
      requires Valid() && cut == 0 && i + 1 < |queue|
      requires entry == queue[i] && NextAt(queue, 0, i) && entry.prev == queue[i + 1]
      modifies queue`prev, queue`next, this`queue
      ensures Valid() && queue == RemoveAt(old(queue), i)
      ensures entry !in queue
    {
      var prevEntry, nextEntry := entry.prev, entry.next;
      if nextEntry != null {
        nextEntry.prev := prevEntry;
      }
      prevEntry.next := entry.next;
      queue := RemoveAt(queue, i);
      LinksWithoutEntry(i);
    }

    /** The CAS that makes the entry in front of the tail the new tail. */
    method TryDropTail(w: Word, entry: Entry) returns (ok: bool, w': Word)
      requires Valid() && cut == 0 && |queue| > 1 && Snapshot(w, |queue|, disturbances)
      requires entry == tail && NextAt(queue, 0, |queue| - 1)
      modifies this, queue`prev
      ensures Valid() && cut == 0 && w' == Word(data, locked, tail)
      ensures ok ==>
                && queue == old(queue)[..|old(queue)| - 1]
                && locked && data == old(data) && released == old(released) && disturbances == old(disturbances)
                && Budget(script) <= old(Budget(script))
      ensures !ok ==> Rely() && disturbances > old(disturbances)
    {
      var nextEntry := entry.next;
      nextEntry.prev := null;
      Interfere();
      ok := data == w.data && locked == w.locked && tail == w.tail;
      if ok {
        DropTail(nextEntry);
      }
      w' := Word(data, locked, tail);
    }

    /** The new tail is the entry in front of the old one. */
    method DropTail(newTail: Entry)
      requires Valid() && cut == 0 && |queue| > 1
      requires newTail == queue[|queue| - 2] && newTail.prev == null
      modifies this`tail, this`queue
      ensures Valid() && queue == old(queue)[..|old(queue)| - 1]
    {
      tail := newTail;
      queue := queue[..|queue| - 1];
      forall i | 0 <= i < |queue|
        ensures NextAt(queue, 0, i)
      {
        assert NextAt(old(queue), 0, i);
      }
    }

    /** The CAS that resets the queue and unlocks the word when the only entry leaves. */
    method TryDropSole(w: Word) returns (ok: bool, w': Word)
      requires Valid() && cut == 0 && |queue| == 1 && Snapshot(w, |queue|, disturbances)
      modifies this
      ensures Valid() && cut == 0 && w' == Word(data, locked, tail)
      ensures ok ==>
                && queue == [] && !locked
                && data == old(data) && released == old(released) && disturbances == old(disturbances)
                && Budget(script) <= old(Budget(script))
      ensures !ok ==> Rely() && disturbances > old(disturbances)
    {
      ok := TryReset(w, w.data, 1, disturbances);
      w' := Word(data, locked, tail);
    }

    /** What `remove_wait_queue_entry` has done to the queue `q` by taking out its entry `i`. */
    ghost predicate Removed(q: seq<Entry>, i: nat)
      reads this
    {
      && i < |q| && RemoveAt(q, i) <= queue && q[i] !in queue
    }

    /** Takes the entry that has been found out of the queue, unless the word has changed. */
    method TryRemove(w: Word, entry: Entry, ghost i: nat) returns (ok: bool, w': Word)
      requires Valid() && cut == 0 && i < |queue| && Snapshot(w, |queue|, disturbances)
      requires entry == queue[i] && NextAt(queue, 0, i)
      requires entry.prev == if i + 1 < |queue| then queue[i + 1] else null
      modifies this, queue`prev, queue`next
      ensures Valid() && cut == 0
      ensures ok ==>
                && queue == RemoveAt(old(queue), i) && entry !in queue
                && locked == (queue != [])
                && data == old(data) && released == old(released) && disturbances == old(disturbances)
                && Budget(script) <= old(Budget(script))
      ensures !ok ==> Rely() && disturbances > old(disturbances)
      ensures w' == Word(data, locked, tail)
    {
      if entry.prev != null {
        Unlink(entry, i);
        ok, w' := true, w;
      } else if entry.next != null {
        ok, w' := TryDropTail(w, entry);
        assert old(queue)[i + 1..] == [];
      } else {
        ok, w' := TryDropSole(w);
        assert RemoveAt(old(queue), i) == [];
      }
    }

    /** One pass through the loop of `remove_wait_queue_entry`. */
    method RemovePass(w: Word, target: Entry) returns (done: bool, w': Word, removed: bool, ghost i: nat)
      requires Valid() && cut == 0 && queue != [] && w == Word(data, locked, tail) && locked
      modifies this, queue`prev, queue`next
      ensures Valid() && cut == 0 && w' == Word(data, locked, tail)
      ensures locked == (queue != [])
      ensures removed == (target in old(queue))
      ensures !done ==> removed && Rely() && disturbances > old(disturbances) && locked
      ensures done ==>
                && data == old(data) && released == old(released) && disturbances == old(disturbances)
                && Budget(script) <= old(Budget(script))
      ensures done && !removed ==> queue == old(queue)
      ensures done && removed ==>
                && i < |old(queue)| && old(queue)[i] == target
                && queue == RemoveAt(old(queue), i) && target !in queue
    {
      done, w' := true, w;
      removed, i := FindEntry(w.tail, target);
      if removed {
        done, w' := TryRemove(w, target, i);
      }
    }

    /** An entry that was queued from the start is at the same position when the queue has grown. */
    lemma RemovedFromGrown(q: seq<Entry>, q': seq<Entry>, i: nat)
      requires q <= q' && Distinct(q') && i < |q'| && q'[i] in q
      requires queue == RemoveAt(q', i) && q'[i] !in queue
      ensures Removed(q, i) && q[i] == q'[i]
    {
      var j :| 0 <= j < |q| && q[j] == q'[i];
      assert q'[j] == q[j];
      assert q'[..i] == q[..i] && q'[i + 1..|q|] == q[i + 1..];
    }

    /**
     Takes one entry out of the queue. It is found exactly if it is queued, and then it alone
     leaves; the order of the others stays, whoever is pushed meanwhile queues up behind them, and
     every retry is due to such a push or to a release. When no entry is left the word is unlocked.
     */
    method RemoveEntry(state: Word, target: Entry) returns (w: Word, removed: bool, ghost i: nat, ghost passes: nat)
      requires Valid() && cut == 0 && queue != [] && Snapshot(state, |queue|, disturbances)
      modifies this, queue`prev, queue`next
      ensures Valid() && cut == 0 && w == Word(data, locked, tail)
      ensures removed == (target in old(queue))
      ensures removed ==> Removed(old(queue), i) && old(queue)[i] == target
      ensures !removed ==> queue == old(queue)
      ensures locked == (queue != []) && NoStrangers()
      ensures data + released == old(data) + old(released) && old(released) <= released
      ensures disturbances == old(disturbances) ==> data == old(data)
      ensures passes <= 1 + disturbances - old(disturbances)
      ensures disturbances + Budget(script) <= old(disturbances) + old(Budget(script))
    {
      ghost var q := queue;
      var done := false;
      w, removed, i, passes := state, false, 0, 0;
      while !done
        invariant Valid() && cut == 0 && w == Word(data, locked, tail)
        invariant locked == (queue != [])
        invariant !done ==> locked && q <= queue
        invariant done ==> removed == (target in q) && if removed then Removed(q, i) && q[i] == target else queue == q
        invariant !done && queue != q ==> target in q
        invariant forall j :: 0 <= j < |queue| ==> queue[j] in q || fresh(queue[j])
        invariant data + released == old(data) + old(released) && old(released) <= released
        invariant passes <= disturbances - old(disturbances) + if done then 1 else 0
        invariant disturbances == old(disturbances) ==> data == old(data)
        invariant disturbances + Budget(script) <= old(disturbances) + old(Budget(script))
        decreases !done, Budget(script)
      {
        ghost var q' := queue;
        done, w, removed, i := RemovePass(w, target);
        passes := passes + 1;
        if done && removed {
          RemovedFromGrown(q, q', i);
        }
      }
    }

    method ProcessIfLocked(w: Word, ghost expected: seq<Entry>) returns (ghost served: seq<Entry>, ghost log: seq<Batch>)
      requires Valid() && cut == 0 && w == Word(data, locked, tail) && locked == (queue != [])
      requires expected <= queue
      modifies this, queue
      ensures Valid() && cut == 0 && !locked
      ensures expected <= served + queue && Done(served) && NoStrangers()
      ensures Waiters(served) == GrantsOf(log)
      ensures LegalLog(max, old(data), log) && CountAfter(old(data), log) == data
      ensures data + released == old(data) + old(released) + SumAcquired(Waiters(served))
      ensures queue != [] ==> !Fits(max, data, queue[0].op) && !Servable(max, data, queue[0].op)
    {
      served, log := [], [];
      assert Waiters(served) == [] && served + queue == queue;
      if w.locked {
        served, log := ProcessWaitQueue(w);
      }
    }

    /** An entry without a result is not among those that were served. */
    lemma TargetIsOut(target: Entry, served: seq<Entry>)
      requires Done(served) && target.result == None && target !in queue
      ensures target !in served + queue
    {
    }

    /** What follows a removal: the queue is processed, and the entry that was taken out stays out. */
    method ServeOthers(w: Word, target: Entry, ghost out: bool, ghost expected: seq<Entry>)
      returns (ghost served: seq<Entry>, ghost log: seq<Batch>)
      requires Valid() && cut == 0 && w == Word(data, locked, tail) && locked == (queue != [])
      requires expected <= queue && (out ==> target !in queue && target.result == None)
      modifies this, queue
      ensures Valid() && cut == 0 && !locked
      ensures expected <= served + queue && Done(served)
      ensures out ==> target.result == None && target !in served + queue
      ensures Waiters(served) == GrantsOf(log)
      ensures LegalLog(max, old(data), log) && CountAfter(old(data), log) == data
      ensures data + released == old(data) + old(released) + SumAcquired(Waiters(served))
      ensures queue != [] ==> !Fits(max, data, queue[0].op) && !Servable(max, data, queue[0].op)
    {
      served, log := ProcessIfLocked(w, expected);
      if out {
        TargetIsOut(target, served);
      }
    }

    /**
     `force_remove_wait_queue_entry` once it has set LOCKED: the entry leaves the queue without a
     result, or it has left before; then whoever can be served is served, in order and legally, from
     the count that the releases meanwhile have left.
     */
    method RemoveAndProcess(state: Word, target: Entry)
      returns (removed: bool, ghost i: nat, ghost served: seq<Entry>, ghost left: nat, ghost log: seq<Batch>)
      requires Valid() && cut == 0 && queue != [] && Snapshot(state, |queue|, disturbances)
      modifies this, queue
      ensures Valid() && cut == 0 && !locked
      ensures removed == (target in old(queue))
      ensures removed ==>
                && i < |old(queue)| && old(queue)[i] == target && target.result == None
                && RemoveAt(old(queue), i) <= served + queue && target !in served + queue
      ensures !removed ==> old(queue) <= served + queue
      ensures Done(served) && Waiters(served) == GrantsOf(log)
      ensures left <= old(data) && LegalLog(max, left, log) && CountAfter(left, log) == data
      ensures data + released == old(data) + old(released) + SumAcquired(Waiters(served))
      ensures queue != [] ==> !Fits(max, data, queue[0].op) && !Servable(max, data, queue[0].op)
    {
      var w;
      ghost var q := queue;
      ghost var passes;
      w, removed, i, passes := RemoveEntry(state, target);
      left := data;
      assert forall j :: 0 <= j < |queue| ==> queue[j] in q || fresh(queue[j]);
      served, log := ServeOthers(w, target, removed, if removed then RemoveAt(q, i) else q);
    }
  }
}
