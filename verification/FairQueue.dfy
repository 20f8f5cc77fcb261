/** The wait queue as a plain sequence: what the concurrent protocol is meant to implement. */
module FairQueue {
  import opened Opcodes

  datatype Option<+T> = None | Some(value: T)

  /** A queued request. Identifiers are handed out in the order of the pushes. */
  datatype Waiter = Waiter(id: nat, op: Opcode)

  /** A grant that has not been released; `claimed` once its owner has seen the result. */
  datatype Owner = Owner(id: nat, op: Opcode, claimed: bool)

  // ---------- Sequences ----------

  function IndexOf<T(==)>(s: seq<T>, x: T): (i: nat)
    ensures i <= |s|
    ensures i < |s| ==> s[i] == x
    ensures x in s <==> i < |s|
    ensures x !in s[..i]
  {
    if s == [] then 0 else if s[0] == x then 0 else 1 + IndexOf(s[1..], x)
  }

  function RemoveAt<T>(s: seq<T>, i: nat): (r: seq<T>)
    requires i < |s|
    ensures |r| == |s| - 1
  {
    s[..i] + s[i + 1..]
  }

  ghost predicate Distinct<T>(s: seq<T>) {
    forall i, j :: 0 <= i < j < |s| ==> s[i] != s[j]
  }

  lemma {:induction false} DistinctMeansOnce<T>(s: seq<T>, x: T)
    requires Distinct(s)
    ensures multiset(s)[x] == if x in s then 1 else 0
    decreases |s|
  {
    if s != [] {
      assert s == [s[0]] + s[1..];
      assert Distinct(s[1..]);
      DistinctMeansOnce(s[1..], x);
    }
  }

  function Ids(q: seq<Waiter>): (r: seq<nat>)
    ensures |r| == |q|
    ensures forall i :: 0 <= i < |q| ==> r[i] == q[i].id
  {
    seq(|q|, i requires 0 <= i < |q| => q[i].id)
  }

  /** The identifiers newest first: the order in which results are delivered. */
  function IdsNewestFirst(q: seq<Waiter>): (r: seq<nat>)
    ensures |r| == |q|
    ensures forall i :: 0 <= i < |q| ==> r[i] == q[|q| - 1 - i].id
  {
    seq(|q|, i requires 0 <= i < |q| => q[|q| - 1 - i].id)
  }

  function OwnersOf(q: seq<Waiter>): (r: seq<Owner>)
    ensures |r| == |q|
    ensures forall i :: 0 <= i < |q| ==> r[i] == Owner(q[i].id, q[i].op, false)
  {
    seq(|q|, i requires 0 <= i < |q| => Owner(q[i].id, q[i].op, false))
  }

  // ---------- Sums ----------

  function SumAcquired(q: seq<Waiter>): nat {
    if q == [] then 0 else q[0].op.Acquired() + SumAcquired(q[1..])
  }

  function SumOwned(owners: seq<Owner>): nat {
    if owners == [] then 0 else owners[0].op.Acquired() + SumOwned(owners[1..])
  }

  lemma {:induction false} SumAcquiredAppend(a: seq<Waiter>, b: seq<Waiter>)
    ensures SumAcquired(a + b) == SumAcquired(a) + SumAcquired(b)
  {
    if a == [] {
      assert a + b == b;
    } else {
      assert (a + b)[1..] == a[1..] + b;
      SumAcquiredAppend(a[1..], b);
    }
  }

  lemma {:induction false} SumOwnedAppend(a: seq<Owner>, b: seq<Owner>)
    ensures SumOwned(a + b) == SumOwned(a) + SumOwned(b)
  {
    if a == [] {
      assert a + b == b;
    } else {
      assert (a + b)[1..] == a[1..] + b;
      SumOwnedAppend(a[1..], b);
    }
  }

  lemma SumOwnedSplit(owners: seq<Owner>, i: nat)
    requires i < |owners|
    ensures SumOwned(owners) == SumOwned(owners[..i]) + owners[i].op.Acquired() + SumOwned(owners[i + 1..])
    ensures SumOwned(RemoveAt(owners, i)) == SumOwned(owners) - owners[i].op.Acquired()
  {
    var front, tail := owners[..i], owners[i..];
    assert owners == front + tail;
    SumOwnedAppend(front, tail);
    assert tail[0] == owners[i] && tail[1..] == owners[i + 1..];
    SumOwnedAppend(front, owners[i + 1..]);
  }

  lemma {:induction false} SumOwnersOf(q: seq<Waiter>)
    ensures SumOwned(OwnersOf(q)) == SumAcquired(q)
  {
    if q != [] {
      assert OwnersOf(q)[1..] == OwnersOf(q[1..]);
      SumOwnersOf(q[1..]);
    }
  }

  lemma SumNext(q: seq<Waiter>, k: nat)
    requires k < |q|
    ensures SumAcquired(q[..k + 1]) == SumAcquired(q[..k]) + q[k].op.Acquired()
  {
    assert q[..k + 1] == q[..k] + [q[k]];
    SumAcquiredAppend(q[..k], [q[k]]);
  }

  /** Two different owners together never hold more than all owners do. */
  lemma TwoOwnersWithinSum(owners: seq<Owner>, i: nat, j: nat)
    requires i < j < |owners|
    ensures owners[i].op.Acquired() + owners[j].op.Acquired() <= SumOwned(owners)
  {
    SumOwnedSplit(owners, j);
    SumOwnedSplit(owners[..j], i);
  }

  // ---------- The greedy grant ----------

  /** How many waiters at the head of the queue an undisturbed pass grants. */
  function Greedy(max: nat, data: nat, q: seq<Waiter>): (k: nat)
    ensures k <= |q|
    decreases |q|
  {
    if q == [] || !Fits(max, data, q[0].op) then 0
    else 1 + Greedy(max, data + q[0].op.Acquired(), q[1..])
  }

  /** Waiter `j` may inherit ownership once all the waiters before it have. */
  predicate FitsAfter(max: nat, data: nat, q: seq<Waiter>, j: nat)
    requires j < |q|
  {
    Fits(max, data + SumAcquired(q[..j]), q[j].op)
  }

  /** Granting the first `k` waiters one after the other is legal from `data`. */
  ghost predicate LegalGrants(max: nat, data: nat, q: seq<Waiter>, k: nat)
    requires k <= |q|
  {
    forall j :: 0 <= j < k ==> FitsAfter(max, data, q, j)
  }

  /** Releases by others cannot make a legal prefix illegal. */
  lemma LegalGrantsWithLess(max: nat, data: nat, less: nat, q: seq<Waiter>, k: nat)
    requires k <= |q|
    requires LegalGrants(max, data, q, k)
    requires less <= data
    ensures LegalGrants(max, less, q, k)
  {
    forall j | 0 <= j < k
      ensures FitsAfter(max, less, q, j)
    {
      assert FitsAfter(max, data, q, j);
    }
  }

  /** Later pushes do not change which prefixes are legal. */
  lemma LegalGrantsOfPrefix(max: nat, data: nat, q: seq<Waiter>, q': seq<Waiter>, k: nat)
    requires q <= q'
    requires k <= |q|
    requires LegalGrants(max, data, q, k)
    ensures LegalGrants(max, data, q', k)
  {
    forall j | 0 <= j < k
      ensures FitsAfter(max, data, q', j)
    {
      assert FitsAfter(max, data, q, j);
      assert q[..j] == q'[..j];
    }
  }

  lemma FitsAfterHead(max: nat, data: nat, q: seq<Waiter>, j: nat)
    requires j + 1 < |q|
    ensures FitsAfter(max, data + q[0].op.Acquired(), q[1..], j) == FitsAfter(max, data, q, j + 1)
  {
    assert q[..j + 1][1..] == q[1..][..j];
  }

  /** A legal prefix that cannot be extended is the greedy one. */
  lemma {:induction false} GreedyIsUnique(max: nat, data: nat, q: seq<Waiter>, k: nat)
    requires k <= |q|
    requires LegalGrants(max, data, q, k)
    requires k < |q| ==> !FitsAfter(max, data, q, k)
    ensures Greedy(max, data, q) == k
    decreases k
  {
    if k == 0 {
      assert q[..0] == [];
    } else {
      assert FitsAfter(max, data, q, 0);
      var rest, more := q[1..], data + q[0].op.Acquired();
      forall j | 0 <= j < k - 1
        ensures FitsAfter(max, more, rest, j)
      {
        assert FitsAfter(max, data, q, j + 1);
        FitsAfterHead(max, data, q, j);
      }
      if k < |q| {
        FitsAfterHead(max, data, q, k - 1);
      }
      GreedyIsUnique(max, more, rest, k - 1);
    }
  }

  /** The greedy prefix is legal, and it is maximal. */
  lemma {:induction false} GreedyIsMaximal(max: nat, data: nat, q: seq<Waiter>)
    ensures LegalGrants(max, data, q, Greedy(max, data, q))
    ensures Greedy(max, data, q) < |q| ==> !FitsAfter(max, data, q, Greedy(max, data, q))
    decreases |q|
  {
    if Greedy(max, data, q) == 0 {
      assert q[..0] == [];
    } else {
      var rest, more := q[1..], data + q[0].op.Acquired();
      GreedyIsMaximal(max, more, rest);
      forall j | 0 < j < |q|
        ensures FitsAfter(max, data, q, j) == FitsAfter(max, more, rest, j - 1)
      {
        FitsAfterHead(max, data, q, j - 1);
      }
      forall j | 0 <= j < Greedy(max, data, q)
        ensures FitsAfter(max, data, q, j)
      {
        if j == 0 {
          assert q[..0] == [];
        } else {
          assert FitsAfter(max, more, rest, j - 1);
        }
      }
    }
  }

  /** The first `k` waiters by themselves are as legal to grant as in front of the others. */
  lemma LegalGrantsOfFront(max: nat, data: nat, q: seq<Waiter>, k: nat)
    requires k <= |q|
    requires LegalGrants(max, data, q, k)
    ensures LegalGrants(max, data, q[..k], k)
  {
    forall j | 0 <= j < k
      ensures FitsAfter(max, data, q[..k], j)
    {
      assert FitsAfter(max, data, q, j);
      assert q[..k][..j] == q[..j];
    }
  }

  // ---------- Grants in several batches ----------

  /** Others released `freed` since the batch before, and then `waiters` were granted at once. */
  datatype Batch = Batch(freed: nat, waiters: seq<Waiter>)

  /** The count after all batches. */
  function CountAfter(data: int, log: seq<Batch>): int {
    if log == [] then data
    else CountAfter(data, log[..|log| - 1]) - log[|log| - 1].freed + SumAcquired(log[|log| - 1].waiters)
  }

  function GrantsOf(log: seq<Batch>): seq<Waiter> {
    if log == [] then [] else GrantsOf(log[..|log| - 1]) + log[|log| - 1].waiters
  }

  /** Every batch was legal from the actual count at its time. */
  ghost predicate LegalLog(max: nat, data: nat, log: seq<Batch>) {
    log == [] ||
    var before, last := CountAfter(data, log[..|log| - 1]), log[|log| - 1];
    && LegalLog(max, data, log[..|log| - 1])
    && last.freed <= before
    && LegalGrants(max, before - last.freed, last.waiters, |last.waiters|)
  }

  lemma LogGrows(max: nat, data: nat, log: seq<Batch>, b: Batch)
    requires LegalLog(max, data, log) && b.freed <= CountAfter(data, log)
    requires LegalGrants(max, CountAfter(data, log) - b.freed, b.waiters, |b.waiters|)
    ensures LegalLog(max, data, log + [b])
    ensures CountAfter(data, log + [b]) == CountAfter(data, log) - b.freed + SumAcquired(b.waiters)
    ensures GrantsOf(log + [b]) == GrantsOf(log) + b.waiters
  {
    assert (log + [b])[..|log|] == log;
  }

  /** What the primitives enqueue: nobody acquires more than is desired, or than there is. */
  predicate Bounded(op: Opcode) {
    op.Acquired() <= op.Desired() <= DATA_MASK
  }

  lemma {:induction false} BatchStaysInRange(max: nat, data: nat, q: seq<Waiter>, k: nat)
    requires k <= |q| && max <= DATA_MASK && data <= DATA_MASK
    requires LegalGrants(max, data, q, k)
    requires forall i :: 0 <= i < k ==> Bounded(q[i].op)
    ensures data + SumAcquired(q[..k]) <= DATA_MASK
    decreases k
  {
    if k > 0 {
      BatchStaysInRange(max, data, q, k - 1);
      SumNext(q, k - 1);
      assert FitsAfter(max, data, q, k - 1) && Bounded(q[k - 1].op);
    }
  }

  /** However many rounds there are and whatever others release, the count stays within its six bits. */
  lemma {:induction false} LegalLogStaysInRange(max: nat, data: nat, log: seq<Batch>)
    requires max <= DATA_MASK && data <= DATA_MASK && LegalLog(max, data, log)
    requires forall i, j :: 0 <= i < |log| && 0 <= j < |log[i].waiters| ==> Bounded(log[i].waiters[j].op)
    ensures 0 <= CountAfter(data, log) <= DATA_MASK
    decreases |log|
  {
    if log != [] {
      var front, last := log[..|log| - 1], log[|log| - 1];
      LegalLogStaysInRange(max, data, front);
      BatchStaysInRange(max, CountAfter(data, front) - last.freed, last.waiters, |last.waiters|);
      assert last.waiters[..|last.waiters|] == last.waiters;
    }
  }
}
