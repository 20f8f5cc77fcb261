/** Bitwise operations on machine words, and what masks select. */
module WordBits {

  function And(a: nat, b: nat): nat {
    if a == 0 then 0 else (a % 2) * (b % 2) + 2 * And(a / 2, b / 2)
  }

  function Or(a: nat, b: nat): nat
    decreases a + b
  {
    if a + b == 0 then 0 else (if a % 2 + b % 2 == 0 then 0 else 1) + 2 * Or(a / 2, b / 2)
  }

  /** Shift to the left. */
  function Shl(a: nat, k: nat): nat {
    if k == 0 then a else 2 * Shl(a, k - 1)
  }

  lemma {:induction false} AndZero(a: nat)
    ensures And(a, 0) == 0
  {
    if a != 0 {
      AndZero(a / 2);
    }
  }

  lemma {:induction false} OrZero(a: nat)
    ensures Or(0, a) == a && Or(a, 0) == a
  {
    if a != 0 {
      OrZero(a / 2);
    }
  }

  lemma AndOfHalves(a: nat, i: nat, b: nat, j: nat)
    requires i <= 1 && j <= 1
    ensures And(2 * a + i, 2 * b + j) == i * j + 2 * And(a, b)
  {
    assert (2 * a + i) / 2 == a && (2 * b + j) / 2 == b;
    assert (2 * a + i) % 2 == i && (2 * b + j) % 2 == j;
  }

  lemma OrOfHalves(a: nat, i: nat, b: nat, j: nat)
    requires i <= 1 && j <= 1
    ensures Or(2 * a + i, 2 * b + j) == (if i + j == 0 then 0 else 1) + 2 * Or(a, b)
  {
    assert (2 * a + i) / 2 == a && (2 * b + j) / 2 == b;
    assert (2 * a + i) % 2 == i && (2 * b + j) % 2 == j;
  }

  /** A mask of `k` ones selects the low bits. */
  lemma {:induction false} AndLow(high: nat, low: nat, k: nat)
    requires low < Shl(1, k)
    ensures And(Shl(high, k) + low, Shl(1, k) - 1) == low
    decreases k
  {
    if k == 0 {
      AndZero(high);
    } else {
      AndLow(high, low / 2, k - 1);
      AndOfHalves(Shl(high, k - 1) + low / 2, low % 2, Shl(1, k - 1) - 1, 1);
    }
  }

  /** Ones everywhere select everything. */
  lemma {:induction false} AndAll(a: nat, n: nat)
    requires a < Shl(1, n)
    ensures And(a, Shl(1, n) - 1) == a
    decreases n
  {
    if n > 0 {
      AndAll(a / 2, n - 1);
      AndOfHalves(a / 2, a % 2, Shl(1, n - 1) - 1, 1);
    }
  }

  /** In a word of `n` bits the complement of a mask of `k` ones selects the high bits. */
  lemma {:induction false} AndHigh(high: nat, low: nat, k: nat, n: nat)
    requires k <= n && low < Shl(1, k) <= Shl(1, n)
    requires Shl(high, k) + low < Shl(1, n)
    ensures And(Shl(high, k) + low, Shl(1, n) - Shl(1, k)) == Shl(high, k)
    decreases n
  {
    if k == 0 {
      AndAll(high, n);
    } else {
      AndHigh(high, low / 2, k - 1, n - 1);
      AndOfHalves(Shl(high, k - 1) + low / 2, low % 2, Shl(1, n - 1) - Shl(1, k - 1), 0);
    }
  }

  /** A single one selects a single bit. */
  lemma {:induction false} AndBit(high: nat, bit: nat, low: nat, k: nat)
    requires bit <= 1 && low < Shl(1, k)
    ensures And(Shl(2 * high + bit, k) + low, Shl(1, k)) == if bit == 1 then Shl(1, k) else 0
    decreases k
  {
    if k == 0 {
      AndZero(high);
      AndOfHalves(high, bit, 0, 1);
    } else {
      AndBit(high, bit, low / 2, k - 1);
      AndOfHalves(Shl(2 * high + bit, k - 1) + low / 2, low % 2, Shl(1, k - 1), 0);
    }
  }

  /** Setting a single bit. */
  lemma {:induction false} OrBit(high: nat, bit: nat, low: nat, k: nat)
    requires bit <= 1 && low < Shl(1, k)
    ensures Or(Shl(2 * high + bit, k) + low, Shl(1, k)) == Shl(2 * high + 1, k) + low
    decreases k
  {
    if k == 0 {
      OrZero(high);
      OrOfHalves(high, bit, 0, 1);
    } else {
      OrBit(high, bit, low / 2, k - 1);
      OrOfHalves(Shl(2 * high + bit, k - 1) + low / 2, low % 2, Shl(1, k - 1), 0);
    }
  }

  /** The disjunction of high bits and low bits is their sum. */
  lemma {:induction false} OrOfParts(high: nat, low: nat, k: nat)
    requires low < Shl(1, k)
    ensures Or(Shl(high, k), low) == Shl(high, k) + low
    ensures Or(low, Shl(high, k)) == Shl(high, k) + low
    decreases k
  {
    if k == 0 {
      OrZero(high);
    } else {
      OrOfParts(high, low / 2, k - 1);
      OrOfHalves(Shl(high, k - 1), 0, low / 2, low % 2);
      OrOfHalves(low / 2, low % 2, Shl(high, k - 1), 0);
    }
  }
}
