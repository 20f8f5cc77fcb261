/**
 The shared word of 64 bits: six bits of data, the LOCKED bit, and the address of the tail's anchor
 in the other bits. The protocol is proved over these three parts while the code computes with the
 word as a whole. Every expression that the code puts into the word is shown here to do to the
 parts what the protocol says, without a carry or a borrow from one part into the next.
 */
module StateWord {
  import opened Opcodes
  import opened WordBits

  const WORD_SIZE := 0x1_0000_0000_0000_0000

  /** Bitwise complement. */
  function Not(s: nat): nat
    requires s < WORD_SIZE
  {
    WORD_SIZE - 1 - s
  }

  const ADDR_MASK := Not(LOCKED_FLAG + DATA_MASK)

  /** The addresses that leave the tag bits free. */
  predicate IsAnchor(address: nat) {
    address < WORD_SIZE && address % 128 == 0
  }

  /** The parts of a word; `tail` is zero when nobody is queued. */
  datatype Word = Word(tail: nat, locked: bool, data: nat)

  predicate Fits64(w: Word) {
    IsAnchor(w.tail) && w.data <= DATA_MASK
  }

  /** The parts as the code reads them. */
  function Unpack(s: nat): Word {
    Word(And(s, ADDR_MASK), And(s, LOCKED_FLAG) == LOCKED_FLAG, And(s, DATA_MASK))
  }

  function Pack(w: Word): nat {
    w.tail + (if w.locked then LOCKED_FLAG else 0) + w.data
  }

  lemma Shifts(a: nat)
    ensures Shl(a, 6) == 64 * a && Shl(a, 7) == 128 * a && Shl(a, 8) == 256 * a
  {
    assert Shl(a, 3) == 8 * a by {
      assert Shl(a, 1) == 2 * a;
    }
    assert Shl(a, 5) == 32 * a;
  }

  lemma ShiftsOfOne()
    ensures Shl(1, 6) == 64 && Shl(1, 7) == 128 && Shl(1, 64) == WORD_SIZE
  {
    ShiftTwice(1, 32, 32);
    ShiftTwice(1, 16, 16);
    ShiftTwice(0x1_0000, 16, 16);
    ShiftTwice(0x1_0000_0000, 16, 16);
    ShiftTwice(0x1_0000_0000_0000, 16, 16);
    SixteenBits(1);
    SixteenBits(0x1_0000);
    SixteenBits(0x1_0000_0000);
    SixteenBits(0x1_0000_0000_0000);
  }

  lemma SixteenBits(a: nat)
    ensures Shl(a, 16) == 0x1_0000 * a
  {
    ShiftTwice(a, 8, 8);
    Shifts(a);
    Shifts(256 * a);
  }

  lemma {:induction false} ShiftTwice(a: nat, j: nat, k: nat)
    ensures Shl(Shl(a, j), k) == Shl(a, j + k)
  {
    if k > 0 {
      ShiftTwice(a, j, k - 1);
    }
  }

  lemma SplitAnchor(anchor: nat) returns (slot: nat)
    requires IsAnchor(anchor)
    ensures anchor == 128 * slot && anchor <= WORD_SIZE - 128
  {
    slot := anchor / 128;
  }

  /** The masks read the three parts out of a word. */
  lemma JoinWord(high: nat, flag: nat, data: nat)
    requires flag <= 1 && data <= DATA_MASK && 128 * high + 64 * flag + data < WORD_SIZE
    ensures Unpack(128 * high + 64 * flag + data) == Word(128 * high, flag == 1, data)
  {
    ShiftsOfOne();
    Shifts(high);
    Shifts(2 * high + flag);
    AndHigh(high, 64 * flag + data, 7, 64);
    AndBit(high, flag, data, 6);
    AndLow(2 * high + flag, data, 6);
  }

  /** Every word is made of its three parts. */
  lemma SplitWord(s: nat) returns (high: nat, flag: nat, data: nat)
    requires s < WORD_SIZE
    ensures flag <= 1 && data <= DATA_MASK && s == 128 * high + 64 * flag + data
    ensures Unpack(s) == Word(128 * high, flag == 1, data)
  {
    var rest := s % 128;
    high := s / 128;
    if rest < 64 {
      flag, data := 0, rest;
    } else {
      flag, data := 1, rest - 64;
    }
    JoinWord(high, flag, data);
  }

  /** Every 64-bit value is the packing of its parts. */
  lemma PackOfUnpack(s: nat)
    requires s < WORD_SIZE
    ensures Fits64(Unpack(s)) && Pack(Unpack(s)) == s
  {
    var high, flag, data := SplitWord(s);
  }

  /** Packing loses nothing. */
  lemma UnpackOfPack(w: Word)
    requires Fits64(w)
    ensures Pack(w) < WORD_SIZE && Unpack(Pack(w)) == w
  {
    var slot := SplitAnchor(w.tail);
    JoinWord(slot, if w.locked then 1 else 0, w.data);
  }

  // ---------- Expressions on whole words ----------

  /** Subtracting takes out of the data exactly when there is enough to take. */
  lemma SubtractIsRelease(s: nat, amount: nat)
    requires amount <= DATA_MASK && amount <= s < WORD_SIZE
    ensures amount <= Unpack(s).data ==> Unpack(s - amount) == Unpack(s).(data := Unpack(s).data - amount)
    ensures amount > Unpack(s).data ==> Unpack(s - amount).data != Unpack(s).data - amount
  {
    var high, flag, data := SplitWord(s);
    if amount <= data {
      JoinWord(high, flag, data - amount);
    }
  }

  /** Adding adds to the data exactly when the sum fits its six bits; otherwise it flips LOCKED. */
  lemma AddIsGrant(s: nat, amount: nat)
    requires amount <= DATA_MASK && s + amount < WORD_SIZE
    ensures Unpack(s).data + amount <= DATA_MASK ==> Unpack(s + amount) == Unpack(s).(data := Unpack(s).data + amount)
    ensures Unpack(s).data + amount > DATA_MASK ==> Unpack(s + amount).locked != Unpack(s).locked
  {
    var high, flag, data := SplitWord(s);
    if data + amount <= DATA_MASK {
      JoinWord(high, flag, data + amount);
    } else if flag == 0 {
      JoinWord(high, 1, data + amount - 64);
    } else {
      JoinWord(high + 1, 0, data + amount - 64);
    }
  }

  lemma FlagOfParts(s: nat, high: nat, flag: nat, data: nat)
    requires flag <= 1 && data <= DATA_MASK && s == 128 * high + 64 * flag + data
    ensures Or(s, LOCKED_FLAG) == 128 * high + 64 + data
  {
    ShiftsOfOne();
    Shifts(2 * high + flag);
    Shifts(2 * high + 1);
    assert s == Shl(2 * high + flag, 6) + data;
    OrBit(high, flag, data, 6);
  }

  /** `state | LOCKED_FLAG` sets LOCKED and nothing else. */
  lemma OrLocked(s: nat)
    requires s < WORD_SIZE
    ensures Or(s, LOCKED_FLAG) < WORD_SIZE && Or(s, LOCKED_FLAG) >= s
    ensures Unpack(Or(s, LOCKED_FLAG)) == Unpack(s).(locked := true)
  {
    var high, flag, data := SplitWord(s);
    FlagOfParts(s, high, flag, data);
    JoinWord(high, 1, data);
  }

  /** The masks `ADDR_MASK` and `!ADDR_MASK` split a word into its high bits and its tag. */
  lemma MaskedParts(s: nat, high: nat, tag: nat)
    requires tag < 128 && s == 128 * high + tag < WORD_SIZE
    ensures And(s, ADDR_MASK) == 128 * high && And(s, Not(ADDR_MASK)) == tag
  {
    ShiftsOfOne();
    Shifts(high);
    assert s == Shl(high, 7) + tag;
    AndHigh(high, tag, 7, 64);
    AndLow(high, tag, 7);
  }

  lemma OrOfTag(address: nat, tag: nat)
    requires IsAnchor(address) && tag < 128
    ensures Or(address, tag) == address + tag && Or(tag, address) == address + tag
  {
    var slot := SplitAnchor(address);
    ShiftsOfOne();
    Shifts(slot);
    assert address == Shl(slot, 7);
    OrOfParts(slot, tag, 7);
  }

  /** `(state & !ADDR_MASK) | anchor` replaces the tail and nothing else. */
  lemma SetTail(s: nat, anchor: nat)
    requires s < WORD_SIZE && IsAnchor(anchor)
    ensures Or(And(s, Not(ADDR_MASK)), anchor) < WORD_SIZE
    ensures Unpack(Or(And(s, Not(ADDR_MASK)), anchor)) == Unpack(s).(tail := anchor)
  {
    var high, flag, data := SplitWord(s);
    var tag := 64 * flag + data;
    MaskedParts(s, high, tag);
    OrOfTag(anchor, tag);
    var slot := SplitAnchor(anchor);
    JoinWord(slot, flag, data);
  }

  /** `(state & ADDR_MASK) | data` replaces the data and clears LOCKED. */
  lemma SetData(s: nat, data: nat)
    requires s < WORD_SIZE && data <= DATA_MASK
    ensures Or(And(s, ADDR_MASK), data) < WORD_SIZE
    ensures Unpack(Or(And(s, ADDR_MASK), data)) == Word(Unpack(s).tail, false, data)
  {
    var high, flag, before := SplitWord(s);
    MaskedParts(s, high, 64 * flag + before);
    var address := 128 * high;
    OrOfTag(address, data);
    JoinWord(high, 0, data);
  }

  /** A number of six bits is a word that is unlocked and has no queue. */
  lemma DataAlone(data: nat)
    requires data <= DATA_MASK
    ensures Unpack(data) == Word(0, false, data)
  {
    JoinWord(0, 0, data);
  }

  // ---------- Tests on whole words ----------

  /** What comparing the whole word with a small number says about its parts. */
  lemma SmallWords(s: nat)
    requires s < WORD_SIZE
    ensures s <= DATA_MASK <==> Unpack(s).tail == 0 && !Unpack(s).locked
    ensures s <= DATA_MASK ==> Unpack(s).data == s
    ensures s == LOCKED_FLAG <==> Unpack(s) == Word(0, true, 0)
  {
    var high, flag, data := SplitWord(s);
  }
}
