/**
 The compare-exchange loops of `Lock` and `Semaphore` on the packed word, with other threads
 storing whatever they like before each access. Each call makes at most one write, and that write
 is the step of the protocol that the call stands for.
 */
module Clients {
  import opened Opcodes
  import opened FairQueue
  import opened WordBits
  import opened StateWord
  import opened QueueMachine
  import opened PackedQueue

  datatype Outcome = Done | Refused | IsPoisoned

  const MAX_SPIN_COUNT := 128

  datatype Write = Write(before: nat, after: nat)

  /** The atomic word. What other threads store before our next accesses is a script. */
  class Atomic {
    var value: nat
    var script: seq<Option<nat>>
    ghost var log: seq<Write>  // our own writes

    ghost predicate Valid()
      reads this
    {
      && value < WORD_SIZE
      && forall i :: 0 <= i < |script| && script[i].Some? ==> script[i].value < WORD_SIZE
    }

    method Interfere()
      requires Valid()
      modifies this`value, this`script
      ensures Valid() && script == if old(script) == [] then [] else old(script)[1..]
      ensures value == if old(script) != [] && old(script)[0].Some? then old(script)[0].value else old(value)
    {
      if script != [] {
        if script[0].Some? {
          value := script[0].value;
        }
        script := script[1..];
      }
    }

    method Load() returns (seen: nat)
      requires Valid()
      modifies this`value, this`script
      ensures Valid() && seen == value && |script| <= |old(script)|
    {
      Interfere();
      seen := value;
    }

    method CompareExchange(expected: nat, next: nat) returns (ok: bool, seen: nat)
      requires Valid() && next < WORD_SIZE
      modifies this
      ensures Valid() && |script| <= |old(script)|
      ensures ok ==> seen == expected && value == next && log == old(log) + [Write(expected, next)]
      ensures !ok ==> seen == value != expected && log == old(log)
      ensures !ok && old(value) == expected ==> |script| < |old(script)|
    {
      Interfere();
      seen := value;
      ok := seen == expected;
      if ok {
        value := next;
        log := log + [Write(expected, next)];
      }
    }

    // ---------- Lock ----------

    /** `try_lock_internal`: acquires exactly on a zero word. */
    method TryLock(state: nat) returns (outcome: Outcome, seen: nat)
      requires Valid() && state == value
      modifies this
      ensures Valid() && |script| <= |old(script)|
      ensures outcome == Done ==> log == old(log) + [Write(0, DATA_MASK)] && FastGuard(LockClient(true), 0, Exclusive)
      ensures outcome != Done ==> log == old(log) && seen == value
      ensures outcome == IsPoisoned <==> outcome != Done && value == LOCKED_FLAG
      ensures outcome == Refused ==> PushGuard(LockClient(true), value, Exclusive) && value != 0 && value != 64
    {
      seen := state;
      while true
        invariant Valid() && seen == value && log == old(log) && |script| <= |old(script)|
        decreases |script|
      {
        if seen == LOCKED_FLAG {
          return IsPoisoned, seen;
        } else if seen != 0 {
          return Refused, seen;
        }
        var ok;
        ok, seen := CompareExchange(0, DATA_MASK);
        if ok {
          return Done, 0;
        }
      }
    }

    /** `try_share_internal`: acquires exactly on a word without queue, LOCKED or a full count. */
    method TryShare(state: nat) returns (outcome: Outcome, seen: nat)
      requires Valid() && state == value
      modifies this
      ensures Valid() && |script| <= |old(script)|
      ensures outcome == Done ==>
                exists w: nat :: w < 62 && FastGuard(LockClient(true), w, Shared) && log == old(log) + [Write(w, w + 1)]
      ensures outcome != Done ==> log == old(log) && seen == value
      ensures outcome == IsPoisoned <==> outcome != Done && value == LOCKED_FLAG
      ensures outcome == Refused ==> PushGuard(LockClient(true), value, Shared) && value >= 62 && value != 64
    {
      seen := state;
      while true
        invariant Valid() && seen == value && log == old(log) && |script| <= |old(script)|
        decreases |script|
      {
        if seen == LOCKED_FLAG {
          return IsPoisoned, seen;
        } else if seen >= LockClient(true).Max() {
          return Refused, seen;
        }
        var ok;
        ghost var w := seen;
        ok, seen := CompareExchange(seen, seen + 1);
        if ok {
          assert FastGuard(LockClient(true), w, Shared);
          return Done, 0;
        }
      }
    }

    /** `try_lock_internal_spin`: a fast attempt, then a bounded number of attempts. */
    method TryLockSpin() returns (outcome: Outcome, seen: nat)
      requires Valid()
      modifies this
      ensures Valid() && |script| <= |old(script)|
      ensures outcome == Done ==> log == old(log) + [Write(0, DATA_MASK)]
      ensures outcome != Done ==> log == old(log) && seen == value
      ensures outcome == IsPoisoned ==> value == LOCKED_FLAG
      ensures outcome == Refused ==> PushGuard(LockClient(true), value, Exclusive) && value != 0 && value != 64
    {
      var ok;
      ok, seen := CompareExchange(0, DATA_MASK);
      if ok {
        return Done, 0;
      }
      outcome, seen := TryLock(seen);
      for spin := 1 to MAX_SPIN_COUNT
        invariant Valid() && |script| <= |old(script)|
        invariant outcome == Refused ==> PushGuard(LockClient(true), value, Exclusive) && value != 0 && value != 64
        invariant outcome == Done ==> log == old(log) + [Write(0, DATA_MASK)]
        invariant outcome != Done ==> log == old(log) && seen == value
        invariant outcome == IsPoisoned ==> value == LOCKED_FLAG
      {
        if outcome != Refused {
          return;
        }
        outcome, seen := TryLock(seen);
      }
    }

    /** `try_share_internal_spin`: a fast attempt, then a bounded number of attempts. */
    method TryShareSpin() returns (outcome: Outcome, seen: nat)
      requires Valid()
      modifies this
      ensures Valid() && |script| <= |old(script)|
      ensures outcome == Done ==>
                exists w: nat :: w < 62 && FastGuard(LockClient(true), w, Shared) && log == old(log) + [Write(w, w + 1)]
      ensures outcome != Done ==> log == old(log) && seen == value
      ensures outcome == IsPoisoned ==> value == LOCKED_FLAG
      ensures outcome == Refused ==> PushGuard(LockClient(true), value, Shared) && value >= 62 && value != 64
    {
      seen := Load();
      while seen < LockClient(true).Max()
        invariant Valid() && seen == value && log == old(log) && |script| <= |old(script)|
        decreases |script|
      {
        var ok;
        ghost var w := seen;
        ok, seen := CompareExchange(seen, seen + 1);
        if ok {
          assert FastGuard(LockClient(true), w, Shared);
          return Done, 0;
        }
      }
      outcome, seen := TryShare(seen);
      for spin := 1 to MAX_SPIN_COUNT
        invariant Valid() && |script| <= |old(script)|
        invariant outcome == Refused ==> PushGuard(LockClient(true), value, Shared) && value >= 62 && value != 64
        invariant outcome == Done ==>
                    exists w: nat :: w < 62 && FastGuard(LockClient(true), w, Shared) && log == old(log) + [Write(w, w + 1)]
        invariant outcome != Done ==> log == old(log) && seen == value
        invariant outcome == IsPoisoned ==> value == LOCKED_FLAG
      {
        if outcome != Refused {
          return;
        }
        outcome, seen := TryShare(seen);
      }
    }

    // ---------- Semaphore ----------

    /** `try_acquire_internal`: acquires exactly when nobody is queued and the permits suffice. */
    method TryAcquire(count: nat) returns (acquired: bool, seen: nat)
      requires Valid() && count < 256
      modifies this
      ensures Valid() && |script| <= |old(script)|
      ensures acquired ==>
                exists w: nat ::
                  && w < WORD_SIZE && FastGuard(SemaphoreClient, w, Semaphore(count))
                  && Unpack(w).tail == 0 && Unpack(w).data + count <= 63
                  && log == old(log) + [Write(w, w + count)] && value == w + count
      ensures !acquired ==> log == old(log) && seen == value && PushGuard(SemaphoreClient, value, Semaphore(count))
      ensures !acquired ==> Unpack(value).tail != 0 || Unpack(value).data + count > 63
    {
      seen := Load();
      while true
        invariant Valid() && seen == value && log == old(log) && |script| <= |old(script)|
        decreases |script|
      {
        if And(seen, ADDR_MASK) != 0 || And(seen, DATA_MASK) + count > DATA_MASK {
          return false, seen;
        }
        var ok;
        ghost var w := seen;
        SumStaysInWord(seen, count);
        ok, seen := CompareExchange(seen, seen + count);
        if ok {
          assert FastGuard(SemaphoreClient, w, Semaphore(count));
          return true, 0;
        }
      }
    }

    lemma SumStaysInWord(word: nat, count: nat)
      requires word < WORD_SIZE && And(word, DATA_MASK) + count <= DATA_MASK
      ensures word + count < WORD_SIZE
    {
      var high, flag, data := SplitWord(word);
    }

    // ---------- Releasing ----------

    /** Operation by operation: what a word must hold to be released, and what that leaves. */
    ghost predicate Gives(op: Opcode, before: Word, after: Word) {
      && after.tail == before.tail
      && after.locked == (before.locked || before.tail != 0)
      && match op
         case Exclusive => before.data == 63 && after.data == 0
         case Shared => 1 <= before.data <= 62 && after.data == before.data - 1
         case Semaphore(n) => before.data >= n && after.data == before.data - n
         case _ => after.data == before.data
    }

    /** Operation by operation: a word from which nothing can be released. */
    ghost predicate Lacks(op: Opcode, w: Word) {
      match op
      case Exclusive => w.data != 63
      case Shared => w.data == 0 || w.data == 63
      case Semaphore(n) => w.data < n
      case _ => false
    }

    /**
     `release_loop`: fails without a write exactly on a word that does not hold the resource; and
     otherwise takes out what the operation acquired, once. `process` says that LOCKED was taken.
     */
    method ReleaseLoop(state: nat, op: Opcode) returns (released: bool, process: bool, next: nat)
      requires Valid() && state == value
      modifies this
      ensures Valid()
      ensures !released ==> log == old(log) && !op.CanRelease(And(value, DATA_MASK)) && Lacks(op, Unpack(value))
      ensures released ==> next == value && exists w: nat ::
                && w < WORD_SIZE && op.CanRelease(And(w, DATA_MASK)) && next == GiveUpWord(w, op.Acquired())
                && Gives(op, Unpack(w), Unpack(next))
                && log == old(log) + [Write(w, next)]
                && (process <==> Unpack(w).tail != 0 && !Unpack(w).locked)
    {
      var seen := state;
      while op.CanRelease(And(seen, DATA_MASK))
        invariant Valid() && seen == value && log == old(log)
        decreases |script|
      {
        ghost var w := seen;
        ReleaseStaysInWord(seen, op);
        process := And(seen, ADDR_MASK) != 0 && And(seen, LOCKED_FLAG) != LOCKED_FLAG;
        if process {
          next := Or(seen, LOCKED_FLAG) - op.Acquired();
        } else {
          next := seen - op.Acquired();
        }
        var ok;
        ok, seen := CompareExchange(seen, next);
        if ok {
          assert next == GiveUpWord(w, op.Acquired());
          GiveUpGives(w, op);
          return true, process, next;
        }
      }
      DataOfWord(seen);
      return false, false, seen;
    }

    lemma DataOfWord(word: nat)
      requires word < WORD_SIZE
      ensures Unpack(word).data <= 63
    {
      var high, flag, data := SplitWord(word);
    }

    lemma GiveUpGives(word: nat, op: Opcode)
      requires word < WORD_SIZE && op.CanRelease(And(word, DATA_MASK))
      ensures 0 <= GiveUpWord(word, op.Acquired()) < WORD_SIZE
      ensures Gives(op, Unpack(word), Unpack(GiveUpWord(word, op.Acquired())))
    {
      DataOfWord(word);
      GiveUpWordParts(word, op.Acquired());
    }

    lemma ReleaseStaysInWord(word: nat, op: Opcode)
      requires word < WORD_SIZE && op.CanRelease(And(word, DATA_MASK))
      ensures op.Acquired() <= And(word, DATA_MASK) <= word
      ensures word <= Or(word, LOCKED_FLAG) < WORD_SIZE
    {
      var high, flag, data := SplitWord(word);
      OrLocked(word);
    }

    /**
     `release_lock` and `release_many`: a fast path for the word without waiters, then the loop. The
     fast path of `release_many` compares the word with a count of eight bits. If the count exceeds
     the six bits of the data it gives nothing back: it wipes out a word that happens to equal it.
     */
    method Release(op: Opcode) returns (released: bool, process: bool)
      requires Valid()
      requires op == Exclusive || (op.Semaphore? && op.permits < 256)
      modifies this
      ensures Valid()
      ensures !released ==> log == old(log) && !op.CanRelease(And(value, DATA_MASK)) && Lacks(op, Unpack(value))
      ensures released ==> exists w: nat ::
                && w < WORD_SIZE && log == old(log) + [Write(w, value)]
                && if op.Acquired() <= DATA_MASK then
                     && op.CanRelease(And(w, DATA_MASK)) && value == GiveUpWord(w, op.Acquired())
                     && Gives(op, Unpack(w), Unpack(value))
                     && (process <==> Unpack(w).tail != 0 && !Unpack(w).locked)
                   else
                     w == op.Acquired() && value == 0 && !op.CanRelease(And(w, DATA_MASK))
    {
      ghost var amount := op.Acquired();
      var ok, seen := CompareExchange(op.Acquired(), 0);
      if ok {
        SmallWords(amount);
        SmallWords(0);
        ghost var high, flag, data := SplitWord(amount);
        assert log == old(log) + [Write(amount, value)];
        return true, false;
      }
      var next;
      released, process, next := ReleaseLoop(seen, op);
      if released {
        ghost var w: nat :| w < WORD_SIZE && op.CanRelease(And(w, DATA_MASK)) && log == old(log) + [Write(w, next)]
                            && next == GiveUpWord(w, op.Acquired()) && (process <==> Unpack(w).tail != 0 && !Unpack(w).locked);
        ReleaseStaysInWord(w, op);
        ghost var high, flag, data := SplitWord(w);
      }
    }

    /** `release_share`: a fast path for the word without waiters, then the loop. */
    method ReleaseShare() returns (released: bool, process: bool)
      requires Valid()
      modifies this
      ensures Valid()
      ensures !released ==> log == old(log) && !Shared.CanRelease(And(value, DATA_MASK))
      ensures !released ==> Unpack(value).data == 0 || Unpack(value).data == 63
      ensures released ==> exists w: nat ::
                && w < WORD_SIZE && Shared.CanRelease(And(w, DATA_MASK)) && value == GiveUpWord(w, 1)
                && 1 <= Unpack(w).data <= 62 && Unpack(value).data == Unpack(w).data - 1
                && Unpack(value).tail == Unpack(w).tail && Unpack(value).locked == (Unpack(w).locked || Unpack(w).tail != 0)
                && log == old(log) + [Write(w, value)]
                && (process <==> Unpack(w).tail != 0 && !Unpack(w).locked)
    {
      var seen := Load();
      while 0 < seen <= LockClient(true).Max()
        invariant Valid() && seen == value && log == old(log)
        decreases |script|
      {
        ghost var w := seen;
        SmallWords(seen);
        var ok;
        ok, seen := CompareExchange(seen, seen - 1);
        if ok {
          assert value == GiveUpWord(w, 1);
          GiveUpGives(w, Shared);
          return true, false;
        }
      }
      var next;
      released, process, next := ReleaseLoop(seen, Shared);
    }

    // ---------- Waiting ----------

    /** `try_push_wait_queue_entry`: makes the entry with this anchor the tail, unless the word has changed. */
    method TryPush(anchor: nat, state: nat) returns (ok: bool)
      requires Valid() && state == value && IsAnchor(anchor)
      modifies this
      ensures Valid() && |script| <= |old(script)|
      ensures ok ==>
                && log == old(log) + [Write(state, value)] && value == Or(And(state, Not(ADDR_MASK)), anchor)
                && Unpack(value) == Unpack(state).(tail := anchor)
      ensures !ok ==> log == old(log) && |script| < |old(script)|
    {
      SetTail(state, anchor);
      var seen;
      ok, seen := CompareExchange(state, Or(And(state, Not(ADDR_MASK)), anchor));
    }

    /**
     The loop of `lock_sync_with` and `register_pager` for an exclusive owner: the caller ends up owning the lock, or at the tail
     of the queue of a lock that it could not have acquired, or told that the lock is poisoned.
     */
    method LockOrPush(anchor: nat) returns (outcome: Outcome)
      requires Valid() && IsAnchor(anchor)
      modifies this
      ensures Valid()
      ensures outcome == Done ==> log == old(log) + [Write(0, DATA_MASK)]
      ensures outcome == IsPoisoned ==> log == old(log) && value == LOCKED_FLAG
      ensures outcome == Refused ==> exists w: nat ::
                && w < WORD_SIZE && PushGuard(LockClient(true), w, Exclusive) && w != 0 && w != 64
                && log == old(log) + [Write(w, value)] && Unpack(value) == Unpack(w).(tail := anchor)
    {
      while true
        invariant Valid() && log == old(log)
        decreases |script|
      {
        var state;
        outcome, state := TryLockSpin();
        if outcome != Refused {
          return;
        }
        var pushed := TryPush(anchor, state);
        if pushed {
          return;
        }
      }
    }

    /** The same loop for a shared owner. */
    method ShareOrPush(anchor: nat) returns (outcome: Outcome)
      requires Valid() && IsAnchor(anchor)
      modifies this
      ensures Valid()
      ensures outcome == Done ==>
                exists w: nat :: w < 62 && FastGuard(LockClient(true), w, Shared) && log == old(log) + [Write(w, w + 1)]
      ensures outcome == IsPoisoned ==> log == old(log) && value == LOCKED_FLAG
      ensures outcome == Refused ==> exists w: nat ::
                && w < WORD_SIZE && PushGuard(LockClient(true), w, Shared) && w >= 62 && w != 64
                && log == old(log) + [Write(w, value)] && Unpack(value) == Unpack(w).(tail := anchor)
    {
      while true
        invariant Valid() && log == old(log)
        decreases |script|
      {
        var state;
        outcome, state := TryShareSpin();
        if outcome != Refused {
          return;
        }
        var pushed := TryPush(anchor, state);
        if pushed {
          return;
        }
      }
    }

    /** The loop of `acquire_many_sync_with`: the caller ends up with its permits or in the queue. */
    method AcquireOrPush(count: nat, anchor: nat) returns (acquired: bool)
      requires Valid() && IsAnchor(anchor) && count < 256
      modifies this
      ensures Valid()
      ensures exists w: nat :: w < WORD_SIZE && log == old(log) + [Write(w, value)] &&
                if acquired then
                  && FastGuard(SemaphoreClient, w, Semaphore(count)) && value == w + count
                  && Unpack(w).tail == 0 && Unpack(w).data + count <= 63
                else
                  && PushGuard(SemaphoreClient, w, Semaphore(count)) && Unpack(value) == Unpack(w).(tail := anchor)
                  && (Unpack(w).tail != 0 || Unpack(w).data + count > 63)
    {
      while true
        invariant Valid() && log == old(log)
        decreases |script|
      {
        var state;
        acquired, state := TryAcquire(count);
        if acquired {
          return;
        }
        var pushed := TryPush(anchor, state);
        if pushed {
          assert log == old(log) + [Write(state, value)];
          return;
        }
      }
    }
  }
}
