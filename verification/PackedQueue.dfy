/**
 The protocol on packed words. Every step of the queue protocol is performed on the 64-bit word by
 the expression that the code uses, and every guard is the code's comparison; here they are shown
 to be the steps and guards of the protocol, in every state that a run can reach.
 */
module PackedQueue {
  import opened Opcodes
  import opened FairQueue
  import opened WordBits
  import opened StateWord
  import opened QueueMachine
  import opened QueueInvariant
  import opened QueueSteps
  import opened QueueTheorems

  /** The addresses of the anchors of all entries. */
  ghost predicate Placed(anchor: nat -> nat) {
    forall id: nat :: anchor(id) > 0 && IsAnchor(anchor(id))
  }

  function Tail(queue: seq<Waiter>, anchor: nat -> nat): nat {
    if queue == [] then 0 else anchor(queue[|queue| - 1].id)
  }

  /** The word stands for the shared state. */
  ghost predicate Represents(word: nat, s: Sys, anchor: nat -> nat) {
    word < WORD_SIZE && Unpack(word) == Word(Tail(s.queue, anchor), s.locked, s.data)
  }

  // ---------- Guards ----------

  /** The tests of `try_lock_internal`, `try_share_internal` and `try_acquire_internal`. */
  predicate FastGuard(c: Client, word: nat, op: Opcode) {
    match op
    case Exclusive => word == 0
    case Shared => word < c.Max()
    case Semaphore(n) => And(word, ADDR_MASK) == 0 && And(word, DATA_MASK) + n <= c.Max()
    case _ => false
  }

  /** The result code that `register_pager` compares the whole word with before a waiting request. */
  const POISONED_CODE := 2

  /** The tests on which `register_pager` and the acquire methods push an entry instead. */
  predicate PushGuard(c: Client, word: nat, op: Opcode) {
    match op
    case Wait(n) =>
      && word != POISONED_CODE
      && if n == DATA_MASK then And(word, DATA_MASK) != 0 else And(word, DATA_MASK) >= c.Max()
    case Semaphore(_) => !FastGuard(c, word, op)
    case _ => word != LOCKED_FLAG && !FastGuard(c, word, op)
  }

  /**
   The code's comparisons of whole words decide what the protocol's guards say, but for one word:
   with two shared owners and no queue, a waiting request is answered at once.
   */
  lemma GuardsAgree(c: Client, s: Sys, op: Opcode, word: nat, anchor: nat -> nat)
    requires Reachable(c, s) && c.Admits(op)
    requires Placed(anchor) && Represents(word, s, anchor)
    ensures FastGuard(c, word, op) <==> Enabled(c, s, Acquire(op))
    ensures PushGuard(c, word, op) <==> Enabled(c, s, Push(op)) && !(op.Wait? && s.data == 2 && !s.locked && s.queue == [])
    ensures word == LOCKED_FLAG <==> s.poisoned
  {
    SmallWords(word);
    PoisonedWord(c, s);
    assert s.queue != [] ==> Tail(s.queue, anchor) > 0;
  }

  /** No barging: a fast path never succeeds while anybody is queued. */
  lemma FastPathNeverOvertakes(c: Client, s: Sys, op: Opcode, word: nat, anchor: nat -> nat)
    requires Reachable(c, s) && c.Admits(op)
    requires Placed(anchor) && Represents(word, s, anchor) && FastGuard(c, word, op)
    ensures s.queue == [] && !s.poisoned
    ensures s.data + op.Acquired() <= DATA_MASK
  {
    GuardsAgree(c, s, op, word, anchor);
    ReachableHoldsInv(c, s);
  }

  // ---------- Snapshots ----------

  /** Queued entries are different objects, so their anchors have different addresses. */
  ghost predicate Apart(queue: seq<Waiter>, anchor: nat -> nat) {
    forall i, j :: 0 <= i < j < |queue| ==> anchor(queue[i].id) != anchor(queue[j].id)
  }

  /** The word that the snapshot of a round was taken from, which the thread keeps as `state`. */
  function SnapshotWord(s: Sys, r: Round, anchor: nat -> nat): nat
    requires 0 < r.len <= |s.queue|
  {
    Pack(Word(anchor(s.queue[r.len - 1].id), true, r.data))
  }

  /** A snapshot that is up to date, as it is when it is taken, is the word. */
  lemma SnapshotIsTheWord(s: Sys, r: Round, word: nat, anchor: nat -> nat)
    requires Represents(word, s, anchor) && s.locked && s.queue != [] && Unchanged(s, r)
    ensures SnapshotWord(s, r, anchor) == word
  {
    PackOfUnpack(word);
  }

  /** The steps of other threads do not change what the snapshot of the processor stands for. */
  lemma SnapshotStays(s: Sys, s': Sys, t: nat, r: Round, anchor: nat -> nat)
    requires Rely(s, s', t) && s.holder == Some(t) && 0 < r.len <= |s.queue|
    ensures r.len <= |s'.queue| && SnapshotWord(s', r, anchor) == SnapshotWord(s, r, anchor)
  {
  }

  /**
   The comparison in the compare-exchange of a processor or a canceller: its snapshot's word equals
   the current word exactly when nobody has pushed or released since.
   */
  lemma CompareExchangeIsExact(c: Client, s: Sys, t: nat, word: nat, anchor: nat -> nat)
    requires Reachable(c, s) && t in s.threads && (s.threads[t].Scan? || s.threads[t].Find?)
    requires Placed(anchor) && Apart(s.queue, anchor) && Represents(word, s, anchor)
    ensures 0 < s.threads[t].r.len <= |s.queue|
    ensures word == SnapshotWord(s, s.threads[t].r, anchor) <==> Unchanged(s, s.threads[t].r)
  {
    var r := s.threads[t].r;
    HolderFacts(c, s, t);
    PackOfUnpack(word);
    assert Tail(s.queue, anchor) == anchor(s.queue[|s.queue| - 1].id);
    UnpackOfPack(Word(anchor(s.queue[r.len - 1].id), true, r.data));
  }

  lemma HolderFacts(c: Client, s: Sys, t: nat)
    requires Reachable(c, s) && t in s.threads && (s.threads[t].Scan? || s.threads[t].Find?)
    ensures s.locked && s.data <= DATA_MASK
    ensures 0 < s.threads[t].r.len <= |s.queue| && s.threads[t].r.data <= DATA_MASK
  {
    ReachableHoldsInv(c, s);
    assert LocalOk(c, s, t, s.threads[t]);
  }

  // ---------- Steps ----------

  /** The new word of `release_loop`. */
  function GiveUpWord(word: nat, amount: nat): int {
    if And(word, ADDR_MASK) == 0 || And(word, LOCKED_FLAG) == LOCKED_FLAG then word - amount
    else Or(word, LOCKED_FLAG) - amount
  }

  /** The waiter that is inspected can be granted, and it is the tail of the snapshot. */
  predicate AtTail(c: Client, s: Sys, t: nat)
    requires Enabled(c, s, ScanStep(t))
  {
    var r, op := s.threads[t].r, s.queue[s.threads[t].r.k].op;
    Fits(c.Max(), r.data + r.transferred, op) && r.k + 1 == r.len
  }

  /** The word that step `l` writes, as the code computes it. */
  function NextWord(c: Client, s: Sys, l: Label, word: nat, anchor: nat -> nat): int
    requires Enabled(c, s, l)
  {
    match l
    case Acquire(op) => if op == Exclusive then DATA_MASK else word + op.Acquired()
    case Register(op) => if op == Exclusive then DATA_MASK else word + op.Acquired()
    case Push(op) => Or(And(word, Not(ADDR_MASK)), anchor(s.nextId))
    case Release(t, i) => GiveUpWord(word, s.owners[i].op.Acquired())
    case ScanStep(t) =>
      var r := s.threads[t].r;
      if AtTail(c, s, t) && word == SnapshotWord(s, r, anchor) then r.data + r.transferred + s.queue[r.k].op.Acquired()
      else word
    case KeepStep(t) =>
      var r := s.threads[t].r;
      if And(word, DATA_MASK) == r.data then Or(And(word, ADDR_MASK), And(word, DATA_MASK) + r.transferred) else word
    case TransferStep(t) => word + s.threads[t].r.transferred
    case SpinStep(t) =>
      if And(word, LOCKED_FLAG) != LOCKED_FLAG && And(word, ADDR_MASK) != 0 then Or(word, LOCKED_FLAG) else word
    case FindStep(t) =>
      var Find(target, _, r) := s.threads[t];
      var i := Position(s, target, r.len);
      if i + 1 != r.len || r.len > |s.queue| || word != SnapshotWord(s, r, anchor) then word
      else if i > 0 then Or(And(word, Not(ADDR_MASK)), anchor(s.queue[i - 1].id))
      else And(word, DATA_MASK)
    case GiveBackStep(t, retry) =>
      var GiveBack(target, seen) := s.threads[t];
      if target.op.CanRelease(seen) && !retry then GiveUpWord(word, target.op.Acquired()) else word
    case Poison(t, i) => LOCKED_FLAG
    case ClearPoison => 0
    case _ => word
  }

  lemma AddKeepsPacked(word: nat, s: Sys, amount: nat, anchor: nat -> nat)
    requires Placed(anchor) && Represents(word, s, anchor)
    requires s.data + amount <= DATA_MASK
    ensures word + amount < WORD_SIZE
    ensures Unpack(word + amount) == Word(Tail(s.queue, anchor), s.locked, s.data + amount)
  {
    var high, flag, data := SplitWord(word);
    AddIsGrant(word, amount);
  }

  lemma GiveUpWrites(s: Sys, t: nat, op: Opcode, i: nat)
    requires op.CanRelease(s.data)
    ensures var s' := GiveUp(s, t, op, i);
            s'.data == s.data - op.Acquired() && s'.queue == s.queue && s'.locked == (s.locked || s.queue != [])
  {
  }

  lemma GiveUpWordParts(word: nat, amount: nat)
    requires word < WORD_SIZE && amount <= Unpack(word).data
    ensures 0 <= GiveUpWord(word, amount) < WORD_SIZE
    ensures var w := Unpack(word);
            Unpack(GiveUpWord(word, amount)) == Word(w.tail, w.locked || w.tail != 0, w.data - amount)
  {
    var high, flag, data := SplitWord(word);
    if And(word, ADDR_MASK) == 0 || And(word, LOCKED_FLAG) == LOCKED_FLAG {
      SubtractIsRelease(word, amount);
    } else {
      OrLocked(word);
      SubtractIsRelease(Or(word, LOCKED_FLAG), amount);
    }
  }

  /** `release_loop` takes out what was acquired, and takes LOCKED if there is a queue to process. */
  lemma GiveUpPacked(word: nat, s: Sys, t: nat, op: Opcode, i: nat, anchor: nat -> nat)
    requires Placed(anchor) && Represents(word, s, anchor)
    requires op.CanRelease(s.data) && op.Acquired() <= s.data <= DATA_MASK
    ensures var word' := GiveUpWord(word, op.Acquired());
            word' >= 0 && Represents(word', GiveUp(s, t, op, i), anchor)
  {
    GiveUpWordParts(word, op.Acquired());
    GiveUpWrites(s, t, op, i);
  }

  lemma ArrivalPacked(c: Client, s: Sys, l: Label, word: nat, anchor: nat -> nat)
    requires Inv(c, s) && Enabled(c, s, l)
    requires Placed(anchor) && Represents(word, s, anchor)
    requires l.Acquire? || l.Register? || l.Push?
    ensures var word' := NextWord(c, s, l, word, anchor);
            word' >= 0 && Represents(word', Do(c, s, l), anchor)
  {
    if l.Push? {
      SetTail(word, anchor(s.nextId));
    } else if l.op == Exclusive {
      DataAlone(DATA_MASK);
    } else {
      AddKeepsPacked(word, s, l.op.Acquired(), anchor);
    }
  }

  lemma ScanWrites(c: Client, s: Sys, t: nat)
    requires Enabled(c, s, ScanStep(t))
    ensures var s', r := Do(c, s, ScanStep(t)), s.threads[t].r;
            if AtTail(c, s, t) && Unchanged(s, r) then
              s'.data == r.data + r.transferred + s.queue[r.k].op.Acquired() && s'.queue == [] && !s'.locked
            else
              s'.data == s.data && s'.queue == s.queue && s'.locked == s.locked
  {
  }

  /** Inspecting a waiter leaves the word alone, unless it is the tail and the queue is reset. */
  lemma ScanPacked(c: Client, s: Sys, t: nat, word: nat, anchor: nat -> nat)
    requires Enabled(c, s, ScanStep(t)) && Do(c, s, ScanStep(t)).data <= DATA_MASK
    requires Placed(anchor) && Represents(word, s, anchor)
    requires word == SnapshotWord(s, s.threads[t].r, anchor) <==> Unchanged(s, s.threads[t].r)
    ensures var word' := NextWord(c, s, ScanStep(t), word, anchor);
            word' >= 0 && Represents(word', Do(c, s, ScanStep(t)), anchor)
  {
    ScanWrites(c, s, t);
    if AtTail(c, s, t) && Unchanged(s, s.threads[t].r) {
      DataAlone(Do(c, s, ScanStep(t)).data);
    }
  }

  lemma KeepWrites(c: Client, s: Sys, t: nat)
    requires Enabled(c, s, KeepStep(t))
    ensures var s', r := Do(c, s, KeepStep(t)), s.threads[t].r;
            if s.data == r.data then
              s'.data == s.data + r.transferred && s'.queue == s.queue[r.k..] && !s'.locked
            else
              s'.data == s.data && s'.queue == s.queue && s'.locked == s.locked
  {
  }

  /** The commit that keeps the tail. */
  lemma KeepPacked(c: Client, s: Sys, t: nat, word: nat, anchor: nat -> nat)
    requires Enabled(c, s, KeepStep(t)) && Do(c, s, KeepStep(t)).data <= DATA_MASK
    requires s.threads[t].r.k < |s.queue|
    requires Placed(anchor) && Represents(word, s, anchor)
    ensures var word' := NextWord(c, s, KeepStep(t), word, anchor);
            word' >= 0 && Represents(word', Do(c, s, KeepStep(t)), anchor)
  {
    KeepWrites(c, s, t);
    if s.data == s.threads[t].r.data {
      SetData(word, Do(c, s, KeepStep(t)).data);
    }
  }

  /** The commit of a round that lost a race. */
  lemma TransferPacked(c: Client, s: Sys, t: nat, word: nat, anchor: nat -> nat)
    requires Enabled(c, s, TransferStep(t)) && Do(c, s, TransferStep(t)).data <= DATA_MASK
    requires s.threads[t].r.k < |s.queue|
    requires Placed(anchor) && Represents(word, s, anchor)
    ensures var word' := NextWord(c, s, TransferStep(t), word, anchor);
            word' >= 0 && Represents(word', Do(c, s, TransferStep(t)), anchor)
  {
    AddKeepsPacked(word, s, s.threads[t].r.transferred, anchor);
  }

  lemma RoundFacts(c: Client, s: Sys, t: nat)
    requires Reachable(c, s) && t in s.threads && (s.threads[t].Scan? || s.threads[t].Keep? || s.threads[t].Transfer?)
    ensures s.threads[t].r.k < s.threads[t].r.len <= |s.queue|
  {
    ReachableHoldsInv(c, s);
    assert LocalOk(c, s, t, s.threads[t]);
  }

  lemma GrantPacked(c: Client, s: Sys, l: Label, word: nat, anchor: nat -> nat)
    requires Reachable(c, s) && Enabled(c, s, l)
    requires Placed(anchor) && Apart(s.queue, anchor) && Represents(word, s, anchor)
    requires l.ScanStep? || l.KeepStep? || l.TransferStep?
    ensures var word' := NextWord(c, s, l, word, anchor);
            word' >= 0 && Represents(word', Do(c, s, l), anchor)
  {
    StepStaysReachable(c, s, l);
    Conservation(c, Do(c, s, l));
    RoundFacts(c, s, l.t);
    match l
    case ScanStep(t) =>
      CompareExchangeIsExact(c, s, t, word, anchor);
      ScanPacked(c, s, t, word, anchor);
    case KeepStep(t) => KeepPacked(c, s, t, word, anchor);
    case TransferStep(t) => TransferPacked(c, s, t, word, anchor);
  }

  /** Unlinking an entry writes the word only when the tail or the last entry leaves. */
  lemma UnlinkPacked(s: Sys, word: nat, i: nat, anchor: nat -> nat)
    requires Placed(anchor) && Represents(word, s, anchor)
    requires i < |s.queue| && s.locked && s.data <= DATA_MASK
    ensures i + 1 < |s.queue| ==> Represents(word, s.(queue := RemoveAt(s.queue, i)), anchor)
    ensures i + 1 == |s.queue| > 1 ==>
              Represents(Or(And(word, Not(ADDR_MASK)), anchor(s.queue[i - 1].id)), s.(queue := RemoveAt(s.queue, i)), anchor)
    ensures i + 1 == |s.queue| == 1 ==>
              Represents(And(word, DATA_MASK), s.(queue := RemoveAt(s.queue, i), locked := false), anchor)
  {
    var rest := RemoveAt(s.queue, i);
    if i + 1 < |s.queue| {
      assert rest[|rest| - 1] == s.queue[|s.queue| - 1];
    } else if i > 0 {
      assert rest[|rest| - 1] == s.queue[i - 1];
      SetTail(word, anchor(s.queue[i - 1].id));
    } else {
      DataAlone(s.data);
    }
  }

  /** One pass of the search, in terms of what it does to the word and the queue. */
  lemma FindWrites(c: Client, s: Sys, t: nat, i: nat)
    requires Enabled(c, s, FindStep(t)) && s.locked && s.threads[t].r.len <= |s.queue|
    requires i == Position(s, s.threads[t].target, s.threads[t].r.len)
    ensures var s', r := Do(c, s, FindStep(t)), s.threads[t].r;
            && s'.data == s.data
            && if i >= r.len || (i + 1 == r.len && !Unchanged(s, r)) then s'.queue == s.queue && s'.locked
               else s'.queue == RemoveAt(s.queue, i) && s'.locked == (r.len > 1)
  {
    var Find(target, seen, r) := s.threads[t];
    if i < r.len {
      FindOutcome(c, s, t, target, seen, r, i);
    }
  }

  lemma FindPacked(c: Client, s: Sys, t: nat, word: nat, anchor: nat -> nat)
    requires Reachable(c, s) && Enabled(c, s, FindStep(t))
    requires Placed(anchor) && Apart(s.queue, anchor) && Represents(word, s, anchor)
    ensures var word' := NextWord(c, s, FindStep(t), word, anchor);
            word' >= 0 && Represents(word', Do(c, s, FindStep(t)), anchor)
  {
    HolderFacts(c, s, t);
    CompareExchangeIsExact(c, s, t, word, anchor);
    var i := Position(s, s.threads[t].target, s.threads[t].r.len);
    FindWrites(c, s, t, i);
    if i < s.threads[t].r.len {
      UnlinkPacked(s, word, i, anchor);
    }
  }

  /** What a successful search leaves for the processing that follows. */
  lemma FindGoesOn(c: Client, s: Sys, t: nat, i: nat)
    requires Enabled(c, s, FindStep(t)) && s.locked && 0 < s.threads[t].r.len <= |s.queue|
    requires i == Position(s, s.threads[t].target, s.threads[t].r.len)
    requires t in Do(c, s, FindStep(t)).threads && Do(c, s, FindStep(t)).threads[t].Scan?
    ensures var s', r := Do(c, s, FindStep(t)), s.threads[t].r;
            if i >= r.len then s'.threads[t].r == r
            else r.len > 1 && s'.threads[t].r == r.(len := r.len - 1) && (i + 1 == r.len ==> Unchanged(s, r))
  {
    var Find(target, seen, r) := s.threads[t];
    if i < r.len {
      FindOutcome(c, s, t, target, seen, r, i);
    }
  }

  lemma UnlinkKeepsSnapshot(s: Sys, s': Sys, r: Round, i: nat, anchor: nat -> nat)
    requires i + 1 < r.len <= |s.queue| && s'.queue == RemoveAt(s.queue, i)
    ensures SnapshotWord(s', r.(len := r.len - 1), anchor) == SnapshotWord(s, r, anchor)
  {
    assert s'.queue[r.len - 2] == s.queue[r.len - 1];
  }

  /** A canceller that goes on to process the queue keeps the word that its search ended with. */
  lemma FindKeepsSnapshot(c: Client, s: Sys, t: nat, word: nat, anchor: nat -> nat)
    requires Reachable(c, s) && Enabled(c, s, FindStep(t))
    requires Placed(anchor) && Apart(s.queue, anchor) && Represents(word, s, anchor)
    requires t in Do(c, s, FindStep(t)).threads && Do(c, s, FindStep(t)).threads[t].Scan?
    ensures var s', r := Do(c, s, FindStep(t)), s.threads[t].r;
            var r' := s'.threads[t].r;
            && 0 < r.len <= |s.queue| && 0 < r'.len <= |s'.queue|
            && SnapshotWord(s', r', anchor) ==
                 if Position(s, s.threads[t].target, r.len) + 1 == r.len then NextWord(c, s, FindStep(t), word, anchor)
                 else SnapshotWord(s, r, anchor)
  {
    var s', r := Do(c, s, FindStep(t)), s.threads[t].r;
    HolderFacts(c, s, t);
    var i := Position(s, s.threads[t].target, r.len);
    FindWrites(c, s, t, i);
    FindGoesOn(c, s, t, i);
    if i + 1 < r.len {
      UnlinkKeepsSnapshot(s, s', r, i, anchor);
    } else if i + 1 == r.len {
      FindPacked(c, s, t, word, anchor);
      SnapshotIsTheWord(s', s'.threads[t].r, NextWord(c, s, FindStep(t), word, anchor), anchor);
    }
  }

  lemma ReleasePacked(c: Client, s: Sys, l: Label, word: nat, anchor: nat -> nat)
    requires Reachable(c, s) && Enabled(c, s, l)
    requires Placed(anchor) && Represents(word, s, anchor)
    requires l.Release? || l.GiveBackStep?
    ensures var word' := NextWord(c, s, l, word, anchor);
            word' >= 0 && Represents(word', Do(c, s, l), anchor)
  {
    Conservation(c, s);
    match l
    case Release(t, i) => GiveUpPacked(word, s, t, s.owners[i].op, i, anchor);
    case GiveBackStep(t, retry) =>
      var GiveBack(target, seen) := s.threads[t];
      StaleWordCanRelease(c, s, t);
      if !retry {
        var i := IndexOf(s.owners, Owner(target.id, target.op, false));
        GiveUpPacked(word, SetStatus(s, target.id, GivenBack), t, target.op, i, anchor);
      }
  }

  lemma OthersPacked(c: Client, s: Sys, l: Label, word: nat, anchor: nat -> nat)
    requires Enabled(c, s, l)
    requires Placed(anchor) && Represents(word, s, anchor)
    requires l.SpinStep? || l.Poison? || l.ClearPoison?
    ensures var word' := NextWord(c, s, l, word, anchor);
            word' >= 0 && Represents(word', Do(c, s, l), anchor)
  {
    OrLocked(word);
    SmallWords(LOCKED_FLAG);
    DataAlone(0);
  }

  lemma ReadersPacked(c: Client, s: Sys, l: Label, word: nat, anchor: nat -> nat)
    requires Enabled(c, s, l)
    requires Represents(word, s, anchor)
    requires l.DeliverStep? || l.Resume? || l.Consume? || l.StartCancel? || l.AwaitStep? || l.SplitPermits? || l.JoinPermits?
    ensures NextWord(c, s, l, word, anchor) == word && Represents(word, Do(c, s, l), anchor)
  {
    ReadersWrite(c, s, l);
  }

  lemma ReadersWrite(c: Client, s: Sys, l: Label)
    requires Enabled(c, s, l)
    requires l.DeliverStep? || l.Resume? || l.Consume? || l.StartCancel? || l.AwaitStep? || l.SplitPermits? || l.JoinPermits?
    ensures var s' := Do(c, s, l);
            s'.data == s.data && s'.queue == s.queue && s'.locked == s.locked
  {
  }

  /**
   Refinement: every step of every run does to the packed word what the protocol says, so the
   arithmetic on whole words never carries or borrows across the data, LOCKED and the address.
   */
  lemma StepIsPacked(c: Client, s: Sys, l: Label, word: nat, anchor: nat -> nat)
    requires Reachable(c, s) && Enabled(c, s, l)
    requires Placed(anchor) && Apart(s.queue, anchor) && Represents(word, s, anchor)
    ensures var word' := NextWord(c, s, l, word, anchor);
            word' >= 0 && Represents(word', Do(c, s, l), anchor)
  {
    if l.Acquire? || l.Register? || l.Push? {
      ReachableHoldsInv(c, s);
      ArrivalPacked(c, s, l, word, anchor);
    } else if l.ScanStep? || l.KeepStep? || l.TransferStep? {
      GrantPacked(c, s, l, word, anchor);
    } else if l.FindStep? {
      FindPacked(c, s, l.t, word, anchor);
    } else if l.Release? || l.GiveBackStep? {
      ReleasePacked(c, s, l, word, anchor);
    } else if l.SpinStep? || l.Poison? || l.ClearPoison? {
      OthersPacked(c, s, l, word, anchor);
    } else {
      ReadersPacked(c, s, l, word, anchor);
    }
  }
}
