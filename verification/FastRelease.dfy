/**
 The fast path of `release_many` compares the whole word with a count of eight bits and replaces an
 equal word by zero. The data has six bits only, so the comparison may also succeed on a word with
 a queue behind it. Here it is shown exactly for which counts that can happen in a run.
 */
module FastRelease {
  import opened Opcodes
  import opened FairQueue
  import opened StateWord
  import opened QueueMachine
  import opened QueueInvariant
  import opened QueueSteps
  import opened QueueTheorems
  import opened PackedQueue

  /** The lowest address an anchor can have. */
  const LOWEST := 128

  /** Replacing the word `count` by zero gives back `count` permits and leaves nobody behind. */
  ghost predicate GivesBack(s: Sys, count: nat) {
    s.queue == [] && !s.locked && s.data == count
  }

  /** Whenever the fast path succeeds in a run, it does what it is for. */
  ghost predicate AlwaysExact(count: nat, anchor: nat -> nat) {
    forall s :: Reachable(SemaphoreClient, s) && Represents(count, s, anchor) ==> GivesBack(s, count)
  }

  /** Eight bits have room for the data, LOCKED, and the lowest address only. */
  lemma SmallParts(word: nat)
    requires word < 256
    ensures Fits64(Unpack(word)) && Pack(Unpack(word)) == word
    ensures Unpack(word).tail == 0 || Unpack(word).tail == LOWEST
  {
    PackOfUnpack(word);
    var slot := SplitAnchor(Unpack(word).tail);
  }

  /** A semaphore is never poisoned: LOCKED is set over a queue only. */
  lemma LockedMeansQueued(s: Sys)
    requires Reachable(SemaphoreClient, s)
    ensures s.locked ==> s.queue != []
  {
    ReachableHoldsInv(SemaphoreClient, s);
  }

  /** In every reachable state: the fast path succeeds wrongly exactly when the tail's anchor is the lowest. */
  lemma WrongExactlyAtLowest(s: Sys, count: nat, anchor: nat -> nat)
    requires Reachable(SemaphoreClient, s) && count < 256
    requires Placed(anchor) && Represents(count, s, anchor)
    ensures !GivesBack(s, count) <==> Tail(s.queue, anchor) == LOWEST
    ensures GivesBack(s, count) ==> count <= DATA_MASK
    ensures !GivesBack(s, count) ==> count > LOWEST && s.data + LOWEST <= count && s.queue != []
  {
    SmallParts(count);
    LockedMeansQueued(s);
    if s.queue != [] {
      assert Tail(s.queue, anchor) > 0;
      if !s.locked {
        NoStrandedWaiter(SemaphoreClient, s);
      }
    }
  }

  // ---------- Runs that fail ----------

  /** A semaphore with `permits` taken at construction, and `k` requests for all permits queued. */
  ghost predicate Waiting(s: Sys, permits: nat, k: nat) {
    && Reachable(SemaphoreClient, s)
    && s.data == permits && !s.locked && s.threads == map[]
    && s.owners == [Owner(0, Semaphore(permits), true)]
    && |s.queue| == k && s.nextId == k + 1
    && (k > 0 ==> s.queue[k - 1].id == k)
  }

  lemma {:induction false} QueueUp(permits: nat, k: nat) returns (s: Sys)
    requires 0 < permits <= DATA_MASK
    ensures Waiting(s, permits, k)
  {
    if k == 0 {
      s := Init(SemaphoreClient, permits);
      assert ReachedBy(SemaphoreClient, permits, [], s);
    } else {
      var s0 := QueueUp(permits, k - 1);
      var l := Push(Semaphore(DATA_MASK));
      StepStaysReachable(SemaphoreClient, s0, l);
      s := Do(SemaphoreClient, s0, l);
    }
  }

  /** The owner gives back all but `left` permits, so that the queue is being processed. */
  lemma GiveBackSome(s0: Sys, k: nat, left: nat) returns (s: Sys)
    requires Waiting(s0, DATA_MASK, k) && k > 0 && left <= DATA_MASK
    ensures Reachable(SemaphoreClient, s) && s.data == left && s.locked && s.queue == s0.queue
  {
    var c := SemaphoreClient;
    var split := SplitPermits(0, DATA_MASK - left);
    StepStaysReachable(c, s0, split);
    var s1 := Do(c, s0, split);
    var release := Release(0, 0);
    StepStaysReachable(c, s1, release);
    s := Do(c, s1, release);
  }

  /** For every larger count some run brings about a word on which the fast path goes wrong. */
  lemma FailingRun(count: nat, anchor: nat -> nat, k: nat) returns (s: Sys)
    requires LOWEST < count < 256 && Placed(anchor)
    requires k > 0 && anchor(k) == LOWEST
    ensures Reachable(SemaphoreClient, s) && Represents(count, s, anchor) && !GivesBack(s, count)
  {
    if count < LOWEST + LOCKED_FLAG {
      s := QueueUp(count - LOWEST, k);
      JoinWord(1, 0, count - LOWEST);
    } else {
      var s0 := QueueUp(DATA_MASK, k);
      s := GiveBackSome(s0, k, count - LOWEST - LOCKED_FLAG);
      JoinWord(1, 1, count - LOWEST - LOCKED_FLAG);
    }
  }

  /**
   The exact condition. The fast path is right in every run if and only if the count is at most 128
   or no entry that is ever queued has its anchor at address 128; entries are numbered from one.
   */
  lemma ExactCondition(count: nat, anchor: nat -> nat)
    requires count < 256 && Placed(anchor)
    ensures AlwaysExact(count, anchor) <==> count <= LOWEST || forall k: nat :: k > 0 ==> anchor(k) != LOWEST
  {
    if count > LOWEST && exists k: nat :: k > 0 && anchor(k) == LOWEST {
      var k: nat :| k > 0 && anchor(k) == LOWEST;
      var s := FailingRun(count, anchor, k);
    } else {
      forall s | Reachable(SemaphoreClient, s) && Represents(count, s, anchor)
        ensures GivesBack(s, count)
      {
        WrongExactlyAtLowest(s, count, anchor);
        TailIsOfEntry(s, anchor);
      }
    }
  }

  ghost predicate Numbered(s: Sys) {
    s.nextId > 0 && forall i :: 0 <= i < |s.queue| ==> s.queue[i].id > 0
  }

  /** Nobody enters the queue but at its tail, with a new number. */
  lemma StepKeepsNumbers(c: Client, s: Sys, l: Label)
    requires ThreadsOk(c, s) && Numbered(s) && Enabled(c, s, l)
    ensures Numbered(Do(c, s, l))
  {
    if l.FindStep? {
      FindKeepsNumbers(c, s, l.t);
    } else if l.ScanStep? || l.KeepStep? || l.TransferStep? {
      GrantKeepsNumbers(c, s, l);
    } else {
      OtherStepKeepsNumbers(c, s, l);
    }
  }

  lemma GrantKeepsNumbers(c: Client, s: Sys, l: Label)
    requires Numbered(s) && Enabled(c, s, l)
    requires l.ScanStep? || l.KeepStep? || l.TransferStep?
    ensures Numbered(Do(c, s, l))
  {
  }

  lemma OtherStepKeepsNumbers(c: Client, s: Sys, l: Label)
    requires Numbered(s) && Enabled(c, s, l)
    requires !l.ScanStep? && !l.KeepStep? && !l.TransferStep? && !l.FindStep?
    ensures Numbered(Do(c, s, l))
  {
  }

  lemma FindKeepsNumbers(c: Client, s: Sys, t: nat)
    requires ThreadsOk(c, s) && Numbered(s) && Enabled(c, s, FindStep(t))
    ensures Numbered(Do(c, s, FindStep(t)))
  {
    var Find(target, seen, r) := s.threads[t];
    assert LocalOk(c, s, t, s.threads[t]);
    var i := Position(s, target, r.len);
    if i < r.len {
      FindOutcome(c, s, t, target, seen, r, i);
    }
  }

  lemma {:induction false} RunKeepsNumbers(c: Client, s: Sys, run: seq<Label>)
    requires Inv(c, s) && Numbered(s) && Legal(c, s, run)
    ensures Numbered(Final(c, s, run))
    decreases |run|
  {
    if run != [] {
      StepKeepsInv(c, s, run[0]);
      StepKeepsNumbers(c, s, run[0]);
      RunKeepsNumbers(c, Do(c, s, run[0]), run[1..]);
    }
  }

  lemma TailIsOfEntry(s: Sys, anchor: nat -> nat)
    requires Reachable(SemaphoreClient, s) && Placed(anchor)
    ensures s.queue != [] ==> exists k: nat :: k > 0 && Tail(s.queue, anchor) == anchor(k)
    ensures s.queue == [] ==> Tail(s.queue, anchor) == 0
  {
    var withheld: nat, run: seq<Label> :| ReachedBy(SemaphoreClient, withheld, run, s);
    InitHoldsInv(SemaphoreClient, withheld);
    RunKeepsNumbers(SemaphoreClient, Init(SemaphoreClient, withheld), run);
    if s.queue != [] {
      var k := s.queue[|s.queue| - 1].id;
      assert k > 0 && Tail(s.queue, anchor) == anchor(k);
    }
  }

  /**
   A run that fails: all 63 permits are taken, one request queues up at address 128, and giving back
   191 permits, which nobody holds, succeeds, drops the request and frees the 63 permits.
   */
  lemma FastReleaseFails(anchor: nat -> nat)
    requires Placed(anchor) && anchor(2) == LOWEST
    ensures var run := [Acquire(Semaphore(63)), Push(Semaphore(1))];
            && Legal(SemaphoreClient, Init(SemaphoreClient, 0), run)
            && var s := Final(SemaphoreClient, Init(SemaphoreClient, 0), run);
               && Reachable(SemaphoreClient, s) && Represents(191, s, anchor)
               && s.data == 63 && s.queue == [Waiter(2, Semaphore(1))]
               && !Semaphore(191).CanRelease(s.data)
  {
    var c := SemaphoreClient;
    var s0 := Init(c, 0);
    var first, second := Acquire(Semaphore(63)), Push(Semaphore(1));
    RunExtends(c, s0, [], first);
    assert [] + [first] == [first];
    RunExtends(c, s0, [first], second);
    assert [first] + [second] == [first, second];
    assert ReachedBy(c, 0, [first, second], Final(c, s0, [first, second]));
    JoinWord(1, 0, 63);
  }
}
