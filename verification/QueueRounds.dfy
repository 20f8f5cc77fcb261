/**
 What a thread inside a call goes by: the rounds it is charged for and the clock that pays for them,
 the snapshots its rounds begin with, and the word that a canceller keeps, stale or not.
 */
module QueueRounds {
  import opened Opcodes
  import opened FairQueue
  import opened QueueMachine
  import opened QueueInvariant
  import opened QueueSteps
  import opened QueueTheorems

  // ---------- Disturbances ----------

  /** What disturbs a processor: somebody was pushed, or somebody gave something back. */
  predicate Disturbs(s: Sys, s': Sys, l: Label) {
    |s'.queue| > |s.queue| || (s'.data < s.data && !l.Poison?)
  }

  /** The clock by which the rounds of a processor are charged counts the disturbances, and nothing else. */
  lemma ClockCountsDisturbances(c: Client, s: Sys, l: Label)
    requires Reachable(c, s) && Enabled(c, s, l)
    ensures Do(c, s, l).clock == s.clock + if Disturbs(s, Do(c, s, l), l) then 1 else 0
  {
    ReachableHoldsInv(c, s);
    if l.FindStep? {
      assert LocalOk(c, s, l.t, s.threads[l.t]);
      FindKeepsClock(c, s, l.t);
    } else if l.ScanStep? || l.KeepStep? || l.TransferStep? {
      CommitKeepsClock(c, s, l);
    } else {
      OthersMoveClock(c, s, l);
    }
  }

  lemma OthersMoveClock(c: Client, s: Sys, l: Label)
    requires Enabled(c, s, l) && !l.FindStep? && !l.ScanStep? && !l.KeepStep? && !l.TransferStep?
    ensures Do(c, s, l).clock == s.clock + if Disturbs(s, Do(c, s, l), l) then 1 else 0
  {
    match l
    case Release(t, i) => GivingUpMovesClock(s, t, s.owners[i].op, i);
    case GiveBackStep(t, retry) => GivingBackMovesClock(c, s, t, retry);
    case _ => RestMovesClock(c, s, l);
  }

  lemma GivingUpMovesClock(s: Sys, t: nat, op: Opcode, i: nat)
    requires op.CanRelease(s.data)
    ensures var s' := GiveUp(s, t, op, i);
            s'.queue == s.queue && s'.data <= s.data && s'.clock == s.clock + if s'.data < s.data then 1 else 0
  {
  }

  lemma GivingBackMovesClock(c: Client, s: Sys, t: nat, retry: bool)
    requires Enabled(c, s, GiveBackStep(t, retry))
    ensures var s' := DoGiveBack(c, s, t, retry);
            s'.queue == s.queue && s'.data <= s.data && s'.clock == s.clock + if s'.data < s.data then 1 else 0
  {
  }

  lemma RestMovesClock(c: Client, s: Sys, l: Label)
    requires Enabled(c, s, l) && !l.FindStep? && !l.ScanStep? && !l.KeepStep? && !l.TransferStep?
    requires !l.Release? && !l.GiveBackStep?
    ensures Do(c, s, l).clock == s.clock + if Disturbs(s, Do(c, s, l), l) then 1 else 0
  {
  }

  lemma FindKeepsClock(c: Client, s: Sys, t: nat)
    requires Enabled(c, s, FindStep(t)) && s.threads[t].r.len <= |s.queue|
    ensures DoFind(c, s, t).clock == s.clock && !Disturbs(s, DoFind(c, s, t), FindStep(t))
  {
    var Find(target, seen, r) := s.threads[t];
    var i := Position(s, target, r.len);
    if i < r.len {
      FindOutcome(c, s, t, target, seen, r, i);
    }
  }

  lemma CommitKeepsClock(c: Client, s: Sys, l: Label)
    requires Enabled(c, s, l)
    requires l.ScanStep? || l.KeepStep? || l.TransferStep?
    ensures Do(c, s, l).clock == s.clock && !Disturbs(s, Do(c, s, l), l)
  {
  }

  /** The round that the thread is in, or is about to begin. */
  function RoundOf(l: Local): Option<Round> {
    match l
    case Scan(r, _) => Some(r)
    case Keep(r, _) => Some(r)
    case Transfer(r, _) => Some(r)
    case Deliver(_, _, next, _) => next
    case _ => None
  }

  function SeenAfter(after: After): Option<nat> {
    match after
    case Return => None
    case ThenAwait(_, seen) => Some(seen)
  }

  /** The data of the word that a canceller saw when it stopped spinning, and that it hands to `release_loop`. */
  function SeenOf(l: Local): Option<nat> {
    match l
    case Find(_, seen, _) => Some(seen)
    case Await(_, seen) => Some(seen)
    case GiveBack(_, seen) => Some(seen)
    case Scan(_, after) => SeenAfter(after)
    case Keep(_, after) => SeenAfter(after)
    case Transfer(_, after) => SeenAfter(after)
    case Deliver(_, _, _, after) => SeenAfter(after)
    case Spin(_) => None
  }

  predicate ByThread(l: Label) {
    || l.ScanStep? || l.KeepStep? || l.TransferStep? || l.DeliverStep? || l.Resume?
    || l.SpinStep? || l.FindStep? || l.AwaitStep? || l.GiveBackStep?
  }

  /** The thread goes on with the word it has seen, and in the same round unless `more` begin. */
  ghost predicate Continues(l: Local, l': Local, more: nat) {
    && (RoundOf(l).Some? && RoundOf(l').Some? ==>
          RoundOf(l').value.start == RoundOf(l).value.start && RoundOf(l').value.rounds == RoundOf(l).value.rounds + more)
    && (SeenOf(l).Some? && SeenOf(l').Some? ==> SeenOf(l') == SeenOf(l))
  }

  /** The step by thread `t` led to a state in which it continues, in a round if the word is LOCKED. */
  ghost predicate GoesOn(s: Sys, s': Sys, t: nat, more: nat)
    requires t in s.threads
  {
    t in s'.threads && Continues(s.threads[t], s'.threads[t], more) && (s'.locked ==> RoundOf(s'.threads[t]).Some?)
  }

  lemma ScanGoesOn(c: Client, s: Sys, t: nat)
    requires Enabled(c, s, ScanStep(t))
    ensures GoesOn(s, DoScan(c, s, t), t, 0)
  {
  }

  lemma KeepGoesOn(c: Client, s: Sys, t: nat)
    requires Enabled(c, s, KeepStep(t))
    ensures GoesOn(s, DoKeep(c, s, t), t, 0)
  {
  }

  lemma TransferGoesOn(c: Client, s: Sys, t: nat)
    requires Enabled(c, s, TransferStep(t))
    ensures GoesOn(s, DoTransfer(c, s, t), t, 1)
  {
  }

  lemma DeliveryGoesOn(c: Client, s: Sys, t: nat)
    requires Enabled(c, s, DeliverStep(t)) && (s.locked ==> s.threads[t].next.Some?)
    ensures GoesOn(s, DoDeliver(c, s, t), t, 0)
  {
  }

  /**
   The rounds that are charged are those that there are: exactly the commits that leave LOCKED set
   begin one more, and the clock at the first snapshot is kept all the time.
   */
  lemma RoundsAreCounted(c: Client, s: Sys, l: Label)
    requires Reachable(c, s) && Enabled(c, s, l)
    requires l.ScanStep? || l.KeepStep? || l.TransferStep? || (l.DeliverStep? && s.threads[l.t].next.Some?)
    ensures GoesOn(s, Do(c, s, l), l.t, if l.TransferStep? then 1 else 0)
  {
    match l
    case ScanStep(t) => ScanGoesOn(c, s, t);
    case KeepStep(t) => KeepGoesOn(c, s, t);
    case TransferStep(t) => TransferGoesOn(c, s, t);
    case DeliverStep(t) => DeliveryGoesOn(c, s, t);
  }

  /** When all results of a commit are set, the thread goes on with the round that it has begun, if any. */
  lemma ResumeGoesOn(c: Client, s: Sys, t: nat)
    requires Enabled(c, s, Resume(t))
    ensures var l := s.threads[t];
            match l.next
            case Some(r) => Do(c, s, Resume(t)) == Go(s, t, Scan(r, l.after))
            case None => t in Do(c, s, Resume(t)).threads ==> Continues(l, Do(c, s, Resume(t)).threads[t], 0)
  {
  }

  // ---------- Snapshots ----------

  /** The round begins with the word as it is, and nobody inspected yet. */
  predicate BeginsWith(r: Round, s: Sys) {
    r.data == s.data && r.len == |s.queue| && r.k == 0 && r.transferred == 0 && r.clock == s.clock
  }

  /** Thread `t` is about to walk the queue that there is, for the first time. */
  ghost predicate Starts(s: Sys, t: nat) {
    && t in s.threads && (s.threads[t].Scan? || s.threads[t].Find?)
    && BeginsWith(s.threads[t].r, s) && s.threads[t].r.rounds == 1 && s.threads[t].r.start == s.clock
  }

  /** Whoever takes LOCKED to process the queue begins its first round with the word that it wrote. */
  lemma FirstRoundIsFresh(c: Client, s: Sys, l: Label)
    requires Reachable(c, s) && Enabled(c, s, l)
    requires !s.locked && Do(c, s, l).locked && !Do(c, s, l).poisoned
    ensures (l.Release? || l.GiveBackStep? || l.SpinStep?) && Starts(Do(c, s, l), l.t)
  {
    ReachableHoldsInv(c, s);
    LockersStart(c, s, l);
  }

  lemma LockersStart(c: Client, s: Sys, l: Label)
    requires ThreadsOk(c, s) && WordOk(c, s) && Enabled(c, s, l) && !s.locked && Do(c, s, l).locked && !l.Poison?
    ensures (l.Release? || l.GiveBackStep? || l.SpinStep?) && Starts(Do(c, s, l), l.t)
  {
    if l.GiveBackStep? {
      GiverStarts(c, s, l.t, l.retry);
    }
  }

  lemma GiverStarts(c: Client, s: Sys, t: nat, retry: bool)
    requires Enabled(c, s, GiveBackStep(t, retry)) && !s.locked && DoGiveBack(c, s, t, retry).locked
    ensures Starts(DoGiveBack(c, s, t, retry), t)
  {
  }

  /** Every further round begins with the word that the commit before has left. */
  lemma NextRoundIsFresh(c: Client, s: Sys, t: nat)
    requires Reachable(c, s) && Enabled(c, s, TransferStep(t))
    ensures var l', s' := Do(c, s, TransferStep(t)).threads[t], Do(c, s, TransferStep(t));
            l'.Deliver? && l'.next.Some? && BeginsWith(l'.next.value, s')
  {
    ReachableHoldsInv(c, s);
  }

  // ---------- Stale words ----------

  /** The word was seen just now, or it is the one that the thread had seen before. */
  ghost predicate KeptWord(s: Sys, s': Sys, l: Label)
    requires ByThread(l) && l.t in s.threads && l.t in s'.threads
  {
    var seen, seen' := SeenOf(s.threads[l.t]), SeenOf(s'.threads[l.t]);
    && (l.SpinStep? && seen'.Some? ==> seen' == Some(s.data))
    && (seen.Some? && seen'.Some? && l != GiveBackStep(l.t, true) ==> seen' == seen)
  }

  /**
   A canceller looks at the word when it stops spinning, and not again until a compare-exchange of
   `release_loop` fails: whatever it does in between, it keeps that word, stale or not.
   */
  lemma CancellerKeepsItsWord(c: Client, s: Sys, l: Label)
    requires Reachable(c, s) && Enabled(c, s, l) && ByThread(l) && l.t in Do(c, s, l).threads
    ensures KeptWord(s, Do(c, s, l), l)
  {
    if l.ScanStep? || l.KeepStep? || l.TransferStep? {
      CommitKeepsItsWord(c, s, l);
    } else if l.FindStep? {
      ReachableHoldsInv(c, s);
      assert LocalOk(c, s, l.t, s.threads[l.t]);
      FindKeepsItsWord(c, s, l.t);
    } else {
      OthersKeepTheirWord(c, s, l);
    }
  }

  lemma CommitKeepsItsWord(c: Client, s: Sys, l: Label)
    requires Enabled(c, s, l) && (l.ScanStep? || l.KeepStep? || l.TransferStep?)
    requires l.t in Do(c, s, l).threads
    ensures KeptWord(s, Do(c, s, l), l)
  {
    match l
    case ScanStep(t) => ScanGoesOn(c, s, t);
    case KeepStep(t) => KeepGoesOn(c, s, t);
    case TransferStep(t) => TransferGoesOn(c, s, t);
  }

  lemma OthersKeepTheirWord(c: Client, s: Sys, l: Label)
    requires Enabled(c, s, l) && ByThread(l) && l.t in Do(c, s, l).threads
    requires !l.ScanStep? && !l.KeepStep? && !l.TransferStep? && !l.FindStep?
    ensures KeptWord(s, Do(c, s, l), l)
  {
    if l.GiveBackStep? {
      GivingBackKeepsItsWord(c, s, l.t, l.retry);
    } else if l.Resume? {
      ResumeGoesOn(c, s, l.t);
    }
  }

  lemma GivingBackKeepsItsWord(c: Client, s: Sys, t: nat, retry: bool)
    requires Enabled(c, s, GiveBackStep(t, retry)) && t in DoGiveBack(c, s, t, retry).threads
    ensures var seen' := SeenOf(DoGiveBack(c, s, t, retry).threads[t]); seen'.Some? ==> retry
  {
  }

  lemma FindKeepsItsWord(c: Client, s: Sys, t: nat)
    requires Enabled(c, s, FindStep(t)) && s.threads[t].r.len <= |s.queue| && t in DoFind(c, s, t).threads
    ensures var seen' := SeenOf(DoFind(c, s, t).threads[t]); seen'.Some? ==> seen' == SeenOf(s.threads[t])
    ensures var l, l' := s.threads[t], DoFind(c, s, t).threads[t];
            l'.Scan? ==> l'.r == l.r.(len := l'.r.len)
  {
    var Find(target, seen, r) := s.threads[t];
    var i := Position(s, target, r.len);
    if i < r.len {
      FindOutcome(c, s, t, target, seen, r, i);
    }
  }
}
