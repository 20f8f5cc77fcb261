/**
 Progress of the hand-off: nobody polls for ever. Once a result is final, every step of its owner
 brings the owner closer to having it, and no step of anybody else sets the owner back; once
 `set_result` has been called, the setter and the owner get there by themselves; and an owner that
 has nothing to receive yet goes to sleep with its latest waker installed.
 */
module ResultReception {
  import opened FairQueue
  import opened Handoff

  // ---------- The owner ----------

  /** How many steps an owner takes from here if its result is final. */
  function StepsLeft(owner: Handoff.Owner): nat {
    match owner
    case Consumed => 0
    case Consuming(_, _) => 1
    case Polling(_) | LookingAgain(_) => 2
    case Parked(_) | Looking(_) => 3
    case Clearing(_, _) | Announcing(_) => 4
    case Installing(_) => 5
  }

  function OwnerSteps(run: seq<Label>): nat {
    if run == [] then 0 else (if ByOwner(run[0]) then 1 else 0) + OwnerSteps(run[1..])
  }

  lemma OwnerStepGetsCloser(h: Hand, l: Label)
    requires Inv(h) && h.setter.Gone? && Enabled(h, l) && ByOwner(l) && l != Reuse
    ensures StepsLeft(Do(h, l).owner) + 1 == StepsLeft(h.owner)
    ensures Do(h, l).setter.Gone? && Do(h, l).given == h.given
  {
  }

  lemma OthersSpareOwner(h: Hand, l: Label)
    requires h.setter.Gone? && Enabled(h, l) && !ByOwner(l)
    ensures Do(h, l).owner == h.owner && Do(h, l).setter.Gone? && Do(h, l).given == h.given
  {
  }

  lemma {:induction false} RunGetsCloser(h: Hand, run: seq<Label>)
    requires Inv(h) && h.setter.Gone? && Legal(h, run) && Reuse !in run
    ensures StepsLeft(Final(h, run).owner) + OwnerSteps(run) == StepsLeft(h.owner)
    ensures Final(h, run).given == h.given && Inv(Final(h, run))
    decreases |run|
  {
    if run != [] {
      var l := run[0];
      assert l in run && forall x :: x in run[1..] ==> x in run;
      StepKeepsInv(h, l);
      if ByOwner(l) {
        OwnerStepGetsCloser(h, l);
      } else {
        OthersSpareOwner(h, l);
      }
      RunGetsCloser(Do(h, l), run[1..]);
    }
  }

  /** The owner's next step, whichever it is, can be taken. */
  lemma OwnerMoves(h: Hand) returns (l: Label)
    requires !h.owner.Consumed?
    ensures ByOwner(l) && l != Reuse && Enabled(h, l)
  {
    l := match h.owner
      case Polling(_) => TryConsume
      case Consuming(_, _) => Reset
      case Looking(_) => Look
      case LookingAgain(_) => LookAgain
      case Clearing(_, _) => Clear(false)
      case Installing(_) => Install
      case Announcing(_) => Announce
      case _ => Poll;
  }

  /**
   A final result is received. Whatever others do in between, the owner has its result after exactly
   `StepsLeft` steps of its own, at most five, and until then it always has a step to take.
   */
  lemma FinalResultIsReceived(h: Hand, run: seq<Label>)
    requires Reachable(h) && Has(h.state, RESULT_FINALIZED) && Legal(h, run) && Reuse !in run
    ensures var h' := Final(h, run);
            && OwnerSteps(run) <= StepsLeft(h.owner) <= 5
            && (h'.owner.Consumed? <==> OwnerSteps(run) == StepsLeft(h.owner))
            && (h'.owner.Consumed? ==> h'.received == h.given)
            && (!h'.owner.Consumed? ==> exists l :: ByOwner(l) && l != Reuse && Enabled(h', l))
  {
    ReachableHoldsInv(h);
    RunGetsCloser(h, run);
    if !Final(h, run).owner.Consumed? {
      var l := OwnerMoves(Final(h, run));
    }
  }

  // ---------- The setter ----------

  /** How many steps the setter takes from here if nobody else touches the state. */
  function SetterStepsLeft(h: Hand): nat {
    match h.setter
    case Setting(_, seen) => if seen == h.state then 3 else 4
    case Taking => 2
    case Finishing(_) => 1
    case _ => 0
  }

  /** A run of the setter's own steps to the end of `set_result`. */
  ghost predicate SetterEnds(h: Hand, run: seq<Label>) {
    && |run| <= SetterStepsLeft(h) && Legal(h, run) && (forall l :: l in run ==> l.SetResult? || l.Take? || l.Finalize?)
    && Final(h, run).setter.Gone? && Final(h, run).owner == h.owner && Final(h, run).given == h.given
  }

  lemma SetterEndsAfter(h: Hand, l: Label, run: seq<Label>)
    requires Enabled(h, l) && (l.SetResult? || l.Take? || l.Finalize?)
    requires SetterStepsLeft(Do(h, l)) < SetterStepsLeft(h) && Do(h, l).owner == h.owner && Do(h, l).given == h.given
    requires SetterEnds(Do(h, l), run)
    ensures SetterEnds(h, [l] + run)
  {
    StepBefore(h, l, run);
  }

  /** The setter needs nobody: `set_result` comes to its end from wherever it is. */
  lemma SetterFinishes(h: Hand) returns (run: seq<Label>)
    requires Inv(h) && !h.setter.Idle?
    ensures SetterEnds(h, run)
    decreases SetterStepsLeft(h)
  {
    if h.setter.Gone? {
      run := [];
    } else {
      var l := match h.setter
        case Setting(_, seen) => SetResult(seen == h.state)
        case Taking => Take
        case _ => Finalize;
      StepKeepsInv(h, l);
      var rest := SetterFinishes(Do(h, l));
      SetterEndsAfter(h, l, rest);
      run := [l] + rest;
    }
  }

  // ---------- Both ----------

  lemma {:induction false} OwnerFinishes(h: Hand) returns (run: seq<Label>)
    requires Inv(h) && h.setter.Gone?
    ensures Legal(h, run) && Final(h, run).owner.Consumed? && Final(h, run).received == h.given
    ensures |run| == StepsLeft(h.owner) && forall l :: l in run ==> ByOwner(l) && l != Reuse
    decreases StepsLeft(h.owner)
  {
    if h.owner.Consumed? {
      run := [];
    } else {
      var l := OwnerMoves(h);
      StepKeepsInv(h, l);
      OwnerStepGetsCloser(h, l);
      var rest := OwnerFinishes(Do(h, l));
      StepBefore(h, l, rest);
      run := [l] + rest;
    }
  }

  lemma {:induction false} RunsCompose(h: Hand, a: seq<Label>, b: seq<Label>)
    requires Legal(h, a) && Legal(Final(h, a), b)
    ensures Legal(h, a + b) && Final(h, a + b) == Final(Final(h, a), b)
    decreases |a|
  {
    if a == [] {
      assert a + b == b;
    } else {
      assert (a + b)[1..] == a[1..] + b;
      RunsCompose(Do(h, a[0]), a[1..], b);
    }
  }

  /**
   A result that is being set arrives: the setter and the owner need at most nine steps of their own,
   and nobody else's help, until the owner has received everything that was given.
   */
  lemma ResultWillBeReceived(h: Hand) returns (run: seq<Label>)
    requires Reachable(h) && !h.setter.Idle?
    ensures |run| <= 9 && Legal(h, run)
    ensures forall l :: l in run ==> l.SetResult? || l.Take? || l.Finalize? || (ByOwner(l) && l != Reuse)
    ensures Final(h, run).owner.Consumed? && Final(h, run).received == h.given
  {
    ReachableHoldsInv(h);
    var a := SetterFinishes(h);
    RunKeepsInv(h, a);
    var b := OwnerFinishes(Final(h, a));
    RunsCompose(h, a, b);
    run := a + b;
  }

  /** Any byte can be handed over, whatever the owner is doing when `set_result` is called with it. */
  lemma AnyResultArrives(h: Hand, code: bv16) returns (run: seq<Label>)
    requires Reachable(h) && h.setter.Idle? && code <= BYTE
    ensures |run| <= 10 && Legal(h, run) && Reuse !in run
    ensures Final(h, run).owner.Consumed? && Final(h, run).received == h.given + [code]
  {
    ReachableHoldsInv(h);
    var h1 := Do(h, CallSet(code));
    StepStaysReachable(h, CallSet(code));
    var rest := ResultWillBeReceived(h1);
    StepBefore(h, CallSet(code), rest);
    run := [CallSet(code)] + rest;
  }

  lemma StepStaysReachable(h: Hand, l: Label)
    requires Reachable(h) && Enabled(h, l)
    ensures Reachable(Do(h, l))
  {
    var run: seq<Label> :| Legal(Init(), run) && Final(Init(), run) == h;
    assert Legal(h, [l]) && Final(h, [l]) == Do(h, l) by {
      StepBefore(h, l, []);
      assert [l] + [] == [l];
    }
    RunsCompose(Init(), run, [l]);
  }

  // ---------- Sleeping ----------

  /** A run of the owner alone that ends with the owner parked and its waker installed. */
  ghost predicate Parks(h: Hand, run: seq<Label>, w: nat) {
    && Legal(h, run) && (forall l :: l in run ==> ByOwner(l) && l != Poll && l != Reuse)
    && var h' := Final(h, run);
       && h'.owner == Parked(w) && Has(h'.state, WAKER_SET) && h'.cell == Some(w)
       && h'.woken == h.woken && h'.setter == h.setter
  }

  lemma ParksAfter(h: Hand, l: Label, run: seq<Label>, w: nat)
    requires Enabled(h, l) && ByOwner(l) && l != Poll && l != Reuse
    requires Parks(Do(h, l), run, w) && Do(h, l).woken == h.woken && Do(h, l).setter == h.setter
    ensures Parks(h, [l] + run, w)
  {
    StepBefore(h, l, run);
  }

  /**
   No busy waiting: while nobody calls `set_result`, an owner that polls and is not disturbed parks,
   without waking itself, and leaves its own waker in the cell.
   */
  lemma UndisturbedOwnerParks(h: Hand) returns (run: seq<Label>)
    requires Reachable(h) && h.setter.Idle? && h.owner.Polling?
    ensures |run| <= 5 && Parks(h, run, h.owner.w)
  {
    ReachableHoldsInv(h);
    var w := h.owner.w;
    var h1 := Do(h, TryConsume);
    StepKeepsInv(h, TryConsume);
    StepKeepsInv(h1, Look);
    var h2 := Do(h1, Look);
    if h2.owner.Clearing? {
      StepKeepsInv(h2, Clear(true));
      run := InstallerParks(Do(h2, Clear(true)));
      ParksAfter(h2, Clear(true), run, w);
      run := [Clear(true)] + run;
    } else {
      run := InstallerParks(h2);
    }
    ParksAfter(h1, Look, run, w);
    ParksAfter(h, TryConsume, [Look] + run, w);
    run := [TryConsume] + ([Look] + run);
  }

  lemma InstallerParks(h: Hand) returns (run: seq<Label>)
    requires Inv(h) && h.setter.Idle? && h.owner.Installing?
    ensures |run| == 2 && Parks(h, run, h.owner.w)
  {
    var w := h.owner.w;
    var h1 := Do(h, Install);
    StepKeepsInv(h, Install);
    StepKeepsInv(h1, Announce);
    SettingFlag(h1.state, WAKER_SET);
    assert Parks(Do(h1, Announce), [], w);
    ParksAfter(h1, Announce, [], w);
    ParksAfter(h, Install, [Announce] + [], w);
    run := [Install] + ([Announce] + []);
  }

  // ---------- Wakers ----------

  ghost predicate KnownWaker(h: Hand, w: nat) {
    || w in h.woken || w in h.owed || h.cell == Some(w)
    || (h.setter.Finishing? && h.setter.taken == Some(w))
  }

  ghost predicate WakersOk(h: Hand) {
    && (forall w: nat :: KnownWaker(h, w) ==> w < h.polls)
    && (h.owner.Consumed? || h.owner.w < h.polls)
  }

  lemma StepKeepsWakers(h: Hand, l: Label)
    requires WakersOk(h) && Enabled(h, l)
    ensures WakersOk(Do(h, l))
  {
    var h' := Do(h, l);
    forall w: nat | KnownWaker(h', w)
      ensures w < h'.polls
    {
      assert KnownWaker(h, w) || (!h.owner.Consumed? && w == h.owner.w);
    }
  }

  lemma {:induction false} RunKeepsWakers(h: Hand, run: seq<Label>)
    requires WakersOk(h) && Legal(h, run)
    ensures WakersOk(Final(h, run))
    decreases |run|
  {
    if run != [] {
      StepKeepsWakers(h, run[0]);
      RunKeepsWakers(Do(h, run[0]), run[1..]);
    }
  }

  /**
   Every poll has a waker of its own: when it begins, that waker has not been woken, is not about to
   be, and is not in the cell. So to be woken means to be woken for this very poll.
   */
  lemma WakersAreFresh(h: Hand, l: Label)
    requires Reachable(h) && Enabled(h, l) && (l.Poll? || l.Reuse?)
    ensures Do(h, l).owner.Polling? && !KnownWaker(Do(h, l), Do(h, l).owner.w)
  {
    var run: seq<Label> :| Legal(Init(), run) && Final(Init(), run) == h;
    RunKeepsWakers(Init(), run);
    assert forall w: nat :: KnownWaker(Do(h, l), w) ==> KnownWaker(h, w);
  }

  /** An entry that is used again is like a new one: what is left of its former uses is history. */
  lemma ReuseIsNew(h: Hand)
    requires Reachable(h) && Enabled(h, Reuse)
    ensures var h', init := Do(h, Reuse), Init();
            && h'.state == init.state && h'.cell == init.cell && h'.setter == init.setter && h'.owner.Polling?
            && h'.given == h'.received == h.received
  {
    ReachableHoldsInv(h);
  }
}
