/**
 How one entry hands its result from the thread that sets it to the owner that polls for it. The
 two share a 16-bit state of three flags and a result byte, and a cell for the owner's waker that
 is not atomic. A label is one atomic access to the state, or one access to the cell. A waker is a
 number that is new for every poll; synchronous and asynchronous owners differ only in what a
 waker stands for: a parked thread or a pending task.
 */
module Handoff {
  import opened FairQueue

  const RESULT_SET: bv16 := 0x100
  const WAKER_SET: bv16 := 0x200
  const RESULT_FINALIZED: bv16 := 0x400
  const BYTE: bv16 := 0xFF

  datatype Owner =
    | Polling(w: nat)               // about to look for a final result
    | Consuming(w: nat, seen: bv16) // it is final: about to reset the state
    | Looking(w: nat)               // no final result: about to load the state
    | LookingAgain(w: nat)          // the result is set: about to look whether it is final by now
    | Clearing(w: nat, seen: bv16)  // an old waker is installed: about to take it back
    | Installing(w: nat)            // about to write the cell
    | Announcing(w: nat)            // about to set WAKER_SET
    | Parked(w: nat)                // parked or pending
    | Consumed                      // has the result; the entry is the owner's alone

  datatype Setter =
    | Idle                          // nobody has called `set_result` yet
    | Setting(code: bv16, seen: bv16)  // about to set RESULT_SET
    | Taking                        // about to take the waker out of the cell
    | Finishing(taken: Option<nat>) // about to set RESULT_FINALIZED
    | Gone

  datatype Hand = Hand(
    state: bv16,
    cell: Option<nat>,
    owner: Owner,
    setter: Setter,
    owed: seq<nat>,     // wakers that setters have taken out and not woken yet
    woken: set<nat>,    // wakers that have been woken
    polls: nat,         // the number of the next waker
    given: seq<bv16>,   // the results passed to `set_result`, one for each use of the entry
    received: seq<bv16> // the results that the owner got
  )

  datatype Label =
    | Poll
    | TryConsume
    | Reset
    | Look
    | LookAgain
    | Clear(ok: bool)
    | Install
    | Announce
    | Reuse
    | CallSet(code: bv16)
    | SetResult(ok: bool)
    | Take
    | Finalize
    | Wake(i: nat)

  predicate Has(state: bv16, flag: bv16) {
    state & flag == flag
  }

  /** A weak compare-exchange may fail although the state is as expected, but not the other way. */
  predicate Enabled(h: Hand, l: Label) {
    match l
    case Poll => h.owner.Parked?
    case TryConsume => h.owner.Polling?
    case Reset => h.owner.Consuming?
    case Look => h.owner.Looking?
    case LookAgain => h.owner.LookingAgain?
    case Clear(ok) => h.owner.Clearing? && (ok ==> h.state == h.owner.seen)
    case Install => h.owner.Installing?
    case Announce => h.owner.Announcing?
    case Reuse => h.owner.Consumed?
    case CallSet(code) => h.setter.Idle? && code <= BYTE
    case SetResult(ok) => h.setter.Setting? && (ok ==> h.state == h.setter.seen)
    case Take => h.setter.Taking?
    case Finalize => h.setter.Finishing?
    case Wake(i) => i < |h.owed|
  }

  /** The state with RESULT_SET and the result byte. */
  function WithResult(state: bv16, code: bv16): bv16 {
    (state | RESULT_SET) | code
  }

  /** The owner wakes itself, so it polls again. */
  function WakeSelf(h: Hand, w: nat): Hand {
    h.(owner := Parked(w), woken := h.woken + {w})
  }

  function Do(h: Hand, l: Label): Hand
    requires Enabled(h, l)
  {
    match l
    case Poll => h.(owner := Polling(h.polls), polls := h.polls + 1)
    case TryConsume =>
      h.(owner := if Has(h.state, RESULT_FINALIZED) then Consuming(h.owner.w, h.state) else Looking(h.owner.w))
    case Reset => h.(state := 0, owner := Consumed, received := h.received + [h.owner.seen & BYTE])
    case Look =>
      h.(owner :=
        if Has(h.state, RESULT_SET) then LookingAgain(h.owner.w)
        else if Has(h.state, WAKER_SET) then Clearing(h.owner.w, h.state)
        else Installing(h.owner.w))
    case LookAgain =>
      if Has(h.state, RESULT_FINALIZED) then h.(owner := Consuming(h.owner.w, h.state)) else WakeSelf(h, h.owner.w)
    case Clear(ok) =>
      if ok then h.(state := h.state & !WAKER_SET, owner := Installing(h.owner.w)) else WakeSelf(h, h.owner.w)
    case Install => h.(cell := Some(h.owner.w), owner := Announcing(h.owner.w))
    case Announce =>
      var h1 := h.(state := h.state | WAKER_SET);
      if Has(h.state, RESULT_SET) then WakeSelf(h1, h.owner.w) else h1.(owner := Parked(h.owner.w))
    case Reuse => h.(cell := None, owner := Polling(h.polls), polls := h.polls + 1, setter := Idle)
    case CallSet(code) => h.(setter := Setting(code, h.state), given := h.given + [code])
    case SetResult(ok) =>
      if ok then
        h.(state := WithResult(h.state, h.setter.code),
           setter := if Has(WithResult(h.state, h.setter.code), WAKER_SET) then Taking else Finishing(None))
      else
        h.(setter := Setting(h.setter.code, h.state))
    case Take => h.(cell := None, setter := Finishing(h.cell))
    case Finalize =>
      h.(state := h.state | RESULT_FINALIZED,
         owed := h.owed + (match h.setter.taken case Some(w) => [w] case None => []),
         setter := Gone)
    case Wake(i) => h.(owed := RemoveAt(h.owed, i), woken := h.woken + {h.owed[i]})
  }

  /** A new entry, which its owner is about to poll. */
  function Init(): Hand {
    Hand(0, None, Polling(0), Idle, [], {}, 1, [], [])
  }

  predicate Legal(h: Hand, run: seq<Label>)
    decreases |run|
  {
    run == [] || (Enabled(h, run[0]) && Legal(Do(h, run[0]), run[1..]))
  }

  function Final(h: Hand, run: seq<Label>): Hand
    requires Legal(h, run)
    decreases |run|
  {
    if run == [] then h else Final(Do(h, run[0]), run[1..])
  }

  // ---------- Who may access what ----------

  /** Accesses to the cell, which is not atomic. */
  predicate OwnerInCell(h: Hand) {
    h.owner.Installing?
  }

  predicate SetterInCell(h: Hand) {
    h.setter.Taking?
  }

  /** The setter still reads or writes the entry. */
  predicate SetterInEntry(h: Hand) {
    h.setter.Setting? || h.setter.Taking? || h.setter.Finishing?
  }

  // ---------- The invariant ----------

  /** What the three flags and the byte say about the progress of the setter. */
  ghost predicate FlagsOk(h: Hand) {
    var settled := (h.setter.Taking? || h.setter.Finishing? || h.setter.Gone?) && !h.owner.Consumed?;
    && Has(h.state, RESULT_SET) == settled
    && Has(h.state, RESULT_FINALIZED) == (h.setter.Gone? && !h.owner.Consumed?)
    && h.state & BYTE == (if settled && h.given != [] then h.given[|h.given| - 1] else 0)
    && (h.owner.Consumed? ==> h.state == 0 && h.setter.Gone?)
  }

  /** What the owner knows between its accesses. */
  ghost predicate OwnerOk(h: Hand) {
    match h.owner
    case Consuming(_, seen) => h.setter.Gone? && seen == h.state
    case LookingAgain(_) => Has(h.state, RESULT_SET)
    case Clearing(_, seen) => Has(h.state, WAKER_SET) && !Has(seen, RESULT_SET)
    case Installing(_) => !Has(h.state, WAKER_SET)
    case Announcing(w) => !Has(h.state, WAKER_SET) && h.cell == Some(w)
    case _ => true
  }

  /** The cell holds a waker as long as the setter may come for it. */
  ghost predicate CellOk(h: Hand) {
    && (Has(h.state, WAKER_SET) && !h.setter.Finishing? && !h.setter.Gone? ==> h.cell.Some?)
    && (h.setter.Taking? ==> Has(h.state, WAKER_SET))
  }

  ghost predicate ParkedOk(h: Hand, w: nat) {
    || w in h.woken
    || match h.setter
       case Idle => Has(h.state, WAKER_SET) && h.cell == Some(w)
       case Setting(_, _) => Has(h.state, WAKER_SET) && h.cell == Some(w)
       case Taking => h.cell == Some(w)
       case Finishing(taken) => taken == Some(w)
       case Gone => w in h.owed
  }

  ghost predicate ResultsOk(h: Hand) {
    && h.received <= h.given
    && |h.given| == |h.received| + (if h.setter.Idle? || h.owner.Consumed? then 0 else 1)
    && (h.setter.Setting? ==> h.given != [] && h.setter.code == h.given[|h.given| - 1])
    && (forall i :: 0 <= i < |h.given| ==> h.given[i] <= BYTE)
  }

  ghost predicate Inv(h: Hand) {
    && FlagsOk(h)
    && OwnerOk(h)
    && CellOk(h)
    && (h.owner.Parked? ==> ParkedOk(h, h.owner.w))
    && ResultsOk(h)
  }

  // ---------- Bits ----------

  lemma ResultByte(state: bv16, code: bv16)
    requires code <= BYTE && state & BYTE == 0
    ensures WithResult(state, code) & BYTE == code
  {
  }

  lemma ResultFlags(state: bv16, code: bv16)
    requires code <= BYTE
    ensures Has(WithResult(state, code), RESULT_SET)
    ensures WithResult(state, code) & WAKER_SET == state & WAKER_SET
    ensures WithResult(state, code) & RESULT_FINALIZED == state & RESULT_FINALIZED
  {
  }

  lemma SettingFlag(state: bv16, flag: bv16)
    requires flag == WAKER_SET || flag == RESULT_FINALIZED
    ensures var state' := state | flag;
            && Has(state', flag) && state' & BYTE == state & BYTE
            && Has(state', RESULT_SET) == Has(state, RESULT_SET)
            && (flag != WAKER_SET ==> Has(state', WAKER_SET) == Has(state, WAKER_SET))
            && (flag != RESULT_FINALIZED ==> Has(state', RESULT_FINALIZED) == Has(state, RESULT_FINALIZED))
  {
  }

  lemma ClearingWaker(state: bv16)
    ensures var state' := state & !WAKER_SET;
            && !Has(state', WAKER_SET) && state' & BYTE == state & BYTE
            && Has(state', RESULT_SET) == Has(state, RESULT_SET)
            && Has(state', RESULT_FINALIZED) == Has(state, RESULT_FINALIZED)
  {
  }

  lemma ZeroState()
    ensures !Has(0, RESULT_SET) && !Has(0, WAKER_SET) && !Has(0, RESULT_FINALIZED) && 0 & BYTE == 0
  {
  }

  // ---------- Steps ----------

  /** The state, the setter and the results are as they were. */
  ghost predicate SameSetter(h: Hand, h': Hand) {
    && h'.state == h.state && h'.setter == h.setter
    && h'.given == h.given && h'.received == h.received
    && h'.owner.Consumed? == h.owner.Consumed?
  }

  lemma SetterStays(h: Hand, h': Hand)
    requires Inv(h) && SameSetter(h, h')
    ensures FlagsOk(h') && ResultsOk(h')
    ensures h'.cell == h.cell || h'.cell.Some? ==> CellOk(h')
  {
  }

  lemma OwnerKeepsInv(h: Hand, l: Label)
    requires Inv(h) && Enabled(h, l)
    requires l.Poll? || l.TryConsume?
    ensures Inv(Do(h, l))
  {
    SetterStays(h, Do(h, l));
  }

  lemma LookKeepsInv(h: Hand, l: Label)
    requires Inv(h) && Enabled(h, l)
    requires l.Look? || l.Install?
    ensures Inv(Do(h, l))
  {
    SetterStays(h, Do(h, l));
  }

  lemma LookAgainKeepsInv(h: Hand)
    requires Inv(h) && Enabled(h, LookAgain)
    ensures Inv(Do(h, LookAgain))
  {
    SetterStays(h, Do(h, LookAgain));
  }

  lemma ResetKeepsInv(h: Hand, l: Label)
    requires Inv(h) && Enabled(h, l)
    requires l.Reuse? || l.Reset?
    ensures Inv(Do(h, l))
  {
    ZeroState();
  }

  lemma ClearKeepsInv(h: Hand, ok: bool)
    requires Inv(h) && Enabled(h, Clear(ok))
    ensures Inv(Do(h, Clear(ok)))
  {
    ClearingWaker(h.state);
  }

  lemma AnnounceKeepsInv(h: Hand)
    requires Inv(h) && Enabled(h, Announce)
    ensures Inv(Do(h, Announce))
  {
    SettingFlag(h.state, WAKER_SET);
  }

  lemma SetResultKeepsFlags(h: Hand)
    requires Inv(h) && Enabled(h, SetResult(true))
    ensures FlagsOk(Do(h, SetResult(true)))
  {
    ResultFlags(h.state, h.setter.code);
    ResultByte(h.state, h.setter.code);
  }

  lemma SetResultKeepsInv(h: Hand)
    requires Inv(h) && Enabled(h, SetResult(true))
    ensures Inv(Do(h, SetResult(true)))
  {
    SetResultKeepsFlags(h);
    ResultFlags(h.state, h.setter.code);
  }

  lemma FinalizeKeepsFlags(h: Hand)
    requires Inv(h) && Enabled(h, Finalize)
    ensures FlagsOk(Do(h, Finalize))
  {
    SettingFlag(h.state, RESULT_FINALIZED);
  }

  lemma FinalizeKeepsOwner(h: Hand)
    requires Inv(h) && Enabled(h, Finalize)
    ensures OwnerOk(Do(h, Finalize))
  {
    SettingFlag(h.state, RESULT_FINALIZED);
  }

  lemma FinalizeKeepsInv(h: Hand)
    requires Inv(h) && Enabled(h, Finalize)
    ensures Inv(Do(h, Finalize))
  {
    FinalizeKeepsFlags(h);
    FinalizeKeepsOwner(h);
  }

  lemma SetterKeepsInv(h: Hand, l: Label)
    requires Inv(h) && Enabled(h, l)
    requires l.CallSet? || l == SetResult(false)
    ensures Inv(Do(h, l))
  {
  }

  lemma TakeKeepsInv(h: Hand)
    requires Inv(h) && Enabled(h, Take)
    ensures Inv(Do(h, Take))
  {
  }

  lemma WakeKeepsInv(h: Hand, i: nat)
    requires Inv(h) && Enabled(h, Wake(i))
    ensures Inv(Do(h, Wake(i)))
  {
    SetterStays(h, Do(h, Wake(i)));
  }

  predicate ByOwner(l: Label) {
    l.Poll? || l.TryConsume? || l.Reset? || l.Look? || l.LookAgain? || l.Clear? || l.Install? || l.Announce? || l.Reuse?
  }

  lemma OwnerStepKeepsInv(h: Hand, l: Label)
    requires Inv(h) && Enabled(h, l) && ByOwner(l)
    ensures Inv(Do(h, l))
  {
    match l
    case Clear(ok) => ClearKeepsInv(h, ok);
    case Announce => AnnounceKeepsInv(h);
    case LookAgain => LookAgainKeepsInv(h);
    case Poll | TryConsume => OwnerKeepsInv(h, l);
    case Look | Install => LookKeepsInv(h, l);
    case Reset | Reuse => ResetKeepsInv(h, l);
  }

  lemma SetterStepKeepsInv(h: Hand, l: Label)
    requires Inv(h) && Enabled(h, l) && !ByOwner(l)
    ensures Inv(Do(h, l))
  {
    match l
    case Finalize => FinalizeKeepsInv(h);
    case Take => TakeKeepsInv(h);
    case Wake(i) => WakeKeepsInv(h, i);
    case CallSet(_) => SetterKeepsInv(h, l);
    case SetResult(ok) =>
      if ok {
        SetResultKeepsInv(h);
      } else {
        SetterKeepsInv(h, l);
      }
  }

  lemma StepKeepsInv(h: Hand, l: Label)
    requires Inv(h) && Enabled(h, l)
    ensures Inv(Do(h, l))
  {
    if ByOwner(l) {
      OwnerStepKeepsInv(h, l);
    } else {
      SetterStepKeepsInv(h, l);
    }
  }

  ghost predicate Reachable(h: Hand) {
    exists run: seq<Label> :: Legal(Init(), run) && Final(Init(), run) == h
  }

  lemma {:induction false} RunKeepsInv(h: Hand, run: seq<Label>)
    requires Inv(h) && Legal(h, run)
    ensures Inv(Final(h, run))
    decreases |run|
  {
    if run != [] {
      StepKeepsInv(h, run[0]);
      RunKeepsInv(Do(h, run[0]), run[1..]);
    }
  }

  lemma ReachableHoldsInv(h: Hand)
    requires Reachable(h)
    ensures Inv(h)
  {
    ZeroState();
    var run: seq<Label> :| Legal(Init(), run) && Final(Init(), run) == h;
    RunKeepsInv(Init(), run);
  }

  // ---------- Theorems ----------

  /**
   No lost wakeup. A parked owner has been woken; or its own latest waker is installed and no result
   is set; or the setter is certain to wake that very waker.
   */
  lemma NoLostWakeup(h: Hand)
    requires Reachable(h) && h.owner.Parked?
    ensures var w := h.owner.w;
            || w in h.woken
            || (Has(h.state, WAKER_SET) && !Has(h.state, RESULT_SET) && h.cell == Some(w))
            || (h.setter.Taking? && h.cell == Some(w))
            || h.setter == Finishing(Some(w))
            || w in h.owed
  {
    ReachableHoldsInv(h);
  }

  lemma StepBefore(h: Hand, l: Label, run: seq<Label>)
    requires Enabled(h, l) && Legal(Do(h, l), run)
    ensures Legal(h, [l] + run) && Final(h, [l] + run) == Final(Do(h, l), run)
  {
    assert ([l] + run)[1..] == run;
  }

  lemma FinalizeWakes(h: Hand)
    requires h.setter.Finishing? && h.setter.taken.Some?
    ensures var run := [Finalize, Wake(|h.owed|)];
            && Legal(h, run) && Final(h, run).owner == h.owner && h.setter.taken.value in Final(h, run).woken
  {
    var h1 := Do(h, Finalize);
    assert [Wake(|h.owed|)] + [] == [Wake(|h.owed|)];
    StepBefore(h1, Wake(|h.owed|), []);
    StepBefore(h, Finalize, [Wake(|h.owed|)]);
    assert [Finalize] + [Wake(|h.owed|)] == [Finalize, Wake(|h.owed|)];
  }

  /** From the moment the result is set, the setter's own steps alone wake a parked owner. */
  lemma SetResultWakes(h: Hand)
    requires Reachable(h) && h.owner.Parked? && Has(h.state, RESULT_SET)
    ensures exists run: seq<Label> ::
              && |run| <= 3 && (forall l :: l in run ==> l.Take? || l.Finalize? || l.Wake?)
              && Legal(h, run) && Final(h, run).owner == h.owner && h.owner.w in Final(h, run).woken
  {
    ReachableHoldsInv(h);
    var w := h.owner.w;
    if w in h.woken {
      assert Legal(h, []) && Final(h, []) == h;
    } else if h.setter.Gone? {
      var i :| 0 <= i < |h.owed| && h.owed[i] == w;
      assert [Wake(i)] + [] == [Wake(i)];
      StepBefore(h, Wake(i), []);
    } else if h.setter.Finishing? {
      FinalizeWakes(h);
    } else {
      FinalizeWakes(Do(h, Take));
      StepBefore(h, Take, [Finalize, Wake(|h.owed|)]);
      assert [Take] + [Finalize, Wake(|h.owed|)] == [Take, Finalize, Wake(|h.owed|)];
    }
  }

  /** The cell is never accessed by both, and the setter finds a waker in it whenever it looks. */
  lemma CellIsExclusive(h: Hand)
    requires Reachable(h)
    ensures !(OwnerInCell(h) && SetterInCell(h))
    ensures SetterInCell(h) ==> h.cell.Some?
    ensures h.owner.Consumed? ==> !SetterInCell(h)
  {
    ReachableHoldsInv(h);
  }

  /**
   The owner has its result only when the setter is done with the entry. From then on nothing but
   the owner's own decision to use the entry again lets anybody in.
   */
  lemma EntryIsTheOwners(h: Hand, l: Label)
    requires Reachable(h) && (h.owner.Consuming? || h.owner.Consumed?) && Enabled(h, l)
    ensures !SetterInEntry(h)
    ensures l != Reuse && l != Reset ==> l.Wake? && Do(h, l) == h.(owed := Do(h, l).owed, woken := Do(h, l).woken)
  {
    ReachableHoldsInv(h);
  }

  /** The steps with which a setter reads or writes the entry. */
  predicate Touches(l: Label) {
    l.CallSet? || l.SetResult? || l.Take? || l.Finalize?
  }

  lemma {:induction false} GoneStays(h: Hand, run: seq<Label>)
    requires h.setter.Gone? && Legal(h, run) && Reuse !in run
    ensures Final(h, run).setter.Gone?
    ensures forall l :: l in run ==> !Touches(l)
    decreases |run|
  {
    if run != [] {
      assert run[0] in run && forall l :: l in run[1..] ==> l in run;
      GoneStays(Do(h, run[0]), run[1..]);
      assert forall l :: l in run ==> l == run[0] || l in run[1..];
    }
  }

  /**
   Setting RESULT_FINALIZED is the setter's last access to the entry: in no run that follows, however
   long, does any setter touch the entry before the owner decides to use it again; and the owner
   does not get out of its polling before that flag is set.
   */
  lemma FinalizeIsLast(h: Hand, run: seq<Label>)
    requires Reachable(h) && Enabled(h, Finalize)
    requires Legal(Do(h, Finalize), run) && Reuse !in run
    ensures forall l :: l in run ==> !Touches(l)
    ensures !SetterInEntry(Final(Do(h, Finalize), run))
    ensures !h.owner.Consuming? && !h.owner.Consumed?
  {
    ReachableHoldsInv(h);
    GoneStays(Do(h, Finalize), run);
  }

  /** The owner receives exactly the results that were given, each once, in order. */
  lemma ResultsArrive(h: Hand)
    requires Reachable(h)
    ensures h.received <= h.given && |h.given| <= |h.received| + 1
    ensures h.owner.Consumed? ==> h.received == h.given
  {
    ReachableHoldsInv(h);
  }

  /** `set_result` finds neither a result nor a final result: its debug assertions hold. */
  lemma ResultIsSetOnce(h: Hand)
    requires Reachable(h) && h.setter.Setting?
    ensures !Has(h.state, RESULT_SET) && !Has(h.state, RESULT_FINALIZED) && h.state & BYTE == 0
  {
    ReachableHoldsInv(h);
  }
}
