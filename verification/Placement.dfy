/**
 Where a wait queue object keeps its entry. The object is 128 bytes long and only 8-aligned, while
 the shared word can hold 128-aligned addresses only. So the word holds the address of the one
 128-aligned cell inside the object, the anchor, and the anchor's value leads back to the entry.
 */
module Placement {
  import opened StateWord

  const VIRTUAL_ALIGNMENT := 128
  const ENTRY_SIZE := 64
  const CELL := 8
  const U64_MAX := WORD_SIZE - 1

  /** The start addresses at which an object can be. */
  predicate IsStart(start: nat) {
    0 < start && start % CELL == 0 && start + VIRTUAL_ALIGNMENT <= WORD_SIZE
  }

  /** `anchor_ptr`: the address and the offset of the anchor. */
  function AnchorPtr(start: nat): (nat, nat) {
    var anchor :=
      if start % VIRTUAL_ALIGNMENT == 0 then start
      else start + VIRTUAL_ALIGNMENT - start % VIRTUAL_ALIGNMENT;
    (anchor, anchor - start)
  }

  /** What `construct` stores in the anchor. */
  function AnchorValue(offset: nat): nat
    requires offset <= U64_MAX
  {
    U64_MAX - offset
  }

  /** `to_entry_ptr`: the entry's address from the anchor's address and value; zero is null. */
  function ToEntryPtr(anchor: nat, value: nat): nat
    requires value <= U64_MAX
    requires value != 0 ==> U64_MAX - value <= anchor
  {
    if value == 0 then 0
    else
      var offset := U64_MAX - value;
      var start := anchor - offset;
      if offset < VIRTUAL_ALIGNMENT / 2 then start + VIRTUAL_ALIGNMENT / 2 else start
  }

  /** `to_wait_queue_ptr`: the object from the entry's address and its `offset` field. */
  function ToWaitQueuePtr(entry: nat, offset: nat): nat
    requires offset <= entry
  {
    entry - offset
  }

  /** The entry of the object at `start`, as `construct` and all later look-ups find it. */
  function EntryOf(start: nat): nat
    requires IsStart(start)
  {
    var (anchor, offset) := AnchorPtr(start);
    ToEntryPtr(anchor, AnchorValue(offset))
  }

  lemma SplitStart(start: nat) returns (block: nat, cells: nat)
    requires start % CELL == 0
    ensures cells < 16 && start == VIRTUAL_ALIGNMENT * block + CELL * cells
    ensures AnchorPtr(start) == if cells == 0 then (start, 0) else (VIRTUAL_ALIGNMENT * (block + 1), VIRTUAL_ALIGNMENT - CELL * cells)
  {
    block, cells := start / VIRTUAL_ALIGNMENT, start % VIRTUAL_ALIGNMENT / CELL;
  }

  /** The anchor is the only 128-aligned cell that lies inside the object. */
  lemma AnchorIsUnique(start: nat, address: nat)
    requires IsStart(start)
    ensures address == AnchorPtr(start).0 <==>
            IsAnchor(address) && start <= address && address + CELL <= start + VIRTUAL_ALIGNMENT
    ensures AnchorPtr(start).0 > 0
  {
    var block, cells := SplitStart(start);
    if IsAnchor(address) {
      var slot := SplitAnchor(address);
    }
  }

  lemma EntryOfParts(start: nat, block: nat, cells: nat)
    requires IsStart(start)
    requires cells < 16 && start == VIRTUAL_ALIGNMENT * block + CELL * cells
    requires AnchorPtr(start) == if cells == 0 then (start, 0) else (VIRTUAL_ALIGNMENT * (block + 1), VIRTUAL_ALIGNMENT - CELL * cells)
    ensures EntryOf(start) == if cells == 0 || cells > 8 then start + ENTRY_SIZE else start
  {
  }

  /** The entry lies inside the object and does not touch the anchor. */
  lemma EntryFits(start: nat)
    requires IsStart(start)
    ensures var entry, anchor := EntryOf(start), AnchorPtr(start).0;
            && entry % CELL == 0
            && start <= entry && entry + ENTRY_SIZE <= start + VIRTUAL_ALIGNMENT
            && (entry + ENTRY_SIZE <= anchor || anchor + CELL <= entry)
  {
    var block, cells := SplitStart(start);
    EntryOfParts(start, block, cells);
    assert EntryOf(start) == CELL * (16 * block + cells) || EntryOf(start) == CELL * (16 * block + cells + 8);
  }

  /** From the word to the entry and from the entry back to the object and to the word. */
  lemma PointersRoundTrip(start: nat, s: nat)
    requires IsStart(start) && s < WORD_SIZE && Unpack(s).tail == AnchorPtr(start).0
    ensures AnchorValue(AnchorPtr(start).1) != 0
    ensures ToEntryPtr(Unpack(s).tail, AnchorValue(AnchorPtr(start).1)) == EntryOf(start) != 0
    ensures EntryOf(start) >= start && EntryOf(start) - start <= ENTRY_SIZE
    ensures ToWaitQueuePtr(EntryOf(start), EntryOf(start) - start) == start
    ensures AnchorPtr(ToWaitQueuePtr(EntryOf(start), EntryOf(start) - start)).0 == Unpack(s).tail
  {
    var block, cells := SplitStart(start);
  }

  /** Objects that do not overlap have different anchors, in the same order. */
  lemma AnchorsAreDistinct(start: nat, start': nat)
    requires IsStart(start) && IsStart(start')
    requires start + VIRTUAL_ALIGNMENT <= start'
    ensures AnchorPtr(start).0 < AnchorPtr(start').0
    ensures EntryOf(start) + ENTRY_SIZE <= EntryOf(start')
  {
    AnchorIsUnique(start, AnchorPtr(start).0);
    AnchorIsUnique(start', AnchorPtr(start').0);
    EntryFits(start);
    EntryFits(start');
  }

  /** The anchor tells apart an object without an entry, whose cells are zero, from one with an entry. */
  lemma NullMeansNoEntry(start: nat, value: nat)
    requires IsStart(start)
    requires value == 0 || value == AnchorValue(AnchorPtr(start).1)
    ensures U64_MAX - value <= AnchorPtr(start).0 || value == 0
    ensures ToEntryPtr(AnchorPtr(start).0, value) == 0 <==> value == 0
  {
    var block, cells := SplitStart(start);
  }

  /** The cell of the object that is the anchor. */
  function AnchorIndex(start: nat): (i: nat)
    requires IsStart(start)
    ensures i < 16
  {
    AnchorPtr(start).1 / CELL
  }

  /**
   `construct`: the object's memory is sixteen cells. The first call finds a zero anchor and sets
   it; a later call finds it set. The entry's cells are written and no other cell changes.
   */
  method Construct(raw: array<nat>, start: nat, entry: seq<nat>) returns (hadEntry: bool, position: nat)
    requires raw.Length == 16 && IsStart(start) && |entry| == 8
    requires raw[AnchorIndex(start)] == 0 || raw[AnchorIndex(start)] == AnchorValue(AnchorPtr(start).1)
    modifies raw
    ensures hadEntry == (old(raw[AnchorIndex(start)]) != 0)
    ensures position <= 8 && start + CELL * position == EntryOf(start)
    ensures raw[AnchorIndex(start)] == AnchorValue(AnchorPtr(start).1)
    ensures raw[position..position + 8] == entry
    ensures forall i :: 0 <= i < 16 && i != AnchorIndex(start) && !(position <= i < position + 8) ==> raw[i] == old(raw[i])
  {
    var (anchor, offset) := AnchorPtr(start);
    var block, cells := SplitStart(start);
    var index := offset / CELL;
    hadEntry := raw[index] != 0;
    if !hadEntry {
      raw[index] := U64_MAX - offset;
    }
    var entryPtr := ToEntryPtr(anchor, raw[index]);
    position := (entryPtr - start) / CELL;
    EntryFits(start);
    for i := 0 to 8
      invariant raw[index] == AnchorValue(offset)
      invariant forall j :: 0 <= j < i ==> raw[position + j] == entry[j]
      invariant forall j :: 0 <= j < 16 && j != index && !(position <= j < position + i) ==> raw[j] == old(raw[j])
    {
      raw[position + i] := entry[i];
    }
  }
}
