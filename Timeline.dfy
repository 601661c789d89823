/** The day timeline: dropping a dragged block at a vertical position snaps
    that position to the nearest quarter hour and writes it as the block's
    "HH:MM" start time; blocks with a start time are laid out by percent of
    the day, the others are listed apart. The position arrives here as a
    whole number of minutes from midnight. */
module Timeline {
  import opened JsText
  import opened Seqs
  import opened TimeBlockContext
  import opened TimeBlockComponent

  function Abs(x: int): nat {
    if x < 0 then -x else x
  }

  /** `Math.round(totalMinutes / 15) * 15`. `Math.round(x)` is
      `floor(x + 1/2)`, and `floor(total / 15 + 1/2)` is
      `floor((2 * total + 15) / 30)`. */
  function SnapMinutes(total: int): (snapped: int)
    ensures snapped % 15 == 0
    ensures -7 <= total - snapped <= 7
  {
    ((2 * total + 15) / 30) * 15
  }

  /** The snapped value is a multiple of 15 at least as close to the
      position as any other. */
  lemma SnapIsNearest(total: int, k: int)
    ensures Abs(total - SnapMinutes(total)) <= Abs(total - 15 * k)
  {
    var s := SnapMinutes(total);
    var q := s / 15;
    assert s == 15 * q;
    if k > q {
      assert 15 * k >= 15 * q + 15;
    } else if k < q {
      assert 15 * k <= 15 * q - 15;
    }
  }

  lemma SnapExamples()
    ensures SnapMinutes(7) == 0 && SnapMinutes(8) == 15
    ensures SnapMinutes(1432) == 1425 && SnapMinutes(1433) == 1440
  {
  }

  /** The hour and minute a drop lands on. */
  datatype Slot = Slot(hours: int, minutes: int)

  /** Hours are `Math.floor(snapped / 60)`, minutes `snapped % 60`; the slot
      is taken only when the hour is within 0..23. */
  function DropSlot(total: int): (slot: Option<Slot>)
    ensures slot.Some? <==> -7 <= total <= 1432
    ensures slot.Some? ==>
      0 <= slot.value.hours < 24 && slot.value.minutes in {0, 15, 30, 45} &&
      slot.value.hours * 60 + slot.value.minutes == SnapMinutes(total)
  {
    var snapped := SnapMinutes(total);
    var hours := snapped / 60;
    var minutes := JsRem(snapped, 60);
    if 0 <= hours < 24 then Some(Slot(hours, minutes)) else None
  }

  /** The start time written for a slot: both fields zero-padded. */
  function SlotText(slot: Slot): string {
    ColonText(slot.hours, slot.minutes)
  }

  /** Reading the written start time back the way the layout does gives the
      snapped number of minutes. */
  lemma SlotTextRoundTrip(total: int)
    requires DropSlot(total).Some?
    ensures ColonValue(SlotText(DropSlot(total).value)) == Num(SnapMinutes(total))
    ensures |SlotText(DropSlot(total).value)| == 5
  {
    var slot := DropSlot(total).value;
    ColonRoundTrip(slot.hours, slot.minutes);
    Pad2RoundTrip(slot.hours);
    Pad2RoundTrip(slot.minutes);
  }

  /** The blocks after a drop at `total`: when a block is being dragged and
      the slot is taken, that block gets the slot's start time. */
  function AfterDrop(blocks: seq<TimeBlock>, dragging: Option<string>, total: int): seq<TimeBlock> {
    var slot := DropSlot(total);
    if Truthy(dragging) && slot.Some? then
      UpdateBlocks(blocks, dragging.value, StartTimePatch(SlotText(slot.value)))
    else blocks
  }

  /** A drop changes nothing but the dragged block's start time, which
      becomes the slot's text; with nothing dragged or the slot outside the
      day, nothing changes at all. */
  lemma AfterDropChanges(blocks: seq<TimeBlock>, dragging: Option<string>, total: int)
    ensures var r := AfterDrop(blocks, dragging, total);
      |r| == |blocks| &&
      (forall i :: 0 <= i < |blocks| ==> r[i] == blocks[i].(startTime := r[i].startTime)) &&
      (forall i :: 0 <= i < |blocks| && (dragging != Some(blocks[i].id) || DropSlot(total).None?)
         ==> r[i] == blocks[i]) &&
      (!Truthy(dragging) || DropSlot(total).None? ==> r == blocks)
    ensures Truthy(dragging) && DropSlot(total).Some? ==>
      forall i :: 0 <= i < |blocks| && blocks[i].id == dragging.value ==>
        AfterDrop(blocks, dragging, total)[i].startTime == Some(SlotText(DropSlot(total).value))
  {
  }

  /** Locked blocks never move: a drag can only start on an unlocked block,
      so when no locked block carries the dragged id, every locked block is
      left as it was. */
  lemma LockedBlocksStay(blocks: seq<TimeBlock>, dragging: Option<string>, total: int)
    requires forall b :: b in blocks && b.locked ==> Some(b.id) != dragging
    ensures forall i :: 0 <= i < |blocks| && blocks[i].locked ==>
              AfterDrop(blocks, dragging, total)[i] == blocks[i]
  {
    AfterDropChanges(blocks, dragging, total);
    forall i | 0 <= i < |blocks| && blocks[i].locked
      ensures AfterDrop(blocks, dragging, total)[i] == blocks[i]
    {
      assert blocks[i] in blocks;
    }
  }

  // ------------------------------------------------------------ the layout

  predicate IsAssigned(b: TimeBlock) {
    Truthy(b.startTime)
  }

  /** `timeBlocks.filter(block => block.startTime)`. */
  function AssignedBlocks(blocks: seq<TimeBlock>): (r: seq<TimeBlock>)
    ensures forall b :: b in r <==> b in blocks && IsAssigned(b)
  {
    Filter(IsAssigned, blocks)
  }

  /** `timeBlocks.filter(block => !block.startTime)`. */
  function UnassignedBlocks(blocks: seq<TimeBlock>): (r: seq<TimeBlock>)
    ensures forall b :: b in r <==> b in blocks && !IsAssigned(b)
  {
    Filter(x => !IsAssigned(x), blocks)
  }

  /** The two lists split the blocks: together they hold each block exactly
      as often as the store does. */
  lemma {:induction false} PartitionBlocks(blocks: seq<TimeBlock>)
    ensures |AssignedBlocks(blocks)| + |UnassignedBlocks(blocks)| == |blocks|
    ensures multiset(AssignedBlocks(blocks)) + multiset(UnassignedBlocks(blocks)) == multiset(blocks)
  {
    if blocks != [] {
      PartitionBlocks(blocks[1..]);
      assert blocks == [blocks[0]] + blocks[1..];
    }
  }

  /** Each list keeps the store's order. */
  lemma PartitionOrder(blocks: seq<TimeBlock>, more: seq<TimeBlock>)
    ensures AssignedBlocks(blocks + more) == AssignedBlocks(blocks) + AssignedBlocks(more)
    ensures UnassignedBlocks(blocks + more) == UnassignedBlocks(blocks) + UnassignedBlocks(more)
  {
    FilterConcat(IsAssigned, blocks, more);
    FilterConcat(x => !IsAssigned(x), blocks, more);
  }

  /** `((hours * 60 + minutes) / (24 * 60)) * 100`; `None` stands for NaN. */
  function TopPercent(startTime: string): Option<real> {
    var v := ColonValue(startTime);
    if v.Num? then Some(v.v as real / 1440.0 * 100.0) else None
  }

  /** `(block.duration / (24 * 60)) * 100`. */
  function HeightPercent(duration: int): real {
    duration as real / 1440.0 * 100.0
  }

  /** A start time the timeline writes sits in [0, 100) percent of the
      column, and a block that ends by midnight does not run past its
      bottom. */
  lemma LayoutWithinDay(hours: nat, minutes: nat, duration: int)
    requires hours < 24 && minutes < 60
    ensures TopPercent(ColonText(hours, minutes)).Some?
    ensures var top := TopPercent(ColonText(hours, minutes)).value;
      0.0 <= top < 100.0 &&
      (hours * 60 + minutes + duration <= 1440 <==> top + HeightPercent(duration) <= 100.0)
  {
    ColonRoundTrip(hours, minutes);
  }

  // -------------------------------------------------------------- the view

  /** The timeline's own state: the id of the block being dragged. */
  class TimelineView {
    const store: TimeBlockStore
    var draggingBlock: Option<string>

    constructor (store: TimeBlockStore)
      ensures this.store == store && draggingBlock == None
    {
      this.store := store;
      draggingBlock := None;
    }

    /** A block's drag start, which the block forwards only when it is
        draggable. */
    method HandleDragStart(block: TimeBlock)
      modifies this
      ensures draggingBlock == if Draggable(block) then Some(block.id) else old(draggingBlock)
    {
      if Draggable(block) {
        draggingBlock := Some(block.id);
      }
    }

    /** `handleDragEnd`, also run on a drop. */
    method HandleDragEnd()
      modifies this
      ensures draggingBlock == None
    {
      draggingBlock := None;
    }

    /** `handleDragOver` at `total` minutes from midnight. */
    method HandleDragOver(total: int)
      modifies store
      ensures store.timeBlocks == AfterDrop(old(store.timeBlocks), draggingBlock, total)
      ensures store.tags == old(store.tags)
    {
      var slot := DropSlot(total);
      if Truthy(draggingBlock) && slot.Some? {
        store.UpdateTimeBlock(draggingBlock.value, StartTimePatch(SlotText(slot.value)));
      }
    }
  }
}
