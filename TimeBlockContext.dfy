/** The shared store of time blocks and tags that every part of the planner
    reads and writes: an id-keyed list of blocks with append, merge-update
    and filter-delete, the same three operations on tags, and the four
    default tags. The browser storage it loads from and saves to is not
    modelled; the loaded lists are constructor parameters. */
module TimeBlockContext {
  import opened JsText
  import opened Seqs

  datatype Tag = Tag(id: string, name: string, color: string)

  /** A time block. `locked` absent and `locked: false` behave alike, so an
      absent flag is `false`. */
  datatype TimeBlock = TimeBlock(
    id: string,
    title: string,
    duration: int,
    startTime: Option<string>,
    date: Option<string>,
    tagIds: seq<string>,
    color: Option<string>,
    locked: bool)

  /** `Omit<TimeBlock, 'id'>`: what callers hand to `addTimeBlock`. */
  datatype BlockDraft = BlockDraft(
    title: string,
    duration: int,
    startTime: Option<string>,
    date: Option<string>,
    tagIds: seq<string>,
    color: Option<string>,
    locked: bool)

  /** `Partial<TimeBlock>`: a field that is `None` is absent from the update;
      an optional field present as `Some(None)` is present and `undefined`. */
  datatype BlockPatch = BlockPatch(
    id: Option<string>,
    title: Option<string>,
    duration: Option<int>,
    startTime: Option<Option<string>>,
    date: Option<Option<string>>,
    tagIds: Option<seq<string>>,
    color: Option<Option<string>>,
    locked: Option<bool>)

  datatype TagDraft = TagDraft(name: string, color: string)

  datatype TagPatch = TagPatch(id: Option<string>, name: Option<string>, color: Option<string>)

  /** A draft with only the fields most callers set. */
  function Draft(title: string, duration: int, startTime: Option<string>, tagIds: seq<string>): BlockDraft {
    BlockDraft(title, duration, startTime, None, tagIds, None, false)
  }

  /** The update `{ startTime }` that a drag on the timeline applies. */
  function StartTimePatch(startTime: string): BlockPatch {
    BlockPatch(None, None, None, Some(Some(startTime)), None, None, None, None)
  }

  /** A field after a spread of an update that may carry it. */
  function Override<T>(current: T, update: Option<T>): T {
    if update.Some? then update.value else current
  }

  // -------------------------------------------------------- the operations

  /** The block `addTimeBlock` builds: the draft's fields, the new id, and a
      date that is today's when the start time is truthy and `undefined`
      otherwise, whatever date the draft carried. */
  function NewBlock(d: BlockDraft, id: string, today: string): (b: TimeBlock)
    ensures b.id == id
    ensures b.title == d.title && b.duration == d.duration && b.startTime == d.startTime
    ensures b.tagIds == d.tagIds && b.color == d.color && b.locked == d.locked
    ensures b.date.Some? <==> Truthy(d.startTime)
    ensures b.date.Some? ==> b.date.value == today
  {
    TimeBlock(id, d.title, d.duration, d.startTime,
              if Truthy(d.startTime) then Some(today) else None,
              d.tagIds, d.color, d.locked)
  }

  /** The caller's date never reaches the store: two drafts that differ
      only in their date give the same block. */
  lemma NewBlockIgnoresDate(d: BlockDraft, date: Option<string>, id: string, today: string)
    ensures NewBlock(d, id, today) == NewBlock(d.(date := date), id, today)
  {
  }

  /** `{ ...block, ...updates }`. */
  function MergeBlock(b: TimeBlock, p: BlockPatch): TimeBlock {
    TimeBlock(
      Override(b.id, p.id), Override(b.title, p.title), Override(b.duration, p.duration),
      Override(b.startTime, p.startTime), Override(b.date, p.date), Override(b.tagIds, p.tagIds),
      Override(b.color, p.color), Override(b.locked, p.locked))
  }

  /** `timeBlocks.map(b => b.id === id ? { ...b, ...updates } : b)`. */
  function UpdateBlocks(blocks: seq<TimeBlock>, id: string, p: BlockPatch): (r: seq<TimeBlock>)
    ensures |r| == |blocks|
    ensures forall i :: 0 <= i < |blocks| && blocks[i].id != id ==> r[i] == blocks[i]
    ensures forall i :: 0 <= i < |blocks| && blocks[i].id == id ==> r[i] == MergeBlock(blocks[i], p)
  {
    MapSeq((b: TimeBlock) => if b.id == id then MergeBlock(b, p) else b, blocks)
  }

  /** The merged block takes every field the update carries and keeps the
      rest. */
  lemma MergeBlockFields(b: TimeBlock, p: BlockPatch)
    ensures var m := MergeBlock(b, p);
      (p.title.None? ==> m.title == b.title) && (p.title.Some? ==> m.title == p.title.value) &&
      (p.startTime.None? ==> m.startTime == b.startTime) &&
      (p.startTime.Some? ==> m.startTime == p.startTime.value) &&
      (p.id.None? ==> m.id == b.id) && (p.locked.None? ==> m.locked == b.locked) &&
      (p == BlockPatch(None, None, None, None, None, None, None, None) ==> m == b)
  {
  }

  /** `timeBlocks.filter(b => b.id !== id)`. */
  function RemoveBlocks(blocks: seq<TimeBlock>, id: string): (r: seq<TimeBlock>)
    ensures forall b :: b in r ==> b in blocks && b.id != id
    ensures forall b :: b in blocks && b.id != id ==> b in r
  {
    Filter((b: TimeBlock) => b.id != id, blocks)
  }

  /** Deleting keeps the other blocks in their relative order, and deleting
      an id no block has changes nothing. */
  lemma RemoveBlocksOrder(a: seq<TimeBlock>, b: seq<TimeBlock>, id: string)
    ensures RemoveBlocks(a + b, id) == RemoveBlocks(a, id) + RemoveBlocks(b, id)
    ensures (forall x :: x in a ==> x.id != id) ==> RemoveBlocks(a, id) == a
  {
    FilterConcat((x: TimeBlock) => x.id != id, a, b);
    if forall x :: x in a ==> x.id != id {
      FilterKeepsAll((x: TimeBlock) => x.id != id, a);
    }
  }

  function NewTag(d: TagDraft, id: string): Tag {
    Tag(id, d.name, d.color)
  }

  function MergeTag(t: Tag, p: TagPatch): Tag {
    Tag(Override(t.id, p.id), Override(t.name, p.name), Override(t.color, p.color))
  }

  /** The merged tag takes every field the update carries and keeps the
      rest. */
  lemma MergeTagFields(t: Tag, p: TagPatch)
    ensures var m := MergeTag(t, p);
      (p.id.None? ==> m.id == t.id) && (p.id.Some? ==> m.id == p.id.value) &&
      (p.name.None? ==> m.name == t.name) && (p.name.Some? ==> m.name == p.name.value) &&
      (p.color.None? ==> m.color == t.color) && (p.color.Some? ==> m.color == p.color.value) &&
      (p == TagPatch(None, None, None) ==> m == t)
  {
  }

  function UpdateTags(tags: seq<Tag>, id: string, p: TagPatch): (r: seq<Tag>)
    ensures |r| == |tags|
    ensures forall i :: 0 <= i < |tags| && tags[i].id != id ==> r[i] == tags[i]
    ensures forall i :: 0 <= i < |tags| && tags[i].id == id ==> r[i] == MergeTag(tags[i], p)
  {
    MapSeq((t: Tag) => if t.id == id then MergeTag(t, p) else t, tags)
  }

  function RemoveTags(tags: seq<Tag>, id: string): (r: seq<Tag>)
    ensures forall t :: t in r ==> t in tags && t.id != id
    ensures forall t :: t in tags && t.id != id ==> t in r
  {
    Filter((t: Tag) => t.id != id, tags)
  }

  lemma RemoveTagsOrder(a: seq<Tag>, b: seq<Tag>, id: string)
    ensures RemoveTags(a + b, id) == RemoveTags(a, id) + RemoveTags(b, id)
    ensures (forall x :: x in a ==> x.id != id) ==> RemoveTags(a, id) == a
  {
    FilterConcat((x: Tag) => x.id != id, a, b);
    if forall x :: x in a ==> x.id != id {
      FilterKeepsAll((x: Tag) => x.id != id, a);
    }
  }

  /** The tags a fresh installation starts with. */
  const DefaultTags: seq<Tag> := [
    Tag("1", "Work", "#3a86ff"),
    Tag("2", "Personal", "#8338ec"),
    Tag("3", "Health", "#38b000"),
    Tag("4", "Learning", "#ffbe0b")
  ]

  /** No two blocks share an id (the store itself does not enforce this:
      ids come from the clock and can collide). */
  ghost predicate UniqueBlockIds(blocks: seq<TimeBlock>) {
    forall b1, b2 :: b1 in blocks && b2 in blocks && b1.id == b2.id ==> b1 == b2
  }

  predicate FreshBlockId(blocks: seq<TimeBlock>, id: string) {
    forall b :: b in blocks ==> b.id != id
  }

  /** Appending under a fresh id, updating without touching ids and
      deleting all keep ids unique. */
  lemma UniqueBlockIdsPreserved(blocks: seq<TimeBlock>, d: BlockDraft, id: string, today: string, p: BlockPatch, other: string)
    requires UniqueBlockIds(blocks)
    ensures FreshBlockId(blocks, id) ==> UniqueBlockIds(blocks + [NewBlock(d, id, today)])
    ensures p.id.None? ==> UniqueBlockIds(UpdateBlocks(blocks, other, p))
    ensures UniqueBlockIds(RemoveBlocks(blocks, other))
  {
    if p.id.None? {
      var r := UpdateBlocks(blocks, other, p);
      forall b1, b2 | b1 in r && b2 in r && b1.id == b2.id ensures b1 == b2 {
        var i :| 0 <= i < |r| && r[i] == b1;
        var j :| 0 <= j < |r| && r[j] == b2;
        assert blocks[i].id == b1.id && blocks[j].id == b2.id;
        assert blocks[i] in blocks && blocks[j] in blocks;
      }
    }
  }

  // ------------------------------------------------------------- the store

  /** The provider's state: `timeBlocks` and `tags`, each replaced by every
      operation. */
  class TimeBlockStore {
    var timeBlocks: seq<TimeBlock>
    var tags: seq<Tag>

    /** Starts from the saved lists; with no saved tags, from the defaults. */
    constructor (savedBlocks: Option<seq<TimeBlock>>, savedTags: Option<seq<Tag>>)
      ensures timeBlocks == (if savedBlocks.Some? then savedBlocks.value else [])
      ensures tags == (if savedTags.Some? then savedTags.value else DefaultTags)
    {
      timeBlocks := if savedBlocks.Some? then savedBlocks.value else [];
      tags := if savedTags.Some? then savedTags.value else DefaultTags;
    }

    /** `addTimeBlock(draft)`, with the clock's id and date as parameters:
        appends one block and returns it. */
    method AddTimeBlock(d: BlockDraft, id: string, today: string) returns (b: TimeBlock)
      modifies this
      ensures b == NewBlock(d, id, today)
      ensures timeBlocks == old(timeBlocks) + [b]
      ensures tags == old(tags)
    {
      b := NewBlock(d, id, today);
      timeBlocks := timeBlocks + [b];
    }

    method UpdateTimeBlock(id: string, p: BlockPatch)
      modifies this
      ensures timeBlocks == UpdateBlocks(old(timeBlocks), id, p)
      ensures tags == old(tags)
    {
      timeBlocks := UpdateBlocks(timeBlocks, id, p);
    }

    method DeleteTimeBlock(id: string)
      modifies this
      ensures timeBlocks == RemoveBlocks(old(timeBlocks), id)
      ensures tags == old(tags)
    {
      timeBlocks := RemoveBlocks(timeBlocks, id);
    }

    method AddTag(d: TagDraft, id: string)
      modifies this
      ensures tags == old(tags) + [NewTag(d, id)]
      ensures timeBlocks == old(timeBlocks)
    {
      tags := tags + [NewTag(d, id)];
    }

    method UpdateTag(id: string, p: TagPatch)
      modifies this
      ensures tags == UpdateTags(old(tags), id, p)
      ensures timeBlocks == old(timeBlocks)
    {
      tags := UpdateTags(tags, id, p);
    }

    /** Deleting a tag leaves the blocks alone: their `tagIds` may now name
        a tag that no longer exists. */
    method DeleteTag(id: string)
      modifies this
      ensures tags == RemoveTags(old(tags), id)
      ensures timeBlocks == old(timeBlocks)
    {
      tags := RemoveTags(tags, id);
    }
  }

  /** The default tags are Work, Personal, Health and Learning under the
      ids "1" to "4". */
  lemma DefaultTagIds()
    ensures |DefaultTags| == 4
    ensures forall i :: 0 <= i < 4 ==> DefaultTags[i].id == [DigitChar(i + 1)]
  {
  }
}
