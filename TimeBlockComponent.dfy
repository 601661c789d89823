/** How one time block is shown: the tags it names, the colour it is drawn
    in, and the two things a locked block refuses, being dragged and being
    deleted. */
module TimeBlockComponent {
  import opened JsText
  import opened Seqs
  import opened TimeBlockContext

  /** `tags.filter(tag => timeBlock.tagIds.includes(tag.id))`. */
  function BlockTags(tags: seq<Tag>, block: TimeBlock): (r: seq<Tag>)
    ensures forall t :: t in r <==> t in tags && t.id in block.tagIds
  {
    Filter((t: Tag) => t.id in block.tagIds, tags)
  }

  /** The block's tags come in the order of the tag list, not of its own
      `tagIds`, and an id no tag carries contributes nothing. */
  lemma BlockTagsOrder(a: seq<Tag>, b: seq<Tag>, block: TimeBlock)
    ensures BlockTags(a + b, block) == BlockTags(a, block) + BlockTags(b, block)
    ensures (forall t :: t in a ==> t.id !in block.tagIds) ==> BlockTags(a, block) == []
  {
    FilterConcat((t: Tag) => t.id in block.tagIds, a, b);
    var own := BlockTags(a, block);
    if own != [] {
      assert own[0] in own;
    }
  }

  const Grey := "#adb5bd"

  /** `timeBlock.color || (blockTags.length > 0 ? blockTags[0].color : '#adb5bd')`. */
  function BlockColor(tags: seq<Tag>, block: TimeBlock): string {
    if Truthy(block.color) then block.color.value
    else
      var own := BlockTags(tags, block);
      if |own| > 0 then own[0].color else Grey
  }

  /** The colour is the block's own non-empty colour; failing that, the
      colour of the first tag in the tag list that the block names; failing
      that, grey. */
  lemma BlockColorPrecedence(tags: seq<Tag>, block: TimeBlock)
    ensures Truthy(block.color) ==> BlockColor(tags, block) == block.color.value
    ensures !Truthy(block.color) && (forall t :: t in tags ==> t.id !in block.tagIds)
            ==> BlockColor(tags, block) == Grey
    ensures !Truthy(block.color) && (exists t :: t in tags && t.id in block.tagIds)
            ==> exists i :: 0 <= i < |tags| && tags[i].id in block.tagIds &&
                            BlockColor(tags, block) == tags[i].color &&
                            forall j :: 0 <= j < i ==> tags[j].id !in block.tagIds
  {
    var own := BlockTags(tags, block);
    if !Truthy(block.color) && exists t :: t in tags && t.id in block.tagIds {
      var t :| t in tags && t.id in block.tagIds;
      assert t in own;
      FilterHead((t: Tag) => t.id in block.tagIds, tags);
    }
  }

  /** `draggable={!timeBlock.locked}`. */
  predicate Draggable(block: TimeBlock) {
    !block.locked
  }

  /** The delete button is rendered only for an unlocked block. */
  predicate DeleteOffered(block: TimeBlock) {
    !block.locked
  }

  /** The blocks after a click on a block's delete control: that block's id
      goes when the control is there, and nothing changes otherwise. */
  function AfterDeleteClick(blocks: seq<TimeBlock>, clicked: TimeBlock): (r: seq<TimeBlock>)
    ensures DeleteOffered(clicked) ==> forall b :: b in r <==> b in blocks && b.id != clicked.id
    ensures !DeleteOffered(clicked) ==> r == blocks
  {
    if DeleteOffered(clicked) then RemoveBlocks(blocks, clicked.id) else blocks
  }

  /** No click on any block's delete control removes a locked block. */
  lemma LockedBlocksSurviveDelete(blocks: seq<TimeBlock>, clicked: TimeBlock, b: TimeBlock)
    requires UniqueBlockIds(blocks)
    requires clicked in blocks && b in blocks && b.locked
    ensures b in AfterDeleteClick(blocks, clicked)
  {
    if DeleteOffered(clicked) {
      assert clicked.id != b.id;
    }
  }

  /** `handleDelete`: the click on the delete control, which deletes this
      block's id from the store. */
  method HandleDelete(store: TimeBlockStore, block: TimeBlock)
    modifies store
    ensures store.timeBlocks == AfterDeleteClick(old(store.timeBlocks), block)
    ensures store.tags == old(store.tags)
  {
    if DeleteOffered(block) {
      store.DeleteTimeBlock(block.id);
    }
  }
}
