/** The to-do list. A to-do can be put on the timeline, which creates a
    locked time block and records its id in the to-do; taking it off, or
    deleting the to-do, deletes that block. The list and the block store
    stay linked: a to-do is marked as on the timeline exactly when it holds
    a block id, that block is in the store and locked, and every locked
    block belongs to exactly one to-do. */
module TodosModule {
  import opened JsText
  import opened Seqs
  import opened TimeBlockContext
  import opened TimeBlockComponent
  import opened Timeline

  datatype Todo = Todo(
    id: string,
    title: string,
    duration: int,
    tagIds: seq<string>,
    dueDate: Option<string>,
    dueTime: Option<string>,
    completed: bool,
    addedToTimeline: bool,
    timeBlockId: Option<string>)

  /** The form's fields. */
  datatype TodoForm = TodoForm(
    todoTitle: string,
    todoDuration: int,
    todoDueDate: string,
    todoDueTime: string,
    selectedTags: seq<string>)

  /** The form as it opens and as it resets: 30 minutes, due now. */
  function BlankForm(today: string, now: string): TodoForm {
    TodoForm("", 30, today, now, [])
  }

  // ------------------------------------------------------ list operations

  /** The to-do `handleAddTodo` appends: the form's fields, an empty
      due date or time dropped, not completed and not on the timeline. */
  function NewTodo(f: TodoForm, id: string): (t: Todo)
    ensures t.id == id && t.title == f.todoTitle && t.duration == f.todoDuration
    ensures t.tagIds == f.selectedTags
    ensures t.dueDate == OrUndefined(f.todoDueDate) && t.dueTime == OrUndefined(f.todoDueTime)
    ensures !t.completed && !t.addedToTimeline && t.timeBlockId == None
  {
    Todo(id, f.todoTitle, f.todoDuration, f.selectedTags, OrUndefined(f.todoDueDate),
         OrUndefined(f.todoDueTime), false, false, None)
  }

  /** `todos.map(t => t.id === id ? g(t) : t)`. */
  function UpdateTodos(todos: seq<Todo>, id: string, g: Todo -> Todo): (r: seq<Todo>)
    ensures |r| == |todos|
    ensures forall i :: 0 <= i < |todos| && todos[i].id != id ==> r[i] == todos[i]
    ensures forall i :: 0 <= i < |todos| && todos[i].id == id ==> r[i] == g(todos[i])
  {
    MapSeq((t: Todo) => if t.id == id then g(t) else t, todos)
  }

  /** The edit spread: the form's title, duration, tags and due fields; the
      rest of the to-do stays. */
  function EditTodo(t: Todo, f: TodoForm): Todo {
    t.(title := f.todoTitle, duration := f.todoDuration, tagIds := f.selectedTags,
       dueDate := OrUndefined(f.todoDueDate), dueTime := OrUndefined(f.todoDueTime))
  }

  function EditTodos(todos: seq<Todo>, id: string, f: TodoForm): seq<Todo> {
    UpdateTodos(todos, id, t => EditTodo(t, f))
  }

  /** An edit touches only the matching to-do, and on it only the form's
      fields: its id, completion and timeline link stay. */
  lemma EditTodosFields(todos: seq<Todo>, id: string, f: TodoForm)
    ensures var r := EditTodos(todos, id, f);
      |r| == |todos| &&
      (forall i :: 0 <= i < |todos| && todos[i].id != id ==> r[i] == todos[i]) &&
      (forall i :: 0 <= i < |todos| && todos[i].id == id ==>
         r[i].id == todos[i].id && r[i].completed == todos[i].completed &&
         r[i].addedToTimeline == todos[i].addedToTimeline && r[i].timeBlockId == todos[i].timeBlockId &&
         r[i].title == f.todoTitle && r[i].duration == f.todoDuration && r[i].tagIds == f.selectedTags &&
         r[i].dueDate == OrUndefined(f.todoDueDate) && r[i].dueTime == OrUndefined(f.todoDueTime))
  {
  }

  /** `todos.find(todo => todo.id === id)`. */
  function FindTodo(todos: seq<Todo>, id: string): (r: Option<Todo>)
    ensures r.Some? ==> r.value in todos && r.value.id == id
    ensures r.None? <==> forall t :: t in todos ==> t.id != id
  {
    if todos == [] then None
    else if todos[0].id == id then Some(todos[0])
    else FindTodo(todos[1..], id)
  }

  function DeleteTodos(todos: seq<Todo>, id: string): (r: seq<Todo>)
    ensures forall t :: t in r <==> t in todos && t.id != id
  {
    Filter((t: Todo) => t.id != id, todos)
  }

  /** The blocks after `handleDeleteTodo(id)`: the to-do's block goes with
      it when it has one. */
  function BlocksAfterDelete(todos: seq<Todo>, blocks: seq<TimeBlock>, id: string): seq<TimeBlock> {
    var found := FindTodo(todos, id);
    if found.Some? && Truthy(found.value.timeBlockId) then
      RemoveBlocks(blocks, found.value.timeBlockId.value)
    else blocks
  }

  /** The block `handleAddToTimeline` asks for: the to-do's title, duration
      and tags, its due time as start time, locked. */
  function TimelineDraft(t: Todo): BlockDraft {
    BlockDraft(t.title, t.duration, t.dueTime, None, t.tagIds, None, true)
  }

  function LinkTodo(t: Todo, blockId: string): Todo {
    t.(addedToTimeline := true, timeBlockId := Some(blockId))
  }

  function UnlinkTodo(t: Todo): Todo {
    t.(addedToTimeline := false, timeBlockId := None)
  }

  function CompleteTodo(t: Todo): Todo {
    t.(completed := true)
  }

  /** `todos.filter(todo => !todo.completed)`. */
  function ActiveTodos(todos: seq<Todo>): (r: seq<Todo>)
    ensures forall t :: t in r <==> t in todos && !t.completed
  {
    Filter((t: Todo) => !t.completed, todos)
  }

  /** `todos.filter(todo => todo.completed)`. */
  function CompletedTodos(todos: seq<Todo>): (r: seq<Todo>)
    ensures forall t :: t in r <==> t in todos && t.completed
  {
    Filter((t: Todo) => t.completed, todos)
  }

  /** The two lists split the to-dos, each in list order. */
  lemma {:induction false} ActiveCompletedSplit(todos: seq<Todo>)
    ensures |ActiveTodos(todos)| + |CompletedTodos(todos)| == |todos|
    ensures multiset(ActiveTodos(todos)) + multiset(CompletedTodos(todos)) == multiset(todos)
  {
    if todos != [] {
      ActiveCompletedSplit(todos[1..]);
      assert todos == [todos[0]] + todos[1..];
    }
  }

  // -------------------------------------------------------- the invariant

  ghost predicate UniqueTodoIds(todos: seq<Todo>) {
    forall t1, t2 :: t1 in todos && t2 in todos && t1.id == t2.id ==> t1 == t2
  }

  /** The to-do is on the timeline through block `id`. */
  predicate LinksTo(t: Todo, id: string) {
    t.addedToTimeline && t.timeBlockId == Some(id)
  }

  ghost predicate HasLockedBlock(blocks: seq<TimeBlock>, id: string) {
    exists b :: b in blocks && b.locked && b.id == id
  }

  ghost predicate LinkedBy(todos: seq<Todo>, id: string) {
    exists t :: t in todos && LinksTo(t, id)
  }

  /** A to-do is marked as on the timeline exactly when it holds a block id. */
  ghost predicate FlagsMatch(todos: seq<Todo>) {
    forall t :: t in todos ==> (t.addedToTimeline <==> Truthy(t.timeBlockId))
  }

  /** Every to-do on the timeline names a locked block of the store. */
  ghost predicate LinksResolve(todos: seq<Todo>, blocks: seq<TimeBlock>) {
    forall t :: t in todos && t.addedToTimeline ==>
      t.timeBlockId.Some? && HasLockedBlock(blocks, t.timeBlockId.value)
  }

  /** Every locked block belongs to a to-do. */
  ghost predicate LockedOwned(todos: seq<Todo>, blocks: seq<TimeBlock>) {
    forall b :: b in blocks && b.locked ==> LinkedBy(todos, b.id)
  }

  /** No two to-dos on the timeline share a block. */
  ghost predicate LinksDistinct(todos: seq<Todo>) {
    forall t1, t2 ::
      (t1 in todos && t2 in todos && t1.addedToTimeline && t2.addedToTimeline &&
       t1.timeBlockId == t2.timeBlockId) ==> t1 == t2
  }

  /** The referential integrity between the list and the store. */
  ghost predicate Linked(todos: seq<Todo>, blocks: seq<TimeBlock>) {
    UniqueTodoIds(todos) && UniqueBlockIds(blocks) && FlagsMatch(todos) &&
    LinksResolve(todos, blocks) && LockedOwned(todos, blocks) && LinksDistinct(todos)
  }

  /** The elements of an update: each to-do, changed when it matches. */
  lemma UpdateTodosMembers(todos: seq<Todo>, id: string, g: Todo -> Todo)
    ensures forall x :: x in UpdateTodos(todos, id, g) ==>
      exists t :: t in todos && x == (if t.id == id then g(t) else t)
    ensures forall t :: t in todos ==> (if t.id == id then g(t) else t) in UpdateTodos(todos, id, g)
  {
    var r := UpdateTodos(todos, id, g);
    forall x | x in r ensures exists t :: t in todos && x == (if t.id == id then g(t) else t) {
      var i :| 0 <= i < |r| && r[i] == x;
      assert todos[i] in todos;
    }
    forall t | t in todos ensures (if t.id == id then g(t) else t) in r {
      var i :| 0 <= i < |todos| && todos[i] == t;
      assert r[i] == (if t.id == id then g(t) else t);
    }
  }

  /** The empty list with any store of unlocked blocks whose ids are
      distinct is linked. */
  lemma LinkedInitially(blocks: seq<TimeBlock>)
    requires UniqueBlockIds(blocks)
    requires forall b :: b in blocks ==> !b.locked
    ensures Linked([], blocks)
  {
  }

  /** Appending a new to-do keeps the link. */
  lemma LinkedAddTodo(todos: seq<Todo>, blocks: seq<TimeBlock>, f: TodoForm, id: string)
    requires Linked(todos, blocks)
    requires forall t :: t in todos ==> t.id != id
    ensures Linked(todos + [NewTodo(f, id)], blocks)
  {
    var r := todos + [NewTodo(f, id)];
    forall b | b in blocks && b.locked ensures LinkedBy(r, b.id) {
      var t :| t in todos && LinksTo(t, b.id);
      assert t in r;
    }
  }

  /** An update that keeps each to-do's id and timeline link keeps the
      link. */
  lemma LinkedUpdateKeepingLinks(todos: seq<Todo>, blocks: seq<TimeBlock>, id: string, g: Todo -> Todo)
    requires Linked(todos, blocks)
    requires forall t :: t in todos ==> g(t).id == t.id && g(t).addedToTimeline == t.addedToTimeline &&
                                        g(t).timeBlockId == t.timeBlockId
    ensures Linked(UpdateTodos(todos, id, g), blocks)
  {
    var r := UpdateTodos(todos, id, g);
    UpdateKeepsIds(todos, id, g);
    UpdateTodosMembers(todos, id, g);
    assert FlagsMatch(r) && LinksResolve(r, blocks) by {
      forall x | x in r ensures (x.addedToTimeline <==> Truthy(x.timeBlockId)) &&
                               (x.addedToTimeline ==> x.timeBlockId.Some? && HasLockedBlock(blocks, x.timeBlockId.value)) {
        var t :| t in todos && x == (if t.id == id then g(t) else t);
      }
    }
    assert LinksDistinct(r) by {
      forall x1, x2 | x1 in r && x2 in r && x1.addedToTimeline && x2.addedToTimeline &&
                       x1.timeBlockId == x2.timeBlockId ensures x1 == x2 {
        var t1 :| t1 in todos && x1 == (if t1.id == id then g(t1) else t1);
        var t2 :| t2 in todos && x2 == (if t2.id == id then g(t2) else t2);
      }
    }
    assert LockedOwned(r, blocks) by {
      forall b | b in blocks && b.locked ensures LinkedBy(r, b.id) {
        var t :| t in todos && LinksTo(t, b.id);
        assert (if t.id == id then g(t) else t) in r;
      }
    }
  }

  /** Editing keeps the link. */
  lemma LinkedEditTodo(todos: seq<Todo>, blocks: seq<TimeBlock>, id: string, f: TodoForm)
    requires Linked(todos, blocks)
    ensures Linked(EditTodos(todos, id, f), blocks)
  {
    LinkedUpdateKeepingLinks(todos, blocks, id, t => EditTodo(t, f));
  }

  /** Completing keeps the link: the block stays on the timeline. */
  lemma LinkedCompleteTodo(todos: seq<Todo>, blocks: seq<TimeBlock>, id: string)
    requires Linked(todos, blocks)
    ensures Linked(UpdateTodos(todos, id, CompleteTodo), blocks)
  {
    LinkedUpdateKeepingLinks(todos, blocks, id, CompleteTodo);
  }

  /** Deleting a to-do together with its block keeps the link: no block is
      left without its to-do. */
  lemma LinkedDeleteTodo(todos: seq<Todo>, blocks: seq<TimeBlock>, id: string)
    requires Linked(todos, blocks)
    ensures Linked(DeleteTodos(todos, id), BlocksAfterDelete(todos, blocks, id))
  {
    var r := DeleteTodos(todos, id);
    var found := FindTodo(todos, id);
    var nb := BlocksAfterDelete(todos, blocks, id);
    if found.Some? && Truthy(found.value.timeBlockId) {
      var gone := found.value.timeBlockId.value;
      UniqueBlockIdsPreserved(blocks, Draft("", 0, None, []), "", "", BlockPatch(None, None, None, None, None, None, None, None), gone);
      forall t | t in r && t.addedToTimeline ensures t.timeBlockId.Some? && HasLockedBlock(nb, t.timeBlockId.value) {
        var b :| b in blocks && b.locked && b.id == t.timeBlockId.value;
        assert b.id != gone;
        assert b in nb;
      }
      forall b | b in nb && b.locked ensures LinkedBy(r, b.id) {
        var t :| t in todos && LinksTo(t, b.id);
        assert t.id != id;
        assert t in r;
      }
    } else {
      forall b | b in nb && b.locked ensures LinkedBy(r, b.id) {
        var t :| t in todos && LinksTo(t, b.id);
        assert t.id != id;
        assert t in r;
      }
    }
  }

  /** Putting a to-do that is not yet on the timeline there, under a fresh
      non-empty block id, keeps the link. */
  lemma LinkedAddToTimeline(todos: seq<Todo>, blocks: seq<TimeBlock>, todo: Todo, blockId: string, today: string)
    requires Linked(todos, blocks)
    requires todo in todos && !todo.addedToTimeline
    requires FreshBlockId(blocks, blockId) && blockId != ""
    ensures Linked(UpdateTodos(todos, todo.id, t => LinkTodo(t, blockId)),
                   blocks + [NewBlock(TimelineDraft(todo), blockId, today)])
  {
    var g := (t: Todo) => LinkTodo(t, blockId);
    var nb := NewBlock(TimelineDraft(todo), blockId, today);
    UpdateTodosMembers(todos, todo.id, g);
    UniqueBlockIdsPreserved(blocks, TimelineDraft(todo), blockId, today, BlockPatch(None, None, None, None, None, None, None, None), "");
    UpdateKeepsIds(todos, todo.id, g);
    AddToTimelineLinks(todos, blocks, todo, blockId, nb);
    AddToTimelineOwned(todos, blocks, todo, blockId, nb);
  }

  /** An update that keeps every id keeps ids unique. */
  lemma UpdateKeepsIds(todos: seq<Todo>, id: string, g: Todo -> Todo)
    requires UniqueTodoIds(todos)
    requires forall t :: t in todos ==> g(t).id == t.id
    ensures UniqueTodoIds(UpdateTodos(todos, id, g))
  {
    var r := UpdateTodos(todos, id, g);
    UpdateTodosMembers(todos, id, g);
    forall x1, x2 | x1 in r && x2 in r && x1.id == x2.id ensures x1 == x2 {
      var t1 :| t1 in todos && x1 == (if t1.id == id then g(t1) else t1);
      var t2 :| t2 in todos && x2 == (if t2.id == id then g(t2) else t2);
    }
  }

  lemma AddToTimelineLinks(todos: seq<Todo>, blocks: seq<TimeBlock>, todo: Todo, blockId: string, nb: TimeBlock)
    requires Linked(todos, blocks)
    requires todo in todos && !todo.addedToTimeline
    requires FreshBlockId(blocks, blockId) && blockId != ""
    requires nb.id == blockId && nb.locked
    ensures var r := UpdateTodos(todos, todo.id, t => LinkTodo(t, blockId));
      FlagsMatch(r) && LinksResolve(r, blocks + [nb]) && LinksDistinct(r)
  {
    var g := (t: Todo) => LinkTodo(t, blockId);
    var r := UpdateTodos(todos, todo.id, g);
    var bs := blocks + [nb];
    UpdateTodosMembers(todos, todo.id, g);
    forall x | x in r ensures (x.addedToTimeline <==> Truthy(x.timeBlockId)) &&
                             (x.addedToTimeline ==> x.timeBlockId.Some? && HasLockedBlock(bs, x.timeBlockId.value)) {
      var t :| t in todos && x == (if t.id == todo.id then g(t) else t);
      if t.id == todo.id {
        assert nb in bs;
      } else if t.addedToTimeline {
        var b :| b in blocks && b.locked && b.id == t.timeBlockId.value;
        assert b in bs;
      }
    }
    forall x1, x2 | x1 in r && x2 in r && x1.addedToTimeline && x2.addedToTimeline &&
                     x1.timeBlockId == x2.timeBlockId ensures x1 == x2 {
      var t1 :| t1 in todos && x1 == (if t1.id == todo.id then g(t1) else t1);
      var t2 :| t2 in todos && x2 == (if t2.id == todo.id then g(t2) else t2);
    }
  }

  lemma AddToTimelineOwned(todos: seq<Todo>, blocks: seq<TimeBlock>, todo: Todo, blockId: string, nb: TimeBlock)
    requires Linked(todos, blocks)
    requires todo in todos && !todo.addedToTimeline
    requires nb.id == blockId
    ensures LockedOwned(UpdateTodos(todos, todo.id, t => LinkTodo(t, blockId)), blocks + [nb])
  {
    var g := (t: Todo) => LinkTodo(t, blockId);
    var r := UpdateTodos(todos, todo.id, g);
    var bs := blocks + [nb];
    UpdateTodosMembers(todos, todo.id, g);
    forall b | b in bs && b.locked ensures LinkedBy(r, b.id) {
      if b in blocks {
        var t :| t in todos && LinksTo(t, b.id);
        assert t.id != todo.id;
        assert t in r;
      } else {
        assert b == nb;
        assert g(todo) in r;
      }
    }
  }

  /** Taking a to-do off the timeline deletes its block and clears its
      link, and keeps the invariant. */
  lemma LinkedRemoveFromTimeline(todos: seq<Todo>, blocks: seq<TimeBlock>, todo: Todo)
    requires Linked(todos, blocks)
    requires todo in todos && Truthy(todo.timeBlockId)
    ensures Linked(UpdateTodos(todos, todo.id, UnlinkTodo), RemoveBlocks(blocks, todo.timeBlockId.value))
  {
    UniqueBlockIdsPreserved(blocks, Draft("", 0, None, []), "", "", BlockPatch(None, None, None, None, None, None, None, None), todo.timeBlockId.value);
    UpdateKeepsIds(todos, todo.id, UnlinkTodo);
    RemoveFromTimelineLinks(todos, blocks, todo);
    RemoveFromTimelineOwned(todos, blocks, todo);
  }

  lemma RemoveFromTimelineLinks(todos: seq<Todo>, blocks: seq<TimeBlock>, todo: Todo)
    requires Linked(todos, blocks)
    requires todo in todos && Truthy(todo.timeBlockId)
    ensures var r := UpdateTodos(todos, todo.id, UnlinkTodo);
      FlagsMatch(r) && LinksResolve(r, RemoveBlocks(blocks, todo.timeBlockId.value)) && LinksDistinct(r)
  {
    var gone := todo.timeBlockId.value;
    var r := UpdateTodos(todos, todo.id, UnlinkTodo);
    var nb := RemoveBlocks(blocks, gone);
    UpdateTodosMembers(todos, todo.id, UnlinkTodo);
    forall x | x in r ensures (x.addedToTimeline <==> Truthy(x.timeBlockId)) &&
                             (x.addedToTimeline ==> x.timeBlockId.Some? && HasLockedBlock(nb, x.timeBlockId.value)) {
      var t :| t in todos && x == (if t.id == todo.id then UnlinkTodo(t) else t);
      if t.id != todo.id && t.addedToTimeline {
        var b :| b in blocks && b.locked && b.id == t.timeBlockId.value;
        assert t != todo;
        assert b.id != gone;
        assert b in nb;
      }
    }
    forall x1, x2 | x1 in r && x2 in r && x1.addedToTimeline && x2.addedToTimeline &&
                     x1.timeBlockId == x2.timeBlockId ensures x1 == x2 {
      var t1 :| t1 in todos && x1 == (if t1.id == todo.id then UnlinkTodo(t1) else t1);
      var t2 :| t2 in todos && x2 == (if t2.id == todo.id then UnlinkTodo(t2) else t2);
    }
  }

  lemma RemoveFromTimelineOwned(todos: seq<Todo>, blocks: seq<TimeBlock>, todo: Todo)
    requires Linked(todos, blocks)
    requires todo in todos && Truthy(todo.timeBlockId)
    ensures LockedOwned(UpdateTodos(todos, todo.id, UnlinkTodo), RemoveBlocks(blocks, todo.timeBlockId.value))
  {
    var r := UpdateTodos(todos, todo.id, UnlinkTodo);
    var nb := RemoveBlocks(blocks, todo.timeBlockId.value);
    UpdateTodosMembers(todos, todo.id, UnlinkTodo);
    forall b | b in nb && b.locked ensures LinkedBy(r, b.id) {
      var t :| t in todos && LinksTo(t, b.id);
      assert t.id != todo.id;
      assert t in r;
    }
  }

  /** What the rest of the planner does to the store keeps the link: adding
      an unlocked block under a fresh id (the form, the timer, the habits),
      a click on a block's delete control, and a drop on the timeline. */
  lemma LinkedUnderOtherChanges(todos: seq<Todo>, blocks: seq<TimeBlock>, d: BlockDraft, id: string,
                                today: string, clicked: TimeBlock, dragging: Option<string>, total: int)
    requires Linked(todos, blocks)
    ensures !d.locked && FreshBlockId(blocks, id) ==> Linked(todos, blocks + [NewBlock(d, id, today)])
    ensures clicked in blocks ==> Linked(todos, AfterDeleteClick(blocks, clicked))
    ensures Linked(todos, AfterDrop(blocks, dragging, total))
  {
    if !d.locked && FreshBlockId(blocks, id) {
      var bs := blocks + [NewBlock(d, id, today)];
      UniqueBlockIdsPreserved(blocks, d, id, today, BlockPatch(None, None, None, None, None, None, None, None), "");
      forall t | t in todos && t.addedToTimeline ensures t.timeBlockId.Some? && HasLockedBlock(bs, t.timeBlockId.value) {
        var b :| b in blocks && b.locked && b.id == t.timeBlockId.value;
        assert b in bs;
      }
    }
    if clicked in blocks {
      LinkedDeleteClick(todos, blocks, clicked);
    }
    LinkedDrop(todos, blocks, dragging, total);
  }

  lemma LinkedDeleteClick(todos: seq<Todo>, blocks: seq<TimeBlock>, clicked: TimeBlock)
    requires Linked(todos, blocks) && clicked in blocks
    ensures Linked(todos, AfterDeleteClick(blocks, clicked))
  {
    var nb := AfterDeleteClick(blocks, clicked);
    if DeleteOffered(clicked) {
      UniqueBlockIdsPreserved(blocks, Draft("", 0, None, []), "", "", BlockPatch(None, None, None, None, None, None, None, None), clicked.id);
      forall t | t in todos && t.addedToTimeline ensures t.timeBlockId.Some? && HasLockedBlock(nb, t.timeBlockId.value) {
        var b :| b in blocks && b.locked && b.id == t.timeBlockId.value;
        LockedBlocksSurviveDelete(blocks, clicked, b);
      }
    }
  }

  lemma LinkedDrop(todos: seq<Todo>, blocks: seq<TimeBlock>, dragging: Option<string>, total: int)
    requires Linked(todos, blocks)
    ensures Linked(todos, AfterDrop(blocks, dragging, total))
  {
    var nb := AfterDrop(blocks, dragging, total);
    AfterDropChanges(blocks, dragging, total);
    assert forall i :: 0 <= i < |blocks| ==> nb[i].id == blocks[i].id && nb[i].locked == blocks[i].locked;
    forall b1, b2 | b1 in nb && b2 in nb && b1.id == b2.id ensures b1 == b2 {
      var i :| 0 <= i < |nb| && nb[i] == b1;
      var j :| 0 <= j < |nb| && nb[j] == b2;
      assert blocks[i] in blocks && blocks[j] in blocks;
    }
    forall t | t in todos && t.addedToTimeline ensures t.timeBlockId.Some? && HasLockedBlock(nb, t.timeBlockId.value) {
      var b :| b in blocks && b.locked && b.id == t.timeBlockId.value;
      var i :| 0 <= i < |blocks| && blocks[i] == b;
      assert nb[i] in nb;
    }
    forall b | b in nb && b.locked ensures LinkedBy(todos, b.id) {
      var i :| 0 <= i < |nb| && nb[i] == b;
      assert blocks[i] in blocks;
    }
  }
  /** Deleting a linked to-do leaves neither it nor its block behind, and
      keeps every other block. */
  lemma DeleteTodoLeavesNoOrphan(todos: seq<Todo>, blocks: seq<TimeBlock>, todo: Todo)
    requires Linked(todos, blocks) && todo in todos
    ensures forall t :: t in DeleteTodos(todos, todo.id) ==> t.id != todo.id
    ensures todo.addedToTimeline ==>
      forall b :: b in BlocksAfterDelete(todos, blocks, todo.id) <==> b in blocks && b.id != todo.timeBlockId.value
    ensures !todo.addedToTimeline ==> BlocksAfterDelete(todos, blocks, todo.id) == blocks
  {
    var found := FindTodo(todos, todo.id);
    assert found == Some(todo);
  }

  /** The block put on the timeline for a to-do: its title, length and
      tags, started at its due time, locked, and dated today when it has a
      due time (its due date plays no part). */
  lemma TimelineBlockFields(todo: Todo, blockId: string, today: string)
    ensures var b := NewBlock(TimelineDraft(todo), blockId, today);
      b.id == blockId && b.title == todo.title && b.duration == todo.duration &&
      b.startTime == todo.dueTime && b.tagIds == todo.tagIds && b.locked &&
      b.date == (if Truthy(todo.dueTime) then Some(today) else None)
  {
  }

  // ------------------------------------------------------------ the module

  /** The component's state, over the shared block store. */
  class Todos {
    const store: TimeBlockStore
    var todos: seq<Todo>
    var showTodoForm: bool
    var editingTodo: Option<Todo>
    var form: TodoForm

    ghost predicate Valid()
      reads this, store
    {
      Linked(todos, store.timeBlocks)
    }

    /** Starts from the saved list, or an empty one, with the form due
        `today` at `now`. */
    constructor (store: TimeBlockStore, saved: Option<seq<Todo>>, today: string, now: string)
      ensures this.store == store
      ensures todos == (if saved.Some? then saved.value else [])
      ensures !showTodoForm && editingTodo == None && form == BlankForm(today, now)
    {
      this.store := store;
      todos := if saved.Some? then saved.value else [];
      showTodoForm := false;
      editingTodo := None;
      form := BlankForm(today, now);
    }

    method OpenForm()
      modifies this
      ensures showTodoForm && todos == old(todos) && editingTodo == old(editingTodo) && form == old(form)
    {
      showTodoForm := true;
    }

    /** The close button: closes the form, drops the edit and resets the
        fields. */
    method CloseForm(today: string, now: string)
      modifies this
      ensures !showTodoForm && editingTodo == None && form == BlankForm(today, now) && todos == old(todos)
    {
      showTodoForm := false;
      editingTodo := None;
      form := BlankForm(today, now);
    }

    method SetTodoTitle(text: string)
      modifies this
      ensures form == old(form).(todoTitle := text)
      ensures todos == old(todos) && showTodoForm == old(showTodoForm) && editingTodo == old(editingTodo)
    {
      form := form.(todoTitle := text);
    }

    /** The duration field, read with `parseInt`. */
    method SetTodoDuration(value: int)
      modifies this
      ensures form == old(form).(todoDuration := value)
      ensures todos == old(todos) && showTodoForm == old(showTodoForm) && editingTodo == old(editingTodo)
    {
      form := form.(todoDuration := value);
    }

    method SetTodoDueDate(text: string)
      modifies this
      ensures form == old(form).(todoDueDate := text)
      ensures todos == old(todos) && showTodoForm == old(showTodoForm) && editingTodo == old(editingTodo)
    {
      form := form.(todoDueDate := text);
    }

    method SetTodoDueTime(text: string)
      modifies this
      ensures form == old(form).(todoDueTime := text)
      ensures todos == old(todos) && showTodoForm == old(showTodoForm) && editingTodo == old(editingTodo)
    {
      form := form.(todoDueTime := text);
    }

    method ToggleTag(tagId: string)
      modifies this
      ensures form == old(form).(selectedTags := Toggle(old(form).selectedTags, tagId))
      ensures todos == old(todos) && showTodoForm == old(showTodoForm) && editingTodo == old(editingTodo)
    {
      form := form.(selectedTags := Toggle(form.selectedTags, tagId));
    }

    /** `handleAddTodo`, the new to-do's id and the clock as parameters:
        nothing happens when the title trims to empty; otherwise the edited
        to-do is updated, or a new one appended, and the form resets. */
    method HandleAddTodo(id: string, today: string, now: string)
      modifies this
      ensures if Trim(old(form).todoTitle) == "" then
          todos == old(todos) && form == old(form) && editingTodo == old(editingTodo) &&
          showTodoForm == old(showTodoForm)
        else
          todos == (if old(editingTodo).Some? then EditTodos(old(todos), old(editingTodo).value.id, old(form))
                    else old(todos) + [NewTodo(old(form), id)]) &&
          form == BlankForm(today, now) && editingTodo == None && !showTodoForm
      ensures old(Valid()) && (forall t :: t in old(todos) ==> t.id != id) ==> Valid()
    {
      if Trim(form.todoTitle) == "" {
        return;
      }
      if editingTodo.Some? {
        ghost var before := todos;
        todos := EditTodos(todos, editingTodo.value.id, form);
        if Linked(before, store.timeBlocks) {
          LinkedEditTodo(before, store.timeBlocks, editingTodo.value.id, form);
        }
        editingTodo := None;
      } else {
        ghost var before := todos;
        todos := todos + [NewTodo(form, id)];
        if Linked(before, store.timeBlocks) && forall t :: t in before ==> t.id != id {
          LinkedAddTodo(before, store.timeBlocks, form, id);
        }
      }
      form := BlankForm(today, now);
      showTodoForm := false;
    }

    /** `handleEditTodo`: loads the to-do into the form, falling back to
        today and now for a missing due date or time. */
    method HandleEditTodo(todo: Todo, today: string, now: string)
      modifies this
      ensures editingTodo == Some(todo) && showTodoForm && todos == old(todos)
      ensures form == TodoForm(todo.title, todo.duration,
                               if Truthy(todo.dueDate) then todo.dueDate.value else today,
                               if Truthy(todo.dueTime) then todo.dueTime.value else now,
                               todo.tagIds)
    {
      editingTodo := Some(todo);
      form := TodoForm(todo.title, todo.duration,
                       if Truthy(todo.dueDate) then todo.dueDate.value else today,
                       if Truthy(todo.dueTime) then todo.dueTime.value else now,
                       todo.tagIds);
      showTodoForm := true;
    }

    /** `handleDeleteTodo(id)`. */
    method HandleDeleteTodo(id: string)
      modifies this, store
      ensures todos == DeleteTodos(old(todos), id)
      ensures store.timeBlocks == BlocksAfterDelete(old(todos), old(store.timeBlocks), id)
      ensures store.tags == old(store.tags)
      ensures form == old(form) && editingTodo == old(editingTodo) && showTodoForm == old(showTodoForm)
      ensures old(Valid()) ==> Valid()
    {
      ghost var before, blocks := todos, store.timeBlocks;
      var found := FindTodo(todos, id);
      if found.Some? && Truthy(found.value.timeBlockId) {
        store.DeleteTimeBlock(found.value.timeBlockId.value);
      }
      todos := DeleteTodos(todos, id);
      if Linked(before, blocks) {
        LinkedDeleteTodo(before, blocks, id);
      }
    }

    /** `handleAddToTimeline(todo)`, offered for a to-do not yet on the
        timeline; the store gives the block id `blockId`. */
    method HandleAddToTimeline(todo: Todo, blockId: string, today: string)
      modifies this, store
      ensures store.timeBlocks == old(store.timeBlocks) + [NewBlock(TimelineDraft(todo), blockId, today)]
      ensures todos == UpdateTodos(old(todos), todo.id, t => LinkTodo(t, blockId))
      ensures store.tags == old(store.tags)
      ensures form == old(form) && editingTodo == old(editingTodo) && showTodoForm == old(showTodoForm)
      ensures (old(Valid()) && todo in old(todos) && !todo.addedToTimeline &&
               FreshBlockId(old(store.timeBlocks), blockId) && blockId != "") ==> Valid()
    {
      ghost var before, blocks := todos, store.timeBlocks;
      var b := store.AddTimeBlock(TimelineDraft(todo), blockId, today);
      todos := UpdateTodos(todos, todo.id, t => LinkTodo(t, b.id));
      if Linked(before, blocks) && todo in before && !todo.addedToTimeline &&
         FreshBlockId(blocks, blockId) && blockId != "" {
        LinkedAddToTimeline(before, blocks, todo, blockId, today);
      }
    }

    /** `handleRemoveFromTimeline(todo)`: nothing happens without a block
        id. */
    method HandleRemoveFromTimeline(todo: Todo)
      modifies this, store
      ensures Truthy(todo.timeBlockId) ==>
        store.timeBlocks == RemoveBlocks(old(store.timeBlocks), todo.timeBlockId.value) &&
        todos == UpdateTodos(old(todos), todo.id, UnlinkTodo)
      ensures !Truthy(todo.timeBlockId) ==> store.timeBlocks == old(store.timeBlocks) && todos == old(todos)
      ensures store.tags == old(store.tags)
      ensures form == old(form) && editingTodo == old(editingTodo) && showTodoForm == old(showTodoForm)
      ensures old(Valid()) && todo in old(todos) ==> Valid()
    {
      if Truthy(todo.timeBlockId) {
        ghost var before, blocks := todos, store.timeBlocks;
        store.DeleteTimeBlock(todo.timeBlockId.value);
        todos := UpdateTodos(todos, todo.id, UnlinkTodo);
        if Linked(before, blocks) && todo in before {
          LinkedRemoveFromTimeline(before, blocks, todo);
        }
      }
    }

    /** `handleCompleteTodo(todo)`: the timeline is left alone. */
    method HandleCompleteTodo(todo: Todo)
      modifies this
      ensures todos == UpdateTodos(old(todos), todo.id, CompleteTodo)
      ensures form == old(form) && editingTodo == old(editingTodo) && showTodoForm == old(showTodoForm)
      ensures old(Valid()) ==> Valid()
    {
      ghost var before := todos;
      todos := UpdateTodos(todos, todo.id, CompleteTodo);
      if Linked(before, store.timeBlocks) {
        LinkedCompleteTodo(before, store.timeBlocks, todo.id);
      }
    }
  }
}
