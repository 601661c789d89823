/** Daily habits: each has a name, a time of day, a length and tags.
    Completing a habit records a time block at its time and marks it done;
    resetting marks every habit not done. */
module HabitsModule {
  import opened JsText
  import opened Seqs
  import opened TimeBlockContext

  datatype Habit = Habit(
    id: string,
    name: string,
    time: string,
    duration: int,
    tagIds: seq<string>,
    completed: bool)

  /** The form's fields. */
  datatype HabitForm = HabitForm(habitName: string, habitTime: string, habitDuration: int, selectedTags: seq<string>)

  /** The form as it opens and as it resets: 08:00 for an hour. */
  const BlankForm := HabitForm("", "08:00", 60, [])

  // ------------------------------------------------------ list operations

  function NewHabit(f: HabitForm, id: string): (h: Habit)
    ensures h.id == id && h.name == f.habitName && h.time == f.habitTime
    ensures h.duration == f.habitDuration && h.tagIds == f.selectedTags && !h.completed
  {
    Habit(id, f.habitName, f.habitTime, f.habitDuration, f.selectedTags, false)
  }

  /** `habits.map(h => h.id === id ? g(h) : h)`. */
  function UpdateHabits(habits: seq<Habit>, id: string, g: Habit -> Habit): (r: seq<Habit>)
    ensures |r| == |habits|
    ensures forall i :: 0 <= i < |habits| && habits[i].id != id ==> r[i] == habits[i]
    ensures forall i :: 0 <= i < |habits| && habits[i].id == id ==> r[i] == g(habits[i])
  {
    MapSeq((h: Habit) => if h.id == id then g(h) else h, habits)
  }

  function EditHabit(h: Habit, f: HabitForm): Habit {
    h.(name := f.habitName, time := f.habitTime, duration := f.habitDuration, tagIds := f.selectedTags)
  }

  function CompleteHabit(h: Habit): Habit {
    h.(completed := true)
  }

  /** An edit changes only the matching habit, and on it only the form's
      fields: its id and completion stay. */
  lemma EditHabitsFields(habits: seq<Habit>, id: string, f: HabitForm)
    ensures var r := UpdateHabits(habits, id, h => EditHabit(h, f));
      |r| == |habits| &&
      (forall i :: 0 <= i < |habits| && habits[i].id != id ==> r[i] == habits[i]) &&
      (forall i :: 0 <= i < |habits| && habits[i].id == id ==>
         r[i].id == id && r[i].completed == habits[i].completed &&
         r[i].name == f.habitName && r[i].time == f.habitTime &&
         r[i].duration == f.habitDuration && r[i].tagIds == f.selectedTags)
  {
  }

  /** Completing marks the matching habit done and changes nothing else. */
  lemma CompleteHabitsFields(habits: seq<Habit>, id: string)
    ensures var r := UpdateHabits(habits, id, CompleteHabit);
      |r| == |habits| &&
      (forall i :: 0 <= i < |habits| && habits[i].id != id ==> r[i] == habits[i]) &&
      (forall i :: 0 <= i < |habits| && habits[i].id == id ==> r[i] == habits[i].(completed := true))
  {
  }

  function DeleteHabits(habits: seq<Habit>, id: string): (r: seq<Habit>)
    ensures forall h :: h in r <==> h in habits && h.id != id
  {
    Filter((h: Habit) => h.id != id, habits)
  }

  /** What completing a habit asks the store for: its name, length, time
      and tags. */
  function HabitDraft(h: Habit): BlockDraft {
    Draft(h.name, h.duration, Some(h.time), h.tagIds)
  }

  /** The recorded block starts at the habit's time, is unlocked, and is
      dated today unless the time is empty. */
  lemma HabitBlockFields(h: Habit, id: string, today: string)
    ensures var b := NewBlock(HabitDraft(h), id, today);
      b.id == id && b.title == h.name && b.duration == h.duration && b.tagIds == h.tagIds &&
      b.startTime == Some(h.time) && !b.locked && (b.date == Some(today) <==> h.time != "")
  {
  }

  /** `habits.map(habit => ({ ...habit, completed: false }))`. */
  function ResetAll(habits: seq<Habit>): (r: seq<Habit>)
    ensures |r| == |habits|
    ensures forall i :: 0 <= i < |habits| ==> r[i] == habits[i].(completed := false)
  {
    MapSeq((h: Habit) => h.(completed := false), habits)
  }

  /** `habits.some(habit => habit.completed)`: the reset button is enabled. */
  predicate AnyCompleted(habits: seq<Habit>) {
    exists h :: h in habits && h.completed
  }

  /** Resetting leaves no habit done, keeps the order and every other
      field, is idempotent, and changes nothing when no habit is done. */
  lemma ResetProperties(habits: seq<Habit>)
    ensures !AnyCompleted(ResetAll(habits))
    ensures MapSeq((h: Habit) => h.id, ResetAll(habits)) == MapSeq((h: Habit) => h.id, habits)
    ensures ResetAll(ResetAll(habits)) == ResetAll(habits)
    ensures !AnyCompleted(habits) ==> ResetAll(habits) == habits
  {
    var r := ResetAll(habits);
    if !AnyCompleted(habits) {
      forall i | 0 <= i < |habits| ensures r[i] == habits[i] {
        assert habits[i] in habits;
      }
    }
  }

  // ------------------------------------------------------------ the module

  class Habits {
    const store: TimeBlockStore
    var habits: seq<Habit>
    var showHabitForm: bool
    var editingHabit: Option<Habit>
    var form: HabitForm

    constructor (store: TimeBlockStore, saved: Option<seq<Habit>>)
      ensures this.store == store
      ensures habits == (if saved.Some? then saved.value else [])
      ensures !showHabitForm && editingHabit == None && form == BlankForm
    {
      this.store := store;
      habits := if saved.Some? then saved.value else [];
      showHabitForm := false;
      editingHabit := None;
      form := BlankForm;
    }

    method OpenForm()
      modifies this
      ensures showHabitForm && habits == old(habits) && editingHabit == old(editingHabit) && form == old(form)
    {
      showHabitForm := true;
    }

    /** The close button: closes the form, drops the edit and resets the
        fields. */
    method CloseForm()
      modifies this
      ensures !showHabitForm && editingHabit == None && form == BlankForm && habits == old(habits)
    {
      showHabitForm := false;
      editingHabit := None;
      form := BlankForm;
    }

    method SetHabitName(text: string)
      modifies this
      ensures form == old(form).(habitName := text)
      ensures habits == old(habits) && showHabitForm == old(showHabitForm) && editingHabit == old(editingHabit)
    {
      form := form.(habitName := text);
    }

    method SetHabitTime(text: string)
      modifies this
      ensures form == old(form).(habitTime := text)
      ensures habits == old(habits) && showHabitForm == old(showHabitForm) && editingHabit == old(editingHabit)
    {
      form := form.(habitTime := text);
    }

    /** The duration field, read with `parseInt`. */
    method SetHabitDuration(value: int)
      modifies this
      ensures form == old(form).(habitDuration := value)
      ensures habits == old(habits) && showHabitForm == old(showHabitForm) && editingHabit == old(editingHabit)
    {
      form := form.(habitDuration := value);
    }

    method ToggleTag(tagId: string)
      modifies this
      ensures form == old(form).(selectedTags := Toggle(old(form).selectedTags, tagId))
      ensures habits == old(habits) && showHabitForm == old(showHabitForm) && editingHabit == old(editingHabit)
    {
      form := form.(selectedTags := Toggle(form.selectedTags, tagId));
    }

    /** `handleAddHabit` with the new habit's id as a parameter: nothing
        happens when the name trims to empty; otherwise the edited habit is
        updated, or a new one appended, and the form resets. */
    method HandleAddHabit(id: string)
      modifies this
      ensures if Trim(old(form).habitName) == "" then
          habits == old(habits) && form == old(form) && editingHabit == old(editingHabit) &&
          showHabitForm == old(showHabitForm)
        else
          habits == (if old(editingHabit).Some?
                     then UpdateHabits(old(habits), old(editingHabit).value.id, h => EditHabit(h, old(form)))
                     else old(habits) + [NewHabit(old(form), id)]) &&
          form == BlankForm && editingHabit == None && !showHabitForm
    {
      if Trim(form.habitName) == "" {
        return;
      }
      var f := form;
      if editingHabit.Some? {
        habits := UpdateHabits(habits, editingHabit.value.id, h => EditHabit(h, f));
        editingHabit := None;
      } else {
        habits := habits + [NewHabit(form, id)];
      }
      form := BlankForm;
      showHabitForm := false;
    }

    /** `handleEditHabit`: loads the habit into the form. */
    method HandleEditHabit(habit: Habit)
      modifies this
      ensures editingHabit == Some(habit) && showHabitForm && habits == old(habits)
      ensures form == HabitForm(habit.name, habit.time, habit.duration, habit.tagIds)
    {
      editingHabit := Some(habit);
      form := HabitForm(habit.name, habit.time, habit.duration, habit.tagIds);
      showHabitForm := true;
    }

    /** `handleDeleteHabit(id)`: the store is not touched. */
    method HandleDeleteHabit(id: string)
      modifies this
      ensures habits == DeleteHabits(old(habits), id)
      ensures form == old(form) && editingHabit == old(editingHabit) && showHabitForm == old(showHabitForm)
    {
      habits := DeleteHabits(habits, id);
    }

    /** `handleCompleteHabit(habit)`, reachable only from the check button
        that is rendered for habits not yet done: one block recorded under
        `blockId`, and the habit marked done. */
    method HandleCompleteHabit(habit: Habit, blockId: string, today: string)
      modifies this, store
      ensures if habit.completed then habits == old(habits) && store.timeBlocks == old(store.timeBlocks)
        else store.timeBlocks == old(store.timeBlocks) + [NewBlock(HabitDraft(habit), blockId, today)] &&
             habits == UpdateHabits(old(habits), habit.id, CompleteHabit)
      ensures store.tags == old(store.tags)
      ensures form == old(form) && editingHabit == old(editingHabit) && showHabitForm == old(showHabitForm)
    {
      if !habit.completed {
        var _ := store.AddTimeBlock(HabitDraft(habit), blockId, today);
        habits := UpdateHabits(habits, habit.id, CompleteHabit);
      }
    }

    /** `handleResetHabits`. */
    method HandleResetHabits()
      modifies this
      ensures habits == ResetAll(old(habits))
      ensures form == old(form) && editingHabit == old(editingHabit) && showHabitForm == old(showHabitForm)
    {
      habits := ResetAll(habits);
    }
  }
}
