/** The timer: a countdown, a stopwatch or a pomodoro that alternates work
    and break periods. Once a second the running timer ticks; a countdown
    that runs out and every finished pomodoro period record a time block,
    and stopping a stopwatch records one for the minutes it ran. The clock's
    "HH:MM" readings and the browser's interval handles are inputs. */
module TimerModule {
  import opened JsText
  import opened Seqs
  import opened TimeBlockContext

  datatype TimerKind = Countdown | Stopwatch | Pomodoro

  /** The active timer. Durations are in minutes, `elapsed` in seconds. */
  datatype TimerState = TimerState(
    kind: TimerKind,
    duration: int,
    elapsed: int,
    running: bool,
    title: string,
    tagIds: seq<string>,
    pomodoroWork: int,
    pomodoroBreak: int,
    pomodoroIsBreak: bool,
    startTime: Option<string>)

  /** The timer `startTimer` creates from the form: a stopwatch's duration
      is 0, and the title is kept as typed, untrimmed. */
  function NewTimer(kind: TimerKind, title: string, duration: int, work: int, brk: int,
                    tagIds: seq<string>, now: string): (t: TimerState)
    ensures t.elapsed == 0 && t.running && !t.pomodoroIsBreak && t.startTime == Some(now)
    ensures t.duration == (if kind == Stopwatch then 0 else duration)
    ensures t.kind == kind && t.title == title && t.tagIds == tagIds
    ensures t.pomodoroWork == work && t.pomodoroBreak == brk
  {
    TimerState(kind, if kind == Stopwatch then 0 else duration, 0, true, title, tagIds,
               work, brk, false, Some(now))
  }

  /** `timerTitle.trim() === ''`. */
  predicate BlankTitle(title: string) {
    Trim(title) == ""
  }

  /** The length in minutes of the pomodoro period under way. */
  function PeriodLength(t: TimerState): int {
    if t.pomodoroIsBreak then t.pomodoroBreak else t.pomodoroWork
  }

  /** "title (Work)" or "title (Break)". */
  function PeriodTitle(t: TimerState): string {
    t.title + " " + (if t.pomodoroIsBreak then "(Break)" else "(Work)")
  }

  /** One tick: the timer after it, the block it records if any, and
      whether the tick clears its own interval. */
  datatype TickResult = TickResult(next: Option<TimerState>, emitted: Option<BlockDraft>, clears: bool)

  /** The body of the one-second interval, written out identically in
      `startTimer` and in `resumeTimer`. It does not look at `running`. */
  function Tick(prev: Option<TimerState>, now: string): (r: TickResult)
    ensures prev.None? ==> r == TickResult(None, None, false)
    ensures r.clears ==> r.next.None? && r.emitted.Some?
  {
    if prev.None? then TickResult(None, None, false)
    else
      var t := prev.value;
      var e := t.elapsed + 1;
      if t.kind == Pomodoro && e >= PeriodLength(t) * 60 then
        TickResult(Some(t.(elapsed := 0, pomodoroIsBreak := !t.pomodoroIsBreak, startTime := Some(now))),
                   Some(Draft(PeriodTitle(t), PeriodLength(t), t.startTime, t.tagIds)), false)
      else if t.kind == Countdown && e >= t.duration * 60 then
        TickResult(None, Some(Draft(t.title, t.duration, t.startTime, t.tagIds)), true)
      else
        TickResult(Some(t.(elapsed := e)), None, false)
  }

  /** The second count at which the timer's current run ends: the
      countdown's length, the pomodoro period's length; a stopwatch has
      none. */
  function Limit(t: TimerState): Option<int> {
    match t.kind
    case Countdown => Some(t.duration * 60)
    case Pomodoro => Some(PeriodLength(t) * 60)
    case Stopwatch => None
  }

  /** A tick before the limit adds one second and changes nothing else. */
  lemma TickBeforeLimit(t: TimerState, now: string)
    requires Limit(t).None? || t.elapsed + 1 < Limit(t).value
    ensures Tick(Some(t), now) == TickResult(Some(t.(elapsed := t.elapsed + 1)), None, false)
  {
  }

  /** A countdown reaching its limit records one block of its full length
      with its title, start time and tags, ends, and clears its interval. */
  lemma TickCountdownEnds(t: TimerState, now: string)
    requires t.kind == Countdown && t.elapsed + 1 >= t.duration * 60
    ensures Tick(Some(t), now).next == None && Tick(Some(t), now).clears
    ensures Tick(Some(t), now).emitted == Some(BlockDraft(t.title, t.duration, t.startTime, None, t.tagIds, None, false))
  {
  }

  /** A pomodoro reaching the end of a period records that period as a
      block and goes on in the other phase from zero; there is no long
      break and no count of periods. */
  lemma TickPomodoroSwitches(t: TimerState, now: string)
    requires t.kind == Pomodoro && t.elapsed + 1 >= PeriodLength(t) * 60
    ensures var r := Tick(Some(t), now);
      !r.clears && r.next.Some? && r.emitted.Some? &&
      r.next.value.elapsed == 0 && r.next.value.pomodoroIsBreak == !t.pomodoroIsBreak &&
      r.next.value.running == t.running && r.next.value.startTime == Some(now) &&
      r.next.value.title == t.title && r.next.value.tagIds == t.tagIds &&
      r.emitted.value.duration == PeriodLength(t) &&
      r.emitted.value.startTime == t.startTime && r.emitted.value.tagIds == t.tagIds &&
      r.emitted.value.title == t.title + (if t.pomodoroIsBreak then " (Break)" else " (Work)")
  {
  }

  /** The lengths the form should have supplied: at least a minute. */
  predicate PositiveDurations(t: TimerState) {
    (t.kind == Countdown ==> t.duration >= 1) &&
    (t.kind == Pomodoro ==> t.pomodoroWork >= 1 && t.pomodoroBreak >= 1)
  }

  /** The elapsed seconds stay below the limit of the run under way. */
  predicate TimerInv(t: TimerState) {
    t.elapsed >= 0 && (Limit(t).Some? ==> t.elapsed < Limit(t).value)
  }

  lemma NewTimerInv(kind: TimerKind, title: string, duration: int, work: int, brk: int,
                    tagIds: seq<string>, now: string)
    requires kind == Countdown ==> duration >= 1
    requires kind == Pomodoro ==> work >= 1 && brk >= 1
    ensures var t := NewTimer(kind, title, duration, work, brk, tagIds, now);
      TimerInv(t) && PositiveDurations(t)
  {
  }

  /** Every tick keeps the invariant. */
  lemma TickKeepsInv(t: TimerState, now: string)
    requires TimerInv(t) && PositiveDurations(t)
    ensures var r := Tick(Some(t), now);
      r.next.Some? ==> TimerInv(r.next.value) && PositiveDurations(r.next.value)
  {
  }

  /** A run of `n` ticks: the timer after them and the blocks recorded, in
      order. */
  datatype Run = Run(last: Option<TimerState>, recorded: seq<BlockDraft>)

  function Ticks(s: Option<TimerState>, n: nat, now: string): (r: Run)
    ensures |r.recorded| <= n
    decreases n
  {
    if n == 0 then Run(s, [])
    else
      var r := Tick(s, now);
      var rest := Ticks(r.next, n - 1, now);
      Run(rest.last, (if r.emitted.Some? then [r.emitted.value] else []) + rest.recorded)
  }

  /** Ticks that stay before the limit only count seconds. */
  lemma {:induction false} TicksBeforeLimit(t: TimerState, n: nat, now: string)
    requires Limit(t).None? || t.elapsed + n < Limit(t).value
    ensures Ticks(Some(t), n, now) == Run(Some(t.(elapsed := t.elapsed + n)), [])
    decreases n
  {
    if n > 0 {
      TickBeforeLimit(t, now);
      TicksBeforeLimit(t.(elapsed := t.elapsed + 1), n - 1, now);
    }
  }

  /** A countdown with `s` seconds left records exactly one block, of its
      full length, on exactly its `s`-th tick, and then is gone. */
  lemma CountdownRunsOut(t: TimerState, now: string)
    requires t.kind == Countdown && TimerInv(t)
    ensures var left := t.duration * 60 - t.elapsed;
      left >= 1 &&
      Ticks(Some(t), left - 1, now).last == Some(t.(elapsed := t.duration * 60 - 1)) &&
      Ticks(Some(t), left, now) == Run(None, [Draft(t.title, t.duration, t.startTime, t.tagIds)])
  {
    var left := t.duration * 60 - t.elapsed;
    var u := t.(elapsed := t.duration * 60 - 1);
    TicksBeforeLimit(t, left - 1, now);
    TicksAppend(Some(t), left - 1, 1, now);
  }

  /** A pomodoro period started from zero takes `period * 60` ticks, records
      one block for the period and hands over to the other phase at zero. */
  lemma PomodoroPeriod(t: TimerState, now: string)
    requires t.kind == Pomodoro && t.elapsed == 0 && PeriodLength(t) >= 1
    ensures var run := Ticks(Some(t), PeriodLength(t) * 60, now);
      run.last == Some(t.(pomodoroIsBreak := !t.pomodoroIsBreak, startTime := Some(now))) &&
      run.recorded == [Draft(PeriodTitle(t), PeriodLength(t), t.startTime, t.tagIds)]
  {
    var n := PeriodLength(t) * 60;
    TicksBeforeLimit(t, n - 1, now);
    TicksAppend(Some(t), n - 1, 1, now);
  }

  /** Running `m` ticks and then `k` more is running `m + k`. */
  lemma {:induction false} TicksAppend(s: Option<TimerState>, m: nat, k: nat, now: string)
    ensures Ticks(s, m + k, now).last == Ticks(Ticks(s, m, now).last, k, now).last
    ensures Ticks(s, m + k, now).recorded == Ticks(s, m, now).recorded + Ticks(Ticks(s, m, now).last, k, now).recorded
    decreases m
  {
    if m > 0 {
      var r := Tick(s, now);
      TicksAppend(r.next, m - 1, k, now);
      assert m + k - 1 == (m - 1) + k;
    }
  }

  /** `Math.ceil(elapsed / 60)`: the whole minutes covering the seconds. */
  function CeilMinutes(seconds: int): (m: int)
    ensures (m - 1) * 60 < seconds <= m * 60
  {
    (seconds + 59) / 60
  }

  /** Stopping records a block only for a stopwatch, of the minutes that
      cover its seconds. */
  function StopRecord(active: Option<TimerState>): (d: Option<BlockDraft>)
    ensures d.Some? <==> active.Some? && active.value.kind == Stopwatch
  {
    if active.Some? && active.value.kind == Stopwatch then
      var t := active.value;
      Some(Draft(t.title, CeilMinutes(t.elapsed), t.startTime, t.tagIds))
    else None
  }

  /** A stopwatch stopped at `e` seconds records ⌈e / 60⌉ minutes: none at
      0, one for any part of the first minute. */
  lemma StopwatchMinutes(t: TimerState)
    requires t.kind == Stopwatch && t.elapsed >= 0
    ensures var d := StopRecord(Some(t)).value;
      d.title == t.title && d.startTime == t.startTime && d.tagIds == t.tagIds &&
      (t.elapsed == 0 <==> d.duration == 0) &&
      (0 < t.elapsed <= 60 ==> d.duration == 1) &&
      d.duration * 60 - 60 < t.elapsed <= d.duration * 60
  {
  }

  // ------------------------------------------------------------ the display

  /** The timer's own `formatTime(seconds)`: "MM:SS". */
  function ClockText(seconds: int): (text: string)
    ensures |text| >= 5 && ':' in text
  {
    ColonText(seconds / 60, JsRem(seconds, 60))
  }

  /** For a non-negative count, the seconds field is below 60 and reading
      the text back as minutes and seconds gives the count. */
  lemma ClockTextRoundTrip(seconds: int)
    requires seconds >= 0
    ensures 0 <= JsRem(seconds, 60) < 60 && (seconds / 60) * 60 + JsRem(seconds, 60) == seconds
    ensures ColonValue(ClockText(seconds)) == Num(seconds)
  {
    ColonRoundTrip(seconds / 60, seconds % 60);
  }

  /** The seconds `getTimerDisplay` shows: elapsed for a stopwatch, the
      time left otherwise. */
  function Shown(t: TimerState): int {
    match t.kind
    case Stopwatch => t.elapsed
    case Pomodoro => PeriodLength(t) * 60 - t.elapsed
    case Countdown => t.duration * 60 - t.elapsed
  }

  /** `getTimerDisplay()`. */
  function TimerDisplay(active: Option<TimerState>): string {
    if active.None? then "00:00" else ClockText(Shown(active.value))
  }

  /** Under the invariant, a countdown or pomodoro always shows time left
      (never "00:00" or less), a stopwatch its elapsed time, and no timer
      shows "00:00". */
  lemma DisplayShowsTimeLeft(active: Option<TimerState>)
    requires active.Some? ==> TimerInv(active.value)
    ensures active.None? ==> TimerDisplay(active) == "00:00"
    ensures active.Some? ==> ColonValue(TimerDisplay(active)) == Num(Shown(active.value))
    ensures active.Some? && active.value.kind != Stopwatch ==> Shown(active.value) > 0
    ensures active.Some? && active.value.kind == Stopwatch ==> Shown(active.value) == active.value.elapsed
  {
    if active.Some? {
      ClockTextRoundTrip(Shown(active.value));
    }
  }

  // ---------------------------------------------------------- the component

  /** The set-up form's fields. */
  datatype TimerForm = TimerForm(
    timerType: TimerKind,
    timerTitle: string,
    timerDuration: int,
    pomodoroWork: int,
    pomodoroBreak: int,
    selectedTags: seq<string>)

  const InitialForm := TimerForm(Countdown, "", 25, 25, 5, [])

  /** The timer `startTimer` builds from the form at clock reading `now`. */
  function TimerOf(f: TimerForm, now: string): TimerState {
    NewTimer(f.timerType, f.timerTitle, f.timerDuration, f.pomodoroWork, f.pomodoroBreak, f.selectedTags, now)
  }

  /** The component's state, and the browser's intervals: `scheduled` holds
      the handles of intervals set and not yet cleared, `nextHandle` the
      handle the next `setInterval` returns. */
  class Timer {
    const store: TimeBlockStore
    var activeTimer: Option<TimerState>
    var showTimerForm: bool
    var timerInterval: Option<nat>
    var scheduled: set<nat>
    var nextHandle: nat
    var form: TimerForm

    /** Exactly one interval is live while a timer runs, and it is the one
        the component holds; none is live otherwise; the form is open only
        when no timer is active. */
    ghost predicate Valid()
      reads this
    {
      (forall h :: h in scheduled ==> h < nextHandle) &&
      (scheduled == {} <==> !(activeTimer.Some? && activeTimer.value.running)) &&
      (scheduled != {} ==> timerInterval.Some? && scheduled == {timerInterval.value}) &&
      (showTimerForm ==> activeTimer.None?)
    }

    constructor (store: TimeBlockStore)
      ensures this.store == store && activeTimer == None && !showTimerForm
      ensures timerInterval == None && scheduled == {} && form == InitialForm
      ensures Valid()
    {
      this.store := store;
      activeTimer := None;
      showTimerForm := false;
      timerInterval := None;
      scheduled := {};
      nextHandle := 0;
      form := InitialForm;
    }

    /** The "Start Timer" toggle, shown only with no timer and no form. */
    method OpenTimerForm()
      modifies this
      ensures showTimerForm == (old(showTimerForm) || old(activeTimer).None?)
      ensures activeTimer == old(activeTimer) && timerInterval == old(timerInterval)
      ensures scheduled == old(scheduled) && nextHandle == old(nextHandle) && form == old(form)
      ensures old(Valid()) ==> Valid()
    {
      if activeTimer.None? {
        showTimerForm := true;
      }
    }

    method CloseTimerForm()
      modifies this
      ensures !showTimerForm
      ensures activeTimer == old(activeTimer) && timerInterval == old(timerInterval)
      ensures scheduled == old(scheduled) && nextHandle == old(nextHandle) && form == old(form)
      ensures old(Valid()) ==> Valid()
    {
      showTimerForm := false;
    }

    method SetTimerType(kind: TimerKind)
      modifies this
      ensures form == old(form).(timerType := kind)
      ensures activeTimer == old(activeTimer) && showTimerForm == old(showTimerForm)
      ensures timerInterval == old(timerInterval) && scheduled == old(scheduled) && nextHandle == old(nextHandle)
    {
      form := form.(timerType := kind);
    }

    method SetTimerTitle(text: string)
      modifies this
      ensures form == old(form).(timerTitle := text)
      ensures activeTimer == old(activeTimer) && showTimerForm == old(showTimerForm)
      ensures timerInterval == old(timerInterval) && scheduled == old(scheduled) && nextHandle == old(nextHandle)
    {
      form := form.(timerTitle := text);
    }

    /** The duration field sets the work length of a pomodoro and the
        countdown length otherwise. */
    method SetDurationInput(value: int)
      modifies this
      ensures form == if old(form).timerType == Pomodoro then old(form).(pomodoroWork := value)
                      else old(form).(timerDuration := value)
      ensures activeTimer == old(activeTimer) && showTimerForm == old(showTimerForm)
      ensures timerInterval == old(timerInterval) && scheduled == old(scheduled) && nextHandle == old(nextHandle)
    {
      if form.timerType == Pomodoro {
        form := form.(pomodoroWork := value);
      } else {
        form := form.(timerDuration := value);
      }
    }

    method SetBreakInput(value: int)
      modifies this
      ensures form == old(form).(pomodoroBreak := value)
      ensures activeTimer == old(activeTimer) && showTimerForm == old(showTimerForm)
      ensures timerInterval == old(timerInterval) && scheduled == old(scheduled) && nextHandle == old(nextHandle)
    {
      form := form.(pomodoroBreak := value);
    }

    method ToggleTag(tagId: string)
      modifies this
      ensures form == old(form).(selectedTags := Toggle(old(form).selectedTags, tagId))
      ensures activeTimer == old(activeTimer) && showTimerForm == old(showTimerForm)
      ensures timerInterval == old(timerInterval) && scheduled == old(scheduled) && nextHandle == old(nextHandle)
    {
      form := form.(selectedTags := Toggle(form.selectedTags, tagId));
    }

    /** `startTimer` at clock reading `now`, from the form's start button
        (which exists only while the form is open): nothing happens when
        the title trims to empty; otherwise the new timer runs under a new
        interval and the form closes. */
    method StartTimer(now: string)
      modifies this
      ensures if !old(showTimerForm) || BlankTitle(old(form).timerTitle) then
          activeTimer == old(activeTimer) && showTimerForm == old(showTimerForm) &&
          timerInterval == old(timerInterval) && scheduled == old(scheduled) && nextHandle == old(nextHandle)
        else
          activeTimer == Some(TimerOf(old(form), now)) &&
          !showTimerForm && timerInterval == Some(old(nextHandle)) &&
          scheduled == old(scheduled) + {old(nextHandle)} && nextHandle == old(nextHandle) + 1
      ensures form == old(form)
      ensures old(Valid()) ==> Valid()
    {
      if !showTimerForm || BlankTitle(form.timerTitle) {
        return;
      }
      activeTimer := Some(TimerOf(form, now));
      showTimerForm := false;
      var h := nextHandle;
      nextHandle := nextHandle + 1;
      scheduled := scheduled + {h};
      timerInterval := Some(h);
    }

    /** Interval `h` fires at clock reading `now`; a block it records gets
        id `blockId` and date `today`. */
    method FireInterval(h: nat, now: string, blockId: string, today: string)
      requires h in scheduled
      modifies this, store
      ensures var r := Tick(old(activeTimer), now);
        activeTimer == r.next &&
        store.timeBlocks == old(store.timeBlocks) + (if r.emitted.Some? then [NewBlock(r.emitted.value, blockId, today)] else []) &&
        scheduled == (if r.clears then old(scheduled) - {h} else old(scheduled))
      ensures store.tags == old(store.tags)
      ensures timerInterval == old(timerInterval) && nextHandle == old(nextHandle)
      ensures showTimerForm == old(showTimerForm) && form == old(form)
      ensures old(Valid()) ==> Valid()
    {
      var r := Tick(activeTimer, now);
      if r.emitted.Some? {
        var _ := store.AddTimeBlock(r.emitted.value, blockId, today);
      }
      if r.clears {
        scheduled := scheduled - {h};
      }
      activeTimer := r.next;
    }

    /** `pauseTimer`: clears the held interval and stops the timer, keeping
        its elapsed seconds. */
    method PauseTimer()
      modifies this
      ensures timerInterval == None
      ensures scheduled == if old(timerInterval).Some? then old(scheduled) - {old(timerInterval).value} else old(scheduled)
      ensures activeTimer == if old(activeTimer).Some? then Some(old(activeTimer).value.(running := false)) else None
      ensures nextHandle == old(nextHandle) && showTimerForm == old(showTimerForm) && form == old(form)
      ensures old(Valid()) ==> Valid()
    {
      if timerInterval.Some? {
        scheduled := scheduled - {timerInterval.value};
        timerInterval := None;
      }
      if activeTimer.Some? {
        activeTimer := Some(activeTimer.value.(running := false));
      }
    }

    /** `resumeTimer` at clock reading `now`, from the play button (shown
        only for a paused timer): the timer runs again from where it was,
        with a new start time, under a new interval. */
    method ResumeTimer(now: string)
      modifies this
      ensures if old(activeTimer).None? || old(activeTimer).value.running then
          activeTimer == old(activeTimer) && timerInterval == old(timerInterval) &&
          scheduled == old(scheduled) && nextHandle == old(nextHandle)
        else
          activeTimer == Some(old(activeTimer).value.(running := true, startTime := Some(now))) &&
          timerInterval == Some(old(nextHandle)) &&
          scheduled == old(scheduled) + {old(nextHandle)} && nextHandle == old(nextHandle) + 1
      ensures showTimerForm == old(showTimerForm) && form == old(form)
      ensures old(Valid()) ==> Valid()
    {
      if activeTimer.None? || activeTimer.value.running {
        return;
      }
      activeTimer := Some(activeTimer.value.(running := true, startTime := Some(now)));
      var h := nextHandle;
      nextHandle := nextHandle + 1;
      scheduled := scheduled + {h};
      timerInterval := Some(h);
    }

    /** `stopTimer`: clears the held interval, records a stopwatch's
        minutes, and ends the timer whatever its kind. */
    method StopTimer(blockId: string, today: string)
      modifies this, store
      ensures timerInterval == None && activeTimer == None
      ensures scheduled == if old(timerInterval).Some? then old(scheduled) - {old(timerInterval).value} else old(scheduled)
      ensures var d := StopRecord(old(activeTimer));
        store.timeBlocks == old(store.timeBlocks) + (if d.Some? then [NewBlock(d.value, blockId, today)] else [])
      ensures store.tags == old(store.tags)
      ensures nextHandle == old(nextHandle) && showTimerForm == old(showTimerForm) && form == old(form)
      ensures old(Valid()) ==> Valid()
    {
      if timerInterval.Some? {
        scheduled := scheduled - {timerInterval.value};
        timerInterval := None;
      }
      var d := StopRecord(activeTimer);
      if d.Some? {
        var _ := store.AddTimeBlock(d.value, blockId, today);
      }
      activeTimer := None;
    }
  }
}
