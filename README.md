# Timei planner — a Dafny model

This project models the logic of a browser day planner. It covers:

- the shared store of time blocks and tags;
- the 24-hour timeline, where a dragged block snaps to a quarter hour;
- the manual time-block form;
- the way a single block is shown: its tags, its colour, and what locking forbids;
- four optional modules:
  - a timer (countdown, stopwatch, pomodoro) that records finished runs as blocks;
  - a to-do list whose entries can be put on the timeline as locked blocks;
  - daily habits that record a block when completed;
  - an activity heatmap;
- the registry that installs and uninstalls those modules;
- the time-formatting utilities.

There is one Dafny module per source file, and stateful code stays stateful:

- The store, each component that holds state, and the module registry are classes. Their fields are the component's state, and their methods are its event handlers.
- Each handler's `ensures` gives its whole new state in terms of pure functions of the old state.
- Lemmas over those functions state the properties the planner relies on:
  - the to-do ↔ block referential integrity;
  - the round trips of the time formats;
  - the timer's run-out and phase-switch behaviour;
  - the heatmap's counting and intensity scale.

JavaScript value semantics are written out in `JsText.dfy`:

- truthiness of optional strings;
- `s || undefined`;
- numbers as integers or NaN;
- the truncating `%`;
- `parseFloat`, `parseInt` and `Number` on digit strings;
- `split`, `replace`, `padStart`, `endsWith`;
- `trim` over the ECMAScript white-space set.

The array operations `filter`, `map` and the tag "toggle" idiom are in `Seqs.dfy`.

Some inputs are parameters, because the model has no clock, storage or interval scheduler:

- Ids and the clock: a new block's id, today's date, the current "HH:MM", the heatmap's day keys.
- Saved state: each constructor takes what storage held, as an `Option`.
- Intervals: the browser's live intervals are a set of handles. Firing one is a method.

## Model

| member | source | states |
|---|---|---|
| TimeUtils.DisplayHour | src/utils/timeUtils.ts:6 | `hour % 12 \|\| 12` with the truncating remainder; its range 1..12 over the hours of a day, and 12 exactly at midnight and noon, are stated by TimeUtils.DisplayHourOfDay |
| TimeUtils.FormatTime | src/utils/timeUtils.ts:4-8 | the hour label is "<hour> AM" or "<hour> PM", at least four characters long |
| TimeUtils.FormatTimePeriod | src/utils/timeUtils.ts:5 | the label ends in "PM" exactly when the hour is 12 or more, and in "AM" exactly when it is below 12 |
| TimeUtils.DisplayHourOfDay | src/utils/timeUtils.ts:6 | for hours 0..23 the shown hour is in 1..12; it is 12 exactly at midnight and noon; it agrees with the hour modulo 12 |
| TimeUtils.FormatTimeExamples | src/utils/timeUtils.ts:4-8 | 0 gives "12 AM", 12 gives "12 PM", 13 gives "1 PM" |
| TimeUtils.HourOfLabel | src/utils/timeUtils.ts:4-8 | reading an hour label back yields an hour of the day, or nothing |
| TimeUtils.FormatTimeRoundTrip | src/utils/timeUtils.ts:4-8 | each of the 24 hour labels reads back as its own hour, so the labels are distinct |
| TimeUtils.FormatDuration | src/utils/timeUtils.ts:13-24 | the duration text "Mm", "Hh" or "Hh Mm" has at least two characters |
| TimeUtils.FormatDurationExamples | src/utils/timeUtils.ts:13-24 | 45 gives "45m", 60 gives "1h", 90 gives "1h 30m" |
| TimeUtils.ParseDuration | src/utils/timeUtils.ts:29-46 | the three branches and the default; that it inverts formatDuration is TimeUtils.DurationRoundTrip, when it throws is TimeUtils.ParseDurationThrows, the default is TimeUtils.ParseDurationDefault |
| TimeUtils.ParseDurationDefault | src/utils/timeUtils.ts:45 | text without both "h" and "m", ending in neither, parses as 0 |
| TimeUtils.SplitSingleIff | src/utils/timeUtils.ts:32 | a split gives one piece exactly when the separator is absent |
| TimeUtils.ParseDurationThrows | src/utils/timeUtils.ts:30-34 | parsing throws (reads `parts[1]` of a one-piece split) exactly when the text has an "h" and an "m" but no space |
| TimeUtils.MinutesRoundTrip | src/utils/timeUtils.ts:40-43 | "Mm" for m < 60 parses as m |
| TimeUtils.HoursRoundTrip | src/utils/timeUtils.ts:36-39 | "Hh" parses as 60·H |
| TimeUtils.SplitHoursMinutes | src/utils/timeUtils.ts:32 | "Hh Mm" splits on its one space into "Hh" and "Mm" |
| TimeUtils.ParseHoursMinutes | src/utils/timeUtils.ts:30-35 | "Hh Mm" with digit strings parses as 60·parseFloat(H) + parseFloat(M) |
| TimeUtils.HoursMinutesRoundTrip | src/utils/timeUtils.ts:30-35 | "Hh Mm" printed from naturals parses as 60·H + M |
| TimeUtils.DurationRoundTrip | src/utils/timeUtils.ts:13-46 | `parseDuration(formatDuration(m)) == m` for every natural m, in each of the three shapes |
| JsText.ParseFloat | src/utils/timeUtils.ts:33-42 | on its domain of digit strings: a number exactly when the text starts with a digit, and then non-negative; a printed natural reads back as itself (JsText.ParseFloatDecimal) |
| JsText.ParseInt | src/components/TimeBlockForm.tsx:15-20 | empty text is NaN; text starting with a digit reads as `parseFloat` does; a sign is read first |
| JsText.JsNumber | src/components/Timeline/Timeline.tsx:63 | a number exactly when the text is all digits ("" being 0) |
| JsText.Split | src/utils/timeUtils.ts:32 | at least one piece, and no piece holds the separator; a text without it is one piece (JsText.SplitNone), and a first separator cuts it (JsText.SplitAt) |
| JsText.ReplaceFirst | src/utils/timeUtils.ts:33 | a text without the character is unchanged; otherwise exactly one character goes, the first occurrence (JsText.ReplaceFirstAt) |
| JsText.EndsWith | src/utils/timeUtils.ts:36-40 | the text is non-empty and its last character is the one given; used by TimeUtils.ParseDurationDefault and the round trips |
| JsText.PadStart2 | src/components/Timeline/Timeline.tsx:31 | the padded text has length max(2, n), ends with the original, and is padded with '0' on the left |
| JsText.Trim | src/components/TimeBlockForm.tsx:40-42 | no white space at either end (JsText.TrimShape), and empty exactly for all-white text (JsText.TrimEmptyIff) |
| JsText.OrUndefined | src/modules/TodosModule/TodosModule.tsx:81-82 | `s \|\| undefined` is truthy exactly when s is non-empty, and then holds s |
| JsText.JsRem | src/modules/TimerModule/TimerModule.tsx:208 | JavaScript `%` agrees with the mathematical remainder for non-negative operands, is strictly within ±b, and is never positive for a negative operand |
| JsText.ColonRoundTrip | src/components/Timeline/Timeline.tsx:63 | "AA:BB" printed with padding from naturals reads back through `split(':').map(Number)` as 60·a + b |
| JsText.TrimEmptyIff | src/components/TimeBlockForm.tsx:40 | `s.trim()` is empty exactly when s is all white space |
| JsText.TrimShape | src/components/TimeBlockForm.tsx:42 | a trimmed string neither starts nor ends with white space |
| Seqs.Toggle | src/components/TimeBlockForm.tsx:26-32 | after a toggle the tag is selected exactly when it was not; selecting appends it last, after the old selection in its order; the other selections stay selected |
| Seqs.ToggleOffMultiset | src/components/TimeBlockForm.tsx:28 | deselecting removes every copy of the tag and leaves every other selection, with its multiplicity |
| Seqs.ToggleOffOrder | src/components/TimeBlockForm.tsx:28 | deselecting a tag held once leaves the selections before and after it in their order |
| Seqs.ToggleTwiceRestores | src/components/TimeBlockForm.tsx:26-32 | selecting an unselected tag and deselecting it restores the selection |
| TimeBlockContext.NewBlock | src/contexts/TimeBlockContext.tsx:70-78 | the new block has the new id and every field of the draft; it is dated, with today, exactly when its start time is truthy |
| TimeBlockContext.NewBlockIgnoresDate | src/contexts/TimeBlockContext.tsx:74 | the date a caller supplies never reaches the stored block |
| TimeBlockContext.MergeBlock | src/contexts/TimeBlockContext.tsx:82 | `{ ...block, ...updates }`; its field-by-field meaning is TimeBlockContext.MergeBlockFields |
| TimeBlockContext.UpdateBlocks | src/contexts/TimeBlockContext.tsx:80-84 | same length; blocks under other ids are unchanged; a block under the id becomes its merge with the update |
| TimeBlockContext.MergeBlockFields | src/contexts/TimeBlockContext.tsx:82 | the merge takes every field the update carries and keeps the rest; an empty update changes nothing |
| TimeBlockContext.RemoveBlocks | src/contexts/TimeBlockContext.tsx:86-88 | exactly the blocks under other ids remain |
| TimeBlockContext.RemoveBlocksOrder | src/contexts/TimeBlockContext.tsx:87 | deleting keeps the remaining blocks' order, and deleting an absent id changes nothing |
| TimeBlockContext.MergeTag | src/contexts/TimeBlockContext.tsx:99 | `{ ...tag, ...updates }`; its field-by-field meaning is TimeBlockContext.MergeTagFields |
| TimeBlockContext.MergeTagFields | src/contexts/TimeBlockContext.tsx:99 | the merged tag takes every field the update carries and keeps the rest; an empty update changes nothing |
| TimeBlockContext.UpdateTags | src/contexts/TimeBlockContext.tsx:98-100 | same length; other tags unchanged; the tag under the id merged with the update |
| TimeBlockContext.RemoveTags | src/contexts/TimeBlockContext.tsx:102-104 | exactly the tags under other ids remain |
| TimeBlockContext.RemoveTagsOrder | src/contexts/TimeBlockContext.tsx:103 | deleting keeps the remaining tags' order, and deleting an absent id changes nothing |
| TimeBlockContext.UniqueBlockIdsPreserved | src/contexts/TimeBlockContext.tsx:70-88 | appending under a fresh id, updating without touching ids, and deleting all keep block ids unique |
| TimeBlockContext.DefaultTagIds | src/contexts/TimeBlockContext.tsx:31-36 | there are four default tags, under the ids "1" to "4" |
| TimeBlockContext.TimeBlockStore.constructor | src/contexts/TimeBlockContext.tsx:52-60 | starts from the saved blocks or none, and from the saved tags or the defaults |
| TimeBlockContext.TimeBlockStore.AddTimeBlock | src/contexts/TimeBlockContext.tsx:70-78 | appends the new block, returns it, and leaves the tags alone |
| TimeBlockContext.TimeBlockStore.UpdateTimeBlock | src/contexts/TimeBlockContext.tsx:80-84 | the blocks become their id-keyed merge; tags unchanged |
| TimeBlockContext.TimeBlockStore.DeleteTimeBlock | src/contexts/TimeBlockContext.tsx:86-88 | the blocks become the filter on the id; tags unchanged |
| TimeBlockContext.TimeBlockStore.AddTag | src/contexts/TimeBlockContext.tsx:90-96 | appends the new tag; blocks unchanged |
| TimeBlockContext.TimeBlockStore.UpdateTag | src/contexts/TimeBlockContext.tsx:98-100 | the tags become their id-keyed merge; blocks unchanged |
| TimeBlockContext.TimeBlockStore.DeleteTag | src/contexts/TimeBlockContext.tsx:102-104 | the tags become the filter on the id; blocks are left alone, even those naming the tag |
| TimeBlockComponent.BlockTags | src/components/Timeline/TimeBlockComponent.tsx:24 | exactly the store's tags that the block names |
| TimeBlockComponent.BlockTagsOrder | src/components/Timeline/TimeBlockComponent.tsx:24 | the block's tags come in tag-list order; a list naming none of them contributes nothing |
| TimeBlockComponent.BlockColor | src/components/Timeline/TimeBlockComponent.tsx:26 | the colour shown; its precedence is TimeBlockComponent.BlockColorPrecedence |
| TimeBlockComponent.Draggable | src/components/Timeline/TimeBlockComponent.tsx:46 | only an unlocked block can be dragged; what that guarantees is Timeline.LockedBlocksStay and Timeline.TimelineView.HandleDragStart |
| TimeBlockComponent.DeleteOffered | src/components/Timeline/TimeBlockComponent.tsx:52-56 | only an unlocked block shows a delete control; what that guarantees is TimeBlockComponent.AfterDeleteClick and TimeBlockComponent.LockedBlocksSurviveDelete |
| TimeBlockComponent.BlockColorPrecedence | src/components/Timeline/TimeBlockComponent.tsx:26 | a truthy own colour wins; otherwise the colour of the first tag of the tag list that the block names; with none, grey #adb5bd |
| TimeBlockComponent.AfterDeleteClick | src/components/Timeline/TimeBlockComponent.tsx:33-56 | a click on an unlocked block removes exactly the blocks with its id; a locked block offers no delete control, so nothing changes |
| TimeBlockComponent.LockedBlocksSurviveDelete | src/components/Timeline/TimeBlockComponent.tsx:52-56 | with unique ids, no delete click removes a locked block |
| TimeBlockComponent.HandleDelete | src/components/Timeline/TimeBlockComponent.tsx:33-36 | the store's blocks become the result of the click; tags unchanged |
| Timeline.SnapMinutes | src/components/Timeline/Timeline.tsx:26 | the snapped minute count is a multiple of 15 within 7 minutes of the pointer's |
| Timeline.SnapIsNearest | src/components/Timeline/Timeline.tsx:26 | no multiple of 15 is closer than the snapped value |
| Timeline.SnapExamples | src/components/Timeline/Timeline.tsx:26 | 7 snaps to 0, 8 to 15, 1432 to 1425, and 1433 to 1440 |
| Timeline.DropSlot | src/components/Timeline/Timeline.tsx:26-30 | a drop lands exactly when the pointer is at −7..1432 minutes; the hour is then 0..23, the minute 0, 15, 30 or 45, and together they are the snapped minutes |
| Timeline.SlotText | src/components/Timeline/Timeline.tsx:31 | the zero-padded "HH:MM" written for a slot; that it reads back as the snapped minutes is Timeline.SlotTextRoundTrip |
| Timeline.SlotTextRoundTrip | src/components/Timeline/Timeline.tsx:31 | the written start time has five characters and the layout reads it back as the snapped minutes |
| Timeline.AfterDrop | src/components/Timeline/Timeline.tsx:18-34 | the blocks after a drop; what changes is Timeline.AfterDropChanges, and locked blocks stay by Timeline.LockedBlocksStay |
| Timeline.AfterDropChanges | src/components/Timeline/Timeline.tsx:30-32 | a drop changes only the dragged block's start time, to the slot's text; nothing changes without a drag or off the day |
| Timeline.LockedBlocksStay | src/components/Timeline/TimeBlockComponent.tsx:46 | when no locked block is being dragged, a drop leaves every locked block in place |
| Timeline.AssignedBlocks | src/components/Timeline/Timeline.tsx:41 | exactly the blocks with a truthy start time |
| Timeline.UnassignedBlocks | src/components/Timeline/Timeline.tsx:42 | exactly the blocks without one |
| Timeline.PartitionBlocks | src/components/Timeline/Timeline.tsx:41-42 | the two lists together hold every block exactly once |
| Timeline.PartitionOrder | src/components/Timeline/Timeline.tsx:41-42 | each list keeps the store's order |
| Timeline.TopPercent | src/components/Timeline/Timeline.tsx:63-64 | the block's top in percent of the day, or NaN; its range is Timeline.LayoutWithinDay |
| Timeline.HeightPercent | src/components/Timeline/Timeline.tsx:65 | the block's height in percent of the day; the end-of-day bound is Timeline.LayoutWithinDay |
| Timeline.LayoutWithinDay | src/components/Timeline/Timeline.tsx:63-65 | a start time written by a drop is placed in [0, 100) percent; the block ends within the day exactly when its start plus duration is at most 1440 minutes |
| Timeline.TimelineView.constructor | src/components/Timeline/Timeline.tsx:9 | nothing is being dragged |
| Timeline.TimelineView.HandleDragStart | src/components/Timeline/Timeline.tsx:14-16 | a drag starts only from an unlocked block, and records its id |
| Timeline.TimelineView.HandleDragEnd | src/components/Timeline/Timeline.tsx:36-38 | the drag is over |
| Timeline.TimelineView.HandleDragOver | src/components/Timeline/Timeline.tsx:18-34 | the store's blocks become the drop's result; tags unchanged |
| TimeBlockForm.TotalMinutes | src/components/TimeBlockForm.tsx:37-38 | the minutes a submit asks for; its meaning is TimeBlockForm.TotalMinutesMeaning |
| TimeBlockForm.TotalMinutesMeaning | src/components/TimeBlockForm.tsx:37-38 | the total is 60·hours + minutes, with a blank field counting 0; it is NaN exactly when a field holds NaN |
| TimeBlockForm.Accepts | src/components/TimeBlockForm.tsx:40 | the submit guard; its meaning is TimeBlockForm.AcceptsIff |
| TimeBlockForm.AcceptsIff | src/components/TimeBlockForm.tsx:40 | an entry is accepted exactly when the title is not all white space and the total is a positive number |
| TimeBlockForm.SubmittedBlock | src/components/TimeBlockForm.tsx:40-46 | the stored block has the trimmed title, the total and the tags; it has no start time, no date and is unlocked, since the form's date is discarded |
| TimeBlockForm.MinutesAfterInput | src/components/TimeBlockForm.tsx:19-24 | the minutes field after an input; what it admits is TimeBlockForm.MinutesGuard |
| TimeBlockForm.MinutesGuard | src/components/TimeBlockForm.tsx:19-24 | the minutes field changes only to an integer in 0..59; blank, NaN and out-of-range input leave it as it was |
| TimeBlockForm.Form.constructor | src/components/TimeBlockForm.tsx:8-12 | empty title, 0 hours, 0 minutes, no tags, closed |
| TimeBlockForm.Form.SetTitle | src/components/TimeBlockForm.tsx:78 | only the title changes |
| TimeBlockForm.Form.SetFormOpen | src/components/TimeBlockForm.tsx:66 | only the open flag changes |
| TimeBlockForm.Form.HandleHoursChange | src/components/TimeBlockForm.tsx:14-17 | the hours field takes any parsed input, NaN included |
| TimeBlockForm.Form.HandleMinutesChange | src/components/TimeBlockForm.tsx:19-24 | the minutes field follows the guard, and stays a whole number below 60 |
| TimeBlockForm.Form.ToggleTag | src/components/TimeBlockForm.tsx:26-32 | only the tag selection changes, by a toggle |
| TimeBlockForm.Form.HandleSubmit | src/components/TimeBlockForm.tsx:34-55 | a rejected entry changes nothing; an accepted one appends the submitted block and resets and closes the form |
| TimerModule.NewTimer | src/modules/TimerModule/TimerModule.tsx:42-53 | a running timer at zero seconds in the work phase, started now, with the form's settings; a stopwatch's duration is 0 |
| TimerModule.Tick | src/modules/TimerModule/TimerModule.tsx:58-111 | with no timer a tick does nothing; a tick that clears its interval ends the timer and records a block; its three cases are TimerModule.TickBeforeLimit, TimerModule.TickCountdownEnds and TimerModule.TickPomodoroSwitches, and TimerModule.TickKeepsInv is its invariant |
| TimerModule.TickBeforeLimit | src/modules/TimerModule/TimerModule.tsx:62-109 | a tick before the run's limit adds one second and changes nothing else |
| TimerModule.TickCountdownEnds | src/modules/TimerModule/TimerModule.tsx:92-104 | a countdown reaching its limit clears its interval, records one block of its full length, and is gone |
| TimerModule.TickPomodoroSwitches | src/modules/TimerModule/TimerModule.tsx:65-88 | a pomodoro reaching the end of a period records it as "title (Work)" or "title (Break)", then restarts from zero in the other phase, started now |
| TimerModule.NewTimerInv | src/modules/TimerModule/TimerModule.tsx:42-53 | a new timer with at least a minute to run starts below its limit |
| TimerModule.TickKeepsInv | src/modules/TimerModule/TimerModule.tsx:58-111 | every tick keeps the elapsed seconds below the limit of the run under way |
| TimerModule.Ticks | src/modules/TimerModule/TimerModule.tsx:58-111 | n ticks record at most n blocks; runs compose by TimerModule.TicksAppend |
| TimerModule.TicksBeforeLimit | src/modules/TimerModule/TimerModule.tsx:58-111 | n ticks that stay before the limit only count n seconds and record nothing |
| TimerModule.CountdownRunsOut | src/modules/TimerModule/TimerModule.tsx:92-104 | with s seconds left, a countdown records exactly one block of its full length, on its s-th tick, and then is gone |
| TimerModule.PomodoroPeriod | src/modules/TimerModule/TimerModule.tsx:65-88 | a period started from zero lasts 60·length ticks, records one block, and hands over to the other phase |
| TimerModule.TicksAppend | src/modules/TimerModule/TimerModule.tsx:58-111 | m ticks followed by k ticks are m + k ticks, with the blocks recorded in order |
| TimerModule.CeilMinutes | src/modules/TimerModule/TimerModule.tsx:193 | the whole minutes m cover the seconds: (m − 1)·60 < s ≤ m·60 |
| TimerModule.StopRecord | src/modules/TimerModule/TimerModule.tsx:192-201 | stopping records a block exactly for a stopwatch |
| TimerModule.StopwatchMinutes | src/modules/TimerModule/TimerModule.tsx:192-201 | a stopwatch stopped at e seconds records ⌈e / 60⌉ minutes: 0 exactly at 0 seconds and 1 for any part of the first minute, with its title, start time and tags |
| TimerModule.ClockText | src/modules/TimerModule/TimerModule.tsx:206-210 | "MM:SS" has at least five characters and a colon; it reads back by TimerModule.ClockTextRoundTrip |
| TimerModule.ClockTextRoundTrip | src/modules/TimerModule/TimerModule.tsx:206-210 | for non-negative seconds, "MM:SS" has the seconds field below 60 and reads back as the seconds |
| TimerModule.TimerDisplay | src/modules/TimerModule/TimerModule.tsx:212-225 | the timer's display; what it shows is TimerModule.DisplayShowsTimeLeft |
| TimerModule.DisplayShowsTimeLeft | src/modules/TimerModule/TimerModule.tsx:212-225 | with no timer "00:00"; else the display reads back as the seconds shown; a stopwatch shows elapsed time; countdowns and pomodoros show a positive time left |
| TimerModule.Timer.constructor | src/modules/TimerModule/TimerModule.tsx:23-33 | no timer, form closed, no interval, and the form's defaults (countdown, 25, 25, 5) |
| TimerModule.Timer.OpenTimerForm | src/modules/TimerModule/TimerModule.tsx:237-238 | the form opens only when no timer is active |
| TimerModule.Timer.CloseTimerForm | src/modules/TimerModule/TimerModule.tsx:248 | the form closes and nothing else changes |
| TimerModule.Timer.SetTimerType | src/modules/TimerModule/TimerModule.tsx:259-273 | only the form's timer type changes |
| TimerModule.Timer.SetTimerTitle | src/modules/TimerModule/TimerModule.tsx:287 | only the form's title changes |
| TimerModule.Timer.SetDurationInput | src/modules/TimerModule/TimerModule.tsx:302-309 | the duration field sets a pomodoro's work length and otherwise the timer duration |
| TimerModule.Timer.SetBreakInput | src/modules/TimerModule/TimerModule.tsx:324 | only the break length changes |
| TimerModule.Timer.ToggleTag | src/modules/TimerModule/TimerModule.tsx:227-233 | only the tag selection changes, by a toggle |
| TimerModule.Timer.StartTimer | src/modules/TimerModule/TimerModule.tsx:35-114 | a blank title changes nothing; otherwise the form's timer runs under one new interval and the form closes; exactly one interval is live afterwards |
| TimerModule.Timer.FireInterval | src/modules/TimerModule/TimerModule.tsx:58-111 | the timer becomes the tick's result; the block the tick records is appended; a finished countdown's interval is cleared |
| TimerModule.Timer.PauseTimer | src/modules/TimerModule/TimerModule.tsx:116-123 | the held interval is cleared and the timer stops, keeping its seconds |
| TimerModule.Timer.ResumeTimer | src/modules/TimerModule/TimerModule.tsx:125-184 | a paused timer runs again from its seconds, started now, under one new interval |
| TimerModule.Timer.StopTimer | src/modules/TimerModule/TimerModule.tsx:186-204 | the held interval is cleared; a stopwatch records its block; no timer is left |
| TodosModule.NewTodo | src/modules/TodosModule/TodosModule.tsx:76-85 | the form's fields, empty due fields as undefined, not completed and not on the timeline |
| TodosModule.UpdateTodos | src/modules/TodosModule/TodosModule.tsx:59-70 | same length; other to-dos unchanged; the matching to-do transformed |
| TodosModule.EditTodosFields | src/modules/TodosModule/TodosModule.tsx:59-70 | an edit changes only the matching to-do's title, duration, tags and due fields; its id, completion and timeline link stay |
| TodosModule.FindTodo | src/modules/TodosModule/TodosModule.tsx:110 | a found to-do is in the list under that id; nothing is found exactly when no to-do has the id |
| TodosModule.DeleteTodos | src/modules/TodosModule/TodosModule.tsx:114 | exactly the to-dos under other ids remain |
| TodosModule.ActiveTodos | src/modules/TodosModule/TodosModule.tsx:166 | exactly the uncompleted to-dos |
| TodosModule.CompletedTodos | src/modules/TodosModule/TodosModule.tsx:167 | exactly the completed ones |
| TodosModule.ActiveCompletedSplit | src/modules/TodosModule/TodosModule.tsx:166-167 | the two lists together hold every to-do exactly once |
| TodosModule.LinkedInitially | src/modules/TodosModule/TodosModule.tsx:20-23 | an empty list is linked to any store of unlocked blocks with unique ids |
| TodosModule.LinkedAddTodo | src/modules/TodosModule/TodosModule.tsx:76-87 | appending a to-do under a fresh id keeps the link |
| TodosModule.LinkedEditTodo | src/modules/TodosModule/TodosModule.tsx:57-73 | editing keeps the link |
| TodosModule.LinkedCompleteTodo | src/modules/TodosModule/TodosModule.tsx:148-155 | completing keeps the link |
| TodosModule.LinkedDeleteTodo | src/modules/TodosModule/TodosModule.tsx:109-115 | deleting a to-do together with its block keeps the link |
| TodosModule.LinkedAddToTimeline | src/modules/TodosModule/TodosModule.tsx:117-133 | putting an unlinked to-do on the timeline under a fresh, non-empty block id keeps the link |
| TodosModule.LinkedRemoveFromTimeline | src/modules/TodosModule/TodosModule.tsx:135-146 | taking a linked to-do off the timeline keeps the link |
| TodosModule.LinkedUnderOtherChanges | src/components/Timeline/TimeBlockComponent.tsx:46-56 | the rest of the planner keeps the link: adding unlocked blocks under fresh ids, delete clicks, drops |
| TodosModule.LinkedDeleteClick | src/components/Timeline/TimeBlockComponent.tsx:52-56 | a delete click on any block keeps the link, because locked blocks offer no delete |
| TodosModule.LinkedDrop | src/components/Timeline/Timeline.tsx:30-32 | a drop keeps the link: it changes no id and no lock |
| TodosModule.DeleteTodoLeavesNoOrphan | src/modules/TodosModule/TodosModule.tsx:109-115 | deleting a linked to-do removes it and its block; an unlinked one leaves the store alone |
| TodosModule.TimelineBlockFields | src/modules/TodosModule/TodosModule.tsx:117-125 | a to-do's block is locked, carries its title, duration and tags, starts at its due time, and is dated today (not its due date) when that time is set |
| TodosModule.Todos.constructor | src/modules/TodosModule/TodosModule.tsx:20-45 | the saved list or none; form closed, no edit, blank form due now |
| TodosModule.Todos.OpenForm | src/modules/TodosModule/TodosModule.tsx:183 | only the form opens |
| TodosModule.Todos.CloseForm | src/modules/TodosModule/TodosModule.tsx:308-316 | the form closes, the edit is dropped, and the fields reset |
| TodosModule.Todos.SetTodoTitle | src/modules/TodosModule/TodosModule.tsx:328 | only the title field changes |
| TodosModule.Todos.SetTodoDuration | src/modules/TodosModule/TodosModule.tsx:340 | only the duration field changes |
| TodosModule.Todos.SetTodoDueDate | src/modules/TodosModule/TodosModule.tsx:354 | only the due-date field changes |
| TodosModule.Todos.SetTodoDueTime | src/modules/TodosModule/TodosModule.tsx:365 | only the due-time field changes |
| TodosModule.Todos.ToggleTag | src/modules/TodosModule/TodosModule.tsx:157-163 | only the tag selection changes, by a toggle |
| TodosModule.Todos.HandleAddTodo | src/modules/TodosModule/TodosModule.tsx:52-97 | a blank title changes nothing; otherwise the edited to-do is updated, or a new one appended, and the form resets; the link is kept |
| TodosModule.Todos.HandleEditTodo | src/modules/TodosModule/TodosModule.tsx:99-107 | the to-do is loaded into the form, with today and now for missing due fields |
| TodosModule.Todos.HandleDeleteTodo | src/modules/TodosModule/TodosModule.tsx:109-115 | the to-do goes, with its block if it has one; the link is kept |
| TodosModule.Todos.HandleAddToTimeline | src/modules/TodosModule/TodosModule.tsx:117-133 | a locked block is appended and the to-do points at it; the link is kept |
| TodosModule.Todos.HandleRemoveFromTimeline | src/modules/TodosModule/TodosModule.tsx:135-146 | with a block id, the block is deleted and the to-do unlinked; otherwise nothing changes; the link is kept |
| TodosModule.Todos.HandleCompleteTodo | src/modules/TodosModule/TodosModule.tsx:148-155 | the to-do is marked done and its block stays; the link is kept |
| HabitsModule.NewHabit | src/modules/HabitsModule/HabitsModule.tsx:59-66 | the form's fields under the new id, not completed |
| HabitsModule.UpdateHabits | src/modules/HabitsModule/HabitsModule.tsx:43-53 | same length; other habits unchanged; the matching habit transformed |
| HabitsModule.EditHabitsFields | src/modules/HabitsModule/HabitsModule.tsx:43-53 | an edit changes only the matching habit's name, time, duration and tags; its id and completion stay |
| HabitsModule.CompleteHabitsFields | src/modules/HabitsModule/HabitsModule.tsx:102-104 | completing marks only the matching habit done |
| HabitsModule.DeleteHabits | src/modules/HabitsModule/HabitsModule.tsx:89 | exactly the habits under other ids remain |
| HabitsModule.HabitBlockFields | src/modules/HabitsModule/HabitsModule.tsx:94-99 | the recorded block carries the habit's name, duration and tags, starts at its time, is unlocked, and is dated today unless the time is empty |
| HabitsModule.ResetAll | src/modules/HabitsModule/HabitsModule.tsx:111 | same length and order; each habit with only its completion cleared |
| HabitsModule.ResetProperties | src/modules/HabitsModule/HabitsModule.tsx:109-113 | after a reset no habit is done; the ids keep their order; a second reset changes nothing; with no habit done, a reset changes nothing |
| HabitsModule.Habits.constructor | src/modules/HabitsModule/HabitsModule.tsx:17-29 | the saved list or none; form closed, no edit, fields at "", "08:00", 60 minutes, no tags |
| HabitsModule.Habits.OpenForm | src/modules/HabitsModule/HabitsModule.tsx:144 | only the form opens |
| HabitsModule.Habits.CloseForm | src/modules/HabitsModule/HabitsModule.tsx:220-227 | the form closes, the edit is dropped, and the fields reset |
| HabitsModule.Habits.SetHabitName | src/modules/HabitsModule/HabitsModule.tsx:239 | only the name field changes |
| HabitsModule.Habits.SetHabitTime | src/modules/HabitsModule/HabitsModule.tsx:252 | only the time field changes |
| HabitsModule.Habits.SetHabitDuration | src/modules/HabitsModule/HabitsModule.tsx:263 | only the duration field changes |
| HabitsModule.Habits.ToggleTag | src/modules/HabitsModule/HabitsModule.tsx:115-121 | only the tag selection changes, by a toggle |
| HabitsModule.Habits.HandleAddHabit | src/modules/HabitsModule/HabitsModule.tsx:36-77 | a blank name changes nothing; otherwise the edited habit is updated, or a new one appended, and the form resets |
| HabitsModule.Habits.HandleEditHabit | src/modules/HabitsModule/HabitsModule.tsx:79-86 | the habit is loaded into the form and the form opens |
| HabitsModule.Habits.HandleDeleteHabit | src/modules/HabitsModule/HabitsModule.tsx:88-90 | the habit goes; the store is not touched |
| HabitsModule.Habits.HandleCompleteHabit | src/modules/HabitsModule/HabitsModule.tsx:92-107 | for a habit not yet done, one block is recorded and the habit is marked done; a done habit offers no button, so nothing changes |
| HabitsModule.Habits.HandleResetHabits | src/modules/HabitsModule/HabitsModule.tsx:109-113 | the habits become their reset |
| HeatmapModule.DaysToShow | src/modules/HeatmapModule/HeatmapModule.tsx:22 | the week view shows 28 days; the month view shows the clock's three-month count |
| HeatmapModule.Bump | src/modules/HeatmapModule/HeatmapModule.tsx:35-39 | the day's bucket gains one, starting from 0, and the other buckets are unchanged |
| HeatmapModule.Buckets | src/modules/HeatmapModule/HeatmapModule.tsx:27-41 | the record of counts per day after visiting the blocks in order; its contents are HeatmapModule.BucketsCount and its total HeatmapModule.BucketsTotal |
| HeatmapModule.BucketsCount | src/modules/HeatmapModule/HeatmapModule.tsx:27-41 | a day has a bucket exactly when some scheduled block falls on it, and it holds their number |
| HeatmapModule.BucketsTotal | src/modules/HeatmapModule/HeatmapModule.tsx:27-41 | the buckets add up to the number of blocks with a start time: each counted once, the rest ignored |
| HeatmapModule.CountByDay | src/modules/HeatmapModule/HeatmapModule.tsx:27-41 | the loop builds exactly the buckets |
| HeatmapModule.MaxCount | src/modules/HeatmapModule/HeatmapModule.tsx:44-45 | 0 with no buckets; otherwise the largest count over all buckets, not only those in the window |
| HeatmapModule.ComputeMax | src/modules/HeatmapModule/HeatmapModule.tsx:45 | the loop over the keys computes that maximum |
| HeatmapModule.Intensity | src/modules/HeatmapModule/HeatmapModule.tsx:56 | intensity is in 0..4, and is 0 when the count or the maximum is 0 |
| HeatmapModule.IntensityQuarters | src/modules/HeatmapModule/HeatmapModule.tsx:56 | below 4, the intensity is ⌈4·count / max⌉; it is 4 exactly when the count exceeds three quarters of the maximum, so on the busiest day |
| HeatmapModule.IntensityMonotone | src/modules/HeatmapModule/HeatmapModule.tsx:56 | for a fixed maximum, a busier day is never lighter |
| HeatmapModule.Window | src/modules/HeatmapModule/HeatmapModule.tsx:48-63 | the window holds one entry per shown day |
| HeatmapModule.WindowDays | src/modules/HeatmapModule/HeatmapModule.tsx:48-63 | entry j is the day n − 1 − j days ago, so the oldest comes first; its count is its number of scheduled blocks, or 0; its intensity is in 0..4 and is 4 on the busiest day |
| HeatmapModule.GenerateDays | src/modules/HeatmapModule/HeatmapModule.tsx:19-66 | the effect's loops produce exactly the window |
| HeatmapModule.Weeks | src/modules/HeatmapModule/HeatmapModule.tsx:87-91 | ⌈n / 7⌉ weeks, none empty and none longer than 7 |
| HeatmapModule.WeeksProperties | src/modules/HeatmapModule/HeatmapModule.tsx:87-91 | the weeks concatenate back to the data, and every week but the last has 7 days |
| HeatmapModule.FourWeeks | src/modules/HeatmapModule/HeatmapModule.tsx:87-91 | 28 days make four weeks of 7 |
| HeatmapModule.ChunkWeeks | src/modules/HeatmapModule/HeatmapModule.tsx:88-91 | the `for` loop produces exactly the weeks |
| HeatmapModule.HeatmapView.constructor | src/modules/HeatmapModule/HeatmapModule.tsx:15-16 | week view, no data yet |
| HeatmapModule.HeatmapView.Refresh | src/modules/HeatmapModule/HeatmapModule.tsx:19-66 | the data becomes the window of the current view over the store's blocks |
| HeatmapModule.HeatmapView.SetViewType | src/modules/HeatmapModule/HeatmapModule.tsx:102-113 | the view changes, and the data follows it |
| HeatmapModule.HeatmapView.WeeksOfData | src/modules/HeatmapModule/HeatmapModule.tsx:87-91 | the grid's rows are the weeks of the data |
| ModuleContext.DefaultModulesShape | src/contexts/ModuleContext.tsx:17-46 | four default modules, timer, heatmap, habits and todos, none installed |
| ModuleContext.Toggled | src/contexts/ModuleContext.tsx:66-72 | same length and order; only modules under the id flip their flag |
| ModuleContext.ToggleTwice | src/contexts/ModuleContext.tsx:69 | toggling the same id twice restores the list |
| ModuleContext.Find | src/contexts/ModuleContext.tsx:75 | a found module is in the list under that id; nothing is found exactly when no module has it |
| ModuleContext.IsInstalled | src/contexts/ModuleContext.tsx:74-76 | `find(...)?.installed \|\| false`; its meaning is ModuleContext.IsInstalledMeaning |
| ModuleContext.IsInstalledMeaning | src/contexts/ModuleContext.tsx:74-76 | an unknown id is not installed; a known one reports its first module's flag |
| ModuleContext.ToggleFlipsInstalled | src/contexts/ModuleContext.tsx:66-76 | after a toggle the module reports the opposite flag, and every other module its old one |
| ModuleContext.ModuleRegistry.constructor | src/contexts/ModuleContext.tsx:57-60 | the saved list, or the defaults |
| ModuleContext.ModuleRegistry.ToggleModule | src/contexts/ModuleContext.tsx:66-72 | the modules become their toggle |
| ModuleContext.ModuleRegistry.IsModuleInstalled | src/contexts/ModuleContext.tsx:74-76 | `isModuleInstalled(id)` on the current list; its meaning is ModuleContext.IsInstalledMeaning, and how a toggle changes it is ModuleContext.ToggleFlipsInstalled |

## Left out

- Browser storage and JSON: loading, saving and the fall-back to defaults are not modelled. Each constructor takes the saved value as an `Option`.
- The clock is not modelled; these are parameters:
  - `Date.now()` ids;
  - today's `toISOString` date;
  - the current "HH:MM";
  - the heatmap's day key for a start time and for "i days ago";
  - the month view's day count (`getDaysInLastThreeMonths`).
- Interval scheduling is reduced to "a live interval fires":
  - no timing, no order between intervals;
  - React's batching of state updates is not modelled.
- Drag events and the pixel-to-minute conversion (`getBoundingClientRect`, float division, `Math.floor`) are not modelled. A drop starts from an integer minute count.
- Floating point:
  - numbers are integers or NaN;
  - the layout percentages are exact reals.
- Rendering:
  - CSS, icons and colour alpha suffixes;
  - day and month labels (`getDayLabel`, `getMonthLabel`, `toLocaleString`);
  - the route and page files `src/App.tsx`, `src/components/Layout.tsx`, `src/pages/TimelinePage.tsx` and `src/pages/ModulesPage.tsx`.
- HeatmapModule.WindowDays: the day key of a start time is a total function. An unparsable start time would make `toISOString` throw in the source. That case is not modelled.
- TimerModule.Timer.SetDurationInput: takes an integer. The NaN that `parseInt` gives for a non-numeric entry is not modelled.
- TimerModule.Timer.SetBreakInput: takes an integer. `parseInt`'s NaN is not modelled.
- TodosModule.Todos.SetTodoDuration: takes an integer. `parseInt`'s NaN is not modelled.
- HabitsModule.Habits.SetHabitDuration: takes an integer. `parseInt`'s NaN is not modelled.
- JsText.ParseFloat / TimeUtils.ParseDuration: JavaScript's `parseFloat` is modelled on leading digit runs only. Text with a sign, leading white space, a decimal point or an exponent gets a value that differs from JavaScript's: `ParseDuration("1.5h")` is 60 here and 90 in JavaScript, `ParseDuration("-5m")` is NaN here and -5 in JavaScript, and `ParseDuration(" 45m")` is NaN here and 45 in JavaScript.
- TimeUtils.FormatDuration: defined on natural numbers only. Negative and fractional minutes are not modelled.

## Where the code departs from the documented design

The model follows the code in each case.

- Pomodoro only alternates work and break. There is no long break and no count of work periods (`TimerModule.tsx:65-88`).
- The tick ignores `running`. Only clearing the interval stops it.
- A countdown that runs out clears its own interval but leaves the component's `timerInterval` set. The timer's `Valid()` still holds, because it speaks of live intervals.
- Nothing clears a running interval when the component goes away.
- The heatmap buckets a block by the day key of "today at its start time", not by the block's `date`.
- The heatmap's maximum is taken over all buckets, not over the shown window. A busy day outside the window can therefore keep every shown day below intensity 4.
- `addTimeBlock` discards any date the caller passes. The manual form's date never reaches the store, and its blocks are undated because they have no start time.
- A drop on the timeline writes only the start time, never a date.
- A to-do put on the timeline gets today's date whatever its due date.
- The timer keeps its title untrimmed. Only the blank check trims.
