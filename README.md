# GrindOS daily task bookkeeping, in Dafny

GrindOS is a "toxic motivation" day planner. This project models the part of it
that is logic rather than screens:

- the task provider, which keeps today's task list and changes it through
  `addTask`, `updateTask`, `deleteTask`, `toggleTask`, `toggleSubtask`,
  `clearDay` and `generatePlan`;
- what the provider derives from the list and from stored day statistics:
  today's snapshot with its integer percentage, the per-category tally and the
  completion streak;
- the mapping between tasks, settings and the documents the database stores,
  including the JSON text of a task's checklist;
- the pure helpers the screens use: the date key and greeting, the time-slot
  parser and writer of the time picker, the streak calendar grid, the dashboard
  selectors, the category chips, the font-weight mapping and the message
  tables;
- the two task dialogs. The "Add Task" form emits a normalised draft and
  resets. The "Edit Task" form is loaded from a task, edits the checklist in
  place and emits a normalised update;
- the nightly recap function, which decides per user whether to mail, what
  subject and roast to use, and which addresses the mail reached.

One Dafny module stands for each source file:

| module | source |
|---|---|
| `TaskTypes` | `types/task.ts` |
| `Categories` | `constants/categories.ts` |
| `Fonts` | `constants/fonts.ts` |
| `ToxicMessages` | `constants/toxicMessages.ts` |
| `DateUtils` | `utils/dateUtils.ts` |
| `TimePicker` | `components/TimePicker.tsx` |
| `StreakCalendar` | `components/StreakCalendar.tsx` |
| `Dashboard` | `components/DashboardWidgets.tsx` |
| `CategoryFilter` | `components/CategoryFilter.tsx` |
| `AddTaskModal` | `components/AddTaskModal.tsx` |
| `EditTaskModal` | `components/EditTaskModal.tsx` |
| `CronRecap` | `functions/cron-recap/index.js` |

The provider (`providers/TaskProvider.tsx`) is split over four modules:

- `TaskList`: the list expressions;
- `TaskDocs`: the document mapping;
- `DayMetrics`: the derived metrics;
- `TaskProvider`: the class `TaskStore`, which holds the state and the actions.

A few modules hold what the screens share:

- `SubtaskJson`: the checklist's JSON;
- `TaskForm`: the normalisation both dialogs apply;
- `JsText`: the JavaScript primitives `trim`, `parseInt`, `String(n)` and
  `padStart`;
- `Wrappers`: `Option`.

The outside world becomes parameters:

- Every database call becomes a `remoteOk` flag or an optional listing.
- AI results are input values.
- Ids and clock readings are strings passed in.
- `Math.random()` is a real `r` in [0, 1).
- The date key of the day `i` days back is a function `keyFor(i)`.

The model treats the stateful parts imperatively:

- The provider and both dialogs are classes whose methods update fields.
- The streak walk, the category tally, the calendar construction, its chunking
  into weeks and the recap's per-user loop are methods with loops.
- Each of these is proved equal to a specification function, and the
  properties are proved about that function.

## Model

| member | source | states |
|---|---|---|
| `TaskTypes.PriorityUnion` | types/task.ts:14 | `PriorityName` and `ParsePriority`: a priority string is accepted iff it is one of the four names, every priority reads back from its name, and the four names are distinct |
| `TaskTypes.CategoryUnion` | types/task.ts:23 | `CategoryName` and `ParseCategory`: a category string is accepted iff it is one of the eight names, each reads back from its name, and the names are distinct |
| `TaskTypes.ToxicLevelUnion` | types/task.ts:39 | `ToxicLevelName` and `ParseToxicLevel`: a toxicity level string is accepted iff it is one of the three names, each reads back, and they are distinct |
| `TaskTypes.ParsePriority` | types/task.ts:14 | a parsed priority is spelled exactly like the input |
| `TaskTypes.ParseCategory` | types/task.ts:23 | a parsed category is spelled exactly like the input |
| `TaskTypes.ParseToxicLevel` | types/task.ts:39 | a parsed level is spelled exactly like the input |
| `TaskDocs.DefaultSettingsValues` | types/task.ts:49-55 | the default settings are 'spicy', all three switches on, the dark theme |
| `Categories.KeysOf` | constants/categories.ts:20 | `Object.keys` of the table lists the keys in table order |
| `Categories.LookupIn` | constants/categories.ts:9-18 | a lookup succeeds iff the key is in the table, and returns the config stored with it |
| `Categories.ConfigOf` | constants/categories.ts:9-18 | every category has its config in the table |
| `Categories.KeysCoverCategories` | constants/categories.ts:20 | the key list is work to other in declaration order, lists every category exactly once, and every category's lookup succeeds |
| `Categories.ConfigAtPosition` | constants/categories.ts:9-18 | each category sits at its own position in the table, and its lookup returns the entry at that position |
| `Categories.OtherHasConfig` | constants/categories.ts:17 | 'other', the fallback of every lookup, has the label 'Other', the pin emoji and the grey colour |
| `Fonts.FontForText` | constants/fonts.ts:17-31 | '800' and '900' give extrabold, '700' bold, '600' semibold, '500' medium, and every other text regular; the result is always one of the five faces |
| `Fonts.FontForWeight` | constants/fonts.ts:5-11 | the face chosen for any weight is one of the five faces of the `fonts` record |
| `Fonts.NumberMatchesItsText` | constants/fonts.ts:18 | a numeric weight gives the same face as its decimal text |
| `Fonts.FontForNumber` | constants/fonts.ts:19-30 | numbers 800 and 900 give extrabold, 700 bold, 600 semibold, 500 medium, every other number regular |
| `Fonts.UndefinedIsRegular` | constants/fonts.ts:28-30 | undefined, '400' and 400 all give the regular face |
| `ToxicMessages.TablesNonEmpty` | constants/toxicMessages.ts:4-105 | the tables `WakeUpMessages`, `TaskCompleteMessages`, `AllDoneMessages`, `SlackingMessages`, `EmptyDayMessages`, `EarlyMessages`, `AfternoonMessages` and `EveningMessages`: every per-level list of every message table is non-empty |
| `ToxicMessages.RandomIndex` | constants/toxicMessages.ts:109 | `Math.floor(r * n)` is a valid index, the integer part of `r * n` |
| `ToxicMessages.RandomMessage` | constants/toxicMessages.ts:108-110 | the random pick is an element of the list it is given |
| `ToxicMessages.TimeAwareMessage` | constants/toxicMessages.ts:113-139 | before 06:00 the message comes from the early table, before noon from the wake-up table, before 17:00 from the afternoon table, otherwise from the evening table, always of the requested level |
| `JsText.TrimStart` | components/AddTaskModal.tsx:44 | leading white space dropped: a suffix of the input, not starting with white space, the dropped part all white space |
| `JsText.TrimEnd` | components/AddTaskModal.tsx:44 | trailing white space dropped: a prefix, not ending with white space, the dropped part all white space |
| `JsText.TrimIsCore` | components/AddTaskModal.tsx:46 | `Trim`: `trim` returns the slice between the leading and trailing white space, which neither starts nor ends with white space |
| `JsText.TrimEmptyIffBlank` | components/AddTaskModal.tsx:44 | `!s.trim()` holds exactly when every character is white space |
| `JsText.TrimIdempotent` | components/EditTaskModal.tsx:66 | trimming twice is trimming once |
| `JsText.TrimOfTrimmed` | components/AddTaskModal.tsx:46 | a text without white space at its ends is its own trim |
| `JsText.OrString` | components/AddTaskModal.tsx:48 | `x \|\| d` gives `d` for undefined and '', and `x` otherwise |
| `JsText.NatToString` | components/EditTaskModal.tsx:54 | `String(n)` of a natural number is a non-empty run of digits without a leading zero |
| `JsText.NatToStringValue` | components/EditTaskModal.tsx:54 | the digits of `String(n)` denote `n` |
| `JsText.NatToStringInjective` | components/DashboardWidgets.tsx:55 | different numbers print differently |
| `JsText.IntToStringInjective` | components/EditTaskModal.tsx:54 | different integers, negative ones included, print differently |
| `JsText.IntToString` | components/EditTaskModal.tsx:54 | `String(n)` is never empty and starts with '-' iff `n` is negative |
| `JsText.PadStart` | utils/dateUtils.ts:3 | `padStart` keeps a text that is long enough and otherwise left-fills it to the width |
| `JsText.TwoDigits` | utils/dateUtils.ts:3 | `String(n).padStart(2, '0')` for n below 100 is two digits, tens then units |
| `JsText.LeadingDigits` | components/AddTaskModal.tsx:49 | the longest prefix of digits: all digits, and the next character is not one |
| `JsText.ParseIntOfIntToString` | components/EditTaskModal.tsx:69 | `ParseInt` after `IntToString`: `parseInt(String(n)) == n` for every integer |
| `JsText.ParseIntSkipsSpace` | components/AddTaskModal.tsx:49 | white space before the number never changes what `parseInt` reads |
| `JsText.ParseIntNegates` | components/AddTaskModal.tsx:49 | a minus sign before a digit text negates the value, and leaves NaN as NaN |
| `JsText.AllDigitsLeading` | components/AddTaskModal.tsx:49 | a text of digits is read by `parseInt` in full |
| `DateUtils.DateKeyShape` | utils/dateUtils.ts:1-4 | `DateKey`: for a four-digit year the key has ten characters, dashes at positions 4 and 7, digits elsewhere |
| `DateUtils.DateKeyParts` | utils/dateUtils.ts:3 | `DateKey`: the key is the year, a dash, the month number padded to two digits, a dash and the padded day |
| `DateUtils.TwoDigitsInjective` | utils/dateUtils.ts:3 | two padded numbers below 100 are equal iff the numbers are |
| `DateUtils.DateKeyInjective` | utils/dateUtils.ts:3 | distinct dates have distinct keys |
| `DateUtils.DateKeyOrder` | utils/dateUtils.ts:3 | for four-digit years, string order of keys is date order |
| `DateUtils.DigitsOrder` | utils/dateUtils.ts:3 | digit strings of equal length compare as strings exactly as their values compare |
| `DateUtils.StrLessConcat` | utils/dateUtils.ts:3 | string order of concatenations with equal-length heads is lexicographic over the parts |
| `DateUtils.TwoDigitsOrder` | utils/dateUtils.ts:3 | padded numbers below 100 compare as the numbers do |
| `DateUtils.YearOrder` | utils/dateUtils.ts:3 | four-digit years compare as strings as they do as numbers |
| `DateUtils.FormatTime` | utils/dateUtils.ts:6-8 | `formatTime` returns its argument unchanged |
| `DateUtils.Greeting` | utils/dateUtils.ts:10-17 | the greeting is "Up at this hour?" iff hour < 6, "Morning" iff 6..11, "Afternoon" iff 12..16, "Evening" iff 17..20, "Late night" iff 21 or later |
| `TimePicker.SkipSpaces` | components/TimePicker.tsx:20 | `\s*` consumes exactly the white space run that follows |
| `TimePicker.Search` | components/TimePicker.tsx:20 | the unanchored match is the leftmost position where the pattern matches, and none exists iff it matches nowhere |
| `TimePicker.ParseTime` | components/TimePicker.tsx:19-29 | the result is the first occurrence's hour, minute and upper-cased period, or 9:00 AM when there is none |
| `TimePicker.FormatTimeShape` | components/TimePicker.tsx:31-33 | `FormatTime`: the text is the unpadded hour, a colon, the two-digit minute, one space and the period |
| `TimePicker.PeriodRoundTrip` | components/TimePicker.tsx:25 | a written period is read back |
| `TimePicker.ParseFormat` | components/TimePicker.tsx:19-33 | parsing a written time gives it back for every hour and minute below 100, since the parser checks no range |
| `TimePicker.FirstOccurrenceExample` | components/TimePicker.tsx:20 | in "7:05pm, 8:00 AM" the first occurrence wins and its lower-case period is read |
| `TimePicker.NoDigitsDefault` | components/TimePicker.tsx:28 | a text without digits, such as 'Anytime', reads as 9:00 AM |
| `TimePicker.PickerChoices` | components/TimePicker.tsx:35-36 | the hours are 1 to 12 and the minutes 0 to 55 in steps of 5, twelve of each |
| `TimePicker.PickerRoundTrip` | components/TimePicker.tsx:47-58 | every time the picker can confirm is read back as itself when the picker opens again |
| `TaskList.FindById` | providers/TaskProvider.tsx:192 | `find` returns a task of the list with that id, and nothing iff no task has it |
| `TaskList.FindByIdIsFirst` | providers/TaskProvider.tsx:192 | the task found is the first one with the id |
| `TaskList.Merge` | providers/TaskProvider.tsx:194 | the spread keeps id, creation time and order, and takes each field the patch gives |
| `TaskList.MergeEmpty` | providers/TaskProvider.tsx:194 | an empty patch changes nothing |
| `TaskList.ReplaceById` | providers/TaskProvider.tsx:197 | the `map` keeps length and positions and replaces exactly the tasks with the id |
| `TaskList.RemoveById` | providers/TaskProvider.tsx:206 | the `filter` keeps exactly the tasks with another id |
| `TaskList.UnknownIdNoOp` | providers/TaskProvider.tsx:191-210 | an id no task has leaves the list unchanged under replace and remove |
| `TaskList.RemoveByIdAppend` | providers/TaskProvider.tsx:206 | removal distributes over concatenation, so the rest keeps its order |
| `TaskList.RemoveByIdIdempotent` | providers/TaskProvider.tsx:206 | removing twice is removing once |
| `TaskList.SetCompletedById` | providers/TaskProvider.tsx:217 | the list `toggleTask` checks has the flag set on exactly the tasks with the id |
| `TaskList.FlipSubtask` | providers/TaskProvider.tsx:228-230 | the checklist keeps length and positions and flips exactly the items with the id |
| `TaskList.FlipSubtaskTwice` | providers/TaskProvider.tsx:228-230 | flipping the same item twice restores the checklist |
| `TaskList.RemoveSubtask` | components/EditTaskModal.tsx:95-97 | the checklist filter keeps exactly the items with another id |
| `TaskList.RemoveSubtaskAppend` | components/EditTaskModal.tsx:96 | the checklist filter distributes over concatenation, so the rest keeps its order |
| `SubtaskJson.Encode` | providers/TaskProvider.tsx:73 | `JSON.stringify` of a checklist is a bracketed array text |
| `SubtaskJson.DecodeEncode` | providers/TaskProvider.tsx:55 | `JSON.parse(JSON.stringify(subtasks))` gives back the same checklist, in order |
| `SubtaskJson.EncodeInjective` | providers/TaskProvider.tsx:73 | different checklists are written as different texts |
| `SubtaskJson.ParseQuotedEncoded` | providers/TaskProvider.tsx:55 | `EscapeChar` inside `Quote`: a written string literal reads back as the string, for every character including quotes, backslashes and controls |
| `SubtaskJson.ParseEncodedSubTask` | providers/TaskProvider.tsx:55 | `EncodeSubTask`: a written checklist item reads back, leaving the text after it |
| `SubtaskJson.ParseEncodedItems` | providers/TaskProvider.tsx:55 | a written non-empty item list and its closing bracket read back |
| `TaskDocs.TaskToDoc` | providers/TaskProvider.tsx:59-75 | the document carries the date key, the order, '' for a missing completion time and the checklist's JSON |
| `TaskDocs.DocToTask` | providers/TaskProvider.tsx:41-57 | the task keeps `$id` and title, never has an empty completion time, and reading fails iff a non-empty checklist attribute is not valid JSON |
| `TaskDocs.ReadWritten` | providers/TaskProvider.tsx:41-75 | a written task reads back as itself, except that an empty creation time becomes the system one and an empty completion time becomes absent |
| `TaskDocs.RoundTrip` | providers/TaskProvider.tsx:41-75 | `docToTask(taskToDoc(t))` is `t` exactly when `t` is well formed |
| `TaskDocs.ReadDefaults` | providers/TaskProvider.tsx:45-55 | a document holding only a title reads with every default: '' texts, 30 minutes, open, medium, other, order 0, no checklist |
| `TaskDocs.DocsToTasks` | providers/TaskProvider.tsx:162 | the documents map one to one onto tasks, and the load fails iff some document cannot be read |
| `TaskDocs.LoadTasks` | providers/TaskProvider.tsx:153-168 | the task query gives the documents' tasks in stored order, or the empty list when the listing fails or a document cannot be read |
| `TaskDocs.DocToSettings` | providers/TaskProvider.tsx:77-85 | each absent settings attribute takes its default, each present one is kept |
| `TaskDocs.SettingsRoundTrip` | providers/TaskProvider.tsx:77-85 | written settings read back unchanged, and an empty document reads as the defaults |
| `TaskDocs.LoadSettings` | providers/TaskProvider.tsx:97-126 | the settings query gives the stored document's settings, and otherwise the defaults |
| `TaskDocs.MergeSettings` | providers/TaskProvider.tsx:129 | the spread takes each field the update gives and keeps the rest |
| `TaskDocs.MergeSettingsLaws` | providers/TaskProvider.tsx:129 | merging nothing keeps the settings, and two merges are one merge where the later field wins |
| `DayMetrics.CompletedCount` | providers/TaskProvider.tsx:286 | the completed count is at most the number of tasks |
| `DayMetrics.CompletedCountAppend` | providers/TaskProvider.tsx:286 | the completed count is additive over concatenation |
| `DayMetrics.Percent` | providers/TaskProvider.tsx:291 | the rate is `round(100 * completed / total)` with halves rounded up, at most 100 |
| `DayMetrics.PercentEnds` | providers/TaskProvider.tsx:291 | the rate is 100 when all tasks are done and 0 when none is |
| `DayMetrics.TodayStats` | providers/TaskProvider.tsx:284-293 | the snapshot has today's key, the task count, the completed count, and the rounded percentage, 0 for an empty day; completed is at most total and the rate is in 0..100 |
| `DayMetrics.StatsToPersist` | providers/TaskProvider.tsx:296-304 | nothing is written for an empty day, otherwise today's snapshot with at least one task |
| `DayMetrics.FindStat` | providers/TaskProvider.tsx:329 | the stat found has the key, and nothing is found iff no stat has it |
| `DayMetrics.StreakFrom` | providers/TaskProvider.tsx:325-333 | the count the walk adds from offset `i` is at most the days left in the 365-day window |
| `DayMetrics.Streak` | providers/TaskProvider.tsx:321-335 | the loop with its `continue` and `break` computes the specified streak |
| `DayMetrics.StreakFromRun` | providers/TaskProvider.tsx:331-332 | from any earlier day the walk counts a run of qualifying days ended by a day that does not qualify or by the window's end |
| `DayMetrics.StreakShape` | providers/TaskProvider.tsx:325-333 | the streak is at most 365; today adds one if it qualifies and never ends the walk; the rest is the run of qualifying days from yesterday |
| `DayMetrics.StreakCountsRun` | providers/TaskProvider.tsx:330-332 | whatever today holds, a run of `k` qualifying days through yesterday is counted in full |
| `DayMetrics.DoneIn` | providers/TaskProvider.tsx:344 | a category's completed count is at most its total |
| `DayMetrics.CountsAppend` | providers/TaskProvider.tsx:340-345 | one more task adds one to its category's total, and one to its completed count iff it is done |
| `DayMetrics.CountPositiveHasTask` | providers/TaskProvider.tsx:342 | a category has a positive total iff some task is in it |
| `DayMetrics.CategoryStats` | providers/TaskProvider.tsx:338-347 | the loop gives an entry exactly for each category with tasks, holding its total and completed counts |
| `DayMetrics.TalliesSum` | providers/TaskProvider.tsx:338-347 | over all categories the totals sum to the number of tasks and the completed counts to the completed tasks |
| `DayMetrics.OnceEach` | providers/TaskProvider.tsx:341 | each category appears once in the list of all categories |
| `TaskProvider.Round` | providers/TaskProvider.tsx:375 | `Math.round` gives the nearest integer, halves rounded up |
| `TaskProvider.NewTask` | providers/TaskProvider.tsx:171-176 | the new task is the draft with the new id, the creation time and the given order |
| `TaskProvider.PlanSubtasks` | providers/TaskProvider.tsx:379-383 | one open checklist item per title, in order, with the title given |
| `TaskProvider.PlanTasks` | providers/TaskProvider.tsx:370-387 | one task per plan item, in order, open, with order `base + i`, no notes and the rounded duration |
| `TaskProvider.PlanTasksFresh` | providers/TaskProvider.tsx:370-387 | a plan's tasks are all open with open checklists, none is completed, and they take the next orders in turn |
| `TaskProvider.TogglePatch` | providers/TaskProvider.tsx:216 | the toggle update sets the flag and has a completion time exactly when completing, touching nothing else |
| `TaskProvider.CompletionMessage` | providers/TaskProvider.tsx:217-221 | the message comes from the all-done table when the list with this task completed is all done, otherwise from the task-complete table |
| `TaskProvider.AllDoneExactly` | providers/TaskProvider.tsx:217-218 | `AllCompleted`: completing a task makes the list all done iff every task with another id already was |
| `TaskProvider.TaskStore.AddTask` | providers/TaskProvider.tsx:170-189 | on success exactly one task, read back from its document and with order the old length, is appended; on failure nothing changes |
| `TaskProvider.TaskStore.UpdateTask` | providers/TaskProvider.tsx:191-201 | on success the tasks with the id are replaced by the merged first match; an unknown id or a failure changes nothing |
| `TaskProvider.TaskStore.DeleteTask` | providers/TaskProvider.tsx:203-210 | on success the tasks with the id are removed and the rest kept in order; a failure changes nothing |
| `TaskProvider.TaskStore.ToggleTask` | providers/TaskProvider.tsx:212-223 | the flag flips through an update, with a completion time iff completing; completing sets the completion message even when the write fails; re-opening sets none |
| `TaskProvider.TaskStore.ToggleSubtask` | providers/TaskProvider.tsx:225-232 | on success the task's checklist has that item flipped; unknown task or failure changes nothing |
| `TaskProvider.TaskStore.ClearDay` | providers/TaskProvider.tsx:234-243 | the list is emptied and both texts cleared whatever the remote deletes did |
| `TaskProvider.TaskStore.GeneratePlan` | providers/TaskProvider.tsx:355-402 | a non-empty plan that is stored is appended with consecutive orders and its quote shown; an empty plan changes nothing; a failure keeps the list and shows a slacking message of the level; the busy flag ends off |
| `TaskProvider.TaskStore.GenerateRecap` | providers/TaskProvider.tsx:404-421 | a non-empty text becomes the recap, an empty one changes nothing, a failure sets the fallback text; the busy flag ends off |
| `TaskProvider.TaskStore.UpdateSettings` | providers/TaskProvider.tsx:128-150 | the merged settings are cached whether or not the write succeeded |
| `TaskProvider.AddedTaskIsNew` | providers/TaskProvider.tsx:184-185 | with non-empty times the appended task is the new task itself, with order the old length |
| `TaskProvider.OrderCanRepeat` | providers/TaskProvider.tsx:175 | after a delete a new task can repeat an order still in the list |
| `StreakCalendar.DayEntry` | components/StreakCalendar.tsx:25-31 | `RateOf` inside the cell: a cell has the day's key, the first matching stat's rate or -1, and is today iff it is offset 0 |
| `StreakCalendar.CalendarData` | components/StreakCalendar.tsx:16-34 | `weeks * 7` cells, oldest first; the last is today and the only one marked so |
| `StreakCalendar.Chunks` | components/StreakCalendar.tsx:37-43 | every column has one to seven cells, and all but the last have seven |
| `StreakCalendar.ChunksFlatten` | components/StreakCalendar.tsx:37-43 | the columns laid end to end give back the calendar, and there are ⌈n / 7⌉ of them |
| `StreakCalendar.WeekColumns` | components/StreakCalendar.tsx:37-43 | the loop computes the specified columns |
| `StreakCalendar.CellColorOf` | components/StreakCalendar.tsx:46-54 | the empty colour iff rate ≤ 0, then full at ≥ 100, faint toxic in 75..99, warning in 50..74, faint warning in 25..49, faint danger in 1..24 |
| `StreakCalendar.MissingDayIsEmpty` | components/StreakCalendar.tsx:29 | a day without a stat is drawn as an empty cell |
| `Dashboard.NextIndex` | components/DashboardWidgets.tsx:205-208 | no next task iff all tasks are done; otherwise an open task of least order, earliest in the list on ties |
| `Dashboard.NextIsUnique` | components/DashboardWidgets.tsx:206 | at most one position is the next task |
| `Dashboard.NextTask` | components/DashboardWidgets.tsx:205-208 | the next task is null iff all are done, and otherwise the task at the next position |
| `Dashboard.LonePendingIsNext` | components/DashboardWidgets.tsx:205-208 | the only open task is the next task |
| `Dashboard.PendingPlusCompleted` | components/DashboardWidgets.tsx:91 | `PendingCount` and `CompletedCount`: open and completed counts add up to the number of tasks |
| `Dashboard.MinutesSplit` | components/DashboardWidgets.tsx:92 | `TotalMinutes` and `FocusMinutes`: minutes left and focused minutes add up to the sum of all durations |
| `Dashboard.AllDoneMinutes` | components/DashboardWidgets.tsx:165-166 | with every task done nothing is pending and the focused minutes are all the minutes |
| `Dashboard.CriticalPendingBounds` | components/DashboardWidgets.tsx:168-169 | `CriticalPending`: the urgent count is at most the pending count, and positive iff an open high or critical task exists |
| `Dashboard.LeftIsPending` | components/DashboardWidgets.tsx:181 | `LeftCount`: the "left" pill equals the number of open tasks |
| `Dashboard.NothingNextMeansDone` | components/DashboardWidgets.tsx:210 | when widgets show and there is no next task, every task is done and nothing is pending |
| `Dashboard.LabelPlural` | components/DashboardWidgets.tsx:55 | `StreakLabel`: the label ends in 's' iff the streak is at least 2 |
| `Dashboard.StreakLabelInjective` | components/DashboardWidgets.tsx:55 | `StreakLabel`: different streaks get different labels |
| `Dashboard.TierOf` | components/DashboardWidgets.tsx:56-57 | the orange tier iff streak ≥ 7, amber iff 3..6, plain below 3 |
| `Dashboard.GoalCountdown` | components/DashboardWidgets.tsx:71 | `GoalText`: below 7 the goal text counts down 7 − streak as one digit; the fire text, written in the source as the doubly encoded emoji U+00F0 U+0178 U+201D U+00A5, shows iff streak ≥ 7 |
| `Dashboard.JsRem` | components/DashboardWidgets.tsx:86 | JavaScript `%` keeps the dividend's sign and agrees with the modulus for non-negative values |
| `Dashboard.FloorDiv` | components/DashboardWidgets.tsx:85 | `Math.floor(a / b)` is the largest `q` with `b * q ≤ a` |
| `Dashboard.TimeLeftBounds` | components/DashboardWidgets.tsx:85-86 | `HoursLeft` and `MinutesLeft`: for a non-negative difference the hours are non-negative, the minutes in 0..59, and together they cover it to the minute |
| `Dashboard.MsToEndOfDay` | components/DashboardWidgets.tsx:82-84 | the time to 23:59:59 is never negative |
| `Dashboard.TimeLeftOfClock` | components/DashboardWidgets.tsx:80-88 | at h:m:s the widget shows 23 − h hours and 59 − m minutes |
| `Dashboard.UrgencyOf` | components/DashboardWidgets.tsx:87 | critical iff hours ≤ 3, warning iff 4..6, normal above 6 |
| `Dashboard.UrgencyByClock` | components/DashboardWidgets.tsx:80-88 | the widget is critical iff the clock is at 20:00 or later, normal iff before 17:00 |
| `CategoryFilter.SumTotalsOfStats` | components/CategoryFilter.tsx:17 | over any keys, the chip totals of a category tally sum the task counts of those categories |
| `CategoryFilter.TotalAllIsTaskCount` | components/CategoryFilter.tsx:17 | `TotalAll`: fed with the tally of a task list, the "All" chip shows the number of tasks |
| `CategoryFilter.FilterKeys` | components/CategoryFilter.tsx:34 | the filter keeps exactly the keys with a positive total, in their order |
| `CategoryFilter.KeysInUnionOrder` | components/CategoryFilter.tsx:34 | the category keys are in declaration order |
| `CategoryFilter.VisibleChips` | components/CategoryFilter.tsx:34 | the chips after "All" are exactly the categories with tasks, in key order |
| `CategoryFilter.ChipsOfStats` | components/CategoryFilter.tsx:34 | for the tally of a task list a category has a chip iff some task is in it |
| `CategoryFilter.PressChip` | components/CategoryFilter.tsx:45 | pressing a chip clears the selection iff it was selected, and otherwise selects it |
| `CategoryFilter.PressAll` | components/CategoryFilter.tsx:28 | pressing "All" clears the selection |
| `CategoryFilter.OneHighlight` | components/CategoryFilter.tsx:27-47 | "All" is highlighted iff no chip is, at most one chip is, and pressing a chip toggles its highlight |
| `TaskForm.SlotOrAnytime` | components/AddTaskModal.tsx:48 | the slot is the trimmed field, or 'Anytime' when that is empty; never empty |
| `TaskForm.SlotStable` | components/EditTaskModal.tsx:68 | a normalised slot is normalised again to itself |
| `TaskForm.DurationOrDefault` | components/AddTaskModal.tsx:49 | the duration is the parsed value, or 30 when parsing gives NaN or 0; never 0, negatives kept |
| `TaskForm.DurationOfText` | components/EditTaskModal.tsx:54 | a duration loaded as `String(n)` and saved reads back as `n`, except 0 which becomes 30 |
| `TaskForm.BlankDurationIsDefault` | components/AddTaskModal.tsx:49 | a blank duration field gives 30 minutes |
| `AddTaskModal.DraftOf` | components/AddTaskModal.tsx:44-55 | no draft iff the trimmed title is empty; otherwise trimmed texts, normalised slot and duration, the chosen priority and category, open, no checklist, no notes |
| `AddTaskModal.DraftIsNormal` | components/AddTaskModal.tsx:45-55 | every emitted draft has a non-empty trimmed title, trimmed texts, a non-empty trimmed slot and a non-zero duration |
| `AddTaskModal.BlankTitleAddsNothing` | components/AddTaskModal.tsx:44 | a title of white space adds nothing |
| `AddTaskModal.AddTaskForm.HandleAdd` | components/AddTaskModal.tsx:43-63 | emits the draft of the fields; with a blank title the form is untouched, otherwise every field is reset to '', '', '', '30', medium, work |
| `AddTaskModal.AddTaskForm.Reset` | components/AddTaskModal.tsx:56-61 | every field goes back to its initial value: '', '', '', '30', medium, work |
| `EditTaskModal.SaveOf` | components/EditTaskModal.tsx:62-76 | no update without a task or with a blank title; otherwise the task's id and every edited field normalised, completion untouched |
| `EditTaskModal.SaveUneditedIsNoOp` | components/EditTaskModal.tsx:49-76 | loading a task and saving it unedited gives back the same task iff it is in normal form |
| `EditTaskModal.AddSubtaskTo` | components/EditTaskModal.tsx:86-87 | a blank input keeps the checklist; otherwise exactly one open item with the trimmed text and the clock's id is appended |
| `EditTaskModal.EditTaskForm.Load` | components/EditTaskModal.tsx:49-60 | every field of the task is copied into the form, the duration as its decimal text; without a task the form keeps its fields |
| `EditTaskModal.EditTaskForm.Fill` | components/EditTaskModal.tsx:50-58 | each editable field takes the task's value, the duration as `String(duration)` and the notes with '' for a missing value; the task and the checklist input are kept |
| `EditTaskModal.EditTaskForm.HandleSave` | components/EditTaskModal.tsx:62-76 | emits the save of the current fields and leaves the form alone |
| `EditTaskModal.EditTaskForm.HandleDelete` | components/EditTaskModal.tsx:78-83 | emits the task's id iff there is a task |
| `EditTaskModal.EditTaskForm.AddSubtask` | components/EditTaskModal.tsx:85-89 | appends the typed item and clears the input, unless the input is blank; nothing else changes |
| `EditTaskModal.EditTaskForm.ToggleSubtask` | components/EditTaskModal.tsx:91-93 | flips the items with that id; nothing else changes |
| `EditTaskModal.EditTaskForm.RemoveSubtask` | components/EditTaskModal.tsx:95-97 | drops the items with that id, keeping the rest in order; nothing else changes |
| `CronRecap.FindTodayStat` | functions/cron-recap/index.js:72 | today's stat is the first with today's key, or totals 0, score 0 and tier 'Slacking' |
| `CronRecap.DaysInMonth` | functions/cron-recap/index.js:34-36 | every month of the Gregorian calendar has 28 to 31 days |
| `CronRecap.TomorrowDay` | functions/cron-recap/index.js:34-35 | tomorrow's day of the month is a valid one |
| `CronRecap.LastDayIffMonthEnd` | functions/cron-recap/index.js:36 | tomorrow is the 1st iff today is the month's last day; 28 February is the last day iff the year is not a leap year |
| `CronRecap.RoundedAverage` | functions/cron-recap/index.js:92 | the average is 0 for no stats, otherwise the score sum over the count rounded half up |
| `CronRecap.ScoreSumBounds` | functions/cron-recap/index.js:92 | scores in 0..100 sum to at most 100 per stat |
| `CronRecap.AverageInRange` | functions/cron-recap/index.js:92 | scores in 0..100 average to a value in 0..100 |
| `CronRecap.WeekStats` | functions/cron-recap/index.js:91 | the week is the first min(7, n) stats |
| `CronRecap.MonthStats` | functions/cron-recap/index.js:104 | the month is the first min(31, n) stats |
| `CronRecap.ShortHistoryAveragesAgree` | functions/cron-recap/index.js:91-105 | with at most seven stats the weekly and monthly averages coincide |
| `CronRecap.SubjectTags` | functions/cron-recap/index.js:74-107 | `DailySubject`, `WeeklySubject` and `MonthlySubject`: the daily, weekly and monthly subjects start with their own tags |
| `CronRecap.SubjectFor` | functions/cron-recap/index.js:74-107 | the subject is monthly iff it is the last day, weekly iff Sunday and not the last day, daily otherwise |
| `CronRecap.ToxicRoast` | functions/cron-recap/index.js:152-162 | score ≥ 90 gives one text for every level; 60..89 and below 60 each give one text for 'brutal' and another for the rest; a missing score is below 60 |
| `CronRecap.RoastTellsBand` | functions/cron-recap/index.js:152-162 | the roast text determines the score band and, below 90, whether the level is 'brutal' |
| `CronRecap.FallbackIsAccepted` | functions/cron-recap/index.js:66-67 | `AddressOf`: a user without an address is mailed at 'user@example.com', which passes the '@' check |
| `CronRecap.MailFor` | functions/cron-recap/index.js:60-125 | no mail iff `Skips` holds or the address `AddressOf` gives has no '@'; otherwise a mail to that address |
| `CronRecap.MailForSent` | functions/cron-recap/index.js:72-107 | a mail's subject and roast are those of today's stat and the day's reports |
| `CronRecap.ComposeMail` | functions/cron-recap/index.js:72-117 | the subject and roast built step by step, daily then weekly then monthly, are the specified mail for the user |
| `CronRecap.AppStatsReadAsUndefined` | functions/cron-recap/index.js:72-86 | a stat without score and tier gives the subject "Execution Report [DAILY] - undefined" and a below-60 roast |
| `CronRecap.Attempts` | functions/cron-recap/index.js:60-136 | at most one mail per user, each to an address with '@' |
| `CronRecap.Accepted` | functions/cron-recap/index.js:127-132 | every address reported as sent is the recipient of some attempted mail |
| `CronRecap.SentAddressesValid` | functions/cron-recap/index.js:66-70 | every address reported as sent contains '@' |
| `CronRecap.ReportDaysReachEveryone` | functions/cron-recap/index.js:61 | on a Sunday or a month's last day every user with a valid address is mailed, opted out or not |
| `CronRecap.OrdinaryDayRespectsOptOut` | functions/cron-recap/index.js:61-64 | `Skips`: on an ordinary day users without the recap enabled get nothing |
| `CronRecap.SendRecaps` | functions/cron-recap/index.js:58-136 | the loop attempts exactly the specified mails and reports exactly the accepted addresses, in order |
| `CronRecap.VisitUser` | functions/cron-recap/index.js:60-135 | one pass of the loop body extends the attempts by the user's specified mail, if any, and the sent list by its address iff the send reports no error |
| `CronRecap.Run` | functions/cron-recap/index.js:16-149 | missing keys give the 500 response, a failed listing the error response, no users the "No users" response, otherwise the report with the sent count and addresses and the weekly and monthly flags |

## Left out

- Database, account, AI, mail and speech services are not modelled. Only their outcome is a parameter: a success flag, an optional listing, a plan or recap outcome, a delivery oracle.
- Concurrency of `Promise.all` is not modelled. A partial failure in `generatePlan` or `clearDay` is one failure flag, and only the resulting list is modelled.
- The react-query cache mechanics and invalidation are not modelled. The cached list is a field.
- `new Date()`, `Date.now()`, `ID.unique()` and `Math.random()` are parameters. The model does not compute JavaScript `Date` rollover; the date key of "today − i" is the function `keyFor(i)`. The one exception is the recap's last-day test, which uses the Gregorian month lengths.
- `TaskProvider.TaskStore.GeneratePlan`: every plan task takes the same stamp `now`, and its subtasks take one `stamp`, where the source reads the clock once per item.
- `DayMetrics.Streak`: the stats are not sorted before the walk. `find` on the stably sorted list returns the same stat as on the unsorted one, because equal keys keep their relative order.
- The `task.category \|\| 'other'` fallback of the category tally is not modelled: a category here is always one of the eight values.
- An out-of-union string stored in a document is not modelled. The model reads union-typed attributes as a value of the union or as absent.
- `SubtaskJson.Decode` reads the JSON that `JSON.stringify` writes, with every string escape. It does not read other white space, other key orders, extra keys or lone surrogate escapes. `JSON.parse` would accept some of these, and the model reads them as unreadable.
- Durations are integers. A fractional duration from a document is not modelled; `Math.round` on an AI plan duration is modelled with reals.
- `TaskDocs.TaskToDoc`: `Math.round` of an integer duration is the duration itself, so no rounding is written.
- Floating-point behaviour of `Math.round(completed / total * 100)` at exact halves is not modelled. The rate is the integer round-half-up.
- Font weights that are fractional numbers are not modelled. A numeric weight is an integer.
- Zod validation of the AI plan is not modelled. A plan item already has the schema's shape.
- Colours, themes, percentage widths, animations, haptics, `onClose` and visibility of the dialogs are rendering and are not modelled. The cell colour is its colour class.
- The recap mail's HTML body is not modelled, except its roast paragraph. The listing limits (100 settings, 365 stats) and the `orderDesc('date')` order are taken as given by the listing parameters. `settingsRes.total` is read as the number of listed documents.
- `CronRecap.ToxicRoast`: the source writes `\\'` inside single-quoted literals at functions/cron-recap/index.js:99 and :157. In JavaScript such a literal ends right after the escaped backslash, and the `t` that follows is a syntax error. So the file as written does not load: the job sends no mail and returns no report. Every `CronRecap` member, `ToxicRoast` and `Run` included, models the evidently intended text, with an apostrophe.
- `JsText.IntToString`: numbers are unbounded integers. JavaScript numbers are doubles, so `String(n)` uses the exponent form from 1e21 (`String(1e21)` is "1e+21"), and integers beyond 2^53 lose precision; neither is modelled.
- `JsText.ParseIntOfIntToString`: the round trip is proved for every integer. In JavaScript it holds only for magnitudes below 1e21, because `parseInt("1e+21")` is 1, and exactly only up to 2^53.
- `TaskForm.DurationOfText`: the same bound applies: a duration of 1e21 or more does not read back from its text in JavaScript.
- `EditTaskModal.SaveUneditedIsNoOp`: the same bound applies to the duration of the loaded task.
- `JsText.ParseInt`: a value of more than 16 significant digits is exact here, where `parseInt` rounds it to a double.
- Logging is not modelled: the `console.error` calls of the provider and the `log` and `error` calls of the recap job.
- `CronRecap.Run`: an exception thrown by the listing calls is one `ListingFailed` response, without its message.
- `loadHistoryTasks` is the same query as the task load and is modelled by `TaskDocs.LoadTasks`. The history keys and stats queries only list documents and are not modelled.
