# TaskVision front end: a verified Dafny model

TaskVision is a task manager with a React front end. A user keeps tasks in two lists:
- the **MIT** list (most important tasks), which holds at most three;
- the **LIT** list (less important tasks), which holds the rest.

Around the lists sit:
- dashboard widgets: overdue counts, the MIT status, upcoming and scheduled tasks, recent activity, a productivity score and a weekly task overview;
- a weekly wellness tracker of seven practices, with a journal;
- an assistant chat with conversation threads;
- SMS notification settings;
- a role gate in front of restricted pages;
- a small Node script that rates dependency updates by risk.

This project models the deterministic logic of that front end and proves what the code promises about it. It covers:
- the task rules: classification into MIT or LIT, drag-and-drop reordering with priority renumbering, the top-N widgets with MIT overflow, and due-date grouping;
- the validators and text transforms;
- the calendar arithmetic on civil dates;
- the wellness rules;
- the small state machines of the pages and hooks;
- the dependency risk rules.

The modelling choices are:
- **Inputs, not effects.** Server answers, the clock, "today" and user events are parameters. A request that can fail is an `Answer`, either `Loaded(value)` or `Failed(message)`. An asynchronous handler is split in two: the part up to the request, and the part after it settles.
- **Local state as classes.** A component or hook that keeps state is a `class`. Its fields are the state the source keeps, and its handlers are methods that state the whole new state.
- **Pure helpers as functions.** Pure helpers are functions. Their properties are lemmas.
- **Dates.** A date is a civil date (year, month, day). `Date.getDay()` is the weekday computed from it by `CivilDate.Weekday`.
- **Time zones.** The source mixes the browser's local zone, UTC (`toISOString`) and the New York zone. The model has a single calendar day, as if all three agreed; "## Left out" names the members this affects.
- **Strings.** A string is a sequence of Unicode scalar values. A JavaScript `length` is counted in UTF-16 code units (`Text.Utf16Length`), so a character above U+FFFF counts twice. `trim` strips JavaScript's whole whitespace and line-terminator set.
- **Sorting.** JavaScript's stable `sort` is a stable insertion sort on sequences.
- **Floating point.** Floating-point thresholds are restated as integer inequalities.

Where the code and its tests disagree, the model follows the code:
- End on the dashboard tabs goes to the sample tab;
- the MIT tile has no "of 3" text;
- the task dialog does not close itself after a save.

The modules follow the source files:
- `Tasks`, `Validation`, `CivilDate` and `DateFilters` hold the shared types and rules;
- `Wrappers`, `Seqs` and `Text` are generic helpers: Option and Result, filtering and sorting with their lemmas, and string operations;
- every other module is one component, page, hook or service file.

## Model

| member | source | states |
|---|---|---|
| Tasks.OtherList | src/components/ArrowControls.tsx:23 | the other list of a task card is never the list it is in |
| Tasks.ParseStatus | src/types.ts:7 | only the wire name of a status reads as that status |
| Tasks.StatusRoundTrip | src/types.ts:7 | each of the four statuses reads back from its wire name |
| Tasks.PracticesEnumerated | src/types.ts:18-25 | there are exactly seven practices, each listed once and with distinct names |
| Tasks.PracticeKeyInjective | src/components/wellness/WellnessTrackerGrid.tsx:279 | on one day, two practices' `date-practice` keys differ |
| Tasks.SortByPriority | src/components/MITTaskList.tsx:33 | the priority sort keeps exactly the tasks it is given |
| Tasks.ByPriorityPreorder | src/pages/tasks-page.tsx:331 | the priority comparison is total and transitive |
| Tasks.SortByPriorityCorrect | src/pages/tasks-page.tsx:329-346 | the priority sort is ascending, a permutation, and stable: tasks of equal priority keep their order |
| Tasks.PrefixLeast | src/components/MITTaskList.tsx:33-34 | the first n tasks of a priority-sorted list have priorities no greater than any task left out |
| Tasks.ByStringPreorder | src/pages/wellness-page.tsx:100 | the string order used for due dates (code-point order, see "## Left out") is total and transitive |
| Tasks.SortStrings | src/pages/wellness-page.tsx:100 | sorting strings keeps exactly the strings it is given |
| Tasks.SortStringsCorrect | src/pages/wellness-page.tsx:100 | sorted strings are in ascending order and a permutation of the input |
| Tasks.SortByDueDate | src/components/ScheduledTasks.tsx:45 | the due-date sort keeps exactly the tasks it is given |
| Tasks.SortByDueDateCorrect | src/components/ScheduledTasks.tsx:45-51 | the due-date sort is ascending by due-date string and a permutation |
| Validation.MaxLength | src/constants/validation.ts:1-3 | a title may have 200 characters and a description 5000 |
| Validation.ValidateTaskField | src/constants/validation.ts:9-20 | `current` is the length in UTF-16 code units and `max` the field's limit; valid and over-limit are exact complements; over-limit exactly when `remaining` is negative; `current + remaining == max`; over-limit implies near-limit |
| Validation.NearLimitBoundary | src/constants/validation.ts:13-15 | near-limit starts strictly above 90% (180 title code units are not near, 181 are); exactly 200 is near but valid; 201 is over with `remaining == -1`; 5000/5001 bound a description |
| Validation.AstralTitleOverLimit | src/constants/validation.ts:13-17 | a title of 101 characters above U+FFFF is 202 code units long and over the limit by 2, while 200 characters of the basic plane are valid |
| Validation.Counter | src/components/CharacterCounter.tsx:14-32 | red exactly when over the limit; yellow exactly when not over and at most a tenth of the limit remains; the count is the excess when over and the characters left otherwise |
| Validation.CounterMessage | src/components/CharacterCounter.tsx:26-33 | the text is the count in decimal followed by " characters over limit" or " characters remaining", and reading the number back gives the count |
| Validation.CounterMatchesValidation | src/components/CharacterCounter.tsx:15-16 | fed the value's UTF-16 length, counter and validator agree on "over"; near-limit and not over makes the counter yellow; the counter is yellow without near-limit only at exactly 90% |
| Validation.CounterMutedAt89 | src/components/CharacterCounter.tsx:21 | 178 of 200 characters is muted and reads "22 characters remaining" |
| Validation.CounterYellowAt91 | src/components/CharacterCounter.tsx:20 | 182 of 200 characters is yellow and reads "18 characters remaining" |
| Validation.CounterLimitExamples | src/components/CharacterCounter.tsx:26-33 | at the exact limit the text is "0 characters remaining"; at 202 of 200 it is red and reads "2 characters over limit" |
| DateFilters.FirstOfNextMonth | src/utils/dateFilters.ts:53 | the first of the next month is a valid date after the given one, December rolling into January |
| DateFilters.EndOfMonth | src/utils/dateFilters.ts:53 | day 0 of the next month is a valid date |
| DateFilters.EndOfMonthIsLastDay | src/utils/dateFilters.ts:53 | day 0 of the next month is the month's last calendar day, so February ends on the 29th exactly in leap years |
| DateFilters.FilterRangeShape | src/utils/dateFilters.ts:16-67 | `all` and every unknown option give no range; only `noDueDate` sets the flag; every day range has an end, and only `pastDue` leaves the start open; `pastDue` and `dueToday` end today, and `dueToday` also starts today |
| DateFilters.WeekRangeCorrect | src/utils/dateFilters.ts:33-46 | this week runs from the Sunday on or before today to the Saturday six days later, today lies inside, and a Sunday is its own week start |
| DateFilters.MonthRangeCorrect | src/utils/dateFilters.ts:48-59 | this month runs from its first day to its last calendar day, and today lies inside |
| DateFilters.FilterLabel | src/utils/dateFilters.ts:70-87 | an unknown option reads "All" |
| DateFilters.FilterLabelsDistinct | src/utils/dateFilters.ts:70-87 | distinct known options have distinct labels |
| CivilDate.SundayOf | src/utils/dateFilters.ts:35-36 | stepping back by the weekday yields a valid date that many days earlier |
| CivilDate.SundayOfCorrect | src/utils/dateFilters.ts:35-36 | the week start is a Sunday at most six days back, and a date is its own week start exactly when it is a Sunday |
| CivilDate.MondayOffset | src/components/TaskOverviewSummary.tsx:24-36 | the days back to Monday are between 0 and 6 |
| CivilDate.MondayOf | src/components/TaskOverviewSummary.tsx:24-36 | stepping back by the Monday offset yields a valid date that many days earlier |
| CivilDate.MondayOfCorrect | src/components/TaskOverviewSummary.tsx:24-36 | the week start is a Monday at most six days back; a date is its own week start exactly when it is a Monday; a Sunday goes back six days |
| CivilDate.IsoDay | src/components/ScheduledTasks.tsx:38 | `toISOString().split('T')[0]` is ten characters with dashes at positions 4 and 7 |
| CivilDate.IsoDayOrder | src/components/ScheduledTasks.tsx:38-52 | ISO day strings compare as strings exactly as their dates compare, and equal strings are equal dates |
| CivilDate.YmdString | src/utils/dateFilters.ts:9-14 | the hand-built `YYYY-MM-DD` string has at least seven characters |
| CivilDate.YmdIsIsoDay | src/utils/dateFilters.ts:9-14 | for four-digit years the hand-built string with padded month and day is exactly the ISO day |
| CivilDate.ParseIsoDay | src/types.ts:30 | a string that reads as a day gives a valid date with a four-digit year |
| CivilDate.ParseIsoDayRoundTrip | src/types.ts:30 | every ISO day reads back as the date it shows |
| CivilDate.DateStringDay | src/components/edit-task-modal.tsx:44 | an ISO day gives its own day; any result is an ISO day |
| CivilDate.DateStringDayOfIsoDay | src/components/edit-task-modal.tsx:44 | an ISO day passes through `new Date(s).toISOString().split('T')[0]` unchanged |
| WellnessApi.WeekStartShift | src/services/wellness-api.ts:83-86 | the shift handed to `setDate` is between six days back and none |
| WellnessApi.GetWeekStartIsMonday | src/services/wellness-api.ts:80-95 | the week start is the Monday on or before the date, rendered `YYYY-MM-DD`: a Monday maps to itself, a Sunday six days back, another day `day - 1` days back |
| WellnessApi.HttpErrorMessage | src/services/wellness-api.ts:53-56 | the thrown message is never empty |
| WellnessApi.RequestOutcome | src/services/wellness-api.ts:53-64 | the request succeeds exactly for an OK reply that is 204 or has a readable body; a 204 yields no content, otherwise the body's `data`; a non-OK reply fails with `errorData.message` or "HTTP <status>"; an OK body that is not JSON fails with the parse error's message |
| WellnessApi.ErrorState | src/services/wellness-api.ts:65-71 | an error is recorded exactly for failures whose message does not contain "already exists", and it is the failure's message |
| WellnessApi.WellnessClient.constructor | src/services/wellness-api.ts:23-24 | the hook starts not loading and without an error |
| WellnessApi.WellnessClient.Request | src/services/wellness-api.ts:31-77 | the call returns the request's outcome, leaves loading off and the error state as `ErrorState` says |
| WellnessApi.WellnessClient.ClearError | src/services/wellness-api.ts:27-29 | the error is cleared and nothing else changes |
| WellnessApi.DuplicateExamples | src/services/wellness-api.ts:53-71 | a 409 "Practice already exists" is thrown but leaves the error clear; a 500 without a message reports "HTTP 500" |
| DependencyChecker.ParseVersion | scripts/dependency-checker.js:97-106 | `raw` is the version with at most one leading range character removed |
| DependencyChecker.DigitsFreeOfDot | scripts/dependency-checker.js:99 | a rendered number contains no dot, so splitting on dots keeps it whole |
| DependencyChecker.ParseRendered | scripts/dependency-checker.js:97-106 | `a.b.c`, alone or after one range character, parses back to major a, minor b, patch c with `raw` the bare version |
| DependencyChecker.ParseMajorOnly | scripts/dependency-checker.js:100-103 | a bare major number parses with minor and patch 0, as the source's default of 0 for missing pieces gives |
| DependencyChecker.ParseDoublePrefix | scripts/dependency-checker.js:98-101 | only one range character is stripped: with two, the major piece is not a number and reads as 0, while minor and patch are still read |
| DependencyChecker.CompareVersions | scripts/dependency-checker.js:108-120 | `isNewer` holds exactly when the differences are positive in lexicographic (major, minor, patch) order |
| DependencyChecker.CompareVersionsOrder | scripts/dependency-checker.js:108-120 | comparing the other way negates every difference; "newer" is irreflexive, asymmetric and transitive |
| DependencyChecker.FindBlocked | scripts/dependency-checker.js:146-152 | a found entry is in the block list and matches the package (the exact name, or `name@prefix` with latest starting with prefix); nothing is found exactly when no entry matches |
| DependencyChecker.ReasonsFor | scripts/dependency-checker.js:130-181 | there are no reasons exactly when no rule applies |
| DependencyChecker.AssessUpdateSafetyAsWritten | scripts/dependency-checker.js:122-190 | the assessment as written: the rules run in order, the minor-jump rule leaves the NaN risk, `safe` is low risk with recommendation 'update' |
| DependencyChecker.AssessUpdateSafety | scripts/dependency-checker.js:122-190 | the same cascade with the minor-jump rule raising the risk to 'medium' without lowering it |
| DependencyChecker.SafeIffNoReasons | scripts/dependency-checker.js:122-190 | an update is safe exactly when no reason was recorded, both as written and corrected |
| DependencyChecker.CascadePrecedence | scripts/dependency-checker.js:154-181 | a high or critical vulnerability decides last ('security'/'update'); then a critical dependency's major change ('high'/'review'); then the block list ('high'/'block'); the recommendation is 'block' exactly when blocked and neither later rule applies |
| DependencyChecker.RiskIntendedSound | scripts/dependency-checker.js:140-143 | the corrected risk is never NaN; it is 'medium' exactly for a large minor jump with no other rule; a major jump without a vulnerability stays 'high'; it differs from the as-written risk only where that is NaN |
| DependencyChecker.MinorJumpYieldsNaN | scripts/dependency-checker.js:140-143 | going from 1.0.0 to 2.5.0 on an unlisted package, the as-written risk is NaN even though the major rule set 'high'; the corrected risk is 'high' |
| DependencyChecker.CheckDependency | scripts/dependency-checker.js:192-220 | no registry data gives the error result; otherwise latest defaults to current and the assessment is that of the corrected cascade |
| DependencyChecker.UnchangedIsSafe | scripts/dependency-checker.js:207-208 | a package with no newer version, neither blocked nor vulnerable, is rated safe |
| DependencyChecker.LookupFilter | scripts/dependency-checker.js:234-237 | dropping another key leaves a key's lookup unchanged |
| DependencyChecker.LookupIn | scripts/dependency-checker.js:234-237 | a key is found exactly when some entry has it |
| DependencyChecker.MergeDepsLookup | scripts/dependency-checker.js:234-237 | in `{ ...dependencies, ...devDependencies }` a key has the second object's version when it has one, else the first's |
| DependencyChecker.CheckAllDependencies | scripts/dependency-checker.js:231-260 | the batched run returns one result per package, in package order, each the package's own check |
| DependencyChecker.CheckDependencyConsistent | scripts/dependency-checker.js:188 | every checked result is safe exactly when its risk is 'low' and its recommendation 'update' |
| DependencyChecker.GenerateReport | scripts/dependency-checker.js:262-281 | the total is the number of results and each count is the length of its list |
| DependencyChecker.ReportPartition | scripts/dependency-checker.js:262-344 | safe, review and blocked updates are disjoint, so their counts add up to at most the total, and each list holds exactly the results of its kind |
| TasksPage.FindTask | src/pages/tasks-page.tsx:234 | the index found is that of the first task with the id, and -1 exactly when no task has it |
| TasksPage.FindContainer | src/pages/tasks-page.tsx:201-210 | a known task's zone is decided by its `isMIT` flag alone; otherwise the id names a zone only when it is a zone id |
| TasksPage.Renumber | src/pages/tasks-page.tsx:291-294 | renumbering keeps the tasks and their order (same ids), gives the task at position i the priority i + 1 and changes no other field |
| TasksPage.Updates | src/pages/tasks-page.tsx:299-310 | an update is sent for a task exactly when its priority or MIT flag differs from the original list (or it was not in it), carrying its new priority and flag; nothing unchanged sends nothing |
| TasksPage.UpdatesInOrder | src/pages/tasks-page.tsx:299-310 | the updates are the changed tasks in list order, each mapped to its new place: one request per changed task, in order |
| TasksPage.Places | src/pages/tasks-page.tsx:300-306 | the i-th request is the i-th task's id with its new priority and MIT flag |
| TasksPage.ToggleMembers | src/pages/tasks-page.tsx:137-149 | after a toggle the value is present exactly when it was absent, and every other value keeps its presence |
| TasksPage.ToggleTwice | src/pages/tasks-page.tsx:137-149 | toggling twice restores an absent value's filter exactly, and a present value's filter as a set (the value comes back at the end) |
| TasksPage.ListCount | src/pages/tasks-page.tsx:329-346 | a rendered list holds each renderable task of its class exactly as often as the page's list does |
| TasksPage.ListShape | src/pages/tasks-page.tsx:329-346 | a rendered list holds only renderable tasks of its class, in ascending priority |
| TasksPage.MitLitPartition | src/pages/tasks-page.tsx:329-346 | the MIT and LIT lists split the renderable tasks between them with nothing lost or doubled, MIT-class (flag or priority 1..3) on one side, each sorted by priority |
| TasksPage.ContainerIgnoresPriority | src/pages/tasks-page.tsx:201-210 | an unflagged task of priority 2 is drawn in the MIT list, yet `findContainer` puts it in the LIT zone |
| TasksPage.DropIgnored | src/pages/tasks-page.tsx:220-238 | a drop nowhere, onto the dragged task itself, onto an unknown id, or of a task not in the list changes nothing |
| TasksPage.DropRefusal | src/pages/tasks-page.tsx:248-263 | a cross-zone move is refused exactly when a priority 1..3 task goes to the LIT zone or three other MIT-class tasks already fill the MIT zone |
| TasksPage.DropMovesOne | src/pages/tasks-page.tsx:241-288 | an accepted drop moves exactly one task: removing it from old and new lists gives the same list, and its MIT flag becomes the target zone's |
| TasksPage.DropRenumbers | src/pages/tasks-page.tsx:241-296 | after an accepted drop the priorities are exactly 1..n in list order and the multiset of task ids is unchanged |
| TasksPage.IdsRemove | src/pages/tasks-page.tsx:267 | removing a task removes exactly its id from the multiset of ids |
| TasksPage.MitZoneDropPlacement | src/pages/tasks-page.tsx:275-282 | a task dropped on the MIT zone itself lands flagged MIT, after only MIT-class tasks and before a LIT-class one |
| TasksPage.ReplaceTask | src/pages/tasks-page.tsx:162-164 | the saved task replaces each task with its id, and every other task is kept in place |
| TasksPage.TasksBoard.constructor | src/pages/tasks-page.tsx:64-71 | the board starts with no tasks, the status filter on Open and Waiting, no tag filter, no drag and the editor closed |
| TasksPage.TasksBoard.HandleDragStart | src/pages/tasks-page.tsx:212-214 | the dragged id is recorded and nothing else changes |
| TasksPage.SpliceDrop | src/pages/tasks-page.tsx:218-288 | the step-by-step splice of a copy of the list yields exactly the drop outcome of the reference rearrangement: ignored, refused, or the rearranged list |
| TasksPage.TasksBoard.HandleDragEnd | src/pages/tasks-page.tsx:216-319 | the drag ends; an accepted drop shows the renumbered list, sends the updates for changed tasks, and reverts to the original when some update failed; any other drop changes and sends nothing |
| TasksPage.TasksBoard.HandleStatusFilterChange | src/pages/tasks-page.tsx:137-142 | the status filter is toggled and nothing else changes |
| TasksPage.TasksBoard.HandleTagFilterChange | src/pages/tasks-page.tsx:144-149 | the tag filter is toggled and nothing else changes |
| TasksPage.TasksBoard.HandleCardClick | src/pages/tasks-page.tsx:124-130 | the first task with the id opens in the editor; an unknown id changes nothing |
| TasksPage.TasksBoard.HandleCreateClick | src/pages/tasks-page.tsx:132-135 | the editor opens with no task selected |
| TasksPage.TasksBoard.HandleSaveTask | src/pages/tasks-page.tsx:151-179 | the save applies exactly unless it would make a fourth flagged MIT; a refusal leaves list and editor as they were; an edit replaces the task, a create appends it, and the editor closes |
| TasksPage.SaveCheckExamples | src/pages/tasks-page.tsx:157-158 | with three flagged tasks an unflagged priority-4 save passes the check while a priority-0 save is refused |
| DueDates.BadgeClass | src/components/MITTaskList.tsx:105-111 | the overdue badge shows exactly when the due day sorts before today, the today badge exactly on today, the upcoming badge otherwise |
| DueDates.DueLabelCorrect | src/components/MITTaskList.tsx:113-123 | the label is "Today" exactly on the due day, overdue exactly when the due day is earlier in the calendar, by the exact number of days between them (at least one), and the date itself for later days |
| DueDates.BadgeMatchesLabel | src/components/MITTaskList.tsx:105-123 | the badge and the label agree on overdue days and on the due day |
| DueDates.DueLabelText | src/components/MITTaskList.tsx:116-122 | "Today" on the due day, the locale's date for later days, and for an overdue day the leading digits read back as the day count followed by " day overdue" exactly when the count is at most one and by " days overdue" exactly when it is above one |
| DueDates.OverdueTextSingular | src/components/MITTaskList.tsx:117-120 | an overdue label reads "1 day overdue" exactly when the task was due the day before today |
| DueDates.OverdueTextExamples | src/components/MITTaskList.tsx:120 | one day overdue reads singular, two read plural |
| MitTaskList.SelectMitTasksCorrect | src/components/MITTaskList.tsx:30-35 | the widget shows min(3, eligible) tasks, all flagged MIT and not completed, in ascending priority, drawn from the answer, and no qualifying task left out has a smaller priority than one shown |
| MitTaskList.MitSaveRequest | src/components/MITTaskList.tsx:49-56 | an edit updates the selected task with the form's fields; a create sends the form's fields with `isMIT` forced true |
| MitTaskList.FooterPlural | src/components/MITTaskList.tsx:222 | every count other than one, zero included, reads as the count followed by " MITs" |
| MitTaskList.FooterText | src/components/MITTaskList.tsx:222 | the footer is "1 MIT" exactly for one task, and its leading digits read back as the count |
| MitTaskList.MitTaskListWidget.constructor | src/components/MITTaskList.tsx:17-21 | the widget starts loading, with no tasks, no error and the dialog closed |
| MitTaskList.MitTaskListWidget.FetchMitTasks | src/components/MITTaskList.tsx:26-43 | a successful load shows the selected MIT tasks and clears the error; a failure keeps the list and sets "Failed to load MIT tasks"; loading ends either way |
| MitTaskList.MitTaskListWidget.HandleSaveTask | src/components/MITTaskList.tsx:45-82 | the request is the one for the selection; a failure reports a duplicate (409 or `DUPLICATE_TASK`) or a generic error, re-throws and changes nothing; a success reloads the list and closes the dialog |
| TopLitTasks.TotalLitCount | src/components/TopLITTasks.tsx:31-37 | the LIT count is every open LIT task plus the open MIT tasks past the third |
| TopLitTasks.LitPoolContents | src/components/TopLITTasks.tsx:31-34 | the pool holds exactly the overflowing MIT tasks (relabelled) and the open LIT tasks, nothing lost or doubled |
| TopLitTasks.OverflowMembers | src/components/TopLITTasks.tsx:33 | every relabelled overflow task is open and no longer flagged MIT |
| TopLitTasks.LitMembers | src/components/TopLITTasks.tsx:32 | every sorted LIT task is open and unflagged |
| TopLitTasks.LitPoolMembers | src/components/TopLITTasks.tsx:34 | every task in the pool is open and unflagged |
| TopLitTasks.FetchLitViewCorrect | src/components/TopLITTasks.tsx:30-37 | the count is the pool's size; the widget shows three tasks, or the whole pool when it is smaller, all taken from the pool, open and unflagged, in ascending priority, and no pool task left out has a smaller priority than one shown |
| TopLitTasks.LitCreatePatch | src/components/TopLITTasks.tsx:57 | a create sends the form's fields with `isMIT` forced false |
| TopLitTasks.TopLitWidget.constructor | src/components/TopLITTasks.tsx:16-21 | the widget starts loading, with nothing shown, a zero count, no error and the dialog closed |
| TopLitTasks.TopLitWidget.FetchLitTasks | src/components/TopLITTasks.tsx:26-45 | a successful load shows the first three of the pool and its size and clears the error; a failure keeps both and sets "Failed to load LIT tasks"; loading ends either way |
| TopLitTasks.TopLitWidget.HandleTaskClick | src/components/TopLITTasks.tsx:47-50 | the clicked task is selected and the dialog opens; the list is untouched |
| TopLitTasks.TopLitWidget.HandleSaveTask | src/components/TopLITTasks.tsx:52-73 | a create sends the LIT patch, an edit none; a failed save is swallowed and changes nothing; a success reloads (a reload stores the view and count and clears the error; a failed reload keeps them and sets the load error), ends loading and closes the dialog |
| ScheduledTasks.GroupMembers | src/components/ScheduledTasks.tsx:37-51 | a group built with a test holds exactly the open tasks with a due date that pass the test, as often as the answer does, ordered by due date |
| ScheduledTasks.GroupCorrect | src/components/ScheduledTasks.tsx:37-52 | a task is overdue exactly when it is scheduled and due before today, in today's group exactly when due today, in this week's exactly when due after today up to a week on; each group holds those tasks as often as the answer does, ordered by due date; no task is in two groups and together they hold at most the scheduled tasks |
| ScheduledTasks.GroupsAreDays | src/components/ScheduledTasks.tsx:38-50 | on ISO days the string tests are the calendar's: overdue exactly before today, this week exactly one to seven days after it |
| ScheduledTasks.RenderGroup | src/components/ScheduledTasks.tsx:119-123 | an empty group renders nothing; a non-empty one renders its own tasks |
| ScheduledTasks.Render | src/components/ScheduledTasks.tsx:186-201 | the empty state shows exactly when all three groups are empty; otherwise one to three groups are shown |
| ScheduledTasks.FooterText | src/components/ScheduledTasks.tsx:205 | the footer is "1 scheduled task" exactly when the three groups hold one task, and its leading digits read back as their total |
| ScheduledTasks.ScheduledWidget.constructor | src/components/ScheduledTasks.tsx:20-28 | the widget starts loading, with three empty groups, no error and the dialog closed |
| ScheduledTasks.ScheduledWidget.FetchScheduledTasks | src/components/ScheduledTasks.tsx:32-60 | a successful load stores the grouping of the answer and clears the error; a failure keeps the groups and sets "Failed to load scheduled tasks"; loading ends either way |
| ScheduledTasks.ScheduledWidget.HandleTaskClick | src/components/ScheduledTasks.tsx:62-65 | the clicked task is selected and the dialog opens; the groups are untouched |
| ScheduledTasks.ScheduledWidget.HandleSaveTask | src/components/ScheduledTasks.tsx:67-84 | a failed save changes nothing; a successful one reloads (the new grouping and no error, or on a failed reload the old groups and the load error), ends loading and closes the dialog |
| TaskOverviewSummary.WeekDateRangeCorrect | src/components/TaskOverviewSummary.tsx:24-36 | the week starts on the Monday on or before today, at most six days back and exactly six on a Sunday; both ends read back as ISO days and the start never sorts after today |
| TaskOverviewSummary.SummarizeCorrect | src/components/TaskOverviewSummary.tsx:52-65 | the open count is the list's length, the overdue count is bounded by it and is zero (or all of it) exactly when no (or every) open task has a due date before today, and the weekly count is bounded by the completed list |
| TaskOverviewSummary.OverdueByIsCalendar | src/components/TaskOverviewSummary.tsx:52-54 | for an ISO due day the string test is "due before today" in the calendar |
| TaskOverviewSummary.TaskOverviewWidget.constructor | src/components/TaskOverviewSummary.tsx:15-21 | the widget starts on zero counts and the loading view, and mounting fetches nothing (see also lines 74-76) |
| TaskOverviewSummary.TaskOverviewWidget.Mounted | src/components/TaskOverviewSummary.tsx:74-76 | a mount that runs the fetch once leaves the loading view, for the summary or the error |
| TaskOverviewSummary.TaskOverviewWidget.CurrentView | src/components/TaskOverviewSummary.tsx:78-106 | the loading view shows exactly while loading, and the error view (with its retry) exactly when loading has ended with an error |
| TaskOverviewSummary.TaskOverviewWidget.FetchTaskSummary | src/components/TaskOverviewSummary.tsx:38-72 | when both requests answer, the summary of the answers is stored and shown; when either fails, the summary is kept and "Failed to load task summary" is shown |
| Retry.Pow2Grows | src/components/OpenOverdueTile.tsx:72 | the back-off base never shrinks as the attempt grows |
| Retry.BackoffSchedule | src/components/OpenOverdueTile.tsx:72 | the standard delays are 1, 2 and 4 seconds; the capped delays are 1, 2, 4 and 8 seconds, 10 seconds from attempt 4 on, never above 10 seconds nor above the uncapped delay |
| Retry.RetryDelay | src/components/ProductivityScoreBar.tsx:87-97 | a failure schedules a retry exactly under the standard policy before attempt 3 or under the capped policy at any attempt, never in a test environment, with that policy's delay |
| Retry.MapAnswer | src/components/OpenOverdueTile.tsx:43-64 | the tile's record loads exactly when the request did, from its data, and a failure keeps its message |
| Retry.FirstLoaded | src/components/OpenOverdueTile.tsx:28-86 | the index is that of the first successful request among the first n, or n when all of them failed |
| Retry.MaxRequests | src/components/MITStatusTile.tsx:60-63 | every policy asks the server at least once |
| Retry.Loader.constructor | src/components/OpenOverdueTile.tsx:19-26 | a tile starts loading, with its initial record, no error and no retries |
| Retry.Loader.Fetch | src/components/OpenOverdueTile.tsx:28-86 | a call past attempt 3 ends with the "after multiple attempts" error; a success stores the data and resets the count; a failure keeps the data and either schedules the policy's retry (count = attempt + 1, still loading) or ends with the error's message or the fallback |
| Retry.Loader.Load | src/components/OpenOverdueTile.tsx:28-96 | the chain from attempt 0 ends settled: the first allowed successful request decides the data after that many back-off delays; if none succeeds, the last failure's message (or, for the capped policy, the refused fifth call) decides the error and the data is kept |
| Retry.Loader.HandleRetry | src/components/OpenOverdueTile.tsx:88-91 | a retry restarts the chain from attempt 0 and ends settled in the same way |
| OpenOverdueTile.CountTasks | src/components/OpenOverdueTile.tsx:43-59 | every task sent counts as open, and there are never more overdue tasks than open ones |
| OpenOverdueTile.IsOverdueCases | src/components/OpenOverdueTile.tsx:51-56 | a task without a due date is not overdue; a task due on an ISO day is overdue exactly when that day is before today |
| OpenOverdueTile.NewTile | src/components/OpenOverdueTile.tsx:71-84 | the tile uses the standard policy, its two error texts and zero counts, and starts loading (see also lines 19-26) |
| OpenOverdueTile.Summary | src/components/OpenOverdueTile.tsx:168-178 | the overdue summary shows exactly when something is overdue, and always carries the open count |
| OpenOverdueTile.RenderContent | src/components/OpenOverdueTile.tsx:117-189 | the spinner shows exactly while loading; the error view exactly when loaded with an error, with "Attempt n/3" exactly once a retry was counted; otherwise the counts with the overdue summary exactly when something is overdue |
| OpenOverdueTile.SummaryOfCounts | src/components/OpenOverdueTile.tsx:168-186 | for counts taken from a list, "none overdue" shows exactly when no task of it is overdue, and the warning exactly with the overdue summary |
| MitStatusTile.ActiveMitsCorrect | src/components/MITStatusTile.tsx:41-46 | the active count never exceeds the open tasks and is zero exactly when no open task is flagged MIT |
| MitStatusTile.TilePolicy | src/components/MITStatusTile.tsx:60-63 | retries are off exactly in a test environment (`NODE_ENV` is "test" or retries are disabled); otherwise the standard policy applies |
| MitStatusTile.NewTile | src/components/MITStatusTile.tsx:28-35 | the tile uses its environment's policy, its two error texts and a zero count, and starts loading (see also lines 18-24, 73) |
| MitStatusTile.TestEnvSingleRequest | src/components/MITStatusTile.tsx:60-76 | in a test environment one request is made and a failure is final |
| MitStatusTile.MitNote | src/components/MITStatusTile.tsx:148-161 | the warning shows exactly with no active MIT, the success note exactly with three or more |
| MitStatusTile.WarningIffNoFlagged | src/components/MITStatusTile.tsx:148-152 | the warning shows exactly when no open task is flagged MIT (see also line 46) |
| UpcomingTasksList.FormatDueDateCorrect | src/components/UpcomingTasksList.tsx:134-164 | overdue, today and tomorrow are the day counts' order (before, equal, one after), at most one holds, "Today"/"Tomorrow" show exactly with their flag, and a locale date shows the year exactly when it is not this year |
| UpcomingTasksList.MoreCount | src/components/UpcomingTasksList.tsx:254-257 | the "+n more" footer shows exactly when more than five tasks are listed |
| UpcomingTasksList.RowsAndFooter | src/components/UpcomingTasksList.tsx:254-257 | the rows are the list's first five (all of it when shorter), and the footer counts exactly the ones left out (see also line 208) |
| UpcomingTasksList.UpcomingWidget.constructor | src/components/UpcomingTasksList.tsx:19-27 | the widget starts loading an empty list under the standard policy with its two error texts, nothing selected and the modal closed |
| UpcomingTasksList.UpcomingWidget.HandleTaskClick | src/components/UpcomingTasksList.tsx:82-85 | the clicked task is selected and the modal opens |
| UpcomingTasksList.UpcomingWidget.HandleCloseModal | src/components/UpcomingTasksList.tsx:103-106 | the modal closes and the selection clears |
| UpcomingTasksList.UpcomingWidget.HandleSaveTask | src/components/UpcomingTasksList.tsx:87-101 | a failed save changes nothing and asks nothing; a successful one reloads the list through the retry chain, closes the modal and clears the selection |
| RecentActivityFeed.ActivityIcon | src/components/RecentActivityFeed.tsx:122-133 | the memo icon shows exactly for a kind other than completion, priority change and creation |
| RecentActivityFeed.ActivityDescription | src/components/RecentActivityFeed.tsx:135-152 | every description ends with the task's title after a colon and a space |
| RecentActivityFeed.DescriptionPrefix | src/components/RecentActivityFeed.tsx:135-152 | every kind's words end in ": " |
| RecentActivityFeed.DescriptionCases | src/components/RecentActivityFeed.tsx:135-152 | a priority change reads "Moved to MIT" when its new value is MIT, "Moved from MIT" when only its old value is, else "Changed priority"; an unknown kind reads "Updated" exactly when it has the memo icon; the title always ends the sentence |
| RecentActivityFeed.ElapsedSinceBands | src/components/RecentActivityFeed.tsx:154-170 | "Just now" exactly under a minute (or in the future); otherwise whole minutes 1-59, whole hours 1-23 or whole days from one, each the floor of the time elapsed |
| RecentActivityFeed.ElapsedText | src/components/RecentActivityFeed.tsx:159-170 | "Just now" exactly for the first band; otherwise the leading digits read back as the band's count, followed by "m ago", "h ago" or "d ago" |
| RecentActivityFeed.Activities | src/components/RecentActivityFeed.tsx:51-60 | a list response is the activity list itself, anything else reads as no activity |
| RecentActivityFeed.NewFeed | src/components/RecentActivityFeed.tsx:29-43 | the feed uses the standard policy and its two error texts, and starts loading an empty list |
| ProductivityScoreBar.WeekRangeCorrect | src/components/ProductivityScoreBar.tsx:26-45 | the labelled week runs from a Monday to the Sunday six days later and contains today; today is its Sunday exactly when today is a Sunday |
| ProductivityScoreBar.ColorMatchesLabel | src/components/ProductivityScoreBar.tsx:131-143 | the colour and the label share their bands: each label goes with exactly one colour |
| ProductivityScoreBar.LabelMonotone | src/components/ProductivityScoreBar.tsx:138-143 | a higher score never gets a lower label |
| ProductivityScoreBar.NewBar | src/components/ProductivityScoreBar.tsx:48-66 | the bar uses the capped policy and the "after multiple attempts" text, and starts loading with no metrics |
| ProductivityScoreBar.AllFailingChain | src/components/ProductivityScoreBar.tsx:57-98 | with every request failing the bar asks four times, waiting 1, 2, 4 and 8 seconds, before the refused fifth call ends the chain |
| WellnessPromptTile.StatusOf | src/components/WellnessPromptTile.tsx:64-83 | the completed count never exceeds the three tracked practices |
| WellnessPromptTile.StatusOfCorrect | src/components/WellnessPromptTile.tsx:64-83 | the tile is complete exactly when completed Gratitude, Savoring Reflection and Exercise instances are each dated today, shows zero exactly when none is, and shows zero when nothing is dated today |
| WellnessPromptTile.WeekStartNotAfter | src/components/WellnessPromptTile.tsx:55 | the requested range's start never sorts after today |
| WellnessPromptTile.WeekEndNotBefore | src/components/WellnessPromptTile.tsx:58-60 | the requested range's end never sorts before today |
| WellnessPromptTile.TodayInRange | src/components/WellnessPromptTile.tsx:54-67 | today's ISO day lies in the requested range, so today's instances are among those asked for |
| WellnessPromptTile.NewTile | src/components/WellnessPromptTile.tsx:31-37 | the tile uses the standard policy and its two error texts, and starts loading with no status (see also lines 45, 107) |
| WellnessPromptTile.NavigateEffects | src/components/WellnessPromptTile.tsx:119-123 | the `navigateToWellnessTab` event always goes first, and the callback follows exactly when one was given |
| WellnessTrackerGrid.PracticeTarget | src/components/wellness/WellnessTrackerGrid.tsx:80-88 | Gratitude, Meditation and Exercise call for 7 a week, Kindness, Social Outreach and Novelty Challenge for 2, Savoring Reflection for 1 |
| WellnessTrackerGrid.RowsArePractices | src/components/wellness/WellnessTrackerGrid.tsx:22-30 | the grid has seven rows, one for each practice, none repeated |
| WellnessTrackerGrid.DaysPassedInWeek | src/components/wellness/WellnessTrackerGrid.tsx:168-171 | the days passed are 1 to 7; 1 before the first day has ended, 7 from the seventh day on, and within the week the day the elapsed time falls in |
| WellnessTrackerGrid.StatusOfCorrect | src/components/wellness/WellnessTrackerGrid.tsx:160-196 | a met target is never at risk; a daily practice is at risk exactly when it trails the days passed by more than two, a twice-weekly one exactly when nothing is done from the fifth day, the weekly one exactly when nothing is done from the sixth |
| WellnessTrackerGrid.NoRiskEarly | src/components/wellness/WellnessTrackerGrid.tsx:160-196 | on the first two days of the week no practice is at risk |
| WellnessTrackerGrid.CompletionOf | src/components/wellness/WellnessTrackerGrid.tsx:233-241 | the completion flag is set exactly when the week's completed count reaches the practice's target |
| WellnessTrackerGrid.CompleteAgrees | src/components/wellness/WellnessTrackerGrid.tsx:233-241 | a practice shown complete also shows the complete status indicator (see also lines 160-165) |
| WellnessTrackerGrid.CellStatusOf | src/components/wellness/WellnessTrackerGrid.tsx:340-361 | a pending optimistic value decides the cell (completed or incomplete); otherwise the four combinations of completed and linked (a non-empty task id) decide it; a cell without an instance is empty |
| WellnessTrackerGrid.CellIconOf | src/components/wellness/WellnessTrackerGrid.tsx:364-377 | the check mark shows exactly for the two completed statuses |
| WellnessTrackerGrid.CheckedIffCompleted | src/components/wellness/WellnessTrackerGrid.tsx:340-377 | without a pending value a cell is checked exactly when its instance exists and is completed |
| WellnessTrackerGrid.FindInstance | src/components/wellness/WellnessTrackerGrid.tsx:144 | a found instance is one of the week's, with that date and practice; none is found only when no instance has both |
| WellnessTrackerGrid.GetWeekDates | src/components/wellness/WellnessTrackerGrid.tsx:102-119 | an unreadable start gives no days; otherwise seven valid consecutive days starting at the week start |
| WellnessTrackerGrid.Grid.constructor | src/components/wellness/WellnessTrackerGrid.tsx:99 | the grid starts with no pending values |
| WellnessTrackerGrid.Grid.HandleCellClick | src/components/wellness/WellnessTrackerGrid.tsx:276-310 | while loading nothing happens; otherwise the cell's pending value becomes the toggled flag (done when it has no instance) and exactly that update is asked for |
| WellnessTrackerGrid.Grid.SettleCellClick | src/components/wellness/WellnessTrackerGrid.tsx:289-323 | success and failure alike drop exactly the cell's pending value |
| WellnessTrackerGrid.OptimisticCellShown | src/components/wellness/WellnessTrackerGrid.tsx:340-346 | while pending a clicked cell shows the value it was set to; once settled it shows its instance again (see also line 286) |
| WellnessStatusWidget.WeekEndYear | src/components/WellnessStatusWidget.tsx:68-69 | the Sunday closing the selected week is still a four-digit year |
| WellnessStatusWidget.GetDateInfoCorrect | src/components/WellnessStatusWidget.tsx:54-82 | the selected day reads back as itself; the week starts on the Monday on or before it (six days back from a Sunday) and ends six days later on a Sunday |
| WellnessStatusWidget.GetDateInfoOrder | src/components/WellnessStatusWidget.tsx:54-82 | the selected day sorts inside its week, and it is today exactly when the offset is zero |
| WellnessStatusWidget.WeeklyTarget | src/components/WellnessStatusWidget.tsx:30-38 | the four daily practices (Gratitude, Meditation, Savoring Reflection, Exercise) aim at 7 a week and every other at 2 |
| WellnessStatusWidget.StatusesOf | src/components/WellnessStatusWidget.tsx:118-137 | one status per practice, in display order, each that practice's status |
| WellnessStatusWidget.StatusForCorrect | src/components/WellnessStatusWidget.tsx:119-136 | a status names its practice and target; it is done on the selected day exactly when a completed instance of it carries that date, which then counts toward the weekly progress; progress never exceeds its instances; the journal flag is set exactly when a non-empty entry is stored |
| WellnessStatusWidget.TargetsAgainstGrid | src/components/WellnessStatusWidget.tsx:30-38 | Savoring Reflection is daily here; the other practices keep the grid's targets |
| WellnessStatusWidget.DateLabelOf | src/components/WellnessStatusWidget.tsx:160-166 | "Today", "Yesterday" and "Tomorrow" exactly at offsets 0, -1 and 1; "days ago" exactly below -1 and "days ahead" exactly above 1 |
| WellnessStatusWidget.DateLabelRoundTrip | src/components/WellnessStatusWidget.tsx:160-166 | the label names its offset, so different offsets get different labels |
| WellnessStatusWidget.DayOfWeek | src/components/WellnessStatusWidget.tsx:250 | the position in the Monday week is 1 to 7 |
| WellnessStatusWidget.ExpectedProgress | src/components/WellnessStatusWidget.tsx:251-253 | a daily practice is expected at the day's position; another at the ceiling of position/7 of its target |
| WellnessStatusWidget.ProgressClassOf | src/components/WellnessStatusWidget.tsx:248-258 | complete exactly when the target is met; on track exactly when short of it but at or past the expectation |
| WellnessStatusWidget.ExpectedProgressBounds | src/components/WellnessStatusWidget.tsx:251-253 | for a practice's own target the expectation grows through the week, from at least one to the whole target on Sunday |
| WellnessStatusWidget.SundayNeverOnTrack | src/components/WellnessStatusWidget.tsx:248-258 | on a Sunday a practice is either complete or behind |
| WellnessStatusWidget.ProgressClassMonotone | src/components/WellnessStatusWidget.tsx:248-258 | more progress never gives a worse class |
| WellnessStatusWidget.FindStatus | src/components/WellnessStatusWidget.tsx:172 | a found status is one of the list's with that practice; none is found only when no status has it |
| WellnessStatusWidget.SaveJournal | src/components/WellnessStatusWidget.tsx:220-225 | the key is stored exactly when the trimmed text is non-empty, with the trimmed text; every other key is kept as it was |
| WellnessStatusWidget.SaveJournalShown | src/components/WellnessStatusWidget.tsx:213-232 | after a save the day's journal flag shows exactly whether the text had anything but white space, with the trimmed entry; every other practice's status is unchanged |
| WellnessStatusWidget.SaveJournalIdempotent | src/components/WellnessStatusWidget.tsx:220-225 | saving an already saved entry again changes nothing |
| WellnessStatusWidget.StatusWidget.constructor | src/components/WellnessStatusWidget.tsx:41-48 | the widget starts loading on today, with no statuses, no journal, no error and a zero score |
| WellnessStatusWidget.StatusWidget.FetchWellnessStatus | src/components/WellnessStatusWidget.tsx:84-146 | a load stores the status of every practice for the selected day and the week's first score (0 when the score request fails or sends nothing); a failed practices request keeps the statuses and sets the load error |
| WellnessStatusWidget.StatusWidget.NavigateDate | src/components/WellnessStatusWidget.tsx:152-154 | the offset moves one day back or forward and nothing else changes |
| WellnessStatusWidget.StatusWidget.GoToToday | src/components/WellnessStatusWidget.tsx:156-158 | the offset returns to today and nothing else changes |
| WellnessStatusWidget.StatusWidget.HandlePracticeToggle | src/components/WellnessStatusWidget.tsx:168-211 | a token failure sets the update error; on another day only a practice with a journal opens it; today a done practice opens its journal, and one not done is posted and, when the post succeeds, opens an empty journal and reloads; a failed post sets the update error |
| WellnessStatusWidget.StatusWidget.HandleJournalSave | src/components/WellnessStatusWidget.tsx:213-232 | an open journal's text is saved under the selected day's key, and the journal closes and clears; with none open nothing changes |
| WellnessPage.CountsOfCorrect | src/pages/wellness-page.tsx:93-102 | at most three active tasks count as MIT (all the flagged ones when fewer), and the MIT and LIT counts together are exactly the active tasks |
| WellnessPage.CollectTags | src/pages/wellness-page.tsx:94-100 | the tag list is sorted, has no repeats, and holds exactly the tags of the tasks |
| WellnessPage.JournalOfKeys | src/pages/wellness-page.tsx:80-83 | a journal key is present exactly when some instance with that key has a non-empty journal |
| WellnessPage.JournalOfLast | src/pages/wellness-page.tsx:80-83 | a present key holds the journal of the last instance with that key and a journal |
| WellnessPage.BuildJournal | src/pages/wellness-page.tsx:80-83 | the loop builds exactly the journal dictionary of the instances |
| WellnessPage.ScoreFor | src/pages/wellness-page.tsx:85-91 | the score is that of the first entry for the week, and 0 when there is none |
| WellnessPage.RequestRange | src/pages/wellness-page.tsx:71-77 | the practices are asked for from the week start to the day six days later |
| WellnessPage.PreviousWeek | src/pages/wellness-page.tsx:87-89 | last week's start is the day seven days before |
| WellnessPage.NavigatedYear | src/pages/wellness-page.tsx:217-223 | a day at most a week back lies in the same year or the one before |
| WellnessPage.SameMonday | src/pages/wellness-page.tsx:217-223 | a day seven days from a Monday is a Monday and its own week start |
| WellnessPage.NavigatedFrom | src/pages/wellness-page.tsx:217-223 | one step from a Monday's week start lands on the Monday seven days on or back |
| WellnessPage.NavigatedParsed | src/pages/wellness-page.tsx:217-223 | stepping from a readable week is stepping from its day |
| WellnessPage.NavigatedDateFrom | src/pages/wellness-page.tsx:217-223 | stepping from a Monday gives the ISO day of the Monday seven days on or back |
| WellnessPage.NavigateOnAndBack | src/pages/wellness-page.tsx:217-223 | from a Monday the page moves on to the next Monday, and moving back returns to the start |
| WellnessPage.NavigateBackAndOn | src/pages/wellness-page.tsx:217-223 | from a Monday the page moves back to the previous Monday, and moving on returns to the start |
| WellnessPage.CaughtError | src/pages/wellness-page.tsx:118-128 | the catch sees nothing exactly when the create (and, for a completed practice, the update after it) returned; a failed create is what it sees |
| WellnessPage.JustCompleted | src/pages/wellness-page.tsx:111-122 | the journal prompt is due only for a completion: an existing instance going from not done to done, or a new one created done |
| WellnessPage.ReplaceById | src/pages/wellness-page.tsx:116 | the returned instance replaces each instance with its id, and every other instance stays in place |
| WellnessPage.StoreUpdate | src/pages/wellness-page.tsx:110-136 | an existing instance is replaced when its update returns and the handler fails otherwise; a new one is appended (the update's when completed, else the create's); after a duplicate create the retried update is appended and the page reloads; any other error fails the handler |
| WellnessPage.StoreUpdateHasDay | src/pages/wellness-page.tsx:110-136 | once the calls have settled with instances of the requested day, the week holds an instance of that day |
| WellnessPage.NewTaskPatch | src/pages/wellness-page.tsx:236-239 | a new task gets the Wellness tag appended and, for a practice day, the practice name in front of its title; no other field changes |
| WellnessPage.TaskSaveFor | src/pages/wellness-page.tsx:232-242 | a selected task is updated with the form's data; otherwise a task is created |
| WellnessPage.LinkActionFor | src/pages/wellness-page.tsx:243-258 | only a task created for a practice day is linked to it, by an update when the week has that day's instance and by a create otherwise |
| WellnessPage.JournalRequest | src/pages/wellness-page.tsx:159-167 | a journal is sent exactly when there is new text or an entry to clear; new text is sent trimmed, a clear as the empty string |
| WellnessPage.Page.constructor | src/pages/wellness-page.tsx:26-57 | the page starts on today's week start, loading, with nothing loaded, no dialog and no journal open |
| WellnessPage.Page.LoadWellnessData | src/pages/wellness-page.tsx:66-73 | with no week nothing happens; a week that does not read as a date ends loading with no request (the thrown date error reaches the `finally`); otherwise the week's range is requested and loading is on (see also lines 105-107) |
| WellnessPage.Page.WeekArrived | src/pages/wellness-page.tsx:74-107 | the task request is made exactly when the week's requests succeeded; then the practices and scores, the journal dictionary of the practices' journals, and this and last week's scores are stored; on failure none of them changes and loading ends |
| WellnessPage.Page.StoreWeek | src/pages/wellness-page.tsx:78-91 | the practices, the scores, the journal dictionary and the scores of the week and of the week before are stored |
| WellnessPage.Page.TasksArrived | src/pages/wellness-page.tsx:92-107 | on success the tags become sorted and distinct, holding exactly the tags of the fetched tasks, and the MIT and LIT counts are stored; on failure they keep their values; loading ends either way |
| WellnessPage.Page.HandlePracticeUpdate | src/pages/wellness-page.tsx:110-147 | the week's instances become what the calls leave, the journal opens with its stored text only after a completion, and then the scores are stored with last week's taken as the second entry; a call that throws rejects the handler |
| WellnessPage.Page.StoreScores | src/pages/wellness-page.tsx:142-145 | the refreshed scores are stored, with the viewed week's score and the second entry as last week's |
| WellnessPage.Page.HandleCreateTask | src/pages/wellness-page.tsx:149-153 | the dialog opens for a new task tied to that practice day |
| WellnessPage.Page.HandleJournalEdit | src/pages/wellness-page.tsx:192-196 | that day's journal opens with its stored text, or empty |
| WellnessPage.Page.HandleJournalSave | src/pages/wellness-page.tsx:155-190 | the journal text is sent when needed; the entry is saved trimmed (or cleared) unless the send failed; the journal always closes |
| WellnessPage.Page.NavigateWeek | src/pages/wellness-page.tsx:217-223 | the week moves to the week start seven days on or back |
| WellnessPage.Page.HandleChartWeekClick | src/pages/wellness-page.tsx:225-227 | the week becomes the clicked one |
| WellnessPage.Page.HandleWellnessTaskSave | src/pages/wellness-page.tsx:229-267 | the save and the link made are those for the selection; on success the awaited reload of the week is requested as `loadWellnessData` does and the dialog closes and forgets its task and day; on failure nothing changes and nothing is reloaded |
| WellnessPage.Page.HandleOpenTask | src/pages/wellness-page.tsx:203-215 | a task with that id opens in the dialog with no practice day pending; otherwise nothing changes |
| WellnessPage.FindTask | src/pages/wellness-page.tsx:206 | the task found is the first in the list with that id; none is found only when no task has it |
| WellnessPage.LoadedJournalShown | src/pages/wellness-page.tsx:80-83 | after a load a day's practice shows a journal exactly when one of the week's instances for it has a journal (see also lines 198-201) |
| ArrowControls.ArrowFor | src/components/ArrowControls.tsx:22-105 | up and down stay in the task's list one step up or down; the horizontal arrow goes to the other list at the same index, or at 0 when that list is empty; the diagonals go to the other list's top or its end |
| ArrowControls.Arrows | src/components/ArrowControls.tsx:22-105 | a direction's button shows exactly when its rule holds (up off the first card, down off the last, the horizontal one always, the diagonals only beside a non-empty list); each button makes its arrow's move; no direction repeats, and the buttons come in the card's order: up, down, horizontal, top, bottom |
| ArrowControls.OwnListArrows | src/components/ArrowControls.tsx:26-49 | only vertical buttons, each making its arrow's move; up shows exactly off the first card and down exactly off the last, up first; no direction repeats |
| ArrowControls.OtherListArrows | src/components/ArrowControls.tsx:51-105 | only horizontal and diagonal buttons, each making its arrow's move; at least the horizontal one shows, each shows exactly when its rule holds, in the order horizontal, top, bottom, and no direction repeats |
| ArrowControls.ShownRules | src/components/ArrowControls.tsx:52-105 | exactly one of the two horizontal arrows shows, and a diagonal needs a non-empty other list |
| ArrowControls.ShownTargetsInRange | src/components/ArrowControls.tsx:71-105 | a shown up or down arrow targets a position inside the task's own list; a diagonal targets 0 up to the other list's length (see also lines 26-27, 32-49) |
| ArrowControls.EndsOfList | src/components/ArrowControls.tsx:26-27 | the first card has no up arrow and the last card no down arrow |
| ArrowControls.HorizontalPastEnd | src/components/ArrowControls.tsx:54 | the horizontal arrow keeps the index even past the other list's end (the third MIT card moves to index 2 of a one-task LIT list) |
| PowerControls.ButtonCount | src/components/PowerControls.tsx:32-63 | one to three buttons show: as many as the other list's positions after the move (its length plus one), capped at three |
| PowerControls.Buttons | src/components/PowerControls.tsx:43-53 | button p (from 1) moves the task to index p - 1 of the other list (see also lines 21-29, 63-73) |
| PowerControls.ButtonsInRange | src/components/PowerControls.tsx:37-77 | there is always a button 1 to the other list's top, every button leaves the task's own list, and none goes past the other list's end |
| MitGrid.Slots | src/components/mit-grid.tsx:13-37 | there are always three slots; slot i shows the i-th task when there is one and a placeholder otherwise |
| MitGrid.SlotsShown | src/components/mit-grid.tsx:13-37 | the placeholders number max(0, 3 - n) for n tasks, and every shown card is one of the first three tasks |
| Undo.InverseOf | src/hooks/useUndo.ts:72-90 | a create is undone by deleting that task, an update by writing back its old fields, a delete by creating the task again under its original id |
| Undo.Describe | src/hooks/useUndo.ts:155-166 | the description names the operation and the task's title; an update without a new title reads "Unknown" |
| Undo.DescribeKind | src/hooks/useUndo.ts:155-166 | two equal descriptions come from the same kind of operation |
| Undo.RemoveIdCorrect | src/hooks/useUndo.ts:67 | removing an id drops exactly the entries with it and keeps the others (see also lines 104, 109) |
| Undo.TargetOf | src/hooks/useUndo.ts:93-95 | with an id the target is the entry with that id, if any; without one it is the most recent entry, if the stack is not empty |
| Undo.UndoStack.constructor | src/hooks/useUndo.ts:36-41 | the stack starts empty, not undoing, with no timers |
| Undo.UndoStack.AddUndoAction | src/hooks/useUndo.ts:43-70 | the new entry goes in front, only the ten most recent entries stay, and its 30-second timer becomes the one held (see also lines 119-142) |
| Undo.UndoStack.Expire | src/hooks/useUndo.ts:66-68 | a timer that fires while still pending drops its entry; a cleared timer changes nothing |
| Undo.UndoStack.UndoAction | src/hooks/useUndo.ts:92-105 | with no target "No action to undo" is raised and nothing changes; otherwise the inverse call is made, a failure leaves the stack as it is, success drops the entry; undoing ends either way (see also lines 49-56) |
| Undo.UndoStack.ClearUndo | src/hooks/useUndo.ts:107-117 | an id drops that entry, no id empties the stack, and only the timer last held is cancelled |
| Undo.UndoTargetsNewest | src/hooks/useUndo.ts:59-95 | right after recording, undo() targets the new entry |
| Undo.CapDropsOldest | src/hooks/useUndo.ts:59-63 | recording onto a full stack keeps ten entries: the new one, then all but the oldest, in their order |
| DoubleClick.FailureMessage | src/hooks/useDoubleClickPrevention.ts:69 | a thrown Error leaves its own message; anything else leaves "An error occurred" |
| DoubleClick.Guard.constructor | src/hooks/useDoubleClickPrevention.ts:25-30 | the debounce and the loading cap default to 1000 and 5000 ms; nothing is loading, no error, no call yet |
| DoubleClick.Guard.Execute | src/hooks/useDoubleClickPrevention.ts:32-50 | a call is accepted exactly when nothing is loading and the debounce interval has passed; a refused call changes nothing; an accepted one records the time, starts loading, clears the error and arms the safety timer |
| DoubleClick.Guard.Settle | src/hooks/useDoubleClickPrevention.ts:52-72 | the timer is cleared and loading ends; a value is returned, an error is stored with its message and thrown again |
| DoubleClick.Guard.TimeOut | src/hooks/useDoubleClickPrevention.ts:46-50 | a pending safety timer ends loading with the timed-out message; a cleared one does nothing |
| DoubleClick.Guard.Reset | src/hooks/useDoubleClickPrevention.ts:75-81 | loading and the error are cleared and the timer cancelled; the time of the last call stays |
| DoubleClick.DebounceWindow | src/hooks/useDoubleClickPrevention.ts:36 | after an accepted call every call within the debounce interval is refused, and one after it with nothing loading is accepted |
| DoubleClick.SecondClickRefused | src/hooks/useDoubleClickPrevention.ts:36-42 | while an operation loads every call is refused |
| EditTaskModal.ProcessTag | src/components/edit-task-modal.tsx:95-98 | a processed tag holds only lower-case letters, digits and hyphens, is no longer than its input, and a tag already of that form is kept as it is |
| EditTaskModal.ProcessTagAppend | src/components/edit-task-modal.tsx:95-98 | processing works piece by piece: the processed concatenation is the concatenation of the processed pieces |
| EditTaskModal.ProcessTagChar | src/components/edit-task-modal.tsx:95-98 | one character becomes its lower case when that is a letter, digit or hyphen, and disappears otherwise; with the previous row this fixes the result as the lower-cased tag with every other character dropped, in order |
| EditTaskModal.ProcessTagIdempotent | src/components/edit-task-modal.tsx:95-98 | processing a processed tag changes nothing |
| EditTaskModal.AddTag | src/components/edit-task-modal.tsx:100-105 | the processed tag is appended when it is non-empty and not yet chosen; otherwise the tags stay |
| EditTaskModal.AddTagTwice | src/components/edit-task-modal.tsx:100-105 | adding a tag twice adds it once |
| EditTaskModal.TokensToAddSound | src/components/edit-task-modal.tsx:107-118 | every tag a comma or Enter appends is normalised, non-empty, new, and comes from a non-blank piece of the input between commas |
| EditTaskModal.TokensToAddComplete | src/components/edit-task-modal.tsx:107-118 | every non-blank piece of the input whose processed tag is non-empty and new is appended |
| EditTaskModal.SingleTokenIsAddTag | src/components/edit-task-modal.tsx:100-118 | an input without commas appends what adding its trimmed text as one tag would |
| EditTaskModal.RemoveTag | src/components/edit-task-modal.tsx:123-125 | exactly the entries equal to the tag go; a tag not chosen leaves the tags as they are |
| EditTaskModal.AddThenRemove | src/components/edit-task-modal.tsx:100-125 | removing a tag just added gives the old tags back |
| EditTaskModal.Suggestions | src/components/edit-task-modal.tsx:65-74 | an empty input suggests nothing; otherwise the known tags containing the input, ignoring case, that are not chosen yet |
| EditTaskModal.DueDateField | src/components/edit-task-modal.tsx:40-50 | no due date leaves the field empty; a readable date fills it with its ISO day; whatever fills it is an ISO day |
| EditTaskModal.FinalTags | src/components/edit-task-modal.tsx:80-83 | the pending input is added trimmed (and not processed) when it is not blank and not yet chosen |
| EditTaskModal.Modal.constructor | src/components/edit-task-modal.tsx:26-32 | the dialog starts with empty fields, status Open and no tags |
| EditTaskModal.Modal.OpenDialog | src/components/edit-task-modal.tsx:34-63 | opening loads the task's fields (the missing description, due date and tags as empty) or resets them for a new task, and clears the tag input |
| EditTaskModal.Modal.SetTagInput | src/components/edit-task-modal.tsx:31 | typing sets the tag input and leaves the tags |
| EditTaskModal.Modal.HandleTagKey | src/components/edit-task-modal.tsx:107-121 | a comma or Enter appends the input's new tags and clears the input; other keys change nothing |
| EditTaskModal.Modal.RemoveTagClicked | src/components/edit-task-modal.tsx:123-125 | the tag is removed from the chosen tags |
| EditTaskModal.Modal.Save | src/components/edit-task-modal.tsx:78-93 | the record saved holds the task's id and the fields, with the pending tag input added |
| TagInput.AddedTags | src/components/TagInput.tsx:26-32 | the parent is told of a new list exactly when the trimmed input is not blank and not present, and that list is the old one with the trimmed input appended |
| TagInput.RemoveIndex | src/components/TagInput.tsx:34-36 | removing an index inside the list keeps every other entry in order; an index outside keeps the whole list |
| TagInput.RemoveIndexMultiset | src/components/TagInput.tsx:34-36 | removing an index loses exactly that one entry |
| TagInput.AddThenBackspace | src/components/TagInput.tsx:21-36 | a tag just added is the last entry, so Backspace on the empty input takes it away again |
| TagInput.AddedTagsKeepsDistinct | src/components/TagInput.tsx:28 | a list without repeats stays without repeats when a tag is added |
| TagInput.Editor.constructor | src/components/TagInput.tsx:11 | the input starts empty |
| TagInput.Editor.InputChanged | src/components/TagInput.tsx:13-15 | typing sets the input |
| TagInput.Editor.KeyDown | src/components/TagInput.tsx:17-32 | Enter or a comma adds the input as a tag and always clears the input; Backspace on an empty input asks for the list without its last tag; other keys change nothing |
| TagInput.Editor.RemoveClicked | src/components/TagInput.tsx:34-60 | a tag's remove button asks for the list without that index |
| TagInput.Editor.Blurred | src/components/TagInput.tsx:26-59 | leaving the input adds it as a tag and clears it, as Enter does |
| EditTaskForm.TypedNumber | src/components/edit-task-form.tsx:172-176 | a number that does not parse, or 0, becomes 1; any other stays |
| EditTaskForm.MaxPriority | src/components/edit-task-form.tsx:103 | the MIT list has three places; the LIT list at least ten and one more than its tasks |
| EditTaskForm.FlooredPriority | src/components/edit-task-form.tsx:98-101 | a priority is never below 1, and one of at least 1 is kept |
| EditTaskForm.TypedPriority | src/components/edit-task-form.tsx:171-174 | typing gives the number when it is at least 1, and 1 otherwise |
| EditTaskForm.BlurredPriority | src/components/edit-task-form.tsx:175-179 | leaving the input clamps the priority into 1 up to the maximum: an in-range number stays, one too big becomes the maximum, anything else 1 |
| EditTaskForm.BlurIdempotent | src/components/edit-task-form.tsx:175-179 | a clamped priority typed again stays as it is |
| EditTaskForm.SaveDisabled | src/components/edit-task-form.tsx:239-244 | Save is disabled exactly when the title is over 200 UTF-16 code units, the description over 5000, or the title blank |
| EditTaskForm.NoWarningForMitOrLit | src/components/edit-task-form.tsx:183-187 | the full-MIT hint never shows for the LIT list or for a task that is already a MIT |
| EditTaskForm.Merge | src/components/edit-task-form.tsx:50 | each field given in the defaults wins over the base |
| EditTaskForm.NormalizedDue | src/components/edit-task-form.tsx:51-60 | a missing, empty or day-shaped due date is kept; any other is rewritten only to the day it reads as |
| EditTaskForm.LoadedFields | src/components/edit-task-form.tsx:33-37 | an existing task loads its own fields, a missing due date as empty; a due date that reads as no date throws |
| EditTaskForm.InitialPriority | src/components/edit-task-form.tsx:39-63 | a missing or zero priority starts at 1 |
| EditTaskForm.Form.constructor | src/components/edit-task-form.tsx:28-65 | a task loads its fields, its list and priority; a new task loads the defaults over the blank new task, with its due date normalised |
| EditTaskForm.Form.ListChanged | src/components/edit-task-form.tsx:93-96 | the chosen list starts again at priority 1 |
| EditTaskForm.Form.PriorityTyped | src/components/edit-task-form.tsx:171-174 | typing sets the priority floored at 1 |
| EditTaskForm.Form.PriorityBlurred | src/components/edit-task-form.tsx:175-179 | leaving the input leaves a priority between 1 and the list's maximum |
| EditTaskForm.Form.TitleChanged | src/components/edit-task-form.tsx:88-91 | only the title changes |
| EditTaskForm.Form.DescriptionChanged | src/components/edit-task-form.tsx:88-91 | only the description changes |
| EditTaskForm.Form.DueDateChanged | src/components/edit-task-form.tsx:88-91 | only the due date changes |
| EditTaskForm.Form.StatusChanged | src/components/edit-task-form.tsx:88-91 | only the status changes |
| EditTaskForm.Form.TagsChanged | src/components/edit-task-form.tsx:84-86 | only the tags change |
| EditTaskForm.Form.Save | src/components/edit-task-form.tsx:67-82 | nothing is saved past either limit; otherwise the fields are saved with the list as the MIT flag and the current priority, under the task's id |
| EditTaskForm.EnabledSaveSaves | src/components/edit-task-form.tsx:67-73 | an enabled Save button always hands a record over (see also lines 239-244) |
| SearchBar.TruncateText | src/components/SearchBar.tsx:72-74 | a text within the maximum is kept; a longer one is cut to the maximum and ends in "..." |
| SearchBar.TruncateBounds | src/components/SearchBar.tsx:72-74 | a preview is never longer than the maximum plus three, and starts with as much of the text as fits |
| SearchBar.RowOf | src/components/SearchBar.tsx:107-153 | a match shows its title cut at 50, a non-empty description cut at 70, at most its first three tags with a "+k more" count beyond them, and the MIT or LIT badge by its flag |
| SearchBar.RowCountsTags | src/components/SearchBar.tsx:123-137 | the tags shown and the "+k more" count add up to all the task's tags |
| SearchBar.RowsOf | src/components/SearchBar.tsx:107 | each match gets its own row, in order |
| SearchBar.DropdownOf | src/components/SearchBar.tsx:103-170 | the dropdown shows exactly while open with a non-blank query; with no results it is the no-match notice; otherwise the first ten matches, with the total when there are more |
| SearchBar.SearchBox.constructor | src/components/SearchBar.tsx:14-18 | the box starts with an empty query, closed |
| SearchBar.SearchBox.InputChanged | src/components/SearchBar.tsx:58-62 | the query is set and the dropdown opens exactly for a non-blank query |
| SearchBar.SearchBox.KeyDown | src/components/SearchBar.tsx:64-70 | Escape empties the query and closes; other keys change nothing |
| SearchBar.SearchBox.ClearClicked | src/components/SearchBar.tsx:88-93 | the clear button empties the query and closes |
| SearchBar.SearchBox.ResultClicked | src/components/SearchBar.tsx:32-56 | a clicked match empties the query and closes the dropdown; its id goes to `onResultClick` exactly when the page passed one |
| SearchBar.SearchBox.ClickedOutside | src/components/SearchBar.tsx:21-30 | a click outside closes the dropdown and keeps the query |
| SearchBar.TypedDropdown | src/components/SearchBar.tsx:58-62 | after typing the dropdown shows exactly for a non-blank query; once emptied and closed it shows nothing (see also line 103) |
| ExpandableDescription.PreviewText | src/components/ExpandableDescription.tsx:20-37 | a text within the preview length shows whole; a longer one shows its first characters and always ends in "...", added only when the cut does not already end so |
| ExpandableDescription.ViewOf | src/components/ExpandableDescription.tsx:18-75 | an empty description shows nothing; collapsed it shows the preview with More exactly when the text is cut; expanded it shows the whole text with Less |
| ExpandableDescription.MoreOnlyWhenCut | src/components/ExpandableDescription.tsx:20-57 | a preview without More is the whole text; with More it differs from the text except for a text just three characters over the limit ending in "..." |
| ExpandableDescription.Description.constructor | src/components/ExpandableDescription.tsx:16 | the description starts collapsed |
| ExpandableDescription.Description.MoreClicked | src/components/ExpandableDescription.tsx:46-50 | More expands the description |
| ExpandableDescription.Description.LessClicked | src/components/ExpandableDescription.tsx:64-68 | Less collapses it |
| DashboardTabs.FreshForFiveMinutes | src/components/DashboardTabs.tsx:122-126 | data stored at a time is fresh for exactly five minutes after it; no data is never fresh |
| DashboardTabs.KeyTargetTab | src/components/DashboardTabs.tsx:66-103 | keys count only on the dashboard and wellness buttons: Home goes to the dashboard, End to the sample tab, the arrows one step along dashboard, wellness, sample without wrapping; other keys do nothing |
| DashboardTabs.ArrowsStepByOne | src/components/DashboardTabs.tsx:72-92 | ArrowRight moves one place on unless on the last tab, ArrowLeft one place back unless on the first |
| DashboardTabs.TabIndex | src/components/DashboardTabs.tsx:135-164 | a tab is focusable exactly when it is active |
| DashboardTabs.ExactlyOneSelected | src/components/DashboardTabs.tsx:135-164 | exactly one tab is selected |
| DashboardTabs.Tabs.constructor | src/components/DashboardTabs.tsx:21-29 | the default tab is the dashboard, and the caches start empty |
| DashboardTabs.Tabs.SwitchTo | src/components/DashboardTabs.tsx:34-62 | switching to the active tab does nothing; another tab becomes active and a tab-switch event announces it; the caches stay (see also lines 139, 151, 163) |
| DashboardTabs.Tabs.KeyDown | src/components/DashboardTabs.tsx:66-108 | the key's tab, if any, becomes active, with an event when it is a different tab; otherwise nothing changes |
| DashboardTabs.Tabs.UpdateTabData | src/components/DashboardTabs.tsx:111-119 | only that tab's cache entry is replaced, stamped with the time |
| MobileNav.NavBar.constructor | src/components/navigation/mobile/mobile-nav-bar.tsx:18-19 | the menu starts closed with the menu icon, the body unlocked and the menu not shown |
| MobileNav.NavBar.Close | src/components/navigation/mobile/mobile-nav-bar.tsx:25-53 | closing unlocks the body, closes the menu and shows the menu icon |
| MobileNav.NavBar.OpenMenu | src/components/navigation/mobile/mobile-nav-bar.tsx:31-35 | opening locks the body, opens the menu and shows the close icon |
| MobileNav.NavBar.Toggle | src/components/navigation/mobile/mobile-nav-bar.tsx:37-43 | the toggle opens a closed menu and closes an open one, keeping the icon and the body lock in step with the menu |
| ThemeToggle.EffectiveTheme | src/components/navigation/ThemeToggle.tsx:27-32 | the theme shown is never "system": it follows the system's preference under "system" and is the chosen theme otherwise |
| ThemeToggle.Toggled | src/components/navigation/ThemeToggle.tsx:34-38 | a click picks an explicit theme opposite to the one shown |
| ThemeToggle.ToggleTwice | src/components/navigation/ThemeToggle.tsx:34-38 | two clicks show the same theme as before, now chosen explicitly |
| ThemeToggle.Title | src/components/navigation/ThemeToggle.tsx:79-82 | the title offers dark mode exactly while light is shown |
| ThemeToggle.IconOf | src/components/navigation/ThemeToggle.tsx:40-77 | the sun shows exactly while light is shown |
| ThemeToggle.TitleNamesToggle | src/components/navigation/ThemeToggle.tsx:34-38 | the title names the theme a click switches to (see also lines 79-82) |
| ThemeToggle.Toggle.constructor | src/components/navigation/ThemeToggle.tsx:6-15 | mounting takes the theme and the media query's answer |
| ThemeToggle.Toggle.SystemChanged | src/components/navigation/ThemeToggle.tsx:16-20 | a change of the system preference is recorded and the theme kept |
| ThemeToggle.Toggle.Clicked | src/components/navigation/ThemeToggle.tsx:34-38 | a click sets the toggled theme |
| RoleRoute.Decide | src/components/role-protected-route.tsx:45-81 | while Auth0 or the roles load the loader shows; then an authenticated user with a required role (or facing no required roles) sees the page, one without sees Access Denied, and an unauthenticated visitor sees the loader |
| RoleRoute.RolesMonotone | src/components/role-protected-route.tsx:53-58 | a user without roles passes only a page requiring none, and more roles never take access away |
| RoleRoute.RolesFrom | src/components/role-protected-route.tsx:27-33 | the roles are the token's roles claim; a missing claim or a failed token gives none |
| RoleRoute.Route.constructor | src/components/role-protected-route.tsx:20-21 | the route starts with no roles, loading them |
| RoleRoute.Route.RolesFetched | src/components/role-protected-route.tsx:23-43 | after the fetch the roles no longer load, and an authenticated user's roles are those of the token |
| SmsSettings.E164Digits | src/pages/settings/sms-settings-page.tsx:50 | an accepted phone number is a plus sign and 2 to 15 digits, the first not zero |
| SmsSettings.ErrorText | src/pages/settings/sms-settings-page.tsx:40 | an Error's own message is shown, and the handler's fallback text otherwise (see also lines 64, 82, 106, 122, 139, 156, 172) |
| SmsSettings.NotificationOn | src/pages/settings/sms-settings-page.tsx:149 | with no configuration or no notification flags every checkbox is off |
| SmsSettings.PhaseOf | src/pages/settings/sms-settings-page.tsx:207 | exactly one phase shows: set-up without a configuration, verification for an unverified one, settings for a verified one (see also lines 244, 307) |
| SmsSettings.ToggleUpdate | src/pages/settings/sms-settings-page.tsx:149-150 | a checkbox sends its type with the opposite of the value it shows |
| SmsSettings.ToggleFromNothing | src/pages/settings/sms-settings-page.tsx:149-150 | without notification flags a checkbox turns its flag on |
| SmsSettings.PhasesAfterHandlers | src/pages/settings/sms-settings-page.tsx:134 | after disabling the page is back at set-up; an unverified configuration asks for the code (see also lines 168, 207, 244) |
| SmsSettings.Page.constructor | src/pages/settings/sms-settings-page.tsx:14-25 | the page starts loading, with no configuration, message or input |
| SmsSettings.Page.LoadSettings | src/pages/settings/sms-settings-page.tsx:32-44 | a loaded configuration is stored and the error cleared; a failure keeps the configuration and shows its message; loading ends |
| SmsSettings.Page.PhoneTyped | src/pages/settings/sms-settings-page.tsx:20 | typing sets the phone number |
| SmsSettings.Page.CodeTyped | src/pages/settings/sms-settings-page.tsx:21 | typing sets the code |
| SmsSettings.Page.InitializeSms | src/pages/settings/sms-settings-page.tsx:46-68 | a number not in E.164 form shows the format error and calls nothing; otherwise the new configuration is stored and the code form shown with a success message, or the failure shown; saving ends |
| SmsSettings.Page.SendCode | src/pages/settings/sms-settings-page.tsx:70-86 | a sent code disables the send button and shows the success message; a failure shows its message; saving ends (see also line 270) |
| SmsSettings.Page.CooldownOver | src/pages/settings/sms-settings-page.tsx:80 | 60 seconds after a sent code the send button is enabled again |
| SmsSettings.Page.VerifyCode | src/pages/settings/sms-settings-page.tsx:88-110 | a code that is not six digits shows the format error and calls nothing; a verified code shows success, hides the form, empties the code and reloads the settings; a rejected code shows the failure |
| SmsSettings.Page.ConfirmRegenerateKey | src/pages/settings/sms-settings-page.tsx:112-126 | a regenerated key closes its dialog, shows success and reloads the settings; a failure shows its message |
| SmsSettings.Page.DisableSms | src/pages/settings/sms-settings-page.tsx:160-176 | a declined confirmation calls nothing; a disabled service leaves no configuration and no phone number, and only the reset dialog closes itself; a failure keeps both and shows its message (see also lines 128-143) |
| SmsSettings.Page.ToggleNotification | src/pages/settings/sms-settings-page.tsx:145-158 | the opposite flag is sent and the server's configuration stored with a success message; a failure shows its message |
| SmsSettings.Page.ShowVerification | src/pages/settings/sms-settings-page.tsx:254 | the code form opens |
| SmsSettings.Page.SetResetModal | src/pages/settings/sms-settings-page.tsx:260 | the reset dialog opens or closes (see also lines 296, 409) |
| SmsSettings.Page.SetRegenerateModal | src/pages/settings/sms-settings-page.tsx:339 | the regenerate dialog opens or closes (see also line 437) |
| TaskApi.ValueFor | src/services/task-api.ts:72-91 | a status or tag list is sent joined by commas when not empty; a string filter when not empty; the no-due-date flag as "true" when set |
| TaskApi.NonEmptyText | src/services/task-api.ts:78-89 | a string filter is sent exactly when it is present and not empty |
| TaskApi.ParamsFromCorrect | src/services/task-api.ts:71-92 | the parameters carry only filters with a value, each with its value, every such filter, in the fixed key order |
| TaskApi.TasksQuery | src/services/task-api.ts:71-92 | the query appended filter by filter holds every filter with a value, nothing else, each key once and in order |
| TaskApi.RequestFor | src/services/task-api.ts:93-117 | listing reads the collection with its query, a create posts to it, an update puts and a delete deletes at the task's own endpoint |
| TaskApi.TaskEndpointInjective | src/services/task-api.ts:107-114 | different tasks have different endpoints, none of them the collection's |
| TaskApi.RecentActivityRequest | src/services/task-api.ts:119-124 | the activity request reads with the limit, five by default |
| TaskApi.RecentActivityLimit | src/services/task-api.ts:119-124 | the endpoint carries the asked limit as its decimal digits |
| TaskApi.OutcomeOf | src/services/task-api.ts:36-56 | a failed response throws with the body's message (or "API request failed: " and the status text), its status, its error code and the body; 204 resolves to nothing; any other success to its JSON, or fails to read |
| TaskApi.UnreadableErrorBody | src/services/task-api.ts:39-45 | an error body that cannot be read gives the status text as the message, when there is one, and no error code |
| ThreadSidebar.ActivityLabelOf | src/components/tvagent/ThreadSidebar.tsx:159-175 | under an hour reads "just now", under a day whole hours ago, under a week whole days ago, and older (or an unreadable time) the local date; each count is the elapsed time floored |
| ThreadSidebar.DaysOfHours | src/components/tvagent/ThreadSidebar.tsx:163-164 | flooring to hours and then to days is flooring to days |
| ThreadSidebar.ActivityText | src/components/tvagent/ThreadSidebar.tsx:166-174 | hours read as the number then "h ago", days as the number then "d ago" |
| ThreadSidebar.LabelsOrdered | src/components/tvagent/ThreadSidebar.tsx:159-175 | older activity never shows fewer hours or days |
| ThreadSidebar.RemoveThreadCorrect | src/components/tvagent/ThreadSidebar.tsx:124 | a deleted thread's id leaves the list, and every other thread stays, as often as it was there |
| ThreadSidebar.ContentOf | src/components/tvagent/ThreadSidebar.tsx:219-231 | the body shows loading while loading, the empty notice for no threads, and otherwise the threads |
| ThreadSidebar.Sidebar.constructor | src/components/tvagent/ThreadSidebar.tsx:89-93 | the sidebar starts loading with no threads, nothing being deleted and the dialog closed |
| ThreadSidebar.Sidebar.DialogTitle | src/components/tvagent/ThreadSidebar.tsx:291 | the dialog names the pending thread's title, or nothing |
| ThreadSidebar.Sidebar.LoadThreads | src/components/tvagent/ThreadSidebar.tsx:96-108 | the list becomes the answered threads, or empty after a failure, and loading ends (see also lines 148-157) |
| ThreadSidebar.Sidebar.DeleteClicked | src/components/tvagent/ThreadSidebar.tsx:110-114 | the delete button opens the dialog for that thread |
| ThreadSidebar.Sidebar.DeleteConfirm | src/components/tvagent/ThreadSidebar.tsx:116-141 | with no pending thread nothing happens; a delete removes it from the list, closes the dialog and tells a listening parent; a failure alerts and keeps list and dialog; the deleting mark is cleared |
| ThreadSidebar.Sidebar.DeleteCancel | src/components/tvagent/ThreadSidebar.tsx:143-146 | cancelling closes the dialog and forgets the thread |
| TvAgentPage.Welcome | src/pages/tvagent-page.tsx:111-116 | the welcome is the assistant's greeting with no function named |
| TvAgentPage.SenderOf | src/pages/tvagent-page.tsx:66-73 | a stored message is the user's exactly when its role is "user" |
| TvAgentPage.HistoryFrom | src/pages/tvagent-page.tsx:66-73 | each stored message from a position on becomes one chat message, numbered from that position |
| TvAgentPage.History | src/pages/tvagent-page.tsx:63-78 | the i-th stored message becomes the message numbered i of the thread, with its text and function, the user's exactly for the role "user" |
| TvAgentPage.HistoryIdInjective | src/pages/tvagent-page.tsx:67 | different positions give different message ids |
| TvAgentPage.HistoryIdsDistinct | src/pages/tvagent-page.tsx:66-73 | a loaded history holds no two messages with the same id |
| TvAgentPage.AgentReply | src/pages/tvagent-page.tsx:245-277 | the assistant's message is the threaded reply; failing that the older reply, marked as the fallback when it names no function; failing both an apology with the older interface's error |
| TvAgentPage.ThreadAfter | src/pages/tvagent-page.tsx:256-258 | the active thread changes only to a threaded reply's thread, when none was active at the start or its id differs |
| TvAgentPage.ThreadAfterKeeps | src/pages/tvagent-page.tsx:256-258 | a reply never leaves the page without a thread it had, and a failed threaded send keeps the thread |
| TvAgentPage.WithTranscript | src/pages/tvagent-page.tsx:210 | a recognised phrase is the input when it was empty, and otherwise follows it after one space |
| TvAgentPage.ChatKey | src/pages/tvagent-page.tsx:283-288 | Enter without Shift sends |
| TvAgentPage.TitleKey | src/pages/tvagent-page.tsx:390-398 | Enter saves the title and Escape cancels |
| TvAgentPage.SavedTitleNotBlank | src/pages/tvagent-page.tsx:365-383 | a saved title is never blank |
| TvAgentPage.Page.constructor | src/pages/tvagent-page.tsx:22-39 | the page starts from the messages, thread and title carried by navigation, loading its history and not sending |
| TvAgentPage.Page.LoadThreadMessages | src/pages/tvagent-page.tsx:63-78 | a loaded history replaces the messages; a failure keeps them |
| TvAgentPage.Page.LoadActiveThread | src/pages/tvagent-page.tsx:93-135 | with messages and a thread already held (the navigation state mirrors them) the page is kept; otherwise the server's active thread shows with its title and history, and with none or a failure the welcome under the default title; the history load ends. This is one run of the effect; its re-runs when the navigation state's thread or message count changes (line 135) are not modelled, though each re-run behaves the same way |
| TvAgentPage.Page.ThreadSelected | src/pages/tvagent-page.tsx:137-149 | a selected thread becomes active with its title and history; a failure changes nothing |
| TvAgentPage.Page.NewThread | src/pages/tvagent-page.tsx:151-166 | a created thread becomes active with the default title and a new welcome; a failure changes nothing |
| TvAgentPage.Page.ThreadDeleted | src/pages/tvagent-page.tsx:168-190 | after a delete the server's active thread shows with its history, or no thread and a welcome under the default title; a failure changes nothing |
| TvAgentPage.Page.InputChanged | src/pages/tvagent-page.tsx:227 | typing sets the input |
| TvAgentPage.Page.BeginSend | src/pages/tvagent-page.tsx:227-244 | a blank input or a running send sends nothing; otherwise the user's message is appended, the input cleared and the send marked running (see also line 557) |
| TvAgentPage.Page.FinishSend | src/pages/tvagent-page.tsx:245-281 | exactly one assistant message is appended, the active thread follows a threaded reply, and the send ends |
| TvAgentPage.Page.TranscriptReceived | src/pages/tvagent-page.tsx:204-221 | a recognised phrase is added to the input |
| TvAgentPage.Page.MicrophoneClicked | src/pages/tvagent-page.tsx:339-349 | the microphone asks to start when idle and to stop while listening, only where recognition is supported |
| TvAgentPage.Page.ListeningChanged | src/pages/tvagent-page.tsx:204-221 | recognition's own start and end set the listening flag |
| TvAgentPage.Page.TitleEdit | src/pages/tvagent-page.tsx:360-363 | the editor opens on the current title |
| TvAgentPage.Page.TitleTyped | src/pages/tvagent-page.tsx:360-363 | typing sets the title input |
| TvAgentPage.Page.TitleSave | src/pages/tvagent-page.tsx:365-383 | without an active thread or with a blank title the editor only closes; a saved title is stored trimmed, the server's thread kept and the sidebar refreshed; a failure puts the old title back; the editor closes |
| TvAgentPage.Page.TitleCancel | src/pages/tvagent-page.tsx:385-388 | cancelling closes the editor on the current title |

## Left out

- Network, Auth0 and JWT decoding: every `fetch`/axios call is a request value the model builds plus an answer (`Retry.Answer`) the caller passes in; tokens and the decoded roles claim are inputs. Nothing in the model waits on a promise.
- Timers: the debounces, the 30-second undo expiry, the 60-second SMS cooldown and the retry delays are operations the caller runs when the time has passed. The 2-second clearing of the SMS success message (src/pages/settings/sms-settings-page.tsx:154) is not modelled.
- Clocks: "now" and "today" are parameters; a day is a civil date, and its weekday is computed from it.
- Locale formatting (`toLocaleDateString`, `toLocaleTimeString`, relative-time labels) is not modelled. Where a label is a locale string, the model keeps the value it is built from.
- Rendering, the DOM, CSS classes, focus moves after a key press, `scrollIntoView` and the speech-recognition object are left out; components are modelled by their state and the view choice they return.
- Fuse.js fuzzy matching behind the search bar is left out: the search bar's results are an input, and the model covers the query and dropdown state and how each match is shown.
- Window events (`taskUpdated`, `dashboardTabSwitch`, `navigateToWellnessTab`) are not modelled as listeners; the handler each one triggers is an ordinary operation.
- The chart in src/components/wellness/WellnessScoreChart.tsx is presentation only and is not part of this model; neither are the Python screenshot scripts.
- src/pages/tasks-page.tsx: the clean-up `fetchTasks` applies to the server's list (lines 83-111: drop entries without TaskId, default title, status and priority, tags as strings, an empty list on failure) is not modelled; the board starts from a list of well-formed tasks.
- src/pages/tasks-page.tsx: the 500 ms search debounce (113-122), `handleTaskUpdate` merging the server's copy (181-188), `handleDeleteTask` with its confirmation, delete and reload (190-199), and the distinct-tag list `allTags` (321-327) are not modelled.
- DependencyChecker: the HTTPS registry lookup, file reads and `process.exit` are inputs or left out. The per-package `catch` (scripts/dependency-checker.js:221-228) is never reached once lookups are inputs. The `outdated` list only feeds console output and is not modelled.
- EditTaskModal.ProcessTag: lower-casing covers ASCII letters only. JavaScript's `toLowerCase` also folds other scripts; the filter drops those letters anyway, except U+212A KELVIN SIGN (lower-cased to `k`) and U+0130 (lower-cased to `i` and a combining dot), which the source keeps as `k` and `i` and the model drops.
- Text.ToLower: ASCII letters only, for the same reason.
- CivilDate.DateStringDay: reads only the ISO shapes the server sends (`YYYY-MM-DD` with an optional time part), in UTC; other strings `Date` would accept yield no day.
- OpenOverdueTile.DueDay: ISO day strings only, with no local time-zone shift.
- Tasks.SortByDueDate: `localeCompare` is modelled as the same code-point order as `<`, which agrees with it on ISO day strings.
- Text.StrLess: compares Unicode scalar values; JavaScript's `<` compares UTF-16 code units. The two orders agree except between a character above U+FFFF and one in U+E000..U+FFFF; the strings compared here (ISO days, ids) are ASCII.
- SearchBar.TruncateText: cuts after a number of Unicode scalar values, while `substring` cuts after UTF-16 code units; a text with characters above U+FFFF is cut later than in the source, and a cut inside a surrogate pair cannot be represented.
- ExpandableDescription.PreviewText: cuts by Unicode scalar values, as SearchBar.TruncateText does, for the same reason.
- Tasks.PracticeInstance: includes `journal`, which the server sends and the page reads but src/types.ts does not declare.
- TaskApi.QueryText: parameters are joined as they are; the percent-encoding `URLSearchParams` applies is left out.
- RoleRoute.RolesFrom: the roles claim is taken to be a list of strings; a claim of another JSON type is not modelled.
- EditTaskForm.Form.constructor: a task whose due date does not parse makes the source throw; the model leaves the form in its initial empty state in that case.
- WellnessPage.Page.HandlePracticeUpdate: after every practice update that reaches the score reload, the page sets last week's score from the second score entry (src/pages/wellness-page.tsx:142-145), whereas the load uses the previous week's entry (line 91); both rules are modelled as written.
- ThreadSidebar.Sidebar.LoadThreads: starts from the settled answer; the brief `loading = true` state before the request is not modelled.
- TvAgentPage: message timestamps, the task data shown under replies (`renderTaskData`) and scrolling are left out. The default conversation title is a parameter: the source builds it as "Conversation <date> <time>" from the clock with `toLocaleDateString` and `toLocaleTimeString` (src/pages/tvagent-page.tsx:351-356), which is locale formatting.
- ScheduledTasks and UpcomingTasksList: the reload after a save is not awaited in the source; the model runs it as the next step.
- WellnessStatusWidget: the localised week label is left out; the week start it is built from is kept.
- WellnessPage.Page.LoadWellnessData: a week starting in the first week of year 1 or in year 9999 is treated like one that does not read as a date, because ISO day strings are modelled for years 1 to 9999 and the load also needs the week before and the week's last day.
- WellnessPage: the shared error context's `clearError` calls (src/pages/wellness-page.tsx:68, 286) are left out; that context belongs to the app shell.
- WellnessPage.CountsOf: takes the count of the MIT slices without first sorting by priority. Only the slice lengths are used, and sorting does not change a length.
- WellnessPage.RequestRange: assumes the browser's local zone is UTC. The source takes the week's last day at local midnight and prints it with `toISOString` (UTC), so east of UTC the range ends a day early.
- WellnessPage.PreviousWeek: assumes the local zone is UTC, for the same reason as WellnessPage.RequestRange; east of UTC the source looks up the Sunday before the previous week's Monday.
- WellnessPage.Page.LoadWellnessData: its request is WellnessPage.RequestRange, with the same UTC assumption.
- WellnessPage.Page.NavigateWeek: assumes the local zone's date at noon equals the New York date the source prints the new week with; far east of New York (UTC+12, say) the source lands on a different Monday.
- WellnessTrackerGrid.GetWeekDates: assumes the local zone is UTC; the source builds the days at local midnight and prints them with `toISOString`.
- TaskOverviewSummary.WeekDateRangeCorrect: assumes the local zone is UTC; the range is computed on local dates and printed in UTC.
- WellnessStatusWidget.GetDateInfoCorrect: assumes the local date is the UTC date that `toISOString` prints.
- WellnessPromptTile.StatusOf, WellnessPromptTile.StatusOfCorrect, WellnessPromptTile.TodayInRange and WellnessPromptTile.RequestRange: assume that the New York day (the week start), the local day (the week end, set with `setDate` and printed with `toISOString`) and the UTC day (`todayStr`) are one day (src/components/WellnessPromptTile.tsx:54-64). West of UTC in the evening (from 20:00 in New York in summer) the UTC day is already tomorrow, so the source counts tomorrow's practices as today's, while the model's single `today` is the user's own day.
- DependencyChecker.CheckDependency: uses the corrected AssessUpdateSafety (see "## Findings"). The source calls the cascade as written, which returns a risk of NaN for a minor-version jump; the model returns the intended risk. Whether an update is safe, and the list of reasons, agree under both.
- DependencyChecker.ComponentValue: reads plain decimal pieces only. `Number` also accepts surrounding spaces, exponents (`1e2`), `0x`/`0o`/`0b` prefixes, a sign and a fraction; such a piece reads as 0 here.
- WellnessPromptTile.WeekStartNotAfter: proved from year 1001 on. Below year 1000 `getWeekStart` prints an unpadded year, and the week start no longer sorts as a four-digit ISO day.
- WellnessPage.Page.NavigateWeek: needs a week from year 3 on (WellnessPage.Navigable), so that the week before and its Monday stay inside the modelled calendar.
- Tasks.WeeklyWellnessScore: the score is an integer; the server's number could carry a fraction.
- EditTaskForm.Merge: a key present in the defaults with the value `undefined` overrides the base in the source. The patch model cannot tell such a key from an absent one, so the base value is kept.
- ThemeToggle: the component reads `theme` and `setTheme` from `useTheme()`, but src/contexts/theme-context.tsx:3-6 provides only `isDarkMode` and `toggleDarkMode`. The model follows the component's own reading of the context (a chosen theme with a setter), not what the undefined values do when the app runs.
- RecentActivityFeed.ElapsedSince: the timestamp is an integer millisecond count, so the model assumes a readable timestamp; one that `new Date` cannot read makes the source's minute count NaN and shows "NaNd ago" (src/components/RecentActivityFeed.tsx:155-169).

## Findings

| source | as written | input that shows it | evidently intended | confidence | as-written member | corrected member |
|---|---|---|---|---|---|---|
| scripts/dependency-checker.js:140-143 | a minor-version jump sets the risk to `Math.max` of two risk strings, which is `NaN` | a package that is neither critical nor blocked, updated from 1.0.0 to 2.5.0: the major jump sets high, then the minor check turns it into `NaN` | the higher of the current level and medium, so high stays high | not executed | DependencyChecker.MinorJumpYieldsNaN | DependencyChecker.RiskIntendedSound |
| src/components/TaskOverviewSummary.tsx:74-76 | the mount effect's `fetchTaskSummary()` call sits inside a line comment, so mounting requests nothing and the widget stays on its loading view | any mount | one summary request on mount | not executed | TaskOverviewSummary.TaskOverviewWidget.constructor | TaskOverviewSummary.TaskOverviewWidget.Mounted |
