# RePlan schedule engine in Dafny

RePlan builds a person's daily schedule from a questionnaire profile. This
project models and proves properties of the core of that engine:

- **Onboarding** (`onboarding.dfy`, class `OnboardingPage`): an eight-step
  questionnaire. Each step is gated by `canProceed`. The last step
  assembles a `UserProfile`. The weekly exercise count and the chosen
  exercise days are kept consistent.
- **Time blocks** (`templates.ts`, `templates.dfy`): conversions between
  "HH:MM" strings and minutes, block lengths across midnight, the
  splitting of work periods around breaks, and `generateTimeBlocks`.
  `generateTimeBlocks` turns a profile into the day's blocks: wake,
  breakfast, the office, shift, student, freelancer or default day,
  exercise, dinner, the free evening and sleep, sorted by start time.
- **Planner** (`planner.ts`, `planner.dfy`):
  - `autoAssignTodosToBlocks` normalises the to-dos, sorts them by
    priority then duration, and on a bad day moves the long ones last. It
    places each to-do in the first (high or medium priority) or last (low
    priority) candidate block where it fits, merges the blocks back by id,
    and reports what did not fit. The merge by id loses to-dos when two
    blocks share an id (see "Findings"); `AutoAssignByOrigin` is the
    corrected assignment, which merges each candidate back into the block
    it was copied from.
  - `suggestAlternativeForBlock` greedily picks the to-dos that fit into
    one block, with a shortened fallback.
- **Wellness tips** (`wellness.ts`, `wellness.dfy`): the daily hash, which
  mixes the date with a 32-bit JavaScript string hash of a seed, picks one
  tip per block and per day.
- **To-do editing** (`TodoInput.tsx`, `todo_input.dfy`): update, remove,
  add, toggle, the overflow flag and `formatDuration`.
- **Shared helpers**:
  - `strings.dfy`: decimal digits, padding, trimming and JavaScript
    truthiness;
  - `sorting.dfy`: JavaScript's stable `Array.prototype.sort`, modelled as
    a stable insertion sort by an integer pair key;
  - `profile.dfy`: the profile and block records, the weekday helpers and
    the half-hour time options.

Randomness, the clock and the network are parameters here:

- the random to-do ids come from an `IdSource`, a stamp standing for the
  clock and the random suffix: a block's empty to-do gets the stamp and
  the block's id, and the planner's `idx`-th to-do the stamp and `idx`;
  the to-do input takes its fresh id as `freshId`;
- today's date is a `CalendarDate` and today's weekday a `Weekday`.

A tip is identified by its pool and index (`TipRef`) rather than by its
text.

## Model

| member | source | states |
|---|---|---|
| Strings.Pad2 | src/lib/templates.ts:15 | `padStart(2, '0')` of a number below 100 gives two digits whose value is the number |
| Strings.NatToString | src/components/TodoInput.tsx:197 | the decimal rendering of a natural number is a non-empty digit string with no leading zero |
| Strings.ParseNatToString | src/components/TodoInput.tsx:197-200 | reading back the decimal rendering gives the number again |
| Strings.NatToStringInjective | src/components/TodoInput.tsx:197-200 | different numbers render differently |
| Strings.IntToString | src/components/TodoInput.tsx:197 | the rendering of an integer is non-empty and starts with a minus sign exactly when the integer is negative |
| Strings.Trim | src/lib/planner.ts:19 | `trim()` drops exactly the leading and trailing whitespace and is empty iff the text is all whitespace |
| Strings.TrimEmptyIffBlank | src/lib/planner.ts:57 | the `t.text.trim()` filter removes exactly the blank to-dos |
| Sorting.SortBy | src/lib/planner.ts:26-34 | the sort is a permutation of its input, ordered by the key |
| Sorting.SortByStable | src/lib/planner.ts:50-53 | the sort is stable: items with equal keys keep their relative order |
| Sorting.SortByUnique | src/lib/planner.ts:50-53 | any ordered list with the same items per key, in the same order, is the stable sort's result |
| Profile.TodayWeekday | src/types/profile.ts:238-241 | `getTodayWeekday` maps day number 0..6 (Sunday first) to the weekday with that index |
| Profile.TodayWeekdayOfIndex | src/types/profile.ts:238-241 | the weekday table is a bijection with 0..6 |
| Profile.IsExerciseDay | src/types/profile.ts:243-247 | inactive: never; no days chosen: every day; otherwise exactly the chosen days |
| Profile.TimeOptions | src/types/profile.ts:220-225 | there are 48 time options |
| Templates.TimeOptionsAreHalfHours | src/types/profile.ts:220-225 | option i is the valid time i*30 minutes after midnight |
| Templates.TimeOptionsAscending | src/types/profile.ts:220-225 | the options strictly ascend and are distinct |
| Templates.TimeToMinutes | src/lib/templates.ts:5-8 | a valid "HH:MM" converts to a minute of the day below 1440 |
| Templates.TimeToMinutesParts | src/lib/templates.ts:5-8 | the hours and minutes are recovered by division and remainder by 60 |
| Templates.JsRem | src/lib/templates.ts:12 | JavaScript's `%` truncates toward zero: the result has the dividend's sign and magnitude below the divisor |
| Templates.NormalizeMinutes | src/lib/templates.ts:12 | `((m % 1440) + 1440) % 1440` is the mathematical remainder of m by 1440 |
| Templates.MinutesToTime | src/lib/templates.ts:11-16 | the result is a valid time whose minute of day is m modulo 1440, negatives included |
| Templates.TimeRoundTrip | src/lib/templates.ts:5-16 | `minutesToTime(timeToMinutes(t)) == t` for every valid time |
| Templates.BlockDuration | src/lib/templates.ts:19-24 | the length is in 1..1440 and leads from the start to the end around the clock |
| Templates.SameTimeIsFullDay | src/lib/templates.ts:19-24 | a block that ends when it starts lasts a whole day |
| Templates.DurationAfter | src/lib/templates.ts:19-24 | a block ending d minutes after its start (1..1440) lasts d |
| Templates.DurationBefore | src/lib/templates.ts:212 | a block starting d minutes before its end (1..1440) lasts d |
| Templates.EmptyTodo | src/lib/templates.ts:27-33 | a new to-do is empty, not completed, with the given id |
| Templates.EmptyTimeBlock | src/lib/templates.ts:36-55 | a fixed block gets no to-dos, a free one exactly one empty to-do; all given fields are kept |
| Templates.RelevantBreaks | src/lib/templates.ts:76-83 | exactly the break points strictly inside the period, in ascending time order |
| Templates.BreakBlock | src/lib/templates.ts:117-127 | a break block is fixed, starts at the break and ends its duration later modulo a day |
| Templates.SplitWorkBlock | src/lib/templates.ts:66-146 | the result is the split of the period: with no inner breaks, the single work block `work-<start>` spanning the period; otherwise the fixed blocks are exactly the break blocks of the inner breaks, in order, every other block is a work piece, and the first piece starts the period |
| Templates.SplitAt | src/lib/templates.ts:99-145 | the loop over the inner breaks computes exactly the recursive split: break blocks in order, a first work piece at the start of the period, every piece well formed |
| Templates.StepPieces | src/lib/templates.ts:103-127 | one or two blocks ending with the break block; a work piece comes first exactly when the break starts after the current start, and it runs from the current start to the break |
| Templates.LastPiece | src/lib/templates.ts:132-143 | a closing work piece exactly when the current start is before the end of the period, running from the current start to that end |
| Templates.SplitStep | src/lib/templates.ts:102-130 | one loop iteration appends exactly the step pieces; the next piece starts where the break ends, and the part number grows only when a work piece was emitted |
| Templates.SplitLast | src/lib/templates.ts:132-143 | the final step appends exactly the closing piece |
| Templates.SplitSpans | src/lib/templates.ts:99-145 | every work piece starts at the start of the period or where the break before it ends, and ends at the end of the period or where the break after it starts |
| Templates.SplitKinds | src/lib/templates.ts:66-146 | a split holds only work and break blocks |
| Templates.SplitWithoutBreaks | src/lib/templates.ts:85-96 | with no break strictly inside the period, the split is the single work block `work-<start>` from start to end |
| Templates.InnerPartLabel | src/lib/templates.ts:107 | parts 1..10 get the circled digit, as the last piece does; a later part whose position still falls inside the label text gets "undefined"; a part beyond it gets its number |
| Templates.LastPartLabel | src/lib/templates.ts:136 | the label is the base label and a space, then the circled digit for parts 1..10, else decimal digits that read back as the part |
| Templates.LastPartLabelInjective | src/lib/templates.ts:136 | different part numbers give different labels |
| Templates.BreakPointsOf | src/lib/templates.ts:155-178 | at most the two enabled breaks, as break-type points |
| Templates.WakeBlock | src/lib/templates.ts:180-189 | the wake block is a fresh fixed sleep-type block starting at the wake time |
| Templates.WakeBlockFacts | src/lib/templates.ts:180-189 | the wake block is fixed, of sleep type, and lasts 30 minutes from the wake time |
| Templates.MorningBlocks | src/lib/templates.ts:180-202 | the wake block first, then the breakfast block exactly when breakfast is enabled and timed |
| Templates.MorningPart | src/lib/templates.ts:180-202 | emits exactly those morning blocks |
| Templates.BreakfastBlock | src/lib/templates.ts:191-202 | breakfast is a fixed meal block at the breakfast time |
| Templates.CommuteToBlock | src/lib/templates.ts:212-221 | a fresh fixed commute block ending when office hours start and starting the commute minutes (30 when unset or 0) earlier, around the clock |
| Templates.CommuteToFacts | src/lib/templates.ts:210-219 | the commute ends when office hours start and lasts the commute minutes (30 when unset or 0) |
| Templates.CommuteFromBlock | src/lib/templates.ts:258-267 | the commute home is a fixed block starting when office hours end |
| Templates.OfficeDay | src/lib/templates.ts:207-268 | emits exactly the office plan: the commute, the morning split up to lunch, lunch, the afternoon split from the end of lunch, the commute home; all well formed, without exercise, starting with the commute |
| Templates.OfficePlanWithoutBreaks | src/lib/templates.ts:207-268 | with no break inside either half, the office day is exactly commute, morning work, lunch, afternoon work and commute home |
| Templates.ShiftHours | src/lib/templates.ts:269-287 | each shift's hours are valid times; an unset shift means the day shift 06:00-14:00 |
| Templates.WorkBlock | src/lib/templates.ts:87-95 | a fresh open work block with the given id, start and end |
| Templates.SelfStudyBlock | src/lib/templates.ts:327-335 | the open `self_study` work block starts when classes end and lasts 120 minutes |
| Templates.StudentPlan | src/lib/templates.ts:289-336 | the student day is well formed, without exercise, at least three blocks long, ends with self-study, and holds the lunch block exactly when lunch is enabled |
| Templates.StudentDay | src/lib/templates.ts:289-336 | emits exactly the student plan: the morning split to noon, lunch when enabled, the afternoon split from 13:00, self-study |
| Templates.StudentDayRepeatsId | src/lib/templates.ts:294-327 | with classes from 13:00 and no breaks, the first block and the one before self-study are both work blocks with the id `work-13:00` |
| Templates.LunchTimeOrNoon | src/lib/templates.ts:306-309 | lunch is at the set lunch time, or 12:00 when none is set |
| Templates.LunchBlock | src/lib/templates.ts:305-313 | a fresh fixed meal block at the given time |
| Templates.LunchPart | src/lib/templates.ts:345-355 | at most one block: the lunch block at the lunch time or noon, exactly when lunch is enabled |
| Templates.LunchBetween | src/lib/templates.ts:304-324 | between work and break blocks, the lunch block appears exactly when lunch is enabled |
| Templates.PeriodBlocks | src/lib/templates.ts:340-384 | emits exactly the blocks of one freelancer period, and none for a period not chosen |
| Templates.PeriodPartChosen | src/lib/templates.ts:340-384 | a period contributes blocks exactly when it is chosen |
| Templates.FreelancerDay | src/lib/templates.ts:337-384 | emits exactly the freelancer plan: the chosen periods in the order morning, lunch, afternoon, evening, night; well formed, without exercise |
| Templates.FreelancerDefaultPeriods | src/lib/templates.ts:338 | with no preferred periods, the day is the morning split 09:00-12:00, lunch when enabled, and the afternoon split 13:00-18:00 |
| Templates.DefaultDay | src/lib/templates.ts:385-418 | emits exactly the default plan: the morning activity, lunch when enabled, the afternoon activity; well formed, without exercise |
| Templates.LifestyleBlocks | src/lib/templates.ts:204-418 | emits exactly the lifestyle plan, which never holds an exercise block; an office day with hours holds the commute |
| Templates.ExerciseBlock | src/lib/templates.ts:421-437 | a fresh open exercise block at the exercise time, ending the duration (60 when unset or 0) later, whose type is the first chosen one, if any |
| Templates.ExerciseBlockFacts | src/lib/templates.ts:421-439 | the exercise block starts at the exercise time, lasts the duration (60 when unset or 0), is open for to-dos and takes the first exercise type |
| Templates.ExerciseBlocks | src/lib/templates.ts:420-439 | the exercise block, exactly when today is an exercise day and an exercise time is set |
| Templates.ExercisePart | src/lib/templates.ts:420-439 | emits exactly those exercise blocks |
| Templates.DinnerBlock | src/lib/templates.ts:442-452 | a fresh fixed meal block at the dinner time |
| Templates.DinnerBlocks | src/lib/templates.ts:441-452 | the dinner block, exactly when dinner is enabled and timed |
| Templates.DinnerPart | src/lib/templates.ts:441-452 | emits exactly those dinner blocks |
| Templates.EveningStart | src/lib/templates.ts:455-457 | an hour after the dinner time, around the clock, when one is set; else 20:00 |
| Templates.EveningFreeBlock | src/lib/templates.ts:459-467 | a fresh open free block from the evening start to bed time |
| Templates.EveningFreeFacts | src/lib/templates.ts:455-467 | the free evening ends at bed time and starts an hour after the dinner time when one is set, else at 20:00 |
| Templates.EveningBlocks | src/lib/templates.ts:454-478 | exactly two blocks: the free evening, then sleep |
| Templates.EveningPart | src/lib/templates.ts:454-478 | emits exactly those evening blocks |
| Templates.SleepBlock | src/lib/templates.ts:469-478 | the sleep block is a fresh fixed sleep-type block starting at bed time |
| Templates.SleepBlockFacts | src/lib/templates.ts:469-478 | the sleep block is fixed and lasts 30 minutes from bed time |
| Templates.SortByStart | src/lib/templates.ts:481 | the stable sort by start minute keeps exactly the emitted blocks and orders them by start |
| Templates.StartKeySorted | src/lib/templates.ts:481 | sorted by the key means ascending start minutes |
| Templates.GenerateTimeBlocks | src/lib/templates.ts:149-483 | the result is the stable sort by start time of the concatenated parts: it holds exactly their blocks, sorted by start; in particular wake, sleep and free evening, breakfast and dinner when enabled and timed, the commute on office days, and an exercise block exactly on exercise days with a time |
| Templates.DayPlanHolds | src/lib/templates.ts:180-478 | the unsorted day holds those same blocks |
| Templates.AvailableMinutes | src/lib/templates.ts:487-490 | a block's available minutes are in 1..1440 |
| Templates.TotalTodoDurationAppend | src/lib/templates.ts:492-495 | the total to-do duration adds up over concatenation |
| Templates.IsTimeOverflow | src/lib/templates.ts:497-500 | a block overflows exactly when its to-dos take longer than the block |
| Planner.Score | src/lib/planner.ts:10-14 | scores are 1..3, with 3 exactly for high and 1 exactly for low |
| Planner.NormalizeTodo | src/lib/planner.ts:16-24 | text trimmed, duration defaults to 30, priority to medium, not completed |
| Planner.NormalizeAll | src/lib/planner.ts:47 | every input is normalised with the id of its index |
| Planner.SortTodos | src/lib/planner.ts:26-34 | a permutation ordered by descending priority score, then by descending duration |
| Planner.Adjusted | src/lib/planner.ts:50-53 | the bad-day reordering is a permutation |
| Planner.BadDayPartition | src/lib/planner.ts:50-53 | on a bad day the to-dos under 60 minutes come first and the rest after, each group in its previous order |
| Planner.ShortOnes | src/lib/planner.ts:52 | exactly the to-dos under 60 minutes |
| Planner.LongOnes | src/lib/planner.ts:52 | exactly the to-dos of 60 minutes or more |
| Planner.NonEmpty | src/lib/planner.ts:57 | exactly the to-dos whose trimmed text is non-empty |
| Planner.Targets | src/lib/planner.ts:55-64 | the candidate blocks are, as a multiset, exactly the schedulable input blocks with their blank to-dos removed, sorted by start time |
| Planner.GeneratedCandidates | src/lib/planner.ts:36-40 | of the generated blocks, the free evening and the exercise block are candidates with no to-dos counted, while wake, sleep and the meals never are |
| Planner.FreshCandidateIsEmpty | src/lib/planner.ts:57 | a new open block loses its one empty to-do in the copy, so it starts with nothing used |
| Planner.FirstFitFrom | src/lib/planner.ts:76-86 | the first block from a position on where the to-do fits, or none if it fits nowhere there |
| Planner.LastFitBelow | src/lib/planner.ts:72-86 | the last block below a position where the to-do fits, or none |
| Planner.ForwardOfNormalized | src/lib/planner.ts:72 | a normalised to-do searches forward exactly when its priority is not low; one given without a priority is medium and searches forward |
| Planner.UsedGrowsByNeed | src/lib/planner.ts:78-82 | appending a to-do with a duration grows the used minutes by its need; one without a duration needs 30 but adds nothing, since the total counts `duration \|\| 0` |
| Planner.Chosen | src/lib/planner.ts:70-86 | high and medium to-dos take the earliest block that fits, low ones the latest; none exactly when no block fits |
| Planner.Place | src/lib/planner.ts:68-88 | a to-do is placed exactly when some block fits it |
| Planner.PlaceTodo | src/lib/planner.ts:69-88 | the inner loop computes exactly one placement |
| Planner.PlaceConserves | src/lib/planner.ts:81-88 | a placement adds exactly the placed to-do to the blocks |
| Planner.PlaceKeepsBlocks | src/lib/planner.ts:81-84 | a placement only appends to the chosen block's to-do list |
| Planner.PlaceRespectsCapacity | src/lib/planner.ts:77-84 | a block within its length stays within it |
| Planner.PlaceAll | src/lib/planner.ts:68-89 | the outer loop keeps the number of blocks and leaves at most the given to-dos over |
| Planner.PlaceEach | src/lib/planner.ts:66-89 | the loop computes exactly the placement of all to-dos in order |
| Planner.PlaceAllConserves | src/lib/planner.ts:66-89 | every to-do ends in exactly one block or in `remaining`, and nothing is lost |
| Planner.PlaceAllRespectsCapacity | src/lib/planner.ts:66-89 | blocks within their length stay within it |
| Planner.PlaceAllKeepsBlocks | src/lib/planner.ts:66-89 | only to-do lists change, and only by growing at their end |
| Planner.FindById | src/lib/planner.ts:93 | `find` by id returns the first block with that id, or none |
| Planner.MergeById | src/lib/planner.ts:92-95 | each block keeps its fields and takes the to-dos of the first candidate with its id; others are unchanged |
| Planner.AdviceFor | src/lib/planner.ts:97-100 | the all-placed advice exactly when nothing remains, else the count of what remains |
| Planner.AutoAssign | src/lib/planner.ts:42-103 | the updated blocks, the remaining to-dos and the advice are the composition of the steps above |
| Planner.NonCandidatesUntouched | src/lib/planner.ts:92-95 | with distinct ids, every non-candidate block is returned unchanged |
| Planner.SortedCandidates | src/lib/planner.ts:55-64 | the candidates tagged with the input position they were copied from; without the tags they are the candidate blocks |
| Planner.SortedCandidatesFacts | src/lib/planner.ts:55-64 | every tag is distinct and names a schedulable input block equal to the candidate's source, and every schedulable input block is tagged once |
| Planner.MergeByOrigin | src/lib/planner.ts:92-95 | each block keeps all fields but its to-dos, takes the to-dos of the candidate copied from it, and is unchanged when it was not copied |
| Planner.MergeByOriginConserves | src/lib/planner.ts:66-95 | written back by origin, every to-do of the candidates and every input to-do ends in a schedulable block or in `remaining`, exactly once |
| Planner.MergeByOriginKeepsBlocks | src/lib/planner.ts:76-95 | written back by origin, a schedulable block within its length stays within it and a non-candidate block is unchanged |
| Planner.MergeByIdIsByOrigin | src/lib/planner.ts:92-95 | with distinct block ids, the write-back by id is the write-back by origin |
| Planner.AutoAssignKeepsTodos | src/lib/planner.ts:42-103 | with distinct block ids, the updated blocks and the remaining to-dos hold every input to-do exactly once, blocks within their length stay within it, and non-candidates are unchanged |
| Planner.SharedIdLosesTodo | src/lib/planner.ts:92-95 | two empty candidates with one id and one start: a low to-do goes to the second, nothing remains and the advice says all was placed, yet the write-back by id leaves no to-do while the write-back by origin keeps it |
| Planner.StudentTwinsLoseTodo | src/lib/planner.ts:92-95 | the two `work-13:00` blocks of a student day with classes from 13:00 lose a low to-do that fits the afternoon, though none remains |
| Planner.AutoAssignByOrigin | src/lib/planner.ts:42-103 | the corrected assignment: for any block ids, every input to-do ends in exactly one schedulable block or in `remaining`, blocks within their length stay within it, non-candidates are unchanged, and the advice counts what remains |
| Planner.AutoAssignConserves | src/lib/planner.ts:42-103 | every normalised input to-do ends in a candidate block or in `remaining`, exactly once |
| Planner.NormalizedInputs | src/lib/planner.ts:16-24 | every to-do placed by the loop has a duration and a priority |
| Planner.Alternative | src/lib/planner.ts:105-134 | the suggestion is empty exactly when the block has no non-blank to-do |
| Planner.AltCandidates | src/lib/planner.ts:113-117 | all to-dos, or on a bad day only the high ones, or else just the first |
| Planner.HighOnes | src/lib/planner.ts:115 | exactly the high-priority to-dos |
| Planner.Picked | src/lib/planner.ts:124 | a picked to-do keeps its text, needs its duration (30 by default) and keeps its priority |
| Planner.GreedyWithinRoom | src/lib/planner.ts:119-127 | the greedy pick never exceeds the room |
| Planner.GreedySubsequence | src/lib/planner.ts:119-127 | the greedy pick is a subsequence of the candidates, in order |
| Planner.GreedyEmptyIffNothingFits | src/lib/planner.ts:119-127 | nothing is picked exactly when no single candidate fits |
| Planner.GreedyPick | src/lib/planner.ts:119-127 | the loop computes exactly the greedy pick |
| Planner.SuggestionFor | src/lib/planner.ts:136-139 | the rest-first suggestion exactly on a bad day |
| Planner.Reduced | src/lib/planner.ts:129-134 | the fallback marks the text as shortened and caps its duration at the block length |
| Planner.SuggestAlternative | src/lib/planner.ts:105-142 | the suggestion and the modified to-dos are the specified alternative |
| Planner.FallbackFillsBlock | src/lib/planner.ts:129-134 | when nothing fits, the single fallback takes the whole block, at least one minute |
| Planner.AlternativeFits | src/lib/planner.ts:105-142 | the alternative never needs more than the block's length |
| Wellness.ToInt32 | src/lib/wellness.ts:152 | `\|= 0` yields the 32-bit signed integer congruent to its input modulo 2^32 |
| Wellness.ToInt32Congruent | src/lib/wellness.ts:151-152 | congruent inputs wrap to the same value |
| Wellness.CharCode | src/lib/wellness.ts:152 | a character code is below 0x110000 |
| Wellness.HashStep | src/lib/wellness.ts:152-153 | one step of the seed hash is a 32-bit signed integer |
| Wellness.HashStepIsWrapOf31 | src/lib/wellness.ts:152-153 | `((h << 5) - h) + c`, wrapped, is 31*h + c wrapped |
| Wellness.SeedHash | src/lib/wellness.ts:149-153 | the seed hash is a 32-bit signed integer |
| Wellness.DayHash | src/lib/wellness.ts:148 | for a valid date, the year, month and day are recovered from the day hash by its decimal digits |
| Wellness.DayHashInjective | src/lib/wellness.ts:148 | distinct calendar dates give distinct day hashes |
| Wellness.DailyIndex | src/lib/wellness.ts:146-156 | the index is within the pool |
| Wellness.ComputeDailyIndex | src/lib/wellness.ts:146-156 | the hash loop computes the daily index, within the pool |
| Wellness.PoolSize | src/lib/wellness.ts:15-139 | a pool holds at most five tips, and only the normal menstrual pool is empty |
| Wellness.PickTip | src/lib/wellness.ts:158-162 | no tip exactly for an empty pool, otherwise the tip at the daily index |
| Wellness.ParseIntOfDigits | src/lib/wellness.ts:182 | `parseInt` of a digit string is its decimal value |
| Wellness.ParseIntOfIntToString | src/lib/wellness.ts:182 | `parseInt` reads back the decimal rendering of every integer, sign included |
| Wellness.BeforeColon | src/lib/wellness.ts:182 | the text before the first colon, or all of it |
| Wellness.StartHourOfValidTime | src/lib/wellness.ts:182 | the parsed start hour of a valid time is its minute of day divided by 60 |
| Wellness.PoolFor | src/lib/wellness.ts:172-200 | the pool chosen per block type and id, never empty |
| Wellness.WellnessTip | src/lib/wellness.ts:167-204 | every block gets a tip from its pool at the daily index of its id |
| Wellness.WorkTipMorningIffBeforeNoon | src/lib/wellness.ts:181-185 | a work block gets a morning tip exactly when it starts before 12:00 |
| Wellness.DailyWellnessSummary | src/lib/wellness.ts:209-233 | a condition tip always, and a menstrual tip exactly for a menstrual state other than normal |
| Wellness.AssignWellnessTips | src/lib/wellness.ts:234-241 | every block keeps all fields but its tip, which comes from its pool |
| TodoInput.ApplyPatch | src/components/TodoInput.tsx:19 | the spread keeps each field the patch leaves out and takes each one it gives |
| TodoInput.ApplyEmptyPatch | src/components/TodoInput.tsx:19 | an empty patch changes nothing |
| TodoInput.UpdateTodo | src/components/TodoInput.tsx:18-20 | the to-dos with the id are patched, all others unchanged |
| TodoInput.WithoutId | src/components/TodoInput.tsx:24 | exactly the to-dos with another id remain |
| TodoInput.RemoveTodo | src/components/TodoInput.tsx:22-29 | with one to-do or none, the list becomes one empty to-do; otherwise those with the id are dropped |
| TodoInput.RemoveTodoNeverEmpty | src/components/TodoInput.tsx:22-29 | with distinct ids the list never becomes empty, and removing a present id drops exactly one to-do |
| TodoInput.AddTodo | src/components/TodoInput.tsx:31-33 | one empty to-do is appended and the rest kept |
| TodoInput.FirstIndex | src/components/TodoInput.tsx:36 | the position of the first to-do with the id, or none exactly when no to-do has it |
| TodoInput.FindTodo | src/components/TodoInput.tsx:36 | `find` returns the first to-do with the id, or none |
| TodoInput.ToggleComplete | src/components/TodoInput.tsx:35-37 | to-dos with the id get the negated completion of the first such to-do; others unchanged |
| TodoInput.ToggleFlips | src/components/TodoInput.tsx:35-37 | with distinct ids, the toggled to-do's completion flips |
| TodoInput.ToggleTwice | src/components/TodoInput.tsx:35-37 | toggling twice restores the completion |
| TodoInput.IsOverflow | src/components/TodoInput.tsx:15-16 | overflow exactly when a limit is given and the total duration exceeds it |
| TodoInput.AddTodoKeepsOverflow | src/components/TodoInput.tsx:15-16 | adding an empty to-do never changes the overflow flag |
| TodoInput.FormatDuration | src/components/TodoInput.tsx:196-201 | under an hour as minutes; whole hours as hours; otherwise hours then minutes |
| TodoInput.ParseFormatDuration | src/components/TodoInput.tsx:196-201 | the formatted text determines the number of minutes: it reads back to the same value for every integer |
| Onboarding.Without | src/app/onboarding/page.tsx:195 | removing a day keeps the other days and keeps them distinct |
| Onboarding.WithoutPresent | src/app/onboarding/page.tsx:195 | removing a chosen day shortens a distinct list by one |
| Onboarding.AssembleLifestyle | src/app/onboarding/page.tsx:130-141 | office hours and commute only for office types, shift only for shift work, class hours and free days only for students, work hours only for freelancers |
| Onboarding.AssembleExercise | src/app/onboarding/page.tsx:153-162 | the exercise details are present exactly when one exercises; types only when some were chosen |
| Onboarding.Assemble | src/app/onboarding/page.tsx:127-172 | menstrual tracking only for women, weekend times only when different, only enabled breaks and routines |
| Onboarding.CompletedExerciseDays | src/app/onboarding/page.tsx:103-106 | a completed profile's exercise days are exactly the chosen days |
| Onboarding.DefaultFormTimesValid | src/app/onboarding/page.tsx:51-94 | every time in the default form is a valid "HH:MM", so a profile assembled from it meets the time functions' demands |
| Onboarding.OnboardingPage.constructor | src/app/onboarding/page.tsx:51-94 | the page starts at step 1 with nothing chosen, three exercises a week on Monday, Wednesday and Friday |
| Onboarding.OnboardingPage.CanProceed | src/app/onboarding/page.tsx:96-120 | each step's gate, including the shift question for shift workers and the non-empty days for those who exercise |
| Onboarding.OnboardingPage.Next | src/app/onboarding/page.tsx:122-176 | one step forward, or on the last step the assembled profile, whose chosen days number 1..weekly count |
| Onboarding.OnboardingPage.Back | src/app/onboarding/page.tsx:178-182 | one step back, never below step 1 |
| Onboarding.OnboardingPage.WeeklyCountChange | src/app/onboarding/page.tsx:185-191 | the count is set and the chosen days are cut to its first `count` |
| Onboarding.OnboardingPage.ExerciseDayToggle | src/app/onboarding/page.tsx:193-199 | a chosen day is removed; another is appended only below the weekly count |
| Onboarding.OnboardingPage.SetGender | src/app/onboarding/page.tsx:52 | the gender answer of step 1 |
| Onboarding.OnboardingPage.SetLifestyleType | src/app/onboarding/page.tsx:56 | the lifestyle answer of step 2 |
| Onboarding.OnboardingPage.SetShiftType | src/app/onboarding/page.tsx:63 | the shift answer of step 3 |
| Onboarding.OnboardingPage.SetExerciseActive | src/app/onboarding/page.tsx:81 | the exercise answer of step 6 |
| Onboarding.OnboardingPage.SetForm | src/app/onboarding/page.tsx:53-92 | any other form input |

Every method of `OnboardingPage` also preserves `Valid()`. `Valid()`
requires all of the following:

- the step is in 1..8;
- the weekly count is in 1..5;
- the chosen days are distinct and no more than the weekly count;
- every step already passed was answered.

## Left out

- Saving the profile, navigation, login redirects, persistence and the
  network are not modelled. The `saveProfile` and `router.push` calls in
  `handleNext` are among them. `Next` returns the assembled profile
  instead.
- The JSX rendering, styling and notification code are not modelled.
- Random ids and the current date are parameters:
  - the ids from `Date.now()` and `Math.random()` are built from an
    `IdSource` stamp, or passed in as `freshId`. One stamp serves a whole
    call, so the model's ids differ by block id or index, not by a
    random draw;
  - `new Date()` is a `CalendarDate` or a `Weekday` passed in.
- Tip texts and icons are not modelled. A tip is its pool and index, and
  the pool sizes are the source's.
- `timeToMinutes` of a malformed time yields NaN in JavaScript. Here the
  time functions require a valid "HH:MM" with hours below 24. Each place
  that handles a stored profile takes its times as valid.
- Templates.SameTimeIsFullDay: the code tests `end <= start` and adds
  1440, so a block that ends when it starts lasts a whole day.
- Wellness.CharCode: a character's code is its Dafny `char` value, so
  characters outside the Basic Multilingual Plane, which JavaScript counts
  as two UTF-16 units, are not modelled.
- Wellness.DailyIndex requires a non-empty pool. The source only calls it
  after `pickTip` has excluded the empty pool, which yields NaN.
- Wellness.ParseInt models leading whitespace, the sign, the `0x` prefix
  and the leading digits with exact integers. Doubles that lose precision
  on very long digit strings are not modelled.
- TodoInput.FormatDuration takes integer minutes. Fractional minutes are
  not modelled.
- Planner.NonCandidatesUntouched, Planner.AutoAssignKeepsTodos and
  Planner.MergeByIdIsByOrigin need distinct block ids. With duplicate ids
  the merge by id gives every block of an id the to-dos of the first
  candidate with that id, which `MergeById` states and the finding below
  shows losing a to-do.
- TodoInput.RemoveTodoNeverEmpty needs distinct to-do ids. With several
  to-dos sharing the removed id, the filter can empty the list.
- TodoInput.ToggleFlips needs distinct ids. With repeated ids every copy
  gets the negation of the first copy's state, which `ToggleComplete`
  states.
- Onboarding.OnboardingPage.SetForm stands for the many plain form
  setters. The setters for gender, lifestyle, shift and exercise require
  the step on which the page shows them.
- Onboarding.OnboardingPage.WeeklyCountChange requires a count in 1..5,
  the `WeeklyExerciseCount` type of the source.
- Onboarding.OnboardingPage.Next requires `CanProceed()`, because the
  button that calls `handleNext` is disabled otherwise.
- The weekend times, meals and routines keep the shapes the form gives
  them. Their sub-fields are passed through uninterpreted.

## Findings

| source | as written | input that shows it | evidently intended | confidence | as-written member | corrected member |
|---|---|---|---|---|---|---|
| src/lib/planner.ts:92-95 | each input block takes the to-dos of the first candidate with the same id, so blocks sharing an id all get the first one's list | the two blocks with the id `work-13:00` that a student day with classes from 13:00 to 18:00 and no breaks produces (morning 13:00-12:00, afternoon 13:00-18:00), passed as the block list with one low-priority 240-minute to-do: the to-do is placed in the afternoon block, nothing remains, the advice says everything was placed, and both blocks come back without it | each block takes the to-dos of the candidate copied from it, so every to-do ends in exactly one block or in the remaining list | not executed | Planner.SharedIdLosesTodo | Planner.AutoAssignByOrigin |
