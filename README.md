# GymBuddy core, modelled in Dafny

GymBuddy is an iOS workout app. A user keeps workout plans made of exercises
and runs a plan set by set, with a rest timer between sets. A lock-screen
entry and a (German or English) voice coach follow the workout. This project
models the app's logic: everything that is not SwiftUI rendering.

- **Workout engine.** `Session` holds the `WorkoutSession` value and its
  derived quantities. `SessionManager` holds the state machine that drives the
  session: start, complete a set, rest, tick, skip, cancel, finish, and the
  deferred dismissal. `LegacySessionManager` is the earlier manager variant.
  Traversal lemmas show that alternating set completion with the end of the
  rest visits every (exercise, set) pair once, in lexicographic order. The
  workout is then `completed` after exactly the sum of `sets` completions.
- **Plans and exercises.** `Exercises` holds the exercise and definition
  records, their vocabularies and formatters. `Store` holds SwiftData's model
  context and the plan object. `ExerciseManagement` holds the exercise
  manager: cache, search, create, add, update, remove, reorder, delete and
  counts. `PlanEdit` holds the plan editor's add, delete and move.
  `ExercisePicker` holds the picker's filter, selection and emitted list.
- **Seeding.** `ExerciseSeed` holds the sixty-entry built-in library and its
  one-time seeding. `PlanSeeding` holds the clean-up of invalid and duplicate
  plans and the idempotent creation of the Push, Pull and Legs plans.
- **Audio cache.** `AudioCache` models a content-addressed directory of MP3
  files. The key is the lowercase hex of the SHA-256 digest of the text's UTF-8
  bytes, followed by `.mp3`.
- **Settings.** `Settings` holds `AppSettings`: decoding the user-defaults
  store with per-field fallbacks, the write-back of every setter, the API key
  in the keychain, and the voice list.
- **Formatters and small screens.** These are `NowPlaying` (the lock-screen
  fields), `RestTimer` (the rest bar and the rest screen), `VoiceSelection`,
  `ElevenLabsVoices`, `StartScreen` (plan icons, muscle summary, card tap) and
  `Theme` (the `Color(hex:)` parser).

Helper modules:
- `Wrappers` holds `Option`.
- `Text` holds the string functions the Swift standard library provides:
  lowercasing, `contains`, integer printing and parsing, and zero padding.
- `Lists` holds the sequence operations: a stable sort by a strict weak order,
  filter, first match, remove-at, `move(fromOffsets:toOffset:)`, and
  subsequences.

Modelling conventions:
- Objects that the app mutates in place are classes:
  - the session managers;
  - `WorkoutPlan` and `ModelContext`;
  - the exercise manager and the plan editor;
  - the settings, audio cache and now-playing services;
  - the screens' state.
- Values are datatypes: `WorkoutSession`, `Exercise`, `ExerciseDefinition`,
  the seeds and the now-playing dictionary.
- A `UUID` is a natural number handed out by the model context.
- A weight in kilograms is an integer number of tenths of a kilogram.
- Swift's truncating `/` and `%` are written out as `Text.Quot` and
  `Text.Rem`.
- Timers are handles. A tick of a live timer is an event method.
- Speech, haptics and outward calls are recorded as sequences or counters.

## Model

The table lists every member that carries a contract. A function without one
(for instance `StartScreen.IconFor`, `VoiceSelection.VoiceDescription` or the
settings' display names) is described by the lemma rows that cite the same
source lines, such as `StartScreen.IconIsFirstMatchingBranch`,
`VoiceSelection.SeparatorPosition` and `Settings.EnumerationLabelsDistinct`.

| member | source | states |
|---|---|---|
| Session.NewSession | GymBuddy/Models/WorkoutSession.swift:12-22 | the memberwise initialiser stores the given plan, state, index, set and rest; `originalRestDuration` is 0 and `endTime` is nil |
| Session.NewSessionDefaults | GymBuddy/Models/WorkoutSession.swift:13-22 | default construction is active at index 0, set 1, with rest 0, original rest 0 and no end time |
| Session.SortByOrder | GymBuddy/Models/WorkoutSession.swift:68-71 | the sorted exercises are a permutation of the plan's exercises, in nondecreasing `orderIndex` |
| Session.SortedExercises | GymBuddy/Models/WorkoutSession.swift:69-71 | `sortedExercises` is a permutation of the session's exercises, in nondecreasing `orderIndex` |
| Session.CurrentExercise | GymBuddy/Models/WorkoutSession.swift:79-83 | nil exactly when the index is outside the sorted list; otherwise the sorted exercise at the index, which is one of the plan's |
| Session.RestProgress | GymBuddy/Models/WorkoutSession.swift:73-77 | the fraction is 0 whenever `originalRestDuration` <= 0, and otherwise equals remaining / original |
| Session.DurationFormatted | GymBuddy/Models/WorkoutSession.swift:32-38 | "%02d:%02d" of the truncating minutes and seconds of the duration; at least five characters |
| Session.DurationFormattedReadsBack | GymBuddy/Models/WorkoutSession.swift:24-38 | for a non-negative duration the text is digits, ':', two digits, and minutes * 60 + seconds reads back as the duration |
| Session.TotalSetsCompleted | GymBuddy/Models/WorkoutSession.swift:40-59 | the loop returns the sets of the exercises before the index, plus `currentSetNumber` - 1 for the current one, plus 1 once completed |
| Session.AfterCompleteSet | GymBuddy/ViewModels/WorkoutSessionManager.swift:35-65 | `completeSet` on the session value: it changes neither the plan, nor the start and end times, nor the original rest |
| Session.AdvanceOf | GymBuddy/ViewModels/WorkoutSessionManager.swift:41-62 | the branch `completeSet` takes: no exercise, next set, next exercise or finish, each an if-and-only-if condition on `currentExercise`, `isLastSet` and `isLastExercise` |
| Session.CompleteSetFollowsFlags | GymBuddy/ViewModels/WorkoutSessionManager.swift:44-62 | with sets left: set + 1, same index, resting for the exercise's rest; at the last set before the last exercise: index + 1, set 1, resting for the finished exercise's rest; else completed with index and set kept. The state before the call is not consulted |
| Session.CompleteSetOutOfRange | GymBuddy/ViewModels/WorkoutSessionManager.swift:40-41 | with the index out of range the session is unchanged |
| Session.RestAfterExerciseChangeIsPrevious | GymBuddy/ViewModels/WorkoutSessionManager.swift:50-57 | after moving to the next exercise the rest is the just-finished exercise's `restSeconds`, and the current exercise is the next sorted one |
| Session.AfterRestEnd | GymBuddy/ViewModels/WorkoutSessionManager.swift:115-120 | `endRest` makes the session active and changes nothing else |
| Session.AfterTick | GymBuddy/ViewModels/WorkoutSessionManager.swift:88-120 | a non-resting session is unchanged; a resting one counts down by one, and when the count would reach zero or below it turns active with the pre-tick remaining time kept |
| Session.RestCountdown | GymBuddy/ViewModels/WorkoutSessionManager.swift:88-120 | a rest of d seconds counts d, d-1, ... for max(d, 1) ticks and then ends, leaving 1 (or d when d < 1) as remaining time |
| Session.Cycle | GymBuddy/ViewModels/WorkoutSessionManager.swift:35-69 | one `completeSet` followed, if it started a rest, by `skipRest`; the exercises are unchanged |
| Session.Run | GymBuddy/ViewModels/WorkoutSessionManager.swift:35-69 | k cycles; the exercises are unchanged |
| Session.LinearMonotone | GymBuddy/ViewModels/WorkoutSessionManager.swift:44-61 | the numbering of (exercise, set) pairs respects lexicographic order |
| Session.LinearInjective | GymBuddy/ViewModels/WorkoutSessionManager.swift:44-61 | two pairs with the same number are the same pair |
| Session.LinearRange | GymBuddy/ViewModels/WorkoutSessionManager.swift:44-61 | the pairs of a workout are numbered 0 to the step count - 1 |
| Session.CycleAdvances | GymBuddy/ViewModels/WorkoutSessionManager.swift:44-58 | a cycle before the last pair moves to the next pair in lexicographic order, active |
| Session.LastPairCompletes | GymBuddy/ViewModels/WorkoutSessionManager.swift:59-61 | at the last set of the last exercise, `completeSet` only marks the session completed |
| Session.Traversal | GymBuddy/ViewModels/WorkoutSessionManager.swift:16-61 | before the step count is reached, k cycles from the start reach the k-th pair, active, with 0 <= index < n and 1 <= set <= `sets` |
| Session.TraversalStarts | GymBuddy/ViewModels/WorkoutSessionManager.swift:16-28 | the start is the first pair, active, with the plan's exercises |
| Session.TraversalStep | GymBuddy/ViewModels/WorkoutSessionManager.swift:44-58 | one more cycle from the (k-1)-th pair reaches the k-th pair, active |
| Session.TraversalCompletes | GymBuddy/ViewModels/WorkoutSessionManager.swift:44-61 | after exactly the step count of cycles the session is completed at the last exercise's last set |
| Session.TraversalVisitsEveryPair | GymBuddy/ViewModels/WorkoutSessionManager.swift:44-61 | every (exercise, set) pair is reached, after as many cycles as its number, so exactly once |
| Session.TraversalInOrder | GymBuddy/ViewModels/WorkoutSessionManager.swift:44-61 | earlier cycles are at lexicographically earlier pairs |
| Session.TraversalCountsSets | GymBuddy/Models/WorkoutSession.swift:40-59 | with every `sets` >= 1 the workout takes exactly the sum of `sets` completions, and `totalSetsCompleted` after k cycles is k, the final set included at the end |
| Session.SumSpanIsSumSets | GymBuddy/Models/WorkoutSession.swift:45-51 | with every `sets` >= 1 the step count of a prefix is the sum of its `sets` |
| Session.CountsWhileActive | GymBuddy/Models/WorkoutSession.swift:40-51 | before the end, `totalSetsCompleted` is the number of cycles done |
| Session.CountsAtEnd | GymBuddy/Models/WorkoutSession.swift:53-58 | at the end, the final set is counted too, so `totalSetsCompleted` equals the number of cycles done |
| SessionManager.WorkoutSessionManager.AtMostOneLiveTimer | GymBuddy/ViewModels/WorkoutSessionManager.swift:78-86 | at most one timer is live at any time |
| SessionManager.WorkoutSessionManager.constructor | GymBuddy/ViewModels/WorkoutSessionManager.swift:6-12 | no session, no timer, nothing said or felt |
| SessionManager.WorkoutSessionManager.IsActive | GymBuddy/ViewModels/WorkoutSessionManager.swift:8 | `isActive` holds exactly when a session exists |
| SessionManager.WorkoutSessionManager.StopTimer | GymBuddy/ViewModels/WorkoutSessionManager.swift:126-129 | the held timer is invalidated and dropped, so no timer is live; nothing else changes |
| SessionManager.WorkoutSessionManager.StartRest | GymBuddy/ViewModels/WorkoutSessionManager.swift:78-86 | the session comes back resting with the given duration; the old timer is stopped before a fresh one is scheduled, so that one is the only live timer |
| SessionManager.WorkoutSessionManager.StartWorkout | GymBuddy/ViewModels/WorkoutSessionManager.swift:16-33 | an empty plan changes nothing; otherwise a fresh active session at (0, 1) with rest 0, and the start announced with the first sorted exercise's name |
| SessionManager.WorkoutSessionManager.CompleteSet | GymBuddy/ViewModels/WorkoutSessionManager.swift:35-65 | no session: nothing. Otherwise a medium haptic, then the session becomes `AfterCompleteSet` of the old one, with that branch's speech; a rest schedules a fresh timer, finishing stops it and schedules the dismissal |
| SessionManager.WorkoutSessionManager.SkipRest | GymBuddy/ViewModels/WorkoutSessionManager.swift:67-69 | the timer is stopped, and any existing session becomes active, whatever its state, with the success haptic and the rest-end announcement |
| SessionManager.WorkoutSessionManager.CancelWorkout | GymBuddy/ViewModels/WorkoutSessionManager.swift:71-74 | the timer is stopped and the session is dropped, unconditionally |
| SessionManager.WorkoutSessionManager.Tick | GymBuddy/ViewModels/WorkoutSessionManager.swift:88-113 | only a resting session is affected. It becomes `AfterTick` of the old one, with the warning haptic at 10 and the counts at 3, 2 and 1; at zero or below the rest ends and the timer stops |
| SessionManager.WorkoutSessionManager.EndRest | GymBuddy/ViewModels/WorkoutSessionManager.swift:115-124 | the timer is stopped; an existing session becomes active, with the success haptic and the rest-end announcement |
| SessionManager.WorkoutSessionManager.FinishWorkout | GymBuddy/ViewModels/WorkoutSessionManager.swift:131-143 | the timer is stopped; an existing session is marked completed in place (index, set and `endTime` untouched), announced, and its dismissal is scheduled |
| SessionManager.WorkoutSessionManager.FireDeferredDismissal | GymBuddy/ViewModels/WorkoutSessionManager.swift:140-142 | two seconds later the session is set to nil, whatever session is current then |
| LegacySessionManager.LegacyAfterCompleteSet | ViewModels/WorkoutSessionManager.swift:26-57 | the earlier `completeSet` on the session value, testing `currentExercise` and the unsorted exercise count; plan and times unchanged |
| LegacySessionManager.LegacyAgreesWithCurrent | ViewModels/WorkoutSessionManager.swift:33-54 | comparing against the unsorted count gives the same result as the current manager, for every session |
| LegacySessionManager.LegacyWorkoutSessionManager.constructor | ViewModels/WorkoutSessionManager.swift:6-10 | no session, no timer |
| LegacySessionManager.LegacyWorkoutSessionManager.IsActive | ViewModels/WorkoutSessionManager.swift:8 | `isActive` holds exactly when a session exists |
| LegacySessionManager.LegacyWorkoutSessionManager.StopTimer | ViewModels/WorkoutSessionManager.swift:104-107 | the held timer is invalidated and dropped |
| LegacySessionManager.LegacyWorkoutSessionManager.StartRest | ViewModels/WorkoutSessionManager.swift:70-78 | resting with the given duration; the old timer is stopped before a fresh one is scheduled |
| LegacySessionManager.LegacyWorkoutSessionManager.StartWorkout | ViewModels/WorkoutSessionManager.swift:14-24 | an empty plan changes nothing; otherwise active at (0, 1) with rest 0 |
| LegacySessionManager.LegacyWorkoutSessionManager.CompleteSet | ViewModels/WorkoutSessionManager.swift:26-57 | a medium haptic, then the session becomes `LegacyAfterCompleteSet` of the old one; a rest schedules a fresh timer, finishing stops it and schedules the dismissal |
| LegacySessionManager.LegacyWorkoutSessionManager.SkipRest | ViewModels/WorkoutSessionManager.swift:59-61 | the timer is stopped and any session becomes active |
| LegacySessionManager.LegacyWorkoutSessionManager.CancelWorkout | ViewModels/WorkoutSessionManager.swift:63-66 | the timer is stopped and the session is dropped |
| LegacySessionManager.LegacyWorkoutSessionManager.Tick | ViewModels/WorkoutSessionManager.swift:80-90 | only a resting session counts down by one; at zero or below the rest ends with the pre-tick remaining time kept |
| LegacySessionManager.LegacyWorkoutSessionManager.EndRest | ViewModels/WorkoutSessionManager.swift:92-102 | the timer is stopped; an existing session becomes active, with the success haptic |
| LegacySessionManager.LegacyWorkoutSessionManager.FinishWorkout | ViewModels/WorkoutSessionManager.swift:109-123 | the timer is stopped; the session is marked completed in place and its dismissal is scheduled |
| LegacySessionManager.LegacyWorkoutSessionManager.FireDeferredDismissal | ViewModels/WorkoutSessionManager.swift:120-122 | two seconds later the session is set to nil |
| Exercises.NewDefinition | GymBuddy/Models/ExerciseDefinition.swift:5-19 | a definition holds the given id, name, group, equipment and custom flag, and starts as no favourite |
| Exercises.MuscleGroupFromRaw | GymBuddy/Models/ExerciseDefinition.swift:24-35 | `MuscleGroup(rawValue:)` gives the case with that raw value, and nil exactly when no case has it |
| Exercises.MuscleGroupRoundTrip | GymBuddy/Models/ExerciseDefinition.swift:24-35 | `MuscleGroup(rawValue:)` inverts `rawValue` for every case |
| Exercises.MuscleGroupsEnumerated | GymBuddy/Models/ExerciseDefinition.swift:24-35 | `allCases` lists every group, and no two groups share a raw value |
| Exercises.EquipmentFromRaw | GymBuddy/Models/ExerciseDefinition.swift:37-46 | `Equipment(rawValue:)` gives the case with that raw value, and nil exactly when no case has it |
| Exercises.EquipmentRoundTrip | GymBuddy/Models/ExerciseDefinition.swift:37-46 | `Equipment(rawValue:)` inverts `rawValue` for every case |
| Exercises.EquipmentEnumerated | GymBuddy/Models/ExerciseDefinition.swift:37-46 | `allCases` lists every kind of equipment, and no two share a raw value |
| Exercises.NewExercise | GymBuddy/Models/Exercise.swift:26-46 | the designated initialiser stores every argument in its field |
| Exercises.NewExerciseDefaults | GymBuddy/Models/Exercise.swift:26-36 | omitted arguments give reps 10, weight 0, group "", equipment "" and no definition link |
| Exercises.FromDefinition | GymBuddy/Models/Exercise.swift:48-68 | the copy initialiser takes name, group and equipment from the definition and links back to its id; the other fields are the arguments |
| Exercises.FromDefinitionDefaults | GymBuddy/Models/Exercise.swift:49-56 | omitted arguments give sets 3, reps 10, weight 0, rest 90 and `orderIndex` 0 |
| Exercises.RepsFormatted | GymBuddy/Models/Exercise.swift:82-84 | the text ends in " REPS" and what precedes it parses back as the repetition count |
| Exercises.RepsFormattedInjective | GymBuddy/Models/Exercise.swift:82-84 | different repetition counts are shown differently |
| Exercises.WeightFormatted | GymBuddy/Models/Exercise.swift:72-80 | "—" exactly for weight 0; any other weight shows its number and " KG" |
| Exercises.DecimalDotIffFraction | GymBuddy/Models/Exercise.swift:75-79 | the number has a decimal dot exactly when the weight is not a whole number of kilograms |
| Exercises.WeightFormattedInjective | GymBuddy/Models/Exercise.swift:72-80 | different weights (in tenths of a kilogram) are shown differently |
| Exercises.SummaryText | GymBuddy/Models/Exercise.swift:86-88 | the text before " × " reads back as the sets, the text between " × " and " @ " reads back as the reps, and the rest is the formatted weight |
| Exercises.SummaryTextInjective | GymBuddy/Models/Exercise.swift:86-88 | two exercises with the same summary have the same sets, reps and weight |
| Store.WorkoutPlan.constructor | GymBuddy/Models/WorkoutPlan.swift:16-19 | a plan with the given name and order index, and no exercises |
| Store.AppendFresh | GymBuddy/Models/Exercise.swift:6 | appending an exercise with an unused id keeps the list's ids distinct |
| Store.ModelContext.FreshId | GymBuddy/Models/Exercise.swift:6 | `UUID()`: a new identifier, never handed out before; nothing stored changes |
| Store.ModelContext.InsertDefinition | GymBuddy/Services/ExerciseManager.swift:86 | `insert` stores one more definition, at the end |
| Store.ModelContext.InsertPlan | GymBuddy/Models/WorkoutPlanSeed.swift:115-129 | `insert` stores one more plan, at the end |
| ExerciseManagement.SortByName | GymBuddy/Services/ExerciseManager.swift:25-30 | the fetched definitions are a permutation of the stored ones, in nondecreasing name order |
| ExerciseManagement.DistinctSorted | GymBuddy/Services/ExerciseManager.swift:31 | `Array(Set(groups)).sorted()` is strictly increasing and holds exactly the groups present |
| ExerciseManagement.Renumber | GymBuddy/Services/ExerciseManager.swift:165-167 | each exercise gets its position as `orderIndex`, and nothing else changes |
| ExerciseManagement.RenumberIsWellNumbered | GymBuddy/Services/ExerciseManager.swift:165-167 | after renumbering, the order indices are exactly 0 .. n-1 |
| ExerciseManagement.Position | GymBuddy/Services/ExerciseManager.swift:160 | `firstIndex(where:)` on ids: the first position with the id, or the length when there is none |
| ExerciseManagement.UpdateSettings | GymBuddy/Services/ExerciseManager.swift:141-147 | the exercise with the id gets exactly the four new settings; every other exercise is unchanged |
| ExerciseManagement.AssignOrder | GymBuddy/Services/ExerciseManager.swift:184-186 | every stored exercise changes at most in its `orderIndex` |
| ExerciseManagement.MovedPermutes | GymBuddy/Services/ExerciseManager.swift:181-182 | the moved display order is a permutation of the stored exercises, with distinct ids |
| ExerciseManagement.WellNumberedDisplay | GymBuddy/Views/Plans/PlanEditView.swift:15-17 | a list numbered 0 .. n-1, sorted by `orderIndex`, shows the exercise numbered k at position k |
| ExerciseManagement.AssignOrderIsWellNumbered | GymBuddy/Services/ExerciseManager.swift:184-186 | numbering the stored exercises by their places in a permutation numbers them 0 .. n-1 |
| ExerciseManagement.DisplayAt | GymBuddy/Services/ExerciseManager.swift:181-186 | after the reorder the exercise shown at k is the k-th of the moved order, numbered k |
| ExerciseManagement.ReorderDisplaysMove | GymBuddy/Services/ExerciseManager.swift:178-186 | after `reorderExercises` the plan is numbered 0 .. n-1 and shows exactly the moved order; the storage order is untouched |
| ExerciseManagement.RemoveDisplaysStorageOrder | GymBuddy/Services/ExerciseManager.swift:160-167 | after `removeExerciseFromPlan` the plan shows its storage order, not the order shown before |
| ExerciseManagement.CreatedIsFound | GymBuddy/Services/ExerciseManager.swift:72-77 | a definition just created under a name is what a later creation under any case variant of that name finds |
| ExerciseManagement.AppendKeepsWellNumbered | GymBuddy/Services/ExerciseManager.swift:116-128 | appending with `orderIndex` = count keeps a list numbered 0 .. n-1 |
| ExerciseManagement.DeleteKeepsOthers | GymBuddy/Services/ExerciseManager.swift:198-215 | deleting a definition removes every definition with its id and keeps all others, in order |
| ExerciseManagement.ExerciseManager.constructor | GymBuddy/Services/ExerciseManager.swift:7-13 | not configured, with empty caches |
| ExerciseManagement.ExerciseManager.Configure | GymBuddy/Services/ExerciseManager.swift:17-20 | the context is set and the cache refreshed from it |
| ExerciseManagement.ExerciseManager.RefreshCache | GymBuddy/Services/ExerciseManager.swift:22-35 | without a context nothing changes; otherwise the cache is the stored definitions sorted by name, and the groups are their distinct muscle groups in increasing order |
| ExerciseManagement.ExerciseManager.SearchExercises | GymBuddy/Services/ExerciseManager.swift:39-50 | an empty query gives the whole cache; otherwise exactly the cached definitions whose lowercased name, group or equipment contains the lowercased query, in cache order |
| ExerciseManagement.ExerciseManager.ExercisesFor | GymBuddy/Services/ExerciseManager.swift:52-55 | exactly the cached definitions of that muscle group, in cache order |
| ExerciseManagement.ExerciseManager.ExercisesWithEquipment | GymBuddy/Services/ExerciseManager.swift:57-60 | exactly the cached definitions with that equipment, in cache order |
| ExerciseManagement.ExerciseManager.CreateCustomExercise | GymBuddy/Services/ExerciseManager.swift:64-97 | no context: nil, and the cache and groups are unchanged. A case-insensitive name match: that definition; nothing is inserted, the id counter, cache and groups are unchanged. Otherwise one custom definition ("Sonstiges" by default) is inserted with the next id and returned, and the cache and the group list are refreshed. The plans are never touched |
| ExerciseManagement.ExerciseManager.AddExerciseToPlan | GymBuddy/Services/ExerciseManager.swift:101-138 | no context: nil and no change. Otherwise exactly one copy of the definition is appended, with `orderIndex` = the previous count and the given settings; earlier exercises are untouched, and the store's plans are untouched. The plan's id, name and `orderIndex` are unchanged |
| ExerciseManagement.ExerciseManager.UpdateExercise | GymBuddy/Services/ExerciseManager.swift:140-154 | with a context the exercise gets exactly the new sets, reps, weight and rest; nothing else changes, and the plan's id, name and `orderIndex` are unchanged |
| ExerciseManagement.ExerciseManager.RemoveExerciseFromPlan | GymBuddy/Services/ExerciseManager.swift:156-175 | an absent id, or no context, changes nothing; otherwise the first exercise with the id is removed and the rest are numbered by storage position. The plan's id, name and `orderIndex` are unchanged |
| ExerciseManagement.ExerciseManager.ReorderExercises | GymBuddy/Services/ExerciseManager.swift:177-193 | with a context every stored exercise gets, as `orderIndex`, its position in the moved display order; the storage array keeps its order. The plan's id, name and `orderIndex` are unchanged |
| ExerciseManagement.ExerciseManager.DeleteCustomExercise | GymBuddy/Services/ExerciseManager.swift:197-215 | deletes, and returns true, exactly when configured and the definition is custom; a built-in is never deleted. After a deletion the cache and the group list are refreshed; otherwise both are unchanged. The plans and the id counter are never touched |
| ExerciseManagement.ExerciseManager.CountsAddUp | GymBuddy/Services/ExerciseManager.swift:217-221 | custom count + built-in count = total count |
| PlanEdit.Appended | GymBuddy/Views/Plans/PlanEditView.swift:155-164 | the exercises `addExercises` appends: one per chosen definition, in order, with sets 3, reps 10, weight 0 and rest 90, numbered after the existing ones |
| PlanEdit.AppendedKeepsInvariants | GymBuddy/Views/Plans/PlanEditView.swift:155-164 | adding a batch keeps the plan numbered 0 .. n-1 and, with ids from the store's counter, keeps the ids distinct |
| PlanEdit.RenumberForgetsOrder | GymBuddy/Services/ExerciseManager.swift:165-167 | renumbering forgets the previous order indices |
| PlanEdit.RemoveAtIsWithout | GymBuddy/Services/ExerciseManager.swift:160-161 | removing the row of an id no other row carries is filtering out that id |
| PlanEdit.DeleteStep | GymBuddy/Views/Plans/PlanEditView.swift:168-170 | one removal after earlier ones finds the exercise and leaves the list without all the ids removed so far, renumbered |
| PlanEdit.DeleteKeepsExactlyTheOthers | GymBuddy/Views/Plans/PlanEditView.swift:166-170 | the rows left after deleting are exactly the unselected exercises, in storage order, numbered 0 .. n-1 |
| PlanEdit.PlanEditor.constructor | GymBuddy/Views/Plans/PlanEditView.swift:7-9 | the editor of a plan, on the shared exercise manager |
| PlanEdit.PlanEditor.SortedExercises | GymBuddy/Views/Plans/PlanEditView.swift:15-17 | the plan's exercises, a permutation in nondecreasing `orderIndex` |
| PlanEdit.PlanEditor.AddExercises | GymBuddy/Views/Plans/PlanEditView.swift:155-164 | with a context, every chosen definition is appended in the given order, with sets 3 and rest 90; without one nothing changes. The store's plans and the plan's id, name and `orderIndex` are unchanged |
| PlanEdit.PlanEditor.DeleteExercises | GymBuddy/Views/Plans/PlanEditView.swift:166-171 | the offsets are resolved to exercises before any removal, so exactly the selected exercises go; the rest keep storage order and are numbered afresh. The plan's id, name and `orderIndex` are unchanged |
| PlanEdit.PlanEditor.DeleteOne | GymBuddy/Views/Plans/PlanEditView.swift:168-170 | one pass of the deletion loop removes that exercise besides those removed before; the plan's id, name and `orderIndex` are unchanged |
| PlanEdit.PlanEditor.MoveExercises | GymBuddy/Views/Plans/PlanEditView.swift:173-175 | exactly the manager's reorder with the same source and destination; the plan's id, name and `orderIndex` are unchanged |
| ExercisePicker.Filtered | GymBuddy/Views/Plans/ExercisePickerView.swift:14-32 | an order-preserving subsequence of the library: exactly the entries of the chosen group that match the search; the whole library without filter and search |
| ExercisePicker.PickerSearchIgnoresMuscleGroup | GymBuddy/Views/Plans/ExercisePickerView.swift:23-29 | the picker's search looks at name and equipment only: a "Core" plank is found by the manager's search for "Core" and not by the picker's |
| ExercisePicker.Toggled | GymBuddy/Views/Plans/ExercisePickerView.swift:139-146 | exactly the tapped id changes membership |
| ExercisePicker.ToggleTwice | GymBuddy/Views/Plans/ExercisePickerView.swift:139-146 | tapping the same row twice restores the selection |
| ExercisePicker.IconCoversVocabulary | GymBuddy/Views/Plans/ExercisePickerView.swift:244-256 | every group of the vocabulary except cardio has its own icon, biceps and triceps share one, cardio gets the dumbbell |
| ExercisePicker.IconForUnknownGroup | GymBuddy/Views/Plans/ExercisePickerView.swift:254 | a group outside the vocabulary gets the dumbbell |
| ExercisePicker.ExercisePickerView.constructor | GymBuddy/Views/Plans/ExercisePickerView.swift:8-12 | empty search, no filter, nothing selected, nothing handed over, no haptic fired |
| ExercisePicker.ExercisePickerView.ToggleSelection | GymBuddy/Views/Plans/ExercisePickerView.swift:139-146 | one light haptic fires and the selection becomes the toggled selection; nothing else changes |
| ExercisePicker.ExercisePickerView.SelectedDefinitions | GymBuddy/Views/Plans/ExercisePickerView.swift:150 | exactly the library definitions whose ids are selected, in library order rather than tapping order |
| ExercisePicker.ExercisePickerView.AddSelectedExercises | GymBuddy/Views/Plans/ExercisePickerView.swift:148-153 | one medium haptic fires, the selected definitions, in library order, are handed to `onAdd` once, and the picker closes |
| ExerciseSeed.SeedEntry | GymBuddy/Models/ExerciseSeed.swift:11-89 | the library entry at each of the sixty positions; its group and equipment are raw values of the vocabulary |
| ExerciseSeed.ChestEntry | GymBuddy/Models/ExerciseSeed.swift:12-20 | the eight chest entries, all of group "Brust" with valid equipment |
| ExerciseSeed.BackEntry | GymBuddy/Models/ExerciseSeed.swift:22-30 | the eight back entries, all of group "Rücken" with valid equipment |
| ExerciseSeed.ShouldersEntry | GymBuddy/Models/ExerciseSeed.swift:32-39 | the seven shoulder entries, all of group "Schultern" with valid equipment |
| ExerciseSeed.BicepsEntry | GymBuddy/Models/ExerciseSeed.swift:41-47 | the six biceps entries, all of group "Bizeps" with valid equipment |
| ExerciseSeed.TricepsEntry | GymBuddy/Models/ExerciseSeed.swift:49-55 | the six triceps entries, all of group "Trizeps" with valid equipment |
| ExerciseSeed.LegsEntry | GymBuddy/Models/ExerciseSeed.swift:57-67 | the ten leg entries, all of group "Beine" with valid equipment |
| ExerciseSeed.GlutesEntry | GymBuddy/Models/ExerciseSeed.swift:69-73 | the four glute entries, all of group "Gesäß" with valid equipment |
| ExerciseSeed.CoreEntry | GymBuddy/Models/ExerciseSeed.swift:75-81 | the six core entries, all of group "Core" with valid equipment |
| ExerciseSeed.FullBodyEntry | GymBuddy/Models/ExerciseSeed.swift:83-88 | the five full-body entries, all of group "Ganzkörper" with valid equipment |
| ExerciseSeed.DefaultExercises | GymBuddy/Models/ExerciseSeed.swift:11-89 | `defaultExercises` has sixty entries |
| ExerciseSeed.LibraryIndexAt | GymBuddy/Models/ExerciseSeed.swift:11-89 | looking up the name of the entry at i finds position i |
| ExerciseSeed.LibraryNamesDistinct | GymBuddy/Models/ExerciseSeed.swift:11-89 | no two library entries share a name |
| ExerciseSeed.LibraryUsesVocabulary | GymBuddy/Models/ExerciseSeed.swift:11-89 | every entry's group and equipment are raw values of `MuscleGroup` and `Equipment` |
| ExerciseSeed.SeededDefinitions | GymBuddy/Models/ExerciseSeed.swift:106-114 | the seeder builds one definition per library entry |
| ExerciseSeed.SeededLibrary | GymBuddy/Models/ExerciseSeed.swift:106-114 | the inserted definitions copy name, group and equipment of the entry at the same position, are built in and no favourite, have consecutive ids, distinct names and valid vocabulary |
| ExerciseSeed.SeededAt | GymBuddy/Models/ExerciseSeed.swift:107-112 | the definition at i copies the entry at i, with `isCustom` false |
| ExerciseSeed.SeededNamesDistinct | GymBuddy/Models/ExerciseSeed.swift:106-114 | no two seeded definitions share a name |
| ExerciseSeed.AfterSeeding | GymBuddy/Models/ExerciseSeed.swift:97-114 | a store with definitions is left alone; an empty one receives the sixty library definitions |
| ExerciseSeed.SeedingIsIdempotent | GymBuddy/Models/ExerciseSeed.swift:99-103 | seeding a second time, whatever ids are free then, changes nothing |
| ExerciseSeed.SeedDefaultExercises | GymBuddy/Models/ExerciseSeed.swift:92-123 | inserts the library, in order, exactly when the store holds no definition; the plans are untouched |
| PlanSeeding.PplPlanNames | GymBuddy/Models/WorkoutPlanSeed.swift:57 | the default plan names are exactly Push, Pull and Legs |
| PlanSeeding.PplExercisesInLibrary | GymBuddy/Models/WorkoutPlanSeed.swift:21-53 | every exercise a default plan names is an entry of the built-in library |
| PlanSeeding.PushExercisesInLibrary | GymBuddy/Models/WorkoutPlanSeed.swift:23-31 | every Push exercise is in the library |
| PlanSeeding.PullExercisesInLibrary | GymBuddy/Models/WorkoutPlanSeed.swift:34-42 | every Pull exercise is in the library |
| PlanSeeding.LegsExercisesInLibrary | GymBuddy/Models/WorkoutPlanSeed.swift:45-52 | every Legs exercise is in the library |
| PlanSeeding.Infos | GymBuddy/Models/WorkoutPlanSeed.swift:143-151 | the clean-up sees each plan's name and exercise count, position by position |
| PlanSeeding.PplPlansAreValid | GymBuddy/Models/WorkoutPlanSeed.swift:144-150 | a plan named Push, Pull or Legs is never invalid, even with no exercises |
| PlanSeeding.OldPlanNamesAreInvalid | GymBuddy/Models/WorkoutPlanSeed.swift:144-148 | "New Plan" and the old "Tag 1 – PUSH" names are invalid whatever they hold |
| PlanSeeding.ToDeleteExactly | GymBuddy/Models/WorkoutPlanSeed.swift:142-152 | Step A's list holds exactly the invalid plans |
| PlanSeeding.Remaining | GymBuddy/Models/WorkoutPlanSeed.swift:159 | a position remains after Step A exactly when its plan is valid |
| PlanSeeding.RemainingAfterStepA | GymBuddy/Models/WorkoutPlanSeed.swift:159 | filtering out Step A's list leaves exactly the valid plans |
| PlanSeeding.Group | GymBuddy/Models/WorkoutPlanSeed.swift:160 | a group holds exactly the remaining plans whose name is the same sequence of code points |
| PlanSeeding.GroupDistinct | GymBuddy/Models/WorkoutPlanSeed.swift:160 | a group lists each plan once |
| PlanSeeding.MoreExercisesIsStrictWeakOrder | GymBuddy/Models/WorkoutPlanSeed.swift:162 | "more exercises first" is a strict weak order, as `sorted(by:)` demands |
| PlanSeeding.SortedGroup | GymBuddy/Models/WorkoutPlanSeed.swift:162 | the sorted group holds the group's plans, each once, by nonincreasing exercise count |
| PlanSeeding.KeeperOfGroup | GymBuddy/Models/WorkoutPlanSeed.swift:161-166 | the kept plan is in the group and has the most exercises; `dropFirst()` is the rest of the group |
| PlanSeeding.SortedHeadIsLargest | GymBuddy/Models/WorkoutPlanSeed.swift:162-163 | the first of a list sorted by descending count has the largest count |
| PlanSeeding.TailIsRest | GymBuddy/Models/WorkoutPlanSeed.swift:163 | without repeats, `dropFirst()` leaves exactly the other elements |
| PlanSeeding.Kept | GymBuddy/Models/WorkoutPlanSeed.swift:137-167 | the positions the clean-up keeps, in storage order |
| PlanSeeding.KeptMembers | GymBuddy/Models/WorkoutPlanSeed.swift:137-167 | a plan is kept exactly when it is valid and is the kept plan of its name |
| PlanSeeding.CleanupRemovesInvalid | GymBuddy/Models/WorkoutPlanSeed.swift:142-156 | no invalid plan survives |
| PlanSeeding.CleanupKeepsOnePerName | GymBuddy/Models/WorkoutPlanSeed.swift:158-167 | two kept plans with one name are the same plan |
| PlanSeeding.CleanupKeepsEveryValidName | GymBuddy/Models/WorkoutPlanSeed.swift:158-167 | every valid plan's name survives, on a plan with at least as many exercises as any valid plan of that name |
| PlanSeeding.DuplicatesStep | GymBuddy/Models/WorkoutPlanSeed.swift:161-166 | handling one more name deletes its sorted group but the first |
| PlanSeeding.DuplicatesRound | GymBuddy/Models/WorkoutPlanSeed.swift:161-166 | round g of Step B deletes exactly the dropped plans of the g-th group |
| PlanSeeding.ToDeleteStep | GymBuddy/Models/WorkoutPlanSeed.swift:143-151 | Step A's loop appends a plan exactly when it is invalid |
| PlanSeeding.KeptAfterStepB | GymBuddy/Models/WorkoutPlanSeed.swift:159-167 | once every group is handled, the undeleted plans are the kept ones |
| PlanSeeding.CollectInvalidPlans | GymBuddy/Models/WorkoutPlanSeed.swift:142-152 | Step A's loop returns the positions of the invalid plans in order |
| PlanSeeding.CollectDuplicates | GymBuddy/Models/WorkoutPlanSeed.swift:158-167 | Step B's loop deletes a remaining plan exactly when it is a duplicate, deletes only remaining plans, and sums `max(count - 1, 0)` over the groups, which equals the number it deletes |
| PlanSeeding.CleanupInvalidPlans | GymBuddy/Models/WorkoutPlanSeed.swift:137-173 | the store keeps exactly the kept plans, in order; afterwards all plans are valid and names are distinct; definitions untouched. It returns `totalRemoved` = the invalid count plus the sum of `max(count - 1, 0)` over the name groups, and that is the number of plans removed |
| PlanSeeding.KeptPositions | GymBuddy/Models/WorkoutPlanSeed.swift:142-169 | Steps A and B give the kept positions, and `totalRemoved` as computed at line 169 is the number of plans not kept |
| PlanSeeding.PositionsCard | GymBuddy/Models/WorkoutPlanSeed.swift:169 | a list of distinct positions has as many members as it has entries |
| PlanSeeding.GroupPositionsDistinct | GymBuddy/Models/WorkoutPlanSeed.swift:159-160 | the remaining plans, and each name group, hold no plan twice |
| PlanSeeding.DroppedCount | GymBuddy/Models/WorkoutPlanSeed.swift:161-166 | one group's round deletes `max(count - 1, 0)` plans, none deleted by an earlier round |
| PlanSeeding.ExcessRound | GymBuddy/Models/WorkoutPlanSeed.swift:161-169 | one more group raises the `max(count - 1, 0)` sum and the number of deleted plans by the same amount |
| PlanSeeding.StepACount | GymBuddy/Models/WorkoutPlanSeed.swift:142-159 | every plan is either deleted by Step A or remains |
| PlanSeeding.KeptCount | GymBuddy/Models/WorkoutPlanSeed.swift:159-167 | the kept plans are the remaining ones less those Step B deletes |
| PlanSeeding.KeptDistinct | GymBuddy/Models/WorkoutPlanSeed.swift:153-166 | no plan is kept twice |
| PlanSeeding.CleanedNamesDistinct | GymBuddy/Models/WorkoutPlanSeed.swift:158-167 | after the clean-up no two plans share a name, compared code point by code point |
| PlanSeeding.CleanedAreValid | GymBuddy/Models/WorkoutPlanSeed.swift:142-156 | after the clean-up every plan is valid |
| PlanSeeding.KeptAllWhenClean | GymBuddy/Models/WorkoutPlanSeed.swift:137-167 | on valid plans whose names are distinct as code-point sequences the clean-up keeps every plan |
| PlanSeeding.SoleKeeper | GymBuddy/Models/WorkoutPlanSeed.swift:161 | a plan alone under its name is not a duplicate |
| PlanSeeding.CleanupKeepsCleanStore | GymBuddy/Models/WorkoutPlanSeed.swift:137-173 | the clean-up of a clean store changes nothing: it is idempotent |
| PlanSeeding.DefinitionsByName | GymBuddy/Models/WorkoutPlanSeed.swift:71 | the dictionary has exactly the definitions' names as keys, each mapped to its definition |
| PlanSeeding.CreateKeepsNamesDistinct | GymBuddy/Services/ExerciseManager.swift:66-86 | a definition created because no cached name matches case-insensitively keeps the store's names pairwise distinct |
| PlanSeeding.SeedExercises | GymBuddy/Models/WorkoutPlanSeed.swift:115-132 | createPlan attaches at most one exercise per entry |
| PlanSeeding.SeedExercisesFromEntries | GymBuddy/Models/WorkoutPlanSeed.swift:115-132 | each attached exercise has the next id and copies its entry's sets, reps, rest and definition, at weight 0, with the entry's position as order index |
| PlanSeeding.SeedExercisesOrdered | GymBuddy/Models/WorkoutPlanSeed.swift:115 | attached exercises follow the entries' order |
| PlanSeeding.SeedExercisesSkipsMissing | GymBuddy/Models/WorkoutPlanSeed.swift:116-119 | an entry is attached exactly when its definition is found |
| PlanSeeding.SeedExercisesComplete | GymBuddy/Models/WorkoutPlanSeed.swift:115-132 | with every definition found, all entries are attached, numbered 0, 1, … with distinct ids |
| PlanSeeding.OrderedCovering | GymBuddy/Models/WorkoutPlanSeed.swift:115-127 | strictly increasing order indices covering 0..n-1 number the list 0, 1, …, n-1 |
| PlanSeeding.DefaultPlansCompleteOnLibrary | GymBuddy/Models/WorkoutPlanSeed.swift:21-53 | on a store seeded with the library, each default plan gets all of its exercises, well numbered |
| PlanSeeding.PlanExists | GymBuddy/Models/WorkoutPlanSeed.swift:91-104 | true exactly when some stored plan carries the name |
| PlanSeeding.AppendNewName | GymBuddy/Models/WorkoutPlanSeed.swift:75-76 | adding a plan under a name not stored yet keeps names distinct |
| PlanSeeding.CreatePlan | GymBuddy/Models/WorkoutPlanSeed.swift:106-135 | appends one fresh plan with the seed's name and order index, holding SeedExercises of its entries |
| PlanSeeding.AttachEntry | GymBuddy/Models/WorkoutPlanSeed.swift:116-131 | a found entry attaches one exercise with the next id; a missing one attaches nothing |
| PlanSeeding.CreatedUpToAppend | GymBuddy/Models/WorkoutPlanSeed.swift:74-78 | a round that creates a missing default plan keeps Step 3's invariant |
| PlanSeeding.CreatedUpToSkip | GymBuddy/Models/WorkoutPlanSeed.swift:75 | a round whose plan is already stored changes nothing |
| PlanSeeding.CreateIfMissing | GymBuddy/Models/WorkoutPlanSeed.swift:75-77 | creates the k-th default plan only when no stored plan carries its name |
| PlanSeeding.CreateMissingPlans | GymBuddy/Models/WorkoutPlanSeed.swift:74-78 | afterwards every default name is stored, names stay distinct and valid, and a seeded store is unchanged |
| PlanSeeding.SeedDefaultPlans | GymBuddy/Models/WorkoutPlanSeed.swift:61-87 | cleans up; without definitions stops there; otherwise creates the missing default plans; seeding a seeded store changes nothing |
| AudioCache.Utf8Char | GymBuddy/Services/AudioCacheService.swift:126 | one character takes one to four bytes, one exactly when it is ASCII, with continuation bytes in 0x80–0xBF |
| AudioCache.Utf8 | GymBuddy/Services/AudioCacheService.swift:126 | a text's UTF-8 form takes between one and four bytes per character |
| AudioCache.Utf8CharCodePoint | GymBuddy/Services/AudioCacheService.swift:126 | a character's lead byte announces its length and its bytes spell its code point |
| AudioCache.Utf8CharDecodes | GymBuddy/Services/AudioCacheService.swift:126 | the bytes of a character followed by anything start with a complete sequence that spells that character |
| AudioCache.Utf8RoundTrip | GymBuddy/Services/AudioCacheService.swift:126 | decoding a text's UTF-8 bytes gives the text back |
| AudioCache.Utf8Injective | GymBuddy/Services/AudioCacheService.swift:126 | different texts have different UTF-8 bytes |
| AudioCache.HexDigit | GymBuddy/Services/AudioCacheService.swift:128 | a nibble prints as a lowercase hex digit |
| AudioCache.HexValue | GymBuddy/Services/AudioCacheService.swift:128 | reading a lowercase hex digit inverts HexDigit |
| AudioCache.ByteHex | GymBuddy/Services/AudioCacheService.swift:128 | `%02x` gives two lowercase digits, high nibble first, spelling the byte |
| AudioCache.Hex | GymBuddy/Services/AudioCacheService.swift:128 | the joined form has two lowercase digits per byte |
| AudioCache.HexRoundTrip | GymBuddy/Services/AudioCacheService.swift:128 | the hex form reads back to the bytes |
| AudioCache.HexInjective | GymBuddy/Services/AudioCacheService.swift:128 | different digests have different hex forms |
| AudioCache.FileNameShape | GymBuddy/Services/AudioCacheService.swift:120-129 | every cache file name is 64 lowercase hex digits then ".mp3" |
| AudioCache.SameFileIffSameDigest | GymBuddy/Services/AudioCacheService.swift:120-129 | two texts share a file exactly when the digests of their UTF-8 bytes agree |
| AudioCache.TotalSizeRemove | GymBuddy/Services/AudioCacheService.swift:97-101 | the total size is one file's size plus the total of the others, whichever is taken first |
| AudioCache.AudioCacheService.constructor | GymBuddy/Services/AudioCacheService.swift:14-21 | the service starts on the directory as it finds it |
| AudioCache.AudioCacheService.IsCached | GymBuddy/Services/AudioCacheService.swift:39-42 | true exactly when the text's file exists |
| AudioCache.AudioCacheService.GetCachedAudio | GymBuddy/Services/AudioCacheService.swift:47-62 | the stored bytes when the file exists and reads; nil when it is missing or the read fails |
| AudioCache.AudioCacheService.CacheAudio | GymBuddy/Services/AudioCacheService.swift:68-77 | a successful write stores the data under the text's name, so it is then cached and read back, and leaves other texts' files alone; a failed write changes nothing |
| AudioCache.AudioCacheService.ClearCache | GymBuddy/Services/AudioCacheService.swift:80-90 | only deletes files and never alters one; a failed listing deletes nothing; an undeletable file is never removed; without an undeletable file the directory ends empty and no text is cached |
| AudioCache.AudioCacheService.CacheSize | GymBuddy/Services/AudioCacheService.swift:94-106 | the sum of the file sizes, or 0 when the listing or any size lookup fails |
| AudioCache.AudioCacheService.CachedFileCount | GymBuddy/Services/AudioCacheService.swift:109-116 | the number of files, or 0 when the listing fails |
| Settings.AppearanceFromRaw | GymBuddy/Models/AppSettings.swift:6-9 | `AppearanceMode(rawValue:)` yields a mode exactly when the text is its raw value |
| Settings.LanguageFromRaw | GymBuddy/Models/AppSettings.swift:30-32 | `AppLanguage(rawValue:)` yields a language exactly when the text is its raw value |
| Settings.VerbosityFromRaw | GymBuddy/Models/AppSettings.swift:51-54 | `CoachVerbosity(rawValue:)` yields a verbosity exactly when the text is its raw value |
| Settings.EnumerationLabelsDistinct | GymBuddy/Models/AppSettings.swift:6-73 | different cases have different raw values, display names and icons |
| Settings.StringFor | GymBuddy/Models/AppSettings.swift:173 | `string(forKey:)` is nil exactly for a missing key; a text is returned as stored, a number as a text that reads back as it, a flag as "1" or "0" |
| Settings.BoolFor | GymBuddy/Models/AppSettings.swift:182 | `bool(forKey:)` is false for a missing key, the stored flag for a flag, true exactly for a non-zero number, and for a text true exactly when it is a non-zero integer or "true" or "yes" in any case |
| Settings.TextFormReadsBack | GymBuddy/Models/AppSettings.swift:173-216 | replacing a stored value by its `string(forKey:)` text keeps what `bool(forKey:)` and `integer(forKey:)` read |
| Settings.FlagSpellings | GymBuddy/Models/AppSettings.swift:182 | "1", "YES", "Yes" and "true" read as true; "0", "NO", "false" and the empty text read as false |
| Settings.IntegerFor | GymBuddy/Models/AppSettings.swift:216 | `integer(forKey:)` is 0 for a missing key, the stored number for a number, 1 or 0 for a flag, and for a text its integer value, or 0 when it holds none |
| Settings.DecodeAppearance | GymBuddy/Models/AppSettings.swift:173-178 | a valid stored raw value is read back; anything else gives `.system` |
| Settings.DecodeSwitch | GymBuddy/Models/AppSettings.swift:181-185 | a switch is on unless something is stored under its key, then it is the stored flag |
| Settings.DecodeLanguage | GymBuddy/Models/AppSettings.swift:188-195 | a valid stored language is read back; otherwise German exactly when the system code starts with "de" |
| Settings.DecodeVerbosity | GymBuddy/Models/AppSettings.swift:198-203 | a valid stored raw value is read back; anything else gives `.normal` |
| Settings.DecodeRestSeconds | GymBuddy/Models/AppSettings.swift:216-217 | the rest is positive: the stored number when positive, else 90 |
| Settings.DecodeEmpty | GymBuddy/Models/AppSettings.swift:169-236 | an empty store decodes to the defaults: system, voice on, normal, countdown on, no voice, 90 s, ElevenLabs on, the Rachel voice |
| Settings.DecodeIgnoresLegacyApiKey | GymBuddy/Models/AppSettings.swift:226-231 | the legacy API key entry affects no preference |
| Settings.StoreOther | GymBuddy/Models/AppSettings.swift:240-242 | storing under one key leaves what every other key reads unchanged |
| Settings.DecodeAfterSetAppearanceMode | GymBuddy/Models/AppSettings.swift:99-101 | what the setter stores decodes to the new mode, every other preference unchanged |
| Settings.DecodeAfterSetVoiceEnabled | GymBuddy/Models/AppSettings.swift:103-105 | what the setter stores decodes to the new flag, every other preference unchanged |
| Settings.DecodeAfterSetAppLanguage | GymBuddy/Models/AppSettings.swift:107-109 | what the setter stores decodes to the new language, every other preference unchanged |
| Settings.DecodeAfterSetCoachVerbosity | GymBuddy/Models/AppSettings.swift:111-113 | what the setter stores decodes to the new verbosity, every other preference unchanged |
| Settings.DecodeAfterSetVoiceCountdownEnabled | GymBuddy/Models/AppSettings.swift:115-117 | what the setter stores decodes to the new flag, every other preference unchanged |
| Settings.DecodeAfterSetPreferredVoiceIdentifier | GymBuddy/Models/AppSettings.swift:119-121 | a stored identifier decodes to that identifier, every other preference unchanged |
| Settings.DecodeWithoutPreferredVoice | GymBuddy/Models/AppSettings.swift:119-121 | removing the identifier decodes to no preferred voice, every other preference unchanged |
| Settings.DecodeAfterSetDefaultRestSeconds | GymBuddy/Models/AppSettings.swift:123-125 | a stored rest decodes to itself when positive and to 90 otherwise, every other preference unchanged |
| Settings.DecodeAfterSetUseElevenLabs | GymBuddy/Models/AppSettings.swift:129-131 | what the setter stores decodes to the new flag, every other preference unchanged |
| Settings.DecodeAfterSetElevenLabsVoiceId | GymBuddy/Models/AppSettings.swift:145-147 | what the setter stores decodes to the new voice, every other preference unchanged |
| Settings.AvailableVoices | GymBuddy/Models/AppSettings.swift:161-165 | exactly the installed voices whose language starts with the app language code, each as often, sorted by name |
| Settings.AppSettings.constructor | GymBuddy/Models/AppSettings.swift:169-236 | the preferences are the store's decoding; a non-empty legacy API key moves to the keychain and leaves the store |
| Settings.AppSettings.SetAppearanceMode | GymBuddy/Models/AppSettings.swift:99-101 | the preference changes and its raw value is written under its key; memory and store stay in step |
| Settings.AppSettings.SetVoiceEnabled | GymBuddy/Models/AppSettings.swift:103-105 | the preference changes and the flag is written under its key; memory and store stay in step |
| Settings.AppSettings.SetAppLanguage | GymBuddy/Models/AppSettings.swift:107-109 | the preference changes and its raw value is written under its key; memory and store stay in step |
| Settings.AppSettings.SetCoachVerbosity | GymBuddy/Models/AppSettings.swift:111-113 | the preference changes and its raw value is written under its key; memory and store stay in step |
| Settings.AppSettings.SetVoiceCountdownEnabled | GymBuddy/Models/AppSettings.swift:115-117 | the preference changes and the flag is written under its key; memory and store stay in step |
| Settings.AppSettings.SetPreferredVoiceIdentifier | GymBuddy/Models/AppSettings.swift:119-121 | an identifier is written under its key, nil removes the key; memory and store stay in step |
| Settings.AppSettings.SetDefaultRestSeconds | GymBuddy/Models/AppSettings.swift:123-125 | the number is written as given; memory and store stay in step exactly when it is positive, else the next launch reads 90 |
| Settings.AppSettings.SetUseElevenLabs | GymBuddy/Models/AppSettings.swift:129-131 | the preference changes and the flag is written under its key; memory and store stay in step |
| Settings.AppSettings.SetElevenLabsVoiceId | GymBuddy/Models/AppSettings.swift:145-147 | the preference changes and the identifier is written under its key; memory and store stay in step |
| Settings.AppSettings.SetElevenLabsApiKey | GymBuddy/Models/AppSettings.swift:134-143 | a non-empty key is saved in the keychain; nil or "" deletes it; the preferences and the store are untouched |
| NowPlaying.FormatTime | GymBuddy/Services/NowPlayingService.swift:170-177 | under a minute "<s>s", from a minute on "m:ss" of the minutes and seconds |
| NowPlaying.FormatTimeRoundTrip | GymBuddy/Services/NowPlayingService.swift:170-177 | every non-negative count reads back from its lock-screen text |
| NowPlaying.ReadsSeconds | GymBuddy/Services/NowPlayingService.swift:176 | "<s>s" reads back as s seconds |
| NowPlaying.ReadsMinutesSeconds | GymBuddy/Services/NowPlayingService.swift:174 | "m:ss" reads back as m minutes and ss seconds |
| NowPlaying.FormatTimeInjective | GymBuddy/Services/NowPlayingService.swift:170-177 | different non-negative counts never show the same text |
| NowPlaying.NowPlayingFields | GymBuddy/Services/NowPlayingService.swift:72-96 | the upper-cased name (Text.Upper) as title, one character longer per ß and with no character left that has an upper case; "REST - t" exactly when resting with a known time, else the set line; rate 0 exactly when resting; duration five seconds above what remains and elapsed 5, only then |
| Text.Upper | GymBuddy/Services/NowPlayingService.swift:75 | `uppercased()`: one character longer than the text per ß (which becomes "SS"), no character left that has an upper case, and character for character the upper case where the text holds no ß |
| Text.UpperAppend | GymBuddy/Services/NowPlayingService.swift:75 | upper-casing distributes over concatenation |
| Text.UpperIdempotent | GymBuddy/Services/NowPlayingService.swift:75 | upper-casing an upper-cased text changes nothing |
| Text.UpperEszett | GymBuddy/Services/NowPlayingService.swift:75 | "ß" upper-cases to "SS" |
| Text.UpperSharpS | GymBuddy/Services/NowPlayingService.swift:75 | a trailing ß upper-cases to "SS" after the upper-cased rest, two characters for one |
| NowPlaying.RestTimerFields | GymBuddy/Services/NowPlayingService.swift:103-111 | title "REST", the time and next exercise as artist, rate 1, the whole rest as duration and elapsed plus remaining equal to it |
| NowPlaying.NowPlayingService.constructor | GymBuddy/Services/NowPlayingService.swift:23-37 | the audio session gets the playback category exactly when `setCategory` succeeds, and is active exactly when both calls succeed; nothing is active, registered or shown |
| NowPlaying.NowPlayingService.Activate | GymBuddy/Services/NowPlayingService.swift:42-50 | becomes active; the commands are registered and remote events received only on the first call |
| NowPlaying.NowPlayingService.Deactivate | GymBuddy/Services/NowPlayingService.swift:53-62 | becomes inactive; when it was active, the commands go, the lock screen is cleared and remote events stop; otherwise nothing changes |
| NowPlaying.NowPlayingService.UpdateNowPlaying | GymBuddy/Services/NowPlayingService.swift:65-99 | the lock screen shows exactly NowPlayingFields of the arguments; nothing else changes |
| NowPlaying.NowPlayingService.UpdateRestTimer | GymBuddy/Services/NowPlayingService.swift:102-114 | the lock screen shows exactly RestTimerFields of the arguments; nothing else changes |
| NowPlaying.NowPlayingService.ClearNowPlayingInfo | GymBuddy/Services/NowPlayingService.swift:117-119 | the lock screen shows nothing |
| RestTimer.TimeString | GymBuddy/Views/Workout/RestTimerBar.swift:80-84 | under a minute the bare second count, from a minute on "m:ss" of the minutes and seconds |
| RestTimer.TimeStringRoundTrip | GymBuddy/Views/Workout/RestTimerView.swift:78-85 | every non-negative count reads back from its countdown text |
| RestTimer.ReadsMinutesSeconds | GymBuddy/Views/Workout/RestTimerView.swift:81-82 | "m:ss" reads back as m minutes and ss seconds |
| RestTimer.TimeStringInjective | GymBuddy/Views/Workout/RestTimerBar.swift:80-84 | different non-negative counts never show the same text |
| RestTimer.BarColor | GymBuddy/Views/Workout/RestTimerBar.swift:17-21 | the bar is red exactly when ten seconds or less remain, the accent otherwise |
| RestTimer.Progress | GymBuddy/Views/Workout/RestTimerBar.swift:12-15 | the fraction equals remaining over total; 0 without a positive total |
| RestTimer.AdjustRequest | GymBuddy/Views/Workout/RestTimerBar.swift:34-65 | the left button requests −15 seconds, the right one +15 |
| RestTimer.AdjustLabelShowsRequest | GymBuddy/Views/Workout/RestTimerBar.swift:34-50 | each button's label shows the sign and size of the step it requests |
| RestTimer.Label | GymBuddy/Views/Workout/RestTimerView.swift:36-46 | "ALMOST THERE" exactly in the last ten seconds, "GET READY" before |
| RestTimer.Respond | GymBuddy/Views/Workout/RestTimerView.swift:14-16 | both triggers end in one skip; only the skip button first fires a light haptic (lines 51-54) |
| VoiceSelection.QualityRank | GymBuddy/Views/Settings/VoiceSelectionView.swift:22-31 | 3 exactly for a "premium" identifier, 2 exactly for an other enhanced voice, 1 otherwise |
| VoiceSelection.RankThenNameIsOrder | GymBuddy/Views/Settings/VoiceSelectionView.swift:11-18 | the screen's comparator is a strict weak order, as `sorted(by:)` demands |
| VoiceSelection.SortedVoices | GymBuddy/Views/Settings/VoiceSelectionView.swift:10-19 | the same voices, by nonincreasing rank, in code-point order of the name within a rank |
| VoiceSelection.QualityBadge | GymBuddy/Views/Settings/VoiceSelectionView.swift:165-188 | PREMIUM exactly for rank 3, ENHANCED exactly for rank 2, no badge for rank 1 |
| VoiceSelection.SeparatorPosition | GymBuddy/Views/Settings/VoiceSelectionView.swift:192-209 | the description is the gender label, " · ", then the quality label |
| VoiceSelection.DescriptionShowsGenderAndRank | GymBuddy/Views/Settings/VoiceSelectionView.swift:192-209 | two voices with the same description have the same gender label and rank |
| VoiceSelection.VoiceSelectionView.constructor | GymBuddy/Views/Settings/VoiceSelectionView.swift:4-7 | nothing is playing or spoken yet |
| VoiceSelection.VoiceSelectionView.SelectAuto | GymBuddy/Views/Settings/VoiceSelectionView.swift:66-71 | forgets the preferred voice, so only the automatic row is checked (line 96), and removes its user-defaults key; the API key stays and memory keeps matching the store; invalidates the voice cache; one haptic |
| VoiceSelection.VoiceSelectionView.SelectVoice | GymBuddy/Views/Settings/VoiceSelectionView.swift:113-118 | prefers the voice, so only its row is checked, and writes its identifier under the user-defaults key; the API key stays and memory keeps matching the store; invalidates the voice cache; one haptic |
| VoiceSelection.VoiceSelectionView.TestVoice | GymBuddy/Views/Settings/VoiceSelectionView.swift:211-240 | while speaking, stops and clears the playing voice; otherwise speaks the test phrase of the app language in that voice and marks it playing |
| VoiceSelection.VoiceSelectionView.SpeechFinished | GymBuddy/Views/Settings/VoiceSelectionView.swift:211-240 | the synthesizer is no longer speaking |
| VoiceSelection.VoiceSelectionView.FireDeferredReset | GymBuddy/Views/Settings/VoiceSelectionView.swift:235-239 | the delayed reset clears the playing voice only if that voice is still the one playing |
| ElevenLabsVoices.Id | GymBuddy/Views/Settings/ElevenLabsVoicePickerView.swift:6-21 | a voice's id is its 20-character ElevenLabs raw value |
| ElevenLabsVoices.IdsDistinct | GymBuddy/Views/Settings/ElevenLabsVoicePickerView.swift:8-19 | no two voices share an id, so the id identifies the voice |
| ElevenLabsVoices.AllCasesEnumerates | GymBuddy/Views/Settings/ElevenLabsVoicePickerView.swift:6-19 | `allCases` lists each of the ten voices exactly once |
| ElevenLabsVoices.Gender | GymBuddy/Views/Settings/ElevenLabsVoicePickerView.swift:53-60 | "Female" exactly for Rachel, Domi, Bella, Elli and Charlotte, "Male" otherwise |
| ElevenLabsVoices.Icon | GymBuddy/Views/Settings/ElevenLabsVoicePickerView.swift:62-64 | every voice gets "person.fill", whatever its gender |
| ElevenLabsVoices.IsRecommended | GymBuddy/Views/Settings/ElevenLabsVoicePickerView.swift:67-72 | exactly Adam, Josh, Domi and Sam are recommended |
| ElevenLabsVoices.RecommendedThenNameIsStrictWeakOrder | GymBuddy/Views/Settings/ElevenLabsVoicePickerView.swift:83-89 | the picker's comparator is a strict weak order, as `sorted(by:)` demands |
| ElevenLabsVoices.SortVoices | GymBuddy/Views/Settings/ElevenLabsVoicePickerView.swift:83-89 | the same voices, recommended before the others, by name within each group |
| ElevenLabsVoices.SortedVoices | GymBuddy/Views/Settings/ElevenLabsVoicePickerView.swift:82-90 | all ten voices, each once, recommended first, then by name |
| ElevenLabsVoices.DefaultVoiceIsRachel | GymBuddy/Models/AppSettings.swift:235 | the settings' fallback voice id is Rachel's |
| ElevenLabsVoices.ElevenLabsVoicePicker.constructor | GymBuddy/Views/Settings/ElevenLabsVoicePickerView.swift:77-80 | the picker works on the shared settings and cache |
| ElevenLabsVoices.ElevenLabsVoicePicker.SelectVoice | GymBuddy/Views/Settings/ElevenLabsVoicePickerView.swift:173-179 | stores the id and writes it back, so exactly that row is checked (line 146); the API key stays; one haptic; the cache is cleared as ClearCache states: only removals, nothing on a failed listing, every undeletable file kept, empty when nothing fails |
| StartScreen.IconBranch | GymBuddy/Views/StartScreenView.swift:15-29 | the branch taken is one of the six |
| StartScreen.IconIsFirstMatchingBranch | GymBuddy/Views/StartScreenView.swift:15-29 | the icon is that of the first branch whose keyword occurs; no keyword gives the dumbbell |
| StartScreen.IconIgnoresCase | GymBuddy/Views/StartScreenView.swift:16 | a name and its lowercase spelling get the same icon |
| StartScreen.RueckenAsWrittenNeverMatches | GymBuddy/Views/StartScreenView.swift:19 | as written, the back keyword never occurs in a lowercased name |
| StartScreen.RueckenFallsThrough | GymBuddy/Views/StartScreenView.swift:19 | as written, "Rücken" gets the dumbbell icon |
| StartScreen.RueckenIsBack | GymBuddy/Views/StartScreenView.swift:19 | with the intended keyword, "Rücken" gets the back icon |
| StartScreen.NoKeywordIn | GymBuddy/Views/StartScreenView.swift:15-29 | "rücken" holds none of the other keywords |
| StartScreen.MusclesFor | GymBuddy/Views/StartScreenView.swift:32-42 | the Push, Pull and Legs summaries in that priority, else the exercise count |
| StartScreen.MusclesForShowsCount | GymBuddy/Views/StartScreenView.swift:32-42 | a name without the keywords shows a count that reads back as the exercise count |
| StartScreen.StartScreenView.constructor | GymBuddy/Views/StartScreenView.swift:244-253 | no editor is open and no haptic has fired |
| StartScreen.StartScreenView.OnTap | GymBuddy/Views/StartScreenView.swift:244-253 | an empty plan opens its editor and leaves the session alone; any other plan fires a heavy haptic, starts its workout and appends the announcement of the plan and its first exercise to the cues. Timers and pending dismissals are unchanged |
| Theme.TrimStart | GymBuddy/Theme.swift:65 | drops exactly the leading characters that are not letters or digits |
| Theme.TrimEnd | GymBuddy/Theme.swift:65 | drops exactly the trailing characters that are not letters or digits |
| Theme.Trim | Theme.swift:47 | the trimmed text is empty or starts and ends with a letter or digit |
| Theme.TrimSurrounding | GymBuddy/Theme.swift:65 | trimming a text wrapped in non-alphanumerics gives back the text |
| Theme.HexValue | GymBuddy/Theme.swift:67 | n hex digits denote a number below 16^n |
| Theme.LeadingHex | GymBuddy/Theme.swift:67 | the longest prefix of hex digits |
| Theme.ScannedDigits | GymBuddy/Theme.swift:67 | the scanner consumes only hex digits, after an optional 0x prefix |
| Theme.ScanHex | GymBuddy/Theme.swift:66-67 | `scanHexInt64` yields an unsigned 64-bit value, `UInt64.max` on overflow |
| Theme.ScanAllHex | GymBuddy/Theme.swift:66-67 | up to eight hex digits scan to their value |
| Theme.Components | Theme.swift:51-59 | every component is a byte; a length other than 3, 6 or 8 gives (1, 1, 1, 0); lengths 3 and 6 are opaque |
| Theme.ColorFromHex | GymBuddy/Theme.swift:64-86 | every component is a byte whatever the text; a trimmed length other than 3, 6 or 8 gives the fallback |
| Theme.HexColor | GymBuddy/Theme.swift:64-78 | on hex digits, the colour is the length switch applied to their value |
| Theme.ColorThreeDigits | GymBuddy/Theme.swift:70-71 | three digits: opaque, each digit times 17 |
| Theme.ColorSixDigits | GymBuddy/Theme.swift:72-73 | six digits: opaque, then red, green and blue as consecutive bytes |
| Theme.ColorEightDigits | GymBuddy/Theme.swift:74-75 | eight digits: alpha, red, green and blue as consecutive bytes |
| Theme.ColorIgnoresSurrounding | GymBuddy/Theme.swift:65 | non-alphanumerics around the digits, such as a leading "#", change nothing |
| Theme.AccentComponents | GymBuddy/Theme.swift:9 | the accent is opaque (255, 79, 0) |
| Theme.AccentWithHash | GymBuddy/Theme.swift:9 | "#FF4F00" gives the same colour as "FF4F00" |
| Theme.DestructiveComponents | GymBuddy/Theme.swift:13 | the destructive red is opaque (255, 69, 58) |
| Theme.ShortFormDoubles | GymBuddy/Theme.swift:70-73 | a three-digit colour equals its six-digit spelling with every digit doubled |
| Theme.DoubledColor | GymBuddy/Theme.swift:72-73 | six digits in equal pairs give each component as 17 times its digit |
| Exercises.DecimalShape | GymBuddy/Models/Exercise.swift:75-79 | a weight that is not whole kilograms shows its sign, the kilograms, a dot and the tenths digit |


## Left out

- SwiftUI rendering is not modelled: layout, animation, sheets, previews, the
  design-lab screens, the settings and summary screens, the plan list and the
  app entry points. Only the logic these views call is modelled.
- `isPaused`, `togglePause`, `adjustRest`, `jumpToExercise`,
  `markExerciseComplete` and `dismissSummary` are called by
  `ActiveWorkoutView`, but their source is not part of this model. No contract
  is given for them.
- Timers and deferred work are events. `Timer.scheduledTimer` is a handle in a
  set of live handles, a tick is a method call, and a `DispatchQueue` delay is
  a separate method the caller fires. Real time is not modelled.
- Speech, haptics and the speech synthesizer are recorded as logs and counters:
  the cues announced, the utterances handed over, and the haptics fired by
  the modelled operations. What they sound or feel like is not modelled. The
  haptics of buttons in unmodelled views, such as the picker's filter chips,
  are not recorded.
- The ElevenLabs network client is not modelled, and neither is the picker's
  asynchronous `previewVoice` task; both are network I/O and concurrency.
- The keychain is an optional string held by the settings object. Failures of
  the Security framework are not modelled.
- MediaPlayer remote commands and the audio-session set-up are flags and a
  registration counter; a failure of `setCategory` or `setActive` is a
  parameter of the constructor, and the message printed for it is not
  modelled. The play, pause and next-track callbacks are not modelled.
- SwiftData is a model context holding sequences. Its fetch and save failures
  are not modelled, and a fetch returns objects in storage order.
- The file system of the audio cache is a map from file names to bytes. Its
  failures are explicit parameters of each operation.
- SHA-256 is a parameter: any function from bytes to 32 bytes. Only the hex
  formatting around it is modelled.
- Floating point is not modelled. Ratios such as `restProgress` and `progress`
  are kept as (numerator, denominator) pairs, weights as tenths of a kilogram,
  and colour components as integers before the division by 255. The speech
  rate and pitch are not modelled.
- `Date` and `TimeInterval` are integer seconds.
- UserDefaults is a map from keys to text, flag or number values. `Locale` is
  the system language code, passed as a parameter.
- Lower- and upper-casing cover ASCII and Latin-1 only, including the three
  Latin-1 letters whose upper case lies outside it or is two letters: ß
  becomes "SS", ÿ becomes Ÿ (U+0178) and µ becomes Μ (U+039C). Case mapping of
  other scripts is not modelled.
- Strings are sequences of Unicode scalars, and every comparison here is code
  point by code point. Swift's `String` `==`, `<`, hashing and Foundation's
  `contains` treat canonically equivalent texts as equal, so "Caf\u{E9}" (one
  precomposed é) and "Cafe\u{301}" (e and a combining accent) are one name in
  the app and two names here. No normalisation is modelled, and the members
  below state their contracts under code-point equality. On texts already in
  one normal form, such as NFC, the two comparisons agree.
- PlanSeeding.Group: groups plans by code-point equality of the name, where
  `Dictionary(grouping:by:)` groups canonically equivalent names together and
  then deletes all but one of them. So PlanSeeding.Kept,
  PlanSeeding.KeptAllWhenClean, PlanSeeding.CleanedNamesDistinct and
  PlanSeeding.CleanupKeepsCleanStore speak of names distinct as code-point
  sequences; two equivalent spellings both survive here.
- ExerciseManagement.ExerciseManager.CreateCustomExercise: the
  case-insensitive match compares lowercased code points, so "CAFE\u{301}"
  creates a second definition beside a stored "Café" where the app returns
  the stored one. PlanSeeding.CreateKeepsNamesDistinct is stated under the
  same equality.
- ExerciseManagement.ExerciseManager.SearchExercises, ExercisePicker.Filtered
  and StartScreen.IconBranch: the substring test is on code points, so a
  query or keyword written in another normal form than the name does not
  match here.
- VoiceSelection.SortedVoices: names within a rank are ordered by code point,
  not by Swift's `String` order on canonical equivalents.
- `Dictionary` iteration order is unspecified in Swift. Step B of
  `cleanupInvalidPlans` visits the names in storage order here; the set of
  deleted plans is the same in any order, as each group is handled on its own.
- AudioCache.AudioCacheService.ClearCache: removes the files in an unspecified
  order, as the directory listing gives them. When an undeletable file stops the
  loop, which files are already gone is not stated.
- AudioCache.AudioCacheService.CacheSize: the total is an unbounded integer.
  The overflow of Swift's `Int64` running sum is not modelled.
- ElevenLabsVoices.SortedVoices: states the order property and the permutation,
  not the concrete ten-element list that results.
- ElevenLabsVoices.ElevenLabsVoicePicker.SelectVoice: of the cache clearing it
  states what ClearCache states, so the same listing order is left open.
- ExerciseManagement.SortByName: orders names by Unicode code point, which
  stands in for the `.localizedStandard` comparison that `SortDescriptor(\.name)`
  uses. That comparison ignores case and accents and compares runs of digits
  by their number, so "crunches am Ball" comes before "Dips (Brust)" in the app
  but after it here, and "Überzüge" comes after every ASCII name here. Only
  the permutation and the sortedness under code-point order are stated.
- ExerciseManagement.ExerciseManager.RefreshCache: the cache is sorted by the
  same code-point order, so the order of `allExercises` and of everything
  derived from it differs from the app's for such names. This covers
  `searchExercises`, `exercises(for:)`, `exercises(withEquipment:)`, the
  picker's list and the first match that `createCustomExercise` returns.
- PlanSeeding.DefinitionsByName: requires pairwise distinct names, because
  `Dictionary(uniqueKeysWithValues:)` traps on a repeated key. That crash is
  not modelled. The seeded library meets the requirement
  (ExerciseSeed.SeededNamesDistinct), and so does a store grown by
  `createCustomExercise` against a fresh cache
  (PlanSeeding.CreateKeepsNamesDistinct).
- PlanSeeding.SeedDefaultPlans: carries the same distinct-names requirement,
  for the same dictionary. Seeding over a store with a repeated name, where
  the app crashes, is not modelled.
- The session holds its own copy of the plan's name and exercises, taken at
  `startWorkout`. In the app `WorkoutSession.plan` is a reference to the live
  plan, so an edit to that plan during a workout would show in
  `sortedExercises`. Here such an edit is not seen by the session.
- The legacy manager's own session type is not part of this model.
  LegacySessionManager runs on the current `Session.WorkoutSession` value, so
  any way the older type differs from it is not captured.
- Theme.TrimStart, Theme.TrimEnd and Theme.Trim treat as alphanumeric only the
  ASCII and Latin-1 members of `CharacterSet.alphanumerics`: the letters
  (with ª, µ and º), the decimal digits, the superscripts ¹ ² ³ and the
  fractions ¼ ½ ¾. That set holds every Unicode letter, mark and number, so
  characters beyond Latin-1 are trimmed here but kept in the app.
- Theme.ColorFromHex: the length switch counts code points, while Swift's
  `hex.count` counts grapheme clusters. The two differ on texts with combining
  marks or other multi-code-point characters.
- PlanSeeding.CleanupInvalidPlans: the console messages for each invalid plan,
  each duplicate and the final total are not modelled (printing is
  output only). The total itself is returned.
- Settings.StringFor: the store holds integers, not doubles, so the text form
  of a stored `Double` is not modelled.
- Settings.BoolFor: a text counts as an integer only when it is an optional
  '-' followed by digits. Leading blanks, a '+' sign and trailing characters
  that Foundation's number scanning accepts are not modelled, and "true" and
  "yes" are matched with ASCII and Latin-1 case folding only.
- Settings.IntegerFor: reads a text by the same integer syntax, so leading
  blanks, a '+' sign, trailing characters and a decimal fraction that
  Foundation accepts give 0 here.
- Every `sorted(by:)` is one stable insertion sort. Swift does not promise a
  stable sort, so elements that compare equal (two exercises with the same
  `orderIndex`) may come out in another order in the app.

## Findings

| source | as written | input that shows it | evidently intended | confidence | as-written member | corrected member |
|---|---|---|---|---|---|---|
| GymBuddy/Views/StartScreenView.swift:19 | the keyword of the back branch is the literal "rÃ¼cken", which is "rücken" in UTF-8 mis-read as Latin-1; it holds the capital `Ã`, so a lowercased name never contains it | a plan named "Rücken" gets the dumbbell icon (StartScreen.RueckenFallsThrough) | the keyword "rücken", so that "Rücken" gets the back icon | not executed | StartScreen.RueckenAsWrittenNeverMatches | StartScreen.RueckenIsBack |
