/**
 * `WorkoutSession`: the value the session manager keeps while a workout runs,
 * with its derived quantities, and the session-level effect of the manager's
 * transitions (completing a set, ending a rest).
 *
 * The session's `plan` reference is represented by the plan's name and the
 * exercise list it held when the workout started; the manager never edits the
 * plan during a workout. Times are whole seconds.
 */
module Session {
  import opened Wrappers
  import opened Text
  import opened Lists
  import opened Exercises

  datatype State = Active | Resting | Paused | Completed

  datatype WorkoutSession = WorkoutSession(
    planName: string,
    exercises: seq<Exercise>,
    state: State,
    currentExerciseIndex: int,
    currentSetNumber: int,      // 1-based
    restTimeRemaining: int,
    originalRestDuration: int,
    startTime: int,
    endTime: Option<int>)

  /** The memberwise initialiser with its defaults; `startTime` is `Date()`, here a parameter. */
  function NewSession(
    planName: string, exercises: seq<Exercise>, startTime: int,
    state: State := Active, currentExerciseIndex: int := 0, currentSetNumber: int := 1,
    restTimeRemaining: int := 0): (s: WorkoutSession)
    ensures s.planName == planName && s.exercises == exercises && s.startTime == startTime
    ensures s.state == state && s.currentExerciseIndex == currentExerciseIndex
    ensures s.currentSetNumber == currentSetNumber && s.restTimeRemaining == restTimeRemaining
    ensures s.originalRestDuration == 0 && s.endTime == None
  {
    WorkoutSession(planName, exercises, state, currentExerciseIndex, currentSetNumber,
      restTimeRemaining, 0, startTime, None)
  }

  /** Default construction: active at the first set of the first exercise, no rest. */
  lemma NewSessionDefaults(planName: string, exercises: seq<Exercise>, startTime: int)
    ensures var s := NewSession(planName, exercises, startTime);
      s.state == Active && s.currentExerciseIndex == 0 && s.currentSetNumber == 1 &&
      s.restTimeRemaining == 0 && s.originalRestDuration == 0 && s.endTime == None
  {
  }

  // ---------------------------------------------------------------------------
  // Derived quantities
  // ---------------------------------------------------------------------------

  /** The comparator `$0.orderIndex < $1.orderIndex`. */
  predicate OrderLt(a: Exercise, b: Exercise) {
    a.orderIndex < b.orderIndex
  }

  lemma OrderLtIsStrictWeakOrder()
    ensures StrictWeakOrder(OrderLt)
  {
  }

  /** `sortedExercises`: the plan's exercises by ascending `orderIndex`. */
  function SortByOrder(exs: seq<Exercise>): (r: seq<Exercise>)
    ensures multiset(r) == multiset(exs) && |r| == |exs|
    ensures forall i, j :: 0 <= i < j < |r| ==> r[i].orderIndex <= r[j].orderIndex
  {
    OrderLtIsStrictWeakOrder();
    SortPermutes(exs, OrderLt);
    SortSorts(exs, OrderLt);
    SortLength(exs, OrderLt);
    SortBy(exs, OrderLt)
  }

  function SortedExercises(s: WorkoutSession): (r: seq<Exercise>)
    ensures multiset(r) == multiset(s.exercises) && |r| == |s.exercises|
    ensures forall i, j :: 0 <= i < j < |r| ==> r[i].orderIndex <= r[j].orderIndex
  {
    SortByOrder(s.exercises)
  }

  /** `currentExercise`: the sorted exercise at the current index, nil when the index is out of range. */
  function CurrentExercise(s: WorkoutSession): (r: Option<Exercise>)
    ensures r.None? <==> !(0 <= s.currentExerciseIndex < |s.exercises|)
    ensures r.Some? ==> r.value == SortedExercises(s)[s.currentExerciseIndex] && r.value in s.exercises
  {
    var sorted := SortedExercises(s);
    if 0 <= s.currentExerciseIndex < |sorted| then
      assert sorted[s.currentExerciseIndex] in multiset(s.exercises);
      Some(sorted[s.currentExerciseIndex])
    else None
  }

  /** `totalExercises`. */
  function TotalExercises(s: WorkoutSession): nat {
    |s.exercises|
  }

  /** `isLastExercise`: the index has reached the last position (or passed it). */
  predicate IsLastExercise(s: WorkoutSession) {
    s.currentExerciseIndex >= |s.exercises| - 1
  }

  /** `isLastSet`: no current exercise, or its set count is reached. */
  predicate IsLastSet(s: WorkoutSession) {
    match CurrentExercise(s)
    case None => true
    case Some(e) => s.currentSetNumber >= e.sets
  }

  /** `restProgress` as a fraction (numerator, denominator); the guard makes it 0 without a rest length. */
  function RestProgress(s: WorkoutSession): (r: (int, int))
    ensures r.1 > 0
    ensures s.originalRestDuration <= 0 ==> r.0 == 0
    ensures s.originalRestDuration > 0 ==> r.0 * s.originalRestDuration == s.restTimeRemaining * r.1
  {
    if s.originalRestDuration > 0 then (s.restTimeRemaining, s.originalRestDuration) else (0, 1)
  }

  /** `duration` in whole seconds: up to `endTime`, or up to `now` while it is unset. */
  function Duration(s: WorkoutSession, now: int): int {
    s.endTime.GetOr(now) - s.startTime
  }

  /** `durationFormatted`: "%02d:%02d" of the truncating quotient and remainder by 60. */
  function DurationFormatted(s: WorkoutSession, now: int): (r: string)
    ensures |r| >= 5
  {
    var t := Duration(s, now);
    Pad2(Quot(t, 60)) + ":" + Pad2(Rem(t, 60))
  }

  /** For a non-negative duration the string reads back as minutes and seconds of it. */
  lemma DurationFormattedReadsBack(s: WorkoutSession, now: int)
    requires Duration(s, now) >= 0
    ensures var r := DurationFormatted(s, now);
      r[|r| - 3] == ':' && AllDigits(r[..|r| - 3]) && AllDigits(r[|r| - 2..]) &&
      DigitsValue(r[..|r| - 3]) * 60 + DigitsValue(r[|r| - 2..]) == Duration(s, now) &&
      DigitsValue(r[|r| - 2..]) < 60
  {
    var t := Duration(s, now);
    var m := Pad2(Quot(t, 60));
    var sec := Pad2(Rem(t, 60));
    var r := DurationFormatted(s, now);
    assert r == m + ":" + sec;
    assert |sec| == 2;
    assert r[..|r| - 3] == m;
    assert r[|r| - 2..] == sec;
    Pad2Value(Quot(t, 60));
    Pad2Value(Rem(t, 60));
  }

  /** The sum of `sets` over the first `k` exercises of `xs` (all of them when `k` exceeds the count). */
  function SumSets(xs: seq<Exercise>, k: int): int
    decreases if k < 0 then 0 else k
  {
    if k <= 0 then 0
    else if k > |xs| then SumSets(xs, |xs|)
    else SumSets(xs, k - 1) + xs[k - 1].sets
  }

  /** What `totalSetsCompleted` counts: the earlier exercises' sets, the current exercise's finished sets, and the final set once completed. */
  function SetsCompleted(s: WorkoutSession): int {
    var sorted := SortedExercises(s);
    var i := s.currentExerciseIndex;
    SumSets(sorted, i) + (if 0 <= i < |sorted| then s.currentSetNumber - 1 else 0)
      + (if s.state == Completed then 1 else 0)
  }

  function Min(a: int, b: int): int {
    if a <= b then a else b
  }

  /** `totalSetsCompleted`: the loop over the enumerated sorted exercises. */
  method TotalSetsCompleted(s: WorkoutSession) returns (completed: int)
    ensures completed == SetsCompleted(s)
  {
    var sorted := SortedExercises(s);
    var current := s.currentExerciseIndex;
    completed := 0;
    for index := 0 to |sorted|
      invariant completed == SumSets(sorted, Min(index, current)) + (if 0 <= current < index then s.currentSetNumber - 1 else 0)
    {
      if index < current {
        completed := completed + sorted[index].sets;
      } else if index == current {
        completed := completed + s.currentSetNumber - 1;
      }
    }
    if s.state == Completed {
      completed := completed + 1;
    }
  }

  // ---------------------------------------------------------------------------
  // Transitions
  // ---------------------------------------------------------------------------

  /**
   * The session after `completeSet`: with the index in range, the next set of the
   * same exercise, else the first set of the next exercise (both resting for the
   * just-finished exercise's `restSeconds`), else completed with position kept.
   */
  function AfterCompleteSet(s: WorkoutSession): (r: WorkoutSession)
    ensures r.planName == s.planName && r.exercises == s.exercises
    ensures r.startTime == s.startTime && r.endTime == s.endTime
    ensures r.originalRestDuration == s.originalRestDuration
  {
    var sorted := SortedExercises(s);
    var i := s.currentExerciseIndex;
    if !(0 <= i < |sorted|) then s
    else
      var current := sorted[i];
      if s.currentSetNumber < current.sets then
        s.(currentSetNumber := s.currentSetNumber + 1, state := Resting, restTimeRemaining := current.restSeconds)
      else if i < |sorted| - 1 then
        s.(currentExerciseIndex := i + 1, currentSetNumber := 1, state := Resting, restTimeRemaining := current.restSeconds)
      else
        s.(state := Completed)
  }

  /** The session after `endRest`: active again, nothing else touched. */
  function AfterRestEnd(s: WorkoutSession): (r: WorkoutSession)
    ensures r.state == Active
    ensures r.(state := s.state) == s
  {
    s.(state := Active)
  }

  /** The four outcomes of `completeSet`, in the order its branches test them. */
  datatype Advance = NoExercise | NextSet | NextExercise | Finish

  function AdvanceOf(s: WorkoutSession): (a: Advance)
    ensures a == NoExercise <==> CurrentExercise(s).None?
    ensures a == NextSet <==> CurrentExercise(s).Some? && !IsLastSet(s)
    ensures a == NextExercise <==> CurrentExercise(s).Some? && IsLastSet(s) && !IsLastExercise(s)
    ensures a == Finish <==> CurrentExercise(s).Some? && IsLastSet(s) && IsLastExercise(s)
  {
    var sorted := SortedExercises(s);
    var i := s.currentExerciseIndex;
    if !(0 <= i < |sorted|) then NoExercise
    else if s.currentSetNumber < sorted[i].sets then NextSet
    else if i < |sorted| - 1 then NextExercise
    else Finish
  }

  /** The session after one timer tick: a resting session counts down, and ends its rest instead of reaching zero. */
  function AfterTick(s: WorkoutSession): (r: WorkoutSession)
    ensures s.state != Resting ==> r == s
    ensures s.state == Resting && s.restTimeRemaining - 1 > 0 ==>
      r == s.(restTimeRemaining := s.restTimeRemaining - 1)
    ensures s.state == Resting && s.restTimeRemaining - 1 <= 0 ==> r == s.(state := Active)
  {
    if s.state != Resting then s
    else if s.restTimeRemaining - 1 <= 0 then AfterRestEnd(s)
    else s.(restTimeRemaining := s.restTimeRemaining - 1)
  }

  function Ticks(s: WorkoutSession, k: nat): WorkoutSession {
    if k == 0 then s else AfterTick(Ticks(s, k - 1))
  }

  /**
   * A rest of d seconds stays resting, counting d, d-1, ..., for max(d, 1) ticks
   * and then ends; the stored remaining time stops at its last value before zero.
   */
  lemma {:induction false} RestCountdown(s: WorkoutSession, k: nat)
    requires s.state == Resting
    ensures var d := s.restTimeRemaining; var len := if d >= 1 then d else 1;
      && (k < len ==> Ticks(s, k) == s.(restTimeRemaining := d - k))
      && (k == len ==> Ticks(s, k) == s.(state := Active, restTimeRemaining := if d >= 1 then 1 else d))
  {
    if k > 0 {
      RestCountdown(s, k - 1);
    }
  }

  /** `completeSet` follows the session's own flags, whatever the current state. */
  lemma CompleteSetFollowsFlags(s: WorkoutSession)
    requires CurrentExercise(s).Some?
    ensures var e := CurrentExercise(s).value; var r := AfterCompleteSet(s);
      && (!IsLastSet(s) ==>
            r.state == Resting && r.currentSetNumber == s.currentSetNumber + 1 &&
            r.currentExerciseIndex == s.currentExerciseIndex && r.restTimeRemaining == e.restSeconds)
      && (IsLastSet(s) && !IsLastExercise(s) ==>
            r.state == Resting && r.currentSetNumber == 1 &&
            r.currentExerciseIndex == s.currentExerciseIndex + 1 && r.restTimeRemaining == e.restSeconds)
      && (IsLastSet(s) && IsLastExercise(s) ==>
            r == s.(state := Completed))
  {
  }

  /** Without a current exercise `completeSet` returns before changing the session. */
  lemma CompleteSetOutOfRange(s: WorkoutSession)
    requires CurrentExercise(s).None?
    ensures AfterCompleteSet(s) == s
  {
  }

  /** The rest after the last set of an exercise is that exercise's, not the next one's. */
  lemma RestAfterExerciseChangeIsPrevious(s: WorkoutSession)
    requires CurrentExercise(s).Some? && IsLastSet(s) && !IsLastExercise(s)
    ensures AfterCompleteSet(s).restTimeRemaining == SortedExercises(s)[s.currentExerciseIndex].restSeconds
    ensures CurrentExercise(AfterCompleteSet(s)) == Some(SortedExercises(s)[s.currentExerciseIndex + 1])
  {
  }

  // ---------------------------------------------------------------------------
  // Traversal: alternating completeSet with the end of the rest
  // ---------------------------------------------------------------------------

  /** One `completeSet` followed, when it started a rest, by the end of that rest. */
  function Cycle(s: WorkoutSession): (r: WorkoutSession)
    ensures r.exercises == s.exercises
  {
    var t := AfterCompleteSet(s);
    if t.state == Resting then AfterRestEnd(t) else t
  }

  /** `k` cycles from `s`. */
  function Run(s: WorkoutSession, k: nat): (r: WorkoutSession)
    ensures r.exercises == s.exercises
  {
    if k == 0 then s else Cycle(Run(s, k - 1))
  }

  /** How many `completeSet` calls an exercise takes: its `sets`, and one when `sets` is below one. */
  function Span(e: Exercise): int {
    if e.sets >= 1 then e.sets else 1
  }

  function SumSpan(xs: seq<Exercise>, k: int): int
    decreases if k < 0 then 0 else k
  {
    if k <= 0 then 0
    else if k > |xs| then SumSpan(xs, |xs|)
    else SumSpan(xs, k - 1) + Span(xs[k - 1])
  }

  /** Every exercise takes at least one step, so the running sum grows by at least the distance. */
  lemma {:induction false} SumSpanGrows(xs: seq<Exercise>, j: int, k: int)
    requires 0 <= j <= k <= |xs|
    ensures SumSpan(xs, k) >= SumSpan(xs, j) + (k - j)
    decreases k - j
  {
    if j < k {
      SumSpanGrows(xs, j, k - 1);
    }
  }

  /** With every `sets` at least one, the step count is the set count. */
  lemma {:induction false} SumSpanIsSumSets(xs: seq<Exercise>, k: int)
    requires forall e :: e in xs ==> e.sets >= 1
    ensures SumSpan(xs, k) == SumSets(xs, k)
    decreases if k < 0 then 0 else k
  {
    if k > |xs| {
      SumSpanIsSumSets(xs, |xs|);
    } else if k > 0 {
      SumSpanIsSumSets(xs, k - 1);
      assert xs[k - 1] in xs;
    }
  }

  /** The number of `completeSet` calls a workout over `exs` takes. */
  function TotalSteps(exs: seq<Exercise>): int {
    SumSpan(SortByOrder(exs), |exs|)
  }

  /** `s` is at a real (exercise, set) pair. */
  predicate WellPlaced(s: WorkoutSession) {
    var sorted := SortedExercises(s);
    && 0 <= s.currentExerciseIndex < |sorted|
    && 1 <= s.currentSetNumber <= Span(sorted[s.currentExerciseIndex])
  }

  /** The position of the pair (exercise, set) in the lexicographic enumeration of all pairs. */
  function Linear(s: WorkoutSession): int {
    SumSpan(SortedExercises(s), s.currentExerciseIndex) + s.currentSetNumber - 1
  }

  /** Pair (i1, j1) comes before pair (i2, j2) in lexicographic order. */
  predicate LexBefore(a: WorkoutSession, b: WorkoutSession) {
    a.currentExerciseIndex < b.currentExerciseIndex ||
    (a.currentExerciseIndex == b.currentExerciseIndex && a.currentSetNumber < b.currentSetNumber)
  }

  /** The enumeration respects lexicographic order. */
  lemma LinearMonotone(a: WorkoutSession, b: WorkoutSession)
    requires a.exercises == b.exercises && WellPlaced(a) && WellPlaced(b)
    ensures LexBefore(a, b) ==> Linear(a) < Linear(b)
  {
    var sorted := SortedExercises(a);
    var i := a.currentExerciseIndex;
    if i < b.currentExerciseIndex {
      SumSpanGrows(sorted, i + 1, b.currentExerciseIndex);
    }
  }

  /** Distinct pairs have distinct positions in the enumeration. */
  lemma LinearInjective(a: WorkoutSession, b: WorkoutSession)
    requires a.exercises == b.exercises && WellPlaced(a) && WellPlaced(b)
    requires Linear(a) == Linear(b)
    ensures a.currentExerciseIndex == b.currentExerciseIndex && a.currentSetNumber == b.currentSetNumber
  {
    LinearMonotone(a, b);
    LinearMonotone(b, a);
  }

  /** The pairs of a workout fill positions 0 to TotalSteps - 1. */
  lemma LinearRange(s: WorkoutSession)
    requires WellPlaced(s)
    ensures 0 <= Linear(s) < TotalSteps(s.exercises)
  {
    var sorted := SortedExercises(s);
    var i := s.currentExerciseIndex;
    SumSpanGrows(sorted, 0, i);
    SumSpanGrows(sorted, i + 1, |sorted|);
  }

  /** A cycle from a well-placed session that is not at the last pair moves to the next pair, active. */
  lemma CycleAdvances(s: WorkoutSession)
    requires WellPlaced(s) && Linear(s) + 1 < TotalSteps(s.exercises)
    ensures WellPlaced(Cycle(s)) && Cycle(s).state == Active
    ensures Linear(Cycle(s)) == Linear(s) + 1
  {
    var sorted := SortedExercises(s);
    var i := s.currentExerciseIndex;
    var e := sorted[i];
    if s.currentSetNumber >= e.sets {
      assert SumSpan(sorted, i + 1) == SumSpan(sorted, i) + Span(e);
      assert i < |sorted| - 1;
    }
  }

  /** From the last pair, `completeSet` completes the workout in place. */
  lemma LastPairCompletes(s: WorkoutSession)
    requires WellPlaced(s) && Linear(s) + 1 == TotalSteps(s.exercises)
    ensures var sorted := SortedExercises(s);
      s.currentExerciseIndex == |sorted| - 1 && s.currentSetNumber == Span(sorted[|sorted| - 1])
    ensures AfterCompleteSet(s) == s.(state := Completed)
    ensures Cycle(s) == s.(state := Completed)
  {
    var sorted := SortedExercises(s);
    var i := s.currentExerciseIndex;
    var e := sorted[i];
    assert SumSpan(sorted, i + 1) == SumSpan(sorted, i) + Span(e);
    SumSpanGrows(sorted, i + 1, |sorted|);
    assert i == |sorted| - 1;
  }

  /** The session `startWorkout` creates for a plan with these exercises. */
  function Start(planName: string, exs: seq<Exercise>, now: int): WorkoutSession {
    NewSession(planName, exs, now, Active, 0, 1, 0)
  }

  /**
   * Traversal: after k < TotalSteps cycles from the start the session is active at
   * the k-th pair in lexicographic order; after TotalSteps cycles it is completed
   * at the last set of the last exercise.
   */
  lemma {:induction false} Traversal(planName: string, exs: seq<Exercise>, now: int, k: nat)
    requires |exs| > 0
    ensures var s := Run(Start(planName, exs, now), k);
      k < TotalSteps(exs) ==> WellPlaced(s) && s.state == Active && Linear(s) == k
  {
    if k == 0 {
      TraversalStarts(planName, exs, now);
    } else if k < TotalSteps(exs) {
      Traversal(planName, exs, now, k - 1);
      TraversalStep(Start(planName, exs, now), k);
    }
  }

  /** The start is the first pair, active. */
  lemma TraversalStarts(planName: string, exs: seq<Exercise>, now: int)
    requires |exs| > 0
    ensures var s := Run(Start(planName, exs, now), 0);
      s.exercises == exs && WellPlaced(s) && s.state == Active && Linear(s) == 0
  {
    var s0 := Start(planName, exs, now);
    assert SumSpan(SortedExercises(s0), 0) == 0;
  }

  /** One more cycle before the last pair moves one position on. */
  lemma TraversalStep(s0: WorkoutSession, k: nat)
    requires 1 <= k < TotalSteps(s0.exercises)
    requires var p := Run(s0, k - 1); WellPlaced(p) && p.state == Active && Linear(p) == k - 1
    ensures var s := Run(s0, k); WellPlaced(s) && s.state == Active && Linear(s) == k
  {
    CycleAdvances(Run(s0, k - 1));
  }

  lemma TraversalCompletes(planName: string, exs: seq<Exercise>, now: int)
    requires |exs| > 0
    ensures TotalSteps(exs) >= 1
    ensures var s := Run(Start(planName, exs, now), TotalSteps(exs) as nat);
      var sorted := SortByOrder(exs);
      s.state == Completed && s.currentExerciseIndex == |exs| - 1 &&
      s.currentSetNumber == Span(sorted[|exs| - 1])
  {
    var sorted := SortByOrder(exs);
    SumSpanGrows(sorted, 0, |exs|);
    var k := TotalSteps(exs) - 1;
    var s0 := Start(planName, exs, now);
    Traversal(planName, exs, now, k);
    var last := Run(s0, k);
    LastPairCompletes(last);
    assert Run(s0, k + 1) == Cycle(last);
  }

  /** Every (exercise, set) pair of the workout is visited, at its own position, so exactly once. */
  lemma TraversalVisitsEveryPair(planName: string, exs: seq<Exercise>, now: int, p: WorkoutSession)
    requires p.exercises == exs && WellPlaced(p)
    ensures 0 <= Linear(p) < TotalSteps(exs)
    ensures var s := Run(Start(planName, exs, now), Linear(p) as nat);
      s.currentExerciseIndex == p.currentExerciseIndex && s.currentSetNumber == p.currentSetNumber
  {
    LinearRange(p);
    var k := Linear(p) as nat;
    Traversal(planName, exs, now, k);
    LinearInjective(Run(Start(planName, exs, now), k), p);
  }

  /** Earlier cycles are at lexicographically earlier pairs. */
  lemma TraversalInOrder(planName: string, exs: seq<Exercise>, now: int, j: nat, k: nat)
    requires |exs| > 0 && j < k < TotalSteps(exs)
    ensures LexBefore(Run(Start(planName, exs, now), j), Run(Start(planName, exs, now), k))
  {
    var a := Run(Start(planName, exs, now), j);
    var b := Run(Start(planName, exs, now), k);
    Traversal(planName, exs, now, j);
    Traversal(planName, exs, now, k);
    LinearMonotone(b, a);
  }

  /** With every `sets` at least one, the workout takes exactly the sum of `sets` completions, and `totalSetsCompleted` counts them. */
  lemma TraversalCountsSets(planName: string, exs: seq<Exercise>, now: int, k: nat)
    requires |exs| > 0 && forall e :: e in exs ==> e.sets >= 1
    requires k <= TotalSteps(exs)
    ensures TotalSteps(exs) == SumSets(SortByOrder(exs), |exs|)
    ensures SetsCompleted(Run(Start(planName, exs, now), k)) == k
  {
    var sorted := SortByOrder(exs);
    SortedSetsPositive(exs);
    SumSpanIsSumSets(sorted, |exs|);
    if k < TotalSteps(exs) {
      CountsWhileActive(planName, exs, now, k);
    } else {
      CountsAtEnd(planName, exs, now, k);
    }
  }

  lemma SortedSetsPositive(exs: seq<Exercise>)
    requires forall e :: e in exs ==> e.sets >= 1
    ensures forall e :: e in SortByOrder(exs) ==> e.sets >= 1
  {
    var sorted := SortByOrder(exs);
    forall e | e in sorted
      ensures e.sets >= 1
    {
      assert e in multiset(exs);
    }
  }

  /** Before the end, the count is the position of the pair. */
  lemma CountsWhileActive(planName: string, exs: seq<Exercise>, now: int, k: nat)
    requires |exs| > 0 && forall e :: e in SortByOrder(exs) ==> e.sets >= 1
    requires k < TotalSteps(exs)
    ensures SetsCompleted(Run(Start(planName, exs, now), k)) == k
  {
    var s := Run(Start(planName, exs, now), k);
    Traversal(planName, exs, now, k);
    SumSpanIsSumSets(SortByOrder(exs), s.currentExerciseIndex);
  }

  /** At the end, the last set is counted too. */
  lemma CountsAtEnd(planName: string, exs: seq<Exercise>, now: int, k: nat)
    requires |exs| > 0 && forall e :: e in SortByOrder(exs) ==> e.sets >= 1
    requires k == TotalSteps(exs)
    ensures SetsCompleted(Run(Start(planName, exs, now), k)) == k
  {
    var sorted := SortByOrder(exs);
    TraversalCompletes(planName, exs, now);
    SumSpanIsSumSets(sorted, |exs|);
    SumSpanIsSumSets(sorted, |exs| - 1);
    assert sorted[|exs| - 1] in sorted;
  }
}
