/**
 * The earlier `WorkoutSessionManager` of the app's first layout: the same
 * operations without speech, with the haptic generators created inline, and
 * with the next-exercise test written against the plan's unsorted exercise
 * count and the session's `currentExercise`.
 *
 * The session type of that layout is not part of this model; the manager runs
 * on the same `WorkoutSession` value as the current one.
 */
module LegacySessionManager {
  import opened Wrappers
  import opened Exercises
  import opened Store
  import opened Session
  import opened SessionManager

  /** The session after the legacy `completeSet`, branch for branch as that code tests. */
  function LegacyAfterCompleteSet(s: WorkoutSession): (r: WorkoutSession)
    ensures r.exercises == s.exercises && r.startTime == s.startTime && r.endTime == s.endTime
  {
    match CurrentExercise(s)
    case None => s
    case Some(current) =>
      if s.currentSetNumber < current.sets then
        s.(currentSetNumber := s.currentSetNumber + 1, state := Resting, restTimeRemaining := current.restSeconds)
      else if s.currentExerciseIndex < |s.exercises| - 1 then
        s.(currentExerciseIndex := s.currentExerciseIndex + 1, currentSetNumber := 1,
           state := Resting, restTimeRemaining := current.restSeconds)
      else
        s.(state := Completed)
  }

  /** Comparing with the unsorted count changes nothing: both managers advance a session identically. */
  lemma LegacyAgreesWithCurrent(s: WorkoutSession)
    ensures LegacyAfterCompleteSet(s) == AfterCompleteSet(s)
  {
    assert |SortedExercises(s)| == |s.exercises|;
  }

  class LegacyWorkoutSessionManager {
    var session: Option<WorkoutSession>
    var timer: Option<nat>
    var live: set<nat>
    var nextTimer: nat
    var cues: seq<Cue>
    var pendingDismissals: nat

    ghost predicate Valid()
      reads this
    {
      && live == Handles(timer)
      && forall h :: h in live ==> h < nextTimer
    }

    constructor ()
      ensures Valid()
      ensures session == None && timer == None && live == {} && cues == [] && pendingDismissals == 0
    {
      session := None;
      timer := None;
      live := {};
      nextTimer := 0;
      cues := [];
      pendingDismissals := 0;
    }

    function IsActive(): (b: bool)
      reads this
      ensures b <==> session.Some?
    {
      session.Some?
    }

    method StopTimer()
      modifies this
      requires Valid()
      ensures Valid()
      ensures timer == None && live == {}
      ensures session == old(session) && cues == old(cues) && pendingDismissals == old(pendingDismissals)
      ensures nextTimer == old(nextTimer)
    {
      if timer.Some? {
        live := live - {timer.value};
      }
      timer := None;
    }

    method StartRest(s: WorkoutSession, duration: int) returns (r: WorkoutSession)
      modifies this
      requires Valid()
      ensures Valid()
      ensures r == s.(state := Resting, restTimeRemaining := duration)
      ensures timer == Some(old(nextTimer)) && live == {old(nextTimer)} && nextTimer == old(nextTimer) + 1
      ensures session == old(session) && cues == old(cues) && pendingDismissals == old(pendingDismissals)
    {
      r := s.(state := Resting);
      r := r.(restTimeRemaining := duration);
      StopTimer();
      timer := Some(nextTimer);
      live := live + {nextTimer};
      nextTimer := nextTimer + 1;
    }

    /** `startWorkout(plan:)`: no session for an empty plan, otherwise active at (0, 1) with no rest. */
    method StartWorkout(plan: WorkoutPlan, now: int)
      modifies this
      requires Valid()
      ensures Valid()
      ensures |plan.exercises| == 0 ==> session == old(session)
      ensures |plan.exercises| > 0 ==> session == Some(Start(plan.name, plan.exercises, now))
      ensures timer == old(timer) && live == old(live) && cues == old(cues)
      ensures pendingDismissals == old(pendingDismissals)
    {
      if |plan.exercises| == 0 {
        return;
      }
      session := Some(NewSession(plan.name, plan.exercises, now, Active, 0, 1, 0));
    }

    method CompleteSet()
      modifies this
      requires Valid()
      ensures Valid()
      ensures old(session).None? ==>
        session == old(session) && timer == old(timer) && cues == old(cues) &&
        pendingDismissals == old(pendingDismissals)
      ensures old(session).Some? ==>
        var s := old(session).value;
        && session == Some(LegacyAfterCompleteSet(s))
        && cues == old(cues) + [HapticMedium] + (if AdvanceOf(s) == Finish then [HapticSuccess] else [])
        && (AdvanceOf(s) == NoExercise ==> timer == old(timer))
        && (AdvanceOf(s) in {NextSet, NextExercise} ==> timer == Some(old(nextTimer)))
        && (AdvanceOf(s) == Finish ==> timer == None)
        && pendingDismissals == old(pendingDismissals) + (if AdvanceOf(s) == Finish then 1 else 0)
    {
      if session.None? {
        return;
      }
      var current := session.value;
      cues := cues + [HapticMedium];
      var exercise := CurrentExercise(current);
      if exercise.None? {
        return;
      }
      if current.currentSetNumber < exercise.value.sets {
        current := current.(currentSetNumber := current.currentSetNumber + 1);
        current := StartRest(current, exercise.value.restSeconds);
      } else if current.currentExerciseIndex < |current.exercises| - 1 {
        current := current.(currentExerciseIndex := current.currentExerciseIndex + 1, currentSetNumber := 1);
        current := StartRest(current, exercise.value.restSeconds);
      } else {
        FinishWorkout();
        return;
      }
      session := Some(current);
    }

    method SkipRest()
      modifies this
      requires Valid()
      ensures Valid()
      ensures timer == None && live == {}
      ensures old(session).None? ==> session == None && cues == old(cues)
      ensures old(session).Some? ==>
        session == Some(AfterRestEnd(old(session).value)) && cues == old(cues) + [HapticSuccess]
      ensures pendingDismissals == old(pendingDismissals)
    {
      EndRest();
    }

    /** `cancelWorkout`: always stops the timer and clears the session. */
    method CancelWorkout()
      modifies this
      requires Valid()
      ensures Valid()
      ensures session == None && timer == None && live == {}
      ensures cues == old(cues) && pendingDismissals == old(pendingDismissals)
    {
      StopTimer();
      session := None;
    }

    /** `tick`: only a resting session counts down; at zero or below it becomes active. */
    method Tick()
      modifies this
      requires Valid() && timer.Some?
      ensures Valid()
      ensures old(session).None? ==> session == None && timer == old(timer) && cues == old(cues)
      ensures old(session).Some? ==>
        var s := old(session).value;
        && session == Some(AfterTick(s))
        && (s.state == Resting && s.restTimeRemaining - 1 <= 0 ==> timer == None && cues == old(cues) + [HapticSuccess])
        && (!(s.state == Resting && s.restTimeRemaining - 1 <= 0) ==> timer == old(timer) && cues == old(cues))
      ensures pendingDismissals == old(pendingDismissals)
    {
      if session.None? || session.value.state != Resting {
        return;
      }
      var current := session.value;
      current := current.(restTimeRemaining := current.restTimeRemaining - 1);
      if current.restTimeRemaining <= 0 {
        EndRest();
      } else {
        session := Some(current);
      }
    }

    method EndRest()
      modifies this
      requires Valid()
      ensures Valid()
      ensures timer == None && live == {}
      ensures old(session).None? ==> session == None && cues == old(cues)
      ensures old(session).Some? ==>
        session == Some(AfterRestEnd(old(session).value)) && cues == old(cues) + [HapticSuccess]
      ensures pendingDismissals == old(pendingDismissals)
    {
      StopTimer();
      if session.None? {
        return;
      }
      var current := session.value;
      current := current.(state := Active);
      session := Some(current);
      cues := cues + [HapticSuccess];
    }

    method FinishWorkout()
      modifies this
      requires Valid()
      ensures Valid()
      ensures timer == None && live == {}
      ensures old(session).None? ==>
        session == None && cues == old(cues) && pendingDismissals == old(pendingDismissals)
      ensures old(session).Some? ==>
        && session == Some(old(session).value.(state := Completed))
        && cues == old(cues) + [HapticSuccess]
        && pendingDismissals == old(pendingDismissals) + 1
    {
      StopTimer();
      if session.None? {
        return;
      }
      var current := session.value;
      current := current.(state := Completed);
      session := Some(current);
      cues := cues + [HapticSuccess];
      pendingDismissals := pendingDismissals + 1;
    }

    method FireDeferredDismissal()
      modifies this
      requires Valid() && pendingDismissals > 0
      ensures Valid()
      ensures session == None && pendingDismissals == old(pendingDismissals) - 1
      ensures timer == old(timer) && live == old(live) && cues == old(cues)
    {
      session := None;
      pendingDismissals := pendingDismissals - 1;
    }
  }
}
