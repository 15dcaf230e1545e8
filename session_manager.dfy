/**
 * `WorkoutSessionManager`: the state machine that runs a workout. It holds the
 * optional session, the repeating one-second rest timer, and talks to speech
 * and haptics.
 *
 * The timer is a handle: `timer` is the handle the manager holds, `live` the
 * handles scheduled and not yet invalidated, and `Tick` is the event a live
 * timer delivers each second. The two-second delayed dismissal after a finished
 * workout is counted in `pendingDismissals` and delivered by
 * `FireDeferredDismissal`. Speech and haptic feedback are recorded, in order, in
 * `cues`.
 */
module SessionManager {
  import opened Wrappers
  import opened Exercises
  import opened Store
  import opened Session

  /** An outward call to the haptics or to the speech service. */
  datatype Cue =
    | HapticMedium
    | HapticWarning
    | HapticSuccess
    | AnnounceWorkoutStart(planName: string, firstExercise: string)
    | AnnounceSetCompleted
    | AnnounceExercise(name: string)
    | Announce(text: string)
    | AnnounceRestEnd
    | AnnounceWorkoutComplete

  /** The handles a timer field refers to. */
  function Handles(timer: Option<nat>): set<nat> {
    if timer.Some? then {timer.value} else {}
  }

  /** The speech and haptics `completeSet` produces after its initial haptic. */
  function CompleteSetCues(s: WorkoutSession): seq<Cue> {
    match AdvanceOf(s)
    case NoExercise => []
    case NextSet => [AnnounceSetCompleted]
    case NextExercise => [AnnounceExercise(SortedExercises(s)[s.currentExerciseIndex + 1].name)]
    case Finish => [HapticSuccess, AnnounceWorkoutComplete]
  }

  /** The cues of one tick that leaves `r` seconds: the ten-second warning and the last three counts. */
  function TickCues(r: int): seq<Cue> {
    (if r == 10 then [HapticWarning] else [])
    + (if r == 3 then [Announce("Three")] else if r == 2 then [Announce("Two")] else if r == 1 then [Announce("One")] else [])
  }

  class WorkoutSessionManager {
    var session: Option<WorkoutSession>
    var timer: Option<nat>
    var live: set<nat>
    var nextTimer: nat
    var cues: seq<Cue>
    var pendingDismissals: nat

    /** Only the held timer can be live: every other one was invalidated first. */
    ghost predicate Valid()
      reads this
    {
      && live == Handles(timer)
      && forall h :: h in live ==> h < nextTimer
    }

    lemma AtMostOneLiveTimer()
      requires Valid()
      ensures |live| <= 1
    {
    }

    constructor ()
      ensures Valid()
      ensures session == None && timer == None && live == {} && cues == [] && pendingDismissals == 0
    {
      session := None;
      timer := None;
      live := {};
      nextTimer := 0;
      cues := [];
      pendingDismissals := 0;
    }

    /** `isActive`. */
    function IsActive(): (b: bool)
      reads this
      ensures b <==> session.Some?
    {
      session.Some?
    }

    /** `stopTimer`: invalidate the held timer, if any, and drop it. */
    method StopTimer()
      modifies this
      requires Valid()
      ensures Valid()
      ensures timer == None && live == {}
      ensures session == old(session) && cues == old(cues) && pendingDismissals == old(pendingDismissals)
      ensures nextTimer == old(nextTimer)
    {
      if timer.Some? {
        live := live - {timer.value};
      }
      timer := None;
    }

    /** `startRest(session:duration:)`: the `inout` session comes back resting, and a fresh timer replaces the old one. */
    method StartRest(s: WorkoutSession, duration: int) returns (r: WorkoutSession)
      modifies this
      requires Valid()
      ensures Valid()
      ensures r == s.(state := Resting, restTimeRemaining := duration)
      ensures timer == Some(old(nextTimer)) && live == {old(nextTimer)} && nextTimer == old(nextTimer) + 1
      ensures session == old(session) && cues == old(cues) && pendingDismissals == old(pendingDismissals)
    {
      r := s.(state := Resting);
      r := r.(restTimeRemaining := duration);
      StopTimer();
      timer := Some(nextTimer);
      live := live + {nextTimer};
      nextTimer := nextTimer + 1;
    }

    /** `startWorkout(plan:)`: nothing for an empty plan; otherwise a fresh session at the first set, announced. */
    method StartWorkout(plan: WorkoutPlan, now: int)
      modifies this
      requires Valid()
      ensures Valid()
      ensures |plan.exercises| == 0 ==>
        session == old(session) && cues == old(cues)
      ensures |plan.exercises| > 0 ==>
        && session == Some(Start(plan.name, plan.exercises, now))
        && cues == old(cues) + [AnnounceWorkoutStart(plan.name, SortByOrder(plan.exercises)[0].name)]
      ensures timer == old(timer) && live == old(live) && nextTimer == old(nextTimer)
      ensures pendingDismissals == old(pendingDismissals)
    {
      if |plan.exercises| == 0 {
        return;
      }
      var sorted := SortByOrder(plan.exercises);
      session := Some(NewSession(plan.name, plan.exercises, now, Active, 0, 1, 0));
      if |sorted| > 0 {
        cues := cues + [AnnounceWorkoutStart(plan.name, sorted[0].name)];
      }
    }

    /** `completeSet`. */
    method CompleteSet()
      modifies this
      requires Valid()
      ensures Valid()
      ensures old(session).None? ==>
        session == old(session) && timer == old(timer) && live == old(live) &&
        cues == old(cues) && pendingDismissals == old(pendingDismissals)
      ensures old(session).Some? ==>
        var s := old(session).value;
        && session == Some(AfterCompleteSet(s))
        && cues == old(cues) + [HapticMedium] + CompleteSetCues(s)
        && (AdvanceOf(s) == NoExercise ==> timer == old(timer) && pendingDismissals == old(pendingDismissals))
        && (AdvanceOf(s) in {NextSet, NextExercise} ==>
              timer == Some(old(nextTimer)) && pendingDismissals == old(pendingDismissals))
        && (AdvanceOf(s) == Finish ==> timer == None && pendingDismissals == old(pendingDismissals) + 1)
    {
      if session.None? {
        return;
      }
      var current := session.value;
      cues := cues + [HapticMedium];
      var sorted := SortedExercises(current);
      if !(0 <= current.currentExerciseIndex < |sorted|) {
        return;
      }
      var exercise := sorted[current.currentExerciseIndex];
      if current.currentSetNumber < exercise.sets {
        current := current.(currentSetNumber := current.currentSetNumber + 1);
        cues := cues + [AnnounceSetCompleted];
        current := StartRest(current, exercise.restSeconds);
      } else if current.currentExerciseIndex < |sorted| - 1 {
        var next := sorted[current.currentExerciseIndex + 1];
        current := current.(currentExerciseIndex := current.currentExerciseIndex + 1, currentSetNumber := 1);
        cues := cues + [AnnounceExercise(next.name)];
        current := StartRest(current, exercise.restSeconds);
      } else {
        FinishWorkout();
        return;
      }
      session := Some(current);
    }

    /** `skipRest`: end the rest, whatever the session's state. */
    method SkipRest()
      modifies this
      requires Valid()
      ensures Valid()
      ensures timer == None && live == {}
      ensures old(session).None? ==> session == None && cues == old(cues)
      ensures old(session).Some? ==>
        session == Some(AfterRestEnd(old(session).value)) &&
        cues == old(cues) + [HapticSuccess, AnnounceRestEnd]
      ensures pendingDismissals == old(pendingDismissals)
    {
      EndRest();
    }

    /** `cancelWorkout`: stop the timer and drop the session unconditionally. */
    method CancelWorkout()
      modifies this
      requires Valid()
      ensures Valid()
      ensures session == None && timer == None && live == {}
      ensures cues == old(cues) && pendingDismissals == old(pendingDismissals)
    {
      StopTimer();
      session := None;
    }

    /**
     * `tick`, delivered by the live timer: a resting session counts down by one;
     * at zero or below the rest ends, and the decremented copy is dropped, so the
     * stored remaining time keeps its value from before the tick.
     */
    method Tick()
      modifies this
      requires Valid() && timer.Some?
      ensures Valid()
      ensures old(session).None? || old(session).value.state != Resting ==>
        session == old(session) && timer == old(timer) && live == old(live) && cues == old(cues)
      ensures old(session).Some? && old(session).value.state == Resting ==>
        var s := old(session).value;
        var r := s.restTimeRemaining - 1;
        && session == Some(AfterTick(s))
        && (r > 0 ==> timer == old(timer) && cues == old(cues) + TickCues(r))
        && (r <= 0 ==> timer == None && cues == old(cues) + TickCues(r) + [HapticSuccess, AnnounceRestEnd])
      ensures pendingDismissals == old(pendingDismissals)
    {
      if session.None? || session.value.state != Resting {
        return;
      }
      var current := session.value;
      current := current.(restTimeRemaining := current.restTimeRemaining - 1);
      if current.restTimeRemaining == 10 {
        cues := cues + [HapticWarning];
      }
      if current.restTimeRemaining == 3 {
        cues := cues + [Announce("Three")];
      } else if current.restTimeRemaining == 2 {
        cues := cues + [Announce("Two")];
      } else if current.restTimeRemaining == 1 {
        cues := cues + [Announce("One")];
      }
      if current.restTimeRemaining <= 0 {
        EndRest();
      } else {
        session := Some(current);
      }
    }

    /** `endRest`: stop the timer; an existing session becomes active. */
    method EndRest()
      modifies this
      requires Valid()
      ensures Valid()
      ensures timer == None && live == {}
      ensures old(session).None? ==> session == None && cues == old(cues)
      ensures old(session).Some? ==>
        session == Some(AfterRestEnd(old(session).value)) &&
        cues == old(cues) + [HapticSuccess, AnnounceRestEnd]
      ensures pendingDismissals == old(pendingDismissals)
    {
      StopTimer();
      if session.None? {
        return;
      }
      var current := session.value;
      current := current.(state := Active);
      session := Some(current);
      cues := cues + [HapticSuccess, AnnounceRestEnd];
    }

    /** `finishWorkout`: stop the timer, mark the session completed in place, and schedule its dismissal. */
    method FinishWorkout()
      modifies this
      requires Valid()
      ensures Valid()
      ensures timer == None && live == {}
      ensures old(session).None? ==>
        session == None && cues == old(cues) && pendingDismissals == old(pendingDismissals)
      ensures old(session).Some? ==>
        && session == Some(old(session).value.(state := Completed))
        && cues == old(cues) + [HapticSuccess, AnnounceWorkoutComplete]
        && pendingDismissals == old(pendingDismissals) + 1
    {
      StopTimer();
      if session.None? {
        return;
      }
      var current := session.value;
      current := current.(state := Completed);
      session := Some(current);
      cues := cues + [HapticSuccess, AnnounceWorkoutComplete];
      pendingDismissals := pendingDismissals + 1;
    }

    /** The delayed `self.session = nil`: it clears whatever session is current when it runs. */
    method FireDeferredDismissal()
      modifies this
      requires Valid() && pendingDismissals > 0
      ensures Valid()
      ensures session == None && pendingDismissals == old(pendingDismissals) - 1
      ensures timer == old(timer) && live == old(live) && cues == old(cues)
    {
      session := None;
      pendingDismissals := pendingDismissals - 1;
    }
  }
}
