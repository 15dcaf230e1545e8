/**
 * The start screen's plan cards: an icon and a muscle summary chosen from the
 * plan's name, and the tap that either opens the editor (a plan without
 * exercises) or starts the workout.
 */
module StartScreen {
  import opened Wrappers
  import opened Text
  import opened Store
  import opened Session
  import opened SessionManager

  // ---------------------------------------------------------------------------
  // Icons
  // ---------------------------------------------------------------------------

  /** The German keyword of the back branch as the source spells it: "r", U+00C3, U+00BC, "cken". */
  const RueckenAsWritten := "r\U{C3}\U{BC}cken"
  /** The keyword intended there: "rücken" (back), with U+00FC. */
  const Ruecken := "r\U{FC}cken"

  /**
   * `iconFor(_:)` as written: the first branch whose keyword the lowercased name
   * contains wins, with `back` paired with the garbled keyword.
   */
  function IconForAsWritten(name: string): string {
    IconWithBackKeyword(name, RueckenAsWritten)
  }

  /** `iconFor(_:)` with the intended keyword "rücken". */
  function IconFor(name: string): string {
    IconWithBackKeyword(name, Ruecken)
  }

  /** The branch chain of `iconFor(_:)`, with the German keyword of the back branch as a parameter. */
  function IconWithBackKeyword(name: string, backKeyword: string): string {
    var l := Lower(name);
    if Contains(l, "push") || Contains(l, "chest") || Contains(l, "brust") then "flame.fill"
    else if Contains(l, "pull") || Contains(l, "back") || Contains(l, backKeyword) then "arrow.down.to.line"
    else if Contains(l, "leg") || Contains(l, "bein") then "figure.run"
    else if Contains(l, "arm") then "figure.arms.open"
    else if Contains(l, "shoulder") || Contains(l, "schulter") then "figure.boxing"
    else "dumbbell.fill"
  }

  /** The branch `iconFor` takes, in its order; 5 when no keyword occurs. */
  function IconBranch(name: string, backKeyword: string): (k: nat)
    ensures k <= 5
  {
    var l := Lower(name);
    if Contains(l, "push") || Contains(l, "chest") || Contains(l, "brust") then 0
    else if Contains(l, "pull") || Contains(l, "back") || Contains(l, backKeyword) then 1
    else if Contains(l, "leg") || Contains(l, "bein") then 2
    else if Contains(l, "arm") then 3
    else if Contains(l, "shoulder") || Contains(l, "schulter") then 4
    else 5
  }

  const Icons := ["flame.fill", "arrow.down.to.line", "figure.run", "figure.arms.open", "figure.boxing", "dumbbell.fill"]

  /** The icon is the one of the first branch whose keyword occurs; a name without one gets the dumbbell. */
  lemma IconIsFirstMatchingBranch(name: string, backKeyword: string)
    ensures IconWithBackKeyword(name, backKeyword) == Icons[IconBranch(name, backKeyword)]
    ensures IconBranch(name, backKeyword) == 5 ==> IconWithBackKeyword(name, backKeyword) == "dumbbell.fill"
  {
  }

  /** Letter case does not matter: a name and its lowercase spelling get the same icon. */
  lemma {:induction false} IconIgnoresCase(name: string)
    ensures IconFor(Lower(name)) == IconFor(name)
    ensures IconForAsWritten(Lower(name)) == IconForAsWritten(name)
  {
    LowerIdempotent(name);
  }

  /**
   * As written, the back keyword can never match: it holds the capital `Ã`
   * (U+00C3), and a lowercased name holds no capital letter.
   */
  lemma RueckenAsWrittenNeverMatches(name: string)
    ensures !Contains(Lower(name), RueckenAsWritten)
  {
    var l := Lower(name);
    assert IsUpperLetter(RueckenAsWritten[1]);
    forall i | 0 <= i < |l|
      ensures l[i] != RueckenAsWritten[1]
    {
      assert !IsUpperLetter(LowerChar(name[i]));
    }
    NotContainsWithoutChar(l, RueckenAsWritten, 1);
  }

  /** A name whose only keyword is "Rücken" falls through to the dumbbell as written. */
  lemma RueckenFallsThrough()
    ensures IconForAsWritten("R\U{FC}cken") == "dumbbell.fill"
  {
    var l := Lower("R\U{FC}cken");
    assert l == "r\U{FC}cken";
    NoKeywordIn(l);
    RueckenAsWrittenNeverMatches("R\U{FC}cken");
  }

  /** With the intended keyword, the same name gets the back icon. */
  lemma RueckenIsBack()
    ensures IconFor("R\U{FC}cken") == "arrow.down.to.line"
  {
    var l := Lower("R\U{FC}cken");
    assert l == Ruecken;
    NoKeywordIn(l);
    assert OccursAt(l, Ruecken, 0);
  }

  /** "rücken" holds none of the other keywords: each has a letter that "rücken" lacks. */
  lemma NoKeywordIn(l: string)
    requires l == "r\U{FC}cken"
    ensures !Contains(l, "push") && !Contains(l, "chest") && !Contains(l, "brust")
    ensures !Contains(l, "pull") && !Contains(l, "back")
    ensures !Contains(l, "leg") && !Contains(l, "bein") && !Contains(l, "arm")
    ensures !Contains(l, "shoulder") && !Contains(l, "schulter")
  {
    NotContainsWithoutChar(l, "push", 0);
    NotContainsWithoutChar(l, "chest", 1);
    NotContainsWithoutChar(l, "brust", 0);
    NotContainsWithoutChar(l, "pull", 0);
    NotContainsWithoutChar(l, "back", 0);
    NotContainsWithoutChar(l, "leg", 0);
    NotContainsWithoutChar(l, "bein", 0);
    NotContainsWithoutChar(l, "arm", 0);
    NotContainsWithoutChar(l, "shoulder", 0);
    NotContainsWithoutChar(l, "schulter", 0);
  }

  // ---------------------------------------------------------------------------
  // Muscle summary
  // ---------------------------------------------------------------------------

  /** `musclesFor(_:)`: a fixed summary for Push, Pull and Legs names, else the exercise count. */
  function MusclesFor(name: string, exerciseCount: nat): (s: string)
    ensures Contains(Lower(name), "push") ==> s == "Chest + Shoulders + Triceps"
    ensures !Contains(Lower(name), "push") && Contains(Lower(name), "pull") ==> s == "Back + Biceps + Rear Delts"
    ensures var l := Lower(name);
      !Contains(l, "push") && !Contains(l, "pull") && (Contains(l, "leg") || Contains(l, "bein")) ==>
        s == "Quads + Hamstrings + Glutes"
    ensures var l := Lower(name);
      !Contains(l, "push") && !Contains(l, "pull") && !Contains(l, "leg") && !Contains(l, "bein") ==>
        s == NatToString(exerciseCount) + " exercises"
  {
    var l := Lower(name);
    if Contains(l, "push") then "Chest + Shoulders + Triceps"
    else if Contains(l, "pull") then "Back + Biceps + Rear Delts"
    else if Contains(l, "leg") || Contains(l, "bein") then "Quads + Hamstrings + Glutes"
    else IntToString(exerciseCount) + " exercises"
  }

  /** A name without the keywords shows its exercise count, and that count reads back from the text. */
  lemma MusclesForShowsCount(name: string, exerciseCount: nat)
    requires !Contains(Lower(name), "push") && !Contains(Lower(name), "pull")
    requires !Contains(Lower(name), "leg") && !Contains(Lower(name), "bein")
    ensures var s := MusclesFor(name, exerciseCount);
      |s| > 10 && AllDigits(s[..|s| - 10]) && DigitsValue(s[..|s| - 10]) == exerciseCount
  {
    var s := MusclesFor(name, exerciseCount);
    assert s[..|s| - 10] == NatToString(exerciseCount);
    NatToStringRoundTrip(exerciseCount);
  }

  // ---------------------------------------------------------------------------
  // The card tap
  // ---------------------------------------------------------------------------

  class StartScreenView {
    /** The plan whose editor sheet is open. */
    var planToEdit: Option<WorkoutPlan>
    /** Heavy haptics fired. */
    var heavyHaptics: nat

    constructor ()
      ensures planToEdit == None && heavyHaptics == 0
    {
      planToEdit := None;
      heavyHaptics := 0;
    }

    /** A card's `onTap`: an empty plan opens the editor; any other starts its workout. */
    method OnTap(plan: WorkoutPlan, manager: WorkoutSessionManager, now: int)
      requires manager.Valid()
      modifies this, manager
      ensures manager.Valid()
      ensures |plan.exercises| == 0 ==>
        && planToEdit == Some(plan) && heavyHaptics == old(heavyHaptics)
        && manager.session == old(manager.session) && manager.cues == old(manager.cues)
      ensures |plan.exercises| > 0 ==>
        && planToEdit == old(planToEdit) && heavyHaptics == old(heavyHaptics) + 1
        && manager.session == Some(Start(plan.name, plan.exercises, now))
        && manager.cues == old(manager.cues) + [AnnounceWorkoutStart(plan.name, SortByOrder(plan.exercises)[0].name)]
      ensures manager.timer == old(manager.timer) && manager.live == old(manager.live)
      ensures manager.nextTimer == old(manager.nextTimer) && manager.pendingDismissals == old(manager.pendingDismissals)
    {
      if |plan.exercises| == 0 {
        planToEdit := Some(plan);
      } else {
        heavyHaptics := heavyHaptics + 1;
        manager.StartWorkout(plan, now);
      }
    }
  }
}
