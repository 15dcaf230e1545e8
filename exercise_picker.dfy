/**
 * The exercise picker: a muscle-group filter chip, a search field and a set of
 * selected definition ids over the manager's cached library. "Add" hands the
 * selected definitions to the caller and closes the picker.
 */
module ExercisePicker {
  import opened Wrappers
  import opened Text
  import opened Lists
  import opened Exercises
  import opened ExerciseManagement

  /** The picker's search: the lowercased query in the lowercased name or equipment (not the muscle group). */
  function PickerMatcher(query: string): ExerciseDefinition -> bool {
    (d: ExerciseDefinition) => Contains(Lower(d.name), Lower(query)) || Contains(Lower(d.equipment), Lower(query))
  }

  function InSelection(selected: set<nat>): ExerciseDefinition -> bool {
    (d: ExerciseDefinition) => d.id in selected
  }

  /** `filteredExercises`: the filter chip first, then the search, as successive filters. */
  function Filtered(all: seq<ExerciseDefinition>, selectedFilter: Option<string>, searchText: string): (r: seq<ExerciseDefinition>)
    ensures selectedFilter.None? && searchText == "" ==> r == all
    ensures selectedFilter.Some? ==> forall d :: d in r ==> d.muscleGroup == selectedFilter.value
    ensures forall d :: d in r <==>
      && d in all
      && (selectedFilter.Some? ==> d.muscleGroup == selectedFilter.value)
      && (searchText != "" ==> PickerMatcher(searchText)(d))
    ensures IsSubsequence(r, all)
  {
    if selectedFilter.Some? then
      var grouped := Filter(all, GroupMatcher(selectedFilter.value));
      FilterMembers(all, GroupMatcher(selectedFilter.value));
      FilterIsSubsequence(all, GroupMatcher(selectedFilter.value));
      if searchText != "" then
        FilterMembers(grouped, PickerMatcher(searchText));
        FilterFilterIsSubsequence(all, GroupMatcher(selectedFilter.value), PickerMatcher(searchText));
        Filter(grouped, PickerMatcher(searchText))
      else
        grouped
    else if searchText != "" then
      FilterMembers(all, PickerMatcher(searchText));
      FilterIsSubsequence(all, PickerMatcher(searchText));
      Filter(all, PickerMatcher(searchText))
    else
      FilterAll(all, _ => true);
      FilterIsSubsequence(all, _ => true);
      all
  }

  /**
   * Unlike the manager's search, the picker's search does not look at the
   * muscle group: a plank (group "Core") is found by the manager's search for
   * "Core" and not by the picker's.
   */
  lemma PickerSearchIgnoresMuscleGroup()
    ensures var d := NewDefinition(0, "Plank", "Core", "Körpergewicht");
      SearchMatcher("Core")(d) && !PickerMatcher("Core")(d)
  {
    var q := Lower("Core");
    assert q == "core";
    assert OccursAt(Lower("Core"), q, 0);
    assert Lower("Plank") == "plank";
    assert Lower("Körpergewicht") == "körpergewicht";
    NotContainsWithoutChar(Lower("Plank"), q, 1);
    NotContainsWithoutChar(Lower("Körpergewicht"), q, 1);
  }

  /** The selection after tapping the row of `id`. */
  function Toggled(selected: set<nat>, id: nat): (r: set<nat>)
    ensures forall x :: x in r <==> (x in selected) != (x == id)
  {
    if id in selected then selected - {id} else selected + {id}
  }

  /** Tapping the same row twice restores the selection. */
  lemma ToggleTwice(selected: set<nat>, id: nat)
    ensures Toggled(Toggled(selected, id), id) == selected
  {
  }

  /** `iconForMuscleGroup(_:)`. */
  function IconForMuscleGroup(group: string): string {
    match group
    case "Brust" => "figure.strengthtraining.traditional"
    case "Rücken" => "figure.rowing"
    case "Schultern" => "figure.arms.open"
    case "Bizeps" => "figure.strengthtraining.functional"
    case "Trizeps" => "figure.strengthtraining.functional"
    case "Beine" => "figure.run"
    case "Gesäß" => "figure.cooldown"
    case "Core" => "figure.core.training"
    case "Ganzkörper" => "figure.highintensity.intervaltraining"
    case _ => "dumbbell.fill"
  }

  /** Every muscle group of the vocabulary has its own icon except cardio, which gets the generic one. */
  lemma IconCoversVocabulary(g: MuscleGroup)
    ensures IconForMuscleGroup(MuscleGroupRaw(g)) == "dumbbell.fill" <==> g == Cardio
    ensures g in {Biceps, Triceps} <==> IconForMuscleGroup(MuscleGroupRaw(g)) == "figure.strengthtraining.functional"
  {
  }

  /** A group outside the vocabulary gets the generic icon. */
  lemma IconForUnknownGroup(group: string)
    requires MuscleGroupFromRaw(group).None?
    ensures IconForMuscleGroup(group) == "dumbbell.fill"
  {
    assert forall g :: MuscleGroupRaw(g) != group;
    assert MuscleGroupRaw(Chest) != group && MuscleGroupRaw(Back) != group && MuscleGroupRaw(Shoulders) != group;
    assert MuscleGroupRaw(Biceps) != group && MuscleGroupRaw(Triceps) != group && MuscleGroupRaw(Legs) != group;
    assert MuscleGroupRaw(Glutes) != group && MuscleGroupRaw(Core) != group && MuscleGroupRaw(FullBody) != group;
  }

  class ExercisePickerView {
    const exerciseManager: ExerciseManager
    var searchText: string
    var selectedFilter: Option<string>
    var selectedExercises: set<nat>
    /** The batches handed to `onAdd`, in order. */
    var added: seq<seq<ExerciseDefinition>>
    var dismissed: bool
    /** Light and medium haptics fired. */
    var lightHaptics: nat
    var mediumHaptics: nat

    constructor (exerciseManager: ExerciseManager)
      ensures this.exerciseManager == exerciseManager
      ensures searchText == "" && selectedFilter == None && selectedExercises == {}
      ensures added == [] && !dismissed
      ensures lightHaptics == 0 && mediumHaptics == 0
    {
      this.exerciseManager := exerciseManager;
      searchText := "";
      selectedFilter := None;
      selectedExercises := {};
      added := [];
      dismissed := false;
      lightHaptics := 0;
      mediumHaptics := 0;
    }

    function FilteredExercises(): seq<ExerciseDefinition>
      reads this, exerciseManager
    {
      Filtered(exerciseManager.allExercises, selectedFilter, searchText)
    }

    /** `toggleSelection(_:)`: a light haptic, then flips whether this definition is selected. */
    method ToggleSelection(exercise: ExerciseDefinition)
      modifies this
      ensures selectedExercises == Toggled(old(selectedExercises), exercise.id)
      ensures lightHaptics == old(lightHaptics) + 1 && mediumHaptics == old(mediumHaptics)
      ensures searchText == old(searchText) && selectedFilter == old(selectedFilter)
      ensures added == old(added) && dismissed == old(dismissed)
    {
      lightHaptics := lightHaptics + 1;
      if exercise.id in selectedExercises {
        selectedExercises := selectedExercises - {exercise.id};
      } else {
        selectedExercises := selectedExercises + {exercise.id};
      }
    }

    /** The definitions `addSelectedExercises` hands over: library order, not the order of tapping. */
    function SelectedDefinitions(): (r: seq<ExerciseDefinition>)
      reads this, exerciseManager
      ensures forall d :: d in r <==> d in exerciseManager.allExercises && d.id in selectedExercises
      ensures IsSubsequence(r, exerciseManager.allExercises)
    {
      FilterMembers(exerciseManager.allExercises, InSelection(selectedExercises));
      FilterIsSubsequence(exerciseManager.allExercises, InSelection(selectedExercises));
      Filter(exerciseManager.allExercises, InSelection(selectedExercises))
    }

    /** `addSelectedExercises`: a medium haptic, then hand the selected definitions to `onAdd` and close. */
    method AddSelectedExercises()
      modifies this
      ensures added == old(added) + [old(SelectedDefinitions())]
      ensures dismissed
      ensures mediumHaptics == old(mediumHaptics) + 1 && lightHaptics == old(lightHaptics)
      ensures searchText == old(searchText) && selectedFilter == old(selectedFilter)
      ensures selectedExercises == old(selectedExercises)
    {
      mediumHaptics := mediumHaptics + 1;
      var selected := Filter(exerciseManager.allExercises, InSelection(selectedExercises));
      added := added + [selected];
      dismissed := true;
    }
  }
}
