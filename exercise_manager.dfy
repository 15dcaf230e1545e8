/**
 * `ExerciseManager`: the app's access point for the exercise library (a cached,
 * name-sorted copy of the stored definitions and the sorted list of muscle
 * groups) and for editing the exercise list of a plan.
 *
 * Plans hold exercise values; an exercise object of the app is the element with
 * its `id`, so the ids of one plan are distinct. Save failures of the store are
 * not part of this model.
 */
module ExerciseManagement {
  import opened Wrappers
  import opened Text
  import opened Lists
  import opened Exercises
  import opened Store
  import opened Session

  // ---------------------------------------------------------------------------
  // Orders and matchers
  // ---------------------------------------------------------------------------

  /** `SortDescriptor(\.name)`. */
  predicate NameLt(a: ExerciseDefinition, b: ExerciseDefinition) {
    StrLt(a.name, b.name)
  }

  lemma NameLtIsStrictWeakOrder()
    ensures StrictWeakOrder(NameLt)
  {
    StrLtIsStrictWeakOrder();
  }

  /** The stored definitions sorted by name. */
  function SortByName(defs: seq<ExerciseDefinition>): (r: seq<ExerciseDefinition>)
    ensures multiset(r) == multiset(defs) && |r| == |defs|
    ensures forall i, j :: 0 <= i < j < |r| ==> !StrLt(r[j].name, r[i].name)
  {
    NameLtIsStrictWeakOrder();
    SortPermutes(defs, NameLt);
    SortSorts(defs, NameLt);
    SortLength(defs, NameLt);
    SortBy(defs, NameLt)
  }

  function GroupsOf(defs: seq<ExerciseDefinition>): (r: seq<string>)
    ensures |r| == |defs| && forall i :: 0 <= i < |defs| ==> r[i] == defs[i].muscleGroup
  {
    seq(|defs|, i requires 0 <= i < |defs| => defs[i].muscleGroup)
  }

  /** `Array(Set(groups)).sorted()`: each group once, in increasing order. */
  function DistinctSorted(xs: seq<string>): (r: seq<string>)
    ensures StrictlySortedBy(r, StrLt)
    ensures forall x :: x in r <==> x in xs
  {
    var d := Dedup(xs);
    StrLtIsStrictWeakOrder();
    forall x, y | x != y
      ensures StrLt(x, y) || StrLt(y, x)
    {
      StrLtTrichotomy(x, y);
    }
    SortDistinct(d, StrLt);
    SortPermutes(d, StrLt);
    var r := SortBy(d, StrLt);
    assert forall x :: x in r <==> x in multiset(d);
    r
  }

  /** The search match: the lowercased query occurs in the lowercased name, muscle group or equipment. */
  function SearchMatcher(query: string): ExerciseDefinition -> bool {
    (d: ExerciseDefinition) => Contains(Lower(d.name), Lower(query)) || Contains(Lower(d.muscleGroup), Lower(query))
         || Contains(Lower(d.equipment), Lower(query))
  }

  /** Case-insensitive name equality with `name`. */
  function NameMatcher(name: string): ExerciseDefinition -> bool {
    (d: ExerciseDefinition) => Lower(d.name) == Lower(name)
  }

  function GroupMatcher(group: string): ExerciseDefinition -> bool {
    (d: ExerciseDefinition) => d.muscleGroup == group
  }

  function EquipmentMatcher(equipment: string): ExerciseDefinition -> bool {
    (d: ExerciseDefinition) => d.equipment == equipment
  }

  function OtherId(id: nat): ExerciseDefinition -> bool {
    (d: ExerciseDefinition) => d.id != id
  }

  function IsCustom(d: ExerciseDefinition): bool {
    d.isCustom
  }

  function IsBuiltIn(d: ExerciseDefinition): bool {
    !d.isCustom
  }

  // ---------------------------------------------------------------------------
  // Exercise-list helpers
  // ---------------------------------------------------------------------------

  function OrderOf(e: Exercise): int {
    e.orderIndex
  }

  /** The order indices are exactly 0 .. n-1, each once. */
  predicate WellNumbered(exs: seq<Exercise>) {
    && (forall i :: 0 <= i < |exs| ==> 0 <= exs[i].orderIndex < |exs|)
    && DistinctKeys(exs, OrderOf)
  }

  /** Each exercise's `orderIndex` becomes its position in the list. */
  function Renumber(exs: seq<Exercise>): (r: seq<Exercise>)
    ensures |r| == |exs|
    ensures forall i :: 0 <= i < |r| ==> r[i] == exs[i].(orderIndex := i)
  {
    seq(|exs|, i requires 0 <= i < |exs| => exs[i].(orderIndex := i))
  }

  lemma RenumberIsWellNumbered(exs: seq<Exercise>)
    ensures WellNumbered(Renumber(exs))
  {
  }

  /** The position of the first exercise with this id, or the length when there is none. */
  function Position(exs: seq<Exercise>, id: nat): (k: nat)
    ensures k <= |exs|
    ensures k < |exs| ==> exs[k].id == id
    ensures forall i :: 0 <= i < k ==> exs[i].id != id
    ensures k == |exs| <==> forall i :: 0 <= i < |exs| ==> exs[i].id != id
  {
    if exs == [] then 0
    else if exs[0].id == id then 0
    else
      var k := Position(exs[1..], id);
      assert forall i :: 1 <= i < |exs| ==> exs[i] == exs[1..][i - 1];
      1 + k
  }

  function IdMatcher(id: nat): Exercise -> bool {
    (e: Exercise) => e.id == id
  }

  /** `updateExercise` on the plan's list: the element with this id gets the four settings. */
  function UpdateSettings(exs: seq<Exercise>, id: nat, sets: int, reps: int, weight: int, restSeconds: int): (r: seq<Exercise>)
    ensures |r| == |exs|
    ensures forall i :: 0 <= i < |r| && exs[i].id != id ==> r[i] == exs[i]
    ensures forall i :: 0 <= i < |r| && exs[i].id == id ==>
      r[i].sets == sets && r[i].reps == reps && r[i].weight == weight && r[i].restSeconds == restSeconds &&
      r[i].(sets := exs[i].sets, reps := exs[i].reps, weight := exs[i].weight, restSeconds := exs[i].restSeconds) == exs[i]
  {
    seq(|exs|, i requires 0 <= i < |exs| =>
      if exs[i].id == id then exs[i].(sets := sets, reps := reps, weight := weight, restSeconds := restSeconds)
      else exs[i])
  }

  /** The element with this id gets order index `k`. */
  function SetOrderOf(exs: seq<Exercise>, id: nat, k: int): (r: seq<Exercise>)
    ensures |r| == |exs|
    ensures forall i :: 0 <= i < |r| ==> r[i] == if exs[i].id == id then exs[i].(orderIndex := k) else exs[i]
  {
    seq(|exs|, i requires 0 <= i < |exs| => if exs[i].id == id then exs[i].(orderIndex := k) else exs[i])
  }

  /** Each stored exercise gets, as `orderIndex`, the position of its id in `ordered`. */
  function AssignOrder(exs: seq<Exercise>, ordered: seq<Exercise>): (r: seq<Exercise>)
    ensures |r| == |exs|
    ensures forall j :: 0 <= j < |r| ==> r[j].(orderIndex := exs[j].orderIndex) == exs[j]
  {
    seq(|exs|, j requires 0 <= j < |exs| => exs[j].(orderIndex := Position(ordered, exs[j].id)))
  }

  /** `AssignOrder` after the first `k` positions of `ordered` have been assigned. */
  function AssignedUpTo(exs: seq<Exercise>, ordered: seq<Exercise>, k: int): (r: seq<Exercise>)
    ensures |r| == |exs|
  {
    seq(|exs|, j requires 0 <= j < |exs| =>
      if Position(ordered, exs[j].id) < k then exs[j].(orderIndex := Position(ordered, exs[j].id)) else exs[j])
  }

  /** Before the first position is assigned, every exercise keeps its `orderIndex`. */
  lemma AssignedNone(exs: seq<Exercise>, ordered: seq<Exercise>)
    ensures AssignedUpTo(exs, ordered, 0) == exs
  {
    var r := AssignedUpTo(exs, ordered, 0);
    assert forall j :: 0 <= j < |exs| ==> r[j] == exs[j];
  }

  lemma AssignStep(exs: seq<Exercise>, ordered: seq<Exercise>, k: nat)
    requires k < |ordered| && DistinctIds(ordered)
    ensures SetOrderOf(AssignedUpTo(exs, ordered, k), ordered[k].id, k) == AssignedUpTo(exs, ordered, k + 1)
  {
    var a := AssignedUpTo(exs, ordered, k);
    var b := AssignedUpTo(exs, ordered, k + 1);
    var c := SetOrderOf(a, ordered[k].id, k);
    forall j | 0 <= j < |exs|
      ensures c[j] == b[j]
    {
      var p := Position(ordered, exs[j].id);
      if exs[j].id == ordered[k].id {
        assert p == k;
      } else if p < |ordered| {
        assert ordered[p].id == exs[j].id;
        assert p != k;
      }
    }
  }

  /** The moved display order holds the stored exercises, so its ids are distinct too. */
  lemma MovedPermutes(exs: seq<Exercise>, source: set<int>, destination: int)
    requires 0 <= destination <= |exs| && DistinctIds(exs)
    ensures 0 <= destination <= |SortByOrder(exs)|
    ensures multiset(Move(SortByOrder(exs), source, destination)) == multiset(exs)
    ensures |Move(SortByOrder(exs), source, destination)| == |exs|
    ensures DistinctIds(Move(SortByOrder(exs), source, destination))
  {
    MovePermutes(SortByOrder(exs), source, destination);
    PermutationKeepsDistinctKeys(exs, Move(SortByOrder(exs), source, destination), IdOf);
  }

  lemma PositionOfMember(ordered: seq<Exercise>, e: Exercise)
    requires e in ordered
    ensures Position(ordered, e.id) < |ordered|
  {
    var i :| 0 <= i < |ordered| && ordered[i] == e;
    assert ordered[i].id == e.id;
  }

  /** Once every position of a permutation is assigned, every stored exercise has its place. */
  lemma AssignedAll(exs: seq<Exercise>, ordered: seq<Exercise>)
    requires multiset(exs) == multiset(ordered)
    ensures AssignedUpTo(exs, ordered, |ordered|) == AssignOrder(exs, ordered)
  {
    forall j | 0 <= j < |exs|
      ensures Position(ordered, exs[j].id) < |ordered|
    {
      assert exs[j] in multiset(exs);
      PositionOfMember(ordered, exs[j]);
    }
  }

  // ---------------------------------------------------------------------------
  // What the list view shows after an edit
  // ---------------------------------------------------------------------------

  lemma {:induction false} AtLeastPosition(t: seq<Exercise>, k: nat)
    requires k < |t|
    requires forall i :: 0 <= i < |t| ==> 0 <= t[i].orderIndex
    requires forall i, j :: 0 <= i < j < |t| ==> t[i].orderIndex < t[j].orderIndex
    ensures k <= t[k].orderIndex
  {
    if k > 0 {
      AtLeastPosition(t, k - 1);
    }
  }

  lemma {:induction false} AtMostPosition(t: seq<Exercise>, k: nat)
    requires k < |t|
    requires forall i :: 0 <= i < |t| ==> t[i].orderIndex < |t|
    requires forall i, j :: 0 <= i < j < |t| ==> t[i].orderIndex < t[j].orderIndex
    ensures t[k].orderIndex <= k
    decreases |t| - k
  {
    if k < |t| - 1 {
      AtMostPosition(t, k + 1);
    }
  }

  /** A well-numbered list, sorted by `orderIndex`, has the exercise numbered `k` at position `k`. */
  lemma WellNumberedDisplay(exs: seq<Exercise>)
    requires WellNumbered(exs)
    ensures forall k :: 0 <= k < |exs| ==> SortByOrder(exs)[k].orderIndex == k
  {
    var t := SortByOrder(exs);
    PermutationKeepsDistinctKeys(exs, t, OrderOf);
    forall i | 0 <= i < |t|
      ensures 0 <= t[i].orderIndex < |t|
    {
      assert t[i] in multiset(exs);
    }
    forall i, j | 0 <= i < j < |t|
      ensures t[i].orderIndex < t[j].orderIndex
    {
      assert OrderOf(t[i]) != OrderOf(t[j]);
    }
    forall k | 0 <= k < |t|
      ensures t[k].orderIndex == k
    {
      AtLeastPosition(t, k);
      AtMostPosition(t, k);
    }
  }

  /** Giving every stored exercise its position in a permutation numbers the list 0 .. n-1. */
  lemma AssignOrderIsWellNumbered(exs: seq<Exercise>, ordered: seq<Exercise>)
    requires multiset(exs) == multiset(ordered) && DistinctIds(exs)
    ensures WellNumbered(AssignOrder(exs, ordered))
  {
    var a := AssignOrder(exs, ordered);
    forall j | 0 <= j < |exs|
      ensures 0 <= a[j].orderIndex < |a|
    {
      assert exs[j] in multiset(exs);
      PositionOfMember(ordered, exs[j]);
      assert |ordered| == |exs| by {
        assert |multiset(ordered)| == |multiset(exs)|;
      }
    }
    forall i, j | 0 <= i < |a| && 0 <= j < |a| && OrderOf(a[i]) == OrderOf(a[j])
      ensures i == j
    {
      var p := Position(ordered, exs[i].id);
      assert exs[i] in multiset(exs);
      PositionOfMember(ordered, exs[i]);
      assert ordered[p].id == exs[i].id && ordered[p].id == exs[j].id;
      assert IdOf(exs[i]) == IdOf(exs[j]);
    }
  }

  /** The exercise shown at `k` after the reorder is the `k`-th of the moved order. */
  lemma DisplayAt(exs: seq<Exercise>, ordered: seq<Exercise>, k: nat)
    requires multiset(exs) == multiset(ordered) && DistinctIds(exs) && DistinctIds(ordered)
    requires k < |exs|
    ensures |ordered| == |exs|
    ensures SortByOrder(AssignOrder(exs, ordered))[k] == ordered[k].(orderIndex := k)
  {
    assert |ordered| == |exs| by {
      assert |multiset(ordered)| == |multiset(exs)|;
    }
    var a := AssignOrder(exs, ordered);
    AssignOrderIsWellNumbered(exs, ordered);
    WellNumberedDisplay(a);
    var d := SortByOrder(a);
    assert d[k] in multiset(a);
    var j :| 0 <= j < |a| && a[j] == d[k];
    assert Position(ordered, exs[j].id) == k;
    assert exs[j] in multiset(ordered);
    var m :| 0 <= m < |ordered| && ordered[m] == exs[j];
    assert IdOf(ordered[m]) == IdOf(ordered[k]);
  }

  /**
   * After `reorderExercises`, the plan shows exactly the moved order, numbered
   * 0 .. n-1, and no exercise changes except in its `orderIndex`.
   */
  lemma ReorderDisplaysMove(exs: seq<Exercise>, source: set<int>, destination: int)
    requires 0 <= destination <= |exs| && DistinctIds(exs)
    ensures 0 <= destination <= |SortByOrder(exs)|
    ensures var r := AssignOrder(exs, Move(SortByOrder(exs), source, destination));
      && WellNumbered(r)
      && SortByOrder(r) == Renumber(Move(SortByOrder(exs), source, destination))
  {
    MovedPermutes(exs, source, destination);
    var ordered := Move(SortByOrder(exs), source, destination);
    var r := AssignOrder(exs, ordered);
    AssignOrderIsWellNumbered(exs, ordered);
    forall k | 0 <= k < |exs|
      ensures SortByOrder(r)[k] == Renumber(ordered)[k]
    {
      DisplayAt(exs, ordered, k);
    }
  }

  /**
   * After `removeExerciseFromPlan` the plan shows its stored order: the
   * renumbering follows the storage, not the order shown before.
   */
  lemma RemoveDisplaysStorageOrder(exs: seq<Exercise>)
    ensures SortByOrder(Renumber(exs)) == Renumber(exs)
  {
    OrderLtIsStrictWeakOrder();
    SortStrictlySorted(Renumber(exs), OrderLt);
  }

  /** A definition just created under `name` is what a second creation under the same name finds. */
  lemma CreatedIsFound(defs: seq<ExerciseDefinition>, created: ExerciseDefinition, name: string)
    requires Lower(created.name) == Lower(name)
    ensures FirstMatch(SortByName(defs + [created]), NameMatcher(name)).Some?
    ensures Lower(FirstMatch(SortByName(defs + [created]), NameMatcher(name)).value.name) == Lower(name)
  {
    var sorted := SortByName(defs + [created]);
    assert created in multiset(defs + [created]);
    assert created in sorted;
    assert NameMatcher(name)(created);
  }

  /** Appending the next exercise numbered after the rest keeps the list well numbered. */
  lemma AppendKeepsWellNumbered(exs: seq<Exercise>, e: Exercise)
    requires WellNumbered(exs) && e.orderIndex == |exs|
    ensures WellNumbered(exs + [e])
  {
    var t := exs + [e];
    forall i, j | 0 <= i < |t| && 0 <= j < |t| && OrderOf(t[i]) == OrderOf(t[j])
      ensures i == j
    {
      if i < |exs| && j < |exs| {
        assert OrderOf(exs[i]) == OrderOf(exs[j]);
      }
    }
  }

  /** Deleting a definition removes every definition with its id and keeps all the others, in order. */
  lemma DeleteKeepsOthers(defs: seq<ExerciseDefinition>, id: nat)
    ensures forall d :: d in Filter(defs, OtherId(id)) <==> d in defs && d.id != id
    ensures IsSubsequence(Filter(defs, OtherId(id)), defs)
  {
    FilterMembers(defs, OtherId(id));
    FilterIsSubsequence(defs, OtherId(id));
  }

  // ---------------------------------------------------------------------------
  // The manager
  // ---------------------------------------------------------------------------

  class ExerciseManager {
    var context: ModelContext?
    var allExercises: seq<ExerciseDefinition>
    var muscleGroups: seq<string>

    /** The configured context, as a frame: empty before `configure(with:)`. */
    function Ctx(): set<ModelContext>
      reads this
    {
      if context == null then {} else {context}
    }

    /** `init()`: not yet configured, empty caches. */
    constructor ()
      ensures context == null && allExercises == [] && muscleGroups == []
    {
      context := null;
      allExercises := [];
      muscleGroups := [];
    }

    /** `configure(with:)`. */
    method Configure(c: ModelContext)
      modifies this
      ensures context == c
      ensures allExercises == SortByName(c.definitions)
      ensures muscleGroups == DistinctSorted(GroupsOf(allExercises))
    {
      context := c;
      RefreshCache();
    }

    /** `refreshCache`: the definitions sorted by name, and their distinct muscle groups in order. */
    method RefreshCache()
      modifies this`allExercises, this`muscleGroups
      ensures context == old(context)
      ensures context == null ==> allExercises == old(allExercises) && muscleGroups == old(muscleGroups)
      ensures context != null ==>
        allExercises == SortByName(context.definitions) &&
        muscleGroups == DistinctSorted(GroupsOf(allExercises))
    {
      if context == null {
        return;
      }
      allExercises := SortByName(context.definitions);
      muscleGroups := DistinctSorted(GroupsOf(allExercises));
    }

    /** `searchExercises(query:)`. */
    function SearchExercises(query: string): (r: seq<ExerciseDefinition>)
      reads this
      ensures query == "" ==> r == allExercises
      ensures query != "" ==> forall d :: d in r <==> d in allExercises && SearchMatcher(query)(d)
      ensures IsSubsequence(r, allExercises)
    {
      if query == "" then
        FilterAll(allExercises, _ => true);
        FilterIsSubsequence(allExercises, _ => true);
        allExercises
      else
        FilterMembers(allExercises, SearchMatcher(query));
        FilterIsSubsequence(allExercises, SearchMatcher(query));
        Filter(allExercises, SearchMatcher(query))
    }

    /** `exercises(for:)`. */
    function ExercisesFor(muscleGroup: string): (r: seq<ExerciseDefinition>)
      reads this
      ensures forall d :: d in r <==> d in allExercises && d.muscleGroup == muscleGroup
      ensures IsSubsequence(r, allExercises)
    {
      FilterMembers(allExercises, GroupMatcher(muscleGroup));
      FilterIsSubsequence(allExercises, GroupMatcher(muscleGroup));
      Filter(allExercises, GroupMatcher(muscleGroup))
    }

    /** `exercises(withEquipment:)`. */
    function ExercisesWithEquipment(equipment: string): (r: seq<ExerciseDefinition>)
      reads this
      ensures forall d :: d in r <==> d in allExercises && d.equipment == equipment
      ensures IsSubsequence(r, allExercises)
    {
      FilterMembers(allExercises, EquipmentMatcher(equipment));
      FilterIsSubsequence(allExercises, EquipmentMatcher(equipment));
      Filter(allExercises, EquipmentMatcher(equipment))
    }

    /**
     * `createCustomExercise(name:muscleGroup:equipment:)`: an existing definition
     * with the same name up to case is returned and nothing is inserted; otherwise
     * a new custom definition is stored and the caches are refreshed.
     */
    method CreateCustomExercise(name: string, muscleGroup: string := "Sonstiges", equipment: string := "Sonstiges")
      returns (r: Option<ExerciseDefinition>)
      modifies this`allExercises, this`muscleGroups, Ctx()`definitions, Ctx()`nextId
      ensures context == old(context)
      ensures old(context) == null ==> r == None && allExercises == old(allExercises) && muscleGroups == old(muscleGroups)
      ensures context != null ==> context.plans == old(context.plans)
      ensures context != null && FirstMatch(old(allExercises), NameMatcher(name)).Some? ==>
        && r == FirstMatch(old(allExercises), NameMatcher(name))
        && context.definitions == old(context.definitions) && context.nextId == old(context.nextId)
        && allExercises == old(allExercises) && muscleGroups == old(muscleGroups)
      ensures context != null && FirstMatch(old(allExercises), NameMatcher(name)).None? ==>
        && r == Some(NewDefinition(old(context.nextId), name, muscleGroup, equipment, true))
        && context.definitions == old(context.definitions) + [r.value]
        && context.nextId == old(context.nextId) + 1
        && allExercises == SortByName(context.definitions)
        && muscleGroups == DistinctSorted(GroupsOf(allExercises))
    {
      if context == null {
        return None;
      }
      var existing := FirstMatch(allExercises, NameMatcher(name));
      if existing.Some? {
        return existing;
      }
      var id := context.FreshId();
      var created := NewDefinition(id, name, muscleGroup, equipment, true);
      context.InsertDefinition(created);
      RefreshCache();
      return Some(created);
    }

    /** `addExerciseToPlan(plan:exerciseDef:sets:reps:weight:restSeconds:)`: one copy appended, numbered after the rest. */
    method AddExerciseToPlan(plan: WorkoutPlan, exerciseDef: ExerciseDefinition,
                             sets: int := 3, reps: int := 10, weight: int := 0, restSeconds: int := 90)
      returns (r: Option<Exercise>)
      modifies plan`exercises, Ctx()`nextId
      ensures context == old(context)
      ensures old(context) == null ==> r == None && plan.exercises == old(plan.exercises)
      ensures old(context) != null ==>
        && r == Some(FromDefinition(old(context.nextId), exerciseDef, sets, reps, weight, restSeconds, |old(plan.exercises)|))
        && plan.exercises == old(plan.exercises) + [r.value]
        && context.definitions == old(context.definitions) && context.plans == old(context.plans)
        && context.nextId == old(context.nextId) + 1
      ensures plan.id == old(plan.id) && plan.name == old(plan.name) && plan.orderIndex == old(plan.orderIndex)
    {
      if context == null {
        return None;
      }
      var orderIndex := |plan.exercises|;
      var id := context.FreshId();
      var exercise := FromDefinition(id, exerciseDef, sets, reps, weight, restSeconds, orderIndex);
      plan.exercises := plan.exercises + [exercise];
      return Some(exercise);
    }

    /** `updateExercise(_:sets:reps:weight:restSeconds:)` on the exercise of `plan` with this id. */
    method UpdateExercise(plan: WorkoutPlan, exercise: Exercise, sets: int, reps: int, weight: int, restSeconds: int)
      modifies plan`exercises
      ensures context == null ==> plan.exercises == old(plan.exercises)
      ensures context != null ==>
        plan.exercises == UpdateSettings(old(plan.exercises), exercise.id, sets, reps, weight, restSeconds)
      ensures plan.id == old(plan.id) && plan.name == old(plan.name) && plan.orderIndex == old(plan.orderIndex)
    {
      if context == null {
        return;
      }
      plan.exercises := UpdateSettings(plan.exercises, exercise.id, sets, reps, weight, restSeconds);
    }

    /**
     * `removeExerciseFromPlan(exercise:plan:)`: the first element with the id is
     * removed and the rest are renumbered in storage order.
     */
    method RemoveExerciseFromPlan(exercise: Exercise, plan: WorkoutPlan)
      modifies plan`exercises
      ensures context == null || FirstIndex(old(plan.exercises), IdMatcher(exercise.id)).None? ==>
        plan.exercises == old(plan.exercises)
      ensures context != null && FirstIndex(old(plan.exercises), IdMatcher(exercise.id)).Some? ==>
        plan.exercises == Renumber(RemoveAt(old(plan.exercises), FirstIndex(old(plan.exercises), IdMatcher(exercise.id)).value))
      ensures plan.id == old(plan.id) && plan.name == old(plan.name) && plan.orderIndex == old(plan.orderIndex)
    {
      if context == null {
        return;
      }
      var found := FirstIndex(plan.exercises, IdMatcher(exercise.id));
      if found.None? {
        return;
      }
      var remaining := RemoveAt(plan.exercises, found.value);
      plan.exercises := remaining;
      for index := 0 to |plan.exercises|
        invariant |plan.exercises| == |remaining|
        invariant forall j :: 0 <= j < index ==> plan.exercises[j] == remaining[j].(orderIndex := j)
        invariant forall j :: index <= j < |remaining| ==> plan.exercises[j] == remaining[j]
      {
        plan.exercises := plan.exercises[index := plan.exercises[index].(orderIndex := index)];
      }
    }

    /**
     * `reorderExercises(in:from:to:)`: the exercises in `orderIndex` order are
     * moved as the list view moved its rows, and each gets its new position as
     * `orderIndex`; the stored list keeps its order.
     */
    method ReorderExercises(plan: WorkoutPlan, source: set<int>, destination: int)
      modifies plan`exercises
      requires forall i :: i in source ==> 0 <= i < |plan.exercises|
      requires 0 <= destination <= |plan.exercises|
      requires DistinctIds(plan.exercises)
      ensures context == null ==> plan.exercises == old(plan.exercises)
      ensures context != null ==>
        plan.exercises == AssignOrder(old(plan.exercises), Move(SortByOrder(old(plan.exercises)), source, destination))
      ensures plan.id == old(plan.id) && plan.name == old(plan.name) && plan.orderIndex == old(plan.orderIndex)
    {
      if context == null {
        return;
      }
      var stored := plan.exercises;
      var ordered := SortByOrder(plan.exercises);
      ordered := Move(ordered, source, destination);
      MovedPermutes(stored, source, destination);
      AssignedNone(stored, ordered);
      for index := 0 to |ordered|
        invariant plan.exercises == AssignedUpTo(stored, ordered, index)
      {
        AssignStep(stored, ordered, index);
        plan.exercises := SetOrderOf(plan.exercises, ordered[index].id, index);
      }
      AssignedAll(stored, ordered);
    }

    /** `deleteCustomExercise(_:)`: only custom definitions are deleted. */
    method DeleteCustomExercise(exercise: ExerciseDefinition) returns (deleted: bool)
      modifies this`allExercises, this`muscleGroups, Ctx()`definitions
      ensures context == old(context)
      ensures deleted <==> old(context) != null && exercise.isCustom
      ensures context != null ==> context.plans == old(context.plans) && context.nextId == old(context.nextId)
      ensures !deleted ==>
        && (context == null || context.definitions == old(context.definitions))
        && allExercises == old(allExercises) && muscleGroups == old(muscleGroups)
      ensures deleted ==>
        && context.definitions == Filter(old(context.definitions), OtherId(exercise.id))
        && allExercises == SortByName(context.definitions)
        && muscleGroups == DistinctSorted(GroupsOf(allExercises))
    {
      if context == null {
        return false;
      }
      if !exercise.isCustom {
        return false;
      }
      context.definitions := Filter(context.definitions, OtherId(exercise.id));
      RefreshCache();
      return true;
    }

    /** `totalExerciseCount`. */
    function TotalExerciseCount(): nat
      reads this
    {
      |allExercises|
    }

    /** `customExerciseCount`. */
    function CustomExerciseCount(): nat
      reads this
    {
      Count(allExercises, IsCustom)
    }

    /** `builtInExerciseCount`. */
    function BuiltInExerciseCount(): nat
      reads this
    {
      Count(allExercises, IsBuiltIn)
    }

    /** Every cached definition is either custom or built in. */
    lemma CountsAddUp()
      ensures CustomExerciseCount() + BuiltInExerciseCount() == TotalExerciseCount()
    {
      CountSplit(allExercises, IsCustom, IsBuiltIn);
    }
  }
}
