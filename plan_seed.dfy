/**
 * The push/pull/legs starter plans (`WorkoutPlanSeed.swift`): a one-time
 * clean-up of stale and duplicate plans, then the creation of each default plan
 * whose name is not stored yet.
 *
 * The clean-up is specified on the plans' names and exercise counts, by the
 * positions of the plans in the fetched list: `Kept` lists the positions that
 * survive, in storage order.
 */
module PlanSeeding {
  import opened Wrappers
  import opened Text
  import opened Lists
  import opened Exercises
  import opened Store
  import opened ExerciseSeed
  import opened ExerciseManagement

  /** `PlanExerciseSeed`: one exercise of a default plan. */
  datatype PlanExerciseSeed = PlanExerciseSeed(exerciseName: string, sets: int, reps: int, restSeconds: int)

  /** `PlanSeed`: a default plan. */
  datatype PlanSeed = PlanSeed(name: string, orderIndex: int, exercises: seq<PlanExerciseSeed>)

  /** `defaultPPLPlans`: push, pull and legs, in that order. */
  function DefaultPPLPlans(): seq<PlanSeed> {
    [PlanSeed("Push", 0, PushExercises()), PlanSeed("Pull", 1, PullExercises()), PlanSeed("Legs", 2, LegsExercises())]
  }

  function PushExercises(): seq<PlanExerciseSeed> {
    [ PlanExerciseSeed("Bankdrücken", 4, 8, 90),
      PlanExerciseSeed("Schrägbankdrücken", 3, 10, 90),
      PlanExerciseSeed("Kurzhantel-Flys", 3, 12, 90),
      PlanExerciseSeed("Schulterdrücken", 4, 8, 90),
      PlanExerciseSeed("Seitheben", 3, 15, 90),
      PlanExerciseSeed("Trizepsdrücken am Kabel", 3, 12, 90),
      PlanExerciseSeed("Skull Crushers", 3, 10, 90) ]
  }

  function PullExercises(): seq<PlanExerciseSeed> {
    [ PlanExerciseSeed("Kreuzheben", 4, 6, 90),
      PlanExerciseSeed("Klimmzüge", 4, 8, 90),
      PlanExerciseSeed("Langhantel-Rudern", 3, 10, 90),
      PlanExerciseSeed("Kabelrudern", 3, 12, 90),
      PlanExerciseSeed("Face Pulls", 3, 15, 90),
      PlanExerciseSeed("Langhantel-Curls", 3, 10, 90),
      PlanExerciseSeed("Hammer Curls", 3, 12, 90) ]
  }

  function LegsExercises(): seq<PlanExerciseSeed> {
    [ PlanExerciseSeed("Kniebeugen", 4, 8, 90),
      PlanExerciseSeed("Rumänisches Kreuzheben", 4, 10, 90),
      PlanExerciseSeed("Beinpresse", 3, 12, 90),
      PlanExerciseSeed("Beinstrecker", 3, 12, 90),
      PlanExerciseSeed("Beinbeuger", 3, 12, 90),
      PlanExerciseSeed("Wadenheben stehend", 4, 15, 90) ]
  }

  /** `pplPlanNames`: the names of the default plans. */
  function PplPlanNames(): (r: set<string>)
    ensures r == {"Push", "Pull", "Legs"}
  {
    var plans := DefaultPPLPlans();
    assert plans[0].name == "Push" && plans[1].name == "Pull" && plans[2].name == "Legs";
    set k | 0 <= k < |plans| :: plans[k].name
  }

  /** Some entry of the built-in library is called `name`. */
  ghost predicate InLibrary(name: string) {
    exists i :: 0 <= i < |DefaultExercises()| && DefaultExercises()[i].name == name
  }

  lemma InLibraryAt(i: nat, name: string)
    requires i < 60 && SeedEntry(i).name == name
    ensures InLibrary(name)
  {
    assert DefaultExercises()[i] == SeedEntry(i);
  }

  lemma PushExercisesInLibrary(k: nat)
    requires k < |PushExercises()|
    ensures InLibrary(PushExercises()[k].exerciseName)
  {
    if k == 0 { InLibraryAt(0, "Bankdrücken"); }
    else if k == 1 { InLibraryAt(1, "Schrägbankdrücken"); }
    else if k == 2 { InLibraryAt(3, "Kurzhantel-Flys"); }
    else if k == 3 { InLibraryAt(16, "Schulterdrücken"); }
    else if k == 4 { InLibraryAt(18, "Seitheben"); }
    else if k == 5 { InLibraryAt(30, "Trizepsdrücken am Kabel"); }
    else { InLibraryAt(31, "Skull Crushers"); }
  }

  lemma PullExercisesInLibrary(k: nat)
    requires k < |PullExercises()|
    ensures InLibrary(PullExercises()[k].exerciseName)
  {
    if k == 0 { InLibraryAt(8, "Kreuzheben"); }
    else if k == 1 { InLibraryAt(9, "Klimmzüge"); }
    else if k == 2 { InLibraryAt(10, "Langhantel-Rudern"); }
    else if k == 3 { InLibraryAt(13, "Kabelrudern"); }
    else if k == 4 { InLibraryAt(15, "Face Pulls"); }
    else if k == 5 { InLibraryAt(23, "Langhantel-Curls"); }
    else { InLibraryAt(25, "Hammer Curls"); }
  }

  lemma LegsExercisesInLibrary(k: nat)
    requires k < |LegsExercises()|
    ensures InLibrary(LegsExercises()[k].exerciseName)
  {
    if k == 0 { InLibraryAt(35, "Kniebeugen"); }
    else if k == 1 { InLibraryAt(44, "Rumänisches Kreuzheben"); }
    else if k == 2 { InLibraryAt(37, "Beinpresse"); }
    else if k == 3 { InLibraryAt(40, "Beinstrecker"); }
    else if k == 4 { InLibraryAt(41, "Beinbeuger"); }
    else { InLibraryAt(42, "Wadenheben stehend"); }
  }

  /** Every exercise a default plan names is in the built-in library. */
  lemma PplExercisesInLibrary()
    ensures forall p, k :: 0 <= p < |DefaultPPLPlans()| && 0 <= k < |DefaultPPLPlans()[p].exercises| ==>
      InLibrary(DefaultPPLPlans()[p].exercises[k].exerciseName)
  {
    forall p, k | 0 <= p < |DefaultPPLPlans()| && 0 <= k < |DefaultPPLPlans()[p].exercises|
      ensures InLibrary(DefaultPPLPlans()[p].exercises[k].exerciseName)
    {
      if p == 0 { PushExercisesInLibrary(k); }
      else if p == 1 { PullExercisesInLibrary(k); }
      else { LegsExercisesInLibrary(k); }
    }
  }

  // ---------------------------------------------------------------------------
  // cleanupInvalidPlans, as a specification on (name, exercise count) pairs
  // ---------------------------------------------------------------------------

  /** What the clean-up looks at of a stored plan. */
  datatype PlanInfo = PlanInfo(name: string, exerciseCount: nat)

  function Infos(plans: seq<WorkoutPlan>): (r: seq<PlanInfo>)
    reads plans
    ensures |r| == |plans|
    ensures forall i :: 0 <= i < |plans| ==> r[i] == PlanInfo(plans[i].name, |plans[i].exercises|)
  {
    if plans == [] then [] else [PlanInfo(plans[0].name, |plans[0].exercises|)] + Infos(plans[1..])
  }

  /**
   * Step A's test: the placeholder name, an old "Tag n – …" name, or an empty
   * plan that is not one of the default plans.
   */
  predicate IsInvalid(p: PlanInfo) {
    || p.name == "New Plan"
    || (StartsWith(p.name, "Tag ") && Contains(p.name, " – "))
    || (p.exerciseCount == 0 && p.name !in PplPlanNames())
  }

  /** A default plan is never invalid, even with no exercises. */
  lemma PplPlansAreValid(p: PlanInfo)
    requires p.name in PplPlanNames()
    ensures !IsInvalid(p)
  {
    assert p.name == "Push" || p.name == "Pull" || p.name == "Legs";
    NotTagPrefix(p.name);
  }

  lemma NotTagPrefix(s: string)
    requires |s| > 0 && s[0] != 'T'
    ensures !StartsWith(s, "Tag ")
  {
    if |s| >= 4 {
      assert s[..4][0] == s[0];
    }
  }

  /** The old German plan names are invalid whatever they hold. */
  lemma OldPlanNamesAreInvalid(count: nat)
    ensures IsInvalid(PlanInfo("Tag 1 – PUSH", count))
    ensures IsInvalid(PlanInfo("New Plan", count))
  {
    assert OccursAt("Tag 1 – PUSH", " – ", 5);
  }

  /** `[0, 1, …, n - 1]`. */
  function Range(n: nat): (r: seq<nat>)
    ensures |r| == n
    ensures forall i :: 0 <= i < n ==> r[i] == i
    ensures forall i :: i in r <==> 0 <= i < n
  {
    if n == 0 then [] else Range(n - 1) + [n - 1]
  }

  lemma RangeStrictlySorted(n: nat)
    ensures StrictlySortedBy(Range(n), (a: nat, b: nat) => a < b)
  {
  }

  function InvalidAt(infos: seq<PlanInfo>): nat -> bool {
    (i: nat) => i < |infos| && IsInvalid(infos[i])
  }

  function ValidAt(infos: seq<PlanInfo>): nat -> bool {
    (i: nat) => i < |infos| && !IsInvalid(infos[i])
  }

  function NotListed(positions: seq<nat>): nat -> bool {
    (i: nat) => i !in positions
  }

  function NotAmong(positions: set<nat>): nat -> bool {
    (i: nat) => i !in positions
  }

  function Among(positions: set<nat>): nat -> bool {
    (i: nat) => i in positions
  }

  function NamedAt(infos: seq<PlanInfo>, name: string): nat -> bool {
    (i: nat) => i < |infos| && infos[i].name == name
  }

  function CountAt(infos: seq<PlanInfo>, i: nat): nat {
    if i < |infos| then infos[i].exerciseCount else 0
  }

  /** The comparator of Step B: more exercises first. */
  function MoreExercises(infos: seq<PlanInfo>): (nat, nat) -> bool {
    (i: nat, j: nat) => CountAt(infos, i) > CountAt(infos, j)
  }

  lemma MoreExercisesIsStrictWeakOrder(infos: seq<PlanInfo>)
    ensures StrictWeakOrder(MoreExercises(infos))
  {
  }

  /** Step A's list: the positions of the invalid plans. */
  function ToDelete(infos: seq<PlanInfo>): seq<nat> {
    Filter(Range(|infos|), InvalidAt(infos))
  }

  /** The positions left after Step A. */
  function Remaining(infos: seq<PlanInfo>): (r: seq<nat>)
    ensures forall i: nat :: i in r <==> i < |infos| && !IsInvalid(infos[i])
    ensures forall k :: 0 <= k < |r| ==> r[k] < |infos|
  {
    FilterMembers(Range(|infos|), ValidAt(infos));
    var r := Filter(Range(|infos|), ValidAt(infos));
    assert forall k :: 0 <= k < |r| ==> r[k] in r;
    r
  }

  /** The remaining plans called `name`, in storage order: a group of `Dictionary(grouping:by:)`. */
  function Group(infos: seq<PlanInfo>, name: string): (r: seq<nat>)
    ensures forall i: nat :: i in r <==> i < |infos| && !IsInvalid(infos[i]) && infos[i].name == name
  {
    FilterMembers(Remaining(infos), NamedAt(infos, name));
    Filter(Remaining(infos), NamedAt(infos, name))
  }

  /** The plan of a group that survives: the first of the group sorted by descending exercise count. */
  function Keeper(infos: seq<PlanInfo>, name: string): nat
    requires Group(infos, name) != []
  {
    SortLength(Group(infos, name), MoreExercises(infos));
    SortBy(Group(infos, name), MoreExercises(infos))[0]
  }

  /** A remaining plan that is not its group's keeper: deleted by Step B. */
  predicate IsDuplicate(infos: seq<PlanInfo>, i: nat) {
    i < |infos| && !IsInvalid(infos[i]) &&
    assert i in Group(infos, infos[i].name);
    Keeper(infos, infos[i].name) != i
  }

  function Survives(infos: seq<PlanInfo>): nat -> bool {
    (i: nat) => !IsDuplicate(infos, i)
  }

  /** The positions of the plans the clean-up keeps, in storage order. */
  function Kept(infos: seq<PlanInfo>): (r: seq<nat>)
    ensures forall k :: 0 <= k < |r| ==> r[k] < |infos|
  {
    FilterMembers(Remaining(infos), Survives(infos));
    var r := Filter(Remaining(infos), Survives(infos));
    assert forall k :: 0 <= k < |r| ==> r[k] in r;
    r
  }

  /** The plans at the listed positions. */
  function Select(plans: seq<WorkoutPlan>, positions: seq<nat>): (r: seq<WorkoutPlan>)
    requires forall k :: 0 <= k < |positions| ==> positions[k] < |plans|
    ensures |r| == |positions|
    ensures forall k :: 0 <= k < |positions| ==> r[k] == plans[positions[k]]
  {
    seq(|positions|, k requires 0 <= k < |positions| => plans[positions[k]])
  }

  function AsInt(i: nat): int {
    i
  }

  lemma RangeDistinct(n: nat)
    ensures DistinctKeys(Range(n), AsInt)
  {
  }

  /** A group lists each position once. */
  lemma GroupDistinct(infos: seq<PlanInfo>, name: string)
    ensures DistinctKeys(Group(infos, name), AsInt)
  {
    RangeDistinct(|infos|);
    FilterKeepsDistinctKeys(Range(|infos|), ValidAt(infos), AsInt);
    FilterKeepsDistinctKeys(Remaining(infos), NamedAt(infos, name), AsInt);
  }

  /**
   * The keeper belongs to the group, no plan of the group has more exercises,
   * and Step B's `sorted.dropFirst()` is exactly the rest of the group.
   */
  lemma KeeperOfGroup(infos: seq<PlanInfo>, name: string)
    requires Group(infos, name) != []
    ensures Keeper(infos, name) in Group(infos, name)
    ensures forall j :: j in Group(infos, name) ==> CountAt(infos, j) <= CountAt(infos, Keeper(infos, name))
    ensures var sorted := SortBy(Group(infos, name), MoreExercises(infos));
      forall j :: j in sorted[1..] <==> j in Group(infos, name) && j != Keeper(infos, name)
  {
    var sorted := SortBy(Group(infos, name), MoreExercises(infos));
    SortedGroup(infos, name);
    SortedHeadIsLargest(infos, sorted);
    TailIsRest(sorted);
  }

  /** The group sorted by exercise count holds the group's positions, each once, by nonincreasing count. */
  lemma SortedGroup(infos: seq<PlanInfo>, name: string)
    ensures var g := Group(infos, name); var sorted := SortBy(g, MoreExercises(infos));
      && |sorted| == |g|
      && (forall j :: j in g <==> j in sorted)
      && DistinctKeys(sorted, AsInt)
      && SortedBy(sorted, MoreExercises(infos))
  {
    var g := Group(infos, name);
    var lt := MoreExercises(infos);
    var sorted := SortBy(g, lt);
    SortPermutes(g, lt);
    SortLength(g, lt);
    MoreExercisesIsStrictWeakOrder(infos);
    SortSorts(g, lt);
    GroupDistinct(infos, name);
    PermutationKeepsDistinctKeys(g, sorted, AsInt);
    forall j
      ensures j in g <==> j in sorted
    {
      assert j in g <==> j in multiset(g);
      assert j in sorted <==> j in multiset(sorted);
    }
  }

  /** In a list sorted by descending exercise count the first position has the most exercises. */
  lemma SortedHeadIsLargest(infos: seq<PlanInfo>, sorted: seq<nat>)
    requires sorted != [] && SortedBy(sorted, MoreExercises(infos))
    ensures forall j :: j in sorted ==> CountAt(infos, j) <= CountAt(infos, sorted[0])
  {
    forall j | j in sorted
      ensures CountAt(infos, j) <= CountAt(infos, sorted[0])
    {
      var m :| 0 <= m < |sorted| && sorted[m] == j;
      if m > 0 {
        assert !MoreExercises(infos)(sorted[m], sorted[0]);
      }
    }
  }

  /** Without repeated positions, dropping the first leaves exactly the others. */
  lemma TailIsRest(sorted: seq<nat>)
    requires sorted != [] && DistinctKeys(sorted, AsInt)
    ensures forall j :: j in sorted[1..] <==> j in sorted && j != sorted[0]
  {
    forall j
      ensures j in sorted[1..] <==> j in sorted && j != sorted[0]
    {
      if j in sorted[1..] {
        var m :| 0 <= m < |sorted[1..]| && sorted[1..][m] == j;
        assert sorted[m + 1] == j;
        assert AsInt(sorted[m + 1]) != AsInt(sorted[0]);
      }
      if j in sorted && j != sorted[0] {
        var m :| 0 <= m < |sorted| && sorted[m] == j;
        assert sorted[1..][m - 1] == j;
      }
    }
  }

  /** A plan is kept exactly when it survives Step A and is the keeper of its name. */
  lemma KeptMembers(infos: seq<PlanInfo>)
    ensures forall i: nat :: i in Kept(infos) <==> i < |infos| && !IsInvalid(infos[i]) && !IsDuplicate(infos, i)
  {
    FilterMembers(Remaining(infos), Survives(infos));
  }

  /** Step A's list holds exactly the invalid plans. */
  lemma ToDeleteExactly(infos: seq<PlanInfo>)
    ensures forall i: nat :: i in ToDelete(infos) <==> i < |infos| && IsInvalid(infos[i])
  {
    FilterMembers(Range(|infos|), InvalidAt(infos));
  }

  /** No invalid plan survives the clean-up. */
  lemma CleanupRemovesInvalid(infos: seq<PlanInfo>)
    ensures forall i: nat :: i in Kept(infos) ==> i < |infos| && !IsInvalid(infos[i])
  {
    KeptMembers(infos);
  }

  /** After the clean-up no two plans share a name. */
  lemma CleanupKeepsOnePerName(infos: seq<PlanInfo>, i: nat, j: nat)
    requires i in Kept(infos) && j in Kept(infos) && i < |infos| && j < |infos|
    requires infos[i].name == infos[j].name
    ensures i == j
  {
    KeptMembers(infos);
  }

  /**
   * Every name of a valid plan survives, carried by a plan with at least as
   * many exercises as any valid plan of that name.
   */
  lemma CleanupKeepsEveryValidName(infos: seq<PlanInfo>, i: nat)
    requires i < |infos| && !IsInvalid(infos[i])
    ensures exists j: nat ::
              && j in Kept(infos) && j < |infos| && infos[j].name == infos[i].name
              && forall k: nat :: k < |infos| && !IsInvalid(infos[k]) && infos[k].name == infos[i].name ==>
                   infos[k].exerciseCount <= infos[j].exerciseCount
  {
    var name := infos[i].name;
    assert i in Group(infos, name);
    KeeperOfGroup(infos, name);
    var j := Keeper(infos, name);
    KeptMembers(infos);
    assert j in Kept(infos);
    forall k: nat | k < |infos| && !IsInvalid(infos[k]) && infos[k].name == name
      ensures infos[k].exerciseCount <= infos[j].exerciseCount
    {
      assert k in Group(infos, name);
    }
  }

  /** The names of the plans at the listed positions. */
  function NamesAt(infos: seq<PlanInfo>, positions: seq<nat>): (r: seq<string>)
    requires forall k :: 0 <= k < |positions| ==> positions[k] < |infos|
    ensures forall i: nat :: i in positions ==> infos[i].name in r
  {
    var r := seq(|positions|, k requires 0 <= k < |positions| => infos[positions[k]].name);
    assert forall k :: 0 <= k < |positions| ==> r[k] == infos[positions[k]].name;
    r
  }

  /** The duplicates Step B has deleted once it has handled the groups called one of `names`. */
  ghost function DuplicatesAmong(infos: seq<PlanInfo>, names: seq<string>): set<nat> {
    set i: nat | i < |infos| && !IsInvalid(infos[i]) && infos[i].name in names && IsDuplicate(infos, i)
  }

  /** Handling one more group deletes its sorted list but the first. */
  lemma DuplicatesStep(infos: seq<PlanInfo>, names: seq<string>, name: string)
    ensures Group(infos, name) == [] ==> DuplicatesAmong(infos, names + [name]) == DuplicatesAmong(infos, names)
    ensures Group(infos, name) != [] ==>
      var sorted := SortBy(Group(infos, name), MoreExercises(infos));
      |sorted| == |Group(infos, name)| &&
      DuplicatesAmong(infos, names + [name]) == DuplicatesAmong(infos, names) + (set j | j in sorted[1..])
  {
    var g := Group(infos, name);
    SortLength(g, MoreExercises(infos));
    if g != [] {
      KeeperOfGroup(infos, name);
    }
  }

  /** What one group adds to Step B's deletions: its sorted list but the first, when it has two plans or more. */
  function DroppedOf(infos: seq<PlanInfo>, dupes: seq<nat>): set<nat> {
    if |dupes| > 1 then (set j | j in SortBy(dupes, MoreExercises(infos))[1..]) else {}
  }

  /** Round `g` of Step B adds exactly the dropped plans of the `g`-th name's group. */
  lemma DuplicatesRound(infos: seq<PlanInfo>, names: seq<string>, g: nat)
    requires g < |names|
    ensures DuplicatesAmong(infos, names[..g + 1]) ==
      DuplicatesAmong(infos, names[..g]) + DroppedOf(infos, Filter(Remaining(infos), NamedAt(infos, names[g])))
  {
    assert names[..g + 1] == names[..g] + [names[g]];
    DuplicatesStep(infos, names[..g], names[g]);
  }

  /** Step A's loop appends a position exactly when that plan is invalid. */
  lemma ToDeleteStep(infos: seq<PlanInfo>, i: nat)
    requires i < |infos|
    ensures Filter(Range(i + 1), InvalidAt(infos)) ==
      Filter(Range(i), InvalidAt(infos)) + (if IsInvalid(infos[i]) then [i] else [])
  {
    FilterAppend(Range(i), [i], InvalidAt(infos));
    assert Range(i + 1) == Range(i) + [i];
  }

  /** `allPlans.filter { !toDelete.contains($0) }` is the list of valid plans. */
  lemma RemainingAfterStepA(infos: seq<PlanInfo>)
    ensures Filter(Range(|infos|), NotListed(ToDelete(infos))) == Remaining(infos)
  {
    ToDeleteExactly(infos);
    FilterCongruent(Range(|infos|), NotListed(ToDelete(infos)), ValidAt(infos));
  }

  /** Once every group is handled, the plans not deleted are the kept ones. */
  lemma KeptAfterStepB(infos: seq<PlanInfo>, duplicates: set<nat>)
    requires forall i :: i in Remaining(infos) ==> (i in duplicates <==> IsDuplicate(infos, i))
    ensures Filter(Remaining(infos), NotAmong(duplicates)) == Kept(infos)
  {
    FilterCongruent(Remaining(infos), NotAmong(duplicates), Survives(infos));
  }

  // ---------------------------------------------------------------------------
  // totalRemoved
  // ---------------------------------------------------------------------------

  /** The names of the remaining plans, each once: the keys of `Dictionary(grouping:by:)`. */
  function GroupNames(infos: seq<PlanInfo>): seq<string> {
    Dedup(NamesAt(infos, Remaining(infos)))
  }

  /** What one group adds to `totalRemoved`: `max(count - 1, 0)`. */
  function GroupExcess(infos: seq<PlanInfo>, name: string): nat {
    var n := |Group(infos, name)|;
    if n > 1 then n - 1 else 0
  }

  /** `reduce(0) { $0 + max($1.count - 1, 0) }` over the groups called one of `names`. */
  function Excess(infos: seq<PlanInfo>, names: seq<string>): nat {
    if names == [] then 0 else Excess(infos, names[..|names| - 1]) + GroupExcess(infos, names[|names| - 1])
  }

  /** Distinct positions: the set of them is as large as the list. */
  lemma {:induction false} PositionsCard(s: seq<nat>)
    requires DistinctKeys(s, AsInt)
    ensures |(set i: nat | i in s)| == |s|
  {
    if s != [] {
      assert DistinctKeys(s[1..], AsInt) by {
        forall i, j | 0 <= i < |s[1..]| && 0 <= j < |s[1..]| && AsInt(s[1..][i]) == AsInt(s[1..][j])
          ensures i == j
        {
          assert AsInt(s[i + 1]) == AsInt(s[j + 1]);
        }
      }
      PositionsCard(s[1..]);
      assert s[0] !in s[1..] by {
        forall k | 0 <= k < |s[1..]|
          ensures s[1..][k] != s[0]
        {
          assert AsInt(s[k + 1]) != AsInt(s[0]);
        }
      }
      var rest := set i: nat | i in s[1..];
      var whole := set i: nat | i in s;
      assert |rest| == |s[1..]|;
      assert s[0] !in rest;
      assert whole == {s[0]} + rest;
      assert |whole| == |rest| + 1;
    }
  }

  /** The remaining positions are distinct, and so are those of each group. */
  lemma GroupPositionsDistinct(infos: seq<PlanInfo>, name: string)
    ensures DistinctKeys(Remaining(infos), AsInt)
    ensures DistinctKeys(Group(infos, name), AsInt)
  {
    RangeDistinct(|infos|);
    FilterKeepsDistinctKeys(Range(|infos|), ValidAt(infos), AsInt);
    FilterKeepsDistinctKeys(Remaining(infos), NamedAt(infos, name), AsInt);
  }

  /** Round `g` of Step B deletes as many plans as its group adds to `totalRemoved`, none deleted before. */
  lemma DroppedCount(infos: seq<PlanInfo>, names: seq<string>, g: nat)
    requires Distinct(names) && g < |names|
    ensures DuplicatesAmong(infos, names[..g]) !! DroppedOf(infos, Group(infos, names[g]))
    ensures |DroppedOf(infos, Group(infos, names[g]))| == GroupExcess(infos, names[g])
  {
    var dupes := Group(infos, names[g]);
    var dropped := DroppedOf(infos, dupes);
    if |dupes| > 1 {
      var sorted := SortBy(dupes, MoreExercises(infos));
      SortPermutes(dupes, MoreExercises(infos));
      SortLength(dupes, MoreExercises(infos));
      forall x | x in dropped
        ensures x < |infos| && infos[x].name == names[g]
      {
        assert x in sorted[1..];
        assert x in multiset(sorted);
        assert x in dupes;
      }
      forall x | x in DuplicatesAmong(infos, names[..g])
        ensures x !in dropped
      {
        assert infos[x].name in names[..g];
      }
      GroupPositionsDistinct(infos, names[g]);
      PermutationKeepsDistinctKeys(dupes, sorted, AsInt);
      var tail := sorted[1..];
      assert DistinctKeys(tail, AsInt) by {
        forall i, j | 0 <= i < |tail| && 0 <= j < |tail| && AsInt(tail[i]) == AsInt(tail[j])
          ensures i == j
        {
          assert AsInt(sorted[i + 1]) == AsInt(sorted[j + 1]);
        }
      }
      PositionsCard(tail);
      assert dropped == (set i: nat | i in tail);
      assert |tail| == |dupes| - 1;
    }
  }

  /** Round `g` of Step B adds its group's excess both to the sum and to the deleted plans. */
  lemma ExcessRound(infos: seq<PlanInfo>, names: seq<string>, g: nat)
    requires Distinct(names) && g < |names|
    ensures Excess(infos, names[..g + 1]) == Excess(infos, names[..g]) + GroupExcess(infos, names[g])
    ensures |DuplicatesAmong(infos, names[..g + 1])|
      == |DuplicatesAmong(infos, names[..g])| + GroupExcess(infos, names[g])
  {
    assert names[..g + 1][..g] == names[..g];
    DuplicatesRound(infos, names, g);
    DroppedCount(infos, names, g);
  }

  /** Step A splits the plans into those it deletes and the remaining ones. */
  lemma StepACount(infos: seq<PlanInfo>)
    ensures |ToDelete(infos)| + |Remaining(infos)| == |infos|
  {
    CountSplit(Range(|infos|), InvalidAt(infos), ValidAt(infos));
  }

  /** Step B removes from the remaining plans exactly its deleted ones. */
  lemma KeptCount(infos: seq<PlanInfo>, duplicates: set<nat>)
    requires forall i :: i in Remaining(infos) ==> (i in duplicates <==> IsDuplicate(infos, i))
    requires forall i :: i in duplicates ==> i in Remaining(infos)
    ensures |Kept(infos)| == |Remaining(infos)| - |duplicates|
  {
    var rem := Remaining(infos);
    KeptAfterStepB(infos, duplicates);
    CountSplit(rem, NotAmong(duplicates), Among(duplicates));
    var inside := Filter(rem, Among(duplicates));
    FilterMembers(rem, Among(duplicates));
    GroupPositionsDistinct(infos, "");
    FilterKeepsDistinctKeys(rem, Among(duplicates), AsInt);
    PositionsCard(inside);
    assert (set i: nat | i in inside) == duplicates;
  }

  /** Step A of `cleanupInvalidPlans`: the positions of the invalid plans, in storage order. */
  method CollectInvalidPlans(allPlans: seq<WorkoutPlan>) returns (toDelete: seq<nat>)
    ensures toDelete == ToDelete(Infos(allPlans))
  {
    ghost var infos := Infos(allPlans);
    toDelete := [];
    for i: nat := 0 to |allPlans|
      invariant toDelete == Filter(Range(i), InvalidAt(infos))
    {
      var plan := allPlans[i];
      assert infos[i] == PlanInfo(plan.name, |plan.exercises|);
      ToDeleteStep(infos, i);
      if plan.name == "New Plan" {
        toDelete := toDelete + [i];
      } else if StartsWith(plan.name, "Tag ") && Contains(plan.name, " – ") {
        toDelete := toDelete + [i];
      } else if |plan.exercises| == 0 && plan.name !in PplPlanNames() {
        toDelete := toDelete + [i];
      }
    }
  }

  /**
   * Step B of `cleanupInvalidPlans`: for each name of the remaining plans, the
   * group sorted by descending exercise count loses all but its first plan.
   */
  method CollectDuplicates(infos: seq<PlanInfo>, remaining: seq<nat>) returns (duplicates: set<nat>, excess: nat)
    requires remaining == Remaining(infos)
    ensures forall i :: i in remaining ==> (i in duplicates <==> IsDuplicate(infos, i))
    ensures forall i :: i in duplicates ==> i in remaining
    ensures excess == Excess(infos, GroupNames(infos)) && excess == |duplicates|
  {
    var names := Dedup(NamesAt(infos, remaining));
    duplicates := {};
    excess := 0;
    for g := 0 to |names|
      invariant duplicates == DuplicatesAmong(infos, names[..g])
      invariant excess == Excess(infos, names[..g]) && excess == |duplicates|
    {
      var dupes := Filter(remaining, NamedAt(infos, names[g]));
      assert dupes == Group(infos, names[g]);
      DuplicatesRound(infos, names, g);
      ExcessRound(infos, names, g);
      if |dupes| > 1 {
        var sorted := SortBy(dupes, MoreExercises(infos));
        duplicates := duplicates + (set j | j in sorted[1..]);
        excess := excess + (|dupes| - 1);
      }
    }
    assert names[..|names|] == names;
  }

  /** Steps A and B of `cleanupInvalidPlans` on the stored plans: the positions of the plans that survive. */
  method KeptPositions(allPlans: seq<WorkoutPlan>) returns (kept: seq<nat>, totalRemoved: nat)
    ensures kept == Kept(Infos(allPlans))
    ensures totalRemoved == |ToDelete(Infos(allPlans))| + Excess(Infos(allPlans), GroupNames(Infos(allPlans)))
    ensures totalRemoved == |allPlans| - |kept|
  {
    var infos := Infos(allPlans);
    var toDelete := CollectInvalidPlans(allPlans);
    var remaining := Filter(Range(|allPlans|), NotListed(toDelete));
    RemainingAfterStepA(infos);
    var duplicates, excess := CollectDuplicates(infos, remaining);
    KeptAfterStepB(infos, duplicates);
    kept := Filter(remaining, NotAmong(duplicates));
    KeptCount(infos, duplicates);
    StepACount(infos);
    totalRemoved := |toDelete| + excess;
  }

  /**
   * `cleanupInvalidPlans(modelContext:)`: Step A deletes the invalid plans, Step B all but one plan per name;
   * `totalRemoved` counts both and is exactly the number of plans gone.
   */
  method CleanupInvalidPlans(context: ModelContext) returns (totalRemoved: nat)
    modifies context
    ensures totalRemoved == |ToDelete(old(Infos(context.plans)))| + Excess(old(Infos(context.plans)), GroupNames(old(Infos(context.plans))))
    ensures totalRemoved == |old(context.plans)| - |context.plans|
    ensures context.plans == Select(old(context.plans), Kept(old(Infos(context.plans))))
    ensures context.plans == old(Cleaned(context.plans))
    ensures context.definitions == old(context.definitions) && context.nextId == old(context.nextId)
    ensures PlanNamesDistinct(context.plans) && AllValid(context.plans)
  {
    var allPlans := context.plans;
    CleanedNamesDistinct(allPlans);
    CleanedAreValid(allPlans);
    var kept;
    kept, totalRemoved := KeptPositions(allPlans);
    context.plans := Select(allPlans, kept);
  }

  // ---------------------------------------------------------------------------
  // createPlan, on values
  // ---------------------------------------------------------------------------

  /**
   * `Dictionary(uniqueKeysWithValues:)` over the definitions' names; the
   * dictionary traps on a repeated name, hence the precondition.
   */
  function DefinitionsByName(defs: seq<ExerciseDefinition>): (m: map<string, ExerciseDefinition>)
    requires NamesDistinct(defs)
    ensures forall name :: name in m <==> exists i :: 0 <= i < |defs| && defs[i].name == name
    ensures forall i :: 0 <= i < |defs| ==> defs[i].name in m && m[defs[i].name] == defs[i]
  {
    map i | 0 <= i < |defs| :: defs[i].name := defs[i]
  }

  /**
   * `createCustomExercise` keeps the names apart: it inserts only when no
   * cached name matches case-insensitively, so with a fresh cache the store
   * the dictionary is built from never gains a repeated name.
   */
  lemma CreateKeepsNamesDistinct(defs: seq<ExerciseDefinition>, created: ExerciseDefinition)
    requires NamesDistinct(defs)
    requires FirstMatch(SortByName(defs), NameMatcher(created.name)).None?
    ensures NamesDistinct(defs + [created])
  {
    var t := defs + [created];
    var sorted := SortByName(defs);
    forall i, j | 0 <= i < j < |t|
      ensures t[i].name != t[j].name
    {
      if j == |defs| {
        assert defs[i] in multiset(sorted);
        assert !NameMatcher(created.name)(defs[i]);
      } else {
        assert t[i] == defs[i] && t[j] == defs[j];
      }
    }
  }

  /**
   * The exercises `createPlan` attaches for `entries`: the entry at position k
   * whose definition is found becomes an exercise with order index k copying the
   * entry's sets, reps and rest at weight 0; an entry with no definition is
   * skipped. Identifiers are handed out consecutively from `firstId`.
   */
  function SeedExercises(entries: seq<PlanExerciseSeed>, definitions: map<string, ExerciseDefinition>, firstId: nat): (r: seq<Exercise>)
    ensures |r| <= |entries|
  {
    if entries == [] then []
    else
      var prev := SeedExercises(entries[..|entries| - 1], definitions, firstId);
      var e := entries[|entries| - 1];
      if e.exerciseName in definitions then
        prev + [FromDefinition(firstId + |prev|, definitions[e.exerciseName], e.sets, e.reps, 0, e.restSeconds, |entries| - 1)]
      else
        prev
  }

  /** What an attached exercise holds: the data of the entry at its order index and of that entry's definition. */
  ghost predicate FromEntry(x: Exercise, entries: seq<PlanExerciseSeed>, definitions: map<string, ExerciseDefinition>)
  {
    && 0 <= x.orderIndex < |entries|
    && var e := entries[x.orderIndex];
    && e.exerciseName in definitions
    && x == FromDefinition(x.id, definitions[e.exerciseName], e.sets, e.reps, 0, e.restSeconds, x.orderIndex)
  }

  /** Dropping the last entry drops at most the last attached exercise. */
  lemma SeedExercisesFront(entries: seq<PlanExerciseSeed>, definitions: map<string, ExerciseDefinition>, firstId: nat)
    requires entries != []
    ensures var front := SeedExercises(entries[..|entries| - 1], definitions, firstId);
      var e := entries[|entries| - 1];
      SeedExercises(entries, definitions, firstId) ==
        if e.exerciseName in definitions then
          front + [FromDefinition(firstId + |front|, definitions[e.exerciseName], e.sets, e.reps, 0, e.restSeconds, |entries| - 1)]
        else front
  {
  }

  /** The exercises of the first `index + 1` entries: those of the first `index`, then the entry at `index` if its definition exists. */
  lemma SeedExercisesStep(entries: seq<PlanExerciseSeed>, index: nat, definitions: map<string, ExerciseDefinition>, firstId: nat)
    requires index < |entries|
    ensures var front := SeedExercises(entries[..index], definitions, firstId);
      var e := entries[index];
      SeedExercises(entries[..index + 1], definitions, firstId) ==
        if e.exerciseName in definitions then
          front + [FromDefinition(firstId + |front|, definitions[e.exerciseName], e.sets, e.reps, 0, e.restSeconds, index)]
        else front
  {
    SeedExercisesFront(entries[..index + 1], definitions, firstId);
    assert entries[..index + 1][..index] == entries[..index];
  }

  /** Each attached exercise carries the next id and the data of the entry at its order index. */
  lemma {:induction false} SeedExercisesFromEntries(entries: seq<PlanExerciseSeed>, definitions: map<string, ExerciseDefinition>, firstId: nat)
    ensures forall m :: 0 <= m < |SeedExercises(entries, definitions, firstId)| ==>
      SeedExercises(entries, definitions, firstId)[m].id == firstId + m &&
      FromEntry(SeedExercises(entries, definitions, firstId)[m], entries, definitions)
  {
    if entries != [] {
      var n := |entries| - 1;
      var front := entries[..n];
      SeedExercisesFromEntries(front, definitions, firstId);
      SeedExercisesFront(entries, definitions, firstId);
      var prev := SeedExercises(front, definitions, firstId);
      var r := SeedExercises(entries, definitions, firstId);
      forall m | 0 <= m < |r|
        ensures r[m].id == firstId + m && FromEntry(r[m], entries, definitions)
      {
        if m < |prev| {
          assert r[m] == prev[m];
          assert FromEntry(prev[m], front, definitions);
          assert front[prev[m].orderIndex] == entries[prev[m].orderIndex];
        }
      }
    }
  }

  /** Attached exercises follow the entries' order. */
  lemma {:induction false} SeedExercisesOrdered(entries: seq<PlanExerciseSeed>, definitions: map<string, ExerciseDefinition>, firstId: nat)
    ensures forall m, m' :: 0 <= m < m' < |SeedExercises(entries, definitions, firstId)| ==>
      SeedExercises(entries, definitions, firstId)[m].orderIndex < SeedExercises(entries, definitions, firstId)[m'].orderIndex
  {
    if entries != [] {
      var n := |entries| - 1;
      var front := entries[..n];
      SeedExercisesOrdered(front, definitions, firstId);
      SeedExercisesFromEntries(front, definitions, firstId);
      SeedExercisesFront(entries, definitions, firstId);
      var prev := SeedExercises(front, definitions, firstId);
      var r := SeedExercises(entries, definitions, firstId);
      forall m, m' | 0 <= m < m' < |r|
        ensures r[m].orderIndex < r[m'].orderIndex
      {
        assert r[m] == prev[m];
        assert FromEntry(prev[m], front, definitions);
        if m' < |prev| {
          assert r[m'] == prev[m'];
        }
      }
    }
  }

  /** Some element of `r` has order index `k`. */
  ghost predicate Numbered(r: seq<Exercise>, k: int) {
    exists m :: 0 <= m < |r| && r[m].orderIndex == k
  }

  /** An entry is attached exactly when its definition is found (`guard … else { continue }`). */
  lemma SeedExercisesSkipsMissing(entries: seq<PlanExerciseSeed>, definitions: map<string, ExerciseDefinition>, firstId: nat)
    ensures forall k :: 0 <= k < |entries| ==>
      (Numbered(SeedExercises(entries, definitions, firstId), k) <==> entries[k].exerciseName in definitions)
  {
    forall k | 0 <= k < |entries|
      ensures Numbered(SeedExercises(entries, definitions, firstId), k) <==> entries[k].exerciseName in definitions
    {
      if Numbered(SeedExercises(entries, definitions, firstId), k) {
        NumberedHasDefinition(entries, definitions, firstId, k);
      }
      if entries[k].exerciseName in definitions {
        DefinedIsNumbered(entries, definitions, firstId, k);
      }
    }
  }

  /** An attached exercise with order index `k` came from the entry at `k`, so that entry's definition exists. */
  lemma NumberedHasDefinition(entries: seq<PlanExerciseSeed>, definitions: map<string, ExerciseDefinition>, firstId: nat, k: nat)
    requires k < |entries| && Numbered(SeedExercises(entries, definitions, firstId), k)
    ensures entries[k].exerciseName in definitions
  {
    var r := SeedExercises(entries, definitions, firstId);
    SeedExercisesFromEntries(entries, definitions, firstId);
    var m :| 0 <= m < |r| && r[m].orderIndex == k;
    assert FromEntry(r[m], entries, definitions);
  }

  /** An entry whose definition exists is attached with its position as order index. */
  lemma {:induction false} DefinedIsNumbered(entries: seq<PlanExerciseSeed>, definitions: map<string, ExerciseDefinition>, firstId: nat, k: nat)
    requires k < |entries| && entries[k].exerciseName in definitions
    ensures Numbered(SeedExercises(entries, definitions, firstId), k)
    decreases |entries|
  {
    var n := |entries| - 1;
    var front := entries[..n];
    SeedExercisesFront(entries, definitions, firstId);
    var prev := SeedExercises(front, definitions, firstId);
    var r := SeedExercises(entries, definitions, firstId);
    if k < n {
      assert front[k] == entries[k];
      DefinedIsNumbered(front, definitions, firstId, k);
      var m :| 0 <= m < |prev| && prev[m].orderIndex == k;
      assert r[m] == prev[m];
    } else {
      assert r[|prev|].orderIndex == k;
    }
  }

  /** With every entry's definition found, the plan gets all entries, numbered 0, 1, … in order. */
  lemma {:induction false} SeedExercisesComplete(entries: seq<PlanExerciseSeed>, definitions: map<string, ExerciseDefinition>, firstId: nat)
    requires forall k :: 0 <= k < |entries| ==> entries[k].exerciseName in definitions
    ensures |SeedExercises(entries, definitions, firstId)| == |entries|
    ensures forall k :: 0 <= k < |entries| ==>
      SeedExercises(entries, definitions, firstId)[k].orderIndex == k &&
      SeedExercises(entries, definitions, firstId)[k].name == definitions[entries[k].exerciseName].name
    ensures WellNumbered(SeedExercises(entries, definitions, firstId))
    ensures DistinctIds(SeedExercises(entries, definitions, firstId))
  {
    var r := SeedExercises(entries, definitions, firstId);
    SeedExercisesFromEntries(entries, definitions, firstId);
    SeedExercisesOrdered(entries, definitions, firstId);
    SeedExercisesSkipsMissing(entries, definitions, firstId);
    OrderedCovering(r, |entries|);
    forall k | 0 <= k < |r|
      ensures r[k].name == definitions[entries[k].exerciseName].name
    {
      assert FromEntry(r[k], entries, definitions);
    }
    assert DistinctIds(r);
  }

  /**
   * A list with strictly increasing order indices in [0, n) that hits every
   * index in [0, n) numbers its elements 0, 1, …, n - 1.
   */
  lemma OrderedCovering(r: seq<Exercise>, n: nat)
    requires forall m :: 0 <= m < |r| ==> 0 <= r[m].orderIndex < n
    requires forall m, m' :: 0 <= m < m' < |r| ==> r[m].orderIndex < r[m'].orderIndex
    requires forall k :: 0 <= k < n ==> Numbered(r, k)
    ensures |r| == n
    ensures forall m :: 0 <= m < |r| ==> r[m].orderIndex == m
    ensures WellNumbered(r)
  {
    if |r| > 0 {
      AtLeastPositionOf(r, n, |r| - 1);
    }
    assert |r| <= n;
    forall m | 0 <= m < |r|
      ensures r[m].orderIndex == m
    {
      ExactPosition(r, n, m);
    }
    assert |r| < n ==> Numbered(r, |r|);
  }

  lemma {:induction false} AtLeastPositionOf(r: seq<Exercise>, n: nat, m: nat)
    requires forall m :: 0 <= m < |r| ==> 0 <= r[m].orderIndex < n
    requires forall m, m' :: 0 <= m < m' < |r| ==> r[m].orderIndex < r[m'].orderIndex
    requires m < |r|
    ensures r[m].orderIndex >= m
  {
    if m > 0 {
      AtLeastPositionOf(r, n, m - 1);
    }
  }

  lemma {:induction false} ExactPosition(r: seq<Exercise>, n: nat, m: nat)
    requires forall m :: 0 <= m < |r| ==> 0 <= r[m].orderIndex < n
    requires forall m, m' :: 0 <= m < m' < |r| ==> r[m].orderIndex < r[m'].orderIndex
    requires forall k :: 0 <= k < n ==> Numbered(r, k)
    requires m < |r| <= n
    ensures r[m].orderIndex == m
    decreases m
  {
    AtLeastPositionOf(r, n, m);
    assert Numbered(r, m);
    var m0 :| 0 <= m0 < |r| && r[m0].orderIndex == m;
    if m0 < m {
      ExactPosition(r, n, m0);
    }
  }

  /** On a store seeded with the built-in library, every default plan gets all of its exercises, numbered in order. */
  lemma DefaultPlansCompleteOnLibrary(firstId: nat, p: nat, planFirstId: nat)
    requires p < |DefaultPPLPlans()|
    ensures NamesDistinct(SeededDefinitions(firstId))
    ensures var entries := DefaultPPLPlans()[p].exercises;
      var r := SeedExercises(entries, DefinitionsByName(SeededDefinitions(firstId)), planFirstId);
      |r| == |entries| && WellNumbered(r) && DistinctIds(r)
  {
    var defs := SeededDefinitions(firstId);
    SeededLibrary(firstId);
    PplExercisesInLibrary();
    var entries := DefaultPPLPlans()[p].exercises;
    var byName := DefinitionsByName(defs);
    forall k | 0 <= k < |entries|
      ensures entries[k].exerciseName in byName
    {
      assert InLibrary(entries[k].exerciseName);
      var i :| 0 <= i < |DefaultExercises()| && DefaultExercises()[i].name == entries[k].exerciseName;
      assert defs[i].name == entries[k].exerciseName;
    }
    SeedExercisesComplete(entries, byName, planFirstId);
  }

  // ---------------------------------------------------------------------------
  // The seeder on the store
  // ---------------------------------------------------------------------------

  /** `planExists(named:in:)`: some stored plan carries the name. */
  function PlanExists(plans: seq<WorkoutPlan>, name: string): (b: bool)
    reads plans
    ensures b <==> exists j :: 0 <= j < |plans| && plans[j].name == name
  {
    if plans == [] then false
    else if plans[0].name == name then true
    else
      var b := PlanExists(plans[1..], name);
      assert forall j :: 1 <= j < |plans| ==> plans[1..][j - 1] == plans[j];
      b
  }

  /** Every default plan's name is carried by some stored plan. */
  ghost predicate PplStored(plans: seq<WorkoutPlan>)
    reads plans
  {
    forall name :: name in PplPlanNames() ==> PlanExists(plans, name)
  }

  /** No two stored plans share a name. */
  ghost predicate PlanNamesDistinct(plans: seq<WorkoutPlan>)
    reads plans
  {
    forall i, j :: 0 <= i < j < |plans| ==> plans[i].name != plans[j].name
  }

  /** The plans left by `cleanupInvalidPlans`. */
  ghost function Cleaned(plans: seq<WorkoutPlan>): seq<WorkoutPlan>
    reads plans
  {
    Select(plans, Kept(Infos(plans)))
  }

  lemma KeptDistinct(infos: seq<PlanInfo>)
    ensures DistinctKeys(Kept(infos), AsInt)
  {
    RangeDistinct(|infos|);
    FilterKeepsDistinctKeys(Range(|infos|), ValidAt(infos), AsInt);
    FilterKeepsDistinctKeys(Remaining(infos), Survives(infos), AsInt);
  }

  /** After the clean-up every name is carried by one plan only. */
  lemma CleanedNamesDistinct(plans: seq<WorkoutPlan>)
    ensures PlanNamesDistinct(Cleaned(plans))
  {
    var infos := Infos(plans);
    var kept := Kept(infos);
    KeptDistinct(infos);
    forall i, j | 0 <= i < j < |kept|
      ensures plans[kept[i]].name != plans[kept[j]].name
    {
      assert kept[i] in kept && kept[j] in kept;
      assert AsInt(kept[i]) != AsInt(kept[j]);
      if infos[kept[i]].name == infos[kept[j]].name {
        CleanupKeepsOnePerName(infos, kept[i], kept[j]);
      }
    }
  }

  lemma AppendKeepsName(plans: seq<WorkoutPlan>, plan: WorkoutPlan, name: string)
    requires PlanExists(plans, name)
    ensures PlanExists(plans + [plan], name)
  {
    var j :| 0 <= j < |plans| && plans[j].name == name;
    assert (plans + [plan])[j] == plans[j];
  }

  /** Appending a plan under a name not stored yet keeps names distinct. */
  lemma AppendNewName(plans: seq<WorkoutPlan>, plan: WorkoutPlan)
    requires PlanNamesDistinct(plans) && !PlanExists(plans, plan.name)
    ensures PlanNamesDistinct(plans + [plan]) && PlanExists(plans + [plan], plan.name)
  {
    assert (plans + [plan])[|plans|] == plan;
  }

  /** Every stored plan passes Step A's test. */
  ghost predicate AllValid(plans: seq<WorkoutPlan>)
    reads plans
  {
    forall j :: 0 <= j < |plans| ==> !IsInvalid(PlanInfo(plans[j].name, |plans[j].exercises|))
  }

  /** After the clean-up every plan is valid. */
  lemma CleanedAreValid(plans: seq<WorkoutPlan>)
    ensures AllValid(Cleaned(plans))
  {
    var infos := Infos(plans);
    CleanupRemovesInvalid(infos);
    forall j | 0 <= j < |Cleaned(plans)|
      ensures !IsInvalid(PlanInfo(Cleaned(plans)[j].name, |Cleaned(plans)[j].exercises|))
    {
      assert Kept(infos)[j] in Kept(infos);
    }
  }

  /** On valid, distinctly named plans every plan is its group's keeper. */
  lemma KeptAllWhenClean(infos: seq<PlanInfo>)
    requires forall i :: 0 <= i < |infos| ==> !IsInvalid(infos[i])
    requires forall i, j :: 0 <= i < j < |infos| ==> infos[i].name != infos[j].name
    ensures Kept(infos) == Range(|infos|)
  {
    assert Remaining(infos) == Range(|infos|) by {
      FilterAll(Range(|infos|), ValidAt(infos));
    }
    forall i | i in Remaining(infos)
      ensures Survives(infos)(i)
    {
      SoleKeeper(infos, i);
    }
    FilterAll(Remaining(infos), Survives(infos));
  }

  lemma SoleKeeper(infos: seq<PlanInfo>, i: nat)
    requires forall i :: 0 <= i < |infos| ==> !IsInvalid(infos[i])
    requires forall i, j :: 0 <= i < j < |infos| ==> infos[i].name != infos[j].name
    requires i < |infos|
    ensures !IsDuplicate(infos, i)
  {
    var name := infos[i].name;
    assert i in Group(infos, name);
    KeeperOfGroup(infos, name);
    var keeper := Keeper(infos, name);
    assert keeper < |infos| && infos[keeper].name == name;
  }

  /** A second clean-up removes nothing: the clean-up is idempotent. */
  lemma CleanupKeepsCleanStore(plans: seq<WorkoutPlan>)
    requires AllValid(plans) && PlanNamesDistinct(plans)
    ensures Cleaned(plans) == plans
  {
    KeptAllWhenClean(Infos(plans));
  }

  lemma AppendValid(plans: seq<WorkoutPlan>, plan: WorkoutPlan)
    requires AllValid(plans) && !IsInvalid(PlanInfo(plan.name, |plan.exercises|))
    ensures AllValid(plans + [plan])
  {
    assert (plans + [plan])[|plans|] == plan;
  }

  /** A plan created from one of the default seeds with the given definitions. */
  ghost predicate SeededFrom(plan: WorkoutPlan, seeds: seq<PlanSeed>, definitions: map<string, ExerciseDefinition>)
    reads plan
  {
    exists k :: 0 <= k < |seeds| &&
      plan.name == seeds[k].name && plan.orderIndex == seeds[k].orderIndex &&
      exists firstId: nat :: plan.exercises == SeedExercises(seeds[k].exercises, definitions, firstId)
  }

  /** `createPlan(from:definitions:modelContext:)`. */
  method CreatePlan(seed: PlanSeed, definitions: map<string, ExerciseDefinition>, context: ModelContext) returns (plan: WorkoutPlan)
    modifies context
    ensures fresh(plan)
    ensures context.plans == old(context.plans) + [plan]
    ensures plan.name == seed.name && plan.orderIndex == seed.orderIndex
    ensures plan.exercises == SeedExercises(seed.exercises, definitions, old(context.nextId) + 1)
    ensures context.nextId == old(context.nextId) + 1 + |plan.exercises|
    ensures context.definitions == old(context.definitions)
  {
    var id := context.FreshId();
    plan := new WorkoutPlan(id, seed.name, seed.orderIndex);
    context.InsertPlan(plan);
    for index := 0 to |seed.exercises|
      invariant plan.exercises == SeedExercises(seed.exercises[..index], definitions, id + 1)
      invariant context.nextId == id + 1 + |plan.exercises|
      invariant context.plans == old(context.plans) + [plan]
      invariant context.definitions == old(context.definitions)
      modifies context, plan`exercises
    {
      ghost var before, idBefore := plan.exercises, context.nextId;
      AttachEntry(plan, seed.exercises[index], index, definitions, context);
      AttachKeepsSeeded(seed.exercises, index, definitions, id + 1, before, plan.exercises, idBefore, context.nextId);
    }
    assert seed.exercises[..|seed.exercises|] == seed.exercises;
  }

  /**
   * One round of `createPlan`'s loop: when the entry's definition exists, attach
   * a new exercise built from it, with the next id and the entry's position as
   * order index; otherwise skip the entry.
   */
  method AttachEntry(plan: WorkoutPlan, entry: PlanExerciseSeed, index: nat,
                     definitions: map<string, ExerciseDefinition>, context: ModelContext)
    modifies context, plan`exercises
    ensures entry.exerciseName in definitions ==>
      && plan.exercises == old(plan.exercises) + [FromDefinition(old(context.nextId),
           definitions[entry.exerciseName], entry.sets, entry.reps, 0, entry.restSeconds, index)]
      && context.nextId == old(context.nextId) + 1
    ensures entry.exerciseName !in definitions ==>
      plan.exercises == old(plan.exercises) && context.nextId == old(context.nextId)
    ensures context.plans == old(context.plans) && context.definitions == old(context.definitions)
  {
    if entry.exerciseName !in definitions {
      return;
    }
    var definition := definitions[entry.exerciseName];
    var exerciseId := context.FreshId();
    var exercise := FromDefinition(exerciseId, definition, entry.sets, entry.reps, 0, entry.restSeconds, index);
    plan.exercises := plan.exercises + [exercise];
  }

  /** One round of `createPlan`'s loop extends the exercises of the first `index` entries to those of the first `index + 1`. */
  lemma AttachKeepsSeeded(entries: seq<PlanExerciseSeed>, index: nat, definitions: map<string, ExerciseDefinition>, firstId: nat,
                          before: seq<Exercise>, after: seq<Exercise>, idBefore: nat, idAfter: nat)
    requires index < |entries|
    requires before == SeedExercises(entries[..index], definitions, firstId) && idBefore == firstId + |before|
    requires entries[index].exerciseName in definitions ==>
      && after == before + [FromDefinition(idBefore, definitions[entries[index].exerciseName],
           entries[index].sets, entries[index].reps, 0, entries[index].restSeconds, index)]
      && idAfter == idBefore + 1
    requires entries[index].exerciseName !in definitions ==> after == before && idAfter == idBefore
    ensures after == SeedExercises(entries[..index + 1], definitions, firstId) && idAfter == firstId + |after|
  {
    SeedExercisesStep(entries, index, definitions, firstId);
  }

  /** `plans` keeps `start` as its prefix and every plan after it was created from a default seed. */
  ghost predicate ExtendsWithSeeded(plans: seq<WorkoutPlan>, start: seq<WorkoutPlan>, seeds: seq<PlanSeed>, definitions: map<string, ExerciseDefinition>)
    reads plans
  {
    && |start| <= |plans| && plans[..|start|] == start
    && forall j :: |start| <= j < |plans| ==> SeededFrom(plans[j], seeds, definitions)
  }

  /** What holds after the first `k` rounds of Step 3. */
  ghost predicate CreatedUpTo(plans: seq<WorkoutPlan>, start: seq<WorkoutPlan>, seeds: seq<PlanSeed>, definitions: map<string, ExerciseDefinition>, k: nat)
    reads plans
  {
    && ExtendsWithSeeded(plans, start, seeds, definitions)
    && (forall k' :: 0 <= k' < k <= |seeds| ==> PlanExists(plans, seeds[k'].name))
    && PlanNamesDistinct(plans) && AllValid(plans)
  }

  /** A round that finds the default plan's name stored changes nothing. */
  lemma CreatedUpToSkip(plans: seq<WorkoutPlan>, start: seq<WorkoutPlan>, seeds: seq<PlanSeed>, definitions: map<string, ExerciseDefinition>, k: nat)
    requires k < |seeds| && CreatedUpTo(plans, start, seeds, definitions, k)
    requires PlanExists(plans, seeds[k].name)
    ensures CreatedUpTo(plans, start, seeds, definitions, k + 1)
  {
  }

  lemma ExtendsWithSeededAppend(plans: seq<WorkoutPlan>, plan: WorkoutPlan, start: seq<WorkoutPlan>, seeds: seq<PlanSeed>, definitions: map<string, ExerciseDefinition>)
    requires ExtendsWithSeeded(plans, start, seeds, definitions) && SeededFrom(plan, seeds, definitions)
    ensures ExtendsWithSeeded(plans + [plan], start, seeds, definitions)
  {
    var after := plans + [plan];
    assert after[..|start|] == plans[..|start|];
    forall j | |start| <= j < |after|
      ensures SeededFrom(after[j], seeds, definitions)
    {
      if j < |plans| {
        assert after[j] == plans[j];
      }
    }
  }

  lemma AppendKeepsSeedNames(plans: seq<WorkoutPlan>, plan: WorkoutPlan, seeds: seq<PlanSeed>, k: nat)
    requires k < |seeds| && plan.name == seeds[k].name
    requires forall k' :: 0 <= k' < k ==> PlanExists(plans, seeds[k'].name)
    ensures forall k' :: 0 <= k' < k + 1 ==> PlanExists(plans + [plan], seeds[k'].name)
  {
    assert (plans + [plan])[|plans|] == plan;
    forall k' | 0 <= k' < k
      ensures PlanExists(plans + [plan], seeds[k'].name)
    {
      AppendKeepsName(plans, plan, seeds[k'].name);
    }
  }

  /** A round that creates the missing default plan keeps the loop's facts. */
  lemma CreatedUpToAppend(plans: seq<WorkoutPlan>, plan: WorkoutPlan, start: seq<WorkoutPlan>, seeds: seq<PlanSeed>, definitions: map<string, ExerciseDefinition>, k: nat)
    requires k < |seeds| && CreatedUpTo(plans, start, seeds, definitions, k)
    requires !PlanExists(plans, seeds[k].name)
    requires plan.name == seeds[k].name && SeededFrom(plan, seeds, definitions)
    requires !IsInvalid(PlanInfo(plan.name, |plan.exercises|))
    ensures CreatedUpTo(plans + [plan], start, seeds, definitions, k + 1)
  {
    ExtendsWithSeededAppend(plans, plan, start, seeds, definitions);
    AppendKeepsSeedNames(plans, plan, seeds, k);
    AppendNewName(plans, plan);
    AppendValid(plans, plan);
  }

  /** After all rounds every default plan's name is stored. */
  lemma CreatedAll(plans: seq<WorkoutPlan>, start: seq<WorkoutPlan>, definitions: map<string, ExerciseDefinition>)
    requires CreatedUpTo(plans, start, DefaultPPLPlans(), definitions, |DefaultPPLPlans()|)
    ensures PplStored(plans)
  {
    var seeds := DefaultPPLPlans();
    assert PlanExists(plans, seeds[0].name) && PlanExists(plans, seeds[1].name) && PlanExists(plans, seeds[2].name);
  }

  /** A store that already carries every default plan's name has each seed's name. */
  lemma StoredSeedName(plans: seq<WorkoutPlan>, k: nat)
    requires k < |DefaultPPLPlans()| && PplStored(plans)
    ensures PlanExists(plans, DefaultPPLPlans()[k].name)
  {
    assert DefaultPPLPlans()[k].name in PplPlanNames();
  }

  /** One round of Step 3: create the `k`-th default plan unless a stored plan already carries its name. */
  method CreateIfMissing(context: ModelContext, seeds: seq<PlanSeed>, k: nat,
                         definitionsByName: map<string, ExerciseDefinition>, ghost start: seq<WorkoutPlan>)
    requires k < |seeds| && seeds[k].name in PplPlanNames()
    requires CreatedUpTo(context.plans, start, seeds, definitionsByName, k)
    modifies context
    ensures context.definitions == old(context.definitions)
    ensures CreatedUpTo(context.plans, start, seeds, definitionsByName, k + 1)
    ensures |old(context.plans)| <= |context.plans| && context.plans[..|old(context.plans)|] == old(context.plans)
    ensures forall j :: |old(context.plans)| <= j < |context.plans| ==> fresh(context.plans[j])
    ensures PlanExists(old(context.plans), seeds[k].name) ==> context.plans == old(context.plans)
  {
    var seed := seeds[k];
    if !PlanExists(context.plans, seed.name) {
      ghost var before := context.plans;
      ghost var firstId: nat := context.nextId + 1;
      var plan := CreatePlan(seed, definitionsByName, context);
      assert plan.exercises == SeedExercises(seeds[k].exercises, definitionsByName, firstId);
      assert SeededFrom(plan, seeds, definitionsByName);
      PplPlansAreValid(PlanInfo(plan.name, |plan.exercises|));
      CreatedUpToAppend(before, plan, start, seeds, definitionsByName, k);
      assert context.plans[..|before|] == before;
    } else {
      CreatedUpToSkip(context.plans, start, seeds, definitionsByName, k);
    }
  }

  /** Step 3 of `seedDefaultPlans`: create each default plan whose name no stored plan carries. */
  method CreateMissingPlans(context: ModelContext, definitionsByName: map<string, ExerciseDefinition>)
    requires PlanNamesDistinct(context.plans) && AllValid(context.plans)
    modifies context
    ensures context.definitions == old(context.definitions)
    ensures ExtendsWithSeeded(context.plans, old(context.plans), DefaultPPLPlans(), definitionsByName)
    ensures forall j :: |old(context.plans)| <= j < |context.plans| ==> fresh(context.plans[j])
    ensures PplStored(context.plans)
    ensures PlanNamesDistinct(context.plans) && AllValid(context.plans)
    ensures old(PplStored(context.plans)) ==> context.plans == old(context.plans)
  {
    var seeds := DefaultPPLPlans();
    ghost var start := context.plans;
    ghost var allStored := PplStored(context.plans);
    assert context.plans[..|start|] == start;
    for k := 0 to |seeds|
      invariant context.definitions == old(context.definitions)
      invariant CreatedUpTo(context.plans, start, seeds, definitionsByName, k)
      invariant forall j :: |start| <= j < |context.plans| ==> fresh(context.plans[j])
      invariant allStored ==> context.plans == start
    {
      assert seeds[k].name in PplPlanNames();
      if allStored {
        StoredSeedName(start, k);
      }
      ghost var before := context.plans;
      CreateIfMissing(context, seeds, k, definitionsByName, start);
      forall j | |start| <= j < |context.plans|
        ensures fresh(context.plans[j])
      {
        if j < |before| {
          assert context.plans[j] == context.plans[..|before|][j] == before[j];
        }
      }
    }
    CreatedAll(context.plans, start, definitionsByName);
  }

  /**
   * `seedDefaultPlans(modelContext:)`: clean up, then, unless the store has no
   * definitions, create each default plan whose name no stored plan carries.
   * Afterwards no two plans share a name and every default plan's name is
   * stored, so seeding again creates nothing.
   */
  method SeedDefaultPlans(context: ModelContext)
    requires NamesDistinct(context.definitions)
    modifies context
    ensures context.definitions == old(context.definitions)
    ensures |context.definitions| == 0 ==> context.plans == old(Cleaned(context.plans))
    ensures |context.definitions| > 0 ==>
      ExtendsWithSeeded(context.plans, old(Cleaned(context.plans)), DefaultPPLPlans(), DefinitionsByName(context.definitions))
    ensures forall j :: |old(Cleaned(context.plans))| <= j < |context.plans| ==> fresh(context.plans[j])
    ensures |context.definitions| > 0 ==> PplStored(context.plans)
    ensures PlanNamesDistinct(context.plans) && AllValid(context.plans)
    ensures old(AllValid(context.plans) && PlanNamesDistinct(context.plans) &&
                PplStored(context.plans)) ==>
      context.plans == old(context.plans)
  {
    ghost var seeded := AllValid(context.plans) && PlanNamesDistinct(context.plans) &&
      PplStored(context.plans);
    ghost var before := context.plans;
    if seeded {
      CleanupKeepsCleanStore(context.plans);
    }
    var _ := CleanupInvalidPlans(context);
    if seeded {
      assert context.plans == before;
      assert PplStored(context.plans);
    }
    if |context.definitions| == 0 {
      return;
    }
    var definitionsByName := DefinitionsByName(context.definitions);
    CreateMissingPlans(context, definitionsByName);
  }
}
