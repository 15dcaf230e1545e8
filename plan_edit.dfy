/**
 * The editing actions of the plan editor: adding chosen definitions, deleting
 * rows of the displayed (orderIndex-sorted) list, and moving rows. Each action
 * goes through the `ExerciseManager`.
 */
module PlanEdit {
  import opened Wrappers
  import opened Lists
  import opened Exercises
  import opened Store
  import opened Session
  import opened ExerciseManagement

  // ---------------------------------------------------------------------------
  // Adding
  // ---------------------------------------------------------------------------

  /** The exercises `addExercises` appends: sets 3, reps 10, weight 0, rest 90, numbered from `firstIndex`. */
  function Appended(defs: seq<ExerciseDefinition>, firstId: nat, firstIndex: int): (r: seq<Exercise>)
    ensures |r| == |defs|
  {
    seq(|defs|, i requires 0 <= i < |defs| => FromDefinition(firstId + i, defs[i], 3, 10, 0, 90, firstIndex + i))
  }

  lemma AppendedStep(defs: seq<ExerciseDefinition>, firstId: nat, firstIndex: int, k: nat)
    requires k < |defs|
    ensures Appended(defs[..k + 1], firstId, firstIndex)
      == Appended(defs[..k], firstId, firstIndex) + [FromDefinition(firstId + k, defs[k], 3, 10, 0, 90, firstIndex + k)]
  {
  }

  /**
   * Adding a batch keeps a well-numbered list well numbered and, when the ids
   * come from the store's counter, keeps them distinct.
   */
  lemma {:induction false} AppendedKeepsInvariants(exs: seq<Exercise>, defs: seq<ExerciseDefinition>, firstId: nat)
    requires WellNumbered(exs) && DistinctIds(exs) && IdsBelow(exs, firstId)
    ensures WellNumbered(exs + Appended(defs, firstId, |exs|))
    ensures DistinctIds(exs + Appended(defs, firstId, |exs|))
    ensures IdsBelow(exs + Appended(defs, firstId, |exs|), firstId + |defs|)
    decreases |defs|
  {
    if defs != [] {
      var k := |defs| - 1;
      var front := defs[..k];
      assert defs[..k + 1] == defs;
      AppendedKeepsInvariants(exs, front, firstId);
      AppendedStep(defs, firstId, |exs|, k);
      var e := FromDefinition(firstId + k, defs[k], 3, 10, 0, 90, |exs| + k);
      var before := exs + Appended(front, firstId, |exs|);
      assert exs + Appended(defs, firstId, |exs|) == before + [e];
      AppendKeepsWellNumbered(before, e);
      AppendFresh(before, e, firstId + k);
    }
  }

  // ---------------------------------------------------------------------------
  // Deleting
  // ---------------------------------------------------------------------------

  function NotIn(ids: set<nat>): Exercise -> bool {
    (e: Exercise) => e.id !in ids
  }

  /** The ids of the displayed rows at these offsets. */
  function SelectedIds(exs: seq<Exercise>, offsets: seq<int>): set<nat>
    requires forall k :: 0 <= k < |offsets| ==> 0 <= offsets[k] < |exs|
  {
    var sorted := SortByOrder(exs);
    set k | 0 <= k < |offsets| :: sorted[offsets[k]].id
  }

  /** Two lists that differ only in order indices. */
  predicate SameButOrder(a: seq<Exercise>, b: seq<Exercise>) {
    |a| == |b| && forall i :: 0 <= i < |a| ==> a[i].(orderIndex := b[i].orderIndex) == b[i]
  }

  /** Renumbering forgets the previous order indices. */
  lemma RenumberForgetsOrder(a: seq<Exercise>, b: seq<Exercise>)
    requires SameButOrder(a, b)
    ensures Renumber(a) == Renumber(b)
  {
    forall i | 0 <= i < |a|
      ensures Renumber(a)[i] == Renumber(b)[i]
    {
      assert a[i].(orderIndex := i) == a[i].(orderIndex := b[i].orderIndex).(orderIndex := i);
    }
  }

  /** The lookup by id sees through a change of order indices. */
  lemma FirstIndexSameButOrder(a: seq<Exercise>, b: seq<Exercise>, id: nat)
    requires SameButOrder(a, b)
    ensures FirstIndex(a, IdMatcher(id)) == FirstIndex(b, IdMatcher(id))
  {
    var fa := FirstIndex(a, IdMatcher(id));
    var fb := FirstIndex(b, IdMatcher(id));
    assert forall i :: 0 <= i < |a| ==> a[i].id == b[i].id;
    if fa.Some? && fb.Some? {
      assert fa.value >= fb.value by {
        assert IdMatcher(id)(b[fb.value]);
      }
      assert fb.value >= fa.value by {
        assert IdMatcher(id)(a[fa.value]);
      }
    }
  }

  /** No row other than `i` has the id of row `i`. */
  predicate UniqueAt(s: seq<Exercise>, i: nat)
    requires i < |s|
  {
    forall k :: 0 <= k < |s| && k != i ==> s[k].id != s[i].id
  }

  /** Removing the row of an id no other row has is filtering out that id. */
  lemma {:induction false} RemoveAtIsWithout(s: seq<Exercise>, i: nat)
    requires i < |s| && UniqueAt(s, i)
    ensures RemoveAt(s, i) == Filter(s, NotIn({s[i].id}))
  {
    var p := NotIn({s[i].id});
    var tail := s[1..];
    if i == 0 {
      assert forall x :: x in tail ==> p(x);
      FilterAll(tail, p);
      assert RemoveAt(s, 0) == tail;
    } else {
      assert tail[i - 1] == s[i];
      UniqueInTail(s, i);
      RemoveAtIsWithout(tail, i - 1);
      RemoveAtCons(s, i);
      FilterKeepsHead(s, p);
    }
  }

  lemma UniqueInTail(s: seq<Exercise>, i: nat)
    requires 0 < i < |s| && UniqueAt(s, i)
    ensures UniqueAt(s[1..], i - 1)
  {
    var tail := s[1..];
    forall k | 0 <= k < |tail| && k != i - 1
      ensures tail[k].id != tail[i - 1].id
    {
      assert tail[k] == s[k + 1];
    }
  }

  lemma FilterKeepsHead(s: seq<Exercise>, p: Exercise -> bool)
    requires s != [] && p(s[0])
    ensures Filter(s, p) == [s[0]] + Filter(s[1..], p)
  {
  }

  /** Filtering out one more id after a set of ids is filtering out both. */
  lemma {:induction false} WithoutStep(s: seq<Exercise>, ids: set<nat>, id: nat)
    ensures Filter(Filter(s, NotIn(ids)), NotIn({id})) == Filter(s, NotIn(ids + {id}))
  {
    if s != [] {
      WithoutStep(s[1..], ids, id);
      FilterAppend(if NotIn(ids)(s[0]) then [s[0]] else [], Filter(s[1..], NotIn(ids)), NotIn({id}));
    }
  }

  lemma WithoutNothing(s: seq<Exercise>)
    ensures Filter(s, NotIn({})) == s
  {
    FilterAll(s, NotIn({}));
  }

  /**
   * One removal of `deleteExercises`: the current list has the rows of `w`
   * with some order indices; removing `e`, still present, gives the renumbered
   * list without `e`'s id too.
   */
  lemma DeleteStep(cur: seq<Exercise>, exs: seq<Exercise>, ids: set<nat>, e: Exercise)
    requires DistinctIds(exs) && e in exs && e.id !in ids
    requires SameButOrder(cur, Filter(exs, NotIn(ids)))
    ensures FirstIndex(cur, IdMatcher(e.id)).Some?
    ensures Renumber(RemoveAt(cur, FirstIndex(cur, IdMatcher(e.id)).value)) == Renumber(Filter(exs, NotIn(ids + {e.id})))
  {
    var w := Filter(exs, NotIn(ids));
    FilterMembers(exs, NotIn(ids));
    assert e in w;
    PresentFound(w, e);
    FirstIndexSameButOrder(cur, w, e.id);
    var i := FirstIndex(w, IdMatcher(e.id)).value;
    RemoveSameButOrder(cur, w, i);
    FilterKeepsDistinctKeys(exs, NotIn(ids), IdOf);
    DistinctUniqueAt(w, i);
    RemoveAtIsWithout(w, i);
    WithoutStep(exs, ids, e.id);
  }

  lemma PresentFound(w: seq<Exercise>, e: Exercise)
    requires e in w
    ensures FirstIndex(w, IdMatcher(e.id)).Some?
  {
    var m :| 0 <= m < |w| && w[m] == e;
    assert IdMatcher(e.id)(w[m]);
  }

  lemma RemoveSameButOrder(cur: seq<Exercise>, w: seq<Exercise>, i: nat)
    requires SameButOrder(cur, w) && i < |w|
    ensures Renumber(RemoveAt(cur, i)) == Renumber(RemoveAt(w, i))
  {
    assert SameButOrder(RemoveAt(cur, i), RemoveAt(w, i));
    RenumberForgetsOrder(RemoveAt(cur, i), RemoveAt(w, i));
  }

  lemma DistinctUniqueAt(w: seq<Exercise>, i: nat)
    requires DistinctIds(w) && i < |w|
    ensures UniqueAt(w, i)
  {
    forall k | 0 <= k < |w| && k != i
      ensures w[k].id != w[i].id
    {
      assert IdOf(w[k]) != IdOf(w[i]);
    }
  }

  class PlanEditor {
    const plan: WorkoutPlan
    const exerciseManager: ExerciseManager

    constructor (plan: WorkoutPlan, exerciseManager: ExerciseManager)
      ensures this.plan == plan && this.exerciseManager == exerciseManager
    {
      this.plan := plan;
      this.exerciseManager := exerciseManager;
    }

    /** `sortedExercises`: the plan's exercises, ascending by `orderIndex`. */
    function SortedExercises(): (r: seq<Exercise>)
      reads plan
      ensures multiset(r) == multiset(plan.exercises) && |r| == |plan.exercises|
      ensures forall i, j :: 0 <= i < j < |r| ==> r[i].orderIndex <= r[j].orderIndex
    {
      SortByOrder(plan.exercises)
    }

    /** `addExercises(_:)`: each chosen definition, in order, with sets 3 and rest 90. */
    method AddExercises(definitions: seq<ExerciseDefinition>)
      modifies plan`exercises, exerciseManager.Ctx()`nextId
      ensures exerciseManager.context == null ==> plan.exercises == old(plan.exercises)
      ensures exerciseManager.context != null ==>
        && plan.exercises == old(plan.exercises) + Appended(definitions, old(exerciseManager.context.nextId), |old(plan.exercises)|)
        && exerciseManager.context.nextId == old(exerciseManager.context.nextId) + |definitions|
        && exerciseManager.context.definitions == old(exerciseManager.context.definitions)
        && exerciseManager.context.plans == old(exerciseManager.context.plans)
      ensures plan.id == old(plan.id) && plan.name == old(plan.name) && plan.orderIndex == old(plan.orderIndex)
    {
      var context := exerciseManager.context;
      for k := 0 to |definitions|
        invariant exerciseManager.context == context
        invariant context == null ==> plan.exercises == old(plan.exercises)
        invariant context != null ==>
          && plan.exercises == old(plan.exercises) + Appended(definitions[..k], old(context.nextId), |old(plan.exercises)|)
          && context.nextId == old(context.nextId) + k
          && context.definitions == old(context.definitions)
      {
        if context != null {
          AppendedStep(definitions, old(context.nextId), |old(plan.exercises)|, k);
        }
        var _ := exerciseManager.AddExerciseToPlan(plan, definitions[k], 3, 10, 0, 90);
      }
      assert definitions[..|definitions|] == definitions;
    }

    /**
     * `deleteExercises(at:)`: the rows are resolved to exercises before the
     * first removal, so exactly the selected exercises go, whatever the
     * renumbering in between does.
     */
    method DeleteExercises(offsets: seq<int>)
      modifies plan`exercises
      requires forall k :: 0 <= k < |offsets| ==> 0 <= offsets[k] < |plan.exercises|
      requires forall i, j :: 0 <= i < j < |offsets| ==> offsets[i] < offsets[j]
      requires DistinctIds(plan.exercises)
      ensures exerciseManager.context == null || offsets == [] ==> plan.exercises == old(plan.exercises)
      ensures exerciseManager.context != null && offsets != [] ==>
        plan.exercises == Renumber(Filter(old(plan.exercises), NotIn(SelectedIds(old(plan.exercises), offsets))))
      ensures plan.id == old(plan.id) && plan.name == old(plan.name) && plan.orderIndex == old(plan.orderIndex)
    {
      var exs := plan.exercises;
      var sorted := SortByOrder(plan.exercises);
      var toDelete := seq(|offsets|, k requires 0 <= k < |offsets| => sorted[offsets[k]]);
      PermutationKeepsDistinctKeys(exs, sorted, IdOf);
      ghost var removed: set<nat> := {};
      for k := 0 to |toDelete|
        invariant removed == set j | 0 <= j < k :: toDelete[j].id
        invariant exerciseManager.context == null || k == 0 ==> plan.exercises == exs
        invariant exerciseManager.context != null && k > 0 ==> plan.exercises == Renumber(Filter(exs, NotIn(removed)))
      {
        var e := toDelete[k];
        assert e in multiset(exs) by {
          assert e in sorted;
        }
        assert e.id !in removed by {
          forall j | 0 <= j < k
            ensures toDelete[j].id != e.id
          {
            assert IdOf(sorted[offsets[j]]) != IdOf(sorted[offsets[k]]);
          }
        }
        DeleteOne(e, exs, removed, k == 0);
        removed := removed + {e.id};
      }
      assert removed == SelectedIds(exs, offsets) by {
        assert forall j :: 0 <= j < |offsets| ==> toDelete[j] == sorted[offsets[j]];
      }
    }

    /** One removal of the loop in `deleteExercises(at:)`: the ids removed so far and `e`'s are gone. */
    method DeleteOne(e: Exercise, ghost exs: seq<Exercise>, ghost removed: set<nat>, ghost first: bool)
      modifies plan`exercises
      requires DistinctIds(exs) && e in exs && e.id !in removed
      requires first ==> removed == {}
      requires exerciseManager.context == null || first ==> plan.exercises == exs
      requires exerciseManager.context != null && !first ==> plan.exercises == Renumber(Filter(exs, NotIn(removed)))
      ensures exerciseManager.context == null ==> plan.exercises == old(plan.exercises)
      ensures exerciseManager.context != null ==> plan.exercises == Renumber(Filter(exs, NotIn(removed + {e.id})))
      ensures plan.id == old(plan.id) && plan.name == old(plan.name) && plan.orderIndex == old(plan.orderIndex)
    {
      if exerciseManager.context != null {
        if first {
          WithoutNothing(exs);
          assert SameButOrder(exs, Filter(exs, NotIn({})));
        } else {
          var w := Filter(exs, NotIn(removed));
          assert SameButOrder(Renumber(w), w);
        }
        DeleteStep(plan.exercises, exs, removed, e);
      }
      exerciseManager.RemoveExerciseFromPlan(e, plan);
    }

    /** `moveExercises(from:to:)`: the manager's reorder, with the same arguments. */
    method MoveExercises(source: set<int>, destination: int)
      modifies plan`exercises
      requires forall i :: i in source ==> 0 <= i < |plan.exercises|
      requires 0 <= destination <= |plan.exercises|
      requires DistinctIds(plan.exercises)
      ensures exerciseManager.context == null ==> plan.exercises == old(plan.exercises)
      ensures exerciseManager.context != null ==>
        plan.exercises == AssignOrder(old(plan.exercises), Move(SortByOrder(old(plan.exercises)), source, destination))
      ensures plan.id == old(plan.id) && plan.name == old(plan.name) && plan.orderIndex == old(plan.orderIndex)
    {
      exerciseManager.ReorderExercises(plan, source, destination);
    }
  }

  /** The rows left after deleting: no selected exercise, every other one, in storage order and numbered afresh. */
  lemma DeleteKeepsExactlyTheOthers(exs: seq<Exercise>, offsets: seq<int>)
    requires forall k :: 0 <= k < |offsets| ==> 0 <= offsets[k] < |exs|
    ensures var w := Filter(exs, NotIn(SelectedIds(exs, offsets)));
      && IsSubsequence(w, exs)
      && Renumber(w) == Renumber(Renumber(w))
      && WellNumbered(Renumber(w))
      && (forall e :: e in exs ==> (e.id !in SelectedIds(exs, offsets) <==> e in w))
      && (forall e :: e in w ==> e in exs && e.id !in SelectedIds(exs, offsets))
  {
    var ids := SelectedIds(exs, offsets);
    var w := Filter(exs, NotIn(ids));
    FilterMembers(exs, NotIn(ids));
    FilterIsSubsequence(exs, NotIn(ids));
    RenumberForgetsOrder(Renumber(w), w);
  }
}
