/**
 * The persistent objects of the app: a workout plan (a SwiftData object whose
 * exercise list the managers edit in place) and the SwiftData context holding
 * the stored exercise definitions and plans. Object identifiers (UUIDs in the
 * app) are natural numbers handed out by the context's `nextId` counter.
 */
module Store {
  import opened Lists
  import opened Exercises

  /** `WorkoutPlan`: a named, ordered container of exercises. */
  class WorkoutPlan {
    var id: nat
    var name: string
    var orderIndex: int
    var exercises: seq<Exercise>

    /** `WorkoutPlan(name:orderIndex:)` with no exercises yet. */
    constructor (id: nat, name: string, orderIndex: int := 0)
      ensures this.id == id && this.name == name && this.orderIndex == orderIndex
      ensures exercises == []
    {
      this.id := id;
      this.name := name;
      this.orderIndex := orderIndex;
      exercises := [];
    }
  }

  function IdOf(e: Exercise): int {
    e.id
  }

  /** Exercise identifiers within one list are pairwise distinct (one object per id). */
  predicate DistinctIds(exs: seq<Exercise>) {
    DistinctKeys(exs, IdOf)
  }

  /** Every identifier in the list is below `bound`, so ids from `bound` on are unused. */
  predicate IdsBelow(exs: seq<Exercise>, bound: nat) {
    forall i :: 0 <= i < |exs| ==> exs[i].id < bound
  }

  /** Appending an exercise with an unused id keeps the ids distinct. */
  lemma AppendFresh(exs: seq<Exercise>, e: Exercise, bound: nat)
    requires DistinctIds(exs) && IdsBelow(exs, bound) && e.id == bound
    ensures DistinctIds(exs + [e]) && IdsBelow(exs + [e], bound + 1)
  {
  }

  /** SwiftData's `ModelContext`: the stored definitions and plans. */
  class ModelContext {
    var definitions: seq<ExerciseDefinition>
    var plans: seq<WorkoutPlan>
    var nextId: nat

    constructor ()
      ensures definitions == [] && plans == [] && nextId == 0
    {
      definitions := [];
      plans := [];
      nextId := 0;
    }

    /** A new object identifier: `UUID()`. */
    method FreshId() returns (id: nat)
      modifies this`nextId
      ensures id == old(nextId) && nextId == id + 1
      ensures definitions == old(definitions) && plans == old(plans)
    {
      id := nextId;
      nextId := nextId + 1;
    }

    /** `insert(_:)` of an exercise definition. */
    method InsertDefinition(d: ExerciseDefinition)
      modifies this`definitions
      ensures definitions == old(definitions) + [d]
      ensures plans == old(plans) && nextId == old(nextId)
    {
      definitions := definitions + [d];
    }

    /** `insert(_:)` of a plan. */
    method InsertPlan(p: WorkoutPlan)
      modifies this`plans
      ensures plans == old(plans) + [p]
      ensures definitions == old(definitions) && nextId == old(nextId)
    {
      plans := plans + [p];
    }
  }
}
