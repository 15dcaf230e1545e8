/**
 * The exercise library entry (`ExerciseDefinition`) with its muscle-group and
 * equipment vocabularies, and the per-plan exercise (`Exercise`) that copies a
 * definition's descriptive fields and adds the plan-specific settings.
 *
 * Both are SwiftData objects in the app; here they are values identified by a
 * natural-number `id` (the app's UUID). Weights are whole tenths of a kilogram.
 */
module Exercises {
  import opened Wrappers
  import opened Text

  // ---------------------------------------------------------------------------
  // ExerciseDefinition and its vocabularies
  // ---------------------------------------------------------------------------

  datatype ExerciseDefinition = ExerciseDefinition(
    id: nat,
    name: string,
    muscleGroup: string,
    equipment: string,
    isCustom: bool,
    isFavorite: bool)

  /** `ExerciseDefinition.init(name:muscleGroup:equipment:isCustom:)`; `isFavorite` starts false. */
  function NewDefinition(id: nat, name: string, muscleGroup: string, equipment: string, isCustom: bool := false): (d: ExerciseDefinition)
    ensures d.id == id && d.name == name && d.muscleGroup == muscleGroup && d.equipment == equipment
    ensures d.isCustom == isCustom && !d.isFavorite
  {
    ExerciseDefinition(id, name, muscleGroup, equipment, isCustom, false)
  }

  datatype MuscleGroup = Chest | Back | Shoulders | Biceps | Triceps | Legs | Glutes | Core | FullBody | Cardio

  const AllMuscleGroups: seq<MuscleGroup> :=
    [Chest, Back, Shoulders, Biceps, Triceps, Legs, Glutes, Core, FullBody, Cardio]

  function MuscleGroupRaw(g: MuscleGroup): string {
    match g
    case Chest => "Brust"
    case Back => "Rücken"
    case Shoulders => "Schultern"
    case Biceps => "Bizeps"
    case Triceps => "Trizeps"
    case Legs => "Beine"
    case Glutes => "Gesäß"
    case Core => "Core"
    case FullBody => "Ganzkörper"
    case Cardio => "Cardio"
  }

  /** `MuscleGroup(rawValue:)`: the case whose raw value is `s`, if any. */
  function MuscleGroupFromRaw(s: string): (r: Option<MuscleGroup>)
    ensures r.Some? ==> MuscleGroupRaw(r.value) == s
    ensures r.None? <==> forall g :: MuscleGroupRaw(g) != s
  {
    if s == "Brust" then Some(Chest)
    else if s == "Rücken" then Some(Back)
    else if s == "Schultern" then Some(Shoulders)
    else if s == "Bizeps" then Some(Biceps)
    else if s == "Trizeps" then Some(Triceps)
    else if s == "Beine" then Some(Legs)
    else if s == "Gesäß" then Some(Glutes)
    else if s == "Core" then Some(Core)
    else if s == "Ganzkörper" then Some(FullBody)
    else if s == "Cardio" then Some(Cardio)
    else None
  }

  predicate IsMuscleGroupRaw(s: string) {
    MuscleGroupFromRaw(s).Some?
  }

  datatype Equipment = Barbell | Dumbbell | Machine | Cable | Bodyweight | Kettlebell | Bands | Other

  const AllEquipment: seq<Equipment> :=
    [Barbell, Dumbbell, Machine, Cable, Bodyweight, Kettlebell, Bands, Other]

  function EquipmentRaw(e: Equipment): string {
    match e
    case Barbell => "Langhantel"
    case Dumbbell => "Kurzhantel"
    case Machine => "Maschine"
    case Cable => "Kabelzug"
    case Bodyweight => "Körpergewicht"
    case Kettlebell => "Kettlebell"
    case Bands => "Widerstandsbänder"
    case Other => "Sonstiges"
  }

  /** `Equipment(rawValue:)`. */
  function EquipmentFromRaw(s: string): (r: Option<Equipment>)
    ensures r.Some? ==> EquipmentRaw(r.value) == s
    ensures r.None? <==> forall e :: EquipmentRaw(e) != s
  {
    if s == "Langhantel" then Some(Barbell)
    else if s == "Kurzhantel" then Some(Dumbbell)
    else if s == "Maschine" then Some(Machine)
    else if s == "Kabelzug" then Some(Cable)
    else if s == "Körpergewicht" then Some(Bodyweight)
    else if s == "Kettlebell" then Some(Kettlebell)
    else if s == "Widerstandsbänder" then Some(Bands)
    else if s == "Sonstiges" then Some(Other)
    else None
  }

  predicate IsEquipmentRaw(s: string) {
    EquipmentFromRaw(s).Some?
  }

  /** `MuscleGroup(rawValue:)` inverts `rawValue`. */
  lemma MuscleGroupRoundTrip(g: MuscleGroup)
    ensures MuscleGroupFromRaw(MuscleGroupRaw(g)) == Some(g)
  {
    match g
    case Chest => case Back => case Shoulders => case Biceps => case Triceps =>
    case Legs => case Glutes => case Core => case FullBody => case Cardio =>
  }

  /** Every muscle group is listed in `allCases`, and raw values are pairwise distinct. */
  lemma MuscleGroupsEnumerated()
    ensures forall g :: g in AllMuscleGroups
    ensures forall g, h :: MuscleGroupRaw(g) == MuscleGroupRaw(h) ==> g == h
  {
    forall g
      ensures g in AllMuscleGroups
    {
      match g
      case Chest => case Back => case Shoulders => case Biceps => case Triceps =>
      case Legs => case Glutes => case Core => case FullBody => case Cardio =>
    }
    forall g, h | MuscleGroupRaw(g) == MuscleGroupRaw(h)
      ensures g == h
    {
      MuscleGroupRoundTrip(g);
      MuscleGroupRoundTrip(h);
    }
  }

  /** `Equipment(rawValue:)` inverts `rawValue`. */
  lemma EquipmentRoundTrip(e: Equipment)
    ensures EquipmentFromRaw(EquipmentRaw(e)) == Some(e)
  {
    match e
    case Barbell => case Dumbbell => case Machine => case Cable =>
    case Bodyweight => case Kettlebell => case Bands => case Other =>
  }

  /** Every equipment kind is listed in `allCases`, and raw values are pairwise distinct. */
  lemma EquipmentEnumerated()
    ensures forall e :: e in AllEquipment
    ensures forall e, f :: EquipmentRaw(e) == EquipmentRaw(f) ==> e == f
  {
    forall e
      ensures e in AllEquipment
    {
      match e
      case Barbell => case Dumbbell => case Machine => case Cable =>
      case Bodyweight => case Kettlebell => case Bands => case Other =>
    }
    forall e, f | EquipmentRaw(e) == EquipmentRaw(f)
      ensures e == f
    {
      EquipmentRoundTrip(e);
      EquipmentRoundTrip(f);
    }
  }

  // ---------------------------------------------------------------------------
  // Exercise
  // ---------------------------------------------------------------------------

  datatype Exercise = Exercise(
    id: nat,
    name: string,
    muscleGroup: string,
    equipment: string,
    sets: int,
    reps: int,
    weight: int,        // tenths of a kilogram
    restSeconds: int,
    orderIndex: int,
    definitionId: Option<nat>)

  /** The designated initialiser, with its defaults for reps, weight, group, equipment and link. */
  function NewExercise(
    id: nat, name: string, sets: int, restSeconds: int, orderIndex: int,
    reps: int := 10, weight: int := 0, muscleGroup: string := "", equipment: string := "",
    definitionId: Option<nat> := None): (e: Exercise)
    ensures e.id == id && e.name == name && e.sets == sets && e.reps == reps && e.weight == weight
    ensures e.restSeconds == restSeconds && e.orderIndex == orderIndex
    ensures e.muscleGroup == muscleGroup && e.equipment == equipment && e.definitionId == definitionId
  {
    Exercise(id, name, muscleGroup, equipment, sets, reps, weight, restSeconds, orderIndex, definitionId)
  }

  /** The copy-on-write initialiser: descriptive fields come from the definition, which it links back to. */
  function FromDefinition(
    id: nat, d: ExerciseDefinition,
    sets: int := 3, reps: int := 10, weight: int := 0, restSeconds: int := 90, orderIndex: int := 0): (e: Exercise)
    ensures e.name == d.name && e.muscleGroup == d.muscleGroup && e.equipment == d.equipment
    ensures e.definitionId == Some(d.id)
    ensures e.id == id && e.sets == sets && e.reps == reps && e.weight == weight
    ensures e.restSeconds == restSeconds && e.orderIndex == orderIndex
  {
    NewExercise(id, d.name, sets, restSeconds, orderIndex, reps, weight, d.muscleGroup, d.equipment, Some(d.id))
  }

  /** Omitted arguments take the designated initialiser's defaults. */
  lemma NewExerciseDefaults(id: nat, name: string, sets: int, restSeconds: int, orderIndex: int)
    ensures var e := NewExercise(id, name, sets, restSeconds, orderIndex);
      e.reps == 10 && e.weight == 0 && e.muscleGroup == "" && e.equipment == "" && e.definitionId == None
  {
  }

  /** Omitted arguments take the copy initialiser's defaults. */
  lemma FromDefinitionDefaults(id: nat, d: ExerciseDefinition)
    ensures var e := FromDefinition(id, d);
      e.sets == 3 && e.reps == 10 && e.weight == 0 && e.restSeconds == 90 && e.orderIndex == 0
  {
  }

  // ---------------------------------------------------------------------------
  // Display strings
  // ---------------------------------------------------------------------------

  /** `repsFormatted`: the repetition count followed by " REPS". */
  function RepsFormatted(reps: int): (s: string)
    ensures |s| > 5 && s[|s| - 5..] == " REPS"
    ensures ParseInt(s[..|s| - 5]) == Some(reps)
  {
    IntToStringRoundTrip(reps);
    var s := IntToString(reps) + " REPS";
    assert s[..|s| - 5] == IntToString(reps);
    s
  }

  lemma RepsFormattedInjective(a: int, b: int)
    requires RepsFormatted(a) == RepsFormatted(b)
    ensures a == b
  {
    var s := RepsFormatted(a);
    assert ParseInt(s[..|s| - 5]) == Some(a) && ParseInt(s[..|s| - 5]) == Some(b);
  }

  /** The number shown for a non-zero weight: whole kilograms, or one decimal place. */
  function WeightNumber(w: int): (s: string)
    ensures 1 <= |s|
  {
    var a := if w < 0 then -w else w;
    if a % 10 == 0 then IntToString(Quot(w, 10))
    else (if w < 0 then "-" else "") + NatToString(a / 10) + "." + [DigitChar(a % 10)]
  }

  /** `weightFormatted`: "—" for zero, otherwise the number and " KG". */
  function WeightFormatted(w: int): (s: string)
    ensures w == 0 <==> s == "—"
    ensures w != 0 ==> s == WeightNumber(w) + " KG"
  {
    if w == 0 then "—" else WeightNumber(w) + " KG"
  }

  predicate NoDot(s: string) {
    forall i :: 0 <= i < |s| ==> s[i] != '.'
  }

  lemma IntToStringNoDot(i: int)
    ensures NoDot(IntToString(i))
  {
    var s := IntToString(i);
    if i >= 0 {
      assert AllDigits(NatToString(i));
    } else {
      var t := NatToString(-i);
      assert s == "-" + t && AllDigits(t);
      forall k | 0 <= k < |s|
        ensures s[k] != '.'
      {
        if k > 0 {
          assert s[k] == t[k - 1];
        }
      }
    }
  }

  /** The decimal form is the sign, the kilograms, a dot and one digit. */
  lemma DecimalShape(w: int)
    requires (if w < 0 then -w else w) % 10 != 0
    ensures var a := if w < 0 then -w else w;
      var s := WeightNumber(w);
      |s| >= 3 && s[|s| - 2] == '.' && s[|s| - 1] == DigitChar(a % 10) &&
      s[..|s| - 2] == (if w < 0 then "-" else "") + NatToString(a / 10)
  {
  }

  lemma DecimalInjective(v: int, w: int)
    requires (if v < 0 then -v else v) % 10 != 0
    requires (if w < 0 then -w else w) % 10 != 0
    requires WeightNumber(v) == WeightNumber(w)
    ensures v == w
  {
    var s := WeightNumber(v);
    var av := if v < 0 then -v else v;
    var aw := if w < 0 then -w else w;
    DecimalShape(v);
    DecimalShape(w);
    assert DigitChar(av % 10) == DigitChar(aw % 10);
    var head := s[..|s| - 2];
    var tv := NatToString(av / 10);
    var tw := NatToString(aw / 10);
    assert head == (if v < 0 then "-" else "") + tv;
    assert head == (if w < 0 then "-" else "") + tw;
    assert IsDigit(tv[0]) && IsDigit(tw[0]);
    assert (v < 0) == (head[0] == '-');
    assert (w < 0) == (head[0] == '-');
    if v < 0 {
      assert tv == head[1..] == tw;
    } else {
      assert tv == head == tw;
    }
    NatToStringRoundTrip(av / 10);
    NatToStringRoundTrip(aw / 10);
  }

  /** A decimal dot in the next-to-last place marks exactly the weights that are not whole kilograms. */
  predicate HasDecimalDot(s: string) {
    |s| >= 2 && s[|s| - 2] == '.'
  }

  lemma DecimalDotIffFraction(w: int)
    ensures HasDecimalDot(WeightNumber(w)) <==> (if w < 0 then -w else w) % 10 != 0
  {
    var a := if w < 0 then -w else w;
    if a % 10 == 0 {
      IntToStringNoDot(Quot(w, 10));
    } else {
      DecimalShape(w);
    }
  }

  /** Different weights are displayed differently. */
  lemma WeightFormattedInjective(v: int, w: int)
    requires WeightFormatted(v) == WeightFormatted(w)
    ensures v == w
  {
    var s := WeightFormatted(v);
    assert (v == 0) == (s == "—") == (w == 0);
    if v != 0 {
      assert WeightNumber(v) == s[..|s| - 3] == WeightNumber(w);
      var av := if v < 0 then -v else v;
      var aw := if w < 0 then -w else w;
      DecimalDotIffFraction(v);
      DecimalDotIffFraction(w);
      assert (av % 10 == 0) == (aw % 10 == 0);
      if av % 10 == 0 {
        IntToStringInjective(Quot(v, 10), Quot(w, 10));
      } else {
        DecimalInjective(v, w);
      }
    }
  }

  /** `summaryText`: "<sets> × <reps> @ <weight>"; each field reads back. */
  function SummaryText(e: Exercise): (s: string)
    ensures var i := |IntToString(e.sets)|; var j := i + 3 + |IntToString(e.reps)|;
      && j + 3 <= |s|
      && ParseInt(s[..i]) == Some(e.sets) && s[i..i + 3] == " × "
      && ParseInt(s[i + 3..j]) == Some(e.reps) && s[j..j + 3] == " @ "
      && s[j + 3..] == WeightFormatted(e.weight)
  {
    IntToStringRoundTrip(e.sets);
    IntToStringRoundTrip(e.reps);
    SummaryFields(IntToString(e.sets), IntToString(e.reps), WeightFormatted(e.weight));
    IntToString(e.sets) + (" × " + (IntToString(e.reps) + (" @ " + WeightFormatted(e.weight))))
  }

  /** The three fields of a summary sit at fixed offsets. */
  lemma SummaryFields(a: string, b: string, w: string)
    ensures var s := a + (" × " + (b + (" @ " + w))); var i := |a|; var j := i + 3 + |b|;
      && j + 3 <= |s|
      && s[..i] == a && s[i..i + 3] == " × " && s[i + 3..j] == b
      && s[j..j + 3] == " @ " && s[j + 3..] == w
  {
  }

  /** A printed integer holds no space. */
  lemma IntToStringHasNoSpace(n: int, k: nat)
    requires k < |IntToString(n)|
    ensures IntToString(n)[k] != ' '
  {
    if n < 0 {
      var t := NatToString(-n);
      if k > 0 {
        assert IntToString(n)[k] == t[k - 1];
      }
    }
  }

  /** A printed integer followed by a space is read off unambiguously. */
  lemma LeadingNumberUnique(m: int, n: int, r1: string, r2: string)
    requires IntToString(m) + r1 == IntToString(n) + r2
    requires |r1| > 0 && |r2| > 0 && r1[0] == ' ' && r2[0] == ' '
    ensures m == n && r1 == r2
  {
    var a := IntToString(m);
    var b := IntToString(n);
    var s := a + r1;
    if |a| < |b| {
      assert s[|a|] == ' ';
      assert s[|a|] == b[|a|];
      IntToStringHasNoSpace(n, |a|);
    } else if |b| < |a| {
      assert s[|b|] == ' ';
      assert s[|b|] == a[|b|];
      IntToStringHasNoSpace(m, |b|);
    }
    assert a == s[..|a|] == b;
    IntToStringInjective(m, n);
    assert r1 == s[|a|..] == r2;
  }

  /** Two summary texts agree only when their three fields do. */
  lemma SummaryPartsUnique(m1: int, n1: int, w1: string, m2: int, n2: int, w2: string)
    requires IntToString(m1) + (" × " + (IntToString(n1) + (" @ " + w1)))
          == IntToString(m2) + (" × " + (IntToString(n2) + (" @ " + w2)))
    ensures m1 == m2 && n1 == n2 && w1 == w2
  {
    var t1 := " @ " + w1;
    var t2 := " @ " + w2;
    var r1 := " × " + (IntToString(n1) + t1);
    var r2 := " × " + (IntToString(n2) + t2);
    assert r1[0] == ' ' && r2[0] == ' ';
    LeadingNumberUnique(m1, m2, r1, r2);
    assert IntToString(n1) + t1 == r1[3..] == r2[3..] == IntToString(n2) + t2;
    assert t1[0] == ' ' && t2[0] == ' ';
    LeadingNumberUnique(n1, n2, t1, t2);
    assert w1 == t1[3..] == t2[3..] == w2;
  }

  /** Different sets, reps or weights give different summaries. */
  lemma SummaryTextInjective(x: Exercise, y: Exercise)
    requires SummaryText(x) == SummaryText(y)
    ensures x.sets == y.sets && x.reps == y.reps && x.weight == y.weight
  {
    SummaryPartsUnique(x.sets, x.reps, WeightFormatted(x.weight), y.sets, y.reps, WeightFormatted(y.weight));
    WeightFormattedInjective(x.weight, y.weight);
  }
}
