/**
 * The built-in exercise library and the one-time seeding of an empty store
 * with it (`ExerciseSeed.swift`).
 */
module ExerciseSeed {
  import opened Exercises
  import opened Store

  /** `ExerciseSeedData`: one entry of the built-in library. */
  datatype ExerciseSeedData = ExerciseSeedData(name: string, muscleGroup: string, equipment: string)

  /**
   * The library entry at position `i` of `defaultExercises`. The library lists
   * its entries by muscle group; each group's run is a function of its own.
   */
  function SeedEntry(i: nat): (e: ExerciseSeedData)
    requires i < 60
    ensures IsMuscleGroupRaw(e.muscleGroup) && IsEquipmentRaw(e.equipment)
  {
    if i < 8 then ChestEntry(i)
    else if i < 16 then BackEntry(i - 8)
    else if i < 23 then ShouldersEntry(i - 16)
    else if i < 29 then BicepsEntry(i - 23)
    else if i < 35 then TricepsEntry(i - 29)
    else if i < 45 then LegsEntry(i - 35)
    else if i < 49 then GlutesEntry(i - 45)
    else if i < 55 then CoreEntry(i - 49)
    else FullBodyEntry(i - 55)
  }

  /** The chest entries ("Brust"), positions 0 to 7. */
  function ChestEntry(j: nat): (e: ExerciseSeedData)
    requires j < 8
    ensures e.muscleGroup == "Brust" && IsEquipmentRaw(e.equipment)
  {
    match j
    case 0 => ExerciseSeedData("Bankdrücken", "Brust", "Langhantel")
    case 1 => ExerciseSeedData("Schrägbankdrücken", "Brust", "Langhantel")
    case 2 => ExerciseSeedData("Kurzhantel-Bankdrücken", "Brust", "Kurzhantel")
    case 3 => ExerciseSeedData("Kurzhantel-Flys", "Brust", "Kurzhantel")
    case 4 => ExerciseSeedData("Cable-Crossover", "Brust", "Kabelzug")
    case 5 => ExerciseSeedData("Liegestütze", "Brust", "Körpergewicht")
    case 6 => ExerciseSeedData("Dips (Brust)", "Brust", "Körpergewicht")
    case _ => ExerciseSeedData("Butterfly-Maschine", "Brust", "Maschine")
  }

  /** The back entries ("Rücken"), positions 8 to 15. */
  function BackEntry(j: nat): (e: ExerciseSeedData)
    requires j < 8
    ensures e.muscleGroup == "Rücken" && IsEquipmentRaw(e.equipment)
  {
    match j
    case 0 => ExerciseSeedData("Kreuzheben", "Rücken", "Langhantel")
    case 1 => ExerciseSeedData("Klimmzüge", "Rücken", "Körpergewicht")
    case 2 => ExerciseSeedData("Langhantel-Rudern", "Rücken", "Langhantel")
    case 3 => ExerciseSeedData("Kurzhantel-Rudern", "Rücken", "Kurzhantel")
    case 4 => ExerciseSeedData("Latzug", "Rücken", "Kabelzug")
    case 5 => ExerciseSeedData("Kabelrudern", "Rücken", "Kabelzug")
    case 6 => ExerciseSeedData("T-Bar Rudern", "Rücken", "Langhantel")
    case _ => ExerciseSeedData("Face Pulls", "Rücken", "Kabelzug")
  }

  /** The shoulders entries ("Schultern"), positions 16 to 22. */
  function ShouldersEntry(j: nat): (e: ExerciseSeedData)
    requires j < 7
    ensures e.muscleGroup == "Schultern" && IsEquipmentRaw(e.equipment)
  {
    match j
    case 0 => ExerciseSeedData("Schulterdrücken", "Schultern", "Langhantel")
    case 1 => ExerciseSeedData("Kurzhantel-Schulterdrücken", "Schultern", "Kurzhantel")
    case 2 => ExerciseSeedData("Seitheben", "Schultern", "Kurzhantel")
    case 3 => ExerciseSeedData("Frontheben", "Schultern", "Kurzhantel")
    case 4 => ExerciseSeedData("Arnold Press", "Schultern", "Kurzhantel")
    case 5 => ExerciseSeedData("Aufrechtes Rudern", "Schultern", "Langhantel")
    case _ => ExerciseSeedData("Reverse Flys", "Schultern", "Kurzhantel")
  }

  /** The biceps entries ("Bizeps"), positions 23 to 28. */
  function BicepsEntry(j: nat): (e: ExerciseSeedData)
    requires j < 6
    ensures e.muscleGroup == "Bizeps" && IsEquipmentRaw(e.equipment)
  {
    match j
    case 0 => ExerciseSeedData("Langhantel-Curls", "Bizeps", "Langhantel")
    case 1 => ExerciseSeedData("Kurzhantel-Curls", "Bizeps", "Kurzhantel")
    case 2 => ExerciseSeedData("Hammer Curls", "Bizeps", "Kurzhantel")
    case 3 => ExerciseSeedData("Preacher Curls", "Bizeps", "Langhantel")
    case 4 => ExerciseSeedData("Kabelzug-Curls", "Bizeps", "Kabelzug")
    case _ => ExerciseSeedData("Konzentrations-Curls", "Bizeps", "Kurzhantel")
  }

  /** The triceps entries ("Trizeps"), positions 29 to 34. */
  function TricepsEntry(j: nat): (e: ExerciseSeedData)
    requires j < 6
    ensures e.muscleGroup == "Trizeps" && IsEquipmentRaw(e.equipment)
  {
    match j
    case 0 => ExerciseSeedData("Trizeps-Dips", "Trizeps", "Körpergewicht")
    case 1 => ExerciseSeedData("Trizepsdrücken am Kabel", "Trizeps", "Kabelzug")
    case 2 => ExerciseSeedData("Skull Crushers", "Trizeps", "Langhantel")
    case 3 => ExerciseSeedData("Overhead Trizeps Extension", "Trizeps", "Kurzhantel")
    case 4 => ExerciseSeedData("Enges Bankdrücken", "Trizeps", "Langhantel")
    case _ => ExerciseSeedData("Kickbacks", "Trizeps", "Kurzhantel")
  }

  /** The legs entries ("Beine"), positions 35 to 44. */
  function LegsEntry(j: nat): (e: ExerciseSeedData)
    requires j < 10
    ensures e.muscleGroup == "Beine" && IsEquipmentRaw(e.equipment)
  {
    match j
    case 0 => ExerciseSeedData("Kniebeugen", "Beine", "Langhantel")
    case 1 => ExerciseSeedData("Frontkniebeugen", "Beine", "Langhantel")
    case 2 => ExerciseSeedData("Beinpresse", "Beine", "Maschine")
    case 3 => ExerciseSeedData("Ausfallschritte", "Beine", "Kurzhantel")
    case 4 => ExerciseSeedData("Bulgarische Split Squats", "Beine", "Kurzhantel")
    case 5 => ExerciseSeedData("Beinstrecker", "Beine", "Maschine")
    case 6 => ExerciseSeedData("Beinbeuger", "Beine", "Maschine")
    case 7 => ExerciseSeedData("Wadenheben stehend", "Beine", "Maschine")
    case 8 => ExerciseSeedData("Wadenheben sitzend", "Beine", "Maschine")
    case _ => ExerciseSeedData("Rumänisches Kreuzheben", "Beine", "Langhantel")
  }

  /** The glutes entries ("Gesäß"), positions 45 to 48. */
  function GlutesEntry(j: nat): (e: ExerciseSeedData)
    requires j < 4
    ensures e.muscleGroup == "Gesäß" && IsEquipmentRaw(e.equipment)
  {
    match j
    case 0 => ExerciseSeedData("Hip Thrusts", "Gesäß", "Langhantel")
    case 1 => ExerciseSeedData("Glute Bridge", "Gesäß", "Körpergewicht")
    case 2 => ExerciseSeedData("Cable Pull-Through", "Gesäß", "Kabelzug")
    case _ => ExerciseSeedData("Sumo Kreuzheben", "Gesäß", "Langhantel")
  }

  /** The core entries ("Core"), positions 49 to 54. */
  function CoreEntry(j: nat): (e: ExerciseSeedData)
    requires j < 6
    ensures e.muscleGroup == "Core" && IsEquipmentRaw(e.equipment)
  {
    match j
    case 0 => ExerciseSeedData("Planke", "Core", "Körpergewicht")
    case 1 => ExerciseSeedData("Crunches", "Core", "Körpergewicht")
    case 2 => ExerciseSeedData("Beinheben hängend", "Core", "Körpergewicht")
    case 3 => ExerciseSeedData("Russian Twists", "Core", "Körpergewicht")
    case 4 => ExerciseSeedData("Ab-Rollout", "Core", "Sonstiges")
    case _ => ExerciseSeedData("Kabelzug-Crunches", "Core", "Kabelzug")
  }

  /** The full-body entries ("Ganzkörper"), positions 55 to 59. */
  function FullBodyEntry(j: nat): (e: ExerciseSeedData)
    requires j < 5
    ensures e.muscleGroup == "Ganzkörper" && IsEquipmentRaw(e.equipment)
  {
    match j
    case 0 => ExerciseSeedData("Thrusters", "Ganzkörper", "Langhantel")
    case 1 => ExerciseSeedData("Clean & Press", "Ganzkörper", "Langhantel")
    case 2 => ExerciseSeedData("Kettlebell Swings", "Ganzkörper", "Kettlebell")
    case 3 => ExerciseSeedData("Burpees", "Ganzkörper", "Körpergewicht")
    case _ => ExerciseSeedData("Turkish Get-Up", "Ganzkörper", "Kettlebell")
  }

  /** `defaultExercises`: sixty entries in the library's order. */
  function DefaultExercises(): (r: seq<ExerciseSeedData>)
    ensures |r| == 60
  {
    seq(60, i requires 0 <= i < 60 => SeedEntry(i))
  }

  /**
   * The position of `name` in the library, or -1. It dispatches on the length and
   * the first letter first, so that only a few names are compared in full.
   */
  ghost function LibraryIndex(name: string): int {
    if |name| == 0 then -1
    else if |name| == 6 then
      if name[0] == 'L' then (if name == "Latzug" then 12 else -1)
      else if name[0] == 'P' then (if name == "Planke" then 49 else -1)
      else -1
    else if |name| == 7 then
      if name[0] == 'B' then (if name == "Burpees" then 58 else -1)
      else -1
    else if |name| == 8 then
      if name[0] == 'C' then (if name == "Crunches" then 50 else -1)
      else -1
    else if |name| == 9 then
      if name[0] == 'K' then (if name == "Klimmzüge" then 9 else if name == "Kickbacks" then 34 else -1)
      else if name[0] == 'S' then (if name == "Seitheben" then 18 else -1)
      else if name[0] == 'T' then (if name == "Thrusters" then 55 else -1)
      else -1
    else if |name| == 10 then
      if name[0] == 'K' then (if name == "Kreuzheben" then 8 else if name == "Kniebeugen" then 35 else -1)
      else if name[0] == 'F' then (if name == "Face Pulls" then 15 else if name == "Frontheben" then 19 else -1)
      else if name[0] == 'B' then (if name == "Beinpresse" then 37 else if name == "Beinbeuger" then 41 else -1)
      else if name[0] == 'A' then (if name == "Ab-Rollout" then 53 else -1)
      else -1
    else if |name| == 11 then
      if name[0] == 'B' then (if name == "Bankdrücken" then 0 else -1)
      else if name[0] == 'L' then (if name == "Liegestütze" then 5 else -1)
      else if name[0] == 'K' then (if name == "Kabelrudern" then 13 else -1)
      else if name[0] == 'H' then (if name == "Hip Thrusts" then 45 else -1)
      else -1
    else if |name| == 12 then
      if name[0] == 'D' then (if name == "Dips (Brust)" then 6 else -1)
      else if name[0] == 'T' then (if name == "T-Bar Rudern" then 14 else if name == "Trizeps-Dips" then 29 else -1)
      else if name[0] == 'A' then (if name == "Arnold Press" then 20 else -1)
      else if name[0] == 'R' then (if name == "Reverse Flys" then 22 else -1)
      else if name[0] == 'H' then (if name == "Hammer Curls" then 25 else -1)
      else if name[0] == 'B' then (if name == "Beinstrecker" then 40 else -1)
      else if name[0] == 'G' then (if name == "Glute Bridge" then 46 else -1)
      else -1
    else if |name| == 13 then
      if name[0] == 'C' then (if name == "Clean & Press" then 56 else -1)
      else -1
    else if |name| == 14 then
      if name[0] == 'P' then (if name == "Preacher Curls" then 26 else -1)
      else if name[0] == 'K' then (if name == "Kabelzug-Curls" then 27 else -1)
      else if name[0] == 'S' then (if name == "Skull Crushers" then 31 else -1)
      else if name[0] == 'R' then (if name == "Russian Twists" then 52 else -1)
      else if name[0] == 'T' then (if name == "Turkish Get-Up" then 59 else -1)
      else -1
    else if |name| == 15 then
      if name[0] == 'K' then (if name == "Kurzhantel-Flys" then 3 else -1)
      else if name[0] == 'C' then (if name == "Cable-Crossover" then 4 else -1)
      else if name[0] == 'S' then (if name == "Schulterdrücken" then 16 else if name == "Sumo Kreuzheben" then 48 else -1)
      else if name[0] == 'F' then (if name == "Frontkniebeugen" then 36 else -1)
      else if name[0] == 'A' then (if name == "Ausfallschritte" then 38 else -1)
      else -1
    else if |name| == 16 then
      if name[0] == 'L' then (if name == "Langhantel-Curls" then 23 else -1)
      else if name[0] == 'K' then (if name == "Kurzhantel-Curls" then 24 else -1)
      else -1
    else if |name| == 17 then
      if name[0] == 'S' then (if name == "Schrägbankdrücken" then 1 else -1)
      else if name[0] == 'L' then (if name == "Langhantel-Rudern" then 10 else -1)
      else if name[0] == 'K' then (if name == "Kurzhantel-Rudern" then 11 else if name == "Kabelzug-Crunches" then 54 else if name == "Kettlebell Swings" then 57 else -1)
      else if name[0] == 'A' then (if name == "Aufrechtes Rudern" then 21 else -1)
      else if name[0] == 'E' then (if name == "Enges Bankdrücken" then 33 else -1)
      else if name[0] == 'B' then (if name == "Beinheben hängend" then 51 else -1)
      else -1
    else if |name| == 18 then
      if name[0] == 'B' then (if name == "Butterfly-Maschine" then 7 else -1)
      else if name[0] == 'W' then (if name == "Wadenheben stehend" then 42 else if name == "Wadenheben sitzend" then 43 else -1)
      else if name[0] == 'C' then (if name == "Cable Pull-Through" then 47 else -1)
      else -1
    else if |name| == 20 then
      if name[0] == 'K' then (if name == "Konzentrations-Curls" then 28 else -1)
      else -1
    else if |name| == 22 then
      if name[0] == 'K' then (if name == "Kurzhantel-Bankdrücken" then 2 else -1)
      else if name[0] == 'R' then (if name == "Rumänisches Kreuzheben" then 44 else -1)
      else -1
    else if |name| == 23 then
      if name[0] == 'T' then (if name == "Trizepsdrücken am Kabel" then 30 else -1)
      else -1
    else if |name| == 24 then
      if name[0] == 'B' then (if name == "Bulgarische Split Squats" then 39 else -1)
      else -1
    else if |name| == 26 then
      if name[0] == 'K' then (if name == "Kurzhantel-Schulterdrücken" then 17 else -1)
      else if name[0] == 'O' then (if name == "Overhead Trizeps Extension" then 32 else -1)
      else -1
    else -1
  }

  lemma LibraryIndexIn0(i: nat)
    requires i < 5
    ensures LibraryIndex(SeedEntry(i).name) == i
  {
    var name := SeedEntry(i).name;
    if i == 0 { assert name == ChestEntry(0).name == "Bankdrücken"; }
    else if i == 1 { assert name == ChestEntry(1).name == "Schrägbankdrücken"; }
    else if i == 2 { assert name == ChestEntry(2).name == "Kurzhantel-Bankdrücken"; }
    else if i == 3 { assert name == ChestEntry(3).name == "Kurzhantel-Flys"; }
    else { assert name == ChestEntry(4).name == "Cable-Crossover"; }
  }

  lemma LibraryIndexIn1(i: nat)
    requires 5 <= i < 10
    ensures LibraryIndex(SeedEntry(i).name) == i
  {
    var name := SeedEntry(i).name;
    if i == 5 { assert name == ChestEntry(5).name == "Liegestütze"; }
    else if i == 6 { assert name == ChestEntry(6).name == "Dips (Brust)"; }
    else if i == 7 { assert name == ChestEntry(7).name == "Butterfly-Maschine"; }
    else if i == 8 { assert name == BackEntry(0).name == "Kreuzheben"; }
    else { assert name == BackEntry(1).name == "Klimmzüge"; }
  }

  lemma LibraryIndexIn2(i: nat)
    requires 10 <= i < 15
    ensures LibraryIndex(SeedEntry(i).name) == i
  {
    var name := SeedEntry(i).name;
    if i == 10 { assert name == BackEntry(2).name == "Langhantel-Rudern"; }
    else if i == 11 { assert name == BackEntry(3).name == "Kurzhantel-Rudern"; }
    else if i == 12 { assert name == BackEntry(4).name == "Latzug"; }
    else if i == 13 { assert name == BackEntry(5).name == "Kabelrudern"; }
    else { assert name == BackEntry(6).name == "T-Bar Rudern"; }
  }

  lemma LibraryIndexIn3(i: nat)
    requires 15 <= i < 20
    ensures LibraryIndex(SeedEntry(i).name) == i
  {
    var name := SeedEntry(i).name;
    if i == 15 { assert name == BackEntry(7).name == "Face Pulls"; }
    else if i == 16 { assert name == ShouldersEntry(0).name == "Schulterdrücken"; }
    else if i == 17 { assert name == ShouldersEntry(1).name == "Kurzhantel-Schulterdrücken"; }
    else if i == 18 { assert name == ShouldersEntry(2).name == "Seitheben"; }
    else { assert name == ShouldersEntry(3).name == "Frontheben"; }
  }

  lemma LibraryIndexIn4(i: nat)
    requires 20 <= i < 25
    ensures LibraryIndex(SeedEntry(i).name) == i
  {
    var name := SeedEntry(i).name;
    if i == 20 { assert name == ShouldersEntry(4).name == "Arnold Press"; }
    else if i == 21 { assert name == ShouldersEntry(5).name == "Aufrechtes Rudern"; }
    else if i == 22 { assert name == ShouldersEntry(6).name == "Reverse Flys"; }
    else if i == 23 { assert name == BicepsEntry(0).name == "Langhantel-Curls"; }
    else { assert name == BicepsEntry(1).name == "Kurzhantel-Curls"; }
  }

  lemma LibraryIndexIn5(i: nat)
    requires 25 <= i < 30
    ensures LibraryIndex(SeedEntry(i).name) == i
  {
    var name := SeedEntry(i).name;
    if i == 25 { assert name == BicepsEntry(2).name == "Hammer Curls"; }
    else if i == 26 { assert name == BicepsEntry(3).name == "Preacher Curls"; }
    else if i == 27 { assert name == BicepsEntry(4).name == "Kabelzug-Curls"; }
    else { LibraryIndexIn5Rest(i); }
  }

  lemma LibraryIndexIn5Rest(i: nat)
    requires 28 <= i < 30
    ensures LibraryIndex(SeedEntry(i).name) == i
  {
    var name := SeedEntry(i).name;
    if i == 28 { assert name == BicepsEntry(5).name == "Konzentrations-Curls"; }
    else { assert name == TricepsEntry(0).name == "Trizeps-Dips"; }
  }

  lemma LibraryIndexIn6(i: nat)
    requires 30 <= i < 35
    ensures LibraryIndex(SeedEntry(i).name) == i
  {
    var name := SeedEntry(i).name;
    if i == 30 { assert name == TricepsEntry(1).name == "Trizepsdrücken am Kabel"; }
    else if i == 31 { assert name == TricepsEntry(2).name == "Skull Crushers"; }
    else if i == 32 { assert name == TricepsEntry(3).name == "Overhead Trizeps Extension"; }
    else if i == 33 { assert name == TricepsEntry(4).name == "Enges Bankdrücken"; }
    else { assert name == TricepsEntry(5).name == "Kickbacks"; }
  }

  lemma LibraryIndexIn7(i: nat)
    requires 35 <= i < 40
    ensures LibraryIndex(SeedEntry(i).name) == i
  {
    var name := SeedEntry(i).name;
    if i == 35 { assert name == LegsEntry(0).name == "Kniebeugen"; }
    else if i == 36 { assert name == LegsEntry(1).name == "Frontkniebeugen"; }
    else if i == 37 { assert name == LegsEntry(2).name == "Beinpresse"; }
    else if i == 38 { assert name == LegsEntry(3).name == "Ausfallschritte"; }
    else { assert name == LegsEntry(4).name == "Bulgarische Split Squats"; }
  }

  lemma LibraryIndexIn8(i: nat)
    requires 40 <= i < 45
    ensures LibraryIndex(SeedEntry(i).name) == i
  {
    var name := SeedEntry(i).name;
    if i == 40 { assert name == LegsEntry(5).name == "Beinstrecker"; }
    else if i == 41 { assert name == LegsEntry(6).name == "Beinbeuger"; }
    else if i == 42 { assert name == LegsEntry(7).name == "Wadenheben stehend"; }
    else if i == 43 { assert name == LegsEntry(8).name == "Wadenheben sitzend"; }
    else { assert name == LegsEntry(9).name == "Rumänisches Kreuzheben"; }
  }

  lemma LibraryIndexIn9(i: nat)
    requires 45 <= i < 50
    ensures LibraryIndex(SeedEntry(i).name) == i
  {
    var name := SeedEntry(i).name;
    if i == 45 { assert name == GlutesEntry(0).name == "Hip Thrusts"; }
    else if i == 46 { assert name == GlutesEntry(1).name == "Glute Bridge"; }
    else if i == 47 { assert name == GlutesEntry(2).name == "Cable Pull-Through"; }
    else if i == 48 { assert name == GlutesEntry(3).name == "Sumo Kreuzheben"; }
    else { assert name == CoreEntry(0).name == "Planke"; }
  }

  lemma LibraryIndexIn10(i: nat)
    requires 50 <= i < 55
    ensures LibraryIndex(SeedEntry(i).name) == i
  {
    var name := SeedEntry(i).name;
    if i == 50 { assert name == CoreEntry(1).name == "Crunches"; }
    else if i == 51 { assert name == CoreEntry(2).name == "Beinheben hängend"; }
    else if i == 52 { assert name == CoreEntry(3).name == "Russian Twists"; }
    else if i == 53 { assert name == CoreEntry(4).name == "Ab-Rollout"; }
    else { assert name == CoreEntry(5).name == "Kabelzug-Crunches"; }
  }

  lemma LibraryIndexIn11(i: nat)
    requires 55 <= i < 60
    ensures LibraryIndex(SeedEntry(i).name) == i
  {
    var name := SeedEntry(i).name;
    assert name == FullBodyEntry(i - 55).name;
    if i == 55 { assert name == "Thrusters"; }
    else if i == 56 { assert name == "Clean & Press"; }
    else if i == 57 { assert name == "Kettlebell Swings"; }
    else if i == 58 { assert name == "Burpees"; }
    else { assert name == "Turkish Get-Up"; }
  }

  /** Each library entry is found at its own position. */
  lemma LibraryIndexAt(i: nat)
    requires i < 60
    ensures LibraryIndex(DefaultExercises()[i].name) == i
  {
    assert DefaultExercises()[i] == SeedEntry(i);
    if i < 5 { LibraryIndexIn0(i); }
    else if i < 10 { LibraryIndexIn1(i); }
    else if i < 15 { LibraryIndexIn2(i); }
    else if i < 20 { LibraryIndexIn3(i); }
    else if i < 25 { LibraryIndexIn4(i); }
    else if i < 30 { LibraryIndexIn5(i); }
    else if i < 35 { LibraryIndexIn6(i); }
    else if i < 40 { LibraryIndexIn7(i); }
    else if i < 45 { LibraryIndexIn8(i); }
    else if i < 50 { LibraryIndexIn9(i); }
    else if i < 55 { LibraryIndexIn10(i); }
    else { LibraryIndexIn11(i); }
  }

  /** No two library entries share a name. */
  lemma LibraryNamesDistinct()
    ensures forall i, j :: 0 <= i < j < |DefaultExercises()| ==> DefaultExercises()[i].name != DefaultExercises()[j].name
  {
    forall i, j | 0 <= i < j < |DefaultExercises()|
      ensures DefaultExercises()[i].name != DefaultExercises()[j].name
    {
      LibraryIndexAt(i);
      LibraryIndexAt(j);
    }
  }

  /** Every entry's muscle group and equipment are raw values of the app's vocabulary. */
  lemma LibraryUsesVocabulary()
    ensures forall i :: 0 <= i < |DefaultExercises()| ==>
      IsMuscleGroupRaw(DefaultExercises()[i].muscleGroup) && IsEquipmentRaw(DefaultExercises()[i].equipment)
  {
    forall i | 0 <= i < |DefaultExercises()|
      ensures IsMuscleGroupRaw(DefaultExercises()[i].muscleGroup) && IsEquipmentRaw(DefaultExercises()[i].equipment)
    {
      assert DefaultExercises()[i] == SeedEntry(i);
    }
  }

  /** No two definitions of the list share a name. */
  predicate NamesDistinct(defs: seq<ExerciseDefinition>) {
    forall i, j :: 0 <= i < j < |defs| ==> defs[i].name != defs[j].name
  }

  /** The definitions the seeder inserts when the first of them receives the id `firstId`. */
  function SeededDefinitions(firstId: nat): (r: seq<ExerciseDefinition>)
    ensures |r| == |DefaultExercises()|
  {
    seq(60, i requires 0 <= i < 60 =>
      var e := DefaultExercises()[i];
      NewDefinition(firstId + i, e.name, e.muscleGroup, e.equipment, false))
  }

  /**
   * The seeded store holds the whole library, in order, as built-in, non-favourite
   * definitions with consecutive ids, distinct names and valid vocabulary.
   */
  lemma SeededLibrary(firstId: nat)
    ensures var r := SeededDefinitions(firstId);
      && NamesDistinct(r)
      && (forall i :: 0 <= i < |r| ==>
            && r[i].id == firstId + i
            && r[i].name == DefaultExercises()[i].name
            && r[i].muscleGroup == DefaultExercises()[i].muscleGroup
            && r[i].equipment == DefaultExercises()[i].equipment
            && !r[i].isCustom && !r[i].isFavorite
            && MuscleGroupFromRaw(r[i].muscleGroup).Some?
            && EquipmentFromRaw(r[i].equipment).Some?)
  {
    var r := SeededDefinitions(firstId);
    forall i | 0 <= i < |r|
      ensures r[i].id == firstId + i && r[i].name == DefaultExercises()[i].name
      ensures r[i].muscleGroup == DefaultExercises()[i].muscleGroup
      ensures r[i].equipment == DefaultExercises()[i].equipment
      ensures !r[i].isCustom && !r[i].isFavorite
      ensures MuscleGroupFromRaw(r[i].muscleGroup).Some? && EquipmentFromRaw(r[i].equipment).Some?
    {
      SeededAt(firstId, i);
    }
    SeededNamesDistinct(firstId);
  }

  /** The seeded definition at `i` is the library entry at `i`, with id `firstId + i`. */
  lemma SeededAt(firstId: nat, i: nat)
    requires i < 60
    ensures var d := SeededDefinitions(firstId)[i]; var e := DefaultExercises()[i];
      && d.id == firstId + i && d.name == e.name && d.muscleGroup == e.muscleGroup && d.equipment == e.equipment
      && !d.isCustom && !d.isFavorite
      && IsMuscleGroupRaw(d.muscleGroup) && IsEquipmentRaw(d.equipment)
  {
    assert DefaultExercises()[i] == SeedEntry(i);
  }

  lemma SeededNamesDistinct(firstId: nat)
    ensures NamesDistinct(SeededDefinitions(firstId))
  {
    var r := SeededDefinitions(firstId);
    LibraryNamesDistinct();
    forall i, j | 0 <= i < j < |r|
      ensures r[i].name != r[j].name
    {
      SeededAt(firstId, i);
      SeededAt(firstId, j);
    }
  }

  /** The definitions after `seedDefaultExercises`: the library only in an empty store. */
  function AfterSeeding(defs: seq<ExerciseDefinition>, nextId: nat): (r: seq<ExerciseDefinition>)
    ensures |defs| > 0 ==> r == defs
    ensures |defs| == 0 ==> |r| == 60
  {
    if |defs| == 0 then SeededDefinitions(nextId) else defs
  }

  /** Seeding a second time, whatever ids are free then, changes nothing. */
  lemma SeedingIsIdempotent(defs: seq<ExerciseDefinition>, nextId: nat, laterId: nat)
    ensures AfterSeeding(AfterSeeding(defs, nextId), laterId) == AfterSeeding(defs, nextId)
  {
  }

  /** `seedDefaultExercises(modelContext:)`. */
  method SeedDefaultExercises(context: ModelContext)
    modifies context
    ensures context.definitions == AfterSeeding(old(context.definitions), old(context.nextId))
    ensures context.nextId == old(context.nextId) + (if |old(context.definitions)| == 0 then 60 else 0)
    ensures context.plans == old(context.plans)
  {
    if |context.definitions| != 0 {
      return;
    }
    ghost var firstId := context.nextId;
    var library := DefaultExercises();
    for k := 0 to |library|
      invariant context.definitions == SeededDefinitions(firstId)[..k]
      invariant context.nextId == firstId + k
      invariant context.plans == old(context.plans)
    {
      var id := context.FreshId();
      var e := library[k];
      context.InsertDefinition(NewDefinition(id, e.name, e.muscleGroup, e.equipment, false));
      assert SeededDefinitions(firstId)[..k + 1] == SeededDefinitions(firstId)[..k] + [SeededDefinitions(firstId)[k]];
    }
    assert SeededDefinitions(firstId)[..60] == SeededDefinitions(firstId);
  }
}
