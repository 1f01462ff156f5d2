/**
 * The Widmark formula and the constants every copy of the estimator shares, together with
 * the exact-match unit conversions that the C# service and the page script both use.
 */
module Widmark {
  import opened Numeric

  /** BAC percentage points eliminated per hour. */
  const EliminationRate: real := 0.016
  /** Density of ethanol in g/ml. */
  const AlcoholDensity: real := 0.789
  /** Widmark distribution ratios. */
  const MaleRatio: real := 0.68
  const FemaleRatio: real := 0.55

  const MlPerOz: real := 29.5735
  const GramsPerLb: real := 453.592
  const GramsPerKg: real := 1000.0
  const GramsPerStone: real := 6350.29

  /** Grams of ethanol in `volumeMl` millilitres of a drink of `abv` percent. */
  function AlcoholGrams(volumeMl: real, abv: real): (grams: real)
    ensures grams * 100.0 == volumeMl * abv * AlcoholDensity
    ensures grams == 0.0 <==> volumeMl == 0.0 || abv == 0.0
  {
    volumeMl * (abv / 100.0) * AlcoholDensity
  }

  /** BAC (percent) right after absorbing `alcoholGrams` into a body of `weightGrams` with ratio `ratio`. */
  function InitialBac(alcoholGrams: real, weightGrams: real, ratio: real): (bac: real)
    requires weightGrams * ratio != 0.0
    ensures bac * (weightGrams * ratio) == alcoholGrams * 100.0
    ensures bac == 0.0 <==> alcoholGrams == 0.0
  {
    (alcoholGrams / (weightGrams * ratio)) * 100.0
  }

  /** A drink of non-negative size and strength raises the BAC of a real body. */
  lemma InitialBacNonNegative(volumeMl: real, abv: real, weightGrams: real, ratio: real)
    requires volumeMl >= 0.0 && abv >= 0.0 && weightGrams > 0.0 && ratio > 0.0
    ensures AlcoholGrams(volumeMl, abv) >= 0.0
    ensures InitialBac(AlcoholGrams(volumeMl, abv), weightGrams, ratio) >= 0.0
  {
    var a := volumeMl * (abv / 100.0);
    assert a >= 0.0;
    assert a * AlcoholDensity >= 0.0;
    assert weightGrams * ratio > 0.0;
  }

  /** What is left of an initial BAC after `hours` of elimination, never below zero.
      `hours` is not clamped: a negative elapsed time adds to the initial value. */
  function Remaining(initial: real, hours: real): (r: real)
    ensures r >= 0.0
    ensures r >= initial - EliminationRate * hours
    ensures r == 0.0 || r == initial - EliminationRate * hours
    ensures hours < 0.0 && initial >= 0.0 ==> r > initial
    ensures hours >= 0.0 ==> r <= ClampZero(initial)
    ensures hours * EliminationRate >= initial ==> r == 0.0
  {
    ClampZero(initial - EliminationRate * hours)
  }

  /** The weight switch of the C# service and of the page script: an exact, case-sensitive match
      on "lb", "kg" or "stone"; any other unit leaves the number unconverted. */
  function WeightInGrams(weight: real, unit: string): (g: real)
    ensures unit == "lb" ==> g == weight * GramsPerLb
    ensures unit == "kg" ==> g == weight * GramsPerKg
    ensures unit == "stone" ==> g == weight * GramsPerStone
    ensures unit !in {"lb", "kg", "stone"} ==> g == weight
    ensures weight > 0.0 ==> g > 0.0
    ensures g == 0.0 <==> weight == 0.0
  {
    match unit
    case "lb" => weight * GramsPerLb
    case "kg" => weight * GramsPerKg
    case "stone" => weight * GramsPerStone
    case _ => weight
  }

  /** The volume rule of the C# service and of the page script: only the exact unit "oz" is
      converted; any other unit is taken to be millilitres already. */
  function VolumeInMl(amount: real, unit: string): (ml: real)
    ensures unit == "oz" ==> ml == amount * MlPerOz
    ensures unit != "oz" ==> ml == amount
    ensures amount >= 0.0 ==> ml >= 0.0
  {
    if unit == "oz" then amount * MlPerOz else amount
  }
}
