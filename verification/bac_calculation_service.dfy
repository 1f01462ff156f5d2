/**
 * The browser-side estimator (wwwroot/js/bacCalculationService.js): case-insensitive units and
 * gender with lb/oz fallbacks, a 45-minute absorption delay before elimination starts, an
 * unrounded total, the floor-and-round time-to-zero text and the level class.
 */
module BacCalculationService {
  import opened Wrappers
  import opened Model
  import opened Numeric
  import opened Text
  import opened Duration
  import opened Widmark
  import opened Severity

  const KgPerLb: real := 0.453592
  const KgPerStone: real := 6.35029
  /** Hours before elimination is assumed to start. */
  const AbsorptionDelay: real := 0.75

  /** Weight in kilograms: "kg" as is, "stone" converted, "lb" and every other unit taken as pounds;
      the unit is matched case-insensitively. */
  function WeightInKg(p: Profile): (kg: real)
    ensures ToLower(p.weightUnit) == "kg" ==> kg == p.weight
    ensures ToLower(p.weightUnit) == "stone" ==> kg == p.weight * KgPerStone
    ensures ToLower(p.weightUnit) !in {"kg", "stone"} ==> kg == p.weight * KgPerLb
    ensures kg == 0.0 <==> p.weight == 0.0
  {
    match ToLower(p.weightUnit)
    case "kg" => p.weight
    case "stone" => p.weight * KgPerStone
    case _ => p.weight * KgPerLb
  }

  /** The Widmark factor: female exactly when the lower-cased gender is "female", male otherwise. */
  function WidmarkFactor(gender: string): (r: real)
    ensures r == FemaleRatio <==> ToLower(gender) == "female"
    ensures r == MaleRatio <==> ToLower(gender) != "female"
  {
    if ToLower(gender) == "female" then FemaleRatio else MaleRatio
  }

  /** Volume in millilitres: "ml" (any case) as is, "oz" and every other unit taken as ounces. */
  function VolumeInMl(b: Beverage): (ml: real)
    ensures ToLower(b.volumeUnit) == "ml" ==> ml == b.amount
    ensures ToLower(b.volumeUnit) != "ml" ==> ml == b.amount * MlPerOz
    ensures b.amount >= 0.0 ==> ml >= 0.0
  {
    match ToLower(b.volumeUnit)
    case "ml" => b.amount
    case _ => b.amount * MlPerOz
  }

  /** Hours of elimination: the elapsed time less the absorption delay, never negative. */
  function EffectiveHours(elapsed: real): (e: real)
    ensures e >= 0.0 && e >= elapsed - AbsorptionDelay
    ensures elapsed <= AbsorptionDelay ==> e == 0.0
    ensures elapsed >= AbsorptionDelay ==> e == elapsed - AbsorptionDelay
  {
    ClampZero(elapsed - AbsorptionDelay)
  }

  /** `(weightInKg * 1000) * widmarkFactor`, the divisor of the formula. */
  function BodyWater(p: Profile): (w: real)
    ensures w == 0.0 <==> p.weight == 0.0
    ensures p.weight > 0.0 ==> w > 0.0
  {
    (WeightInKg(p) * 1000.0) * WidmarkFactor(p.gender)
  }

  /** The BAC one drink adds at the moment it is absorbed. */
  function Increase(b: Beverage, bodyWater: real): (inc: real)
    requires bodyWater != 0.0
    ensures inc * bodyWater == AlcoholGrams(VolumeInMl(b), b.abv) * 100.0
    ensures bodyWater > 0.0 && b.amount >= 0.0 && b.abv >= 0.0 ==> inc >= 0.0
  {
    InitialBac(AlcoholGrams(VolumeInMl(b), b.abv), bodyWater, 1.0)
  }

  /** BAC one drink still contributes `now`. */
  function Contribution(b: Beverage, bodyWater: real, now: real): (c: real)
    requires bodyWater != 0.0
    ensures c >= 0.0
    ensures c >= Increase(b, bodyWater) - EliminationRate * EffectiveHours(now - b.consumedTime)
    ensures c == 0.0 || c == Increase(b, bodyWater) - EliminationRate * EffectiveHours(now - b.consumedTime)
    ensures c <= ClampZero(Increase(b, bodyWater))
    ensures now - b.consumedTime <= AbsorptionDelay ==> c == ClampZero(Increase(b, bodyWater))
    ensures now - b.consumedTime >= AbsorptionDelay ==>
              c >= Increase(b, bodyWater) - EliminationRate * (now - b.consumedTime - AbsorptionDelay)
  {
    Remaining(Increase(b, bodyWater), EffectiveHours(now - b.consumedTime))
  }

  /** The running total of the `forEach`, in list order. */
  function Accumulated(bs: seq<Beverage>, bodyWater: real, now: real): (total: real)
    requires bodyWater != 0.0
    ensures total >= 0.0
  {
    if |bs| == 0 then 0.0
    else Accumulated(bs[..|bs| - 1], bodyWater, now) + Contribution(bs[|bs| - 1], bodyWater, now)
  }

  /** The only guard: no profile, no list, or an empty list. */
  predicate Missing(profile: Option<Profile>, beverages: Option<seq<Beverage>>) {
    profile == None || beverages == None || |beverages.value| == 0
  }

  /** `calculateBAC(userProfile, beverages)` evaluated at time `now`. A zero weight would divide
      by zero (Infinity or NaN in the source) and is excluded. */
  function CalculateBac(profile: Option<Profile>, beverages: Option<seq<Beverage>>, now: real): (bac: real)
    requires !Missing(profile, beverages) ==> profile.value.weight != 0.0
    ensures Missing(profile, beverages) ==> bac == 0.0
    ensures !Missing(profile, beverages) ==> bac == Accumulated(beverages.value, BodyWater(profile.value), now)
    ensures bac >= 0.0
  {
    if Missing(profile, beverages) then 0.0
    else Accumulated(beverages.value, BodyWater(profile.value), now)
  }

  /** Logging one more drink never lowers the estimate. */
  lemma AddingDrinkNeverLowers(p: Profile, bs: seq<Beverage>, b: Beverage, now: real)
    requires p.weight != 0.0
    ensures CalculateBac(Some(p), Some(bs), now) <= CalculateBac(Some(p), Some(bs + [b]), now)
  {
    var bs' := bs + [b];
    assert bs'[..|bs'| - 1] == bs;
  }

  /** A drink logged within the last 45 minutes, or in the future, counts in full: the estimate
      is exactly the Widmark formula. */
  lemma RecentDrinkCountsInFull(p: Profile, b: Beverage, now: real)
    requires p.weight > 0.0 && b.amount >= 0.0 && b.abv >= 0.0
    requires now - b.consumedTime <= AbsorptionDelay
    ensures CalculateBac(Some(p), Some([b]), now)
            == InitialBac(AlcoholGrams(VolumeInMl(b), b.abv), WeightInKg(p) * 1000.0, WidmarkFactor(p.gender))
  {
    var w := BodyWater(p);
    InitialBacNonNegative(VolumeInMl(b), b.abv, w, 1.0);
    assert [b][..0] == [];
    assert Accumulated([b], w, now) == Accumulated([], w, now) + Contribution(b, w, now);
  }

  /** `estimateTimeToZero(currentBAC)`: "Now" for a non-positive BAC; otherwise whole hours by floor
      and the rest rounded to the nearest minute, which can reach 60. */
  function EstimateTimeToZero(currentBac: real): (text: string)
    ensures text == "Now" <==> currentBac <= 0.0
    ensures currentBac > 0.0 ==>
              && ReadAnd(text).Some?
              && var (h, m) := ReadAnd(text).value;
                 && text == AndText(h, m)
                 && h == Floor(HoursToZero(currentBac))
                 && m <= 60
                 && HoursToZero(currentBac) * 60.0 - 0.5 < (h * 60 + m) as real <= HoursToZero(currentBac) * 60.0 + 0.5
  {
    if currentBac <= 0.0 then "Now"
    else
      var hoursToZero := HoursToZero(currentBac);
      var hours := Floor(hoursToZero);
      var minutes := RoundHalfUp((hoursToZero - hours as real) * 60.0);
      AndTextRoundTrip(AndText(hours, minutes), hours, minutes);
      SentinelsAreNotDurations();
      AndText(hours, minutes)
  }

  /** The text for a BAC of 0.016 * 119.5 / 60 (119.5 minutes to zero) shows a 60-minute part. */
  lemma SixtyMinutesShown()
    ensures EstimateTimeToZero(0.016 * 119.5 / 60.0) == "1 hour and 60 minutes"
  {
    var bac := 0.016 * 119.5 / 60.0;
    assert HoursToZero(bac) == 119.5 / 60.0;
    assert Floor(119.5 / 60.0) == 1;
    assert RoundHalfUp((119.5 / 60.0 - 1.0) * 60.0) == 60;
    OneHourSixtyMinutes();
  }

  /** The defect does not rest on an exact half minute: 0.03192 (119.7 minutes to zero) shows the
      same 60-minute part. */
  lemma SixtyMinutesShownOffTie()
    ensures EstimateTimeToZero(0.03192) == "1 hour and 60 minutes"
  {
    assert HoursToZero(0.03192) == 1.995;
    assert Floor(1.995) == 1;
    assert RoundHalfUp((1.995 - 1.0) * 60.0) == 60;
    OneHourSixtyMinutes();
  }

  lemma OneHourSixtyMinutes()
    ensures AndText(1, 60) == "1 hour and 60 minutes"
  {
    assert Quantity(1, "hour") == "1 hour" by {
      assert NatToString(1) == "1";
    }
    assert Quantity(60, "minute") == "60 minutes" by {
      assert NatToString(60) == NatToString(6) + [DigitChar(0)] == "60";
    }
    assert AndText(1, 60) == Quantity(1, "hour") + " and " + Quantity(60, "minute");
    JoinedText();
  }

  lemma JoinedText()
    ensures "1 hour" + " and " + "60 minutes" == "1 hour and 60 minutes"
  {
  }

  /** The same policy with a full 60 minutes carried into the hours, as the layout intends. */
  function EstimateTimeToZeroCarried(currentBac: real): (text: string)
    ensures text == "Now" <==> currentBac <= 0.0
    ensures currentBac > 0.0 ==>
              && ReadAnd(text).Some?
              && var (h, m) := ReadAnd(text).value;
                 && text == AndText(h, m)
                 && m < 60
                 && HoursToZero(currentBac) * 60.0 - 0.5 < (h * 60 + m) as real <= HoursToZero(currentBac) * 60.0 + 0.5
  {
    if currentBac <= 0.0 then "Now"
    else
      var hoursToZero := HoursToZero(currentBac);
      var hours := Floor(hoursToZero);
      var minutes := RoundHalfUp((hoursToZero - hours as real) * 60.0);
      var (h, m) := if minutes == 60 then (hours + 1, 0) else (hours, minutes);
      AndTextRoundTrip(AndText(h, m), h, m);
      SentinelsAreNotDurations();
      AndText(h, m)
  }

  /** `getBACLevelClass(bac)`. */
  function LevelClass(bac: real): (cls: string)
    ensures cls == "text-danger" <==> bac >= 0.08
    ensures cls == "text-warning" <==> 0.04 <= bac < 0.08
    ensures cls == "text-success" <==> bac < 0.04
  {
    TextClass(BandOf(bac))
  }
}
