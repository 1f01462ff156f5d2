/**
 * The server-side estimator (Services/BACService.cs): guarded Widmark sum without absorption
 * delay, rounded to three decimals, and the ceiling-minutes time-to-zero text.
 */
module BacService {
  import opened Wrappers
  import opened Model
  import opened Numeric
  import opened Text
  import opened Duration
  import opened Widmark

  /** `DISTRIBUTION_RATIO`: looked up with the ordinal comparer. */
  const DistributionRatio: map<string, real> := map["male" := MaleRatio, "female" := FemaleRatio]

  /** `int.MaxValue`: the cast of the minute count must not overflow. */
  const IntMax: int := 0x7FFF_FFFF

  /** The distribution ratio: the lower-cased gender looked up in the table, male when absent. */
  function Ratio(gender: string): (r: real)
    ensures r == FemaleRatio <==> ToLower(gender) == "female"
    ensures r == MaleRatio <==> ToLower(gender) != "female"
  {
    var key := ToLower(gender);
    if key in DistributionRatio then DistributionRatio[key] else MaleRatio
  }

  /** The guard of `CalculateBAC`: no list, an empty list, no profile, no gender, or weight <= 0. */
  predicate Incomplete(profile: Option<Profile>, beverages: Option<seq<Beverage>>) {
    || beverages == None
    || |beverages.value| == 0
    || profile == None
    || profile.value.gender == ""
    || profile.value.weight <= 0.0
  }

  /** BAC one drink still contributes `now`, elapsed time not clamped. */
  function Contribution(b: Beverage, weightGrams: real, ratio: real, now: real): (c: real)
    requires weightGrams > 0.0 && ratio > 0.0
    ensures c >= 0.0
    ensures var initial := InitialBac(AlcoholGrams(VolumeInMl(b.amount, b.volumeUnit), b.abv), weightGrams, ratio);
            && c >= initial - EliminationRate * (now - b.consumedTime)
            && (c == 0.0 || c == initial - EliminationRate * (now - b.consumedTime))
            && (now >= b.consumedTime ==> c <= ClampZero(initial))
            && (b.amount >= 0.0 && b.abv >= 0.0 && now < b.consumedTime ==> c > initial)
  {
    var ml := VolumeInMl(b.amount, b.volumeUnit);
    InitialBacNonNegative(if b.amount >= 0.0 then ml else 0.0, if b.abv >= 0.0 then b.abv else 0.0, weightGrams, ratio);
    var initial := InitialBac(AlcoholGrams(ml, b.abv), weightGrams, ratio);
    Remaining(initial, now - b.consumedTime)
  }

  /** The unrounded running total of the `foreach`, in list order. */
  function Accumulated(bs: seq<Beverage>, weightGrams: real, ratio: real, now: real): (total: real)
    requires weightGrams > 0.0 && ratio > 0.0
    ensures total >= 0.0
  {
    if |bs| == 0 then 0.0
    else Accumulated(bs[..|bs| - 1], weightGrams, ratio, now) + Contribution(bs[|bs| - 1], weightGrams, ratio, now)
  }

  /** The unrounded total for a complete profile. */
  function RawTotal(p: Profile, bs: seq<Beverage>, now: real): real
    requires p.weight > 0.0
  {
    Accumulated(bs, WeightInGrams(p.weight, p.weightUnit), Ratio(p.gender), now)
  }

  /** `CalculateBAC(userProfile, beverages)` evaluated at time `now`. */
  function CalculateBac(profile: Option<Profile>, beverages: Option<seq<Beverage>>, now: real): (bac: real)
    ensures Incomplete(profile, beverages) ==> bac == 0.0
    ensures bac >= 0.0
    ensures IsThousandths(bac)
    ensures !Incomplete(profile, beverages) ==>
              RawTotal(profile.value, beverages.value, now) - 0.0005 <= bac <= RawTotal(profile.value, beverages.value, now) + 0.0005
  {
    if Incomplete(profile, beverages) then 0.0
    else
      var total := RawTotal(profile.value, beverages.value, now);
      var rounded := Round3HalfEven(total);
      if rounded < 0.0 then 0.0 else rounded
  }

  /** Logging one more drink never lowers the estimate. */
  lemma AddingDrinkNeverLowers(p: Profile, bs: seq<Beverage>, b: Beverage, now: real)
    ensures CalculateBac(Some(p), Some(bs), now) <= CalculateBac(Some(p), Some(bs + [b]), now)
  {
    if !Incomplete(Some(p), Some(bs + [b])) {
      var bs' := bs + [b];
      assert bs'[..|bs'| - 1] == bs;
      var wg, r := WeightInGrams(p.weight, p.weightUnit), Ratio(p.gender);
      assert RawTotal(p, bs', now) == RawTotal(p, bs, now) + Contribution(b, wg, r, now);
      Round3HalfEvenMonotone(RawTotal(p, bs, now), RawTotal(p, bs', now));
      Round3HalfEvenMonotone(0.0, RawTotal(p, bs, now));
    }
  }

  /** A single drink logged right now is the Widmark formula, up to the three-decimal rounding. */
  lemma SingleDrinkNowIsWidmark(p: Profile, b: Beverage)
    requires p.gender != "" && p.weight > 0.0
    requires b.amount >= 0.0 && b.abv >= 0.0
    ensures var expected := InitialBac(AlcoholGrams(VolumeInMl(b.amount, b.volumeUnit), b.abv),
                                       WeightInGrams(p.weight, p.weightUnit), Ratio(p.gender));
            expected - 0.0005 <= CalculateBac(Some(p), Some([b]), b.consumedTime) <= expected + 0.0005
  {
    var wg, r := WeightInGrams(p.weight, p.weightUnit), Ratio(p.gender);
    var ml := VolumeInMl(b.amount, b.volumeUnit);
    InitialBacNonNegative(ml, b.abv, wg, r);
    assert [b][..0] == [];
    assert Accumulated([b], wg, r, b.consumedTime) == Accumulated([], wg, r, b.consumedTime) + Contribution(b, wg, r, b.consumedTime);
  }

  /** `EstimateTimeToZero(currentBAC)`: "N/A" for a non-positive BAC, otherwise the time rounded
      up to a whole minute, split into hours and minutes, zero parts left out. */
  function EstimateTimeToZero(currentBac: real): (text: string)
    requires currentBac <= 0.0 || CeilingMinutes(currentBac) <= IntMax
    ensures text == "N/A" <==> currentBac <= 0.0
    ensures currentBac > 0.0 ==>
              && ReadSpaced(text).Some?
              && var (h, m) := ReadSpaced(text).value;
                 && text == SpacedText(h, m)
                 && m < 60
                 && ((h * 60 + m) - 1) as real < HoursToZero(currentBac) * 60.0 <= (h * 60 + m) as real
  {
    if currentBac <= 0.0 then "N/A"
    else
      var minutesToZero := CeilingMinutes(currentBac);
      var hours := minutesToZero / 60;
      var minutes := minutesToZero % 60;
      SpacedTextRoundTrip(SpacedText(hours, minutes), hours, minutes);
      SentinelsAreNotDurations();
      SpacedText(hours, minutes)
  }
}
