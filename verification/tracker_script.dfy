/**
 * The stand-alone page script (scripts.js): its own copy of the estimator (guarded only by an
 * empty list, exact-match units, a plain ratio lookup, toFixed rounding), the colouring and
 * time-to-zero text of `updateBACDisplay`, and the add-beverage form handler.
 */
module TrackerScript {
  import opened Wrappers
  import opened Model
  import opened Numeric
  import opened Duration
  import opened Widmark
  import opened Severity
  import BacService

  /** `DISTRIBUTION_RATIO`: indexed with the gender exactly as entered. */
  const DistributionRatio: map<string, real> := map["male" := MaleRatio, "female" := FemaleRatio]

  /** Inputs on which the script's arithmetic is defined: with a drink logged, a gender that is not
      a key of the table gives NaN and a zero weight divides by zero. */
  predicate Computable(p: Profile, bs: seq<Beverage>) {
    |bs| == 0 || (p.gender in DistributionRatio && p.weight != 0.0)
  }

  /** BAC one drink still contributes `now`, elapsed time not clamped. */
  function Contribution(b: Beverage, weightGrams: real, ratio: real, now: real): (c: real)
    requires weightGrams * ratio != 0.0
    ensures c >= 0.0
    ensures var initial := InitialBac(AlcoholGrams(VolumeInMl(b.amount, b.volumeUnit), b.abv), weightGrams, ratio);
            && c >= initial - EliminationRate * (now - b.consumedTime)
            && (c == 0.0 || c == initial - EliminationRate * (now - b.consumedTime))
            && (now >= b.consumedTime ==> c <= ClampZero(initial))
  {
    var initial := InitialBac(AlcoholGrams(VolumeInMl(b.amount, b.volumeUnit), b.abv), weightGrams, ratio);
    Remaining(initial, now - b.consumedTime)
  }

  /** The running total of the `forEach`, in list order. */
  function Accumulated(bs: seq<Beverage>, weightGrams: real, ratio: real, now: real): (total: real)
    requires weightGrams * ratio != 0.0
    ensures total >= 0.0
  {
    if |bs| == 0 then 0.0
    else Accumulated(bs[..|bs| - 1], weightGrams, ratio, now) + Contribution(bs[|bs| - 1], weightGrams, ratio, now)
  }

  /** The unrounded total. */
  function RawTotal(p: Profile, bs: seq<Beverage>, now: real): real
    requires p.gender in DistributionRatio && p.weight != 0.0
  {
    var wg := WeightInGrams(p.weight, p.weightUnit);
    var r := DistributionRatio[p.gender];
    assert wg * r != 0.0 by {
      assert r > 0.0;
      if wg > 0.0 { assert wg * r > 0.0; } else { assert wg < 0.0; assert wg * r < 0.0; }
    }
    Accumulated(bs, wg, r, now)
  }

  /** `calculateBAC()` evaluated at time `now`. */
  function CalculateBac(p: Profile, bs: seq<Beverage>, now: real): (bac: real)
    requires Computable(p, bs)
    ensures |bs| == 0 ==> bac == 0.0
    ensures bac >= 0.0
    ensures IsThousandths(bac)
    ensures |bs| > 0 ==> RawTotal(p, bs, now) - 0.0005 <= bac <= RawTotal(p, bs, now) + 0.0005
  {
    if |bs| == 0 then 0.0
    else
      var rounded := Round3HalfAway(RawTotal(p, bs, now));
      if rounded < 0.0 then 0.0 else rounded
  }

  /** Classes the BAC figure ends up with: the fixed layout classes plus one severity class. */
  function BacValueClasses(bac: real): (classes: set<string>)
    ensures "bac-danger" in classes <==> bac >= 0.08
    ensures "bac-caution" in classes <==> 0.04 <= bac < 0.08
    ensures "bac-safe" in classes <==> bac < 0.04
    ensures classes - {"bac-danger", "bac-caution", "bac-safe"} == {"text-5xl", "font-bold", "my-4"}
  {
    {"text-5xl", "font-bold", "my-4"}
    + match BandOf(bac)
      case Danger => {"bac-danger"}
      case Caution => {"bac-caution"}
      case Safe => {"bac-safe"}
  }

  /** The time-to-zero text of `updateBACDisplay`: "N/A" for a non-positive BAC, otherwise the
      time rounded up to a whole minute, split with `Math.floor(m / 60)` and `m % 60`. */
  function TimeToZeroText(currentBac: real): (text: string)
    ensures text == "N/A" <==> currentBac <= 0.0
    ensures currentBac > 0.0 ==>
              && ReadSpaced(text).Some?
              && var (h, m) := ReadSpaced(text).value;
                 && text == SpacedText(h, m)
                 && m < 60
                 && ((h * 60 + m) - 1) as real < HoursToZero(currentBac) * 60.0 <= (h * 60 + m) as real
  {
    if currentBac > 0.0 then
      var minutesToZero := Ceil(HoursToZero(currentBac) * 60.0);
      var hours := Floor(minutesToZero as real / 60.0);
      var minutes := minutesToZero % 60;
      FloorOfSixtieth(minutesToZero);
      SpacedTextRoundTrip(SpacedText(hours, minutes), hours, minutes);
      SentinelsAreNotDurations();
      SpacedText(hours, minutes)
    else "N/A"
  }

  /** Where the server's int cast does not overflow, the script prints the server's text. */
  lemma TimeToZeroMatchesService(currentBac: real)
    requires currentBac <= 0.0 || CeilingMinutes(currentBac) <= BacService.IntMax
    ensures TimeToZeroText(currentBac) == BacService.EstimateTimeToZero(currentBac)
  {
    if currentBac > 0.0 {
      var script, service := TimeToZeroText(currentBac), BacService.EstimateTimeToZero(currentBac);
      var (h1, m1) := ReadSpaced(script).value;
      var (h2, m2) := ReadSpaced(service).value;
      assert h1 * 60 + m1 == h2 * 60 + m2;
      assert h1 == h2 && m1 == m2;
    }
  }

  /** `handleAddBeverage`: appends exactly one beverage when the amount and ABV parse to positive
      numbers and a time was entered; otherwise the list is left as it was. A field that does not
      parse (NaN) is `None`. */
  function AddBeverage(bs: seq<Beverage>, amount: Option<real>, volumeUnit: string, abv: Option<real>,
                       consumedTime: Option<real>, id: int): (r: seq<Beverage>)
    ensures |r| == |bs| + 1 <==>
              amount.Some? && amount.value > 0.0 && abv.Some? && abv.value > 0.0 && consumedTime.Some?
    ensures |r| != |bs| + 1 ==> r == bs
    ensures |r| == |bs| + 1 ==>
              r[..|bs|] == bs && r[|bs|] == Beverage(id, amount.value, volumeUnit, abv.value, consumedTime.value)
  {
    match (amount, abv, consumedTime)
    case (Some(a), Some(v), Some(t)) =>
      if a > 0.0 && v > 0.0 then bs + [Beverage(id, a, volumeUnit, v, t)] else bs
    case _ => bs
  }

  /** Every beverage the server-side model accepts is also accepted by the form handler. */
  lemma ValidBeverageIsAccepted(bs: seq<Beverage>, b: Beverage)
    requires Validate(b) == []
    ensures AddBeverage(bs, Some(b.amount), b.volumeUnit, Some(b.abv), Some(b.consumedTime), b.id) == bs + [b]
  {
  }
}
