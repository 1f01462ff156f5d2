/**
 * How the three copies of the estimator relate: where they coincide, where they provably differ,
 * and in which direction the absorption delay moves the browser service's estimate.
 */
module Agreement {
  import opened Wrappers
  import opened Model
  import opened Numeric
  import opened Text
  import Widmark
  import BacService
  import Js = BacCalculationService
  import TrackerScript

  /** The server's table lookup with male fallback and the browser service's comparison pick the
      same ratio for every gender string. */
  lemma RatiosAgree(gender: string)
    ensures BacService.Ratio(gender) == Js.WidmarkFactor(gender)
  {
  }

  /** For the page script's two table keys the server picks the same ratio. */
  lemma ScriptRatioAgrees(gender: string)
    requires gender in TrackerScript.DistributionRatio
    ensures BacService.Ratio(gender) == TrackerScript.DistributionRatio[gender]
  {
    if gender == "male" {
      assert ToLower(gender) == "male";
    } else {
      assert ToLower(gender) == "female";
    }
  }

  /** For the lower-case units both converters know, the browser service's kilograms times 1000 are
      the server's grams. */
  lemma CanonicalWeightAgrees(p: Profile)
    requires p.weightUnit in {"lb", "kg", "stone"}
    ensures Js.WeightInKg(p) * 1000.0 == Widmark.WeightInGrams(p.weight, p.weightUnit)
  {
    assert ToLower(p.weightUnit) == p.weightUnit;
  }

  /** An upper-case "LB" is pounds to the browser service but unconverted grams to the server. */
  lemma UpperCaseUnitDiffers(weight: real)
    requires weight > 0.0
    ensures Js.WeightInKg(Profile("male", weight, "LB")) * 1000.0 == weight * Widmark.GramsPerLb
    ensures Widmark.WeightInGrams(weight, "LB") == weight
  {
    assert ToLower("LB") == "lb";
  }

  /** For "oz" and "ml" both volume rules agree; for "OZ" they do not. */
  lemma VolumeRulesAgree(b: Beverage)
    requires b.volumeUnit in {"oz", "ml"}
    ensures Js.VolumeInMl(b) == Widmark.VolumeInMl(b.amount, b.volumeUnit)
  {
    assert ToLower(b.volumeUnit) == b.volumeUnit;
  }

  lemma UpperCaseOzDiffers(b: Beverage)
    requires b.volumeUnit == "OZ"
    ensures Js.VolumeInMl(b) == b.amount * Widmark.MlPerOz
    ensures Widmark.VolumeInMl(b.amount, b.volumeUnit) == b.amount
  {
    assert ToLower("OZ") == "oz";
  }

  /** Units both the server and the browser service read the same way. */
  predicate SharedUnits(p: Profile, bs: seq<Beverage>) {
    && p.weightUnit in {"lb", "kg", "stone"}
    && forall i :: 0 <= i < |bs| ==> bs[i].volumeUnit in {"oz", "ml"}
  }

  /** With shared units and no drink dated in the future, the absorption delay can only keep more
      alcohol in the browser service's total than in the server's unrounded total. */
  lemma {:induction false} DelayKeepsMore(p: Profile, bs: seq<Beverage>, now: real)
    requires p.weight > 0.0 && SharedUnits(p, bs)
    requires forall i :: 0 <= i < |bs| ==> bs[i].consumedTime <= now
    ensures Js.Accumulated(bs, Js.BodyWater(p), now) >= BacService.RawTotal(p, bs, now)
    decreases |bs|
  {
    if |bs| > 0 {
      var init := bs[..|bs| - 1];
      var b := bs[|bs| - 1];
      DelayKeepsMore(p, init, now);
      var wg, r := Widmark.WeightInGrams(p.weight, p.weightUnit), BacService.Ratio(p.gender);
      CanonicalWeightAgrees(p);
      RatiosAgree(p.gender);
      VolumeRulesAgree(b);
      assert Js.BodyWater(p) == wg * r;
      assert Js.Increase(b, Js.BodyWater(p))
             == Widmark.InitialBac(Widmark.AlcoholGrams(Widmark.VolumeInMl(b.amount, b.volumeUnit), b.abv), wg, r);
      assert BacService.RawTotal(p, bs, now)
             == BacService.RawTotal(p, init, now) + BacService.Contribution(b, wg, r, now);
    }
  }

  /** Hence, under the same conditions, the browser service never shows less than the server
      before the server's rounding. */
  lemma DelayedEstimateNotLower(p: Profile, bs: seq<Beverage>, now: real)
    requires p.gender != "" && p.weight > 0.0 && |bs| > 0 && SharedUnits(p, bs)
    requires forall i :: 0 <= i < |bs| ==> bs[i].consumedTime <= now
    ensures Js.CalculateBac(Some(p), Some(bs), now) >= BacService.RawTotal(p, bs, now)
    ensures Js.CalculateBac(Some(p), Some(bs), now) >= BacService.CalculateBac(Some(p), Some(bs), now) - 0.0005
  {
    DelayKeepsMore(p, bs, now);
  }

  /** The page script's unrounded total is the server's whenever the script's gender is a table key. */
  lemma {:induction false} ScriptSumsLikeService(p: Profile, bs: seq<Beverage>, now: real)
    requires p.gender in TrackerScript.DistributionRatio && p.weight > 0.0
    ensures TrackerScript.RawTotal(p, bs, now) == BacService.RawTotal(p, bs, now)
    decreases |bs|
  {
    ScriptRatioAgrees(p.gender);
    if |bs| > 0 {
      ScriptSumsLikeService(p, bs[..|bs| - 1], now);
    }
  }

  /** Off an exact tie the two rounding rules give the same integer. */
  lemma RoundingsAgreeOffTies(x: real)
    requires x >= 0.0 && x - Floor(x) as real != 0.5
    ensures RoundHalfEven(x) == RoundHalfAway(x)
  {
  }

  /** At a tie whose lower neighbour is even the two rules part: half-even keeps the lower
      thousandth, half-away takes the upper one. */
  lemma RoundingsDifferAtEvenTies(x: real)
    requires x >= 0.0
    requires x * 1000.0 - Floor(x * 1000.0) as real == 0.5 && Floor(x * 1000.0) % 2 == 0
    ensures Round3HalfAway(x) == Round3HalfEven(x) + 0.001
  {
    var n := Floor(x * 1000.0);
    assert Round3HalfEven(x) == n as real / 1000.0;
    assert Round3HalfAway(x) == (n + 1) as real / 1000.0;
  }

  /** For instance 0.0425: the server shows 0.042, the page script 0.043. */
  lemma TieExample()
    ensures Round3HalfEven(0.0425) == 0.042
    ensures Round3HalfAway(0.0425) == 0.043
  {
    assert Floor(0.0425 * 1000.0) == 42;
  }

  /** So the page script and the server show the same BAC unless the unrounded total sits exactly
      half-way between two thousandths. */
  lemma ScriptShowsServiceValue(p: Profile, bs: seq<Beverage>, now: real)
    requires p.gender in TrackerScript.DistributionRatio && p.weight > 0.0 && |bs| > 0
    requires var x := BacService.RawTotal(p, bs, now) * 1000.0; x - Floor(x) as real != 0.5
    ensures TrackerScript.CalculateBac(p, bs, now) == BacService.CalculateBac(Some(p), Some(bs), now)
  {
    ScriptSumsLikeService(p, bs, now);
    RoundingsAgreeOffTies(BacService.RawTotal(p, bs, now) * 1000.0);
  }

  /** ... and at such a tie of the unrounded total the page script shows one thousandth more than
      the server. */
  lemma ScriptShowsMoreAtEvenTie(p: Profile, bs: seq<Beverage>, now: real)
    requires p.gender in TrackerScript.DistributionRatio && p.weight > 0.0 && |bs| > 0
    requires var x := BacService.RawTotal(p, bs, now) * 1000.0; x - Floor(x) as real == 0.5 && Floor(x) % 2 == 0
    ensures TrackerScript.CalculateBac(p, bs, now) == BacService.CalculateBac(Some(p), Some(bs), now) + 0.001
  {
    ScriptSumsLikeService(p, bs, now);
    RoundingsDifferAtEvenTies(BacService.RawTotal(p, bs, now));
  }
}
