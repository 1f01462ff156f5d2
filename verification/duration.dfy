/**
 * The "time until BAC reaches zero" texts: the two layouts the source prints, a strict reader
 * for each that accepts exactly the texts its layout prints, and the ceiling-minutes split
 * shared by the C# service and the page script.
 */
module Duration {
  import opened Wrappers
  import opened Text
  import opened Numeric
  import Widmark

  /** "1 hour", "2 hours", "0 minutes": the number, a space, the word, and "s" unless the number is 1. */
  function Quantity(n: nat, word: string): string {
    NatToString(n) + " " + word + (if n != 1 then "s" else "")
  }

  /** Reads "N word" or "N words" at the front of `s`: N written without leading zeros, and the
      singular exactly when N is 1. Gives N and the rest of the string. */
  function ReadQuantity(s: string, word: string): (r: Option<(nat, string)>)
    ensures r.Some? ==> s == Quantity(r.value.0, word) + r.value.1
  {
    match ReadNat(s)
    case None => None
    case Some((n, rest)) =>
      var digits := s[..|s| - |rest|];
      var tail := " " + word + (if n != 1 then "s" else "");
      if digits == NatToString(n) && tail <= rest then
        assert s == digits + rest;
        assert rest == tail + rest[|tail|..];
        Some((n, rest[|tail|..]))
      else None
  }

  lemma ReadQuantityOfQuantity(n: nat, word: string, t: string)
    ensures ReadQuantity(Quantity(n, word) + t, word) == Some((n, t))
  {
    var tail := " " + word + (if n != 1 then "s" else "");
    var s := Quantity(n, word) + t;
    assert s == NatToString(n) + (tail + t);
    ReadNatOfNatToString(n, tail + t);
    assert s[..|s| - |tail + t|] == NatToString(n);
    assert (tail + t)[|tail|..] == t;
  }

  /** A minutes quantity is not mistaken for an hours quantity. */
  lemma ReadHourOfMinutes(n: nat, t: string)
    ensures ReadQuantity(Quantity(n, "minute") + t, "hour") == None
  {
    var tail := " minute" + (if n != 1 then "s" else "");
    assert Quantity(n, "minute") + t == NatToString(n) + (tail + t);
    ReadNatOfNatToString(n, tail + t);
    var expected := " hour" + (if n != 1 then "s" else "");
    assert (tail + t)[1] == 'm' && expected[1] == 'h';
  }

  /** Which quantities a duration text is made of. */
  datatype Parts = HoursOnly(hours: nat) | MinutesOnly(minutes: nat) | Both(hours: nat, minutes: nat)

  /** Splits a duration text into an hours quantity, a minutes quantity, or an hours quantity and
      a minutes quantity joined by `sep`; anything else is `None`. */
  function ReadParts(s: string, sep: string): Option<Parts> {
    match ReadQuantity(s, "hour")
    case Some((h, rest)) =>
      if rest == "" then Some(HoursOnly(h))
      else if sep <= rest then
        match ReadQuantity(rest[|sep|..], "minute")
        case Some((m, tail)) => if tail == "" then Some(Both(h, m)) else None
        case None => None
      else None
    case None =>
      match ReadQuantity(s, "minute")
      case Some((m, tail)) => if tail == "" then Some(MinutesOnly(m)) else None
      case None => None
  }

  /** The text a split came from: the split is exact, nothing is skipped or added. */
  function Unsplit(p: Parts, sep: string): string {
    match p
    case HoursOnly(h) => Quantity(h, "hour")
    case MinutesOnly(m) => Quantity(m, "minute")
    case Both(h, m) => Quantity(h, "hour") + sep + Quantity(m, "minute")
  }

  /** Whatever `ReadParts` accepts is exactly the text of the parts it returns. */
  lemma ReadPartsSound(s: string, sep: string)
    ensures ReadParts(s, sep).Some? ==> s == Unsplit(ReadParts(s, sep).value, sep)
  {
    var hr := ReadQuantity(s, "hour");
    if hr.Some? {
      var (h, rest) := hr.value;
      if rest == "" {
        assert s == Quantity(h, "hour") + "";
      } else if sep <= rest {
        var after := rest[|sep|..];
        assert rest == sep + after;
        var mr := ReadQuantity(after, "minute");
        if mr.Some? && mr.value.1 == "" {
          var m := mr.value.0;
          assert after == Quantity(m, "minute") + "";
          assert ReadParts(s, sep) == Some(Both(h, m));
        }
      }
    } else {
      var mr := ReadQuantity(s, "minute");
      if mr.Some? && mr.value.1 == "" {
        assert s == Quantity(mr.value.0, "minute") + "";
      }
    }
  }

  /** Reader of the ceiling-policy layout: no zero part is ever written, so a text with a zero
      quantity is not of this layout. */
  function ReadSpaced(s: string): (r: Option<(nat, nat)>)
    ensures r.Some? ==> r.value.0 > 0 || r.value.1 > 0
  {
    match ReadParts(s, " ")
    case Some(HoursOnly(h)) => if h > 0 then Some((h, 0)) else None
    case Some(MinutesOnly(m)) => if m > 0 then Some((0, m)) else None
    case Some(Both(h, m)) => if h > 0 && m > 0 then Some((h, m)) else None
    case None => None
  }

  /** Reader of the floor-and-round layout: minutes stand alone exactly when there are no hours
      (then even "0 minutes"), and a zero minutes part is never written after the hours. */
  function ReadAnd(s: string): (r: Option<(nat, nat)>)
  {
    match ReadParts(s, " and ")
    case Some(HoursOnly(h)) => if h > 0 then Some((h, 0)) else None
    case Some(MinutesOnly(m)) => Some((0, m))
    case Some(Both(h, m)) => if h > 0 && m > 0 then Some((h, m)) else None
    case None => None
  }

  /** The ceiling-policy layout of BACService.cs and scripts.js: each non-zero part, hours first,
      joined by one space. */
  function SpacedText(hours: nat, minutes: nat): (text: string)
    ensures text == "" <==> hours == 0 && minutes == 0
    ensures hours > 0 || minutes > 0 ==> ReadSpaced(text) == Some((hours, minutes))
  {
    if hours > 0 && minutes > 0 then
      BothPartsRead(hours, minutes, " ");
      Quantity(hours, "hour") + " " + Quantity(minutes, "minute")
    else if hours > 0 then
      ReadQuantityOfQuantity(hours, "hour", "");
      assert Quantity(hours, "hour") + "" == Quantity(hours, "hour");
      Quantity(hours, "hour")
    else if minutes > 0 then
      ReadHourOfMinutes(minutes, "");
      ReadQuantityOfQuantity(minutes, "minute", "");
      assert Quantity(minutes, "minute") + "" == Quantity(minutes, "minute");
      Quantity(minutes, "minute")
    else ""
  }

  /** The floor-and-round layout of bacCalculationService.js: minutes alone while there are no
      hours (even "0 minutes"), hours alone when the minutes are zero, otherwise both joined by
      " and ". */
  function AndText(hours: nat, minutes: nat): (text: string)
    ensures ReadAnd(text) == Some((hours, minutes))
  {
    if hours == 0 then
      ReadHourOfMinutes(minutes, "");
      ReadQuantityOfQuantity(minutes, "minute", "");
      assert Quantity(minutes, "minute") + "" == Quantity(minutes, "minute");
      assert ReadParts(Quantity(minutes, "minute"), " and ") == Some(MinutesOnly(minutes));
      Quantity(minutes, "minute")
    else if minutes == 0 then
      ReadQuantityOfQuantity(hours, "hour", "");
      assert Quantity(hours, "hour") + "" == Quantity(hours, "hour");
      assert ReadParts(Quantity(hours, "hour"), " and ") == Some(HoursOnly(hours));
      Quantity(hours, "hour")
    else
      BothPartsRead(hours, minutes, " and ");
      Quantity(hours, "hour") + " and " + Quantity(minutes, "minute")
  }

  /** Two quantities joined by a separator that starts with a space split back into both. */
  lemma BothPartsRead(hours: nat, minutes: nat, sep: string)
    requires |sep| > 0 && sep[0] == ' '
    ensures ReadParts(Quantity(hours, "hour") + sep + Quantity(minutes, "minute"), sep) == Some(Both(hours, minutes))
  {
    var rest := sep + Quantity(minutes, "minute");
    var s := Quantity(hours, "hour") + rest;
    assert Quantity(hours, "hour") + sep + Quantity(minutes, "minute") == s;
    assert ReadQuantity(s, "hour") == Some((hours, rest)) by {
      ReadQuantityOfQuantity(hours, "hour", rest);
    }
    assert ReadQuantity(rest[|sep|..], "minute") == Some((minutes, "")) by {
      assert rest[|sep|..] == Quantity(minutes, "minute") + "";
      ReadQuantityOfQuantity(minutes, "minute", "");
    }
    assert sep <= rest;
    ReadPartsOfBoth(s, sep, hours, rest, minutes);
  }

  lemma ReadPartsOfBoth(s: string, sep: string, hours: nat, rest: string, minutes: nat)
    ensures ReadQuantity(s, "hour") == Some((hours, rest)) && |sep| > 0 && sep <= rest
            && ReadQuantity(rest[|sep|..], "minute") == Some((minutes, ""))
            ==> ReadParts(s, sep) == Some(Both(hours, minutes))
  {
  }

  /** The ceiling-policy reader accepts exactly the texts the layout prints: a text reads as
      (hours, minutes) if and only if it is the non-empty layout of those numbers. */
  lemma SpacedTextRoundTrip(s: string, hours: nat, minutes: nat)
    ensures ReadSpaced(s) == Some((hours, minutes)) <==> (hours > 0 || minutes > 0) && s == SpacedText(hours, minutes)
  {
    ReadPartsSound(s, " ");
  }

  /** The floor-and-round reader accepts exactly the texts that layout prints. */
  lemma AndTextRoundTrip(s: string, hours: nat, minutes: nat)
    ensures ReadAnd(s) == Some((hours, minutes)) <==> s == AndText(hours, minutes)
  {
    if ReadAnd(s) == Some((hours, minutes)) {
      ReadPartsSound(s, " and ");
      var p := ReadParts(s, " and ").value;
      if p.Both? {
        assert s == Quantity(hours, "hour") + " and " + Quantity(minutes, "minute");
      }
    }
  }

  /** No text that starts with a zero hours quantity ("0 hours ...") is of either layout. */
  lemma ZeroHoursRejected(t: string)
    ensures ReadSpaced(Quantity(0, "hour") + t) == None
    ensures ReadAnd(Quantity(0, "hour") + t) == None
  {
    ReadQuantityOfQuantity(0, "hour", t);
  }

  /** A zero minutes quantity is never written: not after the hours in either layout, and not
      alone in the spaced one. */
  lemma ZeroMinutesRejected(hours: nat)
    ensures ReadSpaced(Quantity(hours, "hour") + " " + Quantity(0, "minute")) == None
    ensures ReadAnd(Quantity(hours, "hour") + " and " + Quantity(0, "minute")) == None
    ensures ReadSpaced(Quantity(0, "minute")) == None
  {
    BothPartsRead(hours, 0, " ");
    BothPartsRead(hours, 0, " and ");
    ReadHourOfMinutes(0, "");
    ReadQuantityOfQuantity(0, "minute", "");
    assert Quantity(0, "minute") + "" == Quantity(0, "minute");
  }

  /** The sentinels are not durations in either layout. */
  lemma SentinelsAreNotDurations()
    ensures ReadSpaced("N/A") == None && ReadSpaced("Now") == None
    ensures ReadAnd("N/A") == None && ReadAnd("Now") == None
  {
  }

  /** Hours a BAC takes to reach zero at the elimination rate. */
  function HoursToZero(bac: real): (hours: real)
    ensures hours * Widmark.EliminationRate == bac
    ensures hours > 0.0 <==> bac > 0.0
  {
    bac / Widmark.EliminationRate
  }

  /** The time to zero in whole minutes, rounded up. */
  function CeilingMinutes(bac: real): (m: int)
    requires bac > 0.0
    ensures m >= 1
    ensures (m - 1) as real < HoursToZero(bac) * 60.0 <= m as real
  {
    Ceil(HoursToZero(bac) * 60.0)
  }
}
