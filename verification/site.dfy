/**
 * Client helpers of wwwroot/js/site.js: colouring the BAC figure by severity and the
 * `YYYY-MM-DDTHH:MM` value for a datetime-local input.
 */
module Site {
  import opened Wrappers
  import opened Text
  import opened Severity

  /** The three severity classes `formatBACDisplay` manages. */
  const SeverityClasses: set<string> := {"text-success", "text-warning", "text-danger"}

  /** `formatBACDisplay(bac)` on the class list of the `bacValue` element (`None` when the page
      has no such element): all three severity classes are removed, then the one for the band added. */
  function FormatBacDisplay(element: Option<set<string>>, bac: real): (r: Option<set<string>>)
    ensures r.None? <==> element.None?
    ensures element.Some? ==> r.value * SeverityClasses == {TextClass(BandOf(bac))}
    ensures element.Some? ==>
              && ("text-danger" in r.value <==> bac >= 0.08)
              && ("text-warning" in r.value <==> 0.04 <= bac < 0.08)
              && ("text-success" in r.value <==> bac < 0.04)
    ensures element.Some? ==> r.value - SeverityClasses == element.value - SeverityClasses
  {
    match element
    case None => None
    case Some(classes) => Some(classes - SeverityClasses + {TextClass(BandOf(bac))})
  }

  /** `x.toString().padStart(2, '0')`. */
  function Pad2(n: nat): string {
    PadStart(NatToString(n), 2, '0')
  }

  /** The value `initDateTimeInputs` writes: `${year}-${MM}-${DD}T${HH}:${mm}` from the local-time
      getters, the month being `getMonth() + 1`; the year is printed as is, the rest padded to two digits. */
  function DateTimeLocal(year: int, monthIndex: int, day: int, hours: int, minutes: int): (s: string)
    requires 0 <= monthIndex <= 11 && 1 <= day <= 31 && 0 <= hours <= 23 && 0 <= minutes <= 59
    ensures var y := |IntToString(year)|;
            && |s| == y + 12
            && s[..y] == IntToString(year)
            && s[y] == '-' && s[y + 3] == '-' && s[y + 6] == 'T' && s[y + 9] == ':'
            && TwoDigits(s, y + 1) == Some(monthIndex + 1)
            && TwoDigits(s, y + 4) == Some(day)
            && TwoDigits(s, y + 7) == Some(hours)
            && TwoDigits(s, y + 10) == Some(minutes)
  {
    var y, a, b, c, d := IntToString(year), Pad2(monthIndex + 1), Pad2(day), Pad2(hours), Pad2(minutes);
    PadTwoDigits(monthIndex + 1);
    PadTwoDigits(day);
    PadTwoDigits(hours);
    PadTwoDigits(minutes);
    Layout(y, a, b, c, d, monthIndex + 1, day, hours, minutes);
    y + "-" + a + "-" + b + "T" + c + ":" + d
  }

  /** Where each field of the datetime-local value sits. */
  lemma Layout(year: string, a: string, b: string, c: string, d: string, month: nat, day: nat, hours: nat, minutes: nat)
    requires month < 100 && day < 100 && hours < 100 && minutes < 100
    requires a == [DigitChar(month / 10), DigitChar(month % 10)]
    requires b == [DigitChar(day / 10), DigitChar(day % 10)]
    requires c == [DigitChar(hours / 10), DigitChar(hours % 10)]
    requires d == [DigitChar(minutes / 10), DigitChar(minutes % 10)]
    ensures var s := year + "-" + a + "-" + b + "T" + c + ":" + d;
            var y := |year|;
            && |s| == y + 12
            && s[..y] == year
            && s[y] == '-' && s[y + 3] == '-' && s[y + 6] == 'T' && s[y + 9] == ':'
            && TwoDigits(s, y + 1) == Some(month)
            && TwoDigits(s, y + 4) == Some(day)
            && TwoDigits(s, y + 7) == Some(hours)
            && TwoDigits(s, y + 10) == Some(minutes)
  {
    var s := year + "-" + a + "-" + b + "T" + c + ":" + d;
    var y := |year|;
    var tail := ['-', a[0], a[1], '-', b[0], b[1], 'T', c[0], c[1], ':', d[0], d[1]];
    assert s == year + tail;
    TwoDigitsAt(s, y + 1, month);
    TwoDigitsAt(s, y + 4, day);
    TwoDigitsAt(s, y + 7, hours);
    TwoDigitsAt(s, y + 10, minutes);
  }

  lemma TwoDigitsAt(s: string, i: nat, n: nat)
    requires n < 100 && i + 2 <= |s|
    requires s[i] == DigitChar(n / 10) && s[i + 1] == DigitChar(n % 10)
    ensures TwoDigits(s, i) == Some(n)
  {
  }
}
