# BAC tracker: a Dafny model of the estimators

The BAC tracker estimates a drinker's Blood Alcohol Content with the Widmark formula. It uses the drinker's
profile (gender, weight, weight unit) and a log of beverages (amount, volume unit, ABV, time consumed).
It also prints how long the BAC will take to fall to zero and colours the figure by severity.

The repository holds three separate copies of the estimator, and they really do differ:

- `Services/BACService.cs`: the server copy. It returns 0 for an incomplete profile. Unit matching is exact, and
  an unknown unit is not converted. There is no absorption delay. The total is rounded half-to-even to three
  decimals.
- `wwwroot/js/bacCalculationService.js`: the browser service. Units and gender are matched case-insensitively.
  An unknown weight unit is read as pounds and an unknown volume unit as ounces. Elimination starts 45 minutes
  after a drink. The total is not rounded.
- `scripts.js`: the stand-alone page script. Its only guard is an empty list. Units are matched exactly, the
  gender is a plain table lookup, and the total is rounded with `toFixed(3)`.

Each copy is its own Dafny module (`BacService`, `BacCalculationService`, `TrackerScript`). Each is a pure
function over `real` that takes the current time `now` as a parameter. Timestamps are real-valued hours on one
clock, so `now - consumedTime` is the elapsed time in hours.

Other modules:

- `Model`: the `Beverage` record, its defaults and its validation ranges.
- `Widmark`: the shared constants, the formula and the exact-match unit switches.
- `Duration`: the two time-to-zero layouts, and a strict reader for each that accepts exactly the texts its
  layout prints. Each formatter is proved to print a text its reader reads back.
- `Severity`: the three bands.
- `BeverageList`: delete-by-id and the stable newest-first display sort.
- `SessionStorage`: the C# session store over an abstract key-to-slot map.
- `Site`: severity colouring and the `datetime-local` value from `wwwroot/js/site.js`.
- `Agreement`: lemmas relating the three copies. They show where the copies coincide, where they provably
  differ, and that the 45-minute delay can only keep more alcohol in the browser total.

Three details of the code shape the model:

- The server and the page script do not clamp the elapsed time. A future-dated drink therefore contributes
  more than its initial BAC (`BacService.Contribution`). Only the browser service clamps, and it does so after
  subtracting the delay.
- The browser service converts an unknown weight unit as pounds and an unknown volume unit as ounces.
- The browser service has no weight or gender guard. The page script guards only against an empty list.

`Models/UserProfile.cs` is not part of this model. The profile's three fields are the ones the services read.

## Model

| member | source | states |
|---|---|---|
| `Model.NewBeverage` | Models/Beverage.cs:7-13 | a newly constructed beverage has id 0 until storage assigns one, and volume unit "oz" |
| `Model.Validate` | Models/Beverage.cs:9-17 | an amount error iff the amount is outside [0.1, double.MaxValue]; an ABV error iff the ABV is outside [0.1, 100]; all bounds inclusive; errors in declaration order |
| `Model.ErrorMessages` | Models/Beverage.cs:9-17 | each annotation's `ErrorMessage` is reported iff its range is violated, and there are no messages iff the beverage is valid; there is exactly one message per `Validate` error, in the same order, and no other message |
| `Numeric.Round3HalfEven` | Services/BACService.cs:70 | `Math.Round(x, 3)` is a whole number of thousandths within 0.0005 of x; at an exact half-thousandth it is the even neighbour |
| `Numeric.RoundHalfEven` | Services/BACService.cs:70 | the nearest integer, and the even one at an exact tie |
| `Numeric.Round3HalfAway` | scripts.js:257 | `parseFloat(x.toFixed(3))` is a whole number of thousandths within 0.0005 of x; for x ≥ 0 an exact half-thousandth goes up, away from zero |
| `Numeric.RoundHalfUp` | wwwroot/js/bacCalculationService.js:129 | `Math.round` is the nearest integer, with ties going up |
| `Numeric.Round3HalfEvenMonotone` | Services/BACService.cs:70 | three-decimal rounding never reverses the order of two totals |
| `Widmark.AlcoholGrams` | Services/BACService.cs:55 | grams × 100 = ml × ABV × 0.789 (the same formula is at scripts.js:241 and wwwroot/js/bacCalculationService.js:90); zero iff the volume or the ABV is zero |
| `Widmark.InitialBac` | Services/BACService.cs:58 | the Widmark BAC times (grams of body weight × r) is 100 × the grams of alcohol (as at scripts.js:244); zero iff there is no alcohol |
| `Widmark.InitialBacNonNegative` | Services/BACService.cs:55-58 | a drink of non-negative amount and ABV gives non-negative grams of alcohol and a non-negative initial BAC for a positive body weight |
| `Widmark.Remaining` | Services/BACService.cs:63-64 | what is left of a drink is max(0, initial − 0.016·hours): never negative, never below initial − 0.016·hours, and equal to one of the two; 0 once elimination reaches the initial BAC; above the initial BAC for negative hours, since elapsed time is not clamped |
| `Widmark.WeightInGrams` | Services/BACService.cs:26-39 | lb ×453.592, kg ×1000, stone ×6350.29, exact case; any other unit is left unconverted (the same switch is at scripts.js:219-230); zero iff the weight is zero |
| `Widmark.VolumeInMl` | Services/BACService.cs:49-53 | only the exact unit "oz" is multiplied by 29.5735; every other unit is taken as ml (the same rule is at scripts.js:236-239) |
| `BacService.Ratio` | Services/BACService.cs:41-44 | the ratio is 0.55 iff the lower-cased gender is "female"; every other gender, unknown ones included, gets 0.68 |
| `BacService.Contribution` | Services/BACService.cs:48-64 | each drink contributes max(0, initial − 0.016·elapsed): ≥ 0, at least initial − 0.016·elapsed, and one of the two; a past drink contributes no more than its initial BAC; a future-dated drink contributes more than it |
| `BacService.Accumulated` | Services/BACService.cs:46-67 | the running total of non-negative contributions is non-negative |
| `BacService.CalculateBac` | Services/BACService.cs:16-71 | 0 when the list is absent or empty, the profile absent, the gender null or empty, or the weight ≤ 0; otherwise ≥ 0, a multiple of 0.001, and within 0.0005 of the raw sum |
| `BacService.AddingDrinkNeverLowers` | Services/BACService.cs:46-70 | appending a beverage never lowers the rounded estimate |
| `BacService.SingleDrinkNowIsWidmark` | Services/BACService.cs:55-70 | one drink consumed at `now` gives the Widmark formula (ml × abv/100 × 0.789)/(grams × r) × 100, to within the rounding |
| `BacService.EstimateTimeToZero` | Services/BACService.cs:73-98 | "N/A" iff BAC ≤ 0; otherwise the text is exactly the spaced layout of h hours and m minutes (zero parts left out), with m < 60 and h·60+m the time to zero rounded up to a whole minute |
| `Duration.HoursToZero` | Services/BACService.cs:81 | hours × 0.016 is the BAC (as at scripts.js:276 and wwwroot/js/bacCalculationService.js:125); positive iff the BAC is positive |
| `Duration.CeilingMinutes` | Services/BACService.cs:81-82 | the minute count is the least whole number of minutes not shorter than BAC/0.016 hours, and at least 1 |
| `Duration.SpacedText` | Services/BACService.cs:87-97 | empty iff both parts are 0; otherwise the strict spaced reader (canonical digits, "s" except at 1, no zero part, one space) gives back exactly the hours and minutes |
| `Duration.SpacedTextRoundTrip` | scripts.js:282-288 | the spaced reader gives (h, m) if and only if the text is the non-empty spaced layout of (h, m), so a text such as "0 hours 5 minutes" or "1 hour 0 minutes" is rejected |
| `Duration.AndText` | wwwroot/js/bacCalculationService.js:131-138 | the strict " and " reader gives back exactly the hours and minutes; that reader takes minutes alone as 0 hours (even "0 minutes"), hours alone only when they are > 0, and both parts only when both are > 0 |
| `Duration.AndTextRoundTrip` | wwwroot/js/bacCalculationService.js:131-138 | the " and " reader gives (h, m) if and only if the text is the " and " layout of (h, m), so "0 hours and 5 minutes" and "0 hours" are rejected |
| `Duration.ZeroHoursRejected` | Services/BACService.cs:88-91 | no text beginning with a "0 hours" quantity is read by either reader: a zero hours part is never printed |
| `Duration.ZeroMinutesRejected` | Services/BACService.cs:92-95 | a "0 minutes" part after the hours is read by neither reader, and "0 minutes" alone is not of the spaced layout |
| `Duration.SentinelsAreNotDurations` | Services/BACService.cs:75-78 | the sentinels "N/A" and "Now" are not read as a duration by either reader |
| `BacCalculationService.WeightInKg` | wwwroot/js/bacCalculationService.js:32-45 | case-insensitive: kg unchanged, stone ×6.35029, lb and every unknown unit ×0.453592; zero iff the weight is zero |
| `BacCalculationService.WidmarkFactor` | wwwroot/js/bacCalculationService.js:47-49 | 0.55 iff the lower-cased gender equals "female", otherwise 0.68 |
| `BacCalculationService.VolumeInMl` | wwwroot/js/bacCalculationService.js:77-87 | "ml" in any case is unchanged; "oz" and every other unit ×29.5735 |
| `BacCalculationService.Increase` | wwwroot/js/bacCalculationService.js:90-95 | the increase times the body water is 100 × the grams of alcohol; it is non-negative for a drink of non-negative size and strength |
| `BacCalculationService.EffectiveHours` | wwwroot/js/bacCalculationService.js:67-75 | effective hours = max(0, elapsed − 0.75): zero within 45 minutes and for future drinks, elapsed − 0.75 after that |
| `BacCalculationService.BodyWater` | wwwroot/js/bacCalculationService.js:51-52 | (kg × 1000) × factor is zero iff the weight is zero, and positive for a positive weight |
| `BacCalculationService.Contribution` | wwwroot/js/bacCalculationService.js:89-102 | each contribution is max(0, increase − 0.016·effective hours): ≥ 0, at least the difference, and one of the two; never above the initial increase; within 45 minutes (or in the future) the full increase |
| `BacCalculationService.Accumulated` | wwwroot/js/bacCalculationService.js:57-106 | the running total of the `forEach` is non-negative |
| `BacCalculationService.CalculateBac` | wwwroot/js/bacCalculationService.js:27-110 | 0 in the guard cases of a missing profile or a missing or empty list (no weight or gender guard); otherwise exactly the unrounded running sum of the contributions, ≥ 0 |
| `BacCalculationService.AddingDrinkNeverLowers` | wwwroot/js/bacCalculationService.js:101-109 | appending a beverage never decreases the total |
| `BacCalculationService.RecentDrinkCountsInFull` | wwwroot/js/bacCalculationService.js:68-102 | one drink consumed within the last 45 minutes, or in the future, gives exactly the Widmark formula |
| `BacCalculationService.EstimateTimeToZero` | wwwroot/js/bacCalculationService.js:117-139 | "Now" iff BAC ≤ 0; otherwise the text is exactly the " and " layout of h hours and m minutes, with h = ⌊BAC/0.016⌋, m ≤ 60, and h·60+m within half a minute of the true time |
| `BacCalculationService.SixtyMinutesShown` | wwwroot/js/bacCalculationService.js:128-137 | for BAC = 0.016·119.5/60 the text is "1 hour and 60 minutes" |
| `BacCalculationService.SixtyMinutesShownOffTie` | wwwroot/js/bacCalculationService.js:128-137 | for BAC = 0.03192 (119.7 minutes, not a half-minute tie) the text is also "1 hour and 60 minutes" |
| `BacCalculationService.EstimateTimeToZeroCarried` | wwwroot/js/bacCalculationService.js:117-139 | the same policy with 60 minutes carried into the hours: the text is exactly the " and " layout of (h, m) with m < 60, and the duration is still within half a minute |
| `BacCalculationService.LevelClass` | wwwroot/js/bacCalculationService.js:146-150 | "text-danger" iff bac ≥ 0.08, "text-warning" iff 0.04 ≤ bac < 0.08, "text-success" iff bac < 0.04 |
| `Severity.BandOf` | scripts.js:266-272 | danger iff ≥ 0.08, caution iff 0.04 ≤ bac < 0.08, safe iff < 0.04; the bands are exclusive and exhaustive |
| `Severity.BandMonotone` | scripts.js:266-272 | a higher BAC is never put in a milder band |
| `TrackerScript.Contribution` | scripts.js:234-253 | each drink contributes max(0, initial − 0.016·elapsed), elapsed not clamped: ≥ 0, at least the difference, and one of the two; a past drink contributes no more than its initial BAC |
| `TrackerScript.Accumulated` | scripts.js:234-254 | the running total is non-negative |
| `TrackerScript.CalculateBac` | scripts.js:212-258 | 0 for an empty list; otherwise ≥ 0, a multiple of 0.001, and within 0.0005 of the raw sum |
| `TrackerScript.BacValueClasses` | scripts.js:264-272 | the figure keeps its three layout classes plus exactly one of bac-danger (≥ 0.08), bac-caution (0.04 to 0.08) or bac-safe (< 0.04) |
| `TrackerScript.TimeToZeroText` | scripts.js:274-293 | "N/A" iff BAC ≤ 0; otherwise exactly the spaced layout of h hours and m minutes (zero parts left out), with m < 60 and h·60+m the time rounded up to a whole minute |
| `TrackerScript.TimeToZeroMatchesService` | scripts.js:275-293 | wherever the server's int cast does not overflow, the script prints exactly the server's text |
| `TrackerScript.AddBeverage` | scripts.js:73-90 | exactly one beverage is appended iff amount > 0, abv > 0 and a time was given; earlier entries are unchanged; otherwise the list is unchanged |
| `TrackerScript.ValidBeverageIsAccepted` | scripts.js:81 | every beverage that passes the server's range validation is accepted by the form handler |
| `BeverageList.Without` | scripts.js:107-108 | no remaining entry has the id; every entry with another id is kept; nothing is added |
| `BeverageList.WithoutAppend` | scripts.js:108 | the filter distributes over concatenation, so relative order is kept |
| `BeverageList.WithoutSingle` | scripts.js:108 | one entry is kept iff its id differs |
| `BeverageList.WithoutCounts` | Services/SessionStorageService.cs:83 | every entry whose id differs keeps its multiplicity |
| `BeverageList.WithoutAbsent` | Services/SessionStorageService.cs:83 | deleting an id that no entry carries leaves the list unchanged |
| `BeverageList.WithoutIdempotent` | scripts.js:108 | deleting the same id twice is the same as deleting it once |
| `BeverageList.SortNewestFirst` | scripts.js:181-184 | the display order is a permutation of the stored list with non-increasing consumedTime |
| `BeverageList.SortIsStable` | scripts.js:181-184 | entries consumed at the same moment keep their stored relative order |
| `Site.FormatBacDisplay` | wwwroot/js/site.js:4-21 | with no element nothing changes; otherwise exactly one severity class remains (danger ≥ 0.08, warning 0.04 to 0.08, success < 0.04) and all other classes are kept |
| `Site.DateTimeLocal` | wwwroot/js/site.js:35-47 | the value is the unpadded year, then "-", month+1, "-", day, "T", hours, ":", minutes, each of the last four two digits wide |
| `Site.Layout` | wwwroot/js/site.js:46 | each field sits at a fixed offset after the year |
| `SessionStorage.GetUserProfile` | Services/SessionStorageService.cs:18-36 | returns null when nothing readable is stored, otherwise the stored profile |
| `SessionStorage.SaveUserProfile` | Services/SessionStorageService.cs:38-43 | the saved profile is what is read back; other keys are untouched |
| `SessionStorage.GetBeverages` | Services/SessionStorageService.cs:45-63 | returns an empty list when nothing is stored or the stored text is empty, null or does not decode |
| `SessionStorage.SaveBeverages` | Services/SessionStorageService.cs:65-70 | the saved list is what is read back; other keys are untouched |
| `SessionStorage.AddBeverage` | Services/SessionStorageService.cs:72-78 | the stored list grows by one; earlier entries are unchanged; the new last entry is the beverage with its id replaced by the clock reading; the profile and every other session entry are untouched |
| `SessionStorage.DeleteBeverage` | Services/SessionStorageService.cs:80-85 | the stored list becomes the filtered list, so no remaining beverage has the id; the profile and every other session entry are untouched |
| `SessionStorage.ClearAllData` | Services/SessionStorageService.cs:87-92 | afterwards there is no profile and no beverages; every other session entry is kept |
| `SessionStorage.DeleteAbsentIdKeepsList` | Services/SessionStorageService.cs:80-85 | deleting an id no stored beverage has leaves the list unchanged |
| `SessionStorage.DeleteUndoesAdd` | Services/SessionStorageService.cs:72-85 | adding under a fresh id and then deleting that id gives back the original list |
| `Agreement.RatiosAgree` | wwwroot/js/bacCalculationService.js:48-49 | the browser service's comparison and the server's table lookup with male fallback give the same ratio for every string |
| `Agreement.ScriptRatioAgrees` | scripts.js:232 | for the page script's two keys, the plain lookup gives the server's ratio |
| `Agreement.CanonicalWeightAgrees` | wwwroot/js/bacCalculationService.js:33-45 | for "lb", "kg" and "stone", the browser's kg × 1000 equals the server's grams |
| `Agreement.UpperCaseUnitDiffers` | wwwroot/js/bacCalculationService.js:34-44 | "LB" is pounds in the browser service but left unconverted on the server |
| `Agreement.VolumeRulesAgree` | wwwroot/js/bacCalculationService.js:79-87 | for "oz" and "ml", both volume rules give the same millilitres |
| `Agreement.UpperCaseOzDiffers` | wwwroot/js/bacCalculationService.js:79-87 | "OZ" is ounces in the browser service but millilitres on the server |
| `Agreement.DelayKeepsMore` | wwwroot/js/bacCalculationService.js:74-75 | with shared units and no future-dated drink, the delayed total is at least the server's unrounded total |
| `Agreement.DelayedEstimateNotLower` | wwwroot/js/bacCalculationService.js:74-75 | so under those conditions the browser estimate is not lower than the server's, up to 0.0005 of rounding |
| `Agreement.ScriptSumsLikeService` | scripts.js:212-254 | for the script's table keys, the page script's unrounded sum equals the server's |
| `Agreement.RoundingsAgreeOffTies` | scripts.js:257 | away from an exact tie, half-even and half-away rounding agree |
| `Agreement.ScriptShowsServiceValue` | scripts.js:257 | the page script and the server show the same BAC unless the raw total is exactly half-way between thousandths |
| `Agreement.RoundingsDifferAtEvenTies` | scripts.js:257 | at a half-thousandth whose lower neighbour is even, half-away rounding gives 0.001 more than half-even |
| `Agreement.TieExample` | Services/BACService.cs:70 | 0.0425 rounds to 0.042 on the server and to 0.043 in the page script |
| `Agreement.ScriptShowsMoreAtEvenTie` | scripts.js:257 | at such a tie of the raw total, the page script shows one thousandth more than the server |

## Left out

- `wwwroot/js/localStorageService.js`: asynchronous IndexedDB plumbing with no logic beyond store calls.
- `Controllers/HomeController.cs`, `Models/BACTrackerViewModel.cs`, `tailwind.config.js`: MVC plumbing, a DTO
  and build configuration.
- JSON serialisation and session access. The session is an abstract map whose unreadable entries stand for
  empty, `null` or malformed text. A missing `HttpContext` (every session call becomes a no-op) is not modelled.
- Page-script glue: `handleProfileSubmit`, `loadFromLocalStorage`, `saveToLocalStorage`, `clearData` (with its
  `confirm`), `showMainApp` and the `setInterval` refresh. They only move state between the DOM and storage.
- Browser side effects: DOM updates, animation classes, `toLocaleString`, `toISOString`, `Date` parsing and time
  zones. The clock is the parameter `now`. The local-time getters are parameters of `Site.DateTimeLocal`.
- `formatBAC`/`toFixed` rendering of the BAC as text, the `parseFloat` in `formatBACDisplay`, and `console.log`.
- IEEE-754 doubles are modelled as exact reals. So the rounding models round the exact real, whereas the
  runtimes round the nearest binary double. A bound such as 0.1 is the exact decimal.
- Number-to-text conversion is the plain decimal form. JavaScript switches to exponent notation from 1e21
  upwards. The only numbers printed are the hours (BAC/0.016) and the minutes (at most 60), so this needs a
  BAC of at least 1.6e19 percent.
- `ToLower`/`toLowerCase` are modelled on ASCII letters only. Culture-specific and non-ASCII case mappings are
  left out.
- Uniqueness of ids from `Date.now()`/`DateTime.Now.Ticks`: ids are inputs, and collisions depend on the clock.
- `BacService.EstimateTimeToZero`: requires the rounded-up minute count to fit in an `int`. The source's
  `(int)` cast would overflow beyond that.
- `TrackerScript.CalculateBac`: requires that, with a drink logged, the gender is a key of the table and the
  weight is non-zero. Otherwise the source computes NaN or divides by zero.
- `BacCalculationService.CalculateBac`: requires a non-zero weight when there are drinks. A zero weight makes the
  source divide by zero (Infinity or NaN).

## Findings

| source | as written | input that shows it | evidently intended | confidence | as-written member | corrected member |
|---|---|---|---|---|---|---|
| wwwroot/js/bacCalculationService.js:128-137 | the minutes are the rounded fractional hour, printed without carrying a full 60 into the hours | currentBAC = 0.016 × 119.5 / 60 (119.5 minutes to zero) prints "1 hour and 60 minutes"; so does currentBAC = 0.03192 (119.7 minutes), which is not a tie (`BacCalculationService.SixtyMinutesShownOffTie`) | "2 hours": minutes always below 60 | high; not executed | `BacCalculationService.SixtyMinutesShown` | `BacCalculationService.EstimateTimeToZeroCarried` |
