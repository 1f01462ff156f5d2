/**
 * The two records the estimators read: the drinker's profile and a logged beverage
 * (Models/Beverage.cs; the profile's fields are those the services read).
 *
 * Times are real-valued hours on one fixed clock; a timestamp difference is therefore
 * the elapsed time in hours, as `TimeSpan.TotalHours` and `(a - b) / 3600000` give it.
 */
module Model {

  /** A user profile. A missing gender or unit is represented by "" (every estimator treats
      null exactly as it treats some unrecognised string). */
  datatype Profile = Profile(gender: string, weight: real, weightUnit: string)

  /** A logged drink: `amount` in `volumeUnit`, `abv` in percent, `consumedTime` in hours. */
  datatype Beverage = Beverage(id: int, amount: real, volumeUnit: string, abv: real, consumedTime: real)

  /** `double.MaxValue`, written out exactly. */
  const DoubleMaxValue: real :=
    179769313486231570814527423731704356798070567525844996598917476803157260780028538760589558632766878171540458953514382464234321326889464182768467546703537516986049910576551282076245490090389328944075868508455133942304583236903222948165808559332123348274797826204144723168738177180919299881250404026184124858368.0

  /** The two `[Range]` annotations of the record. */
  datatype FieldError = AmountOutOfRange | AbvOutOfRange

  /** The `ErrorMessage` of each annotation. */
  function Message(e: FieldError): string {
    match e
    case AmountOutOfRange => "Please enter a value greater than 0"
    case AbvOutOfRange => "ABV must be between 0.1 and 100"
  }

  /** A beverage as the form constructs it before storage: id 0, volume in ounces. */
  function NewBeverage(amount: real, abv: real, consumedTime: real): (b: Beverage)
    ensures b.id == 0 && b.volumeUnit == "oz"
    ensures b.amount == amount && b.abv == abv && b.consumedTime == consumedTime
  {
    Beverage(0, amount, "oz", abv, consumedTime)
  }

  /** Model validation: the amount must lie in [0.1, double.MaxValue] and the ABV in [0.1, 100],
      all bounds inclusive; errors are reported in declaration order. */
  function Validate(b: Beverage): (errors: seq<FieldError>)
    ensures AmountOutOfRange in errors <==> b.amount < 0.1 || b.amount > DoubleMaxValue
    ensures AbvOutOfRange in errors <==> b.abv < 0.1 || b.abv > 100.0
    ensures |errors| <= 2 && (|errors| == 2 ==> errors == [AmountOutOfRange, AbvOutOfRange])
  {
    (if 0.1 <= b.amount <= DoubleMaxValue then [] else [AmountOutOfRange])
    + (if 0.1 <= b.abv <= 100.0 then [] else [AbvOutOfRange])
  }

  /** The messages model binding reports for a beverage, one per violated range, in declaration
      order. */
  function ErrorMessages(b: Beverage): (messages: seq<string>)
    ensures "Please enter a value greater than 0" in messages <==> b.amount < 0.1 || b.amount > DoubleMaxValue
    ensures "ABV must be between 0.1 and 100" in messages <==> b.abv < 0.1 || b.abv > 100.0
    ensures messages == [] <==> Validate(b) == []
    ensures |messages| == |Validate(b)|
    ensures forall i :: 0 <= i < |messages| ==> messages[i] == Message(Validate(b)[i])
  {
    var errors := Validate(b);
    assert Message(AmountOutOfRange)[0] != Message(AbvOutOfRange)[0];
    if |errors| == 0 then []
    else if |errors| == 1 then [Message(errors[0])]
    else [Message(errors[0]), Message(errors[1])]
  }
}
