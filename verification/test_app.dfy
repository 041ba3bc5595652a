/** The second, simpler BMI screen: one handler that parses both inputs, checks
    only that both are numbers and that the height in metres is positive, and
    shows either the rounded BMI or a fixed "invalid data" notice. There is no
    status and no per-field error. */
module TestApp {
  import opened Numbers

  /** What this screen shows under its button: a rounded BMI or a notice. */
  datatype Shown = Figure(value: Fixed2) | Notice(text: string)

  /** The screen's invalid-data notice (Arabic for "invalid data"). */
  const InvalidDataText: string := "بيانات غير صالحة"

  /** This screen's validity check: both parse to numbers and the height,
      divided by 100, is above zero. The weight's sign is not looked at. */
  predicate Accepts(parse: ParseFloat, height: string, weight: string) {
    parse(weight).Some? && parse(height).Some? && parse(height).value / 100.0 > 0.0
  }

  /** The state of the simpler screen. */
  class SimpleForm {
    var weight: string
    var height: string
    var bmi: Option<Shown>

    constructor ()
      ensures weight == "" && height == "" && bmi == None
    {
      weight, height, bmi := "", "", None;
    }

    method SetWeight(text: string)
      modifies this`weight
      ensures weight == text
    {
      weight := text;
    }

    method SetHeight(text: string)
      modifies this`height
      ensures height == text
    {
      height := text;
    }

    /** The button's handler: on accepted inputs the rounded BMI of the weight
        over the squared height in metres, otherwise the notice. Either way
        something is on screen afterwards. */
    method CalculateBMI(parse: ParseFloat)
      modifies this`bmi
      ensures Accepts(parse, height, weight) ==>
        bmi == Some(Figure(ToFixed2(BmiOf(parse(height).value / 100.0, parse(weight).value))))
      ensures !Accepts(parse, height, weight) ==> bmi == Some(Notice(InvalidDataText))
    {
      var weightNum := parse(weight);
      // parseFloat yields NaN, and NaN divided by 100 is still NaN.
      var heightNum := match parse(height)
        case Some(v) => Some(v / 100.0)
        case None => None;
      if weightNum.Some? && heightNum.Some? && heightNum.value > 0.0 {
        var bmiValue := BmiOf(heightNum.value, weightNum.value);
        bmi := Some(Figure(ToFixed2(bmiValue)));
      } else {
        bmi := Some(Notice(InvalidDataText));
      }
    }
  }

  /** A session on the simpler screen: a zero weight is accepted and shown as
      0.00, a negative weight gives a negative BMI, and an unparseable height
      brings up the notice. */
  method WeightSignSession(parse: ParseFloat) returns (zero: Option<Shown>, negative: Option<Shown>, invalid: Option<Shown>)
    requires parse("180") == Some(180.0) && parse("0") == Some(0.0)
    requires parse("-70") == Some(-70.0) && parse("abc") == None
    ensures zero == Some(Figure(Fixed2(0)))
    ensures negative.Some? && negative.value.Figure? && negative.value.value.hundredths < 0
    ensures invalid == Some(Notice(InvalidDataText))
  {
    var form := new SimpleForm();
    form.SetHeight("180");
    form.SetWeight("0");
    form.CalculateBMI(parse);
    zero := form.bmi;
    form.SetWeight("-70");
    form.CalculateBMI(parse);
    negative := form.bmi;
    var b := BmiOf(180.0 / 100.0, -70.0);
    assert b < 0.0;
    form.SetHeight("abc");
    form.CalculateBMI(parse);
    invalid := form.bmi;
  }
}
