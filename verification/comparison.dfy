/** The two screens side by side: the calculator screen's schema is strictly
    stricter than the simpler screen's check, and the difference is exactly
    the weight's sign. */
module Comparison {
  import opened Numbers
  import App
  import TestApp

  /** Whatever the calculator screen accepts, the simpler screen accepts too,
      and the BMI computed from it is positive. */
  lemma SchemaImpliesSimpleCheck(parse: ParseFloat, height: string, weight: string)
    requires App.SchemaAccepts(parse, height, weight)
    ensures TestApp.Accepts(parse, height, weight)
    ensures BmiOf(parse(height).value / 100.0, parse(weight).value) > 0.0
  {
  }

  /** The simpler screen accepts a weight that is zero or negative, where the
      schema rejects it, and the BMI it then shows is not positive. */
  lemma NonPositiveWeightGap(parse: ParseFloat, height: string, weight: string)
    requires TestApp.Accepts(parse, height, weight)
    requires parse(weight).value <= 0.0
    ensures !App.SchemaAccepts(parse, height, weight)
    ensures BmiOf(parse(height).value / 100.0, parse(weight).value) <= 0.0
  {
  }

  /** When the empty text does not parse (parseFloat("") is NaN), the schema
      accepts exactly what the simpler check accepts with a positive weight. */
  lemma AcceptanceGap(parse: ParseFloat, height: string, weight: string)
    requires parse("") == None
    ensures App.SchemaAccepts(parse, height, weight) <==>
      TestApp.Accepts(parse, height, weight) && parse(weight).value > 0.0
  {
    if height == "" || weight == "" {
      assert !TestApp.Accepts(parse, height, weight);
    }
  }
}
