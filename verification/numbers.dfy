/** Numeric building blocks shared by both BMI screens: JavaScript's parseFloat seen
    as a partial parser, the BMI formula over centimetres and kilograms, and the
    two-decimal rounding that Number.prototype.toFixed(2) performs before display. */
module Numbers {

  datatype Option<+T> = None | Some(value: T)

  /** JavaScript's parseFloat as this model sees it: None stands for NaN. */
  type ParseFloat = string -> Option<real>

  /** Body Mass Index from a height already converted to metres and a weight in
      kilograms: the weight divided by the square of the height. The result is
      the unique value that, multiplied by the squared height, gives back the
      weight, and it has the sign of the weight. */
  function BmiOf(heightM: real, weightKg: real): (bmi: real)
    requires heightM != 0.0
    ensures bmi * (heightM * heightM) == weightKg
    ensures bmi > 0.0 <==> weightKg > 0.0
    ensures bmi == 0.0 <==> weightKg == 0.0
  {
    QuotientSign(weightKg, heightM);
    weightKg / (heightM * heightM)
  }

  // The three cases of QuotientSign, kept apart so that each is proved on its own.
  lemma QuotientPositive(w: real, h: real)
    requires h != 0.0 && w > 0.0
    ensures w / (h * h) > 0.0
  {
  }

  lemma QuotientNegative(w: real, h: real)
    requires h != 0.0 && w < 0.0
    ensures w / (h * h) < 0.0
  {
  }

  lemma QuotientOfZero(h: real)
    requires h != 0.0
    ensures 0.0 / (h * h) == 0.0
  {
  }

  /** Dividing by a squared non-zero number keeps the sign of the dividend. */
  lemma QuotientSign(w: real, h: real)
    requires h != 0.0
    ensures w / (h * h) > 0.0 <==> w > 0.0
    ensures w / (h * h) == 0.0 <==> w == 0.0
  {
    if w > 0.0 {
      QuotientPositive(w, h);
    } else if w < 0.0 {
      QuotientNegative(w, h);
    } else {
      QuotientOfZero(h);
    }
  }

  /** A number shown with exactly two decimals, kept as a count of hundredths
      ("21.60" is Fixed2(2160)). */
  datatype Fixed2 = Fixed2(hundredths: int)

  /** toFixed(2): the nearest multiple of 0.01; on a tie the one farther from
      zero (the magnitude is rounded half up, then the sign is put back). */
  function ToFixed2(x: real): (r: Fixed2)
    ensures x >= 0.0 ==> x * 100.0 - 0.5 < r.hundredths as real <= x * 100.0 + 0.5
    ensures x < 0.0 ==> x * 100.0 - 0.5 <= r.hundredths as real < x * 100.0 + 0.5
  {
    if x < 0.0 then Fixed2(-((-x * 100.0 + 0.5).Floor))
    else Fixed2((x * 100.0 + 0.5).Floor)
  }
}
