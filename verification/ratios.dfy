/** The ratio facts behind the two percentage read-outs (payments collected, checklist done). */
module Ratios {

  /** A product with a positive factor has the sign of the other factor. */
  lemma FactorSign(a: real, b: real)
    requires b > 0.0 && a * b >= 0.0
    ensures a >= 0.0
  {
  }

  /** A part over a positive whole lies in 0..1, and is 1 exactly when the part is the whole. */
  lemma PartOverWhole(part: int, whole: int)
    requires 0 <= part <= whole && whole > 0
    ensures 0.0 <= part as real / whole as real <= 1.0
    ensures part as real / whole as real == 1.0 <==> part == whole
  {
    var x, m := part as real / whole as real, whole as real;
    assert x * m == part as real;
    FactorSign(x, m);
    assert (1.0 - x) * m == m - part as real;
    FactorSign(1.0 - x, m);
    if part == whole {
      assert (x - 1.0) * m == 0.0;
      FactorSign(x - 1.0, m);
    }
  }
}
