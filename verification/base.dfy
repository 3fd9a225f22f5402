/** Small value types shared by every part of the model. */
module Base {

  /** A value that may be absent: Python's None, JavaScript's null or undefined. */
  datatype Option<+T> = None | Some(value: T) {
    function GetOr(default: T): T {
      match this
      case Some(v) => v
      case None => default
    }
  }

  /**
   * The division both scorers guard with "denominator non-zero, else 0":
   * `x / d if d != 0 else 0` in the batch scripts and `if (d) field = x / d`
   * over a field initialised to 0 in the calculator page.
   */
  function Quotient(numerator: real, denominator: real): (q: real)
    ensures denominator == 0.0 ==> q == 0.0
    ensures denominator != 0.0 ==> q * denominator == numerator
  {
    if denominator != 0.0 then numerator / denominator else 0.0
  }
}
