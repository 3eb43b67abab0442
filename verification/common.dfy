/** Small wrapper types shared by every module of the model. */
module Common {

  /** Python's `None` versus a present value. */
  datatype Option<+T> = None | Some(value: T) {
    function GetOr(default: T): T {
      match this
      case Some(v) => v
      case None => default
    }
  }

  /** The outcome of calling into code the model does not see: an agent's
      `process`, a factory constructor, a timed wait. `Fail` carries the
      message of the exception (or timeout) it stands for. */
  datatype Outcome<+T> = Ok(value: T) | Fail(msg: string)

  /** The `{"is_valid", "warnings", "suggestions"}` dict every agent's
      `validate_input` returns. */
  datatype Validation = Validation(isValid: bool, warnings: seq<string>, suggestions: seq<string>)

  function Max(a: real, b: real): real { if a < b then b else a }
  function Min(a: real, b: real): real { if a < b then a else b }

  /** `max(lo, min(hi, x))`, the clamp the source writes out by hand. */
  function Clamp(x: real, lo: real, hi: real): (r: real)
    requires lo <= hi
    ensures lo <= r <= hi
    ensures lo <= x <= hi ==> r == x
  {
    Max(lo, Min(hi, x))
  }
}
