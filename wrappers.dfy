/** Absent values. The JavaScript code signals "no value" with `null`,
    `undefined` or `NaN`; the model uses `None` for all three. */
module Wrappers {

  datatype Option<+T> = None | Some(value: T)

  /** The JavaScript idiom `x || fallback` on a number: an absent value and a
      zero are both falsy, so both are replaced by the fallback. */
  function OrElse(x: Option<real>, fallback: real): (r: real)
    ensures x.Some? && x.value != 0.0 ==> r == x.value
    ensures x.None? || x.value == 0.0 ==> r == fallback
  {
    if x.Some? && x.value != 0.0 then x.value else fallback
  }

  /** The same idiom on a count. */
  function CountOrElse(x: Option<int>, fallback: int): (r: int)
    ensures x.Some? && x.value != 0 ==> r == x.value
    ensures x.None? || x.value == 0 ==> r == fallback
  {
    if x.Some? && x.value != 0 then x.value else fallback
  }
}
