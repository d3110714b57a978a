/** Small value types shared by the component models. */
module Common {
  /** Python's "value or None". */
  datatype Option<+T> = None | Some(value: T)

  /** Python's `max` on two floats, over exact reals. */
  function Max(a: real, b: real): (m: real) {
    if a >= b then a else b
  }

  /** Python's `min` on two floats, over exact reals. */
  function Min(a: real, b: real): (m: real) {
    if a <= b then a else b
  }

  /** Python's `x or default` for an optional float: both None and 0.0 are falsy. */
  function OrElse(x: Option<real>, default: real): real {
    if x.Some? && x.value != 0.0 then x.value else default
  }

  type Byte = b: int | 0 <= b < 256

  /** One reading of a port: time, voltage, current. */
  datatype Sample = Sample(t: real, v: real, i: real) {
    function Power(): real { v * i }
  }
}
