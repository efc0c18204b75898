/** Small shared vocabulary: optional values, results with an error kind,
    and the integer/real helpers the other modules use. */
module Common {

  datatype Option<+T> = None | Some(value: T)

  datatype Result<+T, +E> = Ok(value: T) | Err(error: E)

  /** A floating-point quotient over exact reals: `NonFinite` stands for
      the infinity or NaN numpy produces when it divides by zero. */
  datatype Ext = Finite(v: real) | NonFinite

  function Min(a: int, b: int): (m: int)
    ensures m <= a && m <= b && (m == a || m == b)
  {
    if a <= b then a else b
  }

  function Abs(x: real): (r: real)
    ensures r >= 0.0 && (r == x || r == -x)
  {
    if x < 0.0 then -x else x
  }
}
