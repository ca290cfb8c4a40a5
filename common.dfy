/** Small helpers shared by both signal bots. */
module Common {

  /** An optional value; `None` also stands for a Python exception that ends a tick. */
  datatype Option<+T> = None | Some(value: T)

  /** Absolute value of a price difference. */
  function Abs(x: real): (r: real)
    ensures r >= 0.0
    ensures r == x || r == -x
  {
    if x < 0.0 then -x else x
  }
}
