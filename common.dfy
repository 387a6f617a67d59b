/** Values shared by every component of the game: the drawing surface's size,
    the optional value that JavaScript expresses with `undefined`, and the
    numeric helpers the source takes from `Math`. */
module Common {

  /** The canvas the page sizes from the window; every component keeps a copy. */
  datatype Canvas = Canvas(width: real, height: real)

  datatype Option<T> = None | Some(value: T)

  /** `Math.PI`, written out to the precision of a JavaScript number. */
  const Pi: real := 3.141592653589793

  /** `Math.max` on two reals. */
  function Max(a: real, b: real): (m: real)
    ensures m >= a && m >= b
    ensures m == a || m == b
  {
    if a >= b then a else b
  }

  /** `Math.min` on two reals. */
  function Min(a: real, b: real): (m: real)
    ensures m <= a && m <= b
    ensures m == a || m == b
  {
    if a <= b then a else b
  }
}
