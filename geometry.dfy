/** Open axis-aligned boxes, the shape every collision test of the games works on. */
module Geometry {

  /** The open box (left, right) x (top, bottom) in canvas coordinates (y grows downwards). */
  datatype Box = Box(left: real, top: real, right: real, bottom: real)

  /** (x, y) lies strictly inside b. */
  predicate Inside(b: Box, x: real, y: real)
  {
    b.left < x < b.right && b.top < y < b.bottom
  }

  /** Reference meaning of "the boxes overlap": some point lies strictly inside both. */
  ghost predicate Meet(a: Box, b: Box)
  {
    exists x: real, y: real :: Inside(a, x, y) && Inside(b, x, y)
  }

  function Max(a: real, b: real): real { if a < b then b else a }

  function Min(a: real, b: real): real { if a < b then a else b }

  /** The box is not empty: it has positive width and height. */
  predicate Proper(b: Box)
  {
    b.left < b.right && b.top < b.bottom
  }

  /** The four-comparison overlap test the games write out. */
  predicate Crosses(a: Box, b: Box)
  {
    a.left < b.right && b.left < a.right && a.top < b.bottom && b.top < a.bottom
  }

  /** The four-comparison test means "some point is inside both", for boxes that are not empty
      (an inverted box passes the test without containing any point). */
  lemma SharedPoint(a: Box, b: Box)
    ensures Meet(a, b) ==> Crosses(a, b)
    ensures Proper(a) && Proper(b) && Crosses(a, b) ==> Meet(a, b)
  {
    if Proper(a) && Proper(b) && Crosses(a, b) {
      var x := (Max(a.left, b.left) + Min(a.right, b.right)) / 2.0;
      var y := (Max(a.top, b.top) + Min(a.bottom, b.bottom)) / 2.0;
      assert Inside(a, x, y) && Inside(b, x, y);
    }
  }
}
