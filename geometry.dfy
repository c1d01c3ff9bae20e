/**
 The playfield and the axis-aligned boxes that live in it: the player's
 ship, the carrots and the obstacles all carry an `x`, `y`, `width` and
 `height`, and every collision in the game is the same strict overlap test.
 */
module Geometry {

  /** The canvas is fixed at 1024 x 768 (src/main.js:7-8). */
  const FieldWidth: real := 1024.0
  const FieldHeight: real := 768.0

  /** A rectangle with its top-left corner at (x, y). */
  datatype Box = Box(x: real, y: real, width: real, height: real)

  /** The collision test used for carrots and obstacles: strict inequalities on both axes. */
  predicate Overlaps(a: Box, b: Box)
  {
    a.x < b.x + b.width && a.x + a.width > b.x &&
    a.y < b.y + b.height && a.y + a.height > b.y
  }

  /** The point (px, py) lies strictly inside `b`. */
  predicate Inside(px: real, py: real, b: Box)
  {
    b.x < px < b.x + b.width && b.y < py < b.y + b.height
  }

  /** `b` lies entirely within the playfield. */
  predicate InField(b: Box)
  {
    0.0 <= b.x && b.x + b.width <= FieldWidth &&
    0.0 <= b.y && b.y + b.height <= FieldHeight
  }

  function Min(a: real, b: real): real { if a <= b then a else b }
  function Max(a: real, b: real): real { if a <= b then b else a }

  /**
   For boxes of positive size the overlap test holds exactly when the two
   boxes have an interior point in common; the midpoint of the intersection
   is the witness.
   */
  lemma OverlapsIffCommonInterior(a: Box, b: Box)
    requires a.width > 0.0 && a.height > 0.0 && b.width > 0.0 && b.height > 0.0
    ensures Overlaps(a, b) <==> exists px, py :: Inside(px, py, a) && Inside(px, py, b)
  {
    if Overlaps(a, b) {
      var px := (Max(a.x, b.x) + Min(a.x + a.width, b.x + b.width)) / 2.0;
      var py := (Max(a.y, b.y) + Min(a.y + a.height, b.y + b.height)) / 2.0;
      assert Inside(px, py, a) && Inside(px, py, b);
    }
  }

  /**
   Boxes that only touch along an edge or at a corner do not collide: being
   separated on either axis, touching included, rules the overlap out.
   */
  lemma TouchingIsNotOverlap(a: Box, b: Box)
    requires a.x + a.width == b.x || b.x + b.width == a.x ||
             a.y + a.height == b.y || b.y + b.height == a.y
    ensures !Overlaps(a, b)
  {
  }
}
