/** The circle–rectangle collision kernel the bird uses against pipes
    (`checkCircleRectCollision` and the rectangles `checkCollision` builds). */
module Collision {
  import opened Common

  /** An axis-aligned rectangle given by its four edges, as `checkCollision`
      builds it; `top` is the smaller y (the canvas y axis points down). */
  datatype Rect = Rect(left: real, right: real, top: real, bottom: real)
  {
    predicate WellFormed() { left <= right && top <= bottom }

    predicate Contains(px: real, py: real) {
      left <= px <= right && top <= py <= bottom
    }
  }

  /** `Math.max(lo, Math.min(v, hi))`: the coordinate of the point of
      `[lo, hi]` nearest to `v`. */
  function Clamp(v: real, lo: real, hi: real): (c: real)
    ensures lo <= hi ==> lo <= c <= hi
    ensures lo <= v <= hi ==> c == v
    ensures v < lo ==> c == lo
    ensures hi < v && lo <= hi ==> c == hi
  {
    Max(lo, Min(v, hi))
  }

  function DistSq(x1: real, y1: real, x2: real, y2: real): real {
    (x1 - x2) * (x1 - x2) + (y1 - y2) * (y1 - y2)
  }

  /** The squared distance from the centre to the point of `rect` that
      `checkCircleRectCollision` picks as nearest. */
  function ClosestDistSq(cx: real, cy: real, rect: Rect): real {
    DistSq(cx, cy, Clamp(cx, rect.left, rect.right), Clamp(cy, rect.top, rect.bottom))
  }

  /** `checkCircleRectCollision`: the comparison is strict, so a circle that
      only touches the rectangle does not collide. */
  predicate CircleRectCollision(cx: real, cy: real, radius: real, rect: Rect) {
    ClosestDistSq(cx, cy, rect) < radius * radius
  }

  /** The two rectangles of a pipe that `checkCollision` tests: the top one
      from the ceiling down to `topHeight`, the bottom one from `bottomY`
      down to the canvas's lower edge. */
  function TopPipeRect(pipeX: real, pipeWidth: real, topHeight: real): Rect {
    Rect(pipeX, pipeX + pipeWidth, 0.0, topHeight)
  }

  function BottomPipeRect(pipeX: real, pipeWidth: real, bottomY: real, canvasHeight: real): Rect {
    Rect(pipeX, pipeX + pipeWidth, bottomY, canvasHeight)
  }

  /** The boundary test of `checkCollision`: the circle reaches the ceiling or
      the canvas's lower edge. */
  predicate HitsCanvasEdge(cy: real, radius: real, canvasHeight: real) {
    cy - radius <= 0.0 || cy + radius >= canvasHeight
  }

  /** `checkCollision`, on the values it reads from the bird and the pipe. */
  predicate CircleHitsPipe(cx: real, cy: real, radius: real, canvasHeight: real,
                           pipeX: real, pipeWidth: real, topHeight: real, bottomY: real)
  {
    HitsCanvasEdge(cy, radius, canvasHeight)
    || CircleRectCollision(cx, cy, radius, TopPipeRect(pipeX, pipeWidth, topHeight))
    || CircleRectCollision(cx, cy, radius, BottomPipeRect(pipeX, pipeWidth, bottomY, canvasHeight))
  }

  lemma SquareMonotone(a: real, b: real)
    requires 0.0 <= a <= b
    ensures a * a <= b * b
  {
    assert a * a <= a * b by {
      assert a * (b - a) >= 0.0;
    }
    assert a * b <= b * b by {
      assert b * (b - a) >= 0.0;
    }
  }

  /** Along one axis, the clamped coordinate is at least as near to `v` as
      any coordinate `p` of the interval. */
  lemma {:induction false} ClampIsNearest(v: real, lo: real, hi: real, p: real)
    requires lo <= p <= hi
    ensures (v - Clamp(v, lo, hi)) * (v - Clamp(v, lo, hi)) <= (v - p) * (v - p)
  {
    var c := Clamp(v, lo, hi);
    if v < lo {
      SquareMonotone(c - v, p - v);
      assert (v - c) * (v - c) == (c - v) * (c - v);
      assert (v - p) * (v - p) == (p - v) * (p - v);
    } else if hi < v {
      SquareMonotone(v - c, v - p);
    } else {
      assert c == v;
      assert (v - c) * (v - c) == 0.0;
    }
  }

  /** The point `checkCircleRectCollision` picks lies in the rectangle and is
      nearest to the centre among all its points. */
  lemma ClosestPointIsNearest(cx: real, cy: real, rect: Rect, px: real, py: real)
    requires rect.WellFormed() && rect.Contains(px, py)
    ensures rect.Contains(Clamp(cx, rect.left, rect.right), Clamp(cy, rect.top, rect.bottom))
    ensures ClosestDistSq(cx, cy, rect) <= DistSq(cx, cy, px, py)
  {
    ClampIsNearest(cx, rect.left, rect.right, px);
    ClampIsNearest(cy, rect.top, rect.bottom, py);
  }

  /** The kernel against its geometric meaning: on a well-formed rectangle it
      reports a collision exactly when some point of the rectangle lies
      strictly inside the circle. */
  lemma CollisionMeansOverlap(cx: real, cy: real, radius: real, rect: Rect)
    requires rect.WellFormed()
    ensures CircleRectCollision(cx, cy, radius, rect)
        <==> exists px, py :: rect.Contains(px, py) && DistSq(cx, cy, px, py) < radius * radius
  {
    var qx, qy := Clamp(cx, rect.left, rect.right), Clamp(cy, rect.top, rect.bottom);
    if CircleRectCollision(cx, cy, radius, rect) {
      assert rect.Contains(qx, qy) && DistSq(cx, cy, qx, qy) < radius * radius;
    }
    if exists px, py :: rect.Contains(px, py) && DistSq(cx, cy, px, py) < radius * radius {
      var px, py :| rect.Contains(px, py) && DistSq(cx, cy, px, py) < radius * radius;
      ClosestPointIsNearest(cx, cy, rect, px, py);
    }
  }

  /** A circle whose centre lies in the rectangle collides. Stated for radii
      of at least 1 (the bird's hitbox radius is 16). */
  lemma CentreInsideCollides(cx: real, cy: real, radius: real, rect: Rect)
    requires rect.Contains(cx, cy) && radius >= 1.0
    ensures CircleRectCollision(cx, cy, radius, rect)
  {
    assert ClosestDistSq(cx, cy, rect) == 0.0;
    assert radius * radius >= radius * 1.0;
  }

  /** Tangency does not count: a circle whose nearest rectangle point lies at
      exactly its radius does not collide. */
  lemma TouchingDoesNotCollide(cx: real, cy: real, radius: real, rect: Rect)
    requires ClosestDistSq(cx, cy, rect) == radius * radius
    ensures !CircleRectCollision(cx, cy, radius, rect)
  {
  }

  /** The edge test decides `checkCollision` on its own, whatever the pipe. */
  lemma EdgeHitIgnoresPipe(cx: real, cy: real, radius: real, canvasHeight: real,
                           pipeX: real, pipeWidth: real, topHeight: real, bottomY: real)
    requires HitsCanvasEdge(cy, radius, canvasHeight)
    ensures CircleHitsPipe(cx, cy, radius, canvasHeight, pipeX, pipeWidth, topHeight, bottomY)
  {
  }

  /** A pipe with `topHeight` 100 and gap 200 on a 600-high canvas (so the
      bottom pipe starts at 300), probed with a circle of radius 20 ten units
      inside the pipe's left edge: at height 150 the circle lies in the gap
      and 50 below the top pipe, so it does not collide; at height 400 its
      centre lies inside the bottom pipe, so it does. */
  lemma GapScenario(pipeX: real)
    ensures !CircleHitsPipe(pipeX + 10.0, 150.0, 20.0, 600.0, pipeX, 80.0, 100.0, 300.0)
    ensures CircleHitsPipe(pipeX + 10.0, 400.0, 20.0, 600.0, pipeX, 80.0, 100.0, 300.0)
  {
    var top := TopPipeRect(pipeX, 80.0, 100.0);
    var bottom := BottomPipeRect(pipeX, 80.0, 300.0, 600.0);
    assert ClosestDistSq(pipeX + 10.0, 150.0, top) == 2500.0;
    assert ClosestDistSq(pipeX + 10.0, 150.0, bottom) == 22500.0;
    CentreInsideCollides(pipeX + 10.0, 400.0, 20.0, bottom);
  }
}
