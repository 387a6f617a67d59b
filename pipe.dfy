/** A pipe pair (`utils/Pipe.js`): its random opening height, its leftward
    motion, its visual hit state and the boxes `getBounds` reports. */
module Obstacle {
  import opened Common

  const PipeWidth: real := 80.0
  /** The gap every pipe is built with, whatever the difficulty. */
  const InitialGap: real := 200.0
  const MinTopHeight: real := 100.0
  /** Margin the constructor keeps between the gap and the canvas bottom. */
  const BottomMargin: real := 100.0
  const InitialSpeed: real := 3.0
  const CapHeight: real := 30.0
  const CapOverhang: real := 5.0
  const ShakeDecay: real := 0.9
  const HitShake: real := 5.0
  const FadedOpacity: real := 0.7

  /** A `Math.random()` draw scaled to a span: never negative, never more
      than the span, and strictly less when the span is positive. */
  lemma ScaledDrawBounds(r: real, span: real)
    requires 0.0 <= r < 1.0 && span >= 0.0
    ensures 0.0 <= r * span <= span
    ensures span > 0.0 ==> r * span < span
  {
  }

  /** The constructor's opening height for draw `r` on a canvas of the given
      height: `r` scaled between 100 and `height - gap - 100`. */
  function RandomTopHeight(r: real, canvasHeight: real): real {
    r * ((canvasHeight - InitialGap - BottomMargin) - MinTopHeight) + MinTopHeight
  }

  /** On a canvas at least 400 high the opening starts between 100 and
      `height - 300`; strictly above `height - 300` is excluded once the
      canvas is taller than 400 (at exactly 400 the only height is 100). */
  lemma TopHeightBounds(r: real, canvasHeight: real)
    requires 0.0 <= r < 1.0 && canvasHeight >= 400.0
    ensures MinTopHeight <= RandomTopHeight(r, canvasHeight) <= canvasHeight - 300.0
    ensures canvasHeight > 400.0 ==> RandomTopHeight(r, canvasHeight) < canvasHeight - 300.0
  {
    var span := (canvasHeight - InitialGap - BottomMargin) - MinTopHeight;
    ScaledDrawBounds(r, span);
    assert RandomTopHeight(r, canvasHeight) == r * span + MinTopHeight;
  }

  /** A rectangle as `getBounds` reports it: corner, width and height. */
  datatype Box = Box(x: real, y: real, width: real, height: real)
  {
    predicate Contains(px: real, py: real) {
      x <= px <= x + width && y <= py <= y + height
    }

    /** Every point of `inner` is a point of this box. */
    predicate Covers(inner: Box) {
      x <= inner.x && inner.x + inner.width <= x + width
      && y <= inner.y && inner.y + inner.height <= y + height
    }
  }

  /** The four boxes of `getBounds`: the two pipe bodies and their caps. */
  datatype Bounds = Bounds(top: Box, topCap: Box, bottom: Box, bottomCap: Box)

  class Pipe {
    const canvas: Canvas
    const width: real
    const topHeight: real
    /** Fixed at construction: later changes to `gap` do not move it. */
    const bottomY: real
    var gap: real
    var x: real
    var passed: bool
    var speed: real
    var highlight: bool
    var shake: real
    var opacity: real

    /** What stays true of a pipe whatever is done to it. */
    predicate Valid()
      reads this`shake
    {
      width == PipeWidth
      && bottomY == topHeight + InitialGap
      && shake >= 0.0
    }

    constructor(canvas0: Canvas, r: real)
      requires 0.0 <= r < 1.0
      ensures Valid()
      ensures canvas == canvas0 && width == PipeWidth && gap == InitialGap
      ensures x == canvas0.width && !passed && speed == InitialSpeed
      ensures topHeight == RandomTopHeight(r, canvas0.height)
      ensures bottomY == topHeight + gap
      ensures !highlight && shake == 0.0 && opacity == 1.0
    {
      canvas := canvas0;
      width := PipeWidth;
      gap := InitialGap;
      x := canvas0.width;
      passed := false;
      var maxTopHeight := canvas0.height - InitialGap - BottomMargin;
      topHeight := r * (maxTopHeight - MinTopHeight) + MinTopHeight;
      bottomY := r * (maxTopHeight - MinTopHeight) + MinTopHeight + InitialGap;
      speed := InitialSpeed;
      highlight := false;
      shake := 0.0;
      opacity := 1.0;
    }

    /** One frame: the pipe moves left by its speed (no frame time is used),
        the highlight is cleared and a shake decays geometrically. */
    method Update()
      requires Valid()
      modifies this
      ensures Valid()
      ensures x == old(x) - speed
      ensures !highlight
      ensures old(shake) > 0.0 ==> shake == ShakeDecay * old(shake)
      ensures old(shake) <= 0.0 ==> shake == old(shake)
      ensures shake <= old(shake)
      ensures gap == old(gap) && passed == old(passed) && speed == old(speed)
      ensures opacity == old(opacity)
    {
      x := x - speed;
      if highlight {
        highlight := false;
      }
      if shake > 0.0 {
        shake := shake * ShakeDecay;
      }
    }

    /** `getBounds`: both bodies widened by the cap overhang on each side,
        the top body down to the opening, the bottom body from `bottomY` to
        the canvas bottom, and a cap of fixed height at each pipe mouth. */
    function GetBounds(): (b: Bounds)
      reads this
      ensures b.top.x == b.bottom.x == x - CapOverhang
      ensures b.top.width == b.bottom.width == width + 2.0 * CapOverhang
      ensures b.top.y == 0.0 && b.top.height == topHeight
      ensures b.bottom.y == bottomY && b.bottom.y + b.bottom.height == canvas.height
      ensures b.topCap.y + b.topCap.height == topHeight && b.bottomCap.y == bottomY
      ensures b.topCap.height == b.bottomCap.height == CapHeight
    {
      var top := Box(x - CapOverhang, 0.0, width + CapOverhang * 2.0, topHeight);
      var bottom := Box(x - CapOverhang, bottomY, width + CapOverhang * 2.0, canvas.height - bottomY);
      Bounds(top, Box(top.x, topHeight - CapHeight, top.width, CapHeight),
             bottom, Box(bottom.x, bottomY, bottom.width, CapHeight))
    }

    /** The reported boxes are wider than the rectangles the bird is checked
        against: each body box covers the pipe's own column over the same
        height, and the top cap lies inside the top body once the opening
        is at least a cap high (as it is for every constructed pipe). */
    lemma BoundsCoverPipe()
      requires Valid()
      ensures GetBounds().top.Covers(Box(x, 0.0, width, topHeight))
      ensures GetBounds().bottom.Covers(Box(x, bottomY, width, canvas.height - bottomY))
      ensures topHeight >= CapHeight ==> GetBounds().top.Covers(GetBounds().topCap)
      ensures canvas.height - bottomY >= CapHeight ==> GetBounds().bottom.Covers(GetBounds().bottomCap)
    {
    }

    /** `addHitEffect`: highlight on, shake set to 5. */
    method AddHitEffect()
      requires Valid()
      modifies this
      ensures Valid()
      ensures highlight && shake == HitShake
      ensures x == old(x) && gap == old(gap) && passed == old(passed)
      ensures speed == old(speed) && opacity == old(opacity)
    {
      highlight := true;
      shake := HitShake;
    }

    /** `fadeOut`: the pipe is drawn at 70% opacity. */
    method FadeOut()
      requires Valid()
      modifies this
      ensures Valid()
      ensures opacity == FadedOpacity
      ensures x == old(x) && gap == old(gap) && passed == old(passed) && speed == old(speed)
      ensures highlight == old(highlight) && shake == old(shake)
    {
      opacity := FadedOpacity;
    }
  }
}
