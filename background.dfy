/** The scrolling background and its ground strip (`utils/Background.js`). */
module Scenery {
  import opened Common

  const InitialSpeed: real := 2.0
  const GrassHeight: real := 20.0
  /** Height of the ground strip, grass included, above the canvas bottom. */
  const GroundHeight: real := 100.0

  /** One scroll step: move left by the speed and jump back to 0 once a whole
      image width has gone by. With a non-negative speed this keeps the
      offset in `(-width, 0]`. */
  function Scrolled(x: real, speed: real, width: real): (nx: real)
    ensures 0.0 <= speed && -width < x <= 0.0 ==> -width < nx <= 0.0
    ensures nx == 0.0 || nx == x - speed
    ensures x - speed > -width ==> nx == x - speed
  {
    if x - speed <= -width then 0.0 else x - speed
  }

  class Background {
    const canvas: Canvas
    const width: real
    const height: real
    const grassHeight: real
    const groundY: real
    var speed: real
    var x: real

    constructor(canvas0: Canvas)
      ensures canvas == canvas0 && width == canvas0.width && height == canvas0.height
      ensures speed == InitialSpeed && x == 0.0
      ensures grassHeight == GrassHeight && groundY == height - GroundHeight
    {
      canvas := canvas0;
      width := canvas0.width;
      height := canvas0.height;
      speed := InitialSpeed;
      x := 0.0;
      grassHeight := GrassHeight;
      groundY := canvas0.height - GroundHeight;
    }

    /** `update`: one scroll step (no frame time is used). */
    method Update()
      modifies this
      ensures x == Scrolled(old(x), speed, width)
      ensures speed == old(speed)
    {
      x := x - speed;
      if x <= -width {
        x := 0.0;
      }
    }

    /** `checkGroundCollision`: the circle reaches the top of the grass. */
    predicate CheckGroundCollision(birdY: real, birdRadius: real)
      reads this
    {
      birdY + birdRadius >= groundY - grassHeight
    }

    /** For a background built from a canvas, the ground test is a fixed
        line 120 above the canvas bottom. */
    lemma GroundLine(birdY: real, birdRadius: real)
      requires grassHeight == GrassHeight && groundY == height - GroundHeight
      ensures CheckGroundCollision(birdY, birdRadius) <==> birdY + birdRadius >= height - 120.0
    {
    }

    /** Lower is never safer: a hit at `y1` is a hit at every `y2 >= y1`. */
    lemma GroundCollisionMonotone(y1: real, y2: real, birdRadius: real)
      requires CheckGroundCollision(y1, birdRadius) && y1 <= y2
      ensures CheckGroundCollision(y2, birdRadius)
    {
    }
  }
}
