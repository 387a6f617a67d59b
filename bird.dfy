/** The player's bird (`utils/Bird.js`): flap impulse, gravity with clamped
    velocity, the tilt that follows the velocity, the wing phase, and the
    circular hitbox checked against a pipe. */
module BirdActor {
  import opened Common
  import opened Collision
  import Obstacle

  const Gravity: real := 0.4
  const FlapPower: real := -7.0
  /** The fastest upward speed; a flap is refused at or beyond it. */
  const MinVelocity: real := -8.0
  /** The fastest fall. */
  const TerminalVelocity: real := 12.0
  const Width: real := 40.0
  const Height: real := 30.0
  const MaxRotation: real := 45.0
  const MinRotation: real := -25.0
  const RotationSpeed: real := 3.0
  const WingSpeed: real := 0.15
  /** `width / 2.5`. */
  const HitboxRadius: real := 16.0

  /** The velocity clamp of `update`: above terminal velocity it becomes
      terminal velocity, below the minimum it becomes the minimum. */
  function ClampVelocity(v: real): (c: real)
    ensures MinVelocity <= c <= TerminalVelocity
    ensures MinVelocity <= v <= TerminalVelocity ==> c == v
    ensures v > TerminalVelocity ==> c == TerminalVelocity
    ensures v < MinVelocity ==> c == MinVelocity
  {
    if v > TerminalVelocity then TerminalVelocity
    else if v < MinVelocity then MinVelocity
    else v
  }

  /** The rotation clamp of `update`. */
  function ClampRotation(rot: real): (c: real)
    ensures MinRotation <= c <= MaxRotation
    ensures MinRotation <= rot <= MaxRotation ==> c == rot
    ensures rot > MaxRotation ==> c == MaxRotation
    ensures rot < MinRotation ==> c == MinRotation
  {
    if rot > MaxRotation then MaxRotation
    else if rot < MinRotation then MinRotation
    else rot
  }

  /** The tilt `update` eases towards while falling: proportional to the
      speed, capped at the maximum rotation. */
  function RotationTarget(velocity: real): (t: real)
    ensures t <= MaxRotation
    ensures 0.0 < velocity ==> 0.0 < t
  {
    Min(MaxRotation, velocity / TerminalVelocity * MaxRotation)
  }

  /** The rotation after `update` given the already clamped velocity: eased
      towards the target while falling, snapped to the minimum while rising
      or still, then clamped. */
  function NextRotation(velocity: real, rotation: real, dt: real): (r: real)
    ensures MinRotation <= r <= MaxRotation
    ensures velocity <= 0.0 ==> r == MinRotation
  {
    var eased := if velocity > 0.0
      then rotation + (RotationTarget(velocity) - rotation) * RotationSpeed * dt
      else MinRotation;
    ClampRotation(eased)
  }

  /** The wing phase after `update`: advanced, and reset to 0 on reaching a
      full turn. */
  function NextWingAngle(wingAngle: real, dt: real): (w: real)
    ensures w < 2.0 * Pi
    ensures 0.0 <= wingAngle && 0.0 <= dt ==> 0.0 <= w
    ensures w == 0.0 || w == wingAngle + WingSpeed * dt * 60.0
  {
    var advanced := wingAngle + WingSpeed * dt * 60.0;
    if advanced >= Pi * 2.0 then 0.0 else advanced
  }

  /** `checkCollision` on the hitbox centre and the pipe's own values: the
      canvas edges, then the two pipe rectangles. */
  predicate HitsPipe(cx: real, cy: real, canvasHeight: real, p: Obstacle.Pipe)
    reads p
  {
    CircleHitsPipe(cx, cy, HitboxRadius, canvasHeight, p.x, p.width, p.topHeight, p.bottomY)
  }

  class Bird {
    const canvas: Canvas
    const x: real
    var y: real
    var velocity: real
    var rotation: real
    var wingAngle: real
    /** Unset until the first `update`. */
    var previousY: Option<real>
    var hitboxX: real
    var hitboxY: real

    /** The ranges `update` keeps. */
    predicate Valid()
      reads this`velocity, this`rotation, this`wingAngle, this`hitboxX
    {
      MinVelocity <= velocity <= TerminalVelocity
      && MinRotation <= rotation <= MaxRotation
      && wingAngle < 2.0 * Pi
      && hitboxX == x
    }

    constructor(x0: real, y0: real, canvas0: Canvas)
      ensures Valid()
      ensures canvas == canvas0 && x == x0 && y == y0
      ensures velocity == 0.0 && rotation == 0.0 && wingAngle == 0.0
      ensures previousY == None && hitboxX == x0 && hitboxY == y0
    {
      canvas := canvas0;
      x := x0;
      y := y0;
      velocity := 0.0;
      rotation := 0.0;
      wingAngle := 0.0;
      previousY := None;
      hitboxX := x0;
      hitboxY := y0;
    }

    /** `flap`: only while the bird is not already rising at full speed, the
        velocity becomes the flap impulse, the tilt points up and the wing
        animation restarts; otherwise nothing changes. */
    method Flap()
      requires Valid()
      modifies this
      ensures Valid()
      ensures old(velocity) > MinVelocity ==>
        velocity == FlapPower && rotation == MinRotation && wingAngle == 0.0
      ensures old(velocity) <= MinVelocity ==>
        velocity == old(velocity) && rotation == old(rotation) && wingAngle == old(wingAngle)
      ensures y == old(y) && previousY == old(previousY)
      ensures hitboxX == old(hitboxX) && hitboxY == old(hitboxY)
    {
      if velocity > MinVelocity {
        velocity := FlapPower;
        rotation := MinRotation;
        wingAngle := 0.0;
      }
    }

    /** `update(dt)`: gravity, velocity clamp, fall, tilt, wing phase, and
        the hitbox moved to the new position. */
    method Update(dt: real)
      requires Valid()
      modifies this
      ensures Valid()
      ensures velocity == ClampVelocity(old(velocity) + Gravity * dt * 60.0)
      ensures y == old(y) + velocity * dt * 50.0
      ensures rotation == NextRotation(velocity, old(rotation), dt)
      ensures wingAngle == NextWingAngle(old(wingAngle), dt)
      ensures previousY == Some(old(y))
      ensures hitboxX == x && hitboxY == y
    {
      previousY := Some(y);
      velocity := velocity + Gravity * dt * 60.0;
      if velocity > TerminalVelocity {
        velocity := TerminalVelocity;
      } else if velocity < MinVelocity {
        velocity := MinVelocity;
      }
      y := y + velocity * dt * 50.0;
      rotation := NextRotation(velocity, rotation, dt);
      wingAngle := wingAngle + WingSpeed * dt * 60.0;
      if wingAngle >= Pi * 2.0 {
        wingAngle := 0.0;
      }
      hitboxX := x;
      hitboxY := y;
    }

    /** `checkCollision(pipe)`, read from the hitbox (which the game does
        not move when it clamps `y`). */
    predicate CheckCollision(p: Obstacle.Pipe)
      reads this, p
    {
      HitsPipe(hitboxX, hitboxY, canvas.height, p)
    }
  }

  /** Whatever the pipe, a hitbox touching the ceiling or the canvas bottom
      collides. */
  lemma EdgeAlwaysCollides(cx: real, cy: real, canvasHeight: real, p: Obstacle.Pipe)
    requires cy - HitboxRadius <= 0.0 || cy + HitboxRadius >= canvasHeight
    ensures HitsPipe(cx, cy, canvasHeight, p)
  {
    EdgeHitIgnoresPipe(cx, cy, HitboxRadius, canvasHeight, p.x, p.width, p.topHeight, p.bottomY);
  }

  /** Away from the edges, `checkCollision` holds exactly when some point of
      the top pipe `[x, x+width]×[0, topHeight]` or of the bottom pipe
      `[x, x+width]×[bottomY, height]` lies strictly within the hitbox. */
  lemma PipeHitMeansOverlap(cx: real, cy: real, canvasHeight: real, p: Obstacle.Pipe)
    requires p.Valid() && 0.0 <= p.topHeight && p.bottomY <= canvasHeight
    requires 0.0 < cy - HitboxRadius && cy + HitboxRadius < canvasHeight
    ensures HitsPipe(cx, cy, canvasHeight, p) <==>
      (exists px, py :: TopPipeRect(p.x, p.width, p.topHeight).Contains(px, py)
                        && DistSq(cx, cy, px, py) < HitboxRadius * HitboxRadius)
      || (exists px, py :: BottomPipeRect(p.x, p.width, p.bottomY, canvasHeight).Contains(px, py)
                           && DistSq(cx, cy, px, py) < HitboxRadius * HitboxRadius)
  {
    CollisionMeansOverlap(cx, cy, HitboxRadius, TopPipeRect(p.x, p.width, p.topHeight));
    CollisionMeansOverlap(cx, cy, HitboxRadius, BottomPipeRect(p.x, p.width, p.bottomY, canvasHeight));
  }

  /** A hitbox centred inside either pipe rectangle collides. */
  lemma CentreInPipeCollides(cx: real, cy: real, canvasHeight: real, p: Obstacle.Pipe)
    requires TopPipeRect(p.x, p.width, p.topHeight).Contains(cx, cy)
          || BottomPipeRect(p.x, p.width, p.bottomY, canvasHeight).Contains(cx, cy)
    ensures HitsPipe(cx, cy, canvasHeight, p)
  {
    if TopPipeRect(p.x, p.width, p.topHeight).Contains(cx, cy) {
      CentreInsideCollides(cx, cy, HitboxRadius, TopPipeRect(p.x, p.width, p.topHeight));
    } else {
      CentreInsideCollides(cx, cy, HitboxRadius, BottomPipeRect(p.x, p.width, p.bottomY, canvasHeight));
    }
  }
}
