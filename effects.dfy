/** Transient visual effects (`utils/EffectManager.js`): score popups,
    particle rings, the level-up flash, the achievement banner, the screen
    shake and the explosion smoke, each with its own per-frame law, held in
    one list that is filtered every frame, plus the two object pools. */
module Effects {
  import opened Common

  const MaxPoolSize: nat := 100

  const PopupRise: real := 2.0
  const FadeStep: real := 0.02
  const PopupGrowth: real := 0.03
  const FlashAlpha: real := 0.6
  const FlashDuration: real := 500.0
  const BannerStep: real := 0.05
  /** How long the banner stays fully shown, in milliseconds. */
  const BannerShowTime: int := 2000
  const SmokeExpansion: real := 1.05
  const SmokeFade: real := 0.95
  const SmokeFloor: real := 0.1

  /** The banner's phase machine: fading in, shown, fading out. */
  datatype Phase = In | Show | Out

  function PhaseRank(p: Phase): nat {
    match p
    case In => 0
    case Show => 1
    case Out => 2
  }

  /** One effect object. A particle keeps its origin, direction and the
      number of moves made: after `steps` moves it sits at
      `origin + steps·speed·(cos angle, sin angle)`. */
  datatype Effect =
    | Popup(x: real, y: real, text: string, alpha: real, scale: real)
    | Particle(originX: real, originY: real, angle: real, speed: real, steps: nat, alpha: real)
    | Flash(alpha: real, startTime: int)
    | Banner(y: real, alpha: real, scale: real, phase: Phase, timer: Option<int>, text: string, icon: string)
    | Shake(intensity: real, duration: real, startTime: int, active: bool, offsetX: real, offsetY: real)
    | Smoke(x: real, y: real, radius: real, alpha: real)

  /** An effect after its `update`, and the boolean that `update` returned. */
  datatype Stepped = Stepped(effect: Effect, alive: bool)

  /** The screen offset on one axis for a random draw: the draw mapped to
      `[-1, 1)` times the intensity scaled down linearly over the duration. */
  function ShakeOffset(draw: real, intensity: real, elapsed: real, duration: real): real
    requires duration != 0.0
  {
    (draw * 2.0 - 1.0) * (intensity * (1.0 - elapsed / duration))
  }

  /** Each effect's `update` at time `now`, with the two random draws a
      shake consumes. */
  function Step(e: Effect, now: int, drawX: real, drawY: real): (r: Stepped)
  {
    match e
    case Popup(x, y, text, alpha, scale) =>
      Stepped(Popup(x, y - PopupRise, text, alpha - FadeStep, scale + PopupGrowth), alpha - FadeStep > 0.0)
    case Particle(ox, oy, angle, speed, steps, alpha) =>
      Stepped(Particle(ox, oy, angle, speed, steps + 1, alpha - FadeStep), alpha - FadeStep > 0.0)
    case Flash(_, startTime) =>
      var elapsed := (now - startTime) as real;
      Stepped(Flash(FlashAlpha * (1.0 - elapsed / FlashDuration), startTime), elapsed < FlashDuration)
    case Banner(y, alpha, scale, phase, timer, text, icon) =>
      var b :=
        match phase
        case In =>
          if alpha + BannerStep >= 1.0
          then Banner(y, alpha + BannerStep, scale + BannerStep, Show, Some(now), text, icon)
          else Banner(y, alpha + BannerStep, scale + BannerStep, In, timer, text, icon)
        case Show =>
          if timer.Some? && now - timer.value > BannerShowTime
          then Banner(y, alpha, scale, Out, timer, text, icon)
          else e
        case Out => Banner(y, alpha - BannerStep, scale, Out, timer, text, icon);
      Stepped(b, b.alpha > 0.0)
    case Shake(intensity, duration, startTime, active, _, _) =>
      var elapsed := (now - startTime) as real;
      if elapsed >= duration || duration == 0.0 then Stepped(Shake(intensity, duration, startTime, false, 0.0, 0.0), false)
      else Stepped(Shake(intensity, duration, startTime, active,
                         ShakeOffset(drawX, intensity, elapsed, duration),
                         ShakeOffset(drawY, intensity, elapsed, duration)), true)
    case Smoke(x, y, radius, alpha) =>
      Stepped(Smoke(x, y, radius * SmokeExpansion, alpha * SmokeFade), alpha * SmokeFade > SmokeFloor)
  }

  /** Every effect keeps its kind across `update`. */
  lemma StepKeepsKind(e: Effect, now: int, drawX: real, drawY: real)
    ensures Step(e, now, drawX, drawY).effect.Popup? == e.Popup?
    ensures Step(e, now, drawX, drawY).effect.Particle? == e.Particle?
    ensures Step(e, now, drawX, drawY).effect.Flash? == e.Flash?
    ensures Step(e, now, drawX, drawY).effect.Banner? == e.Banner?
    ensures Step(e, now, drawX, drawY).effect.Shake? == e.Shake?
    ensures Step(e, now, drawX, drawY).effect.Smoke? == e.Smoke?
  {
  }

  // ----- popups and particles -----

  function NewPopup(x: real, y: real, text: string): Effect {
    Popup(x, y, text, 1.0, 1.0)
  }

  /** `n` updates of a popup, each applied to the result of the previous. */
  function PopupAfter(e: Effect, n: nat): (r: Effect)
    requires e.Popup?
    ensures r.Popup?
    decreases n
  {
    if n == 0 then e else Step(PopupAfter(e, n - 1), 0, 0.0, 0.0).effect
  }

  /** After `n` updates a new popup has risen by 2n, faded by 0.02n and
      grown by 0.03n. */
  lemma {:induction false} PopupAfterClosedForm(x: real, y: real, text: string, n: nat)
    ensures PopupAfter(NewPopup(x, y, text), n)
      == Popup(x, y - PopupRise * n as real, text, 1.0 - FadeStep * n as real, 1.0 + PopupGrowth * n as real)
  {
    if n > 0 {
      PopupAfterClosedForm(x, y, text, n - 1);
    }
  }

  /** A popup survives its `n`-th update exactly when `n < 50`: every popup
      disappears after fifty frames. */
  lemma PopupLifetime(x: real, y: real, text: string, n: nat)
    requires n >= 1
    ensures Step(PopupAfter(NewPopup(x, y, text), n - 1), 0, 0.0, 0.0).alive <==> n < 50
  {
    PopupAfterClosedForm(x, y, text, n - 1);
  }

  /** The `i`-th of `count` particles spread evenly round a full turn. */
  function RingParticle(x: real, y: real, count: nat, speed: real, i: nat): Effect
    requires i < count
  {
    Particle(x, y, Pi * 2.0 * i as real / count as real, speed, 0, 1.0)
  }

  /** The particles `addParticles` appends, in order. */
  function Ring(x: real, y: real, count: nat, speed: real): (ring: seq<Effect>)
    ensures |ring| == count
    ensures forall i :: 0 <= i < count ==> ring[i] == RingParticle(x, y, count, speed, i)
  {
    seq(count, i requires 0 <= i < count => RingParticle(x, y, count, speed, i))
  }

  /** A particle that has survived `k` updates since it was made. */
  function ParticleAfter(e: Effect, n: nat): (r: Effect)
    requires e.Particle?
    ensures r.Particle?
    decreases n
  {
    if n == 0 then e else Step(ParticleAfter(e, n - 1), 0, 0.0, 0.0).effect
  }

  /** Each particle of a ring starts opaque, has moved `n` times after `n`
      updates, and survives its `n`-th update exactly when `n < 50`. */
  lemma {:induction false} ParticleLifetime(x: real, y: real, count: nat, speed: real, i: nat, n: nat)
    requires i < count
    ensures ParticleAfter(RingParticle(x, y, count, speed, i), n).steps == n
    ensures ParticleAfter(RingParticle(x, y, count, speed, i), n).alpha == 1.0 - FadeStep * n as real
    ensures n >= 1 ==> (Step(ParticleAfter(RingParticle(x, y, count, speed, i), n - 1), 0, 0.0, 0.0).alive <==> n < 50)
  {
    if n > 0 {
      ParticleLifetime(x, y, count, speed, i, n - 1);
    }
  }

  // ----- level-up flash -----

  /** The flash lives for 500 ms from its start and is visible while alive;
      its opacity falls from 0.6 as time passes. */
  lemma FlashLaw(alpha: real, startTime: int, now: int)
    ensures Step(Flash(alpha, startTime), now, 0.0, 0.0).alive <==> now - startTime < 500
    ensures Step(Flash(alpha, startTime), now, 0.0, 0.0).alive ==> Step(Flash(alpha, startTime), now, 0.0, 0.0).effect.alpha > 0.0
    ensures now >= startTime ==> Step(Flash(alpha, startTime), now, 0.0, 0.0).effect.alpha <= FlashAlpha
  {
  }

  // ----- achievement banner -----

  function NewBanner(canvasHeight: real, text: string, icon: string): Effect {
    Banner(canvasHeight * 0.3, 0.0, 0.5, In, None, text, icon)
  }

  /** The phase only moves forward, and the banner only fades in its last
      phase; it is alive exactly while it is visible. */
  lemma BannerPhaseMonotone(e: Effect, now: int)
    requires e.Banner?
    ensures Step(e, now, 0.0, 0.0).effect.Banner?
    ensures PhaseRank(Step(e, now, 0.0, 0.0).effect.phase) >= PhaseRank(e.phase)
    ensures Step(e, now, 0.0, 0.0).effect.alpha < e.alpha ==> e.phase == Out
    ensures Step(e, now, 0.0, 0.0).alive <==> Step(e, now, 0.0, 0.0).effect.alpha > 0.0
  {
  }

  /** Leaving the in phase needs an opacity of 1; leaving the show phase
      needs more than two seconds since it was entered. */
  lemma BannerTransitions(e: Effect, now: int)
    requires e.Banner?
    ensures e.phase == In && Step(e, now, 0.0, 0.0).effect.phase == Show ==>
      Step(e, now, 0.0, 0.0).effect.alpha >= 1.0 && Step(e, now, 0.0, 0.0).effect.timer == Some(now)
    ensures e.phase == Show && Step(e, now, 0.0, 0.0).effect.phase == Out ==>
      e.timer.Some? && now - e.timer.value > BannerShowTime
  {
  }

  /** `n` banner updates at the same time `now`. */
  function BannerAfter(e: Effect, n: nat, now: int): (r: Effect)
    requires e.Banner?
    ensures r.Banner?
    decreases n
  {
    if n == 0 then e else Step(BannerAfter(e, n - 1, now), now, 0.0, 0.0).effect
  }

  /** A new banner fades in over exactly twenty updates, its opacity rising
      by 0.05 each time, and is then shown. */
  lemma {:induction false} BannerFadeIn(canvasHeight: real, text: string, icon: string, n: nat, now: int)
    requires n <= 20
    ensures BannerAfter(NewBanner(canvasHeight, text, icon), n, now).alpha == BannerStep * n as real
    ensures BannerAfter(NewBanner(canvasHeight, text, icon), n, now).phase == if n < 20 then In else Show
  {
    if n > 0 {
      BannerFadeIn(canvasHeight, text, icon, n - 1, now);
    }
  }

  // ----- screen shake -----

  lemma UnitFraction(elapsed: real, duration: real)
    requires 0.0 <= elapsed < duration
    ensures 0.0 < 1.0 - elapsed / duration <= 1.0
  {
  }

  lemma FractionOf(t: real, d: real)
    requires 0.0 <= t <= 1.0 && d >= 0.0
    ensures 0.0 <= d * t <= d
  {
  }

  lemma ProductNonneg(a: real, b: real)
    requires 0.0 <= a && 0.0 <= b
    ensures 0.0 <= a * b
  {
  }

  /** A factor in `[-1, 1]` keeps a value in `[0, bound]` within `bound`. */
  lemma JitterWithin(j: real, c: real, bound: real)
    requires -1.0 <= j <= 1.0 && 0.0 <= c <= bound
    ensures -bound <= j * c <= bound
  {
    ProductNonneg(1.0 - j, c);
    ProductNonneg(1.0 + j, c);
    assert (1.0 - j) * c == c - j * c;
    assert (1.0 + j) * c == c + j * c;
  }

  /** While the shake lasts, each offset stays within its intensity. */
  lemma ShakeOffsetBounded(draw: real, intensity: real, elapsed: real, duration: real)
    requires 0.0 <= draw < 1.0 && intensity >= 0.0 && 0.0 <= elapsed < duration
    ensures -intensity <= ShakeOffset(draw, intensity, elapsed, duration) <= intensity
  {
    var decay := 1.0 - elapsed / duration;
    UnitFraction(elapsed, duration);
    var current := intensity * decay;
    FractionOf(decay, intensity);
    var jitter := draw * 2.0 - 1.0;
    JitterWithin(jitter, current, intensity);
    assert ShakeOffset(draw, intensity, elapsed, duration) == jitter * current;
  }

  /** A shake ends, with its offset reset, once its duration has passed. */
  lemma ShakeEnds(e: Effect, now: int, drawX: real, drawY: real)
    requires e.Shake? && (now - e.startTime) as real >= e.duration
    ensures !Step(e, now, drawX, drawY).alive
    ensures !Step(e, now, drawX, drawY).effect.active
    ensures Step(e, now, drawX, drawY).effect.offsetX == 0.0 == Step(e, now, drawX, drawY).effect.offsetY
  {
  }

  // ----- smoke -----

  function NewSmoke(x: real, y: real): Effect {
    Smoke(x, y, 2.0, 0.8)
  }

  /** Whether a smoke puff survives `n` consecutive updates, and the puff
      after them. */
  function SmokeAfter(e: Effect, n: nat): (r: Stepped)
    requires e.Smoke?
    ensures r.effect.Smoke?
    decreases n
  {
    if n == 0 then Stepped(e, true)
    else
      var prev := SmokeAfter(e, n - 1);
      var next := Step(prev.effect, 0, 0.0, 0.0);
      Stepped(next.effect, prev.alive && next.alive)
  }

  /** While a puff lives, each update takes at least 0.005 off its opacity. */
  lemma {:induction false} SmokeFadesSteadily(x: real, y: real, n: nat)
    requires SmokeAfter(NewSmoke(x, y), n).alive
    ensures SmokeAfter(NewSmoke(x, y), n).effect.alpha <= 0.8 - 0.005 * n as real
    ensures n >= 1 ==> SmokeAfter(NewSmoke(x, y), n).effect.alpha > SmokeFloor
  {
    if n > 0 {
      var prev := SmokeAfter(NewSmoke(x, y), n - 1);
      SmokeFadesSteadily(x, y, n - 1);
      assert prev.effect.alpha > SmokeFloor by {
        if n - 1 == 0 {
        } else {
          SmokeFadesSteadily(x, y, n - 1);
        }
      }
    }
  }

  /** No puff survives 140 updates. */
  lemma SmokeLifetime(x: real, y: real, n: nat)
    requires SmokeAfter(NewSmoke(x, y), n).alive
    ensures n < 140
  {
    SmokeFadesSteadily(x, y, n);
  }

  /** Smoke grows while it fades. */
  lemma SmokeGrows(e: Effect)
    requires e.Smoke? && e.radius > 0.0
    ensures Step(e, 0, 0.0, 0.0).effect.radius > e.radius
  {
  }

  // ----- the list -----

  /** The list after `update`: every effect stepped once, those that stay
      alive kept in their order. */
  function Survivors(effects: seq<Effect>, now: int, drawsX: seq<real>, drawsY: seq<real>): (kept: seq<Effect>)
    requires |drawsX| == |drawsY| == |effects|
    ensures |kept| <= |effects|
    decreases |effects|
  {
    if effects == [] then []
    else
      var last := |effects| - 1;
      var s := Step(effects[last], now, drawsX[last], drawsY[last]);
      Survivors(effects[..last], now, drawsX[..last], drawsY[..last]) + (if s.alive then [s.effect] else [])
  }

  /** An effect is kept exactly when it is the stepped form of some effect
      whose `update` answered true. */
  lemma {:induction false} SurvivorsMembership(effects: seq<Effect>, now: int, drawsX: seq<real>, drawsY: seq<real>, e: Effect)
    requires |drawsX| == |drawsY| == |effects|
    ensures e in Survivors(effects, now, drawsX, drawsY) <==>
      exists i :: 0 <= i < |effects| && Step(effects[i], now, drawsX[i], drawsY[i]) == Stepped(e, true)
    decreases |effects|
  {
    if effects != [] {
      var last := |effects| - 1;
      SurvivorsMembership(effects[..last], now, drawsX[..last], drawsY[..last], e);
      if e in Survivors(effects, now, drawsX, drawsY) {
        if e in Survivors(effects[..last], now, drawsX[..last], drawsY[..last]) {
          var i :| 0 <= i < last && Step(effects[..last][i], now, drawsX[..last][i], drawsY[..last][i]) == Stepped(e, true);
          assert Step(effects[i], now, drawsX[i], drawsY[i]) == Stepped(e, true);
        }
      }
      if exists i :: 0 <= i < |effects| && Step(effects[i], now, drawsX[i], drawsY[i]) == Stepped(e, true) {
        var i :| 0 <= i < |effects| && Step(effects[i], now, drawsX[i], drawsY[i]) == Stepped(e, true);
        if i < last {
          assert Step(effects[..last][i], now, drawsX[..last][i], drawsY[..last][i]) == Stepped(e, true);
        }
      }
    }
  }

  /** Effects that have all finished leave nothing behind. */
  lemma {:induction false} SurvivorsNone(effects: seq<Effect>, now: int, drawsX: seq<real>, drawsY: seq<real>)
    requires |drawsX| == |drawsY| == |effects|
    requires forall i :: 0 <= i < |effects| ==> !Step(effects[i], now, drawsX[i], drawsY[i]).alive
    ensures Survivors(effects, now, drawsX, drawsY) == []
    decreases |effects|
  {
    if effects != [] {
      var last := |effects| - 1;
      SurvivorsNone(effects[..last], now, drawsX[..last], drawsY[..last]);
    }
  }

  /** The pools that `getFromPool` and `returnToPool` name. */
  datatype PoolKind = Particles | Popups

  class EffectManager {
    const canvas: Canvas
    var effects: seq<Effect>
    var pools: map<PoolKind, seq<Effect>>

    predicate Valid()
      reads this`pools
    {
      pools.Keys == {Particles, Popups}
      && |pools[Particles]| <= MaxPoolSize && |pools[Popups]| <= MaxPoolSize
    }

    constructor(canvas0: Canvas)
      ensures Valid() && canvas == canvas0 && effects == []
      ensures pools == map[Particles := [], Popups := []]
    {
      canvas := canvas0;
      effects := [];
      pools := map[Particles := [], Popups := []];
    }

    /** `getFromPool(kind, create)`: the last pooled object, removed from the
        pool, or else the freshly created one. */
    method GetFromPool(kind: PoolKind, created: Effect) returns (e: Effect)
      requires Valid()
      modifies this
      ensures Valid() && effects == old(effects)
      ensures old(|pools[kind]|) > 0 ==>
        e == old(pools[kind][|pools[kind]| - 1]) && pools == old(pools[kind := pools[kind][..|pools[kind]| - 1]])
      ensures old(|pools[kind]|) == 0 ==> e == created && pools == old(pools)
    {
      var pool := pools[kind];
      if |pool| > 0 {
        e := pool[|pool| - 1];
        pools := pools[kind := pool[..|pool| - 1]];
      } else {
        e := created;
      }
    }

    /** `returnToPool(kind, e)`: pooled unless the pool is full. */
    method ReturnToPool(kind: PoolKind, e: Effect)
      requires Valid()
      modifies this
      ensures Valid() && effects == old(effects)
      ensures old(|pools[kind]|) < MaxPoolSize ==> pools == old(pools[kind := pools[kind] + [e]])
      ensures old(|pools[kind]|) >= MaxPoolSize ==> pools == old(pools)
    {
      var pool := pools[kind];
      if |pool| < MaxPoolSize {
        pools := pools[kind := pool + [e]];
      }
    }

    /** `update`: each effect's `update` once, in order, keeping those that
        answer true. The random draws feed the shakes. */
    method Update(now: int, drawsX: seq<real>, drawsY: seq<real>)
      requires Valid() && |drawsX| == |drawsY| == |effects|
      modifies this
      ensures Valid() && pools == old(pools)
      ensures effects == Survivors(old(effects), now, drawsX, drawsY)
    {
      var kept: seq<Effect> := [];
      var i := 0;
      while i < |effects|
        invariant 0 <= i <= |effects|
        invariant kept == Survivors(effects[..i], now, drawsX[..i], drawsY[..i])
      {
        var s := Step(effects[i], now, drawsX[i], drawsY[i]);
        if s.alive {
          kept := kept + [s.effect];
        }
        assert effects[..i + 1][..i] == effects[..i];
        assert drawsX[..i + 1][..i] == drawsX[..i];
        assert drawsY[..i + 1][..i] == drawsY[..i];
        i := i + 1;
      }
      assert effects[..i] == effects && drawsX[..i] == drawsX && drawsY[..i] == drawsY;
      effects := kept;
    }

    /** `clear`: the list is emptied. No effect built here carries a pool
        kind, so nothing goes back to a pool. */
    method Clear()
      requires Valid()
      modifies this
      ensures Valid() && effects == [] && pools == old(pools)
    {
      effects := [];
    }

    /** `addScorePopup`. */
    method AddScorePopup(x: real, y: real, text: string)
      modifies this`effects
      ensures effects == old(effects) + [NewPopup(x, y, text)] && pools == old(pools)
    {
      effects := effects + [Popup(x, y, text, 1.0, 1.0)];
    }

    /** `addParticles`: `count` particles at angles `2πi/count`. */
    method AddParticles(x: real, y: real, count: nat, speed: real)
      modifies this`effects
      ensures effects == old(effects) + Ring(x, y, count, speed) && pools == old(pools)
    {
      var i := 0;
      while i < count
        invariant 0 <= i <= count
        invariant effects == old(effects) + Ring(x, y, count, speed)[..i]
        invariant pools == old(pools)
      {
        var angle := Pi * 2.0 * i as real / count as real;
        effects := effects + [Particle(x, y, angle, speed, 0, 1.0)];
        assert Ring(x, y, count, speed)[..i + 1] == Ring(x, y, count, speed)[..i] + [RingParticle(x, y, count, speed, i)];
        i := i + 1;
      }
      assert Ring(x, y, count, speed)[..count] == Ring(x, y, count, speed);
    }

    /** `addLevelUpEffect`, started at `now`. */
    method AddLevelUpEffect(now: int)
      modifies this`effects
      ensures effects == old(effects) + [Flash(FlashAlpha, now)] && pools == old(pools)
    {
      effects := effects + [Flash(FlashAlpha, now)];
    }

    /** `addAchievementEffect`: a banner 30% of the way down the canvas,
        invisible, half size, fading in. */
    method AddAchievementEffect(text: string, icon: string)
      modifies this`effects
      ensures effects == old(effects) + [NewBanner(canvas.height, text, icon)] && pools == old(pools)
    {
      effects := effects + [Banner(canvas.height * 0.3, 0.0, 0.5, In, None, text, icon)];
    }

    /** `addScreenShake(intensity, duration)`, started at `now`. */
    method AddScreenShake(intensity: real, duration: real, now: int)
      modifies this`effects
      ensures effects == old(effects) + [Shake(intensity, duration, now, true, 0.0, 0.0)]
      ensures pools == old(pools)
    {
      effects := effects + [Shake(intensity, duration, now, true, 0.0, 0.0)];
    }

    /** `addExplosion`: twenty fast red particles, fifteen slower gold ones
        and a smoke puff, thirty-six effects in all. */
    method AddExplosion(x: real, y: real)
      modifies this`effects
      ensures effects == old(effects) + Ring(x, y, 20, 4.0) + Ring(x, y, 15, 3.0) + [NewSmoke(x, y)]
      ensures |effects| == old(|effects|) + 36
      ensures pools == old(pools)
    {
      AddParticles(x, y, 20, 4.0);
      AddParticles(x, y, 15, 3.0);
      effects := effects + [Smoke(x, y, 2.0, 0.8)];
    }
  }
}
