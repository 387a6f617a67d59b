/** The start-screen hints (`utils/TutorialManager.js`): an opacity that
    pulses between 0.5 and 1, and three hints shown in turn, one every two
    seconds. */
module Tutorial {
  import opened Common

  const PulseSpeed: real := 0.02
  const MinAlpha: real := 0.5
  const MaxAlpha: real := 1.0
  /** Milliseconds a hint stays before the next one. */
  const StepChangeInterval: int := 2000
  const StepCount: nat := 3

  datatype Hint = Hint(text: string, y: real, icon: string)

  /** The three hints, at 40%, 50% and 60% of the canvas height. */
  function Hints(canvasHeight: real): (hints: seq<Hint>)
    ensures |hints| == StepCount
    ensures canvasHeight >= 0.0 ==> forall i :: 0 <= i < |hints| - 1 ==> hints[i].y <= hints[i + 1].y
  {
    [ Hint("点击屏幕让小鸟飞翔", canvasHeight * 0.4, "👆"),
      Hint("穿过管道得分", canvasHeight * 0.5, "⭐"),
      Hint("避免碰撞", canvasHeight * 0.6, "💥") ]
  }

  /** The pulse state: the opacity and the direction it is moving in. */
  datatype Pulse = Pulse(alpha: real, direction: real)

  predicate PulseValid(p: Pulse) {
    MinAlpha <= p.alpha <= MaxAlpha && (p.direction == -1.0 || p.direction == 1.0)
  }

  /** One pulse step of `update`: move by the pulse speed in the current
      direction; at or past the floor, sit on it and turn upwards; at or past
      the ceiling, sit on it and turn downwards. */
  function PulseStep(p: Pulse): (q: Pulse)
    ensures MinAlpha <= q.alpha <= MaxAlpha
    ensures p.direction == -1.0 || p.direction == 1.0 ==> PulseValid(q)
    ensures q.alpha == MinAlpha ==> q.direction == 1.0
    ensures q.alpha == MaxAlpha ==> q.direction == -1.0
    ensures MinAlpha < q.alpha < MaxAlpha ==> q == Pulse(p.alpha + p.direction * PulseSpeed, p.direction)
  {
    var a := p.alpha + p.direction * PulseSpeed;
    if a <= MinAlpha then Pulse(MinAlpha, 1.0)
    else if a >= MaxAlpha then Pulse(MaxAlpha, -1.0)
    else Pulse(a, p.direction)
  }

  /** `n` pulse steps. */
  function PulseAfter(p: Pulse, n: nat): Pulse
    decreases n
  {
    if n == 0 then p else PulseStep(PulseAfter(p, n - 1))
  }

  /** Starting from full opacity and fading, the opacity drops by 0.02 a
      step for 24 steps. */
  lemma {:induction false} FadingClosedForm(n: nat)
    requires n < 25
    ensures PulseAfter(Pulse(MaxAlpha, -1.0), n) == Pulse(MaxAlpha - n as real * PulseSpeed, -1.0)
  {
    if n > 0 {
      FadingClosedForm(n - 1);
    }
  }

  /** Starting at the floor and brightening, the opacity rises by 0.02 a
      step for 24 steps. */
  lemma {:induction false} BrighteningClosedForm(n: nat)
    requires n < 25
    ensures PulseAfter(Pulse(MinAlpha, 1.0), n) == Pulse(MinAlpha + n as real * PulseSpeed, 1.0)
  {
    if n > 0 {
      BrighteningClosedForm(n - 1);
    }
  }

  lemma {:induction false} PulseAfterAdd(p: Pulse, m: nat, n: nat)
    ensures PulseAfter(p, m + n) == PulseAfter(PulseAfter(p, m), n)
    decreases n
  {
    if n > 0 {
      PulseAfterAdd(p, m, n - 1);
    }
  }

  /** The pulse is periodic: from full opacity it takes 25 steps to reach
      the floor, 25 more to come back, so every 50 steps the state repeats. */
  lemma PulsePeriod()
    ensures PulseAfter(Pulse(MaxAlpha, -1.0), 25) == Pulse(MinAlpha, 1.0)
    ensures PulseAfter(Pulse(MinAlpha, 1.0), 25) == Pulse(MaxAlpha, -1.0)
    ensures PulseAfter(Pulse(MaxAlpha, -1.0), 50) == Pulse(MaxAlpha, -1.0)
  {
    FadingClosedForm(24);
    BrighteningClosedForm(24);
    PulseAfterAdd(Pulse(MaxAlpha, -1.0), 25, 25);
  }

  /** The hint cursor after `update` at time `now`: the next hint, round
      the cycle, once more than the interval has passed since the last
      change. */
  function NextStep(step: nat, lastStepChange: int, now: int): (next: nat)
    requires step < StepCount
    ensures next < StepCount
    ensures now - lastStepChange > StepChangeInterval ==> next == (step + 1) % StepCount
    ensures now - lastStepChange <= StepChangeInterval ==> next == step
  {
    if now - lastStepChange > StepChangeInterval then (step + 1) % StepCount else step
  }

  /** Every hint is shown: three changes from any hint come back to it. */
  lemma StepCycle(step: nat)
    requires step < StepCount
    ensures (((step + 1) % StepCount + 1) % StepCount + 1) % StepCount == step
    ensures (step + 1) % StepCount != step
  {
  }

  class TutorialManager {
    const canvas: Canvas
    const steps: seq<Hint>
    var isActive: bool
    var alpha: real
    var pulseDirection: real
    var currentStep: nat
    var lastStepChange: int

    predicate Valid()
      reads this
    {
      PulseValid(Pulse(alpha, pulseDirection))
      && |steps| == StepCount && currentStep < StepCount
    }

    /** A fresh manager: active, fully opaque, fading, first hint, timed
        from `now`. */
    constructor(canvas0: Canvas, now: int)
      ensures Valid() && canvas == canvas0 && steps == Hints(canvas0.height)
      ensures isActive && alpha == MaxAlpha && pulseDirection == -1.0
      ensures currentStep == 0 && lastStepChange == now
    {
      canvas := canvas0;
      isActive := true;
      alpha := 1.0;
      pulseDirection := -1.0;
      steps := Hints(canvas0.height);
      currentStep := 0;
      lastStepChange := now;
    }

    /** `update` at time `now` (the frame time it is given is not used):
        nothing while inactive; otherwise one pulse step and, when the
        interval has passed, the next hint. */
    method Update(now: int)
      requires Valid()
      modifies this
      ensures Valid() && isActive == old(isActive)
      ensures !old(isActive) ==>
        alpha == old(alpha) && pulseDirection == old(pulseDirection)
        && currentStep == old(currentStep) && lastStepChange == old(lastStepChange)
      ensures old(isActive) ==>
        Pulse(alpha, pulseDirection) == PulseStep(Pulse(old(alpha), old(pulseDirection)))
        && currentStep == NextStep(old(currentStep), old(lastStepChange), now)
        && lastStepChange == (if now - old(lastStepChange) > StepChangeInterval then now else old(lastStepChange))
    {
      if !isActive {
        return;
      }
      alpha := alpha + pulseDirection * PulseSpeed;
      if alpha <= MinAlpha {
        alpha := MinAlpha;
        pulseDirection := 1.0;
      } else if alpha >= MaxAlpha {
        alpha := MaxAlpha;
        pulseDirection := -1.0;
      }
      if now - lastStepChange > StepChangeInterval {
        currentStep := (currentStep + 1) % |steps|;
        lastStepChange := now;
      }
    }

    /** `hide`: only switches the hints off. */
    method Hide()
      requires Valid()
      modifies this
      ensures Valid() && !isActive
      ensures alpha == old(alpha) && pulseDirection == old(pulseDirection)
      ensures currentStep == old(currentStep) && lastStepChange == old(lastStepChange)
    {
      isActive := false;
    }

    /** `show` at time `now`: on again, from the first hint. */
    method Show(now: int)
      requires Valid()
      modifies this
      ensures Valid() && isActive && currentStep == 0 && lastStepChange == now
      ensures alpha == old(alpha) && pulseDirection == old(pulseDirection)
    {
      isActive := true;
      currentStep := 0;
      lastStepChange := now;
    }
  }
}
