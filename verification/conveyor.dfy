/** The conveyor's speed ramp and position (src/machine/conveyor.py). */
module ConveyorMachine {
  import opened Numbers

  datatype ConveyorState = ConveyorState(rampTime: real, maxSpeed: real, setpoint: real, running: bool,
                                         fault: bool, position: real, speed: real)

  function Target(s: ConveyorState): real {
    if s.running && !s.fault then s.setpoint else 0.0
  }

  function MaxDelta(s: ConveyorState, dt: real): real
    requires s.rampTime != 0.0
  {
    s.maxSpeed / s.rampTime * dt
  }

  function CopySign(magnitude: real, sign: real): real {
    if sign < 0.0 then -Abs(magnitude) else Abs(magnitude)
  }

  function NextSpeed(speed: real, target: real, maxDelta: real): real {
    if Abs(target - speed) <= maxDelta then target else speed + CopySign(maxDelta, target - speed)
  }

  function Stepped(s: ConveyorState, dt: real): ConveyorState
    requires s.rampTime != 0.0
  {
    var speed := NextSpeed(s.speed, Target(s), MaxDelta(s, dt));
    s.(speed := speed, position := s.position + speed * dt)
  }

  class Conveyor {
    var rampTime: real
    var maxSpeed: real
    var setpoint: real
    var running: bool
    var fault: bool
    var position: real
    var speed: real

    constructor (rampTime: real, maxSpeed: real)
      ensures State() == ConveyorState(rampTime, maxSpeed, 0.0, false, false, 0.0, 0.0)
    {
      this.rampTime, this.maxSpeed := rampTime, maxSpeed;
      setpoint, running, fault, position, speed := 0.0, false, false, 0.0, 0.0;
    }

    function State(): ConveyorState
      reads this
    {
      ConveyorState(rampTime, maxSpeed, setpoint, running, fault, position, speed)
    }

    method Step(dt: real)
      requires rampTime != 0.0
      modifies this`speed, this`position
      ensures State() == Stepped(old(State()), dt)
    {
      ghost var before := State();
      var target := if running && !fault then setpoint else 0.0;
      var maxDelta := maxSpeed / rampTime * dt;
      assert target == Target(before) && maxDelta == MaxDelta(before, dt);
      var delta := target - speed;
      if Abs(delta) <= maxDelta {
        speed := target;
      } else {
        speed := speed + CopySign(maxDelta, delta);
      }
      assert speed == NextSpeed(before.speed, target, maxDelta);
      position := position + speed * dt;
    }
  }

  // ------------------------------------------------------------ whole ramps

  function Steps(s: ConveyorState, dt: real, k: nat): (r: ConveyorState)
    requires s.rampTime != 0.0
    ensures r == s.(speed := r.speed, position := r.position)
    decreases k
  {
    if k == 0 then s else Stepped(Steps(s, dt, k - 1), dt)
  }

  predicate Working(s: ConveyorState, dt: real) {
    s.rampTime > 0.0 && s.maxSpeed > 0.0 && dt > 0.0
  }

  lemma MaxDeltaPositive(s: ConveyorState, dt: real)
    requires Working(s, dt)
    ensures MaxDelta(s, dt) > 0.0
  {
    assert s.maxSpeed / s.rampTime > 0.0;
  }

  /** y lies on the way from x to target. */
  predicate OnTheWay(x: real, y: real, target: real) {
    (x <= y <= target) || (target <= y <= x)
  }

  lemma OneStep(speed: real, target: real, d: real)
    requires d > 0.0
    ensures Abs(target - NextSpeed(speed, target, d)) == Max(0.0, Abs(target - speed) - d)
    ensures OnTheWay(speed, NextSpeed(speed, target, d), target)
  {
  }

  /** What one step of a working conveyor does: towards the setpoint while it runs
      without a fault and towards rest otherwise, by max_speed dt / ramp_time or
      less if that is all that is missing; and it moves at the new speed. */
  lemma StepHeadsForItsGoal(s: ConveyorState, dt: real, goal: real)
    requires Working(s, dt) && goal == if s.running && !s.fault then s.setpoint else 0.0
    ensures var t := Stepped(s, dt);
            Abs(goal - t.speed) == Max(0.0, Abs(goal - s.speed) - s.maxSpeed / s.rampTime * dt) && OnTheWay(s.speed, t.speed, goal)
            && t.position == s.position + t.speed * dt && t == s.(speed := t.speed, position := t.position)
  {
    MaxDeltaPositive(s, dt);
    OneStep(s.speed, goal, MaxDelta(s, dt));
  }

  /** The speed alone, k steps on. */
  function Ramp(speed: real, target: real, d: real, k: nat): real
    decreases k
  {
    if k == 0 then speed else NextSpeed(Ramp(speed, target, d, k - 1), target, d)
  }

  lemma {:induction false} SpeedIsRamp(s: ConveyorState, dt: real, k: nat)
    requires s.rampTime != 0.0
    ensures Steps(s, dt, k).speed == Ramp(s.speed, Target(s), MaxDelta(s, dt), k)
    decreases k
  {
    if k == 0 {
    } else {
      SpeedIsRamp(s, dt, k - 1);
      var p := Steps(s, dt, k - 1);
      SameInputs(s, p, dt);
      var q := Stepped(p, dt);
      assert Steps(s, dt, k) == q;
    }
  }

  lemma SameInputs(s: ConveyorState, p: ConveyorState, dt: real)
    requires s.rampTime != 0.0 && p == s.(speed := p.speed, position := p.position)
    ensures Stepped(p, dt).speed == NextSpeed(p.speed, Target(s), MaxDelta(s, dt))
  {
  }

  lemma {:induction false} RampDistance(speed: real, target: real, d: real, k: nat)
    requires d > 0.0
    ensures Abs(target - Ramp(speed, target, d, k)) == Max(0.0, Abs(target - speed) - Times(k, d))
    ensures OnTheWay(speed, Ramp(speed, target, d, k), target)
    decreases k
  {
    if k == 0 {
    } else {
      RampDistance(speed, target, d, k - 1);
      OneStep(Ramp(speed, target, d, k - 1), target, d);
    }
  }

  lemma SpeedIsRampBy(s: ConveyorState, dt: real, k: nat, d: real)
    requires s.rampTime != 0.0 && d == MaxDelta(s, dt)
    ensures Steps(s, dt, k).speed == Ramp(s.speed, Target(s), d, k)
  {
    SpeedIsRamp(s, dt, k);
  }

  lemma RampDistanceProduct(speed: real, target: real, d: real, k: nat, after: real)
    requires d > 0.0 && after == Ramp(speed, target, d, k)
    ensures Abs(target - after) == Max(0.0, Abs(target - speed) - k as real * d)
    ensures OnTheWay(speed, after, target)
  {
    RampDistance(speed, target, d, k);
    TimesIsProduct(k, d);
  }

  /** With nothing changing the inputs, the distance to the target falls by
      max_delta each step until it is zero, and the target is never passed. */
  lemma RampClosedForm(s: ConveyorState, dt: real, k: nat, d: real)
    requires Working(s, dt) && d == MaxDelta(s, dt)
    ensures Abs(Target(s) - Steps(s, dt, k).speed) == Max(0.0, Abs(Target(s) - s.speed) - k as real * d)
    ensures OnTheWay(s.speed, Steps(s, dt, k).speed, Target(s))
  {
    MaxDeltaPositive(s, dt);
    SpeedIsRampBy(s, dt, k, d);
    RampDistanceProduct(s.speed, Target(s), d, k, Steps(s, dt, k).speed);
  }

  lemma RatioOfRamp(maxSpeed: real, rampTime: real, dt: real, k: real)
    requires maxSpeed > 0.0 && rampTime > 0.0 && dt > 0.0
    ensures maxSpeed <= k * (maxSpeed / rampTime * dt) <==> rampTime / dt <= k
  {
    var rate := maxSpeed / rampTime;
    assert rate * rampTime == maxSpeed;
    assert rate > 0.0;
    DivBound(k, rampTime, dt);
    assert k * (rate * dt) - maxSpeed == rate * (k * dt - rampTime);
    if k * dt >= rampTime {
      MulMono(0.0, k * dt - rampTime, rate);
    } else {
      assert rate * (k * dt - rampTime) < 0.0;
    }
  }

  /** From rest to full speed takes exactly ceil(ramp_time / dt) steps. */
  lemma FullRampTakesExactly(s: ConveyorState, dt: real, k: nat)
    requires Working(s, dt) && s.speed == 0.0 && Target(s) == s.maxSpeed
    ensures Steps(s, dt, k).speed == s.maxSpeed <==> k >= Ceil(s.rampTime / dt)
  {
    RampClosedForm(s, dt, k, MaxDelta(s, dt));
    RatioOfRamp(s.maxSpeed, s.rampTime, dt, k as real);
  }

  lemma {:induction false} RampFromRest(target: real, d: real, k: nat)
    requires d > 0.0 && Times(k, d) <= target
    ensures Ramp(0.0, target, d, k) == Times(k, d)
    decreases k
  {
    if k == 0 {
    } else {
      RampFromRest(target, d, k - 1);
    }
  }

  /** 1 + 2 + ... + k */
  function Triangle(k: nat): nat {
    if k == 0 then 0 else Triangle(k - 1) + k
  }

  lemma {:induction false} TriangleIs(k: nat)
    ensures Triangle(k) == k * (k + 1) / 2
  {
    if k == 0 {
    } else {
      TriangleIs(k - 1);
      assert k * (k + 1) == (k - 1) * k + 2 * k;
    }
  }

  /** area (1 + 2 + ... + k), counted up. */
  function Triangular(k: nat, area: real): real {
    if k == 0 then 0.0 else Triangular(k - 1, area) + Times(k, area)
  }

  lemma {:induction false} TriangularIs(k: nat, area: real)
    ensures Triangular(k, area) == area * Triangle(k) as real
  {
    if k == 0 {
    } else {
      TriangularIs(k - 1, area);
      TimesIsProduct(k, area);
    }
  }

  lemma {:induction false} TimesScales(k: nat, d: real, dt: real, area: real)
    requires area == d * dt
    ensures Times(k, d) * dt == Times(k, area)
  {
    if k == 0 {
    } else {
      TimesScales(k - 1, d, dt, area);
    }
  }

  lemma SpeedFromRest(target: real, d: real, k: nat, after: real)
    requires d > 0.0 && k as real * d <= target && after == Ramp(0.0, target, d, k)
    ensures after == k as real * d
  {
    TimesIsProduct(k, d);
    RampFromRest(target, d, k);
  }

  lemma MovesWithin(from: real, until: real, speed: real, top: real, dt: real, reach: real)
    requires until == from + speed * dt && 0.0 <= speed <= top && dt > 0.0 && reach == top * dt
    ensures from <= until <= from + reach
  {
    MulMono(0.0, speed, dt);
    MulMono(speed, top, dt);
  }

  /** A step whose speed stays in [0, top] moves the belt forward, and at most by
      top dt. */
  lemma StepReach(s: ConveyorState, dt: real, after: ConveyorState, top: real, reach: real)
    requires s.rampTime != 0.0 && after == Stepped(s, dt) && dt > 0.0 && 0.0 <= after.speed <= top && reach == top * dt
    ensures s.position <= after.position <= s.position + reach
  {
    MovesWithin(s.position, after.position, after.speed, top, dt, reach);
  }

  lemma MoveIs(before: ConveyorState, dt: real, after: ConveyorState, speed: real, move: real)
    requires before.rampTime != 0.0 && after == Stepped(before, dt) && after.speed == speed && move == speed * dt
    ensures after.position == before.position + move
  {
  }

  lemma StepsUnfold(s: ConveyorState, dt: real, k: nat)
    requires s.rampTime != 0.0 && k > 0
    ensures Steps(s, dt, k) == Stepped(Steps(s, dt, k - 1), dt)
  {
  }

  /** The k-th step of a ramp from rest covers k times max_delta dt. */
  lemma RestStep(s: ConveyorState, dt: real, k: nat, d: real, area: real)
    requires s.rampTime != 0.0 && d == MaxDelta(s, dt) && d > 0.0 && area == d * dt && k > 0
    requires s.speed == 0.0 && Times(k, d) <= Target(s)
    ensures Steps(s, dt, k).position == Steps(s, dt, k - 1).position + Times(k, area)
  {
    SpeedIsRampBy(s, dt, k, d);
    RampFromRest(Target(s), d, k);
    TimesScales(k, d, dt, area);
    StepsUnfold(s, dt, k);
    MoveIs(Steps(s, dt, k - 1), dt, Steps(s, dt, k), Times(k, d), Times(k, area));
  }

  lemma {:induction false} Positions(x: seq<real>, area: real, k: nat)
    requires k < |x| && forall i, j :: 0 <= i < |x| - 1 && j == i + 1 ==> x[j] == x[i] + Times(j, area)
    ensures x[k] == x[0] + Triangular(k, area)
  {
    if k == 0 {
    } else {
      var before := k - 1;
      Positions(x, area, before);
      assert x[k] == x[before] + Times(k, area);
    }
  }

  lemma {:induction false} TimesGrows(j: nat, k: nat, d: real)
    requires j <= k && d > 0.0
    ensures Times(j, d) <= Times(k, d)
    decreases k
  {
    if j == k {
    } else {
      TimesGrows(j, k - 1, d);
    }
  }

  lemma PositionFromRest(s: ConveyorState, dt: real, k: nat, d: real, area: real)
    requires s.rampTime != 0.0 && d == MaxDelta(s, dt) && d > 0.0 && area == d * dt
    requires s.speed == 0.0 && Times(k, d) <= Target(s)
    ensures Steps(s, dt, k).position == s.position + Triangular(k, area)
  {
    var x := seq(k + 1, (j: int) requires 0 <= j <= k => Steps(s, dt, j).position);
    forall i, j | 0 <= i < |x| - 1 && j == i + 1
      ensures x[j] == x[i] + Times(j, area)
    {
      TimesGrows(j, k, d);
      RestStep(s, dt, j, d, area);
    }
    Positions(x, area, k);
  }

  /** While still ramping up from rest the speed is k max_delta, and the position
      has advanced by max_delta dt (1 + 2 + ... + k). */
  lemma PositionWhileRamping(s: ConveyorState, dt: real, k: nat, d: real, area: real)
    requires Working(s, dt) && d == MaxDelta(s, dt) && area == d * dt
    requires s.speed == 0.0 && k as real * d <= Target(s)
    ensures Steps(s, dt, k).speed == k as real * d
    ensures Steps(s, dt, k).position == s.position + area * Triangle(k) as real
  {
    MaxDeltaPositive(s, dt);
    SpeedIsRampBy(s, dt, k, d);
    SpeedFromRest(Target(s), d, k, Steps(s, dt, k).speed);
    TimesIsProduct(k, d);
    PositionFromRest(s, dt, k, d, area);
    TriangularIs(k, area);
  }
}
