/** What a ramp time that is NaN does to the conveyor's step
    (src/machine/conveyor.py), in arithmetic with NaN. */
module NaNRamp {
  import opened Wrappers
  import opened Numbers
  import opened Binary32
  import opened Model
  import opened Codec
  import C = ConveyorMachine

  /** Everything the step computes with: numbers, and perhaps NaN. */
  predicate Plain(x: Float) {
    x.Finite? || x.NaN?
  }

  function Plus(x: Float, y: Float): Float
    requires Plain(x) && Plain(y)
  {
    if x.NaN? || y.NaN? then NaN else Finite(x.r + y.r)
  }

  function Minus(x: Float, y: Float): Float
    requires Plain(x) && Plain(y)
  {
    if x.NaN? || y.NaN? then NaN else Finite(x.r - y.r)
  }

  function Product(x: Float, y: Float): Float
    requires Plain(x) && Plain(y)
  {
    if x.NaN? || y.NaN? then NaN else Finite(x.r * y.r)
  }

  function Quotient(x: Float, y: Float): Float
    requires Plain(x) && Plain(y) && y != Finite(0.0)
  {
    if x.NaN? || y.NaN? then NaN else Finite(x.r / y.r)
  }

  /** No comparison with NaN is true. */
  predicate AtMost(x: Float, y: Float)
    requires Plain(x) && Plain(y)
  {
    x.Finite? && y.Finite? && x.r <= y.r
  }

  function Magnitude(x: Float): Float
    requires Plain(x)
  {
    if x.NaN? then NaN else Finite(Abs(x.r))
  }

  /** math.copysign of a magnitude. A NaN also has a sign, which is not modelled:
      Python adds the result to a speed that is NaN itself. */
  function WithSign(x: Float, sign: Float): Float
    requires Plain(x) && Plain(sign)
  {
    if x.NaN? || sign.NaN? then NaN else Finite(C.CopySign(x.r, sign.r))
  }

  /** The new speed and position of Conveyor.step. */
  function Step(speed: Float, position: Float, target: real, maxSpeed: real, rampTime: Float, dt: real): (r: (Float, Float))
    requires Plain(speed) && Plain(position) && Plain(rampTime) && rampTime != Finite(0.0)
    ensures Plain(r.0) && Plain(r.1)
  {
    var maxDelta := Product(Quotient(Finite(maxSpeed), rampTime), Finite(dt));
    var next := NextSpeed(speed, target, maxDelta);
    (next, Moved(position, next, dt))
  }

  function Moved(position: Float, speed: Float, dt: real): (r: Float)
    requires Plain(position) && Plain(speed)
    ensures Plain(r)
  {
    Plus(position, Product(speed, Finite(dt)))
  }

  function NextSpeed(speed: Float, target: real, maxDelta: Float): (r: Float)
    requires Plain(speed) && Plain(maxDelta)
    ensures Plain(r)
  {
    var delta := Minus(Finite(target), speed);
    if AtMost(Magnitude(delta), maxDelta) then Finite(target) else Plus(speed, WithSign(maxDelta, delta))
  }

  /** On numbers this is the step the run theorems are about. */
  lemma StepAgrees(s: C.ConveyorState, dt: real)
    requires s.rampTime != 0.0
    ensures Step(Finite(s.speed), Finite(s.position), C.Target(s), s.maxSpeed, Finite(s.rampTime), dt)
            == (Finite(C.Stepped(s, dt).speed), Finite(C.Stepped(s, dt).position))
  {
    var maxDelta := C.MaxDelta(s, dt);
    SpeedAgrees(s.speed, C.Target(s), maxDelta);
    DeltaAgrees(s, dt, maxDelta);
    MovedAgrees(s, dt, C.NextSpeed(s.speed, C.Target(s), maxDelta));
  }

  lemma DeltaAgrees(s: C.ConveyorState, dt: real, maxDelta: real)
    requires s.rampTime != 0.0 && maxDelta == C.MaxDelta(s, dt)
    ensures Product(Quotient(Finite(s.maxSpeed), Finite(s.rampTime)), Finite(dt)) == Finite(maxDelta)
  {
  }

  lemma MovedAgrees(s: C.ConveyorState, dt: real, next: real)
    requires s.rampTime != 0.0 && next == C.NextSpeed(s.speed, C.Target(s), C.MaxDelta(s, dt))
    ensures C.Stepped(s, dt).speed == next && Moved(Finite(s.position), Finite(next), dt) == Finite(C.Stepped(s, dt).position)
  {
  }

  lemma SpeedAgrees(speed: real, target: real, maxDelta: real)
    ensures NextSpeed(Finite(speed), target, Finite(maxDelta)) == Finite(C.NextSpeed(speed, target, maxDelta))
  {
  }

  /** A NaN ramp time makes speed and position NaN in one step, whatever they were;
      and a NaN speed cannot be published: the next scan's first encode raises. */
  lemma ANaNRampRaisesNext(speed: real, position: real, target: real, maxSpeed: real, dt: real, actual: Mapping, meta: Meta)
    requires IsInteger(actual.typ) && actual.scale != 0.0
    ensures Step(Finite(speed), Finite(position), target, maxSpeed, NaN, dt) == (NaN, NaN)
    ensures Encode(actual, Step(Finite(speed), Finite(position), target, maxSpeed, NaN, dt).0, meta) == Err(NotANumber)
  {
  }
}
