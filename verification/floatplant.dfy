/** Whole runs of the plant in which a ramp time may be NaN: the conveyor holds
    Python floats, numbers until a scan takes a NaN. */
module FloatPlants {
  import opened Wrappers
  import opened Numbers
  import opened Binary32
  import opened Commands
  import opened Model
  import opened Codec
  import opened ImageTable
  import opened Points
  import opened Scan
  import opened PlantRuns
  import F = ScanFrame
  import W = WireLink
  import N = NaNRamp
  import S = ShippedRuns
  import C = ConveyorMachine
  import M = CncMachine

  datatype FloatPlant = FloatPlant(tables: Tables, maxSpeed: real, setpoint: real, running: bool, fault: bool,
                                   rampTime: Float, speed: Float, position: Float, cnc: M.CncValue)

  /** The plant with these numbers in its conveyor. */
  function Held(s: PlantState): FloatPlant {
    FloatPlant(s.tables, s.conveyor.maxSpeed, s.conveyor.setpoint, s.conveyor.running, s.conveyor.fault,
               Finite(s.conveyor.rampTime), Finite(s.conveyor.speed), Finite(s.conveyor.position), s.cnc)
  }

  /** All but the conveyor's numbers, which its registers do not depend on. */
  function Shell(x: FloatPlant): PlantState {
    PlantState(x.tables, C.ConveyorState(0.0, x.maxSpeed, x.setpoint, x.running, x.fault, 0.0, 0.0), x.cnc)
  }

  ghost predicate FloatSound(p: Points, x: FloatPlant) {
    Sound(p, Shell(x)) && N.Plain(x.speed) && N.Plain(x.position)
  }

  // ---------------------------------------------------------------- the scan

  /** The encodes, in order, of whatever the conveyor holds. */
  function FloatPlan(p: Points, image: InputImage, speed: Float, position: Float): Result<Plan, CodecError>
    requires TypesOk(p) && p.cmdCode in image.holding && p.cmdSeq in image.holding && p.ackSeq in image.holding
  {
    var actual :- Encode(p.actual, speed, p.meta);
    var place :- Encode(p.position, position, p.meta);
    var state :- PublishedWords(p, image, 4);
    Ok(Plan(if Pending(p, image) then Some((Answer(p, image), image.holding[p.cmdSeq])) else None, actual, place, state))
  }

  lemma FloatPlanFits(p: Points, image: InputImage, speed: Float, position: Float, plan: Plan)
    requires Usable(p, image) && FloatPlan(p, image, speed, position) == Ok(plan)
    ensures Fits(p, plan)
  {
    assert p.actual == Part(p, 2) && p.position == Part(p, 3) && p.cncState == Part(p, 4);
    EncodeHasWidth(p.actual, speed, p.meta);
    EncodeHasWidth(p.position, position, p.meta);
    EncodeHasWidth(p.cncState, PublishedValue(p, image, 4), p.meta);
  }

  ghost predicate FloatCanScan(p: Points, x: FloatPlant) {
    FloatSound(p, x) && Usable(p, Snapshot(Shell(x))) && IsFinite(Parameter(p, x.tables["holding"], 0))
  }

  /** The ramp time this scan reads from its two registers. */
  ghost function RampRead(p: Points, x: FloatPlant): Float
    requires FloatCanScan(p, x)
  {
    Parameter(p, x.tables["holding"], 1)
  }

  function Commanded(p: Points, image: InputImage, running: bool): bool
    requires p.cmdCode in image.holding && p.cmdSeq in image.holding && p.ackSeq in image.holding
  {
    if Accepted(p, image, START) then true else if Accepted(p, image, STOP) then false else running
  }

  function CommandedCycle(p: Points, image: InputImage, cnc: M.CncValue): M.CncValue
    requires p.cmdCode in image.holding && p.cmdSeq in image.holding && p.ackSeq in image.holding
  {
    if Accepted(p, image, CNC_START) then M.Started(cnc)
    else if Accepted(p, image, CNC_RESET) then M.WasReset(cnc)
    else cnc
  }

  /** The scan, in Python's floats. */
  ghost function FloatStep(p: Points, x: FloatPlant, dt: real): Result<FloatPlant, CodecError>
    requires FloatCanScan(p, x)
  {
    var image := Snapshot(Shell(x));
    var plan :- FloatPlan(p, image, x.speed, x.position);
    FloatPlanFits(p, image, x.speed, x.position, plan);
    ClampHoldsIff(RampRead(p, x));
    var running := Commanded(p, image, x.running);
    var setpoint, rampTime := ToReal(Parameter(p, x.tables["holding"], 0)), Clamp(RampRead(p, x));
    var moved := N.Step(x.speed, x.position, if running && !x.fault then setpoint else 0.0, x.maxSpeed, rampTime, dt);
    Ok(FloatPlant(Overlay(p, x.tables, plan), x.maxSpeed, setpoint, running, x.fault, rampTime, moved.0, moved.1,
                  M.Stepped(CommandedCycle(p, image, x.cnc), dt)))
  }

  ghost predicate FloatScans(p: Points, dt: real, x: FloatPlant, e: PlantEvent) {
    e.Tick? && FloatCanScan(p, x) && FloatStep(p, x, dt).Ok?
  }

  ghost predicate FloatEvent(p: Points, dt: real, x: FloatPlant, e: PlantEvent, y: FloatPlant) {
    match e
    case WriteRegs(fc, address, values) =>
      WriteCode(fc) && Registers(values)
      && y == (match Write(x.tables, fc, address, values)
               case Ok(tables) => x.(tables := tables)
               case Err(_) => x)
    case Tick =>
      FloatCanScan(p, x) ==> y == (match FloatStep(p, x, dt)
                                   case Ok(moved) => moved
                                   case Err(_) => x)
    case Fails(conveyorFault, cncFaults) =>
      y == x.(fault := conveyorFault, cnc := if cncFaults then M.Faulted(x.cnc) else x.cnc)
    case Rests => y == x
  }

  ghost predicate IsFloatRun(p: Points, dt: real, xs: seq<FloatPlant>, ev: seq<PlantEvent>) {
    |xs| == |ev| + 1 && forall t, u :: 0 <= t < |ev| && u == t + 1 ==> FloatEvent(p, dt, xs[t], ev[t], xs[u])
  }

  // ------------------------------------------------ numbers, and after them

  /** The conveyor holds numbers, and the plant is safe. */
  ghost predicate InNumbers(p: Points, x: FloatPlant, s: PlantState) {
    x == Held(s) && Safe(p, s)
  }

  /** The conveyor's speed is NaN. */
  ghost predicate Lost(p: Points, x: FloatPlant) {
    FloatSound(p, x) && x.speed == NaN
  }

  lemma SameSnapshot(p: Points, x: FloatPlant, s: PlantState)
    requires InNumbers(p, x, s)
    ensures FloatSound(p, x) && "holding" in s.tables && Usable(p, Snapshot(s)) && Usable(p, Snapshot(Shell(x)))
    ensures Snapshot(Shell(x)).holding == Snapshot(s).holding && Snapshot(Shell(x)).fault == Snapshot(s).fault
            && Snapshot(Shell(x)).cnc == Snapshot(s).cnc
  {
    SnapshotIsUsable(p, s);
    SnapshotIsUsable(p, Shell(x));
  }

  /** In numbers the plan is the plan of the numbers. */
  lemma SamePlan(p: Points, x: FloatPlant, s: PlantState)
    requires InNumbers(p, x, s) && Usable(p, Snapshot(s)) && Usable(p, Snapshot(Shell(x)))
    ensures FloatPlan(p, Snapshot(Shell(x)), x.speed, x.position) == MakePlan(p, Snapshot(s))
  {
    assert p.actual == Part(p, 2) && p.position == Part(p, 3) && p.cncState == Part(p, 4);
  }

  lemma SetpointIsFinite(p: Points, x: FloatPlant, s: PlantState)
    requires InNumbers(p, x, s) && Standard(p)
    ensures FloatCanScan(p, x)
    ensures RampRead(p, x) != NaN <==> CanScan(p, s)
  {
    SameSnapshot(p, x, s);
    SetpointIsANumber(p, s.tables["holding"]);
  }

  /** From numbers a scan completes exactly when the position still fits, whatever
      the ramp registers hold. */
  lemma CompletesIff(p: Points, dt: real, x: FloatPlant, s: PlantState)
    requires InNumbers(p, x, s) && Standard(p)
    ensures FloatCanScan(p, x) && (FloatStep(p, x, dt).Ok? <==> !TooFar(p, s.conveyor.position))
  {
    SetpointIsFinite(p, x, s);
    SameSnapshot(p, x, s);
    SamePlan(p, x, s);
    OnlyThePositionCanFail(p, s);
  }

  lemma ScanStepIs(p: Points, dt: real, s: PlantState, plan: Plan)
    requires CanScan(p, s) && MakePlan(p, Snapshot(s)) == Ok(plan) && Fits(p, plan)
    ensures CommandedConveyor(p, s).rampTime != 0.0
    ensures ScanStep(p, s, dt)
            == Ok(PlantState(Overlay(p, s.tables, plan), C.Stepped(CommandedConveyor(p, s), dt), M.Stepped(CommandedCnc(p, s), dt)))
  {
    ClampHoldsIff(Parameter(p, s.tables["holding"], 1));
  }

  lemma FloatStepIs(p: Points, dt: real, x: FloatPlant, plan: Plan, c: C.ConveyorState, cnc: M.CncValue)
    requires FloatCanScan(p, x) && FloatPlan(p, Snapshot(Shell(x)), x.speed, x.position) == Ok(plan) && Fits(p, plan)
    requires c.rampTime != 0.0 && Clamp(RampRead(p, x)) == Finite(c.rampTime)
    requires c.running == Commanded(p, Snapshot(Shell(x)), x.running) && c.fault == x.fault && c.maxSpeed == x.maxSpeed
    requires c.setpoint == ToReal(Parameter(p, x.tables["holding"], 0))
    requires cnc == CommandedCycle(p, Snapshot(Shell(x)), x.cnc) && M.Timed(cnc)
    requires N.Step(x.speed, x.position, C.Target(c), x.maxSpeed, Finite(c.rampTime), dt)
             == (Finite(C.Stepped(c, dt).speed), Finite(C.Stepped(c, dt).position))
    ensures FloatStep(p, x, dt) == Ok(Held(PlantState(Overlay(p, x.tables, plan), C.Stepped(c, dt), M.Stepped(cnc, dt))))
  {
  }

  /** With a number in the ramp registers it is the scan of the numbers. */
  lemma NumberScanAgrees(p: Points, dt: real, x: FloatPlant, s: PlantState)
    requires InNumbers(p, x, s) && Standard(p) && CanScan(p, s)
    ensures FloatCanScan(p, x)
    ensures match ScanStep(p, s, dt)
            case Ok(after) => FloatStep(p, x, dt) == Ok(Held(after))
            case Err(_) => FloatStep(p, x, dt).Err?
  {
    SetpointIsFinite(p, x, s);
    SameSnapshot(p, x, s);
    SamePlan(p, x, s);
    if MakePlan(p, Snapshot(s)).Ok? {
      var plan := MakePlan(p, Snapshot(s)).value;
      MadePlanFits(p, Snapshot(s), plan);
      ConveyorAgrees(p, dt, x, s);
      ScanStepIs(p, dt, s, plan);
      FloatStepIs(p, dt, x, plan, CommandedConveyor(p, s), CommandedCnc(p, s));
    }
  }

  /** The conveyor's half of it. */
  lemma ConveyorAgrees(p: Points, dt: real, x: FloatPlant, s: PlantState)
    requires InNumbers(p, x, s) && CanScan(p, s) && FloatCanScan(p, x)
    ensures var c := CommandedConveyor(p, s);
            c.rampTime != 0.0 && Clamp(RampRead(p, x)) == Finite(c.rampTime)
            && c.running == Commanded(p, Snapshot(Shell(x)), x.running)
            && N.Step(x.speed, x.position, C.Target(c), x.maxSpeed, Finite(c.rampTime), dt)
               == (Finite(C.Stepped(c, dt).speed), Finite(C.Stepped(c, dt).position))
  {
    ClampHoldsIff(RampRead(p, x));
    N.StepAgrees(CommandedConveyor(p, s), dt);
  }

  /** A NaN in the ramp registers: the scan that completes leaves NaN. */
  lemma NaNScanLoses(p: Points, dt: real, x: FloatPlant, s: PlantState, y: FloatPlant)
    requires InNumbers(p, x, s) && Standard(p) && FloatCanScan(p, x) && RampRead(p, x) == NaN && FloatStep(p, x, dt) == Ok(y)
    ensures Lost(p, y)
  {
    SameSnapshot(p, x, s);
    SamePlan(p, x, s);
    ClampHoldsIff(NaN);
    var plan := MakePlan(p, Snapshot(s)).value;
    MadePlanFits(p, Snapshot(s), plan);
    PlanKeepsSound(p, s, plan);
  }

  lemma PlanKeepsSound(p: Points, s: PlantState, plan: Plan)
    requires Sound(p, s) && Usable(p, Snapshot(s)) && MakePlan(p, Snapshot(s)) == Ok(plan) && Fits(p, plan)
    ensures Laid(p, Overlay(p, s.tables, plan)) && Wide16(Overlay(p, s.tables, plan))
  {
    MadePlanFits(p, Snapshot(s), plan);
    forall k | 2 <= k < 5
      ensures Registers(WordsFor(plan, k))
    {
      F.EncodeIsRegisters(Part(p, k), PublishedValue(p, Snapshot(s), k), p.meta);
    }
    assert Holds(s.tables, BLOCK_TABLE, p.cmdSeq);
    F.PlanKeepsWide(p, s.tables, plan);
    F.PlanKeepsLaid(p, s.tables, plan);
  }

  /** A lost speed cannot be published: every later scan raises. */
  lemma LostNeverScans(p: Points, dt: real, x: FloatPlant)
    requires Standard(p) && Lost(p, x) && FloatCanScan(p, x)
    ensures FloatStep(p, x, dt) == Err(NotANumber)
  {
  }

  lemma LostStays(p: Points, dt: real, x: FloatPlant, e: PlantEvent, y: FloatPlant)
    requires Standard(p) && Lost(p, x) && FloatEvent(p, dt, x, e, y)
    ensures Lost(p, y) && !FloatScans(p, dt, x, e)
  {
    match e
    case WriteRegs(fc, address, values) =>
      if Write(x.tables, fc, address, values).Ok? {
        WriteKeepsSound(p, Shell(x), fc, address, values, y.tables);
      }
    case Tick =>
      LostTick(p, dt, x);
    case Fails(_, _) | Rests =>
  }

  lemma LostTick(p: Points, dt: real, x: FloatPlant)
    requires Standard(p) && Lost(p, x)
    ensures FloatCanScan(p, x) && FloatStep(p, x, dt) == Err(NotANumber)
  {
    SnapshotIsUsable(p, Shell(x));
    SetpointIsANumber(p, x.tables["holding"]);
    LostNeverScans(p, dt, x);
  }

  /** This event is a completed scan that read a NaN ramp time. */
  ghost predicate TakesNaN(p: Points, dt: real, x: FloatPlant, e: PlantEvent) {
    FloatScans(p, dt, x, e) && RampRead(p, x) == NaN
  }

  /** Any other event in numbers is a step of the plant of the numbers. */
  lemma NumbersStep(p: Points, dt: real, x: FloatPlant, s: PlantState, e: PlantEvent, y: FloatPlant) returns (after: PlantState)
    requires Standard(p) && dt > 0.0 && InNumbers(p, x, s) && FloatEvent(p, dt, x, e, y) && !TakesNaN(p, dt, x, e)
    ensures InNumbers(p, y, after)
    ensures PlantStep(p, dt, s, e, after) || (e.Tick? && after == s && FloatCanScan(p, x) && RampRead(p, x) == NaN)
  {
    SetpointIsFinite(p, x, s);
    match e
    case WriteRegs(fc, address, values) =>
      after := match Write(s.tables, fc, address, values) case Ok(tables) => s.(tables := tables) case Err(_) => s;
      StepIsSafe(p, dt, s, e, after);
    case Tick =>
      if RampRead(p, x) == NaN {
        after := s;
      } else {
        NumberScanAgrees(p, dt, x, s);
        after := match ScanStep(p, s, dt) case Ok(moved) => moved case Err(_) => s;
        StepIsSafe(p, dt, s, e, after);
      }
    case Fails(conveyorFault, cncFaults) =>
      after := s.(conveyor := s.conveyor.(fault := conveyorFault), cnc := if cncFaults then M.Faulted(s.cnc) else s.cnc);
      StepIsSafe(p, dt, s, e, after);
    case Rests =>
      after := s;
  }

  // --------------------------------------------------------------- whole runs

  /** Some scan before t completed on a NaN ramp time. */
  ghost predicate NaNBefore(p: Points, dt: real, xs: seq<FloatPlant>, ev: seq<PlantEvent>, t: nat)
    requires t <= |ev| <= |xs|
    decreases t
  {
    t > 0 && (NaNBefore(p, dt, xs, ev, t - 1) || TakesNaN(p, dt, xs[t - 1], ev[t - 1]))
  }

  lemma {:induction false} NumbersUntilNaN(p: Points, dt: real, xs: seq<FloatPlant>, ev: seq<PlantEvent>, s0: PlantState, t: nat)
    requires Standard(p) && dt > 0.0 && IsFloatRun(p, dt, xs, ev) && InNumbers(p, xs[0], s0) && t <= |ev|
    ensures if NaNBefore(p, dt, xs, ev, t) then Lost(p, xs[t]) else exists s :: InNumbers(p, xs[t], s)
    decreases t
  {
    if t == 0 {
      assert InNumbers(p, xs[0], s0);
    } else {
      var before := t - 1;
      NumbersUntilNaN(p, dt, xs, ev, s0, before);
      assert FloatEvent(p, dt, xs[before], ev[before], xs[t]);
      if NaNBefore(p, dt, xs, ev, before) {
        LostStays(p, dt, xs[before], ev[before], xs[t]);
      } else {
        var s :| InNumbers(p, xs[before], s);
        OneMoreEvent(p, dt, xs[before], s, ev[before], xs[t]);
      }
    }
  }

  lemma OneMoreEvent(p: Points, dt: real, x: FloatPlant, s: PlantState, e: PlantEvent, y: FloatPlant)
    requires Standard(p) && dt > 0.0 && InNumbers(p, x, s) && FloatEvent(p, dt, x, e, y)
    ensures if TakesNaN(p, dt, x, e) then Lost(p, y) else exists after :: InNumbers(p, y, after)
  {
    if TakesNaN(p, dt, x, e) {
      NaNScanLoses(p, dt, x, s, y);
    } else {
      var after := NumbersStep(p, dt, x, s, e, y);
    }
  }

  /** Over every run of writes, scans and faults, with any contents of the ramp
      registers: a scan completes if and only if no scan before it completed on a
      NaN ramp time and the position still fits binary32. So one such scan is the
      last that ever completes. */
  lemma ScansCompleteIff(p: Points, dt: real, xs: seq<FloatPlant>, ev: seq<PlantEvent>, s0: PlantState, t: nat)
    requires Standard(p) && dt > 0.0 && IsFloatRun(p, dt, xs, ev) && InNumbers(p, xs[0], s0) && t < |ev| && ev[t].Tick?
    ensures FloatScans(p, dt, xs[t], ev[t])
            <==> !NaNBefore(p, dt, xs, ev, t) && xs[t].position.Finite? && !TooFar(p, xs[t].position.r)
    ensures NaNBefore(p, dt, xs, ev, t) ==> xs[t].speed == NaN && FloatCanScan(p, xs[t])
                                             && FloatStep(p, xs[t], dt) == Err(NotANumber)
  {
    NumbersUntilNaN(p, dt, xs, ev, s0, t);
    if NaNBefore(p, dt, xs, ev, t) {
      LostTick(p, dt, xs[t]);
    } else {
      var s :| InNumbers(p, xs[t], s);
      CompletesIff(p, dt, xs[t], s);
    }
  }

  ghost function EventBy(p: Points, dt: real): (FloatPlant, PlantEvent, FloatPlant) -> bool {
    (x, e, y) => FloatEvent(p, dt, x, e, y)
  }

  lemma NaNIsWritten(p: Points, dt: real, s: PlantState) returns (after: PlantState)
    requires Standard(p) && dt > 0.0 && Safe(p, s) && p.ramp.typ.Float32? && p.ramp.scale > 0.0
    requires p.meta.wordOrder == "high_first" && p.meta.byteOrder == "big"
    ensures EventBy(p, dt)(Held(s), WriteRegs(16, p.ramp.addr, S.NAN_WORDS), Held(after)) && Safe(p, after)
    ensures after.conveyor == s.conveyor && FloatCanScan(p, Held(after)) && RampRead(p, Held(after)) == NaN
  {
    after := S.ANaNCanBeWritten(p, s, dt);
    SetpointIsFinite(p, Held(after), after);
  }

  lemma ThreeEvents(p: Points, dt: real, a: FloatPlant, b: FloatPlant, c: FloatPlant, d: FloatPlant,
                    e: PlantEvent, f: PlantEvent, g: PlantEvent) returns (xs: seq<FloatPlant>, ev: seq<PlantEvent>)
    requires EventBy(p, dt)(a, e, b) && EventBy(p, dt)(b, f, c) && EventBy(p, dt)(c, g, d)
    ensures xs == [a, b, c, d] && ev == [e, f, g] && IsFloatRun(p, dt, xs, ev)
  {
    xs, ev := [a, b, c, d], [e, f, g];
  }

  /** With a NaN in the registers, the next scan completes and the one after raises. */
  lemma TwoScansAfterNaN(p: Points, dt: real, x: FloatPlant, s: PlantState) returns (y: FloatPlant)
    requires InNumbers(p, x, s) && Standard(p) && FloatCanScan(p, x) && RampRead(p, x) == NaN && !TooFar(p, s.conveyor.position)
    ensures TakesNaN(p, dt, x, Tick) && EventBy(p, dt)(x, Tick, y) && EventBy(p, dt)(y, Tick, y)
    ensures FloatCanScan(p, y) && FloatStep(p, y, dt) == Err(NotANumber)
  {
    CompletesIff(p, dt, x, s);
    y := FloatStep(p, x, dt).value;
    NaNScanLoses(p, dt, x, s, y);
    LostTick(p, dt, y);
  }

  /** One accepted write of the ramp time, and the scans after the next all raise:
      the write, a scan that completes, and one that cannot. */
  lemma ANaNStopsThePlant(p: Points, dt: real, s: PlantState)
      returns (x: FloatPlant, y: FloatPlant, xs: seq<FloatPlant>, ev: seq<PlantEvent>)
    requires Standard(p) && dt > 0.0 && Safe(p, s) && p.ramp.typ.Float32? && p.ramp.scale > 0.0
    requires p.meta.wordOrder == "high_first" && p.meta.byteOrder == "big" && !TooFar(p, s.conveyor.position)
    ensures xs == [Held(s), x, y, y] && ev == [WriteRegs(16, p.ramp.addr, S.NAN_WORDS), Tick, Tick] && IsFloatRun(p, dt, xs, ev)
    ensures TakesNaN(p, dt, x, Tick) && FloatCanScan(p, y) && FloatStep(p, y, dt) == Err(NotANumber)
  {
    var after := NaNIsWritten(p, dt, s);
    x := Held(after);
    y := TwoScansAfterNaN(p, dt, x, after);
    xs, ev := ThreeEvents(p, dt, Held(s), x, y, y, WriteRegs(16, p.ramp.addr, S.NAN_WORDS), Tick, Tick);
  }
}
