/** Whole runs of the plant: any masters writing any registers between scans. */
module PlantRuns {
  import opened Wrappers
  import opened Numbers
  import opened Binary32
  import opened Commands
  import opened Model
  import opened Codec
  import opened ImageTable
  import opened Points
  import opened Scan
  import F = ScanFrame
  import W = WireLink
  import H = Handshake
  import C = ConveyorMachine
  import M = CncMachine

  datatype PlantEvent =
    | WriteRegs(fc: int, address: int, values: seq<int>)
    | Tick
    | Fails(conveyorFault: bool, cncFaults: bool)
    // a read, or something that does not involve the plant
    | Rests

  /** write_block of a command. */
  function BlockWrite(c: Contract, cmd: H.Command): PlantEvent
    requires W.FieldLayout(c.commandBlock.layout)
  {
    WriteRegs(16, c.commandBlock.base, W.BlockWords(c.commandBlock.layout, cmd))
  }

  /** The RampTime register is not a NaN pattern. */
  ghost predicate RampIsANumber(p: Points, s: PlantState) {
    Sound(p, s) ==> (SnapshotIsUsable(p, s); Parameter(p, s.tables["holding"], 1) != NaN)
  }

  /** A write is taken or refused whole; a tick is one scan, or an exception that
      leaves everything as it was; and the machine may fail by itself. */
  ghost predicate PlantStep(p: Points, dt: real, s: PlantState, e: PlantEvent, after: PlantState) {
    match e
    case WriteRegs(fc, address, values) =>
      WriteCode(fc) && Registers(values)
      && after == (match Write(s.tables, fc, address, values)
                   case Ok(tables) => s.(tables := tables)
                   case Err(_) => s)
    case Tick =>
      RampIsANumber(p, s)
      && (CanScan(p, s) ==> after == (match ScanStep(p, s, dt)
                                      case Ok(moved) => moved
                                      case Err(_) => s))
    case Fails(conveyorFault, cncFaults) =>
      after == s.(conveyor := s.conveyor.(fault := conveyorFault),
                  cnc := if cncFaults then M.Faulted(s.cnc) else s.cnc)
    case Rests => after == s
  }

  ghost predicate IsPlantRun(p: Points, dt: real, st: seq<PlantState>, ev: seq<PlantEvent>) {
    |st| == |ev| + 1 && forall t :: 0 <= t < |ev| ==> PlantStep(p, dt, st[t], ev[t], st[t + 1])
  }

  /** This event is a scan that completes. */
  ghost predicate Scans(p: Points, dt: real, s: PlantState, e: PlantEvent) {
    e.Tick? && CanScan(p, s) && ScanStep(p, s, dt).Ok?
  }

  /** The types the plant's own contract declares: unsigned 16-bit speeds on one
      scale, a binary32 position, and the state code as it stands. */
  predicate Standard(p: Points) {
    p.setpoint.typ.UInt16? && p.actual.typ.UInt16? && p.setpoint.scale == p.actual.scale
    && p.setpoint.scale > 0.0 && p.position.scale > 0.0
    && p.position.typ.Float32? && p.cncState.typ.UInt16? && p.cncState.scale == 1.0
    && forall state :: state in p.codes ==> 0 <= p.codes[state] < 0x1_0000
  }

  /** The fastest speed a setpoint register can ask for. */
  function TopSpeed(p: Points): real {
    65535.0 * p.setpoint.scale
  }

  ghost predicate Safe(p: Points, s: PlantState) {
    Sound(p, s) && 0.0 <= s.conveyor.speed <= TopSpeed(p)
    && s.conveyor.rampTime > 0.0 && s.conveyor.maxSpeed > 0.0
  }

  lemma OneWordDecodes(m: Mapping, words: seq<int>, meta: Meta)
    requires m.typ.UInt16? && m.scale > 0.0 && |words| == 1 && Registers(words)
    ensures Decode(m, words, meta) == Ok(Scaled(Finite(words[0] as real), m.scale))
  {
  }

  lemma SetpointInRange(p: Points, holding: map<int, int>)
    requires Readable(p, holding) && Standard(p)
    ensures Parameter(p, holding, 0).Finite? && 0.0 <= Parameter(p, holding, 0).r <= TopSpeed(p)
  {
    assert p.setpoint == Part(p, 0);
    SpanIsRegisters(p, holding, 0);
    var words := SpanOf(holding, Part(p, 0));
    OneWordDecodes(p.setpoint, words, p.meta);
    Within(0.0, words[0] as real, 65535.0, p.setpoint.scale, words[0] as real * p.setpoint.scale);
  }

  /** The scan leaves a usable ramp time whatever number the register held. */
  lemma RampTimeIsClamped(p: Points, s: PlantState, dt: real, after: PlantState)
    requires CanScan(p, s) && ScanStep(p, s, dt) == Ok(after)
    ensures RAMP_TIME_MIN <= after.conveyor.rampTime <= RAMP_TIME_MAX
  {
    ClampHoldsIff(Parameter(p, s.tables["holding"], 1));
  }

  lemma SpeedAfterScan(p: Points, s: PlantState, dt: real, after: PlantState)
    requires CanScan(p, s) && ScanStep(p, s, dt) == Ok(after)
    ensures CommandedConveyor(p, s).rampTime != 0.0
    ensures after.conveyor.speed == C.NextSpeed(s.conveyor.speed, C.Target(CommandedConveyor(p, s)),
                                                C.MaxDelta(CommandedConveyor(p, s), dt))
    ensures after.conveyor.running == CommandedConveyor(p, s).running
    ensures after.conveyor.maxSpeed == s.conveyor.maxSpeed
  {
    ClampHoldsIff(Parameter(p, s.tables["holding"], 1));
  }

  lemma StaysBetween(speed: real, target: real, d: real, top: real)
    requires 0.0 <= speed <= top && 0.0 <= target <= top && d > 0.0
    ensures 0.0 <= C.NextSpeed(speed, target, d) <= top
  {
    C.OneStep(speed, target, d);
  }

  lemma TargetInRange(p: Points, s: PlantState)
    requires CanScan(p, s) && Standard(p)
    ensures 0.0 <= C.Target(CommandedConveyor(p, s)) <= TopSpeed(p)
  {
    assert p.setpoint == Part(p, 0);
    SetpointInRange(p, s.tables["holding"]);
    Within(0.0, 65535.0, 65535.0, p.setpoint.scale, TopSpeed(p));
  }

  lemma ScanKeepsSafe(p: Points, s: PlantState, dt: real, after: PlantState)
    requires Safe(p, s) && Standard(p) && dt > 0.0 && CanScan(p, s) && ScanStep(p, s, dt) == Ok(after)
    ensures Safe(p, after)
  {
    F.ScanKeepsSound(p, s, dt, after);
    RampTimeIsClamped(p, s, dt, after);
    SpeedAfterScan(p, s, dt, after);
    TargetInRange(p, s);
    var moved := CommandedConveyor(p, s);
    ClampHoldsIff(Parameter(p, s.tables["holding"], 1));
    C.MaxDeltaPositive(moved, dt);
    StaysBetween(s.conveyor.speed, C.Target(moved), C.MaxDelta(moved, dt), TopSpeed(p));
  }

  lemma WriteKeepsSound(p: Points, s: PlantState, fc: int, address: int, values: seq<int>, tables: Tables)
    requires Sound(p, s) && WriteCode(fc) && Registers(values) && Write(s.tables, fc, address, values) == Ok(tables)
    ensures Sound(p, s.(tables := tables))
    ensures forall t, a :: Holds(tables, t, a) <==> Holds(s.tables, t, a)
  {
    W.WriteKeepsLaid(p, s.tables, fc, address, values, tables);
    WritesStayInTheirTables(s.tables, fc, address, values, tables);
    forall t, a | Holds(tables, t, a)
      ensures 0 <= tables[t][a] < 0x1_0000
    {
      assert Holds(s.tables, t, a);
    }
  }

  // ----------------------------------------------- what the encodes can do

  lemma SpeedEncodes(p: Points, speed: real)
    requires Standard(p) && p.actual.scale > 0.0 && 0.0 <= speed <= TopSpeed(p)
    ensures Encode(p.actual, Finite(speed), p.meta).Ok?
  {
    EncodeAcceptsIff(p.actual, speed, p.meta);
    DivBound(0.0, speed, p.actual.scale);
    DivBound(65535.0, speed, p.actual.scale);
  }

  lemma CodeEncodes(p: Points, code: int)
    requires Standard(p) && 0 <= code < 0x1_0000
    ensures Encode(p.cncState, Finite(code as real), p.meta) == Ok([code])
  {
    assert code as real / 1.0 == code as real;
    RoundIsNearestEven(code as real, code);
    assert Trunc(code as real) == code;
  }

  /** The position is too large for binary32: at or beyond halfway from its largest
      finite number to the next power of two. */
  predicate TooFar(p: Points, position: real)
    requires p.position.scale > 0.0
  {
    16777215.5 * Unit(253) <= Abs(position / p.position.scale)
  }

  lemma PositionEncodesIff(p: Points, position: real)
    requires Standard(p)
    ensures Encode(p.position, Finite(position), p.meta).Ok? <==> !TooFar(p, position)
    ensures Encode(p.position, Finite(position), p.meta).Err? ==>
              Encode(p.position, Finite(position), p.meta) == Err(FloatOverflow)
  {
    OverflowIff(Abs(position / p.position.scale));
  }

  /** Of the three encodes of a safe plant only the position's can raise, and it
      does exactly when the position is too far for binary32. */
  lemma OnlyThePositionCanFail(p: Points, s: PlantState)
    requires Safe(p, s) && Standard(p) && Usable(p, Snapshot(s))
    ensures MakePlan(p, Snapshot(s)).Err? ==> MakePlan(p, Snapshot(s)) == Err(FloatOverflow)
    ensures MakePlan(p, Snapshot(s)).Err? <==> TooFar(p, s.conveyor.position)
  {
    assert p.actual == Part(p, 2) && p.position == Part(p, 3) && p.cncState == Part(p, 4);
    SpeedEncodes(p, s.conveyor.speed);
    PositionEncodesIff(p, s.conveyor.position);
    EveryState(s.cnc.state);
    CodeEncodes(p, p.codes[s.cnc.state]);
  }

  // ------------------------------------------------------ safety, all runs

  ghost predicate SameRegisters(a: Tables, b: Tables) {
    forall t, x :: Holds(a, t, x) <==> Holds(b, t, x)
  }

  lemma StepIsSafe(p: Points, dt: real, s: PlantState, e: PlantEvent, after: PlantState)
    requires Standard(p) && dt > 0.0 && Safe(p, s) && PlantStep(p, dt, s, e, after)
    ensures Safe(p, after) && SameRegisters(s.tables, after.tables)
    ensures after.conveyor.maxSpeed == s.conveyor.maxSpeed
    ensures Scans(p, dt, s, e) ==> RAMP_TIME_MIN <= after.conveyor.rampTime <= RAMP_TIME_MAX
    ensures !Scans(p, dt, s, e) ==> after.conveyor == s.conveyor.(fault := after.conveyor.fault)
    ensures e.Tick? ==> CanScan(p, s)
  {
    match e
    case WriteRegs(fc, address, values) =>
      if Write(s.tables, fc, address, values).Ok? {
        WriteKeepsSound(p, s, fc, address, values, after.tables);
      }
    case Tick =>
      SnapshotIsUsable(p, s);
      if ScanStep(p, s, dt).Ok? {
        ScanKeepsSafe(p, s, dt, after);
        F.ScanKeepsLaid(p, s, dt, after);
        RampTimeIsClamped(p, s, dt, after);
        SpeedAfterScan(p, s, dt, after);
      }
    case Fails(_, _) | Rests =>
  }

  /** Over every run of 16-bit writes and scans in which no scan finds a NaN ramp
      time: the speed stays in [0, 65535 scale], the registers stay the same
      registers and 16 bits wide, the ramp time is in force within its limits
      once a scan has completed, and a scan raises exactly when the position is
      too far for binary32. */
  lemma {:induction false} WholeRunSafety(p: Points, dt: real, st: seq<PlantState>, ev: seq<PlantEvent>, t: nat)
    requires Standard(p) && dt > 0.0 && IsPlantRun(p, dt, st, ev) && Safe(p, st[0]) && t < |st|
    ensures Safe(p, st[t]) && SameRegisters(st[0].tables, st[t].tables)
    ensures st[t].conveyor.maxSpeed == st[0].conveyor.maxSpeed
    ensures (exists x :: 0 <= x < t && Scans(p, dt, st[x], ev[x])) ==>
              RAMP_TIME_MIN <= st[t].conveyor.rampTime <= RAMP_TIME_MAX
    ensures t < |ev| && ev[t].Tick? ==> (Scans(p, dt, st[t], ev[t]) <==> !TooFar(p, st[t].conveyor.position))
    decreases t
  {
    if t > 0 {
      WholeRunSafety(p, dt, st, ev, t - 1);
      StepIsSafe(p, dt, st[t - 1], ev[t - 1], st[t]);
    }
    if t < |ev| && ev[t].Tick? {
      StepIsSafe(p, dt, st[t], ev[t], st[t + 1]);
      OnlyThePositionCanFail(p, st[t]);
    }
  }

  // ------------------------------------------------------------ bounded stop

  /** What an event does to the machine: whether it is a completed scan, whether
      that scan executes STOP, START or CNC_START, and whether the CNC fails. */
  datatype Deed = Deed(scans: bool, stops: bool, starts: bool, cycles: bool, fails: bool)

  ghost function DeedOf(p: Points, dt: real, s: PlantState, e: PlantEvent): Deed {
    Deed(Scans(p, dt, s, e),
         Scans(p, dt, s, e) && Accepted(p, Snapshot(s), STOP),
         Scans(p, dt, s, e) && Accepted(p, Snapshot(s), START),
         Scans(p, dt, s, e) && Accepted(p, Snapshot(s), CNC_START),
         e.Fails? && e.cncFaults)
  }

  ghost function Deeds(p: Points, dt: real, st: seq<PlantState>, ev: seq<PlantEvent>): (r: seq<Deed>)
    requires IsPlantRun(p, dt, st, ev)
    ensures |r| == |ev|
  {
    seq(|ev|, t requires 0 <= t < |ev| => DeedOf(p, dt, st[t], ev[t]))
  }

  /** How many of deeds[lo..hi] are completed scans. */
  function ScanCount(deeds: seq<Deed>, lo: nat, hi: nat): nat
    requires lo <= hi <= |deeds|
    decreases hi
  {
    if lo == hi then 0 else ScanCount(deeds, lo, hi - 1) + if deeds[hi - 1].scans then 1 else 0
  }

  datatype Motor = Motor(speed: real, running: bool)

  ghost function Motors(st: seq<PlantState>): (r: seq<Motor>)
    ensures |r| == |st|
  {
    seq(|st|, t requires 0 <= t < |st| => Motor(st[t].conveyor.speed, st[t].conveyor.running))
  }

  /** The least the speed falls in one scan: the slowest ramp a client can set. */
  function LeastDelta(maxSpeed: real, dt: real): real {
    maxSpeed / RAMP_TIME_MAX * dt
  }

  lemma RateAtLeast(maxSpeed: real, rampTime: real, dt: real)
    requires maxSpeed > 0.0 && 0.0 < rampTime <= 60.0 && dt > 0.0
    ensures 0.0 < maxSpeed / 60.0 * dt <= maxSpeed / rampTime * dt
  {
    DivBound(maxSpeed / 60.0, maxSpeed, rampTime);
    MulMono(rampTime, 60.0, maxSpeed / 60.0);
    MulMono(maxSpeed / 60.0, maxSpeed / rampTime, dt);
  }

  lemma SlowsDown(speed: real, d: real, least: real)
    requires speed >= 0.0 && 0.0 < least <= d
    ensures C.NextSpeed(speed, 0.0, d) <= speed
    ensures C.NextSpeed(speed, 0.0, d) <= Max(0.0, speed - least)
  {
    C.OneStep(speed, 0.0, d);
  }

  lemma MovedSlows(moved: C.ConveyorState, dt: real, least: real)
    requires moved.maxSpeed > 0.0 && 0.0 < moved.rampTime <= 60.0 && dt > 0.0 && !moved.running && moved.speed >= 0.0
    requires least == LeastDelta(moved.maxSpeed, dt)
    ensures C.NextSpeed(moved.speed, C.Target(moved), C.MaxDelta(moved, dt)) <= moved.speed
    ensures C.NextSpeed(moved.speed, C.Target(moved), C.MaxDelta(moved, dt)) <= Max(0.0, moved.speed - least)
  {
    RateAtLeast(moved.maxSpeed, moved.rampTime, dt);
    SlowsDown(moved.speed, C.MaxDelta(moved, dt), least);
  }

  lemma CommandedIsClamped(p: Points, s: PlantState)
    requires CanScan(p, s)
    ensures RAMP_TIME_MIN <= CommandedConveyor(p, s).rampTime <= RAMP_TIME_MAX
    ensures CommandedConveyor(p, s).speed == s.conveyor.speed && CommandedConveyor(p, s).maxSpeed == s.conveyor.maxSpeed
    ensures !CommandedConveyor(p, s).running <==>
            !Accepted(p, Snapshot(s), START) && (Accepted(p, Snapshot(s), STOP) || !s.conveyor.running)
  {
    ClampHoldsIff(Parameter(p, s.tables["holding"], 1));
  }

  /** What one event does to a conveyor that is stopped, or that it stops. */
  predicate Slows(before: Motor, deed: Deed, after: Motor, least: real) {
    deed.stops || (!before.running && !deed.starts) ==>
      !after.running && after.speed <= before.speed
      && (deed.scans ==> after.speed <= Max(0.0, before.speed - least))
  }

  lemma StoppedStep(p: Points, dt: real, s: PlantState, e: PlantEvent, after: PlantState)
    requires Standard(p) && dt > 0.0 && Safe(p, s) && PlantStep(p, dt, s, e, after)
    ensures Slows(Motor(s.conveyor.speed, s.conveyor.running), DeedOf(p, dt, s, e),
                  Motor(after.conveyor.speed, after.conveyor.running), LeastDelta(s.conveyor.maxSpeed, dt))
  {
    StepIsSafe(p, dt, s, e, after);
    var deed := DeedOf(p, dt, s, e);
    if Scans(p, dt, s, e) && (deed.stops || (!s.conveyor.running && !deed.starts)) {
      SpeedAfterScan(p, s, dt, after);
      CommandedIsClamped(p, s);
      MovedSlows(CommandedConveyor(p, s), dt, LeastDelta(s.conveyor.maxSpeed, dt));
    }
  }

  lemma EveryEventSlows(p: Points, dt: real, st: seq<PlantState>, ev: seq<PlantEvent>, t: nat, least: real)
    requires Standard(p) && dt > 0.0 && IsPlantRun(p, dt, st, ev) && Safe(p, st[0]) && t < |ev|
    requires least == LeastDelta(st[0].conveyor.maxSpeed, dt)
    ensures Slows(Motors(st)[t], Deeds(p, dt, st, ev)[t], Motors(st)[t + 1], least)
  {
    SafeAt(p, dt, st, ev, t);
    StoppedStep(p, dt, st[t], ev[t], st[t + 1]);
  }

  /** From the event that stops it, and as long as none starts it, the conveyor's
      speed never rises, and every completed scan takes off at least `least`. */
  lemma {:induction false} SlowsDownTo(m: seq<Motor>, deeds: seq<Deed>, a: nat, t: nat, least: real)
    requires |m| == |deeds| + 1 && a < t < |m| && least > 0.0 && deeds[a].stops
    requires forall x, y :: a <= x < t && y == x + 1 ==> Slows(m[x], deeds[x], m[y], least)
    requires forall x :: a < x < t ==> !deeds[x].starts
    ensures !m[t].running && m[t].speed <= m[t - 1].speed
    ensures m[t].speed <= Max(0.0, m[a].speed - Times(ScanCount(deeds, a, t), least))
    decreases t
  {
    assert Slows(m[t - 1], deeds[t - 1], m[t], least);
    if t - 1 > a {
      SlowsDownTo(m, deeds, a, t - 1, least);
    }
  }

  lemma SafeAt(p: Points, dt: real, st: seq<PlantState>, ev: seq<PlantEvent>, t: nat)
    requires Standard(p) && dt > 0.0 && IsPlantRun(p, dt, st, ev) && Safe(p, st[0]) && t < |st|
    ensures Safe(p, st[t]) && st[t].conveyor.maxSpeed == st[0].conveyor.maxSpeed
  {
    WholeRunSafety(p, dt, st, ev, t);
  }

  lemma EnoughTimes(top: real, rate: real, n: real, least: real)
    requires rate > 0.0 && least * 60.0 == rate && n >= top * 60.0 / rate
    ensures n * least >= top
  {
    DivBound(n, top * 60.0, rate);
    assert n * least * 60.0 == n * rate;
  }

  lemma EnoughScans(top: real, maxSpeed: real, dt: real, n: nat, least: real)
    requires maxSpeed > 0.0 && dt > 0.0 && least == LeastDelta(maxSpeed, dt)
    requires n >= Ceil(top * 60.0 / (maxSpeed * dt))
    ensures Times(n, least) >= top
  {
    TimesIsProduct(n, least);
    assert maxSpeed * dt > 0.0;
    assert least * 60.0 == maxSpeed * dt by {
      var rate := maxSpeed / 60.0;
      assert rate * 60.0 == maxSpeed;
    }
    EnoughTimes(top, maxSpeed * dt, n as real, least);
  }

  lemma LeastIsPositive(maxSpeed: real, dt: real)
    requires maxSpeed > 0.0 && dt > 0.0
    ensures LeastDelta(maxSpeed, dt) > 0.0
  {
    RateAtLeast(maxSpeed, 60.0, dt);
  }

  /** Every motor's speed lies in [0, top]. */
  predicate SpeedsWithin(m: seq<Motor>, top: real) {
    forall x :: 0 <= x < |m| ==> 0.0 <= m[x].speed <= top
  }

  /** What holds of the whole run, as far as stopping goes. */
  predicate AlwaysSlows(m: seq<Motor>, deeds: seq<Deed>, least: real) {
    |m| == |deeds| + 1 && forall x, y :: 0 <= x < |deeds| && y == x + 1 ==> Slows(m[x], deeds[x], m[y], least)
  }

  /** The scan at a executes STOP, and none from then to t executes START. */
  predicate StaysStopped(deeds: seq<Deed>, a: nat, t: nat) {
    a < t <= |deeds| && deeds[a].stops && forall x :: a < x < t ==> !deeds[x].starts
  }

  lemma StandsStill(m: seq<Motor>, deeds: seq<Deed>, a: nat, t: nat, top: real, maxSpeed: real, dt: real)
    requires maxSpeed > 0.0 && dt > 0.0 && top >= 0.0
    requires AlwaysSlows(m, deeds, LeastDelta(maxSpeed, dt)) && SpeedsWithin(m, top) && StaysStopped(deeds, a, t)
    ensures m[t].speed <= m[t - 1].speed
    ensures ScanCount(deeds, a, t) >= Ceil(top * 60.0 / (maxSpeed * dt)) ==> m[t].speed == 0.0
  {
    var least := LeastDelta(maxSpeed, dt);
    LeastIsPositive(maxSpeed, dt);
    SlowsDownTo(m, deeds, a, t, least);
    if ScanCount(deeds, a, t) >= Ceil(top * 60.0 / (maxSpeed * dt)) {
      EnoughScans(top, maxSpeed, dt, ScanCount(deeds, a, t), least);
    }
  }

  lemma PlantAlwaysSlows(p: Points, dt: real, st: seq<PlantState>, ev: seq<PlantEvent>, least: real, top: real)
    requires Standard(p) && dt > 0.0 && IsPlantRun(p, dt, st, ev) && Safe(p, st[0])
    requires least == LeastDelta(st[0].conveyor.maxSpeed, dt) && top == TopSpeed(p)
    ensures AlwaysSlows(Motors(st), Deeds(p, dt, st, ev), least) && SpeedsWithin(Motors(st), top)
  {
    forall x, y | 0 <= x < |ev| && y == x + 1
      ensures Slows(Motors(st)[x], Deeds(p, dt, st, ev)[x], Motors(st)[y], least)
    {
      EveryEventSlows(p, dt, st, ev, x, least);
    }
    forall x | 0 <= x < |st|
      ensures 0.0 <= Motors(st)[x].speed <= top
    {
      SafeAt(p, dt, st, ev, x);
    }
  }

  /** Whatever is written to the setpoint and ramp registers: from the scan that
      executed STOP, and as long as none executes START, the conveyor's speed
      never rises, and it stands still once ceil(65535 scale * 60 / (max_speed
      dt)) scans have completed, that one included. */
  lemma BoundedStop(p: Points, dt: real, st: seq<PlantState>, ev: seq<PlantEvent>, a: nat, t: nat,
                    m: seq<Motor>, deeds: seq<Deed>, top: real, maxSpeed: real)
    requires Standard(p) && dt > 0.0 && IsPlantRun(p, dt, st, ev) && Safe(p, st[0])
    requires m == Motors(st) && deeds == Deeds(p, dt, st, ev)
    requires top == TopSpeed(p) && maxSpeed == st[0].conveyor.maxSpeed && maxSpeed * dt > 0.0
    requires StaysStopped(deeds, a, t)
    ensures m[t].speed <= m[t - 1].speed
    ensures ScanCount(deeds, a, t) >= Ceil(top * 60.0 / (maxSpeed * dt)) ==> m[t].speed == 0.0
  {
    PlantAlwaysSlows(p, dt, st, ev, LeastDelta(maxSpeed, dt), top);
    StandsStill(m, deeds, a, t, top, maxSpeed, dt);
  }

  // ------------------------------------------- how far the conveyor gets

  lemma PositionStep(p: Points, dt: real, s: PlantState, e: PlantEvent, after: PlantState, top: real, reach: real)
    requires Standard(p) && dt > 0.0 && Safe(p, s) && PlantStep(p, dt, s, e, after)
    requires top == TopSpeed(p) && reach == top * dt
    ensures s.conveyor.position <= after.conveyor.position
    ensures after.conveyor.position <= s.conveyor.position + if Scans(p, dt, s, e) then reach else 0.0
  {
    StepIsSafe(p, dt, s, e, after);
    if Scans(p, dt, s, e) {
      ScanReach(p, s, dt, after, top, reach);
    }
  }

  lemma ScanReach(p: Points, s: PlantState, dt: real, after: PlantState, top: real, reach: real)
    requires CanScan(p, s) && ScanStep(p, s, dt) == Ok(after)
    requires dt > 0.0 && 0.0 <= after.conveyor.speed <= top && reach == top * dt
    ensures s.conveyor.position <= after.conveyor.position <= s.conveyor.position + reach
  {
    ClampHoldsIff(Parameter(p, s.tables["holding"], 1));
    C.StepReach(CommandedConveyor(p, s), dt, after.conveyor, top, reach);
  }

  ghost function Positions(st: seq<PlantState>): (r: seq<real>)
    ensures |r| == |st|
  {
    seq(|st|, t requires 0 <= t < |st| => st[t].conveyor.position)
  }

  lemma {:induction false} ReachAddsUp(x: seq<real>, deeds: seq<Deed>, t: nat, reach: real)
    requires |x| == |deeds| + 1 && t < |x|
    requires forall i, j :: 0 <= i < |deeds| && j == i + 1 ==> x[i] <= x[j] <= x[i] + if deeds[i].scans then reach else 0.0
    ensures x[0] <= x[t] <= x[0] + Times(ScanCount(deeds, 0, t), reach)
    decreases t
  {
    if t == 0 {
    } else {
      var before := t - 1;
      ReachAddsUp(x, deeds, before, reach);
      assert x[before] <= x[t];
    }
  }

  /** Over every run, the conveyor never runs backwards, and every completed scan
      takes it at most the top speed times dt further. */
  lemma PositionIsBounded(p: Points, dt: real, st: seq<PlantState>, ev: seq<PlantEvent>, t: nat,
                          x: seq<real>, deeds: seq<Deed>, top: real, reach: real)
    requires Standard(p) && dt > 0.0 && IsPlantRun(p, dt, st, ev) && Safe(p, st[0]) && t < |st|
    requires x == Positions(st) && deeds == Deeds(p, dt, st, ev) && top == TopSpeed(p) && reach == top * dt
    ensures x[0] <= x[t] <= x[0] + Times(ScanCount(deeds, 0, t), reach)
  {
    forall i, j | 0 <= i < |deeds| && j == i + 1
      ensures x[i] <= x[j] <= x[i] + if deeds[i].scans then reach else 0.0
    {
      SafeAt(p, dt, st, ev, i);
      PositionStep(p, dt, st[i], ev[i], st[j], top, reach);
    }
    ReachAddsUp(x, deeds, t, reach);
  }

  lemma NotTooFar(p: Points, position: real, limit: real)
    requires p.position.scale > 0.0 && 0.0 <= position < limit && limit == 16777215.5 * Unit(253) * p.position.scale
    ensures !TooFar(p, position)
  {
    DivBound(16777215.5 * Unit(253), position, p.position.scale);
    DivBound(0.0, position, p.position.scale);
  }

  /** So from a start that is not behind zero no scan raises before the count of
      completed scans that could take the conveyor to the end of binary32. */
  lemma NoScanRaisesBefore(p: Points, dt: real, st: seq<PlantState>, ev: seq<PlantEvent>, t: nat,
                           x: seq<real>, deeds: seq<Deed>, top: real, reach: real, limit: real)
    requires Standard(p) && dt > 0.0 && IsPlantRun(p, dt, st, ev) && Safe(p, st[0]) && t < |ev| && ev[t].Tick?
    requires x == Positions(st) && deeds == Deeds(p, dt, st, ev) && top == TopSpeed(p) && reach == top * dt
    requires limit == 16777215.5 * Unit(253) * p.position.scale
    requires 0.0 <= x[0] && x[0] + Times(ScanCount(deeds, 0, t), reach) < limit
    ensures deeds[t].scans
  {
    PositionIsBounded(p, dt, st, ev, t, x, deeds, top, reach);
    NotTooFar(p, st[t].conveyor.position, limit);
    WholeRunSafety(p, dt, st, ev, t);
  }

  // ------------------------------------------------------------ two-scan lag

  lemma {:induction false} SpeedStandsBetweenScans(p: Points, dt: real, st: seq<PlantState>, ev: seq<PlantEvent>, a: nat, t: nat)
    requires Standard(p) && dt > 0.0 && IsPlantRun(p, dt, st, ev) && Safe(p, st[0]) && a <= t < |st|
    requires forall x :: a <= x < t ==> !Scans(p, dt, st[x], ev[x])
    ensures st[t].conveyor.speed == st[a].conveyor.speed
    decreases t
  {
    if t == a {
    } else {
      SpeedStandsBetweenScans(p, dt, st, ev, a, t - 1);
      SafeAt(p, dt, st, ev, t - 1);
      StepIsSafe(p, dt, st[t - 1], ev[t - 1], st[t]);
    }
  }

  lemma ShownUntilTheNextScan(p: Points, dt: real, s: PlantState, e: PlantEvent, after: PlantState, m: Mapping, words: seq<int>)
    requires Standard(p) && dt > 0.0 && Safe(p, s) && PlantStep(p, dt, s, e, after) && !Scans(p, dt, s, e)
    requires !m.typ.Unknown? && m.table == "input" && F.Shows(s.tables, m, words)
    ensures F.Shows(after.tables, m, words)
  {
    StepIsSafe(p, dt, s, e, after);
    if e.WriteRegs? && Write(s.tables, e.fc, e.address, e.values).Ok? {
      WritesStayInTheirTables(s.tables, e.fc, e.address, e.values, after.tables);
    }
    forall i | 0 <= i < |words|
      ensures F.ShowsAt(after.tables, m, i, words[i])
    {
      assert F.ShowsAt(s.tables, m, i, words[i]);
    }
  }

  lemma {:induction false} StaysShown(tables: seq<Tables>, a: nat, t: nat, m: Mapping, words: seq<int>)
    requires !m.typ.Unknown? && a <= t < |tables| && F.Shows(tables[a], m, words)
    requires forall x, y :: a <= x < t && y == x + 1 && F.Shows(tables[x], m, words) ==> F.Shows(tables[y], m, words)
    ensures F.Shows(tables[t], m, words)
    decreases t
  {
    if t == a {
    } else {
      var before := t - 1;
      StaysShown(tables, a, before, m, words);
    }
  }

  lemma ShownBetweenScans(p: Points, dt: real, st: seq<PlantState>, ev: seq<PlantEvent>, a: nat, t: nat,
                          m: Mapping, words: seq<int>)
    requires Standard(p) && dt > 0.0 && IsPlantRun(p, dt, st, ev) && Safe(p, st[0]) && a <= t < |st|
    requires forall x :: a <= x < t ==> !Scans(p, dt, st[x], ev[x])
    requires !m.typ.Unknown? && m.table == "input" && F.Shows(st[a].tables, m, words)
    ensures F.Shows(st[t].tables, m, words)
  {
    var tables := seq(|st|, x requires 0 <= x < |st| => st[x].tables);
    forall x, y | a <= x < t && y == x + 1 && F.Shows(tables[x], m, words)
      ensures F.Shows(tables[y], m, words)
    {
      SafeAt(p, dt, st, ev, x);
      ShownUntilTheNextScan(p, dt, st[x], ev[x], st[y], m, words);
    }
    StaysShown(tables, a, t, m, words);
  }

  /** ActualSpeed shows this speed. */
  ghost predicate ShowsSpeed(p: Points, tables: Tables, speed: real) {
    !p.actual.typ.Unknown? && Encode(p.actual, Finite(speed), p.meta).Ok?
    && F.Shows(tables, p.actual, Encode(p.actual, Finite(speed), p.meta).value)
  }

  lemma ScanShowsTheSpeed(p: Points, s: PlantState, dt: real, after: PlantState)
    requires CanScan(p, s) && ScanStep(p, s, dt) == Ok(after)
    ensures ShowsSpeed(p, after.tables, s.conveyor.speed)
  {
    assert Part(p, 2) == p.actual;
    F.ScanPublishes(p, s, dt, after, 2);
  }

  /** Between two successive completed scans a and b of a run anything may happen:
      writes, faults, refused and raising events. The setpoint in the table at a
      drives the machine in a; ActualSpeed shows the outcome only after b, and
      from a to b, in the input table, still the speed from before a. */
  lemma SetpointShowsAfterTwoScans(p: Points, dt: real, st: seq<PlantState>, ev: seq<PlantEvent>, a: nat, b: nat)
    requires Standard(p) && dt > 0.0 && IsPlantRun(p, dt, st, ev) && Safe(p, st[0])
    requires a < b < |ev| && Scans(p, dt, st[a], ev[a]) && Scans(p, dt, st[b], ev[b])
    requires forall x :: a < x < b ==> !Scans(p, dt, st[x], ev[x])
    ensures CommandedConveyor(p, st[a]).rampTime != 0.0
    ensures ShowsSpeed(p, st[b + 1].tables,
                       C.NextSpeed(st[a].conveyor.speed, C.Target(CommandedConveyor(p, st[a])),
                                   C.MaxDelta(CommandedConveyor(p, st[a]), dt)))
    ensures p.actual.table == "input" ==>
              forall t :: a < t <= b ==> ShowsSpeed(p, st[t].tables, st[a].conveyor.speed)
  {
    ScanShowsTheSpeed(p, st[a], dt, st[a + 1]);
    ScanShowsTheSpeed(p, st[b], dt, st[b + 1]);
    SpeedAfterScan(p, st[a], dt, st[a + 1]);
    SpeedStandsBetweenScans(p, dt, st, ev, a + 1, b);
    if p.actual.table == "input" {
      var words := Encode(p.actual, Finite(st[a].conveyor.speed), p.meta).value;
      forall t: nat | a < t <= b
        ensures ShowsSpeed(p, st[t].tables, st[a].conveyor.speed)
      {
        ShownBetweenScans(p, dt, st, ev, a + 1, t, p.actual, words);
      }
    }
  }

  // --------------------------------------------------- what readers decode

  /** A read of a signal as the gateway makes it: FC4 of the input table, FC3 of the
      holding table; then decoded. */
  function ReadBack(m: Mapping, tables: Tables, meta: Meta): Option<Float>
    requires !m.typ.Unknown?
  {
    match Read(tables, if m.table == "input" then 4 else 3, m.addr, Width(m.typ))
    case Err(_) => None
    case Ok(words) =>
      if !Registers(words) then None
      else match Decode(m, words, meta)
        case Err(_) => None
        case Ok(v) => Some(v)
  }

  lemma ShownIsRead(m: Mapping, tables: Tables, meta: Meta, words: seq<int>)
    requires !m.typ.Unknown? && F.Shows(tables, m, words) && (m.table == "input" || m.table == "holding") && Registers(words)
    ensures Decode(m, words, meta).Ok? ==> ReadBack(m, tables, meta) == Some(Decode(m, words, meta).value)
  {
    assert |words| > 0 && F.ShowsAt(tables, m, 0, words[0]);
    forall a | m.addr <= a < m.addr + |words|
      ensures a in tables[m.table]
    {
      assert F.ShowsAt(tables, m, a - m.addr, words[a - m.addr]);
    }
    var r := Read(tables, if m.table == "input" then 4 else 3, m.addr, Width(m.typ)).value;
    forall i | 0 <= i < |words|
      ensures r[i] == words[i]
    {
      assert F.ShowsAt(tables, m, i, words[i]);
    }
    assert r == words;
  }

  /** u is r to within half a unit in the last place of binary32. */
  predicate Near32(u: Float, r: real) {
    IsFinite(u) && Abs(ToReal(u) - r) <= Unit(Exponent(Abs(r), 0)) / 2.0
  }

  lemma Nearest(r: real, bits: int) returns (u: Float)
    requires Pack(Finite(r)) == Some(bits)
    ensures 0 <= bits < 0x1_0000_0000 && u == Unpack(bits) && Near32(u, r)
  {
    PackIsNearest(r, bits);
    u := Unpack(bits);
  }

  /** A binary32 signal comes back as its own rounding. */
  lemma FloatComesBack(m: Mapping, x: real, meta: Meta, words: seq<int>) returns (u: Float)
    requires m.typ.Float32? && m.scale > 0.0 && Encode(m, Finite(x), meta) == Ok(words)
    ensures Registers(words) && Decode(m, words, meta) == Ok(Scaled(u, m.scale)) && Near32(u, x / m.scale)
  {
    FloatBijection(Finite(x / m.scale), [0, 0], meta);
    u := Nearest(x / m.scale, Pack(Finite(x / m.scale)).value);
  }

  lemma SpeedComesBack(p: Points, s: PlantState, dt: real, after: PlantState)
    requires Standard(p) && CanScan(p, s) && ScanStep(p, s, dt) == Ok(after) && p.actual.table in {"input", "holding"}
    ensures var v := ReadBack(p.actual, after.tables, p.meta);
            v.Some? && v.value.Finite? && Abs(v.value.r - s.conveyor.speed) <= p.actual.scale / 2.0
  {
    assert Part(p, 2) == p.actual;
    F.ScanPublishes(p, s, dt, after, 2);
    DecodeOfEncode(p.actual, s.conveyor.speed, p.meta);
    ShownIsRead(p.actual, after.tables, p.meta, Encode(p.actual, Finite(s.conveyor.speed), p.meta).value);
  }

  lemma PositionComesBack(p: Points, s: PlantState, dt: real, after: PlantState) returns (u: Float)
    requires Standard(p) && CanScan(p, s) && ScanStep(p, s, dt) == Ok(after) && p.position.table in {"input", "holding"}
    ensures ReadBack(p.position, after.tables, p.meta) == Some(Scaled(u, p.position.scale))
    ensures Near32(u, s.conveyor.position / p.position.scale)
  {
    assert Part(p, 3) == p.position;
    F.ScanPublishes(p, s, dt, after, 3);
    var words := Encode(p.position, Finite(s.conveyor.position), p.meta).value;
    u := FloatComesBack(p.position, s.conveyor.position, p.meta, words);
    ShownIsRead(p.position, after.tables, p.meta, words);
  }

  lemma StateComesBack(p: Points, s: PlantState, dt: real, after: PlantState)
    requires Standard(p) && CanScan(p, s) && ScanStep(p, s, dt) == Ok(after) && p.cncState.table in {"input", "holding"}
    ensures s.cnc.state in p.codes && ReadBack(p.cncState, after.tables, p.meta) == Some(Finite(p.codes[s.cnc.state] as real))
  {
    assert Part(p, 4) == p.cncState;
    EveryState(s.cnc.state);
    var code := p.codes[s.cnc.state];
    CodeEncodes(p, code);
    F.ScanPublishes(p, s, dt, after, 4);
    OneWordDecodes(p.cncState, [code], p.meta);
    assert code as real * 1.0 == code as real;
    ShownIsRead(p.cncState, after.tables, p.meta, [code]);
  }

  /** What any reader makes of the three published signals after a scan: the speed
      the scan began with to within half a scale unit, the position as u scaled, u
      being its rounding to binary32, and the state's code exactly. */
  lemma ReadersSeeTheMachine(p: Points, s: PlantState, dt: real, after: PlantState) returns (u: Float)
    requires Standard(p) && CanScan(p, s) && ScanStep(p, s, dt) == Ok(after)
    requires p.actual.table in {"input", "holding"} && p.position.table in {"input", "holding"}
    requires p.cncState.table in {"input", "holding"}
    ensures var speed := ReadBack(p.actual, after.tables, p.meta);
            speed.Some? && speed.value.Finite? && Abs(speed.value.r - s.conveyor.speed) <= p.actual.scale / 2.0
    ensures ReadBack(p.position, after.tables, p.meta) == Some(Scaled(u, p.position.scale))
            && Near32(u, s.conveyor.position / p.position.scale)
    ensures s.cnc.state in p.codes && ReadBack(p.cncState, after.tables, p.meta) == Some(Finite(p.codes[s.cnc.state] as real))
  {
    SpeedComesBack(p, s, dt, after);
    u := PositionComesBack(p, s, dt, after);
    StateComesBack(p, s, dt, after);
  }
}
