/** One PLC scan (src/plc/scan.py): snapshot, execute, commit the outputs, then
    step the machine. First as a pure step that says what every register holds
    afterwards, then as the program that merges dictionaries. */
module Scan {
  import opened Wrappers
  import opened Numbers
  import opened Binary32
  import opened Commands
  import opened Model
  import opened Codec
  import opened ImageTable
  import opened Points
  import C = ConveyorMachine
  import M = CncMachine

  const RAMP_TIME_MIN := 0.05
  const RAMP_TIME_MAX := 60.0

  /** min(max(ramp, RAMP_TIME_MIN), RAMP_TIME_MAX), with Python's comparisons:
      max keeps its first argument unless the second is greater, and no
      comparison with NaN is true. */
  function Clamp(ramp: Float): Float {
    var raised := if Below(ramp, RAMP_TIME_MIN) then Finite(RAMP_TIME_MIN) else ramp;
    if Above(raised, RAMP_TIME_MAX) then Finite(RAMP_TIME_MAX) else raised
  }

  /** What is put in force for each value a client can write. A number within the
      limits is kept, one outside (the infinities and -0 among them) becomes the
      nearer limit, and only NaN gets through. */
  lemma ClampHoldsIff(ramp: Float)
    ensures Clamp(ramp).Finite? && 0.05 <= Clamp(ramp).r <= 60.0 <==> ramp != NaN
    ensures ramp == NaN ==> Clamp(ramp) == NaN
    ensures ramp.Finite? && 0.05 <= ramp.r <= 60.0 ==> Clamp(ramp) == ramp
    ensures (ramp.Finite? && ramp.r < 0.05) || ramp == NegZero || ramp == NegInf ==> Clamp(ramp) == Finite(0.05)
    ensures (ramp.Finite? && ramp.r > 60.0) || ramp == PosInf ==> Clamp(ramp) == Finite(60.0)
  {
  }

  // ------------------------------------------------------------- the state

  datatype PlantState = PlantState(tables: Tables, conveyor: C.ConveyorState, cnc: M.CncValue)

  predicate Holds(tables: Tables, t: string, a: int) {
    t in tables && a in tables[t]
  }

  ghost predicate HoldsSpan(tables: Tables, m: Mapping)
    requires !m.typ.Unknown?
  {
    forall t, a :: At(m, t, a) ==> Holds(tables, t, a)
  }

  /** Every register the contract maps exists: what _init_registers sets up. */
  ghost predicate Laid(p: Points, tables: Tables)
    requires TypesOk(p)
  {
    (forall k :: 0 <= k < 5 ==> HoldsSpan(tables, Part(p, k)))
    && (forall a :: p.cmd.Has(a) || p.ack.Has(a) ==> Holds(tables, BLOCK_TABLE, a))
    && "holding" in tables
  }

  /** Registers are 16 bits wide. */
  ghost predicate Wide16(tables: Tables) {
    forall t, a :: Holds(tables, t, a) ==> 0 <= tables[t][a] < 0x1_0000
  }

  ghost predicate Sound(p: Points, s: PlantState) {
    WellPlaced(p) && Laid(p, s.tables) && Wide16(s.tables) && M.Timed(s.cnc)
  }

  function SpanOf(table: map<int, int>, m: Mapping): seq<int>
    requires !m.typ.Unknown? && forall a :: m.Addresses().Has(a) ==> a in table
  {
    seq(Width(m.typ), i requires 0 <= i < Width(m.typ) =>
      assert m.Addresses().Has(m.addr + i); table[m.addr + i])
  }

  /** The two parameters the scan reads are there, and 16 bits wide. */
  ghost predicate Readable(p: Points, holding: map<int, int>) {
    TypesOk(p)
    && forall k, a :: 0 <= k < 2 && Part(p, k).Addresses().Has(a) ==> a in holding && 0 <= holding[a] < 0x1_0000
  }

  lemma SpanIsRegisters(p: Points, holding: map<int, int>, k: int)
    requires Readable(p, holding) && 0 <= k < 2
    ensures forall a :: Part(p, k).Addresses().Has(a) ==> a in holding
    ensures Registers(SpanOf(holding, Part(p, k)))
  {
  }

  /** A parameter as decoded from the snapshot: 0 the setpoint, 1 the ramp time. */
  ghost function Parameter(p: Points, holding: map<int, int>, k: int): Float
    requires Readable(p, holding) && 0 <= k < 2
  {
    SpanIsRegisters(p, holding, k);
    Decode(Part(p, k), SpanOf(holding, Part(p, k)), p.meta).value
  }

  /** An integer register always holds a number. */
  lemma SetpointIsANumber(p: Points, holding: map<int, int>)
    requires Readable(p, holding) && !p.setpoint.typ.Float32?
    ensures IsFinite(Parameter(p, holding, 0))
  {
    assert p.setpoint == Part(p, 0);
  }

  // --------------------------------------------------------- input and output

  /** The frozen snapshot logic reads. */
  datatype InputImage = InputImage(holding: map<int, int>, speed: real, position: real, fault: bool, cnc: CncState)

  function Snapshot(s: PlantState): InputImage
    requires "holding" in s.tables
  {
    InputImage(s.tables["holding"], s.conveyor.speed, s.conveyor.position, s.conveyor.fault, s.cnc.state)
  }

  ghost predicate Usable(p: Points, image: InputImage) {
    Readable(p, image.holding)
    && p.cmdCode in image.holding && p.cmdSeq in image.holding && p.ackSeq in image.holding
  }

  lemma SnapshotIsUsable(p: Points, s: PlantState)
    requires Sound(p, s)
    ensures Usable(p, Snapshot(s))
  {
    forall k, a | 0 <= k < 2 && Part(p, k).Addresses().Has(a)
      ensures Holds(s.tables, "holding", a)
    {
      assert At(Part(p, k), "holding", a);
    }
    assert Holds(s.tables, BLOCK_TABLE, p.cmdCode) && Holds(s.tables, BLOCK_TABLE, p.cmdSeq);
    assert Holds(s.tables, BLOCK_TABLE, p.ackSeq);
  }

  /** A number is waiting that has not been acknowledged. */
  predicate Pending(p: Points, image: InputImage)
    requires p.cmdSeq in image.holding && p.ackSeq in image.holding
  {
    image.holding[p.cmdSeq] != image.holding[p.ackSeq]
  }

  function Answer(p: Points, image: InputImage): int
    requires p.cmdCode in image.holding
  {
    CommandResult(image.holding[p.cmdCode], image.fault, image.cnc)
  }

  /** The value published at part k: speed, position or state code. */
  function PublishedValue(p: Points, image: InputImage, k: int): Float
    requires ALL_STATES <= p.codes.Keys && 2 <= k < 5
  {
    if k == 2 then Finite(image.speed)
    else if k == 3 then Finite(image.position)
    else EveryState(image.cnc); Finite(p.codes[image.cnc] as real)
  }

  function PublishedWords(p: Points, image: InputImage, k: int): Result<seq<int>, CodecError>
    requires TypesOk(p) && 2 <= k < 5
  {
    Encode(Part(p, k), PublishedValue(p, image, k), p.meta)
  }

  /** Everything one scan writes to the registers: the acknowledgement, as result
      and number, when a command is pending, and the three published spans. */
  datatype Plan = Plan(ack: Option<(int, int)>, actual: seq<int>, position: seq<int>, state: seq<int>)

  function WordsFor(plan: Plan, k: int): seq<int> {
    if k == 2 then plan.actual else if k == 3 then plan.position else plan.state
  }

  /** The encodes in the order execute publishes; the first failure raises. */
  function MakePlan(p: Points, image: InputImage): Result<Plan, CodecError>
    requires TypesOk(p) && p.cmdCode in image.holding && p.cmdSeq in image.holding && p.ackSeq in image.holding
  {
    var actual :- PublishedWords(p, image, 2);
    var position :- PublishedWords(p, image, 3);
    var state :- PublishedWords(p, image, 4);
    Ok(Plan(if Pending(p, image) then Some((Answer(p, image), image.holding[p.cmdSeq])) else None,
            actual, position, state))
  }

  lemma EncodeHasWidth(m: Mapping, v: Float, meta: Meta)
    requires !m.typ.Unknown?
    ensures Encode(m, v, meta).Ok? ==> |Encode(m, v, meta).value| == Width(m.typ)
  {
  }

  predicate Fits(p: Points, plan: Plan)
    requires TypesOk(p)
  {
    forall k :: 2 <= k < 5 ==> |WordsFor(plan, k)| == Width(Part(p, k).typ)
  }

  lemma MadePlanFits(p: Points, image: InputImage, plan: Plan)
    requires Usable(p, image) && MakePlan(p, image) == Ok(plan)
    ensures Fits(p, plan)
    ensures forall k :: 2 <= k < 5 ==> PublishedWords(p, image, k) == Ok(WordsFor(plan, k))
    ensures plan.ack == if Pending(p, image) then Some((Answer(p, image), image.holding[p.cmdSeq])) else None
  {
    forall k | 2 <= k < 5
      ensures PublishedWords(p, image, k) == Ok(WordsFor(plan, k))
      ensures |WordsFor(plan, k)| == Width(Part(p, k).typ)
    {
      EncodeHasWidth(Part(p, k), PublishedValue(p, image, k), p.meta);
    }
  }

  /** What a plan puts into register (t, a), if anything. */
  function Planned(p: Points, plan: Plan, t: string, a: int): Option<int>
    requires TypesOk(p) && Fits(p, plan)
  {
    if plan.ack.Some? && t == BLOCK_TABLE && a == p.ackSeq then Some(plan.ack.value.1)
    else if plan.ack.Some? && t == BLOCK_TABLE && a == p.ackResult then Some(plan.ack.value.0)
    else PlannedValue(p, plan, 4, t, a)
  }

  /** The last published part, up to k, that claims the register. */
  function PlannedValue(p: Points, plan: Plan, k: int, t: string, a: int): Option<int>
    requires TypesOk(p) && Fits(p, plan) && 1 <= k < 5
  {
    if k == 1 then None
    else if At(Part(p, k), t, a) then Some(WordsFor(plan, k)[a - Part(p, k).addr])
    else PlannedValue(p, plan, k - 1, t, a)
  }

  /** The tables afterwards: each register by what the plan says of it. */
  function Overlay(p: Points, tables: Tables, plan: Plan): Tables
    requires TypesOk(p) && Fits(p, plan)
  {
    map t | t in tables ::
      map a | a in tables[t] ::
        match Planned(p, plan, t, a)
        case Some(v) => v
        case None => tables[t][a]
  }

  // ------------------------------------------------------------ the pure step

  ghost predicate CanScan(p: Points, s: PlantState) {
    Sound(p, s) && Usable(p, Snapshot(s))
    && IsFinite(Parameter(p, s.tables["holding"], 0)) && Parameter(p, s.tables["holding"], 1) != NaN
  }

  /** A command of this code takes effect in this scan. */
  predicate Accepted(p: Points, image: InputImage, code: int)
    requires p.cmdCode in image.holding && p.cmdSeq in image.holding && p.ackSeq in image.holding
  {
    Pending(p, image) && image.holding[p.cmdCode] == code && Answer(p, image) == OK
  }

  /** The conveyor after the outputs are committed, before it moves. */
  ghost function CommandedConveyor(p: Points, s: PlantState): C.ConveyorState
    requires CanScan(p, s)
  {
    var image := Snapshot(s);
    ClampHoldsIff(Parameter(p, image.holding, 1));
    s.conveyor.(
      running := if Accepted(p, image, START) then true
                 else if Accepted(p, image, STOP) then false
                 else s.conveyor.running,
      setpoint := ToReal(Parameter(p, image.holding, 0)),
      rampTime := Clamp(Parameter(p, image.holding, 1)).r)
  }

  ghost function CommandedCnc(p: Points, s: PlantState): M.CncValue
    requires CanScan(p, s)
  {
    if Accepted(p, Snapshot(s), CNC_START) then M.Started(s.cnc)
    else if Accepted(p, Snapshot(s), CNC_RESET) then M.WasReset(s.cnc)
    else s.cnc
  }

  /** The scan as one step: every register from the start-of-scan snapshot, and
      the machine moved by dt under the new commands. An encode that fails
      raises before anything is committed. */
  ghost function ScanStep(p: Points, s: PlantState, dt: real): Result<PlantState, CodecError>
    requires CanScan(p, s)
  {
    var plan :- MakePlan(p, Snapshot(s));
    MadePlanFits(p, Snapshot(s), plan);
    ClampHoldsIff(Parameter(p, s.tables["holding"], 1));
    Ok(PlantState(Overlay(p, s.tables, plan), C.Stepped(CommandedConveyor(p, s), dt), M.Stepped(CommandedCnc(p, s), dt)))
  }
}
