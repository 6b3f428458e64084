/** The plant as it ships: config/tags.yaml and the machine of
    src/plc/__main__.py meet every hypothesis of the theorems about runs. */
module Deployment {
  import opened Wrappers
  import opened Numbers
  import opened Binary32
  import opened Commands
  import opened Model
  import opened Codec
  import opened ImageTable
  import opened Points
  import opened Scan
  import opened PlantRuns
  import Loader
  import H = Handshake
  import D = Soundness
  import W = WireLink
  import V = CycleView
  import S = Sampling
  import C = ConveyorMachine
  import M = CncMachine
  import P = PlcObject
  import F = ScanFrame

  // ------------------------------------------------------------- lookups

  lemma {:induction false} FindsDistinct(signals: seq<Signal>, i: nat)
    requires Loader.DistinctNames(signals) && i < |signals|
    ensures Find(signals, signals[i].name) == Some(i)
  {
    if i < |signals| - 1 {
      FindsDistinct(signals[..|signals| - 1], i);
    }
  }

  lemma {:induction false} OffsetOfDistinct(layout: seq<string>, i: nat)
    requires i < |layout| && forall j, k :: 0 <= j < k < |layout| ==> layout[j] != layout[k]
    ensures Offset(layout, layout[i]) == Some(i)
  {
    if i < |layout| - 1 {
      OffsetOfDistinct(layout[..|layout| - 1], i);
    }
  }

  // ------------------------------------------------------ the shipped contract

  /** The states by register code. */
  const ORDER: seq<CncState> := [Idle, Homing, Loading, Running, Unloading, Fault]

  function NameOf(state: CncState): string {
    match state
    case Idle => "Idle"
    case Homing => "Homing"
    case Loading => "Loading"
    case Running => "Running"
    case Unloading => "Unloading"
    case Fault => "Fault"
  }

  const STATES: map<int, string> := map code: int | 0 <= code < 6 :: NameOf(ORDER[code])

  const MAPPINGS: seq<Mapping> := [
    Mapping("holding", 10, UInt16, 0.001),
    Mapping("holding", 12, Float32, 1.0),
    Mapping("input", 20, UInt16, 0.001),
    Mapping("input", 30, Float32, 1.0),
    Mapping("input", 40, UInt16, 1.0)]

  const TYPES: seq<Option<string>> := [Some("Double"), Some("Float"), Some("Double"), Some("Float"), None]

  const TAGS := Contract(
    Meta("high_first", "big", 10, 100),
    seq(5, i requires 0 <= i < 5 =>
      Signal(PartName(i), MAPPINGS[i], TYPES[i], if i == 4 then Some(STATES) else None)),
    RegisterBlock(100, W.FIELDS),
    RegisterBlock(110, ["ack_seq", "ack_result"]))

  lemma NamesDiffer()
    ensures Loader.DistinctNames(TAGS.signals)
  {
    forall i, j | 0 <= i < j < 5
      ensures PartName(i) != PartName(j)
    {
      PartNamesDiffer(i, j);
    }
  }

  lemma NothingOverlaps()
    ensures Loader.TypesKnown(TAGS) && Loader.AllFit(TAGS)
  {
    assert "holding" != "input" by { assert |"holding"| != |"input"|; }
    forall i: nat, j: nat | i < 7 && j < 7
      ensures Loader.Fits(Loader.EntryAt(TAGS, i), Loader.EntryAt(TAGS, j))
    {
    }
  }

  /** The loader accepts config/tags.yaml, */
  lemma TagsAreAccepted()
    ensures Loader.Valid(TAGS)
  {
    NamesDiffer();
    NothingOverlaps();
  }

  lemma NamedBack(state: CncState)
    ensures StateNamed(NameOf(state)) == Some(state)
  {
    match state
    case Idle =>
    case Homing =>
    case Loading => assert "Loading"[0] != "Running"[0];
    case Running => assert "Loading"[0] != "Running"[0];
    case Unloading =>
    case Fault =>
  }

  lemma NamesAreInOrder()
    ensures StateNames(STATES)
    ensures forall code: int :: 0 <= code < 6 ==> StateNamed(STATES[code]) == Some(ORDER[code])
  {
    forall code: int | 0 <= code < 6
      ensures StateNamed(STATES[code]) == Some(ORDER[code])
    {
      NamedBack(ORDER[code]);
    }
  }

  lemma StatesAreNamed()
    ensures StateNames(STATES) && ALL_STATES <= Codes(STATES).Keys
    ensures forall code: int :: 0 <= code < 6 ==> ORDER[code] in Codes(STATES) && Codes(STATES)[ORDER[code]] == code
    ensures forall state :: state in Codes(STATES) ==> 0 <= Codes(STATES)[state] < 6
  {
    NamesAreInOrder();
    var codes := Codes(STATES);
    forall code: int | 0 <= code < 6
      ensures ORDER[code] in codes && codes[ORDER[code]] == code
    {
      assert code in STATES;
    }
    assert Idle == ORDER[0] && Homing == ORDER[1] && Loading == ORDER[2] && Running == ORDER[3] && Unloading == ORDER[4]
           && Fault == ORDER[5];
  }

  lemma SignalsAreThere()
    ensures AllPresent(TAGS)
    ensures forall k :: 0 <= k < 5 ==> PartMapping(TAGS, k) == MAPPINGS[k]
    ensures CncStates(TAGS) == Some(STATES)
  {
    NamesDiffer();
    forall k | 0 <= k < 5
      ensures Find(TAGS.signals, PartName(k)) == Some(k)
    {
      FindsDistinct(TAGS.signals, k);
    }
  }

  lemma FieldsAreDistinct()
    ensures forall j, k :: 0 <= j < k < 4 ==> W.FIELDS[j] != W.FIELDS[k]
  {
    assert |W.FIELDS[0]| == 8 && |W.FIELDS[1]| == 7 && |W.FIELDS[2]| == 7 && |W.FIELDS[3]| == 3;
    assert W.FIELDS[1][5] == 'l' && W.FIELDS[2][5] == 'h';
  }

  lemma FieldsAreThere()
    ensures W.FieldLayout(TAGS.commandBlock.layout)
    ensures Offset(TAGS.commandBlock.layout, "cmd_code") == Some(0) && Offset(TAGS.commandBlock.layout, "seq") == Some(3)
    ensures Offset(TAGS.ackBlock.layout, "ack_seq") == Some(0) && Offset(TAGS.ackBlock.layout, "ack_result") == Some(1)
  {
    FieldsAreDistinct();
    forall i: nat | i < 4
      ensures Offset(TAGS.commandBlock.layout, W.FIELDS[i]) == Some(i)
    {
      OffsetOfDistinct(TAGS.commandBlock.layout, i);
    }
    assert W.FIELDS[0] == "cmd_code" && W.FIELDS[3] == "seq";
    assert |"ack_seq"| != |"ack_result"|;
    OffsetOfDistinct(TAGS.ackBlock.layout, 0);
    OffsetOfDistinct(TAGS.ackBlock.layout, 1);
  }

  lemma ScalesArePositive()
    ensures forall k :: 0 <= k < 5 ==> MAPPINGS[k].scale > 0.0
  {
  }

  lemma CommandFields()
    ensures Offset(TAGS.commandBlock.layout, "cmd_code").Some? && Offset(TAGS.commandBlock.layout, "seq").Some?
    ensures Offset(TAGS.ackBlock.layout, "ack_seq").Some? && Offset(TAGS.ackBlock.layout, "ack_result").Some?
    ensures W.FieldLayout(TAGS.commandBlock.layout)
  {
    FieldsAreThere();
  }

  /** The lookups of a contract succeed, with these results. */
  ghost predicate LooksUp(c: Contract, mappings: seq<Mapping>, states: map<int, string>) {
    |mappings| == 5 && AllPresent(c) && CncStates(c) == Some(states)
    && forall k :: 0 <= k < 5 ==> PartMapping(c, k) == mappings[k]
  }

  predicate HasFields(command: seq<string>, ack: seq<string>) {
    Offset(command, "cmd_code").Some? && Offset(command, "seq").Some?
    && Offset(ack, "ack_seq").Some? && Offset(ack, "ack_result").Some?
  }

  predicate Suits(mappings: seq<Mapping>) {
    |mappings| == 5
    && mappings[0].table == "holding" && mappings[0].typ.UInt16? && mappings[1].table == "holding"
    && forall k :: 0 <= k < 5 ==> mappings[k].scale > 0.0
  }

  predicate NamesAll(states: map<int, string>) {
    StateNames(states) && ALL_STATES <= Codes(states).Keys
  }

  lemma RequiredOf(c: Contract, mappings: seq<Mapping>, states: map<int, string>)
    requires LooksUp(c, mappings, states) && HasFields(c.commandBlock.layout, c.ackBlock.layout)
    requires Suits(mappings) && NamesAll(states)
    ensures Required(c)
    ensures var p := PointsOf(c);
            p.setpoint == mappings[0] && p.ramp == mappings[1] && p.actual == mappings[2]
            && p.position == mappings[3] && p.cncState == mappings[4] && p.codes == Codes(states) && p.meta == c.meta
  {
  }

  lemma TagsLookUp()
    ensures LooksUp(TAGS, MAPPINGS, STATES)
  {
    SignalsAreThere();
  }

  lemma TagsHaveFields()
    ensures HasFields(TAGS.commandBlock.layout, TAGS.ackBlock.layout)
  {
    CommandFields();
  }

  lemma MappingsSuit()
    ensures Suits(MAPPINGS)
  {
    ScalesArePositive();
  }

  lemma StatesNameAll()
    ensures NamesAll(STATES)
  {
    StatesAreNamed();
  }

  /** gives the PLC all it looks for, */
  lemma TagsAreSufficient()
    ensures Required(TAGS)
    ensures PointsOf(TAGS).codes == Codes(STATES)
  {
    TagsLookUp();
    TagsHaveFields();
    MappingsSuit();
    StatesNameAll();
    RequiredOf(TAGS, MAPPINGS, STATES);
  }

  lemma CodesFit()
    ensures StateNames(STATES) && V.Unambiguous(Codes(STATES))
    ensures forall state :: state in Codes(STATES) ==> 0 <= Codes(STATES)[state] < 0x1_0000
    ensures Idle in Codes(STATES) && Codes(STATES)[Idle] == 0
  {
    StatesAreNamed();
    V.CodesAreDeclared(STATES);
    assert ORDER[0] == Idle;
  }

  /** and has the types the theorems about runs speak of. */
  lemma PartsAreStandard(p: Points, codes: map<CncState, int>)
    requires p.setpoint == MAPPINGS[0] && p.ramp == MAPPINGS[1] && p.actual == MAPPINGS[2]
    requires p.position == MAPPINGS[3] && p.cncState == MAPPINGS[4] && p.codes == codes
    requires ALL_STATES <= codes.Keys && forall state :: state in codes ==> 0 <= codes[state] < 0x1_0000
    ensures V.Watched(p) && p.setpoint.scale == 0.001
  {
  }

  // -------------------------------------------------------------- cold start

  /** The machine at rest, Idle on show, and a first scan that can run. */
  ghost predicate ColdMachine(p: Points, s: PlantState) {
    V.Watched(p) && p.codes == Codes(STATES) && p.setpoint.scale == 0.001 && p.position.scale == 1.0
    && p.ramp.typ.Float32? && p.ramp.scale == 1.0
    && Safe(p, s) && CanScan(p, s) && V.ViewOf(p, s) == V.Expected(p.codes, s.cnc, DT, 0)
    && s.cnc == M.CncValue(DURATIONS, Idle, 0.0)
    && s.conveyor == C.ConveyorState(0.5, 2.0, 0.0, false, false, 0.0, 0.0)
  }

  /** Nothing has been commanded yet. */
  ghost predicate ColdBlocks(c: Contract, p: Points, tables: Tables) {
    W.Plant(c, p, tables) && W.View(c, p, tables).ackSeq == 0
    && D.Fresh(H.System(W.View(c, p, tables), None, H.Ready, None, None))
  }

  /** What Plc's constructor leaves behind, over a machine at rest, is where the
      run theorems begin: safe, Idle on show, nothing waiting. */
  lemma ColdStartIsSafe(p: Points, s: PlantState, words: seq<int>, dt: real)
    requires WellPlaced(p) && Laid(p, s.tables) && Wide16(s.tables) && !p.ramp.typ.Unknown? && P.Seeded(p, words, s.tables)
    requires V.Watched(p) && Idle in p.codes && p.codes[Idle] == 0
    requires s.conveyor.speed == 0.0 && s.conveyor.rampTime > 0.0 && s.conveyor.maxSpeed > 0.0
    requires M.Timed(s.cnc) && s.cnc.state == Idle
    ensures Safe(p, s) && V.ViewOf(p, s) == V.Expected(p.codes, s.cnc, dt, 0)
  {
    Within(0.0, 65535.0, 65535.0, p.setpoint.scale, TopSpeed(p));
    V.StateIsHeld(p, s.tables);
    assert "holding" != "input" by { assert |"holding"| != |"input"|; }
  }

  lemma BlocksAreZero(p: Points, tables: Tables, words: seq<int>)
    requires WellPlaced(p) && Laid(p, tables) && !p.ramp.typ.Unknown? && P.Seeded(p, words, tables)
    ensures Holds(tables, BLOCK_TABLE, p.cmdSeq) && tables[BLOCK_TABLE][p.cmdSeq] == 0
    ensures Holds(tables, BLOCK_TABLE, p.ackSeq) && tables[BLOCK_TABLE][p.ackSeq] == 0
  {
    assert OutsideBlocks(p, Part(p, 1));
    assert Covers(BLOCK_TABLE, p.cmd, BLOCK_TABLE, p.cmdSeq) && Covers(BLOCK_TABLE, p.ack, BLOCK_TABLE, p.ackSeq);
    assert Holds(tables, BLOCK_TABLE, p.cmdSeq) && Holds(tables, BLOCK_TABLE, p.ackSeq);
  }

  lemma ColdBlocksAreQuiescent(c: Contract, p: Points, tables: Tables, words: seq<int>)
    requires W.Plant(c, p, tables) && !p.ramp.typ.Unknown? && P.Seeded(p, words, tables)
    ensures ColdBlocks(c, p, tables)
  {
    BlocksAreZero(p, tables, words);
    W.ViewOfAck(c, p, tables);
    W.ViewOfPending(c, p, tables);
  }

  const DT := 0.01

  const DURATIONS: map<CncState, real> := map[Homing := 0.3, Loading := 0.3, Running := 0.3, Unloading := 0.3]

  lemma HalfPacks()
    ensures Pack(Finite(0.5)).Some?
  {
    UnitMono(149, 253);
    OverflowIff(0.5);
  }

  lemma RampEncodes(m: Mapping, meta: Meta)
    requires m == MAPPINGS[1]
    ensures m.scale > 0.0 && Encode(m, Finite(0.5), meta).Ok?
  {
    HalfPacks();
    assert 0.5 / 1.0 == 0.5;
  }

  lemma EncodedIsANumber(m: Mapping, x: real, meta: Meta, words: seq<int>)
    requires m.typ.Float32? && m.scale > 0.0 && Encode(m, Finite(x), meta) == Ok(words) && Registers(words)
    ensures Decode(m, words, meta).Ok? && Decode(m, words, meta).value != NaN
  {
    FloatBijection(Unscaled(Finite(x), m.scale), [0, 0], meta);
    PackIsAPattern(Unscaled(Finite(x), m.scale));
  }

  lemma SeededSpan(p: Points, tables: Tables, words: seq<int>)
    requires WellPlaced(p) && Laid(p, tables) && p.ramp == Part(p, 1) && P.Seeded(p, words, tables)
    ensures forall a :: p.ramp.Addresses().Has(a) ==> a in tables["holding"]
    ensures SpanOf(tables["holding"], p.ramp) == words
  {
    assert HoldsSpan(tables, Part(p, 1));
    forall a | p.ramp.Addresses().Has(a)
      ensures Holds(tables, "holding", a) && tables["holding"][a] == words[a - p.ramp.addr]
    {
      assert At(p.ramp, "holding", a);
    }
  }

  /** The seeded ramp time and the zero setpoint are numbers: the first scan can
      run. */
  lemma ColdStartCanScan(p: Points, s: PlantState, words: seq<int>, x: real)
    requires Safe(p, s) && V.Watched(p) && p.ramp.typ.Float32? && p.ramp.scale > 0.0
    requires Encode(p.ramp, Finite(x), p.meta) == Ok(words) && Registers(words) && P.Seeded(p, words, s.tables)
    ensures CanScan(p, s)
  {
    assert p.ramp == Part(p, 1) && p.setpoint == Part(p, 0);
    SnapshotIsUsable(p, s);
    SetpointIsANumber(p, s.tables["holding"]);
    SeededSpan(p, s.tables, words);
    EncodedIsANumber(p.ramp, x, p.meta, words);
  }

  /** The PLC's main: a PLC of its own over a conveyor and a CNC at rest. */
  method Boot() returns (plc: P.Plc)
    ensures fresh(plc) && fresh(plc.memory) && fresh(plc.conveyor) && fresh(plc.cnc)
    ensures ColdMachine(plc.p, plc.View()) && ColdBlocks(TAGS, plc.p, plc.View().tables)
  {
    TagsAreAccepted();
    TagsAreSufficient();
    TagsLookUp();
    CommandFields();
    CodesFit();
    StatesNameAll();
    var conveyor := new C.Conveyor(0.5, 2.0);
    var cnc := new M.Cnc(DURATIONS);
    ghost var p := PointsOf(TAGS);
    PartsAreStandard(p, Codes(STATES));
    RampEncodes(p.ramp, TAGS.meta);
    plc := new P.Plc(TAGS, conveyor, cnc);
    ghost var words := Encode(p.ramp, Finite(0.5), TAGS.meta).value;
    ColdPlant(p, plc.View(), words);
    ColdBlocksAreQuiescent(TAGS, p, plc.View().tables, words);
  }

  lemma ColdPlant(p: Points, s: PlantState, words: seq<int>)
    requires V.Watched(p) && p.setpoint == MAPPINGS[0] && p.ramp == MAPPINGS[1] && p.position == MAPPINGS[3]
    requires p.codes == Codes(STATES) && Idle in p.codes && p.codes[Idle] == 0
    requires WellPlaced(p) && Laid(p, s.tables) && Wide16(s.tables) && P.Seeded(p, words, s.tables)
    requires Encode(p.ramp, Finite(0.5), p.meta) == Ok(words)
    requires s.cnc == M.CncValue(DURATIONS, Idle, 0.0)
    requires s.conveyor == C.ConveyorState(0.5, 2.0, 0.0, false, false, 0.0, 0.0)
    ensures ColdMachine(p, s)
  {
    F.EncodeIsRegisters(p.ramp, Finite(0.5), p.meta);
    ColdStartIsSafe(p, s, words, DT);
    ColdStartCanScan(p, s, words, 0.5);
  }

  lemma ShippedDwell(cnc: M.CncValue, state: CncState)
    requires cnc.durations == DURATIONS && M.InCycle(state)
    ensures state in cnc.durations && M.DwellOf(cnc, DT, state) == 30
  {
    assert 0.3 / 0.01 == 30.0;
  }

  /** Every state of the shipped cycle is seen by every poller with gaps of at most
      29 scans, and with 30 some poller misses one; a poll is due every 10. */
  lemma ShippedCycleIsSeenIff(cnc: M.CncValue, s0: nat, gap: nat, codes: map<CncState, int>)
    requires cnc.durations == DURATIONS && gap > 0 && ALL_STATES <= codes.Keys && V.Unambiguous(codes)
    ensures M.Timed(cnc)
    ensures gap <= 29 <==> forall ns :: S.Polls(ns, gap) && S.Spans(ns, V.Bounds(cnc, DT, s0)) ==>
                             S.RecordsAll(V.StageCodes(codes), V.Bounds(cnc, DT, s0), ns)
  {
    ShippedDwell(cnc, Homing);
    ShippedDwell(cnc, Loading);
    ShippedDwell(cnc, Running);
    ShippedDwell(cnc, Unloading);
    V.CycleIsSeenIff(cnc, DT, s0, gap, codes);
  }
}
