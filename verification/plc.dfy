/** The Plc object of src/plc/scan.py: the program that merges dictionaries,
    proved to be the pure step of Scan. */
module PlcObject {
  import opened Wrappers
  import opened Binary32
  import opened Commands
  import opened Model
  import opened Codec
  import opened ImageTable
  import opened Points
  import opened Scan
  import Loader
  import C = ConveyorMachine
  import M = CncMachine
  import F = ScanFrame

  function UpdateAt(updates: Tables, t: string, a: int): Option<int> {
    if t in updates && a in updates[t] then Some(updates[t][a]) else None
  }

  /** No table is touched without a register of it being written. */
  ghost predicate NoneEmpty(updates: Tables) {
    forall t :: t in updates ==> exists a :: UpdateAt(updates, t, a).Some?
  }

  /** What execute hands to write_outputs. */
  class OutputImage {
    var memoryUpdates: Tables
    var running: Option<bool>
    var setpoint: Option<Float>
    var rampTime: Option<Float>
    var cncStart: bool
    var cncReset: bool

    constructor ()
      ensures memoryUpdates == map[] && running == None && setpoint == None && rampTime == None
      ensures !cncStart && !cncReset
    {
      memoryUpdates, running, setpoint, rampTime := map[], None, None, None;
      cncStart, cncReset := false, false;
    }
  }

  /** _publish: the encoded value goes into the update table of the signal. */
  method Publish(outputs: OutputImage, m: Mapping, v: Float, meta: Meta) returns (r: Result<(), CodecError>)
    requires !m.typ.Unknown?
    modifies outputs`memoryUpdates
    ensures match Encode(m, v, meta)
            case Err(e) => r == Err(e)
            case Ok(words) =>
              r == Ok(()) && |words| == Width(m.typ)
              && forall t, a :: UpdateAt(outputs.memoryUpdates, t, a)
                                == if At(m, t, a) then Some(words[a - m.addr])
                                   else UpdateAt(old(outputs.memoryUpdates), t, a)
    ensures r.Ok? && NoneEmpty(old(outputs.memoryUpdates)) ==> NoneEmpty(outputs.memoryUpdates)
  {
    EncodeHasWidth(m, v, meta);
    var table := if m.table in outputs.memoryUpdates then outputs.memoryUpdates[m.table] else map[];
    outputs.memoryUpdates := outputs.memoryUpdates[m.table := table];
    var encoded := Encode(m, v, meta);
    if encoded.Err? {
      return Err(encoded.error);
    }
    var words := encoded.value;
    ghost var before := table;
    for i := 0 to |words|
      invariant forall a :: a in table <==> a in before || m.addr <= a < m.addr + i
      invariant forall a :: a in table ==>
                  table[a] == if m.addr <= a < m.addr + i then words[a - m.addr] else before[a]
    {
      table := table[m.addr + i := words[i]];
    }
    outputs.memoryUpdates := outputs.memoryUpdates[m.table := table];
    r := Ok(());
    OneTableUpdated(old(outputs.memoryUpdates), outputs.memoryUpdates, m, before, table, words);
    StillNoneEmpty(old(outputs.memoryUpdates), outputs.memoryUpdates, m.table, m.addr);
  }

  /** One table of the updates has taken these words at a signal's span. */
  lemma OneTableUpdated(before: Tables, after: Tables, m: Mapping, old': map<int, int>, table: map<int, int>, words: seq<int>)
    requires !m.typ.Unknown? && |words| == Width(m.typ)
    requires old' == (if m.table in before then before[m.table] else map[])
    requires after == before[m.table := table]
    requires forall a :: a in table <==> a in old' || m.addr <= a < m.addr + |words|
    requires forall a :: a in table ==> table[a] == if m.addr <= a < m.addr + |words| then words[a - m.addr] else old'[a]
    ensures forall t, a :: UpdateAt(after, t, a) == if At(m, t, a) then Some(words[a - m.addr]) else UpdateAt(before, t, a)
  {
  }

  lemma StillNoneEmpty(before: Tables, after: Tables, table: string, a: int)
    requires table in after && UpdateAt(after, table, a).Some?
    requires forall t :: t in after ==> t in before || t == table
    requires forall t :: t in before && t != table ==> t in after && after[t] == before[t]
    ensures NoneEmpty(before) ==> NoneEmpty(after)
  {
    if NoneEmpty(before) {
      forall t | t in after
        ensures exists x :: UpdateAt(after, t, x).Some?
      {
        if t != table {
          var x :| UpdateAt(before, t, x).Some?;
          assert UpdateAt(after, t, x).Some?;
        }
      }
    }
  }

  /** What the updates of a finished execute are, register by register. */
  ghost predicate Plans(p: Points, plan: Plan, updates: Tables)
    requires TypesOk(p) && Fits(p, plan)
  {
    forall t, a :: UpdateAt(updates, t, a) == Planned(p, plan, t, a)
  }

  ghost predicate PlansValues(p: Points, plan: Plan, k: int, updates: Tables)
    requires TypesOk(p) && Fits(p, plan) && 1 <= k < 5
  {
    forall t, a :: UpdateAt(updates, t, a) == PlannedValue(p, plan, k, t, a)
  }

  lemma PlansOneMore(p: Points, plan: Plan, k: int, before: Tables, after: Tables)
    requires TypesOk(p) && Fits(p, plan) && 2 <= k < 5 && PlansValues(p, plan, k - 1, before)
    requires forall t, a :: UpdateAt(after, t, a) == if At(Part(p, k), t, a)
                                                     then Some(WordsFor(plan, k)[a - Part(p, k).addr])
                                                     else UpdateAt(before, t, a)
    ensures PlansValues(p, plan, k, after)
  {
  }

  /** The tables with the updates merged in; a register nobody updates stays. */
  function Merged(tables: Tables, updates: Tables): Tables {
    map t | t in tables :: map a | a in tables[t] ::
      if UpdateAt(updates, t, a).Some? then UpdateAt(updates, t, a).value else tables[t][a]
  }

  lemma MergedIsOverlay(p: Points, tables: Tables, plan: Plan, updates: Tables)
    requires TypesOk(p) && Fits(p, plan) && Plans(p, plan, updates)
    ensures Merged(tables, updates) == Overlay(p, tables, plan)
  {
    forall t | t in tables
      ensures Merged(tables, updates)[t] == Overlay(p, tables, plan)[t]
    {
      forall a | a in tables[t]
        ensures Merged(tables, updates)[t][a] == Overlay(p, tables, plan)[t][a]
      {
        assert UpdateAt(updates, t, a) == Planned(p, plan, t, a);
      }
    }
  }

  /** Everything execute plans to write is a register that exists. */
  lemma UpdatesAreHeld(p: Points, tables: Tables, plan: Plan, updates: Tables)
    requires WellPlaced(p) && Laid(p, tables) && Fits(p, plan) && Plans(p, plan, updates) && NoneEmpty(updates)
    ensures forall t, a :: UpdateAt(updates, t, a).Some? ==> Holds(tables, t, a)
    ensures forall t :: t in updates ==> t in tables
  {
    forall t, a | UpdateAt(updates, t, a).Some?
      ensures Holds(tables, t, a)
    {
      PlannedIsHeld(p, tables, plan, t, a);
    }
    forall t | t in updates
      ensures t in tables
    {
      var a :| UpdateAt(updates, t, a).Some?;
      assert Holds(tables, t, a);
    }
  }

  lemma PlannedIsHeld(p: Points, tables: Tables, plan: Plan, t: string, a: int)
    requires WellPlaced(p) && Laid(p, tables) && Fits(p, plan) && Planned(p, plan, t, a).Some?
    ensures Holds(tables, t, a)
  {
    if F.IsPublished(p, t, a) {
      var k :| 2 <= k < 5 && At(Part(p, k), t, a);
      assert HoldsSpan(tables, Part(p, k));
    } else {
      F.PlannedElsewhere(p, plan, t, a);
      assert p.ack.Has(a) && t == BLOCK_TABLE;
    }
  }

  // --------------------------------------------------------------- start-up

  /** Some signal or block of the contract claims the register. */
  ghost predicate Claimed(c: Contract, n: nat, t: string, a: int)
    requires Loader.TypesKnown(c) && n <= |c.signals|
  {
    exists i :: 0 <= i < n && At(c.signals[i].modbus, t, a)
  }

  ghost predicate ClaimedByBlock(c: Contract, t: string, a: int) {
    Covers(BLOCK_TABLE, c.commandBlock.Addresses(), t, a) || Covers(BLOCK_TABLE, c.ackBlock.Addresses(), t, a)
  }

  predicate AllZero(tables: Tables) {
    forall t, a :: t in tables && a in tables[t] ==> tables[t][a] == 0
  }

  /** table.setdefault(addr, 0) over a span of one table. */
  method AddSpan(tables: Tables, name: string, span: Span) returns (r: Tables)
    requires AllZero(tables) && span.start <= span.stop
    ensures AllZero(r) && name in r
    ensures forall t, a :: Holds(r, t, a) <==> Holds(tables, t, a) || Covers(name, span, t, a)
  {
    var table := if name in tables then tables[name] else map[];
    ghost var before := table;
    for a := span.start to span.stop
      invariant forall x :: x in table <==> x in before || span.start <= x < a
      invariant forall x :: x in table ==> table[x] == 0
    {
      if a !in table {
        table := table[a := 0];
      }
    }
    r := tables[name := table];
  }

  method InitRegisters(c: Contract) returns (tables: Tables)
    requires Loader.TypesKnown(c)
    ensures AllZero(tables) && BLOCK_TABLE in tables
    ensures forall t, a :: Holds(tables, t, a) <==> Claimed(c, |c.signals|, t, a) || ClaimedByBlock(c, t, a)
  {
    tables := map[];
    for i := 0 to |c.signals|
      invariant AllZero(tables)
      invariant forall t, a :: Holds(tables, t, a) <==> Claimed(c, i, t, a)
    {
      ghost var before := tables;
      tables := AddSpan(tables, c.signals[i].modbus.table, c.signals[i].modbus.Addresses());
      forall t, a
        ensures Holds(tables, t, a) <==> Claimed(c, i + 1, t, a)
      {
        if Claimed(c, i, t, a) {
          var k :| 0 <= k < i && At(c.signals[k].modbus, t, a);
          assert At(c.signals[k].modbus, t, a);
        }
      }
    }
    tables := AddSpan(tables, BLOCK_TABLE, c.commandBlock.Addresses());
    tables := AddSpan(tables, BLOCK_TABLE, c.ackBlock.Addresses());
  }

  /** The ramp-time parameter is seeded over the zeros. */
  ghost predicate Seeded(p: Points, words: seq<int>, tables: Tables)
    requires TypesOk(p) && !p.ramp.typ.Unknown?
  {
    |words| == Width(p.ramp.typ)
    && forall t, a :: Holds(tables, t, a) ==>
         tables[t][a] == if At(p.ramp, t, a) then words[a - p.ramp.addr] else 0
  }

  method Seed(m: Mapping, words: seq<int>, tables: Tables) returns (r: Tables)
    requires !m.typ.Unknown? && |words| == Width(m.typ) && AllZero(tables)
    requires m.table in tables && forall a :: m.Addresses().Has(a) ==> a in tables[m.table]
    ensures forall t, a :: Holds(r, t, a) <==> Holds(tables, t, a)
    ensures r.Keys == tables.Keys
    ensures forall t, a :: Holds(r, t, a) ==> r[t][a] == if At(m, t, a) then words[a - m.addr] else 0
  {
    var table := tables[m.table];
    for i := 0 to |words|
      invariant table.Keys == tables[m.table].Keys
      invariant forall a :: a in table ==> table[a] == if m.addr <= a < m.addr + i then words[a - m.addr] else 0
    {
      assert m.Addresses().Has(m.addr + i);
      table := table[m.addr + i := words[i]];
    }
    r := tables[m.table := table];
  }

  lemma SignalIsHeld(c: Contract, tables: Tables, i: nat)
    requires Loader.TypesKnown(c) && i < |c.signals|
    requires forall t, a :: Claimed(c, |c.signals|, t, a) ==> Holds(tables, t, a)
    ensures HoldsSpan(tables, c.signals[i].modbus)
  {
    forall t, a | At(c.signals[i].modbus, t, a)
      ensures Holds(tables, t, a)
    {
      assert Claimed(c, |c.signals|, t, a);
    }
  }

  lemma MappingIsHeld(c: Contract, tables: Tables, k: int)
    requires Loader.TypesKnown(c) && AllPresent(c) && 0 <= k < 5
    requires forall t, a :: Claimed(c, |c.signals|, t, a) ==> Holds(tables, t, a)
    ensures !PartMapping(c, k).typ.Unknown? && HoldsSpan(tables, PartMapping(c, k))
  {
    var i := PartIsASignal(c, k);
    SignalIsHeld(c, tables, i);
  }

  lemma ContractIsLaid(c: Contract, tables: Tables)
    requires Loader.Valid(c) && Required(c) && BLOCK_TABLE in tables
    requires forall t, a :: Holds(tables, t, a) <==> Claimed(c, |c.signals|, t, a) || ClaimedByBlock(c, t, a)
    ensures WellPlaced(PointsOf(c)) && Laid(PointsOf(c), tables)
  {
    var p := PointsOf(c);
    AcceptedContractsAreWellPlaced(c);
    forall k | 0 <= k < 5
      ensures HoldsSpan(tables, Part(p, k))
    {
      PartIsMapping(c, p, k);
      MappingIsHeld(c, tables, k);
    }
    forall a | p.cmd.Has(a) || p.ack.Has(a)
      ensures Holds(tables, BLOCK_TABLE, a)
    {
      assert ClaimedByBlock(c, BLOCK_TABLE, a);
    }
  }

  method SeedRamp(p: Points, words: seq<int>, zeros: Tables) returns (tables: Tables)
    requires WellPlaced(p) && Laid(p, zeros) && AllZero(zeros)
    requires !p.ramp.typ.Unknown? && |words| == Width(p.ramp.typ) && Registers(words)
    ensures forall t, a :: Holds(tables, t, a) <==> Holds(zeros, t, a)
    ensures Laid(p, tables) && Wide16(tables) && Seeded(p, words, tables)
  {
    LaidHoldsRamp(p, zeros);
    tables := Seed(p.ramp, words, zeros);
    LaidAlike(p, zeros, tables);
    SeededIsWide(p, words, tables);
  }

  method StartUp(c: Contract, p: Points, words: seq<int>) returns (tables: Tables)
    requires Loader.Valid(c) && Required(c) && p == PointsOf(c)
    requires !p.ramp.typ.Unknown? && |words| == Width(p.ramp.typ) && Registers(words)
    ensures forall t, a :: Holds(tables, t, a) <==> Claimed(c, |c.signals|, t, a) || ClaimedByBlock(c, t, a)
    ensures WellPlaced(p) && Laid(p, tables) && Wide16(tables) && Seeded(p, words, tables)
  {
    var zeros := InitRegisters(c);
    ContractIsLaid(c, zeros);
    tables := SeedRamp(p, words, zeros);
  }

  lemma LaidHoldsRamp(p: Points, tables: Tables)
    requires WellPlaced(p) && Laid(p, tables) && !p.ramp.typ.Unknown?
    ensures p.ramp.table in tables && forall a :: p.ramp.Addresses().Has(a) ==> a in tables[p.ramp.table]
  {
    assert p.ramp == Part(p, 1);
    forall a | p.ramp.Addresses().Has(a)
      ensures Holds(tables, p.ramp.table, a)
    {
      assert At(p.ramp, p.ramp.table, a);
    }
  }

  lemma LaidAlike(p: Points, zeros: Tables, tables: Tables)
    requires TypesOk(p) && Laid(p, zeros) && "holding" in tables
    requires forall t, a :: Holds(tables, t, a) <==> Holds(zeros, t, a)
    ensures Laid(p, tables)
  {
    forall k | 0 <= k < 5
      ensures HoldsSpan(tables, Part(p, k))
    {
      assert HoldsSpan(zeros, Part(p, k));
    }
  }

  lemma SeededIsWide(p: Points, words: seq<int>, tables: Tables)
    requires TypesOk(p) && !p.ramp.typ.Unknown? && Registers(words) && Seeded(p, words, tables)
    ensures Wide16(tables)
  {
  }

  /** Nothing, or a finite number. */
  predicate Numeric(v: Option<Float>) {
    v.Some? ==> IsFinite(v.value)
  }

  function Driven(s: C.ConveyorState, running: Option<bool>, setpoint: Option<Float>, rampTime: Option<Float>): C.ConveyorState
    requires Numeric(setpoint) && Numeric(rampTime)
  {
    s.(running := if running.Some? then running.value else s.running,
       setpoint := if setpoint.Some? then ToReal(setpoint.value) else s.setpoint,
       rampTime := if rampTime.Some? then ToReal(rampTime.value) else s.rampTime)
  }

  class Plc {
    const p: Points
    const memory: ImageTables
    const conveyor: C.Conveyor
    const cnc: M.Cnc

    /** Every claimed register and no other, zero except the ramp time, which is
        seeded from the machine. */
    constructor (c: Contract, conveyor: C.Conveyor, cnc: M.Cnc)
      requires Loader.Valid(c) && Required(c) && M.Timed(cnc.Value())
      requires Encode(PointsOf(c).ramp, Finite(conveyor.rampTime), c.meta).Ok?
      ensures p == PointsOf(c) && this.conveyor == conveyor && this.cnc == cnc && fresh(memory)
      ensures forall t, a :: Holds(memory.tables, t, a) <==> Claimed(c, |c.signals|, t, a) || ClaimedByBlock(c, t, a)
      ensures WellPlaced(p) && !p.ramp.typ.Unknown?
              && Seeded(p, Encode(PointsOf(c).ramp, Finite(conveyor.rampTime), c.meta).value, memory.tables)
      ensures Laid(p, memory.tables) && Wide16(memory.tables)
    {
      var points := PointsOf(c);
      assert points.ramp == Part(points, 1);
      AcceptedContractsAreWellPlaced(c);
      var words := Encode(points.ramp, Finite(conveyor.rampTime), c.meta).value;
      EncodeHasWidth(points.ramp, Finite(conveyor.rampTime), c.meta);
      F.EncodeIsRegisters(points.ramp, Finite(conveyor.rampTime), c.meta);
      var tables := StartUp(c, points, words);
      this.p := points;
      this.memory := new ImageTables(tables);
      this.conveyor := conveyor;
      this.cnc := cnc;
    }

    function View(): PlantState
      reads memory, conveyor, cnc
    {
      PlantState(memory.tables, conveyor.State(), cnc.Value())
    }

    function ReadInputs(): (image: InputImage)
      requires "holding" in memory.tables
      reads memory, conveyor, cnc
      ensures image == Snapshot(View())
    {
      InputImage(memory.tables["holding"], conveyor.speed, conveyor.position, conveyor.fault, cnc.state)
    }

    /** Publish the three measured values, in order; the first failure raises. */
    method PublishAll(outputs: OutputImage, image: InputImage) returns (r: Result<(), CodecError>)
      requires Usable(p, image) && outputs.memoryUpdates == map[]
      modifies outputs`memoryUpdates
      ensures match MakePlan(p, image)
              case Err(e) => r == Err(e)
              case Ok(plan) => r == Ok(()) && Fits(p, plan) && PlansValues(p, plan, 4, outputs.memoryUpdates)
                               && NoneEmpty(outputs.memoryUpdates)
    {
      assert Part(p, 2) == p.actual && Part(p, 3) == p.position && Part(p, 4) == p.cncState;
      EveryState(image.cnc);
      r := Publish(outputs, p.actual, Finite(image.speed), p.meta);
      if r.Err? {
        return;
      }
      ghost var first := outputs.memoryUpdates;
      r := Publish(outputs, p.position, Finite(image.position), p.meta);
      if r.Err? {
        return;
      }
      ghost var second := outputs.memoryUpdates;
      r := Publish(outputs, p.cncState, Finite(p.codes[image.cnc] as real), p.meta);
      if r.Ok? {
        ghost var plan := MakePlan(p, image).value;
        MadePlanFits(p, image, plan);
        PlansOneMore(p, plan, 2, map[], first);
        PlansOneMore(p, plan, 3, first, second);
        PlansOneMore(p, plan, 4, second, outputs.memoryUpdates);
      }
    }

    /** Logic over the snapshot alone: reads no register and no machine. */
    method Execute(image: InputImage) returns (r: Result<OutputImage, CodecError>)
      requires Usable(p, image) && p.ackSeq != p.ackResult
      ensures match MakePlan(p, image)
              case Err(e) => r == Err(e)
              case Ok(plan) =>
                r.Ok? && fresh(r.value)
                && Fits(p, plan) && Plans(p, plan, r.value.memoryUpdates) && NoneEmpty(r.value.memoryUpdates)
                && r.value.setpoint == Some(Parameter(p, image.holding, 0))
                && r.value.rampTime == Some(Clamp(Parameter(p, image.holding, 1)))
                && r.value.running == (if Accepted(p, image, START) then Some(true)
                                       else if Accepted(p, image, STOP) then Some(false) else None)
                && r.value.cncStart == Accepted(p, image, CNC_START)
                && r.value.cncReset == Accepted(p, image, CNC_RESET)
      ensures r.Ok? ==> var ramp := Parameter(p, image.holding, 1);
                        (ramp.Finite? && 0.05 <= ramp.r <= 60.0 ==> r.value.rampTime == Some(ramp))
                        && (ramp.Finite? && ramp.r < 0.05 ==> r.value.rampTime == Some(Finite(0.05)))
                        && (ramp.Finite? && ramp.r > 60.0 ==> r.value.rampTime == Some(Finite(60.0)))
    {
      ClampHoldsIff(Parameter(p, image.holding, 1));
      var outputs := new OutputImage();
      ReadParameters(outputs, image);

      var published := PublishAll(outputs, image);
      if published.Err? {
        return Err(published.error);
      }

      if image.holding[p.cmdSeq] != image.holding[p.ackSeq] {
        var ackResult := ExecuteCommand(outputs, image);
        Acknowledge(outputs, ackResult, image.holding[p.cmdSeq]);
      }
      ghost var plan := MakePlan(p, image).value;
      MadePlanFits(p, image, plan);
      assert Plans(p, plan, outputs.memoryUpdates);
      r := Ok(outputs);
    }

    /** The branches over a pending command's code. */
    method ExecuteCommand(outputs: OutputImage, image: InputImage) returns (ackResult: int)
      requires Usable(p, image) && Pending(p, image)
      requires outputs.running == None && !outputs.cncStart && !outputs.cncReset
      modifies outputs`running, outputs`cncStart, outputs`cncReset
      ensures ackResult == Answer(p, image)
      ensures var code := image.holding[p.cmdCode];
              ackResult == if code < 1 || code > 4 then 1
                           else if (code == 1 && image.fault) || (code == 3 && image.cnc != Idle)
                                   || (code == 4 && image.cnc != Fault) then 2
                           else 0
      ensures outputs.running == (if Accepted(p, image, START) then Some(true)
                                  else if Accepted(p, image, STOP) then Some(false) else None)
      ensures outputs.cncStart == Accepted(p, image, CNC_START)
      ensures outputs.cncReset == Accepted(p, image, CNC_RESET)
    {
      var cmdCode := image.holding[p.cmdCode];
      if cmdCode == START {
        if image.fault {
          ackResult := STATE;
        } else {
          ackResult := OK;
          outputs.running := Some(true);
        }
      } else if cmdCode == STOP {
        ackResult := OK;
        outputs.running := Some(false);
      } else if cmdCode == CNC_START {
        if image.cnc == Idle {
          ackResult := OK;
          outputs.cncStart := true;
        } else {
          ackResult := STATE;
        }
      } else if cmdCode == CNC_RESET {
        if image.cnc == Fault {
          ackResult := OK;
          outputs.cncReset := true;
        } else {
          ackResult := STATE;
        }
      } else {
        ackResult := RANGE;
      }
    }

    /** Decode the setpoint and the ramp time, and clamp the latter. */
    method ReadParameters(outputs: OutputImage, image: InputImage)
      requires Usable(p, image)
      modifies outputs`setpoint, outputs`rampTime
      ensures outputs.setpoint == Some(Parameter(p, image.holding, 0))
      ensures outputs.rampTime == Some(Clamp(Parameter(p, image.holding, 1)))
    {
      assert Part(p, 0) == p.setpoint && Part(p, 1) == p.ramp;
      SpanIsRegisters(p, image.holding, 0);
      SpanIsRegisters(p, image.holding, 1);
      var raw := SpanOf(image.holding, p.setpoint);
      var setpoint := Decode(p.setpoint, raw, p.meta);
      outputs.setpoint := Some(setpoint.value);
      var rampRaw := SpanOf(image.holding, p.ramp);
      var ramp := Decode(p.ramp, rampRaw, p.meta);
      outputs.rampTime := Some(Clamp(ramp.value));
    }

    /** ack_result first, ack_seq last. */
    method Acknowledge(outputs: OutputImage, result: int, number: int)
      requires p.ackSeq != p.ackResult
      modifies outputs`memoryUpdates
      ensures forall t, a :: UpdateAt(outputs.memoryUpdates, t, a)
                             == if t == BLOCK_TABLE && a == p.ackSeq then Some(number)
                                else if t == BLOCK_TABLE && a == p.ackResult then Some(result)
                                else UpdateAt(old(outputs.memoryUpdates), t, a)
      ensures NoneEmpty(old(outputs.memoryUpdates)) ==> NoneEmpty(outputs.memoryUpdates)
    {
      var table := if BLOCK_TABLE in outputs.memoryUpdates then outputs.memoryUpdates[BLOCK_TABLE] else map[];
      table := table[p.ackResult := result];
      table := table[p.ackSeq := number];
      outputs.memoryUpdates := outputs.memoryUpdates[BLOCK_TABLE := table];
      StillNoneEmpty(old(outputs.memoryUpdates), outputs.memoryUpdates, BLOCK_TABLE, p.ackSeq);
    }

    /** Merge one update dictionary after another into the tables, in any order. */
    method Merge(updates: Tables)
      requires forall t, a :: UpdateAt(updates, t, a).Some? ==> Holds(memory.tables, t, a)
      requires forall t :: t in updates ==> t in memory.tables
      modifies memory
      ensures memory.tables == Merged(old(memory.tables), updates)
    {
      ghost var before := memory.tables;
      var todo := updates.Keys;
      while todo != {}
        invariant todo <= updates.Keys && memory.tables.Keys == before.Keys
        invariant forall t :: t in before && (t in todo || t !in updates) ==> memory.tables[t] == before[t]
        invariant forall t :: t in updates && t !in todo ==> memory.tables[t] == before[t] + updates[t]
        decreases |todo|
      {
        var t :| t in todo;
        memory.tables := memory.tables[t := memory.tables[t] + updates[t]];
        todo := todo - {t};
      }
      forall t | t in before
        ensures memory.tables[t] == Merged(before, updates)[t]
      {
        if t in updates {
          forall a | a in updates[t]
            ensures a in before[t]
          {
            assert UpdateAt(updates, t, a).Some?;
          }
          assert memory.tables[t].Keys == before[t].Keys;
        }
      }
    }

    method WriteOutputs(outputs: OutputImage)
      requires forall t, a :: UpdateAt(outputs.memoryUpdates, t, a).Some? ==> Holds(memory.tables, t, a)
      requires forall t :: t in outputs.memoryUpdates ==> t in memory.tables
      requires Numeric(outputs.setpoint) && Numeric(outputs.rampTime)
      modifies memory, conveyor, cnc
      ensures memory.tables == Merged(old(memory.tables), old(outputs.memoryUpdates))
      ensures conveyor.State() == Driven(old(conveyor.State()), outputs.running, outputs.setpoint, outputs.rampTime)
      ensures cnc.Value() == var started := if outputs.cncStart then M.Started(old(cnc.Value())) else old(cnc.Value());
                             if outputs.cncReset then M.WasReset(started) else started
    {
      Drive(outputs);
      if outputs.cncStart {
        cnc.Start();
      }
      if outputs.cncReset {
        cnc.Reset();
      }
      Merge(outputs.memoryUpdates);
    }

    /** The conveyor's three fields, where the outputs have them. */
    method Drive(outputs: OutputImage)
      requires Numeric(outputs.setpoint) && Numeric(outputs.rampTime)
      modifies conveyor
      ensures conveyor.State() == Driven(old(conveyor.State()), outputs.running, outputs.setpoint, outputs.rampTime)
    {
      if outputs.running.Some? {
        conveyor.running := outputs.running.value;
      }
      if outputs.setpoint.Some? {
        conveyor.setpoint := ToReal(outputs.setpoint.value);
      }
      if outputs.rampTime.Some? {
        conveyor.rampTime := ToReal(outputs.rampTime.value);
      }
    }

    /** The whole scan is the pure step; when an encode raises, nothing changed. */
    method ScanOnce(dt: real) returns (r: Result<(), CodecError>)
      requires CanScan(p, View())
      modifies memory, conveyor, cnc
      ensures match ScanStep(p, old(View()), dt)
              case Ok(after) => r == Ok(()) && View() == after
              case Err(e) => r == Err(e) && View() == old(View())
    {
      ghost var s := View();
      var image := ReadInputs();
      var executed := Execute(image);
      if executed.Err? {
        return Err(executed.error);
      }
      var outputs := executed.value;
      ghost var plan := MakePlan(p, image).value;
      ClampHoldsIff(Parameter(p, image.holding, 1));
      UpdatesAreHeld(p, s.tables, plan, outputs.memoryUpdates);
      MergedIsOverlay(p, s.tables, plan, outputs.memoryUpdates);
      WriteOutputs(outputs);
      assert View() == PlantState(Overlay(p, s.tables, plan), CommandedConveyor(p, s), CommandedCnc(p, s));
      conveyor.Step(dt);
      cnc.Step(dt);
      r := Ok(());
    }
  }
}
