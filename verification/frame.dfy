/** What one scan does to the registers, whatever the contract's addresses: the
    part of the scan's meaning that rests on the loader's overlap check. */
module ScanFrame {
  import opened Wrappers
  import opened Numbers
  import opened Binary32
  import opened Commands
  import opened Model
  import opened Codec
  import opened ImageTable
  import opened Points
  import opened Scan
  import C = ConveyorMachine
  import M = CncMachine

  predicate IsAckRegister(p: Points, t: string, a: int) {
    t == BLOCK_TABLE && (a == p.ackSeq || a == p.ackResult)
  }

  predicate IsPublished(p: Points, t: string, a: int)
    requires TypesOk(p)
  {
    exists k :: 2 <= k < 5 && At(Part(p, k), t, a)
  }

  lemma PartsAvoidAcks(p: Points, k: int, t: string, a: int)
    requires WellPlaced(p) && 0 <= k < 5 && At(Part(p, k), t, a)
    ensures !IsAckRegister(p, t, a)
    ensures t == BLOCK_TABLE ==> !p.cmd.Has(a)
  {
    assert OutsideBlocks(p, Part(p, k));
    assert !Covers(BLOCK_TABLE, p.ack, t, a) && !Covers(BLOCK_TABLE, p.cmd, t, a);
  }

  lemma PlannedInSpan(p: Points, plan: Plan, k: int, t: string, a: int)
    requires WellPlaced(p) && Fits(p, plan) && 2 <= k < 5 && At(Part(p, k), t, a)
    ensures Planned(p, plan, t, a) == Some(WordsFor(plan, k)[a - Part(p, k).addr])
  {
    PartsAvoidAcks(p, k, t, a);
    forall l | 2 <= l < 5 && l != k
      ensures !At(Part(p, l), t, a)
    {
      assert Apart(Part(p, if k < l then k else l), Part(p, if k < l then l else k));
    }
    assert k < 4 ==> PlannedValue(p, plan, 4, t, a) == PlannedValue(p, plan, 3, t, a);
    assert k < 3 ==> PlannedValue(p, plan, 3, t, a) == PlannedValue(p, plan, 2, t, a);
  }

  lemma PlannedElsewhere(p: Points, plan: Plan, t: string, a: int)
    requires TypesOk(p) && Fits(p, plan) && !IsPublished(p, t, a)
    ensures !IsAckRegister(p, t, a) || plan.ack.None? ==> Planned(p, plan, t, a) == None
  {
    assert !At(Part(p, 4), t, a) && !At(Part(p, 3), t, a) && !At(Part(p, 2), t, a);
    assert PlannedValue(p, plan, 3, t, a) == PlannedValue(p, plan, 2, t, a) == PlannedValue(p, plan, 1, t, a);
  }

  /** A step, seen as a plan laid over the tables. */
  lemma StepIsAPlan(p: Points, s: PlantState, dt: real, after: PlantState) returns (plan: Plan)
    requires CanScan(p, s) && ScanStep(p, s, dt) == Ok(after)
    ensures MakePlan(p, Snapshot(s)) == Ok(plan) && Fits(p, plan) && after.tables == Overlay(p, s.tables, plan)
    ensures forall k :: 2 <= k < 5 ==> PublishedWords(p, Snapshot(s), k) == Ok(WordsFor(plan, k))
    ensures plan.ack == if Pending(p, Snapshot(s)) then Some((Answer(p, Snapshot(s)), Snapshot(s).holding[p.cmdSeq]))
                        else None
  {
    plan := MakePlan(p, Snapshot(s)).value;
    MadePlanFits(p, Snapshot(s), plan);
  }

  lemma OverlayLeavesTheRest(p: Points, tables: Tables, plan: Plan)
    requires TypesOk(p) && Fits(p, plan)
    ensures Overlay(p, tables, plan).Keys == tables.Keys
    ensures forall t :: t in tables ==> Overlay(p, tables, plan)[t].Keys == tables[t].Keys
    ensures forall t, a :: Holds(tables, t, a) && !IsPublished(p, t, a)
                           && (!IsAckRegister(p, t, a) || plan.ack.None?) ==>
              Overlay(p, tables, plan)[t][a] == tables[t][a]
  {
    forall t, a | Holds(tables, t, a) && !IsPublished(p, t, a) && (!IsAckRegister(p, t, a) || plan.ack.None?)
      ensures Overlay(p, tables, plan)[t][a] == tables[t][a]
    {
      PlannedElsewhere(p, plan, t, a);
    }
  }

  /** The scan adds and removes no register, and leaves alone every register that
      is neither published nor part of the acknowledgement. */
  lemma ScanLeavesTheRest(p: Points, s: PlantState, dt: real, after: PlantState)
    requires CanScan(p, s) && ScanStep(p, s, dt) == Ok(after)
    ensures after.tables.Keys == s.tables.Keys
    ensures forall t :: t in s.tables ==> after.tables[t].Keys == s.tables[t].Keys
    ensures forall t, a :: Holds(s.tables, t, a) && !IsPublished(p, t, a)
                           && (!IsAckRegister(p, t, a) || !Pending(p, Snapshot(s))) ==>
              after.tables[t][a] == s.tables[t][a]
  {
    var plan := StepIsAPlan(p, s, dt, after);
    OverlayLeavesTheRest(p, s.tables, plan);
  }

  /** The registers of a mapping, wherever its table is. */
  ghost predicate Shows(tables: Tables, m: Mapping, words: seq<int>)
    requires !m.typ.Unknown?
  {
    |words| == Width(m.typ) && forall i :: 0 <= i < |words| ==> ShowsAt(tables, m, i, words[i])
  }

  predicate ShowsAt(tables: Tables, m: Mapping, i: int, word: int) {
    Holds(tables, m.table, m.addr + i) && tables[m.table][m.addr + i] == word
  }

  lemma OverlayShows(p: Points, tables: Tables, plan: Plan, k: int)
    requires WellPlaced(p) && Fits(p, plan) && 2 <= k < 5 && HoldsSpan(tables, Part(p, k))
    ensures Shows(Overlay(p, tables, plan), Part(p, k), WordsFor(plan, k))
  {
    forall i | 0 <= i < |WordsFor(plan, k)|
      ensures ShowsAt(Overlay(p, tables, plan), Part(p, k), i, WordsFor(plan, k)[i])
    {
      assert At(Part(p, k), Part(p, k).table, Part(p, k).addr + i);
      PlannedInSpan(p, plan, k, Part(p, k).table, Part(p, k).addr + i);
    }
  }

  /** Each published span holds exactly the encoding of the value at the start of
      the scan, in whatever order the updates are merged. */
  lemma ScanPublishes(p: Points, s: PlantState, dt: real, after: PlantState, k: int)
    requires CanScan(p, s) && ScanStep(p, s, dt) == Ok(after) && 2 <= k < 5
    ensures PublishedWords(p, Snapshot(s), k).Ok?
            && Shows(after.tables, Part(p, k), PublishedWords(p, Snapshot(s), k).value)
  {
    var plan := StepIsAPlan(p, s, dt, after);
    OverlayShows(p, s.tables, plan, k);
  }

  /** The acknowledgement: the number answered and the answer, or no change. */
  lemma ScanAcknowledges(p: Points, s: PlantState, dt: real, after: PlantState)
    requires CanScan(p, s) && ScanStep(p, s, dt) == Ok(after)
    ensures Holds(after.tables, BLOCK_TABLE, p.ackSeq) && Holds(after.tables, BLOCK_TABLE, p.ackResult)
    ensures Holds(s.tables, BLOCK_TABLE, p.cmdSeq) && Holds(s.tables, BLOCK_TABLE, p.ackResult)
    ensures after.tables[BLOCK_TABLE][p.ackSeq] == s.tables[BLOCK_TABLE][p.cmdSeq]
    ensures after.tables[BLOCK_TABLE][p.ackResult]
            == if Pending(p, Snapshot(s)) then Answer(p, Snapshot(s)) else s.tables[BLOCK_TABLE][p.ackResult]
  {
    var plan := StepIsAPlan(p, s, dt, after);
    assert Holds(s.tables, BLOCK_TABLE, p.ackSeq) && Holds(s.tables, BLOCK_TABLE, p.ackResult);
    assert Holds(s.tables, BLOCK_TABLE, p.cmdSeq);
    OverlayLeavesTheRest(p, s.tables, plan);
    if !Pending(p, Snapshot(s)) {
      BlocksAreNotPublished(p, p.ackSeq);
      BlocksAreNotPublished(p, p.ackResult);
    }
  }

  /** The answer tells the truth: it is OK exactly when the command is known and
      the machine can do it, and then the machine does it in this scan; with any
      other answer, or with nothing pending, no command moves the machine. */
  lemma AnswerTellsTheEffect(p: Points, s: PlantState)
    requires CanScan(p, s)
    ensures var image := Snapshot(s);
            var code, ok := image.holding[p.cmdCode], Pending(p, image) && Answer(p, image) == 0;
            var running, cnc := CommandedConveyor(p, s).running, CommandedCnc(p, s);
            (ok && code == 1 ==> running && !s.conveyor.fault && cnc == s.cnc)
            && (ok && code == 2 ==> !running && cnc == s.cnc)
            && (ok && code == 3 ==> s.cnc.state == Idle && cnc.state == Homing && cnc.elapsed == 0.0)
            && (ok && code == 4 ==> s.cnc.state == Fault && cnc.state == Idle && cnc.elapsed == 0.0)
            && (ok ==> 1 <= code <= 4)
            && ((ok && code != 1 && code != 2) || !ok ==> running == s.conveyor.running)
            && (!ok ==> cnc == s.cnc)
    ensures var image := Snapshot(s);
            var code, answer := image.holding[p.cmdCode], Answer(p, image);
            (answer == 1 <==> !(1 <= code <= 4))
            && (answer == 2 <==>
                  (code == 1 && s.conveyor.fault) || (code == 3 && s.cnc.state != Idle) || (code == 4 && s.cnc.state != Fault))
            && (answer == 0 || answer == 1 || answer == 2)
  {
    ClampHoldsIff(Parameter(p, s.tables["holding"], 1));
  }

  /** What a command on the wire does: the number in ack_result, the conveyor's
      motor and the CNC's state, from the number in cmd_code and the machine. */
  lemma CommandsOnTheWire(p: Points, s: PlantState, dt: real, after: PlantState, c: int)
    requires CanScan(p, s) && ScanStep(p, s, dt) == Ok(after)
    requires Holds(s.tables, "holding", p.cmdCode) && c == s.tables["holding"][p.cmdCode]
    requires Holds(s.tables, "holding", p.cmdSeq) && Holds(s.tables, "holding", p.ackSeq)
    requires s.tables["holding"][p.cmdSeq] != s.tables["holding"][p.ackSeq]
    ensures var refused := (c == 1 && s.conveyor.fault) || (c == 3 && s.cnc.state != Idle) || (c == 4 && s.cnc.state != Fault);
            Holds(after.tables, "holding", p.ackResult) && Holds(after.tables, "holding", p.ackSeq)
            && after.tables["holding"][p.ackSeq] == s.tables["holding"][p.cmdSeq]
            && after.tables["holding"][p.ackResult] == (if c < 1 || c > 4 then 1 else if refused then 2 else 0)
    ensures after.conveyor.running == if c == 1 && !s.conveyor.fault then true else if c == 2 then false else s.conveyor.running
    ensures var ordered := if c == 3 && s.cnc.state == Idle then s.cnc.(state := Homing, elapsed := 0.0)
                           else if c == 4 && s.cnc.state == Fault then s.cnc.(state := Idle, elapsed := 0.0)
                           else s.cnc;
            M.Timed(ordered) && after.cnc == M.Stepped(ordered, dt)
  {
    ScanAcknowledges(p, s, dt, after);
    AnswerTellsTheEffect(p, s);
    ClampHoldsIff(Parameter(p, s.tables["holding"], 1));
  }

  /** The parameters in force after a completed scan are those in its registers: the
      setpoint as decoded, and the ramp time brought within 0.05 s and 60 s. */
  lemma ParametersInForce(p: Points, s: PlantState, dt: real, after: PlantState) returns (setpoint: Float, ramp: Float)
    requires CanScan(p, s) && ScanStep(p, s, dt) == Ok(after)
    ensures forall a :: p.setpoint.Addresses().Has(a) || p.ramp.Addresses().Has(a) ==> Holds(s.tables, "holding", a)
    ensures Decode(p.setpoint, SpanOf(s.tables["holding"], p.setpoint), p.meta) == Ok(setpoint) && IsFinite(setpoint)
    ensures Decode(p.ramp, SpanOf(s.tables["holding"], p.ramp), p.meta) == Ok(ramp) && ramp != NaN
    ensures after.conveyor.setpoint == ToReal(setpoint)
    ensures ramp.Finite? && 0.05 <= ramp.r <= 60.0 ==> after.conveyor.rampTime == ramp.r
    ensures (ramp.Finite? && ramp.r < 0.05) || ramp == NegZero || ramp == NegInf ==> after.conveyor.rampTime == 0.05
    ensures (ramp.Finite? && ramp.r > 60.0) || ramp == PosInf ==> after.conveyor.rampTime == 60.0
  {
    assert Part(p, 0) == p.setpoint && Part(p, 1) == p.ramp;
    setpoint, ramp := Parameter(p, s.tables["holding"], 0), Parameter(p, s.tables["holding"], 1);
    ClampHoldsIff(ramp);
  }

  /** The command block is only ever read. */
  lemma ScanKeepsTheCommand(p: Points, s: PlantState, dt: real, after: PlantState, a: int)
    requires CanScan(p, s) && ScanStep(p, s, dt) == Ok(after) && p.cmd.Has(a)
    ensures Holds(s.tables, BLOCK_TABLE, a) && Holds(after.tables, BLOCK_TABLE, a)
    ensures after.tables[BLOCK_TABLE][a] == s.tables[BLOCK_TABLE][a]
  {
    var plan := StepIsAPlan(p, s, dt, after);
    assert Holds(s.tables, BLOCK_TABLE, a);
    BlocksAreNotPublished(p, a);
    OverlayLeavesTheRest(p, s.tables, plan);
  }

  lemma BlocksAreNotPublished(p: Points, a: int)
    requires WellPlaced(p) && (p.ack.Has(a) || p.cmd.Has(a))
    ensures !IsPublished(p, BLOCK_TABLE, a)
  {
    forall k | 2 <= k < 5
      ensures !At(Part(p, k), BLOCK_TABLE, a)
    {
      assert OutsideBlocks(p, Part(p, k));
      assert Covers(BLOCK_TABLE, p.ack, BLOCK_TABLE, a) || Covers(BLOCK_TABLE, p.cmd, BLOCK_TABLE, a);
    }
  }

  // ---------------------------------------------------- soundness is kept

  lemma EncodeIsRegisters(m: Mapping, v: Float, meta: Meta)
    ensures Encode(m, v, meta).Ok? ==> Registers(Encode(m, v, meta).value)
  {
    if Encode(m, v, meta).Ok? && !m.typ.Bool? {
      var scaled := Unscaled(v, m.scale);
      var x := if m.typ.Float32? then scaled else Finite(RoundHalfEven(ToReal(scaled)) as real);
      WordsAreRegisters(x, m.typ, meta);
    }
  }

  lemma WordsAreRegisters(x: Float, t: RegType, meta: Meta)
    ensures WordsOf(x, t, meta).Ok? ==> Registers(WordsOf(x, t, meta).value)
  {
    if !t.Bool? && !t.Unknown? {
      PatternFits(x, t);
      if Pattern(x, t).Ok? && Width(t) == 2 {
        CollectInverts(Pattern(x, t).value, meta);
      }
    }
  }

  lemma OverlayIsWide16(p: Points, tables: Tables, plan: Plan, t: string, a: int)
    requires WellPlaced(p) && Fits(p, plan) && Wide16(tables) && Holds(tables, t, a)
    requires forall k :: 2 <= k < 5 ==> Registers(WordsFor(plan, k))
    requires plan.ack.Some? ==> 0 <= plan.ack.value.0 < 0x1_0000 && 0 <= plan.ack.value.1 < 0x1_0000
    ensures 0 <= Overlay(p, tables, plan)[t][a] < 0x1_0000
  {
    if IsPublished(p, t, a) {
      var k :| 2 <= k < 5 && At(Part(p, k), t, a);
      PlannedInSpan(p, plan, k, t, a);
    } else {
      PlannedElsewhere(p, plan, t, a);
    }
  }

  lemma ScanKeepsWide(p: Points, s: PlantState, dt: real, after: PlantState)
    requires CanScan(p, s) && ScanStep(p, s, dt) == Ok(after)
    ensures Wide16(after.tables)
  {
    var plan := StepIsAPlan(p, s, dt, after);
    forall k | 2 <= k < 5
      ensures Registers(WordsFor(plan, k))
    {
      EncodeIsRegisters(Part(p, k), PublishedValue(p, Snapshot(s), k), p.meta);
    }
    PlanKeepsWide(p, s.tables, plan);
  }

  /** A plan of register words, laid over registers, leaves registers. */
  lemma PlanKeepsWide(p: Points, tables: Tables, plan: Plan)
    requires WellPlaced(p) && Laid(p, tables) && Fits(p, plan) && Wide16(tables)
    requires forall k :: 2 <= k < 5 ==> Registers(WordsFor(plan, k))
    requires plan.ack.Some? ==> 0 <= plan.ack.value.0 < 0x1_0000
                                && Holds(tables, BLOCK_TABLE, p.cmdSeq) && plan.ack.value.1 == tables[BLOCK_TABLE][p.cmdSeq]
    ensures Wide16(Overlay(p, tables, plan))
  {
    var after := Overlay(p, tables, plan);
    forall t, a | Holds(after, t, a)
      ensures 0 <= after[t][a] < 0x1_0000
    {
      assert Holds(tables, t, a);
      OverlayIsWide16(p, tables, plan, t, a);
    }
  }

  /** And one with every mapped register still there. */
  lemma PlanKeepsLaid(p: Points, tables: Tables, plan: Plan)
    requires WellPlaced(p) && Laid(p, tables) && Fits(p, plan)
    ensures forall t, a :: Holds(Overlay(p, tables, plan), t, a) <==> Holds(tables, t, a)
    ensures Laid(p, Overlay(p, tables, plan))
  {
    OverlayLeavesTheRest(p, tables, plan);
    var after := Overlay(p, tables, plan);
    forall k | 0 <= k < 5
      ensures HoldsSpan(after, Part(p, k))
    {
      assert HoldsSpan(tables, Part(p, k));
    }
  }

  lemma ScanKeepsLaid(p: Points, s: PlantState, dt: real, after: PlantState)
    requires CanScan(p, s) && ScanStep(p, s, dt) == Ok(after)
    ensures forall t, a :: Holds(after.tables, t, a) <==> Holds(s.tables, t, a)
    ensures Laid(p, after.tables)
  {
    var plan := StepIsAPlan(p, s, dt, after);
    PlanKeepsLaid(p, s.tables, plan);
  }

  /** After any scan the registers are still laid out, still 16 bits wide, and the
      plant can go on. */
  lemma ScanKeepsSound(p: Points, s: PlantState, dt: real, after: PlantState)
    requires CanScan(p, s) && ScanStep(p, s, dt) == Ok(after)
    ensures Sound(p, after) && Usable(p, Snapshot(after))
  {
    ScanKeepsLaid(p, s, dt, after);
    ScanKeepsWide(p, s, dt, after);
    SnapshotIsUsable(p, after);
  }
}
