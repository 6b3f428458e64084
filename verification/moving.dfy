/** One gateway starts the shipped conveyor, lets it come up to the fastest speed a
    setpoint can ask for, and stops it on the slowest ramp: the run on which the
    bounded stop takes all of its scans. */
module MovingStop {
  import opened Wrappers
  import opened Numbers
  import opened Binary32
  import opened Commands
  import opened Model
  import opened Codec
  import opened ImageTable
  import opened Points
  import opened Scan
  import opened PlantRuns
  import opened Deployment
  import opened ShippedRuns
  import opened JointRuns
  import J = JointRuns
  import F = ScanFrame
  import H = Handshake
  import D = Soundness
  import W = WireLink
  import C = ConveyorMachine
  import M = CncMachine

  // ------------------------------------------------------ writing a parameter

  lemma ParameterWriteIsAccepted(p: Points, tables: Tables, k: int, words: seq<int>)
    requires TypesOk(p) && 0 <= k < 2 && HoldsSpan(tables, Part(p, k)) && "holding" in tables
    requires |words| == Width(Part(p, k).typ)
    ensures Write(tables, 16, Part(p, k).addr, words).Ok?
  {
    var m := Part(p, k);
    forall a | m.addr <= a < m.addr + |words|
      ensures a in tables["holding"]
    {
      assert At(m, "holding", a);
    }
  }

  lemma ParameterSpan(p: Points, tables: Tables, after: Tables, k: int, words: seq<int>)
    requires TypesOk(p) && 0 <= k < 2 && |words| == Width(Part(p, k).typ)
    requires Write(tables, 16, Part(p, k).addr, words) == Ok(after)
    ensures "holding" in after && forall a :: Part(p, k).Addresses().Has(a) ==> a in after["holding"]
    ensures SpanOf(after["holding"], Part(p, k)) == words
  {
  }

  lemma OtherParameterStays(p: Points, tables: Tables, after: Tables, k: int, l: int, words: seq<int>)
    requires WellPlaced(p) && 0 <= k < 2 && 0 <= l < 2 && k != l && |words| == Width(Part(p, k).typ)
    requires Write(tables, 16, Part(p, k).addr, words) == Ok(after)
    requires Readable(p, tables["holding"]) && Readable(p, after["holding"])
    ensures Parameter(p, after["holding"], l) == Parameter(p, tables["holding"], l)
  {
    SpanIsRegisters(p, tables["holding"], l);
    SpanIsRegisters(p, after["holding"], l);
    var m := Part(p, l);
    forall i | 0 <= i < Width(m.typ)
      ensures SpanOf(after["holding"], m)[i] == SpanOf(tables["holding"], m)[i]
    {
      assert At(m, "holding", m.addr + i);
      assert Apart(Part(p, 0), Part(p, 1));
    }
    assert SpanOf(after["holding"], m) == SpanOf(tables["holding"], m);
  }

  lemma ParameterOffBlocks(p: Points, k: int, words: seq<int>)
    requires WellPlaced(p) && 0 <= k < 2 && |words| == Width(Part(p, k).typ)
    ensures var e := WriteRegs(16, Part(p, k).addr, words); OffAck(p, e) && OffCommand(p, e)
  {
    var m := Part(p, k);
    forall a | p.ack.Has(a) || p.cmd.Has(a)
      ensures !(m.addr <= a < m.addr + |words|)
    {
      assert OutsideBlocks(p, m);
      if m.addr <= a < m.addr + |words| {
        assert At(m, BLOCK_TABLE, a);
      }
    }
  }

  /** Both parameters of a plant that can scan. */
  ghost predicate Reads(p: Points, s: PlantState, setpoint: Float, ramp: Float) {
    CanScan(p, s) && Parameter(p, s.tables["holding"], 0) == setpoint && Parameter(p, s.tables["holding"], 1) == ramp
  }

  lemma ParameterIsWritten(p: Points, dt: real, s: PlantState, k: int, words: seq<int>, v: Float, setpoint: Float, ramp: Float)
      returns (after: PlantState)
    requires Standard(p) && dt > 0.0 && Safe(p, s) && Reads(p, s, setpoint, ramp) && 0 <= k < 2
    requires |words| == Width(Part(p, k).typ) && Registers(words)
    requires Part(p, k).typ.Bool? ==> words != []
    requires Decode(Part(p, k), words, p.meta) == Ok(v) && IsFinite(v)
    ensures PlantStep(p, dt, s, WriteRegs(16, Part(p, k).addr, words), after)
    ensures after == s.(tables := after.tables) && Safe(p, after)
    ensures Reads(p, after, if k == 0 then v else setpoint, if k == 1 then v else ramp)
  {
    ParameterWriteIsAccepted(p, s.tables, k, words);
    after := s.(tables := Write(s.tables, 16, Part(p, k).addr, words).value);
    StepIsSafe(p, dt, s, WriteRegs(16, Part(p, k).addr, words), after);
    SnapshotIsUsable(p, s);
    SnapshotIsUsable(p, after);
    ParameterSpan(p, s.tables, after.tables, k, words);
    OtherParameterStays(p, s.tables, after.tables, k, 1 - k, words);
  }

  // ----------------------------------------------------------------- cruising

  const TOP := 65.535
  const RAMP := 60.0
  const SPEED_UP := 2.0

  /** What one scan adds to or takes off the speed: 2 m/s in 60 s, for 10 ms. */
  function Delta(): (d: real)
    ensures d > 0.0 && d * 3000.0 == 1.0
  {
    SPEED_UP / RAMP * DT
  }

  /** At the top setpoint and the slowest ramp, with nothing waiting. */
  ghost predicate Cruises(p: Points, s: PlantState, running: bool) {
    Reads(p, s, Finite(TOP), Finite(RAMP)) && !Pending(p, Snapshot(s))
    && s.conveyor.maxSpeed == SPEED_UP && !s.conveyor.fault && s.conveyor.running == running
  }

  function TargetOf(running: bool): real {
    if running then TOP else 0.0
  }

  ghost predicate Cruised(p: Points, running: bool, s: PlantState, after: PlantState) {
    CompletedScan(p, DT, s, after) && Cruises(p, after, running)
    && after.conveyor.speed == C.NextSpeed(s.conveyor.speed, TargetOf(running), Delta())
  }

  /** A scan that leaves the motor running or not, with the parameters as they are. */
  lemma ScanSpeed(p: Points, s: PlantState, after: PlantState, running: bool)
    requires Reads(p, s, Finite(TOP), Finite(RAMP)) && ScanStep(p, s, DT) == Ok(after)
    requires s.conveyor.maxSpeed == SPEED_UP && !s.conveyor.fault && CommandedConveyor(p, s).running == running
    ensures after.conveyor.speed == C.NextSpeed(s.conveyor.speed, TargetOf(running), Delta())
    ensures after.conveyor.running == running && after.conveyor.maxSpeed == SPEED_UP && !after.conveyor.fault
  {
    SpeedAfterScan(p, s, DT, after);
    CommandedReads(p, s);
    DeltaIs(CommandedConveyor(p, s));
    FaultStays(p, s, DT, after);
    TargetIs(CommandedConveyor(p, s), running);
  }

  lemma CommandedReads(p: Points, s: PlantState)
    requires Reads(p, s, Finite(TOP), Finite(RAMP))
    ensures CommandedConveyor(p, s).rampTime == RAMP && CommandedConveyor(p, s).setpoint == TOP
    ensures CommandedConveyor(p, s).maxSpeed == s.conveyor.maxSpeed && CommandedConveyor(p, s).fault == s.conveyor.fault
  {
    ClampHoldsIff(Finite(RAMP));
  }

  lemma DeltaIs(moved: C.ConveyorState)
    requires moved.rampTime == RAMP && moved.maxSpeed == SPEED_UP
    ensures C.MaxDelta(moved, DT) == Delta()
  {
  }

  lemma TargetIs(moved: C.ConveyorState, running: bool)
    requires moved.setpoint == TOP && moved.running == running && !moved.fault
    ensures C.Target(moved) == TargetOf(running)
  {
  }

  lemma FaultStays(p: Points, s: PlantState, dt: real, after: PlantState)
    requires CanScan(p, s) && ScanStep(p, s, dt) == Ok(after)
    ensures after.conveyor.fault == s.conveyor.fault
  {
    ClampHoldsIff(Parameter(p, s.tables["holding"], 1));
  }

  /** The shipped scales. */
  predicate Shipped(p: Points) {
    Standard(p) && p.setpoint.scale == 0.001 && p.position.scale == 1.0
  }

  const REACH := 0.65535

  function Limit(): real {
    16777215.5 * Unit(253)
  }

  /** Safe, able to scan, and n scans from running off binary32. */
  ghost predicate Has(p: Points, s: PlantState, n: nat) {
    Shipped(p) && Near(p, s, n, REACH, Limit())
  }

  lemma OneStep(p: Points, s: PlantState, n: nat) returns (after: PlantState)
    requires Has(p, s, n) && n > 0
    ensures CompletedScan(p, DT, s, after) && Settled(p, after) && Has(p, after, n - 1)
  {
    assert Going(p, DT, s, n, 65.535, REACH, Limit());
    after := ScanSettles(p, DT, s, n, 65.535, REACH, Limit());
  }

  lemma OneScan(p: Points, s: PlantState, n: nat, running: bool) returns (after: PlantState)
    requires Has(p, s, n) && n > 0 && Reads(p, s, Finite(TOP), Finite(RAMP))
    requires s.conveyor.maxSpeed == SPEED_UP && !s.conveyor.fault && CommandedConveyor(p, s).running == running
    ensures Cruised(p, running, s, after) && Has(p, after, n - 1)
  {
    after := OneStep(p, s, n);
    ScanSpeed(p, s, after, running);
    ScanKeepsParameters(p, s, DT, after);
  }

  /** Nothing commanded, nothing changed. */
  lemma SettledKeepsRunning(p: Points, s: PlantState)
    requires Settled(p, s)
    ensures CommandedConveyor(p, s).running == s.conveyor.running
  {
  }

  ghost function CruiseLink(p: Points, running: bool): (PlantState, PlantState) -> bool {
    (s, after) => Cruised(p, running, s, after)
  }

  ghost function CruiseBy(p: Points, running: bool): (PlantState, nat) -> bool {
    (s: PlantState, n: nat) => Has(p, s, n) && Cruises(p, s, running)
  }

  lemma CruiseStep(p: Points, s: PlantState, n: nat, running: bool) returns (after: PlantState)
    requires Has(p, s, n) && Cruises(p, s, running) && n > 0
    ensures Cruised(p, running, s, after) && Has(p, after, n - 1)
  {
    SettledKeepsRunning(p, s);
    after := OneScan(p, s, n, running);
  }

  lemma CruiseGoesOn(p: Points, running: bool)
    ensures CanGoOn(CruiseBy(p, running), CruiseLink(p, running))
  {
    forall s: PlantState, n: nat | n > 0 && CruiseBy(p, running)(s, n)
      ensures HasNext(CruiseBy(p, running), CruiseLink(p, running), s, n)
    {
      CruiseNext(p, s, n, running, n - 1);
    }
  }

  lemma CruiseNext(p: Points, s: PlantState, n: nat, running: bool, left: nat)
    requires CruiseBy(p, running)(s, n) && n == left + 1
    ensures HasNext(CruiseBy(p, running), CruiseLink(p, running), s, n)
  {
    var after := CruiseStepBy(p, s, n, running, left);
    NextIs(CruiseBy(p, running), CruiseLink(p, running), s, n, after, left);
  }

  lemma CruiseStepBy(p: Points, s: PlantState, n: nat, running: bool, left: nat) returns (after: PlantState)
    requires CruiseBy(p, running)(s, n) && n == left + 1
    ensures CruiseLink(p, running)(s, after) && CruiseBy(p, running)(after, left)
  {
    CruiseEnds(p, s, n, running);
    after := CruiseStep(p, s, n, running);
    HasSame(p, after, n - 1, left);
    CruiseHolds(p, s, after, left, running);
  }

  lemma CruiseHolds(p: Points, s: PlantState, after: PlantState, n: nat, running: bool)
    requires Cruised(p, running, s, after) && Has(p, after, n)
    ensures CruiseLink(p, running)(s, after) && CruiseBy(p, running)(after, n)
  {
  }

  lemma CruiseEnds(p: Points, s: PlantState, n: nat, running: bool)
    requires CruiseBy(p, running)(s, n)
    ensures Has(p, s, n) && Cruises(p, s, running)
  {
  }

  lemma CruiseChain(p: Points, s: PlantState, n: nat, left: nat, running: bool) returns (st: seq<PlantState>)
    requires CanGoOn(CruiseBy(p, running), CruiseLink(p, running)) && CruiseBy(p, running)(s, n + left)
    ensures Chain(st, n, CruiseLink(p, running)) && st[0] == s && CruiseBy(p, running)(st[n], left)
  {
    st := ChainFrom(s, n, left, CruiseBy(p, running), CruiseLink(p, running));
  }

  lemma CruiseAt(p: Points, st: seq<PlantState>, n: nat, running: bool, t: nat, u: nat)
    requires Chain(st, n, CruiseLink(p, running)) && t < n && u == t + 1
    ensures Cruised(p, running, st[t], st[u])
  {
    LinkAt(st, n, CruiseLink(p, running), t, u);
  }

  // -------------------------------------------------------------- the speeds

  ghost function Speeds(st: seq<PlantState>): (r: seq<real>)
    ensures |r| == |st|
  {
    seq(|st|, t requires 0 <= t < |st| => st[t].conveyor.speed)
  }

  lemma {:induction false} SpeedsRamp(x: seq<real>, target: real, d: real, t: nat)
    requires t < |x| && forall i, j :: 0 <= i < |x| - 1 && j == i + 1 ==> x[j] == C.NextSpeed(x[i], target, d)
    ensures x[t] == C.Ramp(x[0], target, d, t)
  {
    if t == 0 {
    } else {
      var before := t - 1;
      SpeedsRamp(x, target, d, before);
      assert x[t] == C.NextSpeed(x[before], target, d);
    }
  }

  lemma CruiseSpeed(p: Points, st: seq<PlantState>, n: nat, running: bool, t: nat)
    requires Chain(st, n, CruiseLink(p, running)) && t <= n
    ensures t < |st| && st[t].conveyor.speed == C.Ramp(st[0].conveyor.speed, TargetOf(running), Delta(), t)
  {
    forall i, j | 0 <= i < |Speeds(st)| - 1 && j == i + 1
      ensures Speeds(st)[j] == C.NextSpeed(Speeds(st)[i], TargetOf(running), Delta())
    {
      CruiseAt(p, st, n, running, i, j);
    }
    SpeedsRamp(Speeds(st), TargetOf(running), Delta(), t);
  }

  lemma {:induction false} RampComposes(speed: real, target: real, d: real, k: nat)
    ensures C.Ramp(C.NextSpeed(speed, target, d), target, d, k) == C.Ramp(speed, target, d, k + 1)
  {
    if k == 0 {
      assert C.Ramp(speed, target, d, 1) == C.NextSpeed(C.Ramp(speed, target, d, 0), target, d);
    } else {
      RampComposes(speed, target, d, k - 1);
    }
  }

  /** 196605 scans up to the top speed, and as many down: not one fewer. */
  const SCANS: nat := 196605

  lemma UpToTop(k: nat)
    requires k == SCANS
    ensures C.Ramp(0.0, TOP, Delta(), k) == TOP
  {
    C.RampDistance(0.0, TOP, Delta(), k);
    TimesIsProduct(k, Delta());
  }

  lemma DownToRest(k: nat)
    requires k <= SCANS
    ensures C.Ramp(TOP, 0.0, Delta(), k) == TOP - k as real * Delta()
    ensures C.Ramp(TOP, 0.0, Delta(), k) == 0.0 <==> k == SCANS
  {
    C.RampDistance(TOP, 0.0, Delta(), k);
    TimesIsProduct(k, Delta());
    assert k as real * Delta() * 3000.0 == k as real;
  }

  // ---------------------------------------------------- runs, piece by piece

  ghost predicate Path<T(!new), E(!new)>(xs: seq<T>, es: seq<E>, link: (T, E, T) -> bool) {
    |xs| == |es| + 1 && forall t, u :: 0 <= t < |es| && u == t + 1 ==> link(xs[t], es[t], xs[u])
  }

  lemma PathGoesOn<T(!new), E(!new)>(xs: seq<T>, es: seq<E>, ys: seq<T>, fs: seq<E>, link: (T, E, T) -> bool)
    requires Path(xs, es, link) && Path(ys, fs, link) && xs[|es|] == ys[0]
    ensures Path(xs + ys[1..], es + fs, link)
    ensures forall t :: 0 <= t <= |es| ==> (xs + ys[1..])[t] == xs[t]
    ensures forall t :: |es| <= t <= |es| + |fs| ==> (xs + ys[1..])[t] == ys[t - |es|]
  {
    var whole, all := xs + ys[1..], es + fs;
    forall t | |es| <= t <= |es| + |fs|
      ensures whole[t] == ys[t - |es|]
    {
    }
    forall t, u | 0 <= t < |all| && u == t + 1
      ensures link(whole[t], all[t], whole[u])
    {
      if t >= |es| {
        var i, j := t - |es|, u - |es|;
        assert link(ys[i], fs[i], ys[j]);
      } else {
        assert link(xs[t], es[t], xs[u]);
      }
    }
  }

  /** A step of a run with one gateway, in which nothing is refused. */
  ghost predicate GoodStep(c: Contract, p: Points, x: Joint, e: Step, y: Joint) {
    JointStep(c, p, DT, x, e, y) && D.SoleMaster(e.master) && !Refused(c, p, x, e)
  }

  ghost function StepLink(c: Contract, p: Points): (Joint, Step, Joint) -> bool {
    (x, e, y) => GoodStep(c, p, x, e, y)
  }

  ghost predicate GoodPath(c: Contract, p: Points, xs: seq<Joint>, es: seq<Step>) {
    Path(xs, es, StepLink(c, p))
  }

  lemma OneStepPath<T(!new), E(!new)>(x: T, e: E, y: T, link: (T, E, T) -> bool)
    requires link(x, e, y)
    ensures Path([x, y], [e], link)
  {
  }

  lemma OneGoodStep(c: Contract, p: Points, x: Joint, e: Step, y: Joint)
    requires GoodStep(c, p, x, e, y)
    ensures GoodPath(c, p, [x, y], [e])
  {
    OneStepPath(x, e, y, StepLink(c, p));
  }

  /** The parts of a good step. */
  lemma Assemble(c: Contract, p: Points, x: Joint, e: Step, y: Joint, s: H.System)
    requires W.Plant(c, p, x.plant.tables) && s == SystemOf(c, p, x) && H.Enabled(s, e.master)
    requires y.masters == MemoryOf(H.Next(s, e.master)) && D.SoleMaster(e.master) && !H.Refuses(s, e.master)
    requires PlantStep(p, DT, x.plant, e.plant, y.plant) && Agrees(c, p, DT, x, e, y)
    ensures GoodStep(c, p, x, e, y)
  {
  }

  lemma SystemIs(c: Contract, p: Points, x: Joint)
    requires W.Plant(c, p, x.plant.tables)
    ensures MemoryOf(SystemOf(c, p, x)) == x.masters && SystemOf(c, p, x).blocks == W.View(c, p, x.plant.tables)
  {
  }

  // What single events do to the masters' memory.

  lemma UnnoticedEvent(s: H.System, e: H.Event)
    requires e.Scan? || e.Elsewhere?
    ensures H.Enabled(s, e) && MemoryOf(H.Next(s, e)) == MemoryOf(s) && !H.Refuses(s, e) && D.SoleMaster(e)
  {
  }

  lemma WriteLandsEvent(s: H.System, cmd: H.Command)
    requires s.phase == H.Writing(cmd)
    ensures H.Enabled(s, H.WriteLands) && !H.Refuses(s, H.WriteLands)
    ensures MemoryOf(H.Next(s, H.WriteLands)) == Memory(s.issued, H.Replying(cmd), Some(cmd), s.rogue)
    ensures J.Written(MemoryOf(s), H.WriteLands) == Some(cmd)
  {
  }

  /** A step that only the masters notice. */
  lemma QuietStep(c: Contract, p: Points, x: Joint, e: H.Event, y: Joint, s: H.System)
    requires W.Plant(c, p, x.plant.tables) && OnlyReads(e) && D.SoleMaster(e) && s == SystemOf(c, p, x)
    requires H.Enabled(s, e) && !H.Refuses(s, e) && y == Joint(x.plant, MemoryOf(H.Next(s, e)))
    ensures GoodStep(c, p, x, Step(Rests, e), y)
  {
    ReadAgrees(c, p, x, Step(Rests, e), y);
    Assemble(c, p, x, Step(Rests, e), y, s);
  }

  lemma ReadAgrees(c: Contract, p: Points, x: Joint, e: Step, y: Joint)
    requires W.FieldLayout(c.commandBlock.layout) && OnlyReads(e.master) && e.plant == Rests
    ensures Agrees(c, p, DT, x, e, y)
  {
  }

  lemma ParameterAgrees(c: Contract, p: Points, x: Joint, e: PlantEvent, y: Joint)
    requires W.FieldLayout(c.commandBlock.layout) && e.WriteRegs? && OffAck(p, e) && OffCommand(p, e)
    ensures Agrees(c, p, DT, x, Step(e, H.Elsewhere), y)
  {
  }

  /** A parameter is written; the masters do not notice. */
  lemma ParameterStep(c: Contract, p: Points, x: Joint, k: int, words: seq<int>, after: PlantState, e: PlantEvent)
    requires W.Plant(c, p, x.plant.tables) && 0 <= k < 2 && |words| == Width(Part(p, k).typ)
    requires e == WriteRegs(16, Part(p, k).addr, words) && PlantStep(p, DT, x.plant, e, after)
    ensures GoodStep(c, p, x, Step(e, H.Elsewhere), Joint(after, x.masters))
  {
    ParameterOffBlocks(p, k, words);
    SystemIs(c, p, x);
    UnnoticedEvent(SystemOf(c, p, x), H.Elsewhere);
    ParameterAgrees(c, p, x, e, Joint(after, x.masters));
    Assemble(c, p, x, Step(e, H.Elsewhere), Joint(after, x.masters), SystemOf(c, p, x));
  }

  lemma ParameterKeepsView(c: Contract, p: Points, x: Joint, k: int, words: seq<int>, after: PlantState)
    requires W.Plant(c, p, x.plant.tables) && 0 <= k < 2 && |words| == Width(Part(p, k).typ)
    requires PlantStep(p, DT, x.plant, WriteRegs(16, Part(p, k).addr, words), after)
    ensures W.Plant(c, p, after.tables) && W.View(c, p, after.tables) == W.View(c, p, x.plant.tables)
  {
    ParameterOffBlocks(p, k, words);
    WriteRefines(c, p, DT, x, WriteRegs(16, Part(p, k).addr, words), Joint(after, x.masters));
  }

  lemma ScanAgrees(c: Contract, p: Points, x: Joint, y: Joint)
    requires W.FieldLayout(c.commandBlock.layout) && Scans(p, DT, x.plant, Tick)
    ensures Agrees(c, p, DT, x, Step(Tick, H.Scan(x.plant.conveyor.fault, x.plant.cnc.state)), y)
  {
  }

  /** A completed scan; the masters do not notice. */
  lemma ScanGoodStep(c: Contract, p: Points, x: Joint, after: PlantState, e: Step)
    requires W.Plant(c, p, x.plant.tables) && CompletedScan(p, DT, x.plant, after)
    requires e == Step(Tick, H.Scan(x.plant.conveyor.fault, x.plant.cnc.state))
    ensures GoodStep(c, p, x, e, Joint(after, x.masters))
  {
    SystemIs(c, p, x);
    UnnoticedEvent(SystemOf(c, p, x), e.master);
    ScanAgrees(c, p, x, Joint(after, x.masters));
    Assemble(c, p, x, e, Joint(after, x.masters), SystemOf(c, p, x));
  }

  lemma WriteAgrees(c: Contract, p: Points, x: Joint, cmd: H.Command, e: Step, y: Joint)
    requires W.FieldLayout(c.commandBlock.layout) && J.Written(x.masters, H.WriteLands) == Some(cmd)
    requires e == Step(BlockWrite(c, cmd), H.WriteLands)
    ensures Agrees(c, p, DT, x, e, y)
  {
  }

  lemma WriteGoodStep(c: Contract, p: Points, x: Joint, cmd: H.Command, after: PlantState, e: Step, y: Joint)
    requires W.Plant(c, p, x.plant.tables) && x.masters.phase == H.Writing(cmd) && e == Step(BlockWrite(c, cmd), H.WriteLands)
    requires PlantStep(p, DT, x.plant, e.plant, after)
    requires y == Joint(after, Memory(x.masters.issued, H.Replying(cmd), Some(cmd), x.masters.rogue))
    ensures GoodStep(c, p, x, e, y)
  {
    SystemIs(c, p, x);
    WriteLandsEvent(SystemOf(c, p, x), cmd);
    WriteAgrees(c, p, x, cmd, e, y);
    Assemble(c, p, x, e, y, SystemOf(c, p, x));
  }

  lemma InvokeEvent(s: H.System, code: int)
    requires s.phase.Ready?
    ensures var e := H.Invoke(code, 0);
            H.Enabled(s, e) && !H.Refuses(s, e) && D.SoleMaster(e) && OnlyReads(e)
            && MemoryOf(H.Next(s, e)) == MemoryOf(s).(phase := H.Reading(code, 0))
  {
  }

  lemma ReadEvent(s: H.System, code: int, number: int)
    requires s.phase == H.Reading(code, 0) && !H.Contends(s) && number == H.NextSeq(s.blocks.ackSeq)
    ensures H.Enabled(s, H.ReadOk) && !H.Refuses(s, H.ReadOk)
    ensures MemoryOf(H.Next(s, H.ReadOk)) == MemoryOf(s).(phase := H.Writing(H.Command(code, 0, 0, number)))
  {
  }

  lemma ReplyEvent(s: H.System, cmd: H.Command)
    requires s.phase == H.Replying(cmd)
    ensures H.Enabled(s, H.WriteReplies) && !H.Refuses(s, H.WriteReplies)
    ensures MemoryOf(H.Next(s, H.WriteReplies)) == MemoryOf(s).(issued := Some(cmd.number), phase := H.Polling(cmd))
  {
  }

  lemma PollEvent(s: H.System, cmd: H.Command)
    requires s.phase == H.Polling(cmd) && s.blocks.ackSeq == cmd.number
    ensures H.Enabled(s, H.PollOk) && !H.Refuses(s, H.PollOk) && H.Returns(s, H.PollOk)
    ensures MemoryOf(H.Next(s, H.PollOk)) == MemoryOf(s).(phase := H.Ready)
  {
  }

  // ------------------------------------------------------------- the pieces

  /** What stays the same about contract and plant. */
  ghost predicate Wired(c: Contract, p: Points) {
    Required(c) && p == PointsOf(c) && W.FieldLayout(c.commandBlock.layout)
  }

  lemma PlantOf(c: Contract, p: Points, s: PlantState)
    requires Wired(c, p) && Sound(p, s)
    ensures W.Plant(c, p, s.tables)
  {
  }

  lemma Quietly(c: Contract, p: Points, x: Joint, e: H.Event, masters: Memory, s: H.System) returns (y: Joint)
    requires W.Plant(c, p, x.plant.tables) && OnlyReads(e) && D.SoleMaster(e) && s == SystemOf(c, p, x)
    requires H.Enabled(s, e) && !H.Refuses(s, e) && masters == MemoryOf(H.Next(s, e))
    ensures y == Joint(x.plant, masters) && GoodPath(c, p, [x, y], [Step(Rests, e)])
  {
    y := Joint(x.plant, masters);
    QuietStep(c, p, x, e, y, s);
    OneGoodStep(c, p, x, Step(Rests, e), y);
  }

  lemma Then(c: Contract, p: Points, xs: seq<Joint>, es: seq<Step>, y: Joint, e: Step)
      returns (ys: seq<Joint>, fs: seq<Step>)
    requires GoodPath(c, p, xs, es) && GoodPath(c, p, [xs[|es|], y], [e])
    ensures GoodPath(c, p, ys, fs) && fs == es + [e] && ys[0] == xs[0] && |ys| == |fs| + 1 && ys[|fs|] == y
    ensures ys[..|xs|] == xs
  {
    PathGoesOn(xs, es, [xs[|es|], y], [e], StepLink(c, p));
    ys, fs := xs + [xs[|es|], y][1..], es + [e];
    assert [xs[|es|], y][1..] == [y];
  }

  /** The gateway invokes a command: read, write, reply. */
  lemma InvokeSegment(c: Contract, p: Points, x: Joint, cmd: H.Command)
      returns (xs: seq<Joint>, es: seq<Step>)
    requires Wired(c, p) && Standard(p) && Safe(p, x.plant) && CanScan(p, x.plant) && W.Plant(c, p, x.plant.tables)
    requires x.masters.phase.Ready? && cmd == H.Command(cmd.code, 0, 0, cmd.number) && InRegisters(cmd)
    requires !H.Contends(SystemOf(c, p, x)) && cmd.number == H.NextSeq(W.View(c, p, x.plant.tables).ackSeq)
    ensures GoodPath(c, p, xs, es) && |es| == 4 && xs[0] == x
    ensures xs[4].masters == Memory(Some(cmd.number), H.Polling(cmd), Some(cmd), x.masters.rogue)
    ensures xs[4].plant == x.plant.(tables := xs[4].plant.tables) && Safe(p, xs[4].plant) && CanScan(p, xs[4].plant)
    ensures SameReadings(p, x.plant, xs[4].plant)
    ensures W.Plant(c, p, xs[4].plant.tables)
    ensures W.View(c, p, xs[4].plant.tables) == W.View(c, p, x.plant.tables).(cmd := cmd)
  {
    SystemIs(c, p, x);
    InvokeEvent(SystemOf(c, p, x), cmd.code);
    var x1 := Quietly(c, p, x, H.Invoke(cmd.code, 0), x.masters.(phase := H.Reading(cmd.code, 0)), SystemOf(c, p, x));
    xs, es := [x, x1], [Step(Rests, H.Invoke(cmd.code, 0))];

    var x2 := ReadPart(c, p, x1, cmd);
    xs, es := Then(c, p, xs, es, x2, Step(Rests, H.ReadOk));

    var x3 := WritePart(c, p, x2, cmd);
    xs, es := Then(c, p, xs, es, x3, Step(BlockWrite(c, cmd), H.WriteLands));

    var x4 := ReplyPart(c, p, x3, cmd);
    xs, es := Then(c, p, xs, es, x4, Step(Rests, H.WriteReplies));
  }

  lemma ReadPart(c: Contract, p: Points, x: Joint, cmd: H.Command) returns (y: Joint)
    requires W.Plant(c, p, x.plant.tables) && x.masters.phase == H.Reading(cmd.code, 0) && cmd == H.Command(cmd.code, 0, 0, cmd.number)
    requires !H.Contends(SystemOf(c, p, x)) && cmd.number == H.NextSeq(W.View(c, p, x.plant.tables).ackSeq)
    ensures y == Joint(x.plant, x.masters.(phase := H.Writing(cmd))) && GoodPath(c, p, [x, y], [Step(Rests, H.ReadOk)])
  {
    SystemIs(c, p, x);
    ReadEvent(SystemOf(c, p, x), cmd.code, cmd.number);
    y := Quietly(c, p, x, H.ReadOk, x.masters.(phase := H.Writing(cmd)), SystemOf(c, p, x));
  }

  lemma WritePart(c: Contract, p: Points, x: Joint, cmd: H.Command) returns (y: Joint)
    requires Standard(p) && Safe(p, x.plant) && CanScan(p, x.plant) && W.Plant(c, p, x.plant.tables)
    requires x.masters.phase == H.Writing(cmd) && InRegisters(cmd)
    ensures GoodPath(c, p, [x, y], [Step(BlockWrite(c, cmd), H.WriteLands)])
    ensures y.masters == Memory(x.masters.issued, H.Replying(cmd), Some(cmd), x.masters.rogue)
    ensures y.plant == x.plant.(tables := y.plant.tables) && Safe(p, y.plant) && CanScan(p, y.plant)
    ensures SameReadings(p, x.plant, y.plant)
    ensures W.Plant(c, p, y.plant.tables) && W.View(c, p, y.plant.tables) == W.View(c, p, x.plant.tables).(cmd := cmd)
  {
    var after := CommandLands(c, p, DT, x.plant, cmd);
    y := Joint(after, Memory(x.masters.issued, H.Replying(cmd), Some(cmd), x.masters.rogue));
    WriteGoodStep(c, p, x, cmd, after, Step(BlockWrite(c, cmd), H.WriteLands), y);
    OneGoodStep(c, p, x, Step(BlockWrite(c, cmd), H.WriteLands), y);
  }

  lemma ReplyPart(c: Contract, p: Points, x: Joint, cmd: H.Command) returns (y: Joint)
    requires W.Plant(c, p, x.plant.tables) && x.masters.phase == H.Replying(cmd)
    ensures y == Joint(x.plant, x.masters.(issued := Some(cmd.number), phase := H.Polling(cmd)))
    ensures GoodPath(c, p, [x, y], [Step(Rests, H.WriteReplies)])
  {
    SystemIs(c, p, x);
    ReplyEvent(SystemOf(c, p, x), cmd);
    y := Quietly(c, p, x, H.WriteReplies, x.masters.(issued := Some(cmd.number), phase := H.Polling(cmd)), SystemOf(c, p, x));
  }

  /** The gateway waits for this command, which is in the registers unexecuted, at
      the top setpoint and the slowest ramp. */
  ghost predicate Waits(c: Contract, p: Points, x: Joint, cmd: H.Command) {
    Wired(c, p) && W.Plant(c, p, x.plant.tables) && x.masters.phase == H.Polling(cmd)
    && W.View(c, p, x.plant.tables).cmd == cmd && W.View(c, p, x.plant.tables).ackSeq != cmd.number
    && Reads(p, x.plant, Finite(TOP), Finite(RAMP)) && x.plant.conveyor.maxSpeed == SPEED_UP && !x.plant.conveyor.fault
  }

  /** START leaves the motor running, STOP leaves it not running. */
  lemma CommandRuns(c: Contract, p: Points, x: Joint, cmd: H.Command)
    requires Waits(c, p, x, cmd) && (cmd.code == START || cmd.code == STOP)
    ensures CommandedConveyor(p, x.plant).running == (cmd.code == START)
  {
    WaitsInSnapshot(c, p, x.plant);
  }

  lemma AnsweredView(c: Contract, p: Points, s: PlantState, after: PlantState, cmd: H.Command)
    requires W.Plant(c, p, s.tables) && CanScan(p, s) && ScanStep(p, s, DT) == Ok(after)
    requires W.View(c, p, s.tables).cmd == cmd && W.View(c, p, s.tables).ackSeq != cmd.number
    requires !s.conveyor.fault && (cmd.code == START || cmd.code == STOP)
    ensures W.Plant(c, p, after.tables) && W.View(c, p, after.tables) == H.Blocks(cmd, cmd.number, OK)
  {
    W.ScanIsAnEvent(c, p, s, DT, after);
  }

  /** The scan executes the command. */
  lemma ScanPart(c: Contract, p: Points, x: Joint, cmd: H.Command, n: nat, e: Step) returns (z: Joint)
    requires Waits(c, p, x, cmd) && (cmd.code == START || cmd.code == STOP) && Has(p, x.plant, n + 1)
    requires e == Step(Tick, H.Scan(x.plant.conveyor.fault, x.plant.cnc.state))
    ensures GoodPath(c, p, [x, z], [e]) && z.masters == x.masters
    ensures Cruised(p, cmd.code == START, x.plant, z.plant) && Has(p, z.plant, n)
    ensures W.Plant(c, p, z.plant.tables) && W.View(c, p, z.plant.tables) == H.Blocks(cmd, cmd.number, OK)
  {
    CommandRuns(c, p, x, cmd);
    var after := OneScan(p, x.plant, n + 1, cmd.code == START);
    HasSame(p, after, n + 1 - 1, n);
    z := Joint(after, x.masters);
    ScanOnly(c, p, x, e, z, cmd);
  }

  lemma ScanOnly(c: Contract, p: Points, x: Joint, e: Step, z: Joint, cmd: H.Command)
    requires W.Plant(c, p, x.plant.tables) && CompletedScan(p, DT, x.plant, z.plant) && z.masters == x.masters
    requires e == Step(Tick, H.Scan(x.plant.conveyor.fault, x.plant.cnc.state))
    requires W.View(c, p, x.plant.tables).cmd == cmd && W.View(c, p, x.plant.tables).ackSeq != cmd.number
    requires !x.plant.conveyor.fault && (cmd.code == START || cmd.code == STOP)
    ensures GoodPath(c, p, [x, z], [e])
    ensures W.Plant(c, p, z.plant.tables) && W.View(c, p, z.plant.tables) == H.Blocks(cmd, cmd.number, OK)
  {
    AnsweredView(c, p, x.plant, z.plant, cmd);
    ScanGoodStep(c, p, x, z.plant, e);
    OneGoodStep(c, p, x, e, z);
  }

  // Conditions as functions, so that a piece of the run can be handed on whole.

  ghost function WaitsBy(c: Contract, p: Points, cmd: H.Command): (Joint, nat) -> bool {
    (x: Joint, n: nat) => Waits(c, p, x, cmd) && (cmd.code == START || cmd.code == STOP) && Has(p, x.plant, n)
  }

  ghost function ShowsBy(c: Contract, p: Points, b: H.Blocks): PlantState -> bool {
    (s: PlantState) => W.Plant(c, p, s.tables) && W.View(c, p, s.tables) == b
  }

  ghost function WiredBy(c: Contract): Points -> bool {
    (p: Points) => Wired(c, p)
  }

  /** The scan executes the command and the poll returns. */
  lemma ExecuteSegment(c: Contract, p: Points, x: Joint, cmd: H.Command, n: nat, e: Step) returns (z: Joint, y: Joint)
    requires WaitsBy(c, p, cmd)(x, n + 1)
    requires e == Step(Tick, H.Scan(x.plant.conveyor.fault, x.plant.cnc.state))
    ensures GoodPath(c, p, [x, z, y], [e, Step(Rests, H.PollOk)])
    ensures CruiseLink(p, cmd.code == START)(x.plant, z.plant) && CruiseBy(p, cmd.code == START)(z.plant, n)
    ensures ShowsBy(c, p, H.Blocks(cmd, cmd.number, OK))(z.plant)
    ensures z.masters == x.masters && y == Joint(z.plant, x.masters.(phase := H.Ready))
  {
    z := ExecutePart(c, p, x, cmd, n, e);
    y := PollBy(c, p, z, x.masters, cmd);
    TwoSteps(c, p, x, e, z, Step(Rests, H.PollOk), y);
  }

  lemma ExecutePart(c: Contract, p: Points, x: Joint, cmd: H.Command, n: nat, e: Step) returns (z: Joint)
    requires WaitsBy(c, p, cmd)(x, n + 1)
    requires e == Step(Tick, H.Scan(x.plant.conveyor.fault, x.plant.cnc.state))
    ensures GoodPath(c, p, [x, z], [e]) && z.masters == x.masters && x.masters.phase == H.Polling(cmd)
    ensures CruiseLink(p, cmd.code == START)(x.plant, z.plant) && CruiseBy(p, cmd.code == START)(z.plant, n)
    ensures ShowsBy(c, p, H.Blocks(cmd, cmd.number, OK))(z.plant)
  {
    z := ScanPart(c, p, x, cmd, n, e);
  }

  lemma PollBy(c: Contract, p: Points, z: Joint, masters: Memory, cmd: H.Command) returns (y: Joint)
    requires ShowsBy(c, p, H.Blocks(cmd, cmd.number, OK))(z.plant) && z.masters == masters && masters.phase == H.Polling(cmd)
    ensures y == Joint(z.plant, masters.(phase := H.Ready)) && GoodPath(c, p, [z, y], [Step(Rests, H.PollOk)])
  {
    y := PollPart(c, p, z, cmd);
  }

  lemma TwoStepPath<T(!new), E(!new)>(x: T, e: E, z: T, f: E, y: T, link: (T, E, T) -> bool)
    requires Path([x, z], [e], link) && Path([z, y], [f], link)
    ensures Path([x, z, y], [e, f], link)
  {
    assert link([x, z][0], [e][0], [x, z][1]) && link([z, y][0], [f][0], [z, y][1]);
  }

  lemma TwoSteps(c: Contract, p: Points, x: Joint, e: Step, z: Joint, f: Step, y: Joint)
    requires GoodPath(c, p, [x, z], [e]) && GoodPath(c, p, [z, y], [f])
    ensures GoodPath(c, p, [x, z, y], [e, f])
  {
    TwoStepPath(x, e, z, f, y, StepLink(c, p));
  }

  lemma PollPart(c: Contract, p: Points, z: Joint, cmd: H.Command) returns (y: Joint)
    requires W.Plant(c, p, z.plant.tables) && z.masters.phase == H.Polling(cmd)
    requires W.View(c, p, z.plant.tables).ackSeq == cmd.number
    ensures y == Joint(z.plant, z.masters.(phase := H.Ready)) && GoodPath(c, p, [z, y], [Step(Rests, H.PollOk)])
  {
    SystemIs(c, p, z);
    PollEvent(SystemOf(c, p, z), cmd);
    y := Quietly(c, p, z, H.PollOk, z.masters.(phase := H.Ready), SystemOf(c, p, z));
  }

  function WithMasters(st: seq<PlantState>, masters: Memory): (r: seq<Joint>)
    ensures |r| == |st|
  {
    seq(|st|, t requires 0 <= t < |st| => Joint(st[t], masters))
  }

  function ScanSteps(st: seq<PlantState>, n: nat): (r: seq<Step>)
    requires |st| == n + 1
    ensures |r| == n
  {
    seq(n, t requires 0 <= t < n => Step(Tick, H.Scan(st[t].conveyor.fault, st[t].cnc.state)))
  }

  lemma CruiseStepAt(c: Contract, p: Points, st: seq<PlantState>, n: nat, running: bool, masters: Memory, t: nat, u: nat)
    requires WiredBy(c)(p) && Chain(st, n, CruiseLink(p, running)) && |st| == n + 1 && t < n && u == t + 1
    ensures StepLink(c, p)(Joint(st[t], masters), ScanSteps(st, n)[t], Joint(st[u], masters))
  {
    CruiseAt(p, st, n, running, t, u);
    CruisedStep(c, p, st[t], st[u], running, masters);
  }

  lemma CruisedStep(c: Contract, p: Points, s: PlantState, after: PlantState, running: bool, masters: Memory)
    requires WiredBy(c)(p) && Cruised(p, running, s, after)
    ensures StepLink(c, p)(Joint(s, masters), Step(Tick, H.Scan(s.conveyor.fault, s.cnc.state)), Joint(after, masters))
  {
    PlantOf(c, p, s);
    ScanGoodStep(c, p, Joint(s, masters), after, Step(Tick, H.Scan(s.conveyor.fault, s.cnc.state)));
  }

  lemma {:induction false} ChainLength<T(!new)>(xs: seq<T>, n: nat, link: (T, T) -> bool)
    requires Chain(xs, n, link)
    ensures |xs| == n + 1
  {
  }

  /** And then only scans, as long as there is room. */
  lemma CruiseSegment(c: Contract, p: Points, x: Joint, n: nat, left: nat, running: bool)
      returns (st: seq<PlantState>, xs: seq<Joint>, es: seq<Step>)
    requires WiredBy(c)(p) && CruiseBy(p, running)(x.plant, n + left)
    ensures Chain(st, n, CruiseLink(p, running)) && |st| == n + 1 && st[0] == x.plant
    ensures xs == WithMasters(st, x.masters) && es == ScanSteps(st, n) && GoodPath(c, p, xs, es)
    ensures CruiseBy(p, running)(st[n], left)
  {
    CruiseGoesOn(p, running);
    st := CruiseChain(p, x.plant, n, left, running);
    ChainLength(st, n, CruiseLink(p, running));
    xs, es := WithMasters(st, x.masters), ScanSteps(st, n);
    CruisePath(c, p, st, n, running, x.masters, xs, es);
  }

  lemma CruisePath(c: Contract, p: Points, st: seq<PlantState>, n: nat, running: bool, masters: Memory,
                   xs: seq<Joint>, es: seq<Step>)
    requires WiredBy(c)(p) && Chain(st, n, CruiseLink(p, running)) && |st| == n + 1
    requires xs == WithMasters(st, masters) && es == ScanSteps(st, n)
    ensures GoodPath(c, p, xs, es)
  {
    forall t, u | 0 <= t < n && u == t + 1
      ensures StepLink(c, p)(xs[t], es[t], xs[u])
    {
      CruiseStepAt(c, p, st, n, running, masters, t, u);
    }
  }

  lemma JoinPaths(c: Contract, p: Points, xs: seq<Joint>, es: seq<Step>, ys: seq<Joint>, fs: seq<Step>)
      returns (zs: seq<Joint>, gs: seq<Step>)
    requires GoodPath(c, p, xs, es) && GoodPath(c, p, ys, fs) && xs[|es|] == ys[0]
    ensures GoodPath(c, p, zs, gs) && gs == es + fs && zs[..|xs|] == xs && zs[|es|..] == ys
    ensures zs[0] == xs[0] && zs[|gs|] == ys[|fs|] && |zs| == |gs| + 1
  {
    PathGoesOn(xs, es, ys, fs, StepLink(c, p));
    zs, gs := xs + ys[1..], es + fs;
  }

  // -------------------------------------------------------- the parameters

  lemma {:induction false} HalvesUndo(n: int)
    requires n >= 0
    ensures Pow2(-n) * Pow2(n) == 1.0
    decreases n
  {
    if n == 0 {
    } else {
      HalvesUndo(n - 1);
      assert Pow2(-n) == Pow2(-(n - 1)) / 2.0;
    }
  }

  /** 60 is 15728640 units of 2^-18. */
  lemma SixtyInUnits(nine: nat)
    requires nine == 9
    ensures 15728640.0 * Unit(131) == 60.0
  {
    assert Pow2(nine) == 512.0;
    Pow2Adds(nine, nine);
    HalvesUndo(2 * nine);
    assert Unit(131) == Pow2(-(2 * nine));
  }

  lemma SixtyPacks() returns (bits: int)
    ensures Pack(Finite(RAMP)) == Some(bits) && 0 <= bits < 0x1_0000_0000 && Unpack(bits) == Finite(RAMP)
  {
    SixtyInUnits(9);
    UnitsPack(131, 15728640, RAMP);
    UnitsUnpack(131, 15728640);
    bits := 131 * TWO_23 + 15728640;
    UnpackSigned(false, bits);
  }

  lemma RampWords(m: Mapping, meta: Meta) returns (words: seq<int>)
    requires m.typ.Float32? && m.scale == 1.0
    ensures |words| == Width(m.typ) && Registers(words) && Decode(m, words, meta) == Ok(Finite(RAMP))
  {
    var bits := SixtyPacks();
    FloatBijection(Finite(RAMP), [0, 0], meta);
    words := WordsOf(Finite(RAMP), m.typ, meta).value;
    assert RAMP * 1.0 == RAMP;
  }

  lemma TopWords(m: Mapping, meta: Meta)
    requires m.typ.UInt16? && m.scale == 0.001
    ensures Registers([65535]) && Decode(m, [65535], meta) == Ok(Finite(TOP))
  {
    OneWordDecodes(m, [65535], meta);
  }

  const NOTHING := Memory(None, H.Ready, None, None)

  /** One parameter written, as a piece of a run. */
  lemma ParameterPart(c: Contract, p: Points, x: Joint, k: int, words: seq<int>, v: Float, setpoint: Float, ramp: Float, e: Step)
      returns (y: Joint)
    requires Standard(p) && Safe(p, x.plant) && W.Plant(c, p, x.plant.tables) && Reads(p, x.plant, setpoint, ramp) && 0 <= k < 2
    requires !Part(p, k).typ.Bool? && |words| == Width(Part(p, k).typ) && Registers(words)
    requires Decode(Part(p, k), words, p.meta) == Ok(v) && IsFinite(v)
    requires e == Step(WriteRegs(16, Part(p, k).addr, words), H.Elsewhere)
    ensures GoodPath(c, p, [x, y], [e]) && y.masters == x.masters
    ensures y.plant == x.plant.(tables := y.plant.tables) && Safe(p, y.plant)
    ensures Reads(p, y.plant, if k == 0 then v else setpoint, if k == 1 then v else ramp)
    ensures W.Plant(c, p, y.plant.tables) && W.View(c, p, y.plant.tables) == W.View(c, p, x.plant.tables)
  {
    var after := ParameterIsWritten(p, DT, x.plant, k, words, v, setpoint, ramp);
    y := Joint(after, x.masters);
    ParameterStep(c, p, x, k, words, after, e.plant);
    ParameterKeepsView(c, p, x, k, words, after);
    OneGoodStep(c, p, x, e, y);
  }

  /** Both parameters, from whatever they were. */
  lemma SetUp(c: Contract, p: Points, x: Joint) returns (y: Joint, xs: seq<Joint>, es: seq<Step>)
    requires Standard(p) && Safe(p, x.plant) && CanScan(p, x.plant) && W.Plant(c, p, x.plant.tables)
    requires p.setpoint.scale == 0.001 && p.ramp.typ.Float32? && p.ramp.scale == 1.0
    ensures GoodPath(c, p, xs, es) && |es| == 2 && xs[0] == x && xs[2] == y && y.masters == x.masters
    ensures y.plant == x.plant.(tables := y.plant.tables) && Safe(p, y.plant) && Reads(p, y.plant, Finite(TOP), Finite(RAMP))
    ensures W.Plant(c, p, y.plant.tables) && W.View(c, p, y.plant.tables) == W.View(c, p, x.plant.tables)
  {
    assert Part(p, 0) == p.setpoint && Part(p, 1) == p.ramp;
    TopWords(p.setpoint, p.meta);
    var words := RampWords(p.ramp, p.meta);
    var holding := x.plant.tables["holding"];
    var e, f := Step(WriteRegs(16, p.setpoint.addr, [65535]), H.Elsewhere), Step(WriteRegs(16, p.ramp.addr, words), H.Elsewhere);
    var x1 := ParameterPart(c, p, x, 0, [65535], Finite(TOP), Parameter(p, holding, 0), Parameter(p, holding, 1), e);
    y := ParameterPart(c, p, x1, 1, words, Finite(RAMP), Finite(TOP), Parameter(p, holding, 1), f);
    TwoSteps(c, p, x, e, x1, f, y);
    xs, es := [x, x1, y], [e, f];
  }

  // ------------------------------------------------------------ the whole run

  lemma SettledScanKeepsView(c: Contract, p: Points, s: PlantState, after: PlantState)
    requires W.Plant(c, p, s.tables) && CompletedScan(p, DT, s, after) && H.Quiescent(W.View(c, p, s.tables))
    ensures W.Plant(c, p, after.tables) && W.View(c, p, after.tables) == W.View(c, p, s.tables)
  {
    W.ScanIsAnEvent(c, p, s, DT, after);
  }

  /** The blocks while nothing is commanded. */
  ghost predicate ShowsBlocks(c: Contract, p: Points, s: PlantState, b: H.Blocks) {
    W.Plant(c, p, s.tables) && W.View(c, p, s.tables) == b
  }

  /** The gateway, ready, on a plant at the top setpoint and the slowest ramp. */
  ghost predicate Poised(c: Contract, p: Points, x: Joint, n: nat, number: int) {
    Wired(c, p) && W.Plant(c, p, x.plant.tables) && Has(p, x.plant, n) && Reads(p, x.plant, Finite(TOP), Finite(RAMP))
    && x.masters.phase.Ready? && !H.Contends(SystemOf(c, p, x))
    && H.Quiescent(W.View(c, p, x.plant.tables)) && W.View(c, p, x.plant.tables).ackSeq == number
    && x.plant.conveyor.maxSpeed == SPEED_UP && !x.plant.conveyor.fault
  }

  ghost function PoisedBy(c: Contract, p: Points, number: int): (Joint, nat) -> bool {
    (x: Joint, n: nat) => Poised(c, p, x, n, number)
  }

  lemma Submitted(c: Contract, p: Points, x: Joint, n: nat, cmd: H.Command, y: Joint)
    requires Poised(c, p, x, n, cmd.number - 1) && (cmd.code == START || cmd.code == STOP)
    requires y.masters.phase == H.Polling(cmd) && y.plant == x.plant.(tables := y.plant.tables)
    requires Safe(p, y.plant) && CanScan(p, y.plant) && SameReadings(p, x.plant, y.plant)
    requires ShowsBlocks(c, p, y.plant, W.View(c, p, x.plant.tables).(cmd := cmd))
    ensures WaitsBy(c, p, cmd)(y, n)
  {
    StillHas(p, x.plant, y.plant, n);
    NowWaits(c, p, x, n, cmd, y);
  }

  lemma StillHas(p: Points, s: PlantState, after: PlantState, n: nat)
    requires Has(p, s, n) && after == s.(tables := after.tables) && Safe(p, after) && CanScan(p, after)
    ensures Has(p, after, n)
  {
  }

  lemma NowWaits(c: Contract, p: Points, x: Joint, n: nat, cmd: H.Command, y: Joint)
    requires Poised(c, p, x, n, cmd.number - 1)
    requires y.masters.phase == H.Polling(cmd) && y.plant == x.plant.(tables := y.plant.tables)
    requires CanScan(p, y.plant) && SameReadings(p, x.plant, y.plant)
    requires ShowsBlocks(c, p, y.plant, W.View(c, p, x.plant.tables).(cmd := cmd))
    ensures Waits(c, p, y, cmd)
  {
  }

  /** The gateway writes a command and waits for it. */
  lemma Submits(c: Contract, p: Points, x: Joint, n: nat, cmd: H.Command) returns (y: Joint, xs: seq<Joint>, es: seq<Step>)
    requires PoisedBy(c, p, cmd.number - 1)(x, n) && cmd == H.Command(cmd.code, 0, 0, cmd.number)
    requires (cmd.code == START || cmd.code == STOP) && 0 < cmd.number < 0xFFFF
    ensures GoodPath(c, p, xs, es) && |es| == 4 && |xs| == 5 && xs[0] == x && xs[4] == y
    ensures WaitsBy(c, p, cmd)(y, n) && y.plant.conveyor == x.plant.conveyor
    ensures y.masters == Memory(Some(cmd.number), H.Polling(cmd), Some(cmd), x.masters.rogue)
  {
    xs, es := InvokeSegment(c, p, x, cmd);
    y := xs[4];
    Submitted(c, p, x, n, cmd, y);
  }

  lemma RunsJoined(c: Contract, p: Points, x: Joint, z: Joint, ready: Joint, e: Step, ys: seq<Joint>, fs: seq<Step>)
      returns (xs: seq<Joint>, es: seq<Step>)
    requires GoodPath(c, p, [x, z, ready], [e, Step(Rests, H.PollOk)]) && GoodPath(c, p, ys, fs) && ys[0] == ready
    ensures GoodPath(c, p, xs, es) && |es| == |fs| + 2 && |xs| == |fs| + 3 && xs[0] == x && xs[1] == z && xs[2..] == ys
    ensures es[0] == e && es[1] == Step(Rests, H.PollOk) && es[2..] == fs
  {
    xs, es := JoinPaths(c, p, [x, z, ready], [e, Step(Rests, H.PollOk)], ys, fs);
    assert xs[..3] == [x, z, ready];
  }

  lemma HasSame(p: Points, s: PlantState, a: nat, b: nat)
    requires Has(p, s, a) && a == b
    ensures Has(p, s, b)
  {
  }

  /** It is executed, and then the plant scans on, k times more. */
  lemma RunsOn(c: Contract, p: Points, x: Joint, cmd: H.Command, k: nat, left: nat, e: Step)
      returns (z: Joint, st: seq<PlantState>, xs: seq<Joint>, es: seq<Step>)
    requires WiredBy(c)(p) && WaitsBy(c, p, cmd)(x, k + left + 1)
    requires e == Step(Tick, H.Scan(x.plant.conveyor.fault, x.plant.cnc.state))
    ensures GoodPath(c, p, xs, es) && |es| == k + 2 && |xs| == k + 3 && xs[0] == x && xs[1] == z
    ensures es[0] == e && es[1] == Step(Rests, H.PollOk)
    ensures z.masters == x.masters && CruiseLink(p, cmd.code == START)(x.plant, z.plant)
    ensures ShowsBy(c, p, H.Blocks(cmd, cmd.number, OK))(z.plant)
    ensures Chain(st, k, CruiseLink(p, cmd.code == START)) && |st| == k + 1 && st[0] == z.plant
    ensures xs[2..] == WithMasters(st, x.masters.(phase := H.Ready)) && es[2..] == ScanSteps(st, k)
    ensures CruiseBy(p, cmd.code == START)(st[k], left)
  {
    var ready;
    z, ready := ExecuteSegment(c, p, x, cmd, k + left, e);
    st, xs, es := ScansOn(c, p, x, z, ready, e, k, left, cmd.code == START);
  }

  lemma ScansOn(c: Contract, p: Points, x: Joint, z: Joint, ready: Joint, e: Step, k: nat, left: nat, running: bool)
      returns (st: seq<PlantState>, xs: seq<Joint>, es: seq<Step>)
    requires WiredBy(c)(p) && CruiseBy(p, running)(z.plant, k + left) && ready.plant == z.plant
    requires GoodPath(c, p, [x, z, ready], [e, Step(Rests, H.PollOk)])
    ensures GoodPath(c, p, xs, es) && |es| == k + 2 && |xs| == k + 3 && xs[0] == x && xs[1] == z
    ensures es[0] == e && es[1] == Step(Rests, H.PollOk)
    ensures Chain(st, k, CruiseLink(p, running)) && |st| == k + 1 && st[0] == z.plant
    ensures xs[2..] == WithMasters(st, ready.masters) && es[2..] == ScanSteps(st, k) && CruiseBy(p, running)(st[k], left)
  {
    var ys, fs;
    st, ys, fs := CruiseSegment(c, p, ready, k, left, running);
    xs, es := RunsJoined(c, p, x, z, ready, e, ys, fs);
  }

  lemma LinkKeepsView(c: Contract, p: Points, running: bool, s: PlantState, after: PlantState, b: H.Blocks)
    requires CruiseLink(p, running)(s, after) && ShowsBy(c, p, b)(s) && H.Quiescent(b)
    ensures ShowsBy(c, p, b)(after)
  {
    SettledScanKeepsView(c, p, s, after);
  }

  ghost predicate Keeps<T(!new)>(link: (T, T) -> bool, inv: T -> bool) {
    forall y, z {:trigger link(y, z)} :: link(y, z) && inv(y) ==> inv(z)
  }

  lemma {:induction false} ChainKeeps<T(!new)>(xs: seq<T>, n: nat, link: (T, T) -> bool, inv: T -> bool, t: nat)
    requires Chain(xs, n, link) && Keeps(link, inv) && inv(xs[0]) && t <= n && |xs| == n + 1
    ensures inv(xs[t])
    decreases t
  {
    if t == 0 {
    } else {
      ChainKeeps(xs, n, link, inv, t - 1);
      LinkAt(xs, n, link, t - 1, t);
    }
  }

  lemma LinksKeepView(c: Contract, p: Points, running: bool, b: H.Blocks)
    requires H.Quiescent(b)
    ensures Keeps(CruiseLink(p, running), ShowsBy(c, p, b))
  {
    forall y, z | CruiseLink(p, running)(y, z) && ShowsBy(c, p, b)(y)
      ensures ShowsBy(c, p, b)(z)
    {
      LinkKeepsView(c, p, running, y, z, b);
    }
  }

  // The two halves of being poised.

  ghost function DrivesBy(p: Points): (PlantState, nat) -> bool {
    (s: PlantState, n: nat) => Has(p, s, n) && Reads(p, s, Finite(TOP), Finite(RAMP))
                               && s.conveyor.maxSpeed == SPEED_UP && !s.conveyor.fault
  }

  ghost function ReadyBy(c: Contract, p: Points, number: int): Joint -> bool {
    (x: Joint) => Wired(c, p) && W.Plant(c, p, x.plant.tables) && x.masters.phase.Ready? && !H.Contends(SystemOf(c, p, x))
                  && H.Quiescent(W.View(c, p, x.plant.tables)) && W.View(c, p, x.plant.tables).ackSeq == number
  }

  lemma BothHalves(c: Contract, p: Points, x: Joint, n: nat, number: int)
    requires DrivesBy(p)(x.plant, n) && ReadyBy(c, p, number)(x)
    ensures PoisedBy(c, p, number)(x, n)
  {
  }

  lemma CruiseDrives(p: Points, s: PlantState, n: nat, running: bool)
    requires CruiseBy(p, running)(s, n)
    ensures DrivesBy(p)(s, n)
  {
  }

  lemma ReadyAgain(c: Contract, p: Points, x: Joint, cmd: H.Command)
    requires WiredBy(c)(p) && ShowsBy(c, p, H.Blocks(cmd, cmd.number, OK))(x.plant)
    requires x.masters == Memory(Some(cmd.number), H.Ready, Some(cmd), None)
    ensures ReadyBy(c, p, cmd.number)(x)
  {
    SystemIs(c, p, x);
  }

  /** After the command has run the gateway is ready for the next. */
  lemma PoisedAgain(c: Contract, p: Points, s: PlantState, left: nat, running: bool, cmd: H.Command, x: Joint)
    requires WiredBy(c)(p) && CruiseBy(p, running)(s, left) && ShowsBy(c, p, H.Blocks(cmd, cmd.number, OK))(s)
    requires x == Joint(s, Memory(Some(cmd.number), H.Ready, Some(cmd), None))
    ensures PoisedBy(c, p, cmd.number)(x, left)
  {
    CruiseDrives(p, s, left, running);
    ReadyAgain(c, p, x, cmd);
    BothHalves(c, p, x, left, cmd.number);
  }

  /** A command submitted, executed, and k more scans. */
  lemma Leg(c: Contract, p: Points, x: Joint, k: nat, left: nat, cmd: H.Command)
      returns (w: Joint, z: Joint, y: Joint, st: seq<PlantState>, xs: seq<Joint>, es: seq<Step>)
    requires WiredBy(c)(p) && PoisedBy(c, p, cmd.number - 1)(x, k + left + 1) && cmd == H.Command(cmd.code, 0, 0, cmd.number)
    requires (cmd.code == START || cmd.code == STOP) && 0 < cmd.number < 0xFFFF && x.masters.rogue == None
    ensures GoodPath(c, p, xs, es) && |es| == k + 6 && |xs| == k + 7 && xs[0] == x && xs[4] == w && xs[5] == z && xs[k + 6] == y
    ensures w.plant.conveyor == x.plant.conveyor && CruiseLink(p, cmd.code == START)(w.plant, z.plant)
    ensures WaitsBy(c, p, cmd)(w, k + left + 1)
    ensures Chain(st, k, CruiseLink(p, cmd.code == START)) && |st| == k + 1 && st[0] == z.plant && y.plant == st[k]
    ensures z.masters.phase == H.Polling(cmd) && ShowsBy(c, p, H.Blocks(cmd, cmd.number, OK))(z.plant)
    ensures es[4] == Step(Tick, H.Scan(w.plant.conveyor.fault, w.plant.cnc.state)) && es[5] == Step(Rests, H.PollOk)
    ensures xs[6..] == WithMasters(st, y.masters) && es[6..] == ScanSteps(st, k)
    ensures PoisedBy(c, p, cmd.number)(y, left) && y.masters == Memory(Some(cmd.number), H.Ready, Some(cmd), None)
  {
    var ys, fs;
    w, ys, fs := Submits(c, p, x, k + left + 1, cmd);
    var zs, gs;
    z, st, zs, gs := RunsOn(c, p, w, cmd, k, left, Step(Tick, H.Scan(w.plant.conveyor.fault, w.plant.cnc.state)));
    xs, es := JoinPaths(c, p, ys, fs, zs, gs);
    LinksKeepView(c, p, cmd.code == START, H.Blocks(cmd, cmd.number, OK));
    ChainKeeps(st, k, CruiseLink(p, cmd.code == START), ShowsBy(c, p, H.Blocks(cmd, cmd.number, OK)), k);
    y := Joint(st[k], Memory(Some(cmd.number), H.Ready, Some(cmd), None));
    PoisedAgain(c, p, st[k], left, cmd.code == START, cmd, y);
    LegSlices(xs, es, ys, fs, zs, gs);
    assert zs[2..][k] == y;
  }

  lemma LegSlices(xs: seq<Joint>, es: seq<Step>, ys: seq<Joint>, fs: seq<Step>, zs: seq<Joint>, gs: seq<Step>)
    requires |fs| == 4 && |ys| == 5 && |gs| >= 2 && |zs| == |gs| + 1 && es == fs + gs && |xs| == |es| + 1
    requires xs[..5] == ys && xs[4..] == zs
    ensures xs[0] == ys[0] && xs[4] == ys[4] && xs[5] == zs[1] && xs[6..] == zs[2..]
    ensures es[4] == gs[0] && es[5] == gs[1] && es[6..] == gs[2..]
  {
    assert xs[0] == xs[..5][0] && xs[4] == xs[..5][4] && xs[5] == xs[4..][1];
    assert xs[6..] == xs[4..][2..];
  }

  lemma LegSpeed(p: Points, s: PlantState, st: seq<PlantState>, k: nat, running: bool, t: nat)
    requires Chain(st, k, CruiseLink(p, running)) && |st| == k + 1 && CruiseLink(p, running)(s, st[0]) && t <= k
    ensures st[t].conveyor.speed == C.Ramp(s.conveyor.speed, TargetOf(running), Delta(), t + 1)
  {
    CruiseSpeed(p, st, k, running, t);
    FirstSpeed(p, s, st[0], running);
    RampComposes(s.conveyor.speed, TargetOf(running), Delta(), t);
  }

  lemma FirstSpeed(p: Points, s: PlantState, after: PlantState, running: bool)
    requires CruiseLink(p, running)(s, after)
    ensures after.conveyor.speed == C.NextSpeed(s.conveyor.speed, TargetOf(running), Delta())
  {
  }

  /** From a cold start both parameters are written, and the gateway is poised. */
  lemma PoisedFirst(c: Contract, p: Points, s: PlantState, n: nat)
      returns (y: Joint, xs: seq<Joint>, es: seq<Step>)
    requires ColdMachine(p, s) && ColdBlocks(c, p, s.tables) && n <= 10_000_000
    ensures GoodPath(c, p, xs, es) && |es| == 2 && |xs| == 3 && xs[0] == Joint(s, NOTHING) && xs[2] == y
    ensures WiredBy(c)(p) && PoisedBy(c, p, 0)(y, n) && y.plant.conveyor == s.conveyor && y.masters == NOTHING
  {
    y, xs, es := SetUp(c, p, Joint(s, NOTHING));
    ColdHas(p, s, y.plant, n);
    FirstDrives(p, s, y.plant, n);
    FirstReady(c, p, s, y);
    BothHalves(c, p, y, n, 0);
  }

  lemma ColdHas(p: Points, s: PlantState, after: PlantState, n: nat)
    requires ColdMachine(p, s) && n <= 10_000_000 && after == s.(tables := after.tables) && Safe(p, after) && CanScan(p, after)
    ensures Has(p, after, n)
  {
    RoomFor(n, REACH, Limit());
  }

  lemma FirstDrives(p: Points, s: PlantState, after: PlantState, n: nat)
    requires ColdMachine(p, s) && after == s.(tables := after.tables)
    requires Has(p, after, n) && Reads(p, after, Finite(TOP), Finite(RAMP))
    ensures DrivesBy(p)(after, n)
  {
  }

  lemma FirstReady(c: Contract, p: Points, s: PlantState, y: Joint)
    requires ColdBlocks(c, p, s.tables) && y.masters == NOTHING
    requires W.Plant(c, p, y.plant.tables) && W.View(c, p, y.plant.tables) == W.View(c, p, s.tables)
    ensures WiredBy(c)(p) && ReadyBy(c, p, 0)(y)
  {
    SystemIs(c, p, y);
  }

  const FIRST := H.Command(START, 0, 0, 1)
  const SECOND := H.Command(STOP, 0, 0, 2)

  /** The tail of such a run, its conditions apart: w is its state at a, and the
      last k events are scans over st. */
  ghost predicate Tail(xs: seq<Joint>, es: seq<Step>, a: nat, k: nat, w: PlantState, st: seq<PlantState>) {
    |es| == a + 2 + k && |xs| == |es| + 1 && |st| == k + 1 && xs[a].plant == w && xs[a + 1].plant == st[0]
    && es[a].plant == Tick && es[a + 1].plant == Rests
    && (forall j, i :: 0 <= i <= k && j == a + 2 + i ==> xs[j].plant == st[i])
    && forall j :: a + 2 <= j < |es| ==> es[j].plant == Tick
  }

  /** The run: set up, START and up to the top, STOP and down. The STOP is executed
      by event k + 12, from w to z, and the poll that follows returns. */
  ghost predicate UpAndDown(c: Contract, p: Points, s: PlantState, k: nat, left: nat, xs: seq<Joint>, es: seq<Step>,
                            w: Joint, z: Joint, st: seq<PlantState>)
  {
    GoodPath(c, p, xs, es) && xs[0] == Joint(s, NOTHING) && Tail(xs, es, k + 12, k, w.plant, st)
    && xs[k + 13] == z && es[k + 13] == Step(Rests, H.PollOk) && z.plant == st[0]
    && WaitsBy(c, p, SECOND)(w, k + left + 1) && CruiseLink(p, false)(w.plant, z.plant)
    && Chain(st, k, CruiseLink(p, false)) && z.masters.phase == H.Polling(SECOND)
    && ShowsBy(c, p, H.Blocks(SECOND, 2, OK))(z.plant)
  }

  lemma FirstLeg(c: Contract, p: Points, x: Joint, k: nat, left: nat) returns (y: Joint, xs: seq<Joint>, es: seq<Step>)
    requires WiredBy(c)(p) && PoisedBy(c, p, 0)(x, k + left + 1) && x.masters.rogue == None
    ensures GoodPath(c, p, xs, es) && |es| == k + 6 && |xs| == k + 7 && xs[0] == x && xs[k + 6] == y
    ensures PoisedBy(c, p, 1)(y, left) && y.masters.rogue == None
    ensures y.plant.conveyor.speed == C.Ramp(x.plant.conveyor.speed, TOP, Delta(), k + 1)
  {
    var w, z, y1, st, xs1, es1 := Leg(c, p, x, k, left, FIRST);
    LegSpeed(p, w.plant, st, k, true, k);
    y, xs, es := y1, xs1, es1;
  }

  /** The first leg after what has led there. */
  lemma GoesUp(c: Contract, p: Points, xs: seq<Joint>, es: seq<Step>, x: Joint, k: nat, left: nat)
      returns (y: Joint, ys: seq<Joint>, fs: seq<Step>)
    requires WiredBy(c)(p) && PoisedBy(c, p, 0)(x, k + left + 1) && x.masters.rogue == None
    requires GoodPath(c, p, xs, es) && |es| == 2 && |xs| == 3 && xs[2] == x
    ensures GoodPath(c, p, ys, fs) && |fs| == k + 8 && |ys| == k + 9 && ys[0] == xs[0] && ys[k + 8] == y
    ensures PoisedBy(c, p, 1)(y, left) && y.masters.rogue == None
    ensures y.plant.conveyor.speed == C.Ramp(x.plant.conveyor.speed, TOP, Delta(), k + 1)
  {
    var y1, xs1, es1 := FirstLeg(c, p, x, k, left);
    ys, fs := JoinPaths(c, p, xs, es, xs1, es1);
    y := y1;
  }

  /** And the second. */
  lemma GoesDown(c: Contract, p: Points, xs: seq<Joint>, es: seq<Step>, x: Joint, k: nat, left: nat)
      returns (ys: seq<Joint>, fs: seq<Step>, w: Joint, z: Joint, st: seq<PlantState>)
    requires WiredBy(c)(p) && PoisedBy(c, p, 1)(x, k + left + 1) && x.masters.rogue == None
    requires GoodPath(c, p, xs, es) && |es| == k + 8 && |xs| == k + 9 && xs[k + 8] == x && xs[0].masters == NOTHING
    ensures UpAndDown(c, p, xs[0].plant, k, left, ys, fs, w, z, st) && w.plant.conveyor == x.plant.conveyor
  {
    var w2, z2, y2, st2, zs, gs := Leg(c, p, x, k, left, SECOND);
    ys, fs := JoinPaths(c, p, xs, es, zs, gs);
    w, z, st := w2, z2, st2;
    JoinedIndices(k, ys, fs, xs, es, zs, gs, st2, y2.masters);
  }

  lemma SameRoom(c: Contract, p: Points, x: Joint, number: int, n: nat, k: nat, left: nat)
    requires PoisedBy(c, p, number)(x, n) && n == k + left + 1
    ensures PoisedBy(c, p, number)(x, k + left + 1)
  {
  }

  lemma UpFirst(c: Contract, p: Points, s: PlantState, k: nat, left: nat, n: nat)
      returns (y: Joint, ys: seq<Joint>, fs: seq<Step>)
    requires ColdMachine(p, s) && ColdBlocks(c, p, s.tables) && n == k + left + 1 && n <= 10_000_000
    ensures GoodPath(c, p, ys, fs) && |fs| == k + 8 && |ys| == k + 9 && ys[0] == Joint(s, NOTHING) && ys[k + 8] == y
    ensures WiredBy(c)(p) && PoisedBy(c, p, 1)(y, left) && y.masters.rogue == None
    ensures y.plant.conveyor.speed == C.Ramp(s.conveyor.speed, TOP, Delta(), k + 1)
  {
    var x, xs0, es0 := PoisedFirst(c, p, s, n);
    SameRoom(c, p, x, 0, n, k, left);
    y, ys, fs := GoesUp(c, p, xs0, es0, x, k, left);
  }

  lemma UpThenDown(c: Contract, p: Points, s: PlantState, k: nat, left: nat, room: nat, n: nat)
      returns (xs: seq<Joint>, es: seq<Step>, w: Joint, z: Joint, st: seq<PlantState>)
    requires ColdMachine(p, s) && ColdBlocks(c, p, s.tables) && n == k + room + 1 && room == k + left + 1 && n <= 10_000_000
    ensures UpAndDown(c, p, s, k, left, xs, es, w, z, st)
    ensures w.plant.conveyor.speed == C.Ramp(s.conveyor.speed, TOP, Delta(), k + 1)
  {
    var y, ys, fs := UpFirst(c, p, s, k, room, n);
    SameRoom(c, p, y, 1, room, k, left);
    xs, es, w, z, st := GoesDown(c, p, ys, fs, y, k, left);
  }

  lemma JoinedIndices(k: nat, xs: seq<Joint>, es: seq<Step>, xa: seq<Joint>, ea: seq<Step>, ys: seq<Joint>, fs: seq<Step>,
                      st: seq<PlantState>, masters: Memory)
    requires |ea| == k + 8 && |fs| == k + 6 && |ys| == k + 7 && |xs| == |es| + 1 && |st| == k + 1
    requires es == ea + fs && xs[|ea|..] == ys && ys[6..] == WithMasters(st, masters) && fs[6..] == ScanSteps(st, k)
    requires fs[4].plant == Tick && fs[5].plant == Rests && ys[5].plant == st[0]
    ensures Tail(xs, es, k + 12, k, ys[4].plant, st)
    ensures xs[k + 13] == ys[5] && es[k + 13] == fs[5]
  {
    assert xs[k + 12] == xs[|ea|..][4] && xs[k + 13] == xs[|ea|..][5];
    forall j, i | 0 <= i <= k && j == k + 14 + i
      ensures xs[j].plant == st[i]
    {
      assert xs[j] == xs[|ea|..][6 + i] && ys[6 + i] == ys[6..][i];
    }
    forall j | k + 14 <= j < |es|
      ensures es[j].plant == Tick
    {
      assert es[j] == fs[j - (k + 8)] && fs[j - (k + 8)] == fs[6..][j - (k + 14)];
    }
  }

  // ----------------------------------------------------- what the run shows

  lemma GoodIsJoint(c: Contract, p: Points, xs: seq<Joint>, es: seq<Step>)
    requires GoodPath(c, p, xs, es)
    ensures IsJointRun(c, p, DT, xs, es)
    ensures forall t :: 0 <= t < |es| ==> D.SoleMaster(es[t].master) && !Refused(c, p, xs[t], es[t])
  {
    forall t, u | 0 <= t < |es| && u == t + 1
      ensures JointStep(c, p, DT, xs[t], es[t], xs[u]) && D.SoleMaster(es[t].master) && !Refused(c, p, xs[t], es[t])
    {
      assert StepLink(c, p)(xs[t], es[t], xs[u]);
    }
    forall t | 0 <= t < |es|
      ensures D.SoleMaster(es[t].master) && !Refused(c, p, xs[t], es[t])
    {
      var u := t + 1;
      assert StepLink(c, p)(xs[t], es[t], xs[u]);
    }
  }

  lemma ColdIsFresh(c: Contract, p: Points, s: PlantState, x: Joint)
    requires ColdMachine(p, s) && ColdBlocks(c, p, s.tables) && x == Joint(s, NOTHING)
    ensures Standard(p) && Safe(p, x.plant) && W.Plant(c, p, x.plant.tables) && D.Fresh(SystemOf(c, p, x))
  {
    SystemIs(c, p, x);
  }

  lemma ReturnsStop(c: Contract, p: Points, z: Joint)
    requires z.masters.phase == H.Polling(SECOND) && ShowsBy(c, p, H.Blocks(SECOND, 2, OK))(z.plant)
    ensures Returned(c, p, z, Step(Rests, H.PollOk)) && SystemOf(c, p, z).phase == H.Polling(SECOND)
  {
    SystemIs(c, p, z);
    PollEvent(SystemOf(c, p, z), SECOND);
  }

  // What its events do.

  const EXECUTED := Deed(true, true, false, false, false)
  const NO_DEED := Deed(false, false, false, false, false)
  const ONE_SCAN := Deed(true, false, false, false, false)

  lemma StopDeed(c: Contract, p: Points, w: Joint, z: PlantState, room: nat)
    requires WaitsBy(c, p, SECOND)(w, room) && CruiseLink(p, false)(w.plant, z)
    ensures DeedOf(p, DT, w.plant, Tick) == EXECUTED
  {
    WaitsInSnapshot(c, p, w.plant);
  }

  ghost function SettledBy(p: Points): PlantState -> bool {
    (s: PlantState) => Settled(p, s)
  }

  lemma LinksSettle(p: Points)
    ensures Keeps(CruiseLink(p, false), SettledBy(p))
  {
  }

  lemma LinkSettles(p: Points, s: PlantState, after: PlantState)
    requires CruiseLink(p, false)(s, after)
    ensures SettledBy(p)(after)
  {
  }

  lemma LinkDeed(p: Points, s: PlantState, after: PlantState)
    requires SettledBy(p)(s) && CruiseLink(p, false)(s, after)
    ensures DeedOf(p, DT, s, Tick) == ONE_SCAN
  {
    SettledDeed(p, DT, s);
  }

  lemma CruiseDeedAt(p: Points, st: seq<PlantState>, k: nat, t: nat, u: nat)
    requires Chain(st, k, CruiseLink(p, false)) && |st| == k + 1 && t < k && u == t + 1 && SettledBy(p)(st[0])
    ensures DeedOf(p, DT, st[t], Tick) == ONE_SCAN
  {
    LinksSettle(p);
    ChainKeeps(st, k, CruiseLink(p, false), SettledBy(p), t);
    LinkAt(st, k, CruiseLink(p, false), t, u);
    LinkDeed(p, st[t], st[u]);
  }

  lemma CruiseDeeds(p: Points, w: PlantState, st: seq<PlantState>, k: nat)
    requires Chain(st, k, CruiseLink(p, false)) && |st| == k + 1 && CruiseLink(p, false)(w, st[0])
    ensures forall t :: 0 <= t < k ==> DeedOf(p, DT, st[t], Tick) == ONE_SCAN
  {
    LinkSettles(p, w, st[0]);
    forall t | 0 <= t < k
      ensures DeedOf(p, DT, st[t], Tick) == ONE_SCAN
    {
      CruiseDeedAt(p, st, k, t, t + 1);
    }
  }

  /** The STOP is executed by event a, and after the poll there are only scans. */
  ghost predicate StopThenScans(deeds: seq<Deed>, a: nat) {
    a + 1 < |deeds| && deeds[a] == EXECUTED && deeds[a + 1] == NO_DEED
    && forall t :: a + 2 <= t < |deeds| ==> deeds[t] == ONE_SCAN
  }

  lemma {:induction false} ScansSinceTheStop(deeds: seq<Deed>, a: nat, t: nat)
    requires StopThenScans(deeds, a) && a < t <= |deeds|
    ensures StaysStopped(deeds, a, t) && ScanCount(deeds, a, t) == if t == a + 1 then 1 else t - a - 1
    decreases t
  {
    if t == a + 1 {
      assert ScanCount(deeds, a, a) == 0;
    } else {
      ScansSinceTheStop(deeds, a, t - 1);
    }
  }

  lemma NoDeed(p: Points, s: PlantState)
    ensures DeedOf(p, DT, s, Rests) == NO_DEED
  {
  }

  ghost predicate DeedsBy(p: Points, xs: seq<Joint>, es: seq<Step>, deeds: seq<Deed>) {
    |deeds| == |es| && |xs| == |es| + 1 && forall t :: 0 <= t < |es| ==> deeds[t] == DeedOf(p, DT, xs[t].plant, es[t].plant)
  }

  lemma DeedsOfJoint(p: Points, xs: seq<Joint>, es: seq<Step>, deeds: seq<Deed>)
    requires |xs| == |es| + 1 && IsPlantRun(p, DT, Plants(xs), PlantEvents(es))
    requires deeds == Deeds(p, DT, Plants(xs), PlantEvents(es))
    ensures DeedsBy(p, xs, es, deeds)
  {
    forall t | 0 <= t < |es|
      ensures deeds[t] == DeedOf(p, DT, xs[t].plant, es[t].plant)
    {
      DeedAt(p, DT, Plants(xs), PlantEvents(es), deeds, t);
    }
  }

  lemma TailDeeds(p: Points, xs: seq<Joint>, es: seq<Step>, a: nat, k: nat, w: PlantState, st: seq<PlantState>, deeds: seq<Deed>)
    requires Tail(xs, es, a, k, w, st) && DeedsBy(p, xs, es, deeds) && DeedOf(p, DT, w, Tick) == EXECUTED
    requires forall t :: 0 <= t < k ==> DeedOf(p, DT, st[t], Tick) == ONE_SCAN
    ensures StopThenScans(deeds, a) && |deeds| == a + 2 + k
  {
    NoDeed(p, xs[a + 1].plant);
    forall t | a + 2 <= t < |deeds|
      ensures deeds[t] == ONE_SCAN
    {
      var i := t - (a + 2);
      assert xs[t].plant == st[i];
    }
  }

  // How fast it is when.

  ghost predicate FallsFrom(m: seq<Motor>, a: nat, k: nat) {
    |m| == a + 3 + k && m[a].speed == TOP && m[a + 1].speed == C.Ramp(TOP, 0.0, Delta(), 1)
    && forall t, n :: 0 < n <= k + 1 && t == a + 1 + n ==> m[t].speed == C.Ramp(TOP, 0.0, Delta(), n)
  }

  lemma TailFalls(p: Points, xs: seq<Joint>, es: seq<Step>, a: nat, k: nat, w: PlantState, st: seq<PlantState>, m: seq<Motor>)
    requires Tail(xs, es, a, k, w, st) && m == Motors(Plants(xs)) && w.conveyor.speed == TOP
    requires Chain(st, k, CruiseLink(p, false)) && CruiseLink(p, false)(w, st[0])
    ensures FallsFrom(m, a, k)
  {
    LegSpeed(p, w, st, k, false, 0);
    forall t, n | 0 < n <= k + 1 && t == a + 1 + n
      ensures m[t].speed == C.Ramp(TOP, 0.0, Delta(), n)
    {
      var i := n - 1;
      LegSpeed(p, w, st, k, false, i);
      assert xs[t].plant == st[i];
    }
  }

  lemma CountIs(top: real, maxSpeed: real)
    requires top == TOP && maxSpeed == SPEED_UP
    ensures maxSpeed * DT > 0.0 && Ceil(top * 60.0 / (maxSpeed * DT)) == SCANS
  {
    assert maxSpeed * DT == 0.02 && top * 60.0 / 0.02 == 196605.0;
  }

  /** Event a executes the STOP at the top speed, and the conveyor stands still
      exactly from the SCANS-th completed scan on: the last of the run. */
  ghost predicate NeedsEveryScan(m: seq<Motor>, deeds: seq<Deed>, a: nat) {
    |m| == |deeds| + 1 && a < |deeds| && deeds[a].stops && m[a].speed == TOP && ScanCount(deeds, a, |deeds|) == SCANS
    && forall t: nat :: a < t <= |deeds| ==>
         StaysStopped(deeds, a, t) && (m[t].speed == 0.0 <==> ScanCount(deeds, a, t) >= SCANS)
  }

  lemma EveryScanIsNeeded(m: seq<Motor>, deeds: seq<Deed>, a: nat, k: nat)
    requires FallsFrom(m, a, k) && StopThenScans(deeds, a) && |deeds| == a + 2 + k && k + 1 == SCANS
    ensures NeedsEveryScan(m, deeds, a)
  {
    forall t: nat | a < t <= |deeds|
      ensures StaysStopped(deeds, a, t) && (m[t].speed == 0.0 <==> ScanCount(deeds, a, t) >= SCANS)
    {
      var n: nat := if t == a + 1 then 1 else t - a - 1;
      assert m[t].speed == C.Ramp(TOP, 0.0, Delta(), n);
      ScansSinceTheStop(deeds, a, t);
      DownToRest(n);
    }
    ScansSinceTheStop(deeds, a, |deeds|);
  }

  // ------------------------------------------------------------- the result

  lemma UpAndDownNeedsEveryScan(c: Contract, p: Points, s: PlantState, k: nat, left: nat, xs: seq<Joint>, es: seq<Step>,
                                w: Joint, z: Joint, st: seq<PlantState>, m: seq<Motor>, deeds: seq<Deed>)
    requires UpAndDown(c, p, s, k, left, xs, es, w, z, st) && w.plant.conveyor.speed == TOP && k + 1 == SCANS
    requires m == Motors(Plants(xs)) && DeedsBy(p, xs, es, deeds)
    ensures NeedsEveryScan(m, deeds, k + 12)
  {
    StopDeed(c, p, w, z.plant, k + left + 1);
    CruiseDeeds(p, w.plant, st, k);
    TailDeeds(p, xs, es, k + 12, k, w.plant, st, deeds);
    TailFalls(p, xs, es, k + 12, k, w.plant, st, m);
    EveryScanIsNeeded(m, deeds, k + 12, k);
  }

  /** A cold plant's gateway, alone, none of whose commands is refused. */
  lemma IsLone(c: Contract, p: Points, s: PlantState, xs: seq<Joint>, es: seq<Step>)
    requires ColdMachine(p, s) && ColdBlocks(c, p, s.tables) && GoodPath(c, p, xs, es) && xs[0] == Joint(s, NOTHING)
    ensures LoneGateway(c, p, DT, xs, es) && IsPlantRun(p, DT, Plants(xs), PlantEvents(es))
    ensures forall t :: 0 <= t < |es| ==> !Refused(c, p, xs[t], es[t])
  {
    GoodIsJoint(c, p, xs, es);
    ColdIsFresh(c, p, s, xs[0]);
    IsAPlantRun(c, p, DT, xs, es);
  }

  /** The shipped plant from its cold start: there is a run of one gateway that sets
      the fastest setpoint and the slowest ramp, starts the conveyor, lets it come up
      to speed and stops it, on which the STOP returns and the conveyor then moves
      until the last of the scans that the bounded stop allows, and no longer. */
  lemma AFastStopNeedsEveryScan(c: Contract, p: Points, s: PlantState, k: nat)
      returns (xs: seq<Joint>, es: seq<Step>, m: seq<Motor>, deeds: seq<Deed>)
    requires ColdMachine(p, s) && ColdBlocks(c, p, s.tables) && k + 1 == SCANS
    ensures LoneGateway(c, p, DT, xs, es) && xs[0].plant == s && k + 13 < |es|
    ensures forall t :: 0 <= t < |es| ==> !Refused(c, p, xs[t], es[t])
    ensures Returned(c, p, xs[k + 13], es[k + 13]) && SystemOf(c, p, xs[k + 13]).phase.cmd.code == STOP
    ensures IsPlantRun(p, DT, Plants(xs), PlantEvents(es))
    ensures m == Motors(Plants(xs)) && deeds == Deeds(p, DT, Plants(xs), PlantEvents(es))
    ensures NeedsEveryScan(m, deeds, k + 12)
  {
    var w, z, st;
    xs, es, w, z, st := UpThenDown(c, p, s, k, 0, k + 0 + 1, k + (k + 0 + 1) + 1);
    UpToTop(k + 1);
    IsLone(c, p, s, xs, es);
    ReturnsStop(c, p, z);
    m, deeds := Motors(Plants(xs)), Deeds(p, DT, Plants(xs), PlantEvents(es));
    DeedsOfJoint(p, xs, es, deeds);
    UpAndDownNeedsEveryScan(c, p, s, k, 0, xs, es, w, z, st, m, deeds);
  }

  lemma ColdTop(p: Points, s: PlantState)
    requires ColdMachine(p, s)
    ensures TopSpeed(p) == TOP && s.conveyor.maxSpeed == SPEED_UP
  {
  }

  /** The acknowledged STOP of that run is one of AcknowledgedStopStops, with the
      count that the run uses up. */
  lemma TheFastStopIsAcknowledged(c: Contract, p: Points, s: PlantState, k: nat)
      returns (xs: seq<Joint>, es: seq<Step>, e: nat, m: seq<Motor>, deeds: seq<Deed>)
    requires ColdMachine(p, s) && ColdBlocks(c, p, s.tables) && k + 1 == SCANS
    ensures LoneGateway(c, p, DT, xs, es) && xs[0].plant == s && k + 13 < |es| && e < k + 13
    ensures AllPlants(c, p, xs) && W.View(c, p, xs[k + 13].plant.tables).ackResult == OK
    ensures SPEED_UP * DT != 0.0 && Ceil(TOP * 60.0 / (SPEED_UP * DT)) == SCANS
    ensures |m| == |deeds| + 1 && StoppedFrom(m, deeds, e, TOP, SPEED_UP, DT) && NeedsEveryScan(m, deeds, k + 12)
  {
    xs, es, m, deeds := AFastStopNeedsEveryScan(c, p, s, k);
    ColdTop(p, s);
    CountIs(TOP, SPEED_UP);
    var w, e', m', deeds' := AcknowledgedStopStops(c, p, DT, xs, es, k + 13, TOP, SPEED_UP);
    e := e';
  }
}
