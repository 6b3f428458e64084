/** The plant and its masters together: every run of the registers, the machines
    and the gateway is at once a run of the plant and a run of the handshake, so
    the theorems about either hold of both. */
module JointRuns {
  import opened Wrappers
  import opened Numbers
  import opened Commands
  import opened Model
  import opened ImageTable
  import opened Points
  import opened Scan
  import opened PlantRuns
  import H = Handshake
  import D = Soundness
  import W = WireLink

  /** What the masters remember, the registers apart. */
  datatype Memory = Memory(issued: Option<int>, phase: H.Phase, sent: Option<H.Command>, rogue: Option<int>)

  datatype Joint = Joint(plant: PlantState, masters: Memory)

  /** One atomic step: what it is to the plant and what it is to the handshake. */
  datatype Step = Step(plant: PlantEvent, master: H.Event)

  ghost function SystemOf(c: Contract, p: Points, x: Joint): H.System
    requires W.Plant(c, p, x.plant.tables)
  {
    H.System(W.View(c, p, x.plant.tables), x.masters.issued, x.masters.phase, x.masters.sent, x.masters.rogue)
  }

  function MemoryOf(s: H.System): Memory {
    Memory(s.issued, s.phase, s.sent, s.rogue)
  }

  predicate OffAck(p: Points, e: PlantEvent) {
    e.WriteRegs? && (TableName(e.fc) == Some(BLOCK_TABLE) ==>
                       forall a :: p.ack.Has(a) ==> !(e.address <= a < e.address + |e.values|))
  }

  predicate OffCommand(p: Points, e: PlantEvent) {
    e.WriteRegs? && forall a :: p.cmd.Has(a) ==> !(e.address <= a < e.address + |e.values|)
  }

  predicate Lands(x: Joint, e: PlantEvent) {
    e.WriteRegs? && WriteCode(e.fc) && Write(x.plant.tables, e.fc, e.address, e.values).Ok?
  }

  /** The command that this event writes as a block, if it does. */
  function Written(m: Memory, e: H.Event): Option<H.Command> {
    match e
    case WriteLands => if m.phase.Writing? then Some(m.phase.cmd) else None
    case Retransmit => m.sent
    case RogueWrites(code) =>
      if m.rogue.Some? then Some(H.Command(code, 0, 0, (m.rogue.value + 1) % 0x1_0000)) else None
    case _ => None
  }

  /** A master reads, or does something that is no transaction at all. */
  predicate OnlyReads(e: H.Event) {
    e.Invoke? || e.ReadOk? || e.ReadFails? || e.WriteFails? || e.WriteReplies? || e.PollOk? || e.PollFails? || e.Deadline?
    || e.RogueReads?
  }

  /** A write by anyone, as a handshake event: it sets the blocks to what they are
      afterwards; Foreign if it stays off the ack block. */
  ghost predicate AnyWrite(c: Contract, p: Points, x: Joint, e: Step, y: Joint) {
    Lands(x, e.plant) && W.Plant(c, p, y.plant.tables)
    && (e.master.Foreign? ==> OffAck(p, e.plant) && e.master.cmd == W.View(c, p, y.plant.tables).cmd)
    && (e.master.Forge? ==>
          H.Blocks(e.master.cmd, e.master.ackSeq, e.master.ackResult) == W.View(c, p, y.plant.tables))
  }

  /** Neither block is touched: a refused write, one elsewhere, a machine fault, a
      scan that raises. */
  ghost predicate NeitherBlock(p: Points, dt: real, x: Joint, e: PlantEvent) {
    if e.WriteRegs? then !Lands(x, e) || (OffAck(p, e) && OffCommand(p, e)) else !Scans(p, dt, x.plant, e)
  }

  /** The two halves of a step are the same step. */
  ghost predicate Agrees(c: Contract, p: Points, dt: real, x: Joint, e: Step, y: Joint)
    requires W.FieldLayout(c.commandBlock.layout)
  {
    if OnlyReads(e.master) then e.plant == Rests
    else if e.master.Scan? then
      Scans(p, dt, x.plant, e.plant) && e.master.fault == x.plant.conveyor.fault && e.master.cnc == x.plant.cnc.state
    else if e.master.Elsewhere? then NeitherBlock(p, dt, x, e.plant)
    else if e.master.Foreign? || e.master.Forge? then AnyWrite(c, p, x, e, y)
    else Written(x.masters, e.master).Some? && e.plant == BlockWrite(c, Written(x.masters, e.master).value)
  }

  ghost predicate JointStep(c: Contract, p: Points, dt: real, x: Joint, e: Step, y: Joint) {
    PlantStep(p, dt, x.plant, e.plant, y.plant)
    && W.Plant(c, p, x.plant.tables) && H.Enabled(SystemOf(c, p, x), e.master)
    && y.masters == MemoryOf(H.Next(SystemOf(c, p, x), e.master))
    && Agrees(c, p, dt, x, e, y)
  }

  ghost predicate IsJointRun(c: Contract, p: Points, dt: real, xs: seq<Joint>, es: seq<Step>) {
    |xs| == |es| + 1 && forall t, u :: 0 <= t < |es| && u == t + 1 ==> JointStep(c, p, dt, xs[t], es[t], xs[u])
  }

  // ------------------------------------------------------- one step refines

  /** The blocks of the plant after the step are the blocks of the handshake's. */
  ghost predicate Refined(c: Contract, p: Points, x: Joint, e: H.Event, y: Joint)
    requires W.Plant(c, p, x.plant.tables) && H.Enabled(SystemOf(c, p, x), e)
  {
    W.Plant(c, p, y.plant.tables) && W.View(c, p, y.plant.tables) == H.Next(SystemOf(c, p, x), e).blocks
  }

  lemma BlockWriteRefines(c: Contract, p: Points, dt: real, x: Joint, cmd: H.Command, y: Joint)
    requires W.Plant(c, p, x.plant.tables) && PlantStep(p, dt, x.plant, BlockWrite(c, cmd), y.plant)
    ensures W.Plant(c, p, y.plant.tables)
    ensures W.View(c, p, y.plant.tables) == W.View(c, p, x.plant.tables).(cmd := cmd)
  {
    W.BlockWriteIsAccepted(c, p, x.plant.tables, cmd);
    W.BlockWriteIsAnEvent(c, p, x.plant.tables, cmd, y.plant.tables);
  }

  /** A write that the data store accepts, as the blocks see it. */
  lemma LandedWrite(c: Contract, p: Points, tables: Tables, e: PlantEvent, after: Tables)
    requires W.Plant(c, p, tables) && e.WriteRegs? && WriteCode(e.fc) && Write(tables, e.fc, e.address, e.values) == Ok(after)
    ensures W.Plant(c, p, after)
    ensures OffAck(p, e) ==> W.View(c, p, after) == W.View(c, p, tables).(cmd := W.View(c, p, after).cmd)
    ensures OffAck(p, e) && OffCommand(p, e) ==> W.View(c, p, after) == W.View(c, p, tables)
  {
    W.WriteKeepsLaid(p, tables, e.fc, e.address, e.values, after);
    if OffAck(p, e) {
      W.OtherWritesAreEvents(c, p, tables, e.fc, e.address, e.values, after);
    }
  }

  lemma WriteRefines(c: Contract, p: Points, dt: real, x: Joint, e: PlantEvent, y: Joint)
    requires W.Plant(c, p, x.plant.tables) && e.WriteRegs? && PlantStep(p, dt, x.plant, e, y.plant)
    ensures W.Plant(c, p, y.plant.tables)
    ensures !Lands(x, e) ==> y.plant == x.plant
    ensures OffAck(p, e) ==>
              W.View(c, p, y.plant.tables) == W.View(c, p, x.plant.tables).(cmd := W.View(c, p, y.plant.tables).cmd)
    ensures OffAck(p, e) && OffCommand(p, e) ==> W.View(c, p, y.plant.tables) == W.View(c, p, x.plant.tables)
  {
    if Lands(x, e) {
      LandedWrite(c, p, x.plant.tables, e, y.plant.tables);
    }
  }

  lemma ScanRefines(c: Contract, p: Points, dt: real, x: Joint, e: PlantEvent, y: Joint)
    requires W.Plant(c, p, x.plant.tables) && PlantStep(p, dt, x.plant, e, y.plant) && Scans(p, dt, x.plant, e)
    ensures W.Plant(c, p, y.plant.tables)
    ensures W.View(c, p, y.plant.tables)
            == H.ScanBlocks(W.View(c, p, x.plant.tables), x.plant.conveyor.fault, x.plant.cnc.state)
  {
    W.ScanIsAnEvent(c, p, x.plant, dt, y.plant);
  }

  lemma NoScanRests(p: Points, dt: real, s: PlantState, e: PlantEvent, after: PlantState)
    requires Standard(p) && dt > 0.0 && Safe(p, s) && PlantStep(p, dt, s, e, after)
    requires !e.WriteRegs? && !Scans(p, dt, s, e)
    ensures after.tables == s.tables
  {
    StepIsSafe(p, dt, s, e, after);
  }

  lemma NextWrites(s: H.System, e: H.Event, cmd: H.Command)
    requires H.Enabled(s, e) && Written(MemoryOf(s), e) == Some(cmd)
    ensures H.Next(s, e).blocks == s.blocks.(cmd := cmd)
  {
  }

  lemma NextScans(s: H.System, e: H.Event)
    requires e.Scan?
    ensures H.Next(s, e).blocks == H.ScanBlocks(s.blocks, e.fault, e.cnc)
  {
  }

  lemma NextSets(s: H.System, e: H.Event)
    requires e.Foreign? || e.Forge? || e.Elsewhere?
    ensures e.Foreign? ==> H.Next(s, e).blocks == s.blocks.(cmd := e.cmd)
    ensures e.Forge? ==> H.Next(s, e).blocks == H.Blocks(e.cmd, e.ackSeq, e.ackResult)
    ensures e.Elsewhere? ==> H.Next(s, e).blocks == s.blocks
  {
  }

  lemma BlockStepRefines(c: Contract, p: Points, dt: real, x: Joint, e: Step, y: Joint, cmd: H.Command)
    requires W.Plant(c, p, x.plant.tables) && H.Enabled(SystemOf(c, p, x), e.master)
    requires Written(x.masters, e.master) == Some(cmd) && PlantStep(p, dt, x.plant, BlockWrite(c, cmd), y.plant)
    ensures Refined(c, p, x, e.master, y)
  {
    BlockWriteRefines(c, p, dt, x, cmd, y);
    NextWrites(SystemOf(c, p, x), e.master, cmd);
  }

  lemma AnyWriteRefines(c: Contract, p: Points, dt: real, x: Joint, e: Step, y: Joint)
    requires W.Plant(c, p, x.plant.tables) && H.Enabled(SystemOf(c, p, x), e.master)
    requires PlantStep(p, dt, x.plant, e.plant, y.plant) && AnyWrite(c, p, x, e, y) && (e.master.Foreign? || e.master.Forge?)
    ensures Refined(c, p, x, e.master, y)
  {
    WriteRefines(c, p, dt, x, e.plant, y);
    NextSets(SystemOf(c, p, x), e.master);
  }

  lemma ElsewhereRefines(c: Contract, p: Points, dt: real, x: Joint, e: Step, y: Joint)
    requires Standard(p) && dt > 0.0 && Safe(p, x.plant) && W.Plant(c, p, x.plant.tables)
    requires PlantStep(p, dt, x.plant, e.plant, y.plant) && NeitherBlock(p, dt, x, e.plant) && e.master.Elsewhere?
    ensures Refined(c, p, x, e.master, y)
  {
    NextSets(SystemOf(c, p, x), e.master);
    NeitherBlockKeeps(c, p, dt, x, e.plant, y);
  }

  lemma NeitherBlockKeeps(c: Contract, p: Points, dt: real, x: Joint, e: PlantEvent, y: Joint)
    requires Standard(p) && dt > 0.0 && Safe(p, x.plant) && W.Plant(c, p, x.plant.tables)
    requires PlantStep(p, dt, x.plant, e, y.plant) && NeitherBlock(p, dt, x, e)
    ensures W.Plant(c, p, y.plant.tables) && W.View(c, p, y.plant.tables) == W.View(c, p, x.plant.tables)
  {
    if e.WriteRegs? {
      WriteRefines(c, p, dt, x, e, y);
    } else {
      NoScanRests(p, dt, x.plant, e, y.plant);
    }
  }

  lemma ScanStepRefines(c: Contract, p: Points, dt: real, x: Joint, e: Step, y: Joint)
    requires W.Plant(c, p, x.plant.tables) && PlantStep(p, dt, x.plant, e.plant, y.plant) && Scans(p, dt, x.plant, e.plant)
    requires e.master == H.Scan(x.plant.conveyor.fault, x.plant.cnc.state)
    ensures Refined(c, p, x, e.master, y)
  {
    ScanRefines(c, p, dt, x, e.plant, y);
    NextScans(SystemOf(c, p, x), e.master);
  }

  lemma ReadRefines(c: Contract, p: Points, dt: real, x: Joint, e: Step, y: Joint)
    requires JointStep(c, p, dt, x, e, y) && OnlyReads(e.master)
    ensures Refined(c, p, x, e.master, y)
  {
    ReadsLeaveBlocks(SystemOf(c, p, x), e.master);
  }

  lemma ReadsLeaveBlocks(s: H.System, e: H.Event)
    requires H.Enabled(s, e) && OnlyReads(e)
    ensures H.Next(s, e).blocks == s.blocks
  {
  }

  /** Every step of the registers, the machines and the masters is a step of the
      handshake. */
  lemma StepRefines(c: Contract, p: Points, dt: real, x: Joint, e: Step, y: Joint)
    requires Standard(p) && dt > 0.0 && Safe(p, x.plant) && JointStep(c, p, dt, x, e, y)
    ensures W.Plant(c, p, y.plant.tables) && SystemOf(c, p, y) == H.Next(SystemOf(c, p, x), e.master)
  {
    if OnlyReads(e.master) {
      ReadRefines(c, p, dt, x, e, y);
    } else if e.master.Scan? {
      ScanStepRefines(c, p, dt, x, e, y);
    } else if e.master.Elsewhere? {
      ElsewhereRefines(c, p, dt, x, e, y);
    } else if e.master.Foreign? || e.master.Forge? {
      AnyWriteRefines(c, p, dt, x, e, y);
    } else {
      BlockStepRefines(c, p, dt, x, e, y, Written(x.masters, e.master).value);
    }
    RefinedIsNext(c, p, x, e.master, y);
  }

  lemma RefinedIsNext(c: Contract, p: Points, x: Joint, e: H.Event, y: Joint)
    requires W.Plant(c, p, x.plant.tables) && H.Enabled(SystemOf(c, p, x), e) && Refined(c, p, x, e, y)
    requires y.masters == MemoryOf(H.Next(SystemOf(c, p, x), e))
    ensures SystemOf(c, p, y) == H.Next(SystemOf(c, p, x), e)
  {
  }

  // --------------------------------------------------------------- whole runs

  ghost predicate AllPlants(c: Contract, p: Points, xs: seq<Joint>) {
    forall t :: 0 <= t < |xs| ==> W.Plant(c, p, xs[t].plant.tables)
  }

  ghost function Systems(c: Contract, p: Points, xs: seq<Joint>): (r: seq<H.System>)
    requires AllPlants(c, p, xs)
    ensures |r| == |xs|
  {
    seq(|xs|, t requires 0 <= t < |xs| => SystemOf(c, p, xs[t]))
  }

  function Plants(xs: seq<Joint>): (r: seq<PlantState>)
    ensures |r| == |xs| && forall t :: 0 <= t < |xs| ==> r[t] == xs[t].plant
  {
    seq(|xs|, t requires 0 <= t < |xs| => xs[t].plant)
  }

  function PlantEvents(es: seq<Step>): (r: seq<PlantEvent>)
    ensures |r| == |es| && forall t :: 0 <= t < |es| ==> r[t] == es[t].plant
  {
    seq(|es|, t requires 0 <= t < |es| => es[t].plant)
  }

  function MasterEvents(es: seq<Step>): (r: seq<H.Event>)
    ensures |r| == |es| && forall t :: 0 <= t < |es| ==> r[t] == es[t].master
  {
    seq(|es|, t requires 0 <= t < |es| => es[t].master)
  }

  lemma IsAPlantRun(c: Contract, p: Points, dt: real, xs: seq<Joint>, es: seq<Step>)
    requires IsJointRun(c, p, dt, xs, es)
    ensures IsPlantRun(p, dt, Plants(xs), PlantEvents(es))
  {
    forall t | 0 <= t < |es|
      ensures PlantStep(p, dt, Plants(xs)[t], PlantEvents(es)[t], Plants(xs)[t + 1])
    {
      var u := t + 1;
      assert JointStep(c, p, dt, xs[t], es[t], xs[u]);
    }
  }

  lemma StepAt(c: Contract, p: Points, dt: real, xs: seq<Joint>, es: seq<Step>, t: nat, u: nat)
    requires Standard(p) && dt > 0.0 && IsJointRun(c, p, dt, xs, es) && Safe(p, xs[0].plant) && t < |es| && u == t + 1
    ensures JointStep(c, p, dt, xs[t], es[t], xs[u])
    ensures W.Plant(c, p, xs[t].plant.tables) && W.Plant(c, p, xs[u].plant.tables)
    ensures H.Enabled(SystemOf(c, p, xs[t]), es[t].master)
    ensures SystemOf(c, p, xs[u]) == H.Next(SystemOf(c, p, xs[t]), es[t].master)
  {
    IsAPlantRun(c, p, dt, xs, es);
    SafeAt(p, dt, Plants(xs), PlantEvents(es), t);
    StepRefines(c, p, dt, xs[t], es[t], xs[u]);
  }

  /** And every run of them is a run of the handshake. */
  lemma IsAHandshakeRun(c: Contract, p: Points, dt: real, xs: seq<Joint>, es: seq<Step>)
    requires Standard(p) && dt > 0.0 && IsJointRun(c, p, dt, xs, es) && Safe(p, xs[0].plant)
    requires W.Plant(c, p, xs[0].plant.tables)
    ensures AllPlants(c, p, xs) && H.IsRun(Systems(c, p, xs), MasterEvents(es))
  {
    forall t | 0 <= t < |xs|
      ensures W.Plant(c, p, xs[t].plant.tables)
    {
      if t > 0 {
        StepAt(c, p, dt, xs, es, t - 1, t);
      }
    }
    forall t | 0 <= t < |es|
      ensures H.Enabled(Systems(c, p, xs)[t], MasterEvents(es)[t])
      ensures Systems(c, p, xs)[t + 1] == H.Next(Systems(c, p, xs)[t], MasterEvents(es)[t])
    {
      StepAt(c, p, dt, xs, es, t, t + 1);
    }
  }

  // ------------------------------------ what an acknowledged STOP is worth

  /** A scan that executes a waiting STOP is a deed that stops. */
  lemma ExecutedStopStops(c: Contract, p: Points, dt: real, x: Joint, e: Step, y: Joint)
    requires JointStep(c, p, dt, x, e, y) && H.Executes(SystemOf(c, p, x), e.master)
    requires W.View(c, p, x.plant.tables).cmd.code == STOP
    ensures DeedOf(p, dt, x.plant, e.plant).stops
  {
    W.ViewOfPending(c, p, x.plant.tables);
    W.ViewOfAck(c, p, x.plant.tables);
  }

  /** The scan at k executed the STOP; and from then on, while none executes START,
      the speed never rises, and it is 0 after the bounded stop's count of scans. */
  ghost predicate StoppedFrom(m: seq<Motor>, deeds: seq<Deed>, k: nat, top: real, maxSpeed: real, dt: real)
    requires |m| == |deeds| + 1 && maxSpeed * dt != 0.0
  {
    k < |deeds| && deeds[k].stops
    && forall t: nat :: StaysStopped(deeds, k, t) ==>
         m[t].speed <= m[t - 1].speed
         && (ScanCount(deeds, k, t) >= Ceil(top * 60.0 / (maxSpeed * dt)) ==> m[t].speed == 0.0)
  }

  lemma StopsFrom(p: Points, dt: real, st: seq<PlantState>, ev: seq<PlantEvent>, k: nat,
                  m: seq<Motor>, deeds: seq<Deed>, top: real, maxSpeed: real)
    requires Standard(p) && dt > 0.0 && IsPlantRun(p, dt, st, ev) && Safe(p, st[0])
    requires m == Motors(st) && deeds == Deeds(p, dt, st, ev) && k < |deeds| && deeds[k].stops
    requires top == TopSpeed(p) && maxSpeed == st[0].conveyor.maxSpeed && maxSpeed * dt > 0.0
    ensures StoppedFrom(m, deeds, k, top, maxSpeed, dt)
  {
    forall t: nat | StaysStopped(deeds, k, t)
      ensures m[t].speed <= m[t - 1].speed
      ensures ScanCount(deeds, k, t) >= Ceil(top * 60.0 / (maxSpeed * dt)) ==> m[t].speed == 0.0
    {
      BoundedStop(p, dt, st, ev, k, t, m, deeds, top, maxSpeed);
    }
  }

  lemma ReturnHasItsScan(tr: seq<H.System>, ev: seq<H.Event>, j: nat) returns (w: nat, k: nat)
    requires D.SoleMasterRun(tr, ev) && j < |ev| && H.Returns(tr[j], ev[j]) && D.NotRefusedBefore(tr, ev, j)
    ensures w < k < j && ev[w] == H.WriteLands && D.RanOnceAt(tr, ev, w, k, j) && H.Executes(tr[k], ev[k])
    ensures tr[k].blocks.cmd.code == tr[j].phase.cmd.code
    ensures D.Answer(tr[j]) == CommandResult(tr[j].phase.cmd.code, ev[k].fault, ev[k].cnc)
  {
    D.ReturnedInvokeRanExactlyOnce(tr, ev, j);
    var i: nat, w': nat, k': nat :| D.ExactlyOnce(tr, ev, i, w', k', j);
    w, k := w', k';
    assert D.Landed(tr, ev, i, w, j);
  }

  /** This step is a refused read, or a poll that makes the invoke return. */
  ghost predicate Refused(c: Contract, p: Points, x: Joint, e: Step) {
    W.Plant(c, p, x.plant.tables) && H.Refuses(SystemOf(c, p, x), e.master)
  }

  ghost predicate Returned(c: Contract, p: Points, x: Joint, e: Step) {
    W.Plant(c, p, x.plant.tables) && H.Returns(SystemOf(c, p, x), e.master)
  }

  /** A run from a fresh handshake on a safe plant, with one gateway and no other
      master. */
  ghost predicate LoneGateway(c: Contract, p: Points, dt: real, xs: seq<Joint>, es: seq<Step>) {
    Standard(p) && dt > 0.0 && IsJointRun(c, p, dt, xs, es) && Safe(p, xs[0].plant)
    && W.Plant(c, p, xs[0].plant.tables) && D.Fresh(SystemOf(c, p, xs[0]))
    && forall t :: 0 <= t < |es| ==> D.SoleMaster(es[t].master)
  }

  /** What of it the handshake's theorems need. */
  lemma HandshakeHalf(c: Contract, p: Points, dt: real, xs: seq<Joint>, es: seq<Step>, j: nat)
      returns (tr: seq<H.System>, he: seq<H.Event>)
    requires LoneGateway(c, p, dt, xs, es) && j < |es| && Returned(c, p, xs[j], es[j])
    requires forall t :: 0 <= t < j ==> !Refused(c, p, xs[t], es[t])
    ensures AllPlants(c, p, xs) && tr == Systems(c, p, xs) && he == MasterEvents(es)
    ensures D.SoleMasterRun(tr, he) && D.NotRefusedBefore(tr, he, j) && H.Returns(tr[j], he[j])
  {
    IsAHandshakeRun(c, p, dt, xs, es);
    tr, he := Systems(c, p, xs), MasterEvents(es);
    forall t | 0 <= t < |he|
      ensures D.SoleMaster(he[t])
    {
      assert D.SoleMaster(es[t].master);
    }
    forall t | 0 <= t < j
      ensures !H.Refuses(tr[t], he[t])
    {
      assert !Refused(c, p, xs[t], es[t]);
    }
  }

  lemma PlantHalf(c: Contract, p: Points, dt: real, xs: seq<Joint>, es: seq<Step>)
      returns (st: seq<PlantState>, pe: seq<PlantEvent>)
    requires LoneGateway(c, p, dt, xs, es)
    ensures st == Plants(xs) && pe == PlantEvents(es) && IsPlantRun(p, dt, st, pe) && Safe(p, st[0])
  {
    IsAPlantRun(c, p, dt, xs, es);
    st, pe := Plants(xs), PlantEvents(es);
  }

  lemma StopExecuted(c: Contract, p: Points, dt: real, xs: seq<Joint>, es: seq<Step>, j: nat, tr: seq<H.System>, he: seq<H.Event>)
      returns (w: nat, k: nat)
    requires LoneGateway(c, p, dt, xs, es) && AllPlants(c, p, xs) && tr == Systems(c, p, xs) && he == MasterEvents(es)
    requires D.SoleMasterRun(tr, he) && j < |he| && D.NotRefusedBefore(tr, he, j) && H.Returns(tr[j], he[j])
    requires tr[j].phase.cmd.code == STOP
    ensures D.Answer(tr[j]) == OK
    ensures w < k < j && he[w] == H.WriteLands && D.RanOnceAt(tr, he, w, k, j)
    ensures DeedOf(p, dt, xs[k].plant, es[k].plant).stops
  {
    w, k := ReturnHasItsScan(tr, he, j);
    StepAt(c, p, dt, xs, es, k, k + 1);
    ExecutedStopStops(c, p, dt, xs[k], es[k], xs[k + 1]);
  }

  /** The whole path of a STOP. One gateway alone, on a plant whose registers, scans
      and machines run as they will, with setpoints and ramp times written by
      anyone, and no command refused so far: when an invoke of STOP returns, it
      returns OK, a scan between its write and its return has executed it, once,
      and from that scan on, while none executes START, the conveyor only slows
      down and stands still after ceil(65535 scale * 60 / (max_speed dt)) scans. */
  lemma AcknowledgedStopStops(c: Contract, p: Points, dt: real, xs: seq<Joint>, es: seq<Step>, j: nat,
                              top: real, maxSpeed: real)
      returns (w: nat, k: nat, m: seq<Motor>, deeds: seq<Deed>)
    requires LoneGateway(c, p, dt, xs, es) && j < |es| && Returned(c, p, xs[j], es[j])
    requires forall t :: 0 <= t < j ==> !Refused(c, p, xs[t], es[t])
    requires SystemOf(c, p, xs[j]).phase.cmd.code == STOP
    requires top == TopSpeed(p) && maxSpeed == xs[0].plant.conveyor.maxSpeed && maxSpeed * dt > 0.0
    ensures W.View(c, p, xs[j].plant.tables).ackResult == OK
    ensures IsPlantRun(p, dt, Plants(xs), PlantEvents(es))
    ensures m == Motors(Plants(xs)) && deeds == Deeds(p, dt, Plants(xs), PlantEvents(es))
    ensures w < k < j && es[w].master == H.WriteLands && AllPlants(c, p, xs)
    ensures H.IsRun(Systems(c, p, xs), MasterEvents(es)) && D.RanOnceAt(Systems(c, p, xs), MasterEvents(es), w, k, j)
    ensures StoppedFrom(m, deeds, k, top, maxSpeed, dt)
  {
    var tr, he := HandshakeHalf(c, p, dt, xs, es, j);
    var st, pe := PlantHalf(c, p, dt, xs, es);
    w, k := StopExecuted(c, p, dt, xs, es, j, tr, he);
    m, deeds := Motors(st), Deeds(p, dt, st, pe);
    StopsFrom(p, dt, st, pe, k, m, deeds, top, maxSpeed);
  }
}
