/** Where the scan finds things: the lookups of Plc.__init__ (src/plc/scan.py),
    and what an accepted contract guarantees about them. */
module Points {
  import opened Wrappers
  import opened Commands
  import opened Model
  import Loader

  datatype Points = Points(
    setpoint: Mapping, ramp: Mapping, actual: Mapping, position: Mapping, cncState: Mapping,
    codes: map<CncState, int>,
    cmd: Span, ack: Span, cmdCode: int, cmdSeq: int, ackSeq: int, ackResult: int,
    meta: Meta)

  // --------------------------------------------------------------- lookups

  /** {s.name: s for s in signals}: the last of equal names. */
  function Find(signals: seq<Signal>, name: string): Option<nat> {
    if signals == [] then None
    else if signals[|signals| - 1].name == name then Some(|signals| - 1)
    else Find(signals[..|signals| - 1], name)
  }

  lemma {:induction false} FindFinds(signals: seq<Signal>, name: string)
    ensures Find(signals, name).Some? ==>
              Find(signals, name).value < |signals| && signals[Find(signals, name).value].name == name
  {
    if signals == [] {
    } else {
      FindFinds(signals[..|signals| - 1], name);
    }
  }

  /** {name: i for i, name in enumerate(layout)} */
  function Offset(layout: seq<string>, name: string): (r: Option<nat>)
    ensures r.Some? ==> r.value < |layout| && layout[r.value] == name
  {
    if layout == [] then None
    else if layout[|layout| - 1] == name then Some(|layout| - 1)
    else Offset(layout[..|layout| - 1], name)
  }

  function StateNamed(name: string): Option<CncState> {
    if name == "Idle" then Some(Idle)
    else if name == "Homing" then Some(Homing)
    else if name == "Loading" then Some(Loading)
    else if name == "Running" then Some(Running)
    else if name == "Unloading" then Some(Unloading)
    else if name == "Fault" then Some(Fault)
    else None
  }

  /** Every declared name is one of the machine's, none declared twice. */
  predicate StateNames(states: map<int, string>) {
    (forall code :: code in states ==> StateNamed(states[code]).Some?)
    && (forall code, other :: code in states && other in states && code != other ==> states[code] != states[other])
  }

  lemma NamesAreStates(a: string, b: string)
    requires StateNamed(a).Some? && StateNamed(a) == StateNamed(b)
    ensures a == b
  {
  }

  lemma CodesAreUnambiguous(states: map<int, string>)
    requires StateNames(states)
    ensures forall code, other :: code in states && other in states ==>
              (StateNamed(states[code]) == StateNamed(states[other]) ==> code == other)
  {
    forall code, other | code in states && other in states && StateNamed(states[code]) == StateNamed(states[other])
      ensures code == other
    {
      NamesAreStates(states[code], states[other]);
    }
  }

  /** The declaration turned around: from state to register code. */
  function Codes(states: map<int, string>): map<CncState, int>
    requires StateNames(states)
  {
    CodesAreUnambiguous(states);
    map code | code in states :: StateNamed(states[code]).value := code
  }

  const ALL_STATES: set<CncState> := {Idle, Homing, Loading, Running, Unloading, Fault}

  lemma EveryState(state: CncState)
    ensures state in ALL_STATES
  {
  }

  predicate Present(c: Contract, name: string) {
    Find(c.signals, name).Some?
  }

  function SignalNamed(c: Contract, name: string): Signal
    requires Present(c, name)
  {
    FindFinds(c.signals, name);
    c.signals[Find(c.signals, name).value]
  }

  /** The signals the scan names, in the order of Points. */
  function PartName(k: int): string {
    if k == 0 then "Conveyor1.SpeedSetpoint"
    else if k == 1 then "Conveyor1.RampTime"
    else if k == 2 then "Conveyor1.ActualSpeed"
    else if k == 3 then "Conveyor1.Position"
    else "Cnc.State"
  }

  predicate AllPresent(c: Contract) {
    forall k :: 0 <= k < 5 ==> Present(c, PartName(k))
  }

  function PartMapping(c: Contract, k: int): Mapping
    requires AllPresent(c) && 0 <= k < 5
  {
    SignalNamed(c, PartName(k)).modbus
  }

  function CncStates(c: Contract): Option<map<int, string>>
    requires AllPresent(c)
  {
    SignalNamed(c, PartName(4)).states
  }

  /** What Plc needs of its contract beyond the loader's checks: the named signals
      and layout fields, the two parameters it reads in the holding table, and a
      register code for every state of the CNC. */
  predicate Required(c: Contract) {
    AllPresent(c)
    && PartMapping(c, 0).table == "holding"
    && PartMapping(c, 1).table == "holding"
    && CncStates(c).Some? && StateNames(CncStates(c).value) && ALL_STATES <= Codes(CncStates(c).value).Keys
    && Offset(c.commandBlock.layout, "cmd_code").Some? && Offset(c.commandBlock.layout, "seq").Some?
    && Offset(c.ackBlock.layout, "ack_seq").Some? && Offset(c.ackBlock.layout, "ack_result").Some?
  }

  function PointsOf(c: Contract): Points
    requires Required(c)
  {
    Points(
      PartMapping(c, 0), PartMapping(c, 1), PartMapping(c, 2), PartMapping(c, 3), PartMapping(c, 4),
      Codes(CncStates(c).value),
      c.commandBlock.Addresses(), c.ackBlock.Addresses(),
      c.commandBlock.base + Offset(c.commandBlock.layout, "cmd_code").value,
      c.commandBlock.base + Offset(c.commandBlock.layout, "seq").value,
      c.ackBlock.base + Offset(c.ackBlock.layout, "ack_seq").value,
      c.ackBlock.base + Offset(c.ackBlock.layout, "ack_result").value,
      c.meta)
  }

  function Part(p: Points, k: int): Mapping {
    if k == 0 then p.setpoint
    else if k == 1 then p.ramp
    else if k == 2 then p.actual
    else if k == 3 then p.position
    else p.cncState
  }

  // ------------------------------------------------------------- placement

  /** The registers a table-and-span claim covers. */
  predicate Covers(table: string, span: Span, t: string, a: int) {
    t == table && span.Has(a)
  }

  predicate At(m: Mapping, t: string, a: int)
    requires !m.typ.Unknown?
  {
    Covers(m.table, m.Addresses(), t, a)
  }

  ghost predicate Apart(m: Mapping, n: Mapping)
    requires !m.typ.Unknown? && !n.typ.Unknown?
  {
    forall t, a :: !(At(m, t, a) && At(n, t, a))
  }

  ghost predicate OutsideBlocks(p: Points, m: Mapping)
    requires !m.typ.Unknown?
  {
    forall t, a :: At(m, t, a) ==> !Covers(BLOCK_TABLE, p.cmd, t, a) && !Covers(BLOCK_TABLE, p.ack, t, a)
  }

  predicate TypesOk(p: Points) {
    (forall k :: 0 <= k < 5 ==> !Part(p, k).typ.Unknown?)
    && p.setpoint.table == "holding" && p.ramp.table == "holding"
    && ALL_STATES <= p.codes.Keys
  }

  predicate BlocksPlaced(p: Points) {
    (p.cmd.stop <= p.ack.start || p.ack.stop <= p.cmd.start)
    && p.cmd.Has(p.cmdCode) && p.cmd.Has(p.cmdSeq) && p.cmdCode != p.cmdSeq
    && p.ack.Has(p.ackSeq) && p.ack.Has(p.ackResult) && p.ackSeq != p.ackResult
  }

  /** No register serves two purposes. */
  ghost predicate WellPlaced(p: Points) {
    TypesOk(p) && BlocksPlaced(p)
    && (forall k, l :: 0 <= k < l < 5 ==> Apart(Part(p, k), Part(p, l)))
    && (forall k :: 0 <= k < 5 ==> OutsideBlocks(p, Part(p, k)))
  }

  lemma IndexApart(c: Contract, i: nat, j: nat)
    requires Loader.TypesKnown(c) && Loader.AllFit(c) && i < |c.signals| && j < |c.signals| && i != j
    ensures Apart(c.signals[i].modbus, c.signals[j].modbus)
  {
    Loader.OverlapCheckIsExact(c);
    var a, b := Loader.EntryAt(c, i), Loader.EntryAt(c, j);
    assert Loader.Disjoint(a, b);
    forall t, x
      ensures !(At(c.signals[i].modbus, t, x) && At(c.signals[j].modbus, t, x))
    {
      assert a.table == b.table ==> !(a.span.Has(x) && b.span.Has(x));
    }
  }

  lemma IndexOutsideBlocks(c: Contract, i: nat)
    requires Loader.TypesKnown(c) && Loader.AllFit(c) && i < |c.signals|
    ensures forall t, a :: At(c.signals[i].modbus, t, a) ==>
              !Covers(BLOCK_TABLE, c.commandBlock.Addresses(), t, a) && !Covers(BLOCK_TABLE, c.ackBlock.Addresses(), t, a)
  {
    Loader.OverlapCheckIsExact(c);
    var e, cmd, ack := Loader.EntryAt(c, i), Loader.EntryAt(c, |c.signals|), Loader.EntryAt(c, |c.signals| + 1);
    assert Loader.Disjoint(e, cmd) && Loader.Disjoint(e, ack);
    forall t, x | At(c.signals[i].modbus, t, x)
      ensures !Covers(BLOCK_TABLE, cmd.span, t, x) && !Covers(BLOCK_TABLE, ack.span, t, x)
    {
      assert e.table == cmd.table ==> !(e.span.Has(x) && cmd.span.Has(x));
      assert e.table == ack.table ==> !(e.span.Has(x) && ack.span.Has(x));
    }
  }

  lemma PartNamesDiffer(k: int, l: int)
    requires 0 <= k < l < 5
    ensures PartName(k) != PartName(l)
  {
    assert PartName(0)[10] == 'S' && PartName(1)[10] == 'R' && PartName(2)[10] == 'A' && PartName(3)[10] == 'P';
    assert |PartName(4)| == 9;
  }

  lemma PartIsASignal(c: Contract, k: int) returns (i: nat)
    requires AllPresent(c) && 0 <= k < 5
    ensures i < |c.signals| && c.signals[i].name == PartName(k) && PartMapping(c, k) == c.signals[i].modbus
  {
    FindFinds(c.signals, PartName(k));
    i := Find(c.signals, PartName(k)).value;
  }

  lemma FieldsArePlaced(block: RegisterBlock, first: string, second: string)
    requires Offset(block.layout, first).Some? && Offset(block.layout, second).Some? && first != second
    ensures var a, b := block.base + Offset(block.layout, first).value, block.base + Offset(block.layout, second).value;
            block.Addresses().Has(a) && block.Addresses().Has(b) && a != b
  {
  }

  lemma BlocksAreApart(c: Contract)
    requires Loader.TypesKnown(c) && Loader.AllFit(c)
    ensures var cmd, ack := c.commandBlock.Addresses(), c.ackBlock.Addresses();
            cmd.stop <= ack.start || ack.stop <= cmd.start
  {
    var cmd, ack := Loader.EntryAt(c, |c.signals|), Loader.EntryAt(c, |c.signals| + 1);
    assert Loader.Fits(cmd, ack) && Loader.Fits(ack, cmd);
  }

  lemma FieldNamesDiffer()
    ensures "cmd_code" != "seq" && "ack_seq" != "ack_result"
  {
    assert |"cmd_code"| != |"seq"| && |"ack_seq"| != |"ack_result"|;
  }

  lemma BlocksArePlaced(c: Contract)
    requires Loader.TypesKnown(c) && Loader.AllFit(c) && Required(c)
    ensures BlocksPlaced(PointsOf(c))
  {
    FieldNamesDiffer();
    BlocksAreApart(c);
    FieldsArePlaced(c.commandBlock, "cmd_code", "seq");
    FieldsArePlaced(c.ackBlock, "ack_seq", "ack_result");
  }

  lemma PartIsMapping(c: Contract, p: Points, k: int)
    requires Required(c) && p == PointsOf(c) && 0 <= k < 5
    ensures Part(p, k) == PartMapping(c, k)
  {
  }

  lemma MappingOutsideBlocks(c: Contract, k: int)
    requires Loader.TypesKnown(c) && Loader.AllFit(c) && AllPresent(c) && 0 <= k < 5
    ensures !PartMapping(c, k).typ.Unknown?
    ensures forall t, a :: At(PartMapping(c, k), t, a) ==>
              !Covers(BLOCK_TABLE, c.commandBlock.Addresses(), t, a) && !Covers(BLOCK_TABLE, c.ackBlock.Addresses(), t, a)
  {
    var i := PartIsASignal(c, k);
    IndexOutsideBlocks(c, i);
  }

  lemma MappingsApart(c: Contract, k: int, l: int)
    requires Loader.TypesKnown(c) && Loader.AllFit(c) && AllPresent(c) && 0 <= k < l < 5
    ensures !PartMapping(c, k).typ.Unknown? && !PartMapping(c, l).typ.Unknown?
    ensures Apart(PartMapping(c, k), PartMapping(c, l))
  {
    var i := PartIsASignal(c, k);
    var j := PartIsASignal(c, l);
    PartNamesDiffer(k, l);
    IndexApart(c, i, j);
  }

  /** The loader's checks are what the scan's frame rests on. */
  lemma AcceptedContractsAreWellPlaced(c: Contract)
    requires Loader.Valid(c) && Required(c)
    ensures WellPlaced(PointsOf(c))
  {
    var p := PointsOf(c);
    forall k | 0 <= k < 5
      ensures Part(p, k) == PartMapping(c, k) && !Part(p, k).typ.Unknown? && OutsideBlocks(p, Part(p, k))
    {
      PartIsMapping(c, p, k);
      MappingOutsideBlocks(c, k);
    }
    forall k, l | 0 <= k < l < 5
      ensures Apart(Part(p, k), Part(p, l))
    {
      PartIsMapping(c, p, k);
      PartIsMapping(c, p, l);
      MappingsApart(c, k, l);
    }
    BlocksArePlaced(c);
  }
}
