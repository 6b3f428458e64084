/** The handshake's blocks as registers: every transaction and every scan of the
    real PLC is a step of the event system (src/gateway/poller.py,
    src/plc/modbus_server.py, src/plc/scan.py). */
module WireLink {
  import opened Wrappers
  import opened Numbers
  import opened Commands
  import opened Model
  import opened ImageTable
  import opened Points
  import opened Scan
  import Loader
  import F = ScanFrame
  import H = Handshake

  /** The four fields invoke fills, by layout name. */
  function Field(cmd: H.Command, name: string): Option<int> {
    if name == "cmd_code" then Some(cmd.code)
    else if name == "arg0_lo" then Some(cmd.argLo)
    else if name == "arg0_hi" then Some(cmd.argHi)
    else if name == "seq" then Some(cmd.number)
    else None
  }

  const FIELDS: seq<string> := ["cmd_code", "arg0_lo", "arg0_hi", "seq"]

  /** The command layout names the four fields and nothing else, in any order. */
  predicate FieldLayout(layout: seq<string>) {
    (forall name :: name in FIELDS ==> Offset(layout, name).Some?)
    && (forall i :: 0 <= i < |layout| ==> layout[i] in FIELDS)
  }

  /** A PLC laid out by an accepted contract. */
  ghost predicate Plant(c: Contract, p: Points, tables: Tables) {
    Required(c) && p == PointsOf(c) && FieldLayout(c.commandBlock.layout) && WellPlaced(p) && Laid(p, tables)
  }

  function CommandRegister(c: Contract, name: string): int
    requires Offset(c.commandBlock.layout, name).Some?
  {
    c.commandBlock.base + Offset(c.commandBlock.layout, name).value
  }

  lemma BlocksAreHeld(c: Contract, p: Points, tables: Tables)
    requires Plant(c, p, tables)
    ensures forall name :: name in FIELDS ==>
              Offset(c.commandBlock.layout, name).Some? && p.cmd.Has(CommandRegister(c, name))
              && CommandRegister(c, name) in tables[BLOCK_TABLE]
    ensures p.ackSeq in tables[BLOCK_TABLE] && p.ackResult in tables[BLOCK_TABLE]
  {
    forall name | name in FIELDS
      ensures p.cmd.Has(CommandRegister(c, name)) && Holds(tables, BLOCK_TABLE, CommandRegister(c, name))
    {
      assert Offset(c.commandBlock.layout, name).Some?;
    }
    assert Holds(tables, BLOCK_TABLE, p.ackSeq) && Holds(tables, BLOCK_TABLE, p.ackResult);
  }

  /** The handshake's view of the registers. */
  ghost function View(c: Contract, p: Points, tables: Tables): H.Blocks
    requires Plant(c, p, tables)
  {
    BlocksAreHeld(c, p, tables);
    var t := tables[BLOCK_TABLE];
    assert FIELDS[0] in FIELDS && FIELDS[1] in FIELDS && FIELDS[2] in FIELDS && FIELDS[3] in FIELDS;
    H.Blocks(H.Command(t[CommandRegister(c, FIELDS[0])], t[CommandRegister(c, FIELDS[1])],
                       t[CommandRegister(c, FIELDS[2])], t[CommandRegister(c, FIELDS[3])]),
             t[p.ackSeq], t[p.ackResult])
  }

  /** Equal command registers, equal commands. */
  lemma SameCommand(c: Contract, p: Points, tables: Tables, after: Tables)
    requires Plant(c, p, tables) && Plant(c, p, after)
    requires forall a :: p.cmd.Has(a) ==> KeepsRegister(tables, after, a)
    ensures View(c, p, after).cmd == View(c, p, tables).cmd
  {
    BlocksAreHeld(c, p, tables);
    BlocksAreHeld(c, p, after);
    forall name | name in FIELDS
      ensures KeepsRegister(tables, after, CommandRegister(c, name))
    {
      assert p.cmd.Has(CommandRegister(c, name));
    }
    assert FIELDS[0] in FIELDS && FIELDS[1] in FIELDS && FIELDS[2] in FIELDS && FIELDS[3] in FIELDS;
  }

  /** The acknowledgement half of the view. */
  lemma ViewOfAck(c: Contract, p: Points, tables: Tables)
    requires Plant(c, p, tables)
    ensures Holds(tables, BLOCK_TABLE, p.ackSeq) && Holds(tables, BLOCK_TABLE, p.ackResult)
    ensures View(c, p, tables).ackSeq == tables[BLOCK_TABLE][p.ackSeq]
    ensures View(c, p, tables).ackResult == tables[BLOCK_TABLE][p.ackResult]
  {
    BlocksAreHeld(c, p, tables);
  }

  lemma CommandOffsets(c: Contract, p: Points, code: string, number: string)
    requires Required(c) && p == PointsOf(c) && code == "cmd_code" && number == "seq"
    ensures Offset(c.commandBlock.layout, code).Some? && Offset(c.commandBlock.layout, number).Some?
    ensures p.cmdCode == CommandRegister(c, code) && p.cmdSeq == CommandRegister(c, number)
  {
  }

  lemma ViewOfPending(c: Contract, p: Points, tables: Tables)
    requires Plant(c, p, tables)
    ensures Holds(tables, BLOCK_TABLE, p.cmdCode) && Holds(tables, BLOCK_TABLE, p.cmdSeq)
    ensures View(c, p, tables).cmd.code == tables[BLOCK_TABLE][p.cmdCode]
    ensures View(c, p, tables).cmd.number == tables[BLOCK_TABLE][p.cmdSeq]
  {
    assert FIELDS[0] in FIELDS && FIELDS[3] in FIELDS;
    CommandOffsets(c, p, FIELDS[0], FIELDS[3]);
    CommandShows(c, p, tables, FIELDS[0], FIELDS[3]);
  }

  lemma CommandShows(c: Contract, p: Points, tables: Tables, code: string, number: string)
    requires Plant(c, p, tables) && code == FIELDS[0] && number == FIELDS[3]
    ensures code in FIELDS && number in FIELDS && Offset(c.commandBlock.layout, code).Some?
    ensures Offset(c.commandBlock.layout, number).Some?
    ensures Holds(tables, BLOCK_TABLE, CommandRegister(c, code)) && Holds(tables, BLOCK_TABLE, CommandRegister(c, number))
    ensures View(c, p, tables).cmd.code == tables[BLOCK_TABLE][CommandRegister(c, code)]
    ensures View(c, p, tables).cmd.number == tables[BLOCK_TABLE][CommandRegister(c, number)]
  {
    BlocksAreHeld(c, p, tables);
  }

  /** One scan is one Scan event. */
  lemma ScanIsAnEvent(c: Contract, p: Points, s: PlantState, dt: real, after: PlantState)
    requires Plant(c, p, s.tables) && CanScan(p, s) && ScanStep(p, s, dt) == Ok(after)
    ensures Plant(c, p, after.tables)
    ensures View(c, p, after.tables) == H.ScanBlocks(View(c, p, s.tables), s.conveyor.fault, s.cnc.state)
  {
    F.ScanKeepsLaid(p, s, dt, after);
    F.ScanAcknowledges(p, s, dt, after);
    forall a | p.cmd.Has(a)
      ensures KeepsRegister(s.tables, after.tables, a)
    {
      F.ScanKeepsTheCommand(p, s, dt, after, a);
    }
    SameCommand(c, p, s.tables, after.tables);
    ViewOfAck(c, p, s.tables);
    ViewOfAck(c, p, after.tables);
    ViewOfPending(c, p, s.tables);
  }

  /** write_block(command_block, fields): one FC16 write of the whole block. */
  function BlockWords(layout: seq<string>, cmd: H.Command): seq<int>
    requires FieldLayout(layout)
  {
    seq(|layout|, i requires 0 <= i < |layout| =>
      assert layout[i] in FIELDS; FieldOf(cmd, layout[i]))
  }

  function FieldOf(cmd: H.Command, name: string): int
    requires name in FIELDS
  {
    Field(cmd, name).value
  }

  lemma BlockIsMapped(tables: Tables, span: Span, count: nat)
    requires span.stop == span.start + count && BLOCK_TABLE in tables
    requires forall a :: span.Has(a) ==> Holds(tables, BLOCK_TABLE, a)
    ensures Mapped(tables[BLOCK_TABLE], span.start, count)
  {
    forall a | span.start <= a < span.start + count
      ensures a in tables[BLOCK_TABLE]
    {
      assert span.Has(a);
    }
  }

  lemma MappedWrite(tables: Tables, base: int, values: seq<int>)
    requires BLOCK_TABLE in tables && Mapped(tables[BLOCK_TABLE], base, |values|)
    ensures Write(tables, 16, base, values) == Ok(tables[BLOCK_TABLE := Written(tables[BLOCK_TABLE], base, values)])
  {
  }

  lemma MappedRead(tables: Tables, base: int, count: nat)
    requires BLOCK_TABLE in tables && Mapped(tables[BLOCK_TABLE], base, count)
    ensures Read(tables, 3, base, count).Ok? && |Read(tables, 3, base, count).value| == count
    ensures forall i :: 0 <= i < count ==> Read(tables, 3, base, count).value[i] == tables[BLOCK_TABLE][base + i]
  {
  }

  /** The gateway's write is always accepted, */
  lemma BlockWriteIsAccepted(c: Contract, p: Points, tables: Tables, cmd: H.Command)
    requires Plant(c, p, tables)
    ensures Write(tables, 16, c.commandBlock.base, BlockWords(c.commandBlock.layout, cmd))
            == Ok(tables[BLOCK_TABLE := Written(tables[BLOCK_TABLE], c.commandBlock.base,
                                                BlockWords(c.commandBlock.layout, cmd))])
  {
    BlockIsMapped(tables, p.cmd, |c.commandBlock.layout|);
    MappedWrite(tables, c.commandBlock.base, BlockWords(c.commandBlock.layout, cmd));
  }

  lemma WrittenFields(c: Contract, table: map<int, int>, cmd: H.Command, name: string)
    requires FieldLayout(c.commandBlock.layout) && name in FIELDS
    requires CommandRegister(c, name) in table
    ensures Written(table, c.commandBlock.base, BlockWords(c.commandBlock.layout, cmd))[CommandRegister(c, name)]
            == FieldOf(cmd, name)
  {
  }

  /** and is WriteLands: the block now reads as the command written, and the ack
      block is untouched. */
  lemma BlockWriteIsAnEvent(c: Contract, p: Points, tables: Tables, cmd: H.Command, after: Tables)
    requires Plant(c, p, tables)
    requires Write(tables, 16, c.commandBlock.base, BlockWords(c.commandBlock.layout, cmd)) == Ok(after)
    ensures Plant(c, p, after)
    ensures View(c, p, after) == View(c, p, tables).(cmd := cmd)
  {
    BlockWriteIsAccepted(c, p, tables, cmd);
    assert forall a :: p.ack.Has(a) ==> !p.cmd.Has(a);
    OtherWritesAreEvents(c, p, tables, 16, c.commandBlock.base, BlockWords(c.commandBlock.layout, cmd), after);
    WrittenView(c, p, tables[BLOCK_TABLE], cmd, after);
  }

  lemma WrittenView(c: Contract, p: Points, table: map<int, int>, cmd: H.Command, after: Tables)
    requires Plant(c, p, after) && after[BLOCK_TABLE].Keys == table.Keys
    requires after[BLOCK_TABLE] == Written(table, c.commandBlock.base, BlockWords(c.commandBlock.layout, cmd))
    ensures View(c, p, after).cmd == cmd
  {
    BlocksAreHeld(c, p, after);
    FieldsAre(cmd);
    WrittenFields(c, table, cmd, FIELDS[0]);
    WrittenFields(c, table, cmd, FIELDS[1]);
    WrittenFields(c, table, cmd, FIELDS[2]);
    WrittenFields(c, table, cmd, FIELDS[3]);
  }

  lemma FieldsAre(cmd: H.Command)
    ensures FIELDS[0] in FIELDS && FIELDS[1] in FIELDS && FIELDS[2] in FIELDS && FIELDS[3] in FIELDS
    ensures H.Command(FieldOf(cmd, FIELDS[0]), FieldOf(cmd, FIELDS[1]), FieldOf(cmd, FIELDS[2]), FieldOf(cmd, FIELDS[3]))
            == cmd
  {
  }

  lemma WriteKeepsLaid(p: Points, tables: Tables, fc: int, address: int, values: seq<int>, after: Tables)
    requires WellPlaced(p) && Laid(p, tables) && WriteCode(fc) && Write(tables, fc, address, values) == Ok(after)
    ensures forall t, a :: Holds(after, t, a) <==> Holds(tables, t, a)
    ensures Laid(p, after)
  {
    WritesStayInTheirTables(tables, fc, address, values, after);
    forall k | 0 <= k < 5
      ensures HoldsSpan(after, Part(p, k))
    {
      assert HoldsSpan(tables, Part(p, k));
    }
  }

  lemma AckIsMapped(c: Contract, p: Points, tables: Tables)
    requires Plant(c, p, tables)
    ensures BLOCK_TABLE in tables && Mapped(tables[BLOCK_TABLE], c.ackBlock.base, |c.ackBlock.layout|)
  {
    BlockIsMapped(tables, p.ack, |c.ackBlock.layout|);
  }

  lemma AckOffsets(c: Contract, p: Points, ackSeq: string, ackResult: string)
    requires Required(c) && p == PointsOf(c) && ackSeq == "ack_seq" && ackResult == "ack_result"
    ensures Offset(c.ackBlock.layout, ackSeq).Some? && Offset(c.ackBlock.layout, ackResult).Some?
    ensures p.ackSeq == c.ackBlock.base + Offset(c.ackBlock.layout, ackSeq).value
    ensures p.ackResult == c.ackBlock.base + Offset(c.ackBlock.layout, ackResult).value
  {
  }

  /** read_block(ack_block), one FC3 read of the whole block zipped with its
      layout: it is never refused, and the words under the two names are the
      acknowledgement of the view. */
  lemma BlockReadIsTheView(c: Contract, p: Points, tables: Tables, ackSeq: string, ackResult: string)
    requires Plant(c, p, tables) && ackSeq == "ack_seq" && ackResult == "ack_result"
    ensures Offset(c.ackBlock.layout, ackSeq).Some? && Offset(c.ackBlock.layout, ackResult).Some?
    ensures var r := Read(tables, 3, c.ackBlock.base, |c.ackBlock.layout|);
            r.Ok? && |r.value| == |c.ackBlock.layout|
            && r.value[Offset(c.ackBlock.layout, ackSeq).value] == View(c, p, tables).ackSeq
            && r.value[Offset(c.ackBlock.layout, ackResult).value] == View(c, p, tables).ackResult
  {
    AckIsMapped(c, p, tables);
    AckOffsets(c, p, ackSeq, ackResult);
    ViewOfAck(c, p, tables);
    ReadShows(c.ackBlock, tables, ackSeq, p.ackSeq);
    ReadShows(c.ackBlock, tables, ackResult, p.ackResult);
  }

  lemma ReadShows(block: RegisterBlock, tables: Tables, name: string, a: int)
    requires BLOCK_TABLE in tables && Mapped(tables[BLOCK_TABLE], block.base, |block.layout|)
    requires Offset(block.layout, name).Some? && a == block.base + Offset(block.layout, name).value
    ensures a in tables[BLOCK_TABLE]
    ensures var r := Read(tables, 3, block.base, |block.layout|);
            r.Ok? && |r.value| == |block.layout| && r.value[Offset(block.layout, name).value] == tables[BLOCK_TABLE][a]
  {
    MappedRead(tables, block.base, |block.layout|);
  }

  /** Any write by any master that stays off the ack block is a Foreign event;
      in particular setpoint writes leave the whole view alone. */
  lemma OtherWritesAreEvents(c: Contract, p: Points, tables: Tables, fc: int, address: int, values: seq<int>, after: Tables)
    requires Plant(c, p, tables) && WriteCode(fc) && Write(tables, fc, address, values) == Ok(after)
    requires TableName(fc) == Some(BLOCK_TABLE) ==>
               forall a :: p.ack.Has(a) ==> !(address <= a < address + |values|)
    ensures Plant(c, p, after)
    ensures View(c, p, after) == View(c, p, tables).(cmd := View(c, p, after).cmd)
    ensures (forall a :: p.cmd.Has(a) ==> !(address <= a < address + |values|)) ==>
              View(c, p, after) == View(c, p, tables)
  {
    WriteKeepsLaid(p, tables, fc, address, values, after);
    forall a | p.ack.Has(a)
      ensures KeepsRegister(tables, after, a)
    {
      WriteKeepsOthers(tables, fc, address, values, after, a);
    }
    SameAck(c, p, tables, after);
    if forall a :: p.cmd.Has(a) ==> !(address <= a < address + |values|) {
      WriteKeepsCommand(c, p, tables, fc, address, values, after);
    }
  }

  /** And any write at all, one that reaches the ack block or spans both blocks
      included, is a single Forge event: it leaves a plant, and a write off the
      command block leaves the command. */
  lemma AnyWriteIsAnEvent(c: Contract, p: Points, tables: Tables, fc: int, address: int, values: seq<int>, after: Tables,
                          s: H.System)
    requires Plant(c, p, tables) && WriteCode(fc) && Write(tables, fc, address, values) == Ok(after)
    requires s.blocks == View(c, p, tables)
    ensures Plant(c, p, after)
    ensures var b := View(c, p, after);
            H.Next(s, H.Forge(b.cmd, b.ackSeq, b.ackResult)) == s.(blocks := b)
    ensures (forall a :: p.cmd.Has(a) ==> !(address <= a < address + |values|)) ==> View(c, p, after).cmd == s.blocks.cmd
  {
    WriteKeepsLaid(p, tables, fc, address, values, after);
    if forall a :: p.cmd.Has(a) ==> !(address <= a < address + |values|) {
      WriteKeepsCommand(c, p, tables, fc, address, values, after);
    }
    ForgeSets(s, View(c, p, after));
  }

  lemma ForgeSets(s: H.System, b: H.Blocks)
    ensures H.Next(s, H.Forge(b.cmd, b.ackSeq, b.ackResult)) == s.(blocks := b)
  {
  }

  lemma WriteKeepsCommand(c: Contract, p: Points, tables: Tables, fc: int, address: int, values: seq<int>, after: Tables)
    requires Plant(c, p, tables) && Plant(c, p, after) && WriteCode(fc) && Write(tables, fc, address, values) == Ok(after)
    requires forall a :: p.cmd.Has(a) ==> !(address <= a < address + |values|)
    ensures View(c, p, after).cmd == View(c, p, tables).cmd
  {
    forall a | p.cmd.Has(a)
      ensures KeepsRegister(tables, after, a)
    {
      WriteKeepsOthers(tables, fc, address, values, after, a);
    }
    SameCommand(c, p, tables, after);
  }

  predicate KeepsRegister(tables: Tables, after: Tables, a: int) {
    Holds(tables, BLOCK_TABLE, a) && Holds(after, BLOCK_TABLE, a) ==> after[BLOCK_TABLE][a] == tables[BLOCK_TABLE][a]
  }

  lemma WriteKeepsOthers(tables: Tables, fc: int, address: int, values: seq<int>, after: Tables, a: int)
    requires WriteCode(fc) && Write(tables, fc, address, values) == Ok(after)
    requires TableName(fc) == Some(BLOCK_TABLE) ==> !(address <= a < address + |values|)
    ensures KeepsRegister(tables, after, a)
  {
  }

  lemma SameAck(c: Contract, p: Points, tables: Tables, after: Tables)
    requires Plant(c, p, tables) && Plant(c, p, after)
    requires forall a :: p.ack.Has(a) ==> KeepsRegister(tables, after, a)
    ensures View(c, p, after).ackSeq == View(c, p, tables).ackSeq
    ensures View(c, p, after).ackResult == View(c, p, tables).ackResult
  {
    assert KeepsRegister(tables, after, p.ackSeq) && KeepsRegister(tables, after, p.ackResult);
    ViewOfAck(c, p, tables);
    ViewOfAck(c, p, after);
  }
}
