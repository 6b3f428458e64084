/** The PLC's image tables and the Modbus data store over them
    (src/plc/modbus_server.py; register access as in sections 6.3, 6.4 and 6.12
    of the MODBUS Application Protocol Specification V1.1b3). */
module ImageTable {
  import opened Wrappers

  /** Table name, then address, then register. */
  type Tables = map<string, map<int, int>>

  datatype ExcCode = IllegalFunction | IllegalAddress

  function TableName(fc: int): Option<string> {
    if fc == 1 || fc == 5 || fc == 15 then Some("coil")
    else if fc == 2 then Some("discrete")
    else if fc == 3 || fc == 6 || fc == 16 || fc == 22 || fc == 23 then Some("holding")
    else if fc == 4 then Some("input")
    else None
  }

  /** The function codes a master can write with. */
  predicate WriteCode(fc: int) {
    fc == 5 || fc == 6 || fc == 15 || fc == 16 || fc == 22 || fc == 23
  }

  function Select(tables: Tables, fc: int): Result<string, ExcCode> {
    match TableName(fc)
    case None => Err(IllegalFunction)
    case Some(name) => if name in tables then Ok(name) else Err(IllegalAddress)
  }

  predicate Mapped(table: map<int, int>, address: int, count: nat) {
    forall a :: address <= a < address + count ==> a in table
  }

  function Written(table: map<int, int>, address: int, values: seq<int>): map<int, int> {
    map a | a in table :: if address <= a < address + |values| then values[a - address] else table[a]
  }

  function Read(tables: Tables, fc: int, address: int, count: nat): Result<seq<int>, ExcCode> {
    var name :- Select(tables, fc);
    if !Mapped(tables[name], address, count) then Err(IllegalAddress)
    else Ok(seq(count, i requires 0 <= i < count => tables[name][address + i]))
  }

  /** All or nothing: an unmapped address anywhere refuses the whole write. */
  function Write(tables: Tables, fc: int, address: int, values: seq<int>): Result<Tables, ExcCode> {
    var name :- Select(tables, fc);
    if !Mapped(tables[name], address, |values|) then Err(IllegalAddress)
    else Ok(tables[name := Written(tables[name], address, values)])
  }

  class ImageTables {
    var tables: Tables

    constructor (tables: Tables)
      ensures this.tables == tables
    {
      this.tables := tables;
    }
  }

  /** The data store is the PLC's own memory, shared with the scan. */
  class PlcContext {
    const memory: ImageTables

    constructor (memory: ImageTables)
      ensures this.memory == memory
    {
      this.memory := memory;
    }

    method GetValues(fc: int, address: int, count: nat) returns (r: Result<seq<int>, ExcCode>)
      ensures r == Read(memory.tables, fc, address, count)
      ensures forall name :: ReadAnswer(memory.tables, fc, address, count, name, r)
      ensures !(1 <= fc <= 6 || fc in {15, 16, 22, 23}) ==> r == Err(IllegalFunction)
    {
      forall name
        ensures ReadAnswer(memory.tables, fc, address, count, name, Read(memory.tables, fc, address, count))
      {
        ReadIsAnswered(memory.tables, fc, address, count, name);
      }
      ReadIsAnswered(memory.tables, fc, address, count, "");
      var selected := Select(memory.tables, fc);
      if selected.Err? {
        return Err(selected.error);
      }
      var table := memory.tables[selected.value];
      var values: seq<int> := [];
      for i := 0 to count
        invariant |values| == i && Mapped(table, address, i)
        invariant forall j :: 0 <= j < i ==> values[j] == table[address + j]
      {
        if address + i !in table {
          assert !Mapped(table, address, count);
          return Err(IllegalAddress);
        }
        values := values + [table[address + i]];
      }
      assert values == Read(memory.tables, fc, address, count).value;
      r := Ok(values);
    }

    method SetValues(fc: int, address: int, values: seq<int>) returns (r: Option<ExcCode>)
      modifies memory
      ensures match Write(old(memory.tables), fc, address, values)
              case Ok(after) => r == None && memory.tables == after
              case Err(code) => r == Some(code) && memory.tables == old(memory.tables)
    {
      var selected := Select(memory.tables, fc);
      if selected.Err? {
        return Some(selected.error);
      }
      var name := selected.value;
      for offset := 0 to |values|
        invariant Mapped(memory.tables[name], address, offset)
      {
        if address + offset !in memory.tables[name] {
          assert !Mapped(memory.tables[name], address, |values|);
          return Some(IllegalAddress);
        }
      }
      ghost var before := memory.tables;
      assert Written(before[name], address, []) == before[name];
      for offset := 0 to |values|
        invariant memory.tables.Keys == before.Keys && name in before
        invariant memory.tables == before[name := Written(before[name], address, values[..offset])]
      {
        assert address + offset in before[name];
        var table := memory.tables[name][address + offset := values[offset]];
        assert table == Written(before[name], address, values[..offset + 1]);
        memory.tables := memory.tables[name := table];
      }
      assert values[..|values|] == values;
      r := None;
    }
  }

  // ------------------------------------------------------------- the answers

  /** The codes of each table, as numbers on the wire. */
  predicate Reaches(fc: int, name: string) {
    (name == "coil" && fc in {1, 5, 15}) || (name == "discrete" && fc == 2)
    || (name == "holding" && fc in {3, 6, 16, 22, 23}) || (name == "input" && fc == 4)
  }

  /** Every register of the span exists in this table. */
  predicate Exists(tables: Tables, name: string, address: int, count: nat) {
    name in tables && forall a :: address <= a < address + count ==> a in tables[name]
  }

  /** What a read of a code that reaches this table must answer. */
  predicate ReadAnswer(tables: Tables, fc: int, address: int, count: nat, name: string, r: Result<seq<int>, ExcCode>) {
    Reaches(fc, name) ==>
      if Exists(tables, name, address, count)
      then r.Ok? && |r.value| == count && forall i :: 0 <= i < count ==> r.value[i] == tables[name][address + i]
      else r == Err(IllegalAddress)
  }

  lemma ReachesIsTableName(fc: int, name: string)
    ensures Reaches(fc, name) <==> TableName(fc) == Some(name)
  {
  }

  /** For every function code, address and count a read is answered by the registers
      themselves exactly when the code is one of some table's and all of them exist;
      no such code is IllegalFunction, and a missing table or register IllegalAddress. */
  lemma ReadIsAnswered(tables: Tables, fc: int, address: int, count: nat, name: string)
    ensures ReadAnswer(tables, fc, address, count, name, Read(tables, fc, address, count))
    ensures !(1 <= fc <= 6 || fc in {15, 16, 22, 23}) ==> Read(tables, fc, address, count) == Err(IllegalFunction)
    ensures 1 <= fc <= 6 || fc in {15, 16, 22, 23} ==> exists t :: Reaches(fc, t)
  {
    ReachesIsTableName(fc, name);
    if TableName(fc).Some? {
      assert Reaches(fc, TableName(fc).value);
    }
  }

  /** A write is refused for the same reasons and otherwise puts its values there, in
      that table and nowhere else. */
  lemma WriteIsAnswered(tables: Tables, fc: int, address: int, values: seq<int>, name: string)
    ensures var r := Write(tables, fc, address, values);
            (Reaches(fc, name) && Exists(tables, name, address, |values|) ==>
               r.Ok? && r.value.Keys == tables.Keys && r.value[name].Keys == tables[name].Keys
               && (forall i :: 0 <= i < |values| ==> r.value[name][address + i] == values[i])
               && (forall a :: a in tables[name] && !(address <= a < address + |values|) ==> r.value[name][a] == tables[name][a])
               && (forall t :: t in tables && t != name ==> r.value[t] == tables[t]))
            && (Reaches(fc, name) && !Exists(tables, name, address, |values|) ==> r == Err(IllegalAddress))
            && (!(1 <= fc <= 6 || fc in {15, 16, 22, 23}) ==> r == Err(IllegalFunction))
  {
    ReachesIsTableName(fc, name);
  }

  /** An accepted write is what the next read of the same registers returns, and
      what reads of other registers never see. */
  lemma ReadAfterWrite(tables: Tables, address: int, values: seq<int>, other: int, count: nat)
    requires Write(tables, 16, address, values).Ok?
    ensures Read(Write(tables, 16, address, values).value, 3, address, |values|) == Ok(values)
    ensures other + count <= address || address + |values| <= other ==>
              Read(Write(tables, 16, address, values).value, 3, other, count) == Read(tables, 3, other, count)
    ensures forall fc :: TableName(fc) != Some("holding") ==>
              Read(Write(tables, 16, address, values).value, fc, other, count) == Read(tables, fc, other, count)
  {
    var after := Write(tables, 16, address, values).value;
    assert after["holding"].Keys == tables["holding"].Keys;
    assert Read(after, 3, address, |values|).value == values;
    if (other + count <= address || address + |values| <= other) && Read(tables, 3, other, count).Ok? {
      assert Read(after, 3, other, count).value == Read(tables, 3, other, count).value;
    }
  }

  /** No write function code reaches the input or discrete tables, and no write
      adds or removes a register. */
  lemma WritesStayInTheirTables(tables: Tables, fc: int, address: int, values: seq<int>, after: Tables)
    requires WriteCode(fc) && Write(tables, fc, address, values) == Ok(after)
    ensures after.Keys == tables.Keys
    ensures forall t :: t in tables ==> after[t].Keys == tables[t].Keys
    ensures forall t :: t in tables && t != "holding" && t != "coil" ==> after[t] == tables[t]
    ensures forall t, a :: t in tables && a in tables[t] ==>
              after[t][a] == tables[t][a] || after[t][a] in values
  {
  }
}
