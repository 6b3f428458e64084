/** The contract built from config/tags.yaml (src/contract/model.py). */
module Model {
  import opened Wrappers

  datatype RegType = Bool | UInt16 | Int16 | UInt32 | Int32 | Float32 | Unknown(name: string)

  /** Registers per declared type; an unknown type has no width. */
  function Width(t: RegType): nat
    requires !t.Unknown?
  {
    match t
    case Bool | UInt16 | Int16 => 1
    case UInt32 | Int32 | Float32 => 2
  }

  /** The addresses start..stop, as Python's range. */
  datatype Span = Span(start: int, stop: int) {
    predicate Has(a: int) {
      start <= a < stop
    }
  }

  datatype Mapping = Mapping(table: string, addr: int, typ: RegType, scale: real) {
    function Addresses(): Span
      requires !typ.Unknown?
    {
      Span(addr, addr + Width(typ))
    }
  }

  datatype Signal = Signal(name: string, modbus: Mapping, opcuaType: Option<string>, states: Option<map<int, string>>)

  /** Both blocks are holding registers: no contract field says otherwise. */
  datatype RegisterBlock = RegisterBlock(base: int, layout: seq<string>) {
    function Addresses(): Span {
      Span(base, base + |layout|)
    }
  }

  const BLOCK_TABLE := "holding"

  datatype Meta = Meta(wordOrder: string, byteOrder: string, scanPeriodMs: int, pollPeriodMs: int)

  datatype Contract = Contract(meta: Meta, signals: seq<Signal>, commandBlock: RegisterBlock, ackBlock: RegisterBlock)
}
