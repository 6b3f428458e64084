/** The command handshake as an event system: one gateway running
    CommandHandshake.invoke, the PLC's scan, one rogue master, and any number
    of further masters, all sharing the command and acknowledgement blocks.

    Every event is one atomic step: a Modbus transaction on the image tables,
    or one whole scan. Anything may happen between two events. */
module Handshake {
  import opened Wrappers
  import opened Commands

  const SEQ_MIN := 1
  const SEQ_MAX := 0xFFFF

  function NextSeq(current: int): int {
    if current >= SEQ_MAX then SEQ_MIN
    else if current + 1 < SEQ_MIN then SEQ_MIN
    else current + 1
  }

  /** The four registers of the command block. */
  datatype Command = Command(code: int, argLo: int, argHi: int, number: int)

  datatype Blocks = Blocks(cmd: Command, ackSeq: int, ackResult: int)

  /** Nothing is waiting for the next scan. */
  predicate Quiescent(b: Blocks) {
    b.cmd.number == b.ackSeq
  }

  /** What invoke puts on the wire: Python's `&` and `>>` floor, as do `%` and
      `/` with a positive divisor. */
  function CommandOf(code: int, arg0: int, number: int): Command {
    Command(code, arg0 % 0x1_0000, arg0 / 0x1_0000 % 0x1_0000, number)
  }

  lemma ArgumentSurvives(code: int, arg0: int, number: int)
    ensures var c := CommandOf(code, arg0, number);
            c.argLo + 0x1_0000 * c.argHi == arg0 % 0x1_0000_0000
            && 0 <= c.argLo < 0x1_0000 && 0 <= c.argHi < 0x1_0000
  {
    var q := arg0 / 0x1_0000;
    assert arg0 == 0x1_0000 * q + arg0 % 0x1_0000;
    assert q == 0x1_0000 * (q / 0x1_0000) + q % 0x1_0000;
    assert arg0 == 0x1_0000_0000 * (q / 0x1_0000) + (0x1_0000 * (q % 0x1_0000) + arg0 % 0x1_0000);
  }

  /** Where the gateway stands inside invoke. */
  datatype Phase =
    | Ready
    | Reading(code: int, arg0: int)
    | Writing(cmd: Command)
    | Replying(cmd: Command)
    | Polling(cmd: Command)

  /** `sent` is the last FC16 write that reached the PLC, which the transport may
      repeat; `rogue` is the ack_seq the rogue has read but not yet used. */
  datatype System = System(blocks: Blocks, issued: Option<int>, phase: Phase,
                           sent: Option<Command>, rogue: Option<int>)

  datatype Event =
    // the gateway
    | Invoke(code: int, arg0: int)
    | ReadOk
    | ReadFails
    | WriteLands
    | WriteFails
    | WriteReplies
    | PollOk
    | PollFails
    | Deadline
    // the transport repeating the gateway's last write
    | Retransmit
    // the PLC
    | Scan(fault: bool, cnc: CncState)
    // other masters
    | RogueReads
    | RogueWrites(code: int)
    | Foreign(cmd: Command)
    | Forge(cmd: Command, ackSeq: int, ackResult: int)
    // whatever touches neither block
    | Elsewhere

  predicate Contends(s: System) {
    s.issued.Some? && s.blocks.ackSeq != s.issued.value
  }

  predicate Enabled(s: System, e: Event) {
    match e
    case Invoke(_, _) => s.phase.Ready?
    case ReadOk | ReadFails => s.phase.Reading?
    case WriteLands | WriteFails => s.phase.Writing?
    case WriteReplies => s.phase.Replying?
    case PollOk | PollFails | Deadline => s.phase.Polling?
    case Retransmit => s.sent.Some?
    case RogueReads => s.rogue.None?
    case RogueWrites(_) => s.rogue.Some?
    case Scan(_, _) | Foreign(_) | Forge(_, _, _) | Elsewhere => true
  }

  function ScanBlocks(b: Blocks, fault: bool, cnc: CncState): Blocks {
    if Quiescent(b) then b
    else b.(ackSeq := b.cmd.number, ackResult := CommandResult(b.cmd.code, fault, cnc))
  }

  function Next(s: System, e: Event): System
    requires Enabled(s, e)
  {
    match e
    case Invoke(code, arg0) => s.(phase := Reading(code, arg0))
    case ReadOk =>
      var current := s.blocks.ackSeq;
      if Contends(s) then s.(issued := Some(current), phase := Ready)
      else s.(phase := Writing(CommandOf(s.phase.code, s.phase.arg0, NextSeq(current))))
    case ReadFails | WriteFails | PollFails | Deadline => s.(phase := Ready)
    case WriteLands =>
      s.(blocks := s.blocks.(cmd := s.phase.cmd), sent := Some(s.phase.cmd), phase := Replying(s.phase.cmd))
    case WriteReplies => s.(issued := Some(s.phase.cmd.number), phase := Polling(s.phase.cmd))
    case PollOk => if s.blocks.ackSeq == s.phase.cmd.number then s.(phase := Ready) else s
    case Retransmit => s.(blocks := s.blocks.(cmd := s.sent.value))
    case Scan(fault, cnc) => s.(blocks := ScanBlocks(s.blocks, fault, cnc))
    case RogueReads => s.(rogue := Some(s.blocks.ackSeq))
    case RogueWrites(code) =>
      s.(blocks := s.blocks.(cmd := Command(code, 0, 0, (s.rogue.value + 1) % 0x1_0000)), rogue := None)
    case Foreign(cmd) => s.(blocks := s.blocks.(cmd := cmd))
    case Forge(cmd, ackSeq, ackResult) => s.(blocks := Blocks(cmd, ackSeq, ackResult))
    case Elsewhere => s
  }

  /** This scan runs the command it finds. */
  predicate Executes(s: System, e: Event) {
    e.Scan? && !Quiescent(s.blocks)
  }

  /** This poll makes invoke return. */
  predicate Returns(s: System, e: Event) {
    e.PollOk? && s.phase.Polling? && s.blocks.ackSeq == s.phase.cmd.number
  }

  /** This read makes invoke raise CommandContended. */
  predicate Refuses(s: System, e: Event) {
    e.ReadOk? && s.phase.Reading? && Contends(s)
  }

  /** tr[t] is the state before event ev[t]; the last state follows the last event. */
  ghost predicate IsRun(tr: seq<System>, ev: seq<Event>) {
    |tr| == |ev| + 1
    && forall t :: 0 <= t < |ev| ==> Enabled(tr[t], ev[t]) && tr[t + 1] == Next(tr[t], ev[t])
  }

  /** The number of commands executed by events a..b. */
  function Executions(tr: seq<System>, ev: seq<Event>, a: nat, b: nat): nat
    requires a <= b <= |ev| <= |tr|
    decreases b
  {
    if a == b then 0
    else Executions(tr, ev, a, b - 1) + if Executes(tr[b - 1], ev[b - 1]) then 1 else 0
  }

  // ------------------------------------------------ at most once per write

  /** A step that is not a scan and leaves a different number in the command seq
      or the ack seq register. */
  predicate ChangesSeq(s: System, e: Event)
    requires Enabled(s, e)
  {
    !e.Scan?
    && (Next(s, e).blocks.cmd.number != s.blocks.cmd.number || Next(s, e).blocks.ackSeq != s.blocks.ackSeq)
  }

  /** The write at w is what the scan at k acts on: no other scan lies between. */
  ghost predicate Causes(tr: seq<System>, ev: seq<Event>, w: nat, k: nat)
    requires IsRun(tr, ev)
  {
    w < k < |ev| && Executes(tr[k], ev[k]) && ChangesSeq(tr[w], ev[w])
    && forall x :: w < x < k ==> !ev[x].Scan?
  }

  lemma ScanSettles(s: System, e: Event)
    requires e.Scan?
    ensures Quiescent(Next(s, e).blocks)
    ensures Next(s, e).blocks.cmd == s.blocks.cmd
    ensures !Executes(s, e) ==> Next(s, e) == s
  {
  }

  lemma {:induction false} PendingHasACause(tr: seq<System>, ev: seq<Event>, k: nat)
    requires IsRun(tr, ev) && Quiescent(tr[0].blocks)
    requires k <= |ev| && !Quiescent(tr[k].blocks)
    ensures exists w: nat :: w < k && ChangesSeq(tr[w], ev[w]) && forall x :: w < x < k ==> !ev[x].Scan?
    decreases k
  {
    var p := k - 1;
    assert tr[k] == Next(tr[p], ev[p]);
    if ChangesSeq(tr[p], ev[p]) {
    } else {
      PendingHasACause(tr, ev, p);
    }
  }

  /** Whatever any number of masters write, the ack block included: every
      executed command was caused by a write since the previous scan, and two
      executions never share a cause. */
  lemma ExecutionsMapToWrites(tr: seq<System>, ev: seq<Event>)
    requires IsRun(tr, ev) && Quiescent(tr[0].blocks)
    ensures forall k: nat :: k < |ev| && Executes(tr[k], ev[k]) ==> exists w: nat :: Causes(tr, ev, w, k)
    ensures forall w: nat, k: nat, w': nat, k': nat ::
              Causes(tr, ev, w, k) && Causes(tr, ev, w', k') && k < k' ==> w < k < w' < k'
  {
    forall k: nat | k < |ev| && Executes(tr[k], ev[k])
      ensures exists w: nat :: Causes(tr, ev, w, k)
    {
      PendingHasACause(tr, ev, k);
      var w: nat :| w < k && ChangesSeq(tr[w], ev[w]) && forall x :: w < x < k ==> !ev[x].Scan?;
      assert Causes(tr, ev, w, k);
    }
  }

  function SeqWrites(tr: seq<System>, ev: seq<Event>, a: nat, b: nat): nat
    requires a <= b <= |ev| <= |tr|
    requires forall t :: 0 <= t < |ev| ==> Enabled(tr[t], ev[t])
    decreases b
  {
    if a == b then 0
    else SeqWrites(tr, ev, a, b - 1) + if ChangesSeq(tr[b - 1], ev[b - 1]) then 1 else 0
  }

  /** The same as a count, over any stretch of any run; a command already
      waiting at the start of the stretch accounts for at most one more. */
  lemma {:induction false} AtMostOncePerWrite(tr: seq<System>, ev: seq<Event>, a: nat, b: nat)
    requires IsRun(tr, ev) && a <= b <= |ev|
    ensures Executions(tr, ev, a, b) + (if Quiescent(tr[b].blocks) then 0 else 1)
            <= SeqWrites(tr, ev, a, b) + (if Quiescent(tr[a].blocks) then 0 else 1)
    decreases b
  {
    if a < b {
      AtMostOncePerWrite(tr, ev, a, b - 1);
      assert tr[b] == Next(tr[b - 1], ev[b - 1]);
    }
  }
}
