/** CommandHandshake.invoke and RogueMaster.command as programs, proved to be
    runs of the event system. What the rest of the plant does while they await
    is given by a schedule, so a contract holds for every interleaving. */
module Masters {
  import opened Wrappers
  import opened Commands
  import opened Handshake

  // ------------------------------------------------------------ event lists

  ghost predicate Leads(s: System, ev: seq<Event>, s': System)
    decreases |ev|
  {
    if ev == [] then s == s'
    else Enabled(s, ev[0]) && Leads(Next(s, ev[0]), ev[1..], s')
  }

  lemma {:induction false} LeadsThen(s: System, ev: seq<Event>, mid: System, e: Event)
    requires Leads(s, ev, mid) && Enabled(mid, e)
    ensures Leads(s, ev + [e], Next(mid, e))
    decreases |ev|
  {
    if ev == [] {
      assert [] + [e] == [e];
      assert [e][1..] == [];
    } else {
      LeadsThen(Next(s, ev[0]), ev[1..], mid, e);
      assert (ev + [e])[1..] == ev[1..] + [e];
    }
  }

  lemma {:induction false} LeadsOn(s: System, ev: seq<Event>, mid: System, ev': seq<Event>, s': System)
    requires Leads(s, ev, mid) && Leads(mid, ev', s')
    ensures Leads(s, ev + ev', s')
    decreases |ev|
  {
    if ev == [] {
      assert [] + ev' == ev';
    } else {
      LeadsOn(Next(s, ev[0]), ev[1..], mid, ev', s');
      assert (ev + ev')[1..] == ev[1..] + ev';
    }
  }

  /** So every theorem about runs is a theorem about these programs. */
  lemma {:induction false} LeadsIsARun(s: System, ev: seq<Event>, s': System)
    requires Leads(s, ev, s')
    ensures exists tr: seq<System> :: IsRun(tr, ev) && tr[0] == s && tr[|ev|] == s'
    decreases |ev|
  {
    if ev == [] {
      assert IsRun([s], ev);
    } else {
      LeadsIsARun(Next(s, ev[0]), ev[1..], s');
      var rest: seq<System> :| IsRun(rest, ev[1..]) && rest[0] == Next(s, ev[0]) && rest[|ev| - 1] == s';
      var tr := [s] + rest;
      forall t | 0 <= t < |ev|
        ensures Enabled(tr[t], ev[t]) && tr[t + 1] == Next(tr[t], ev[t])
      {
        if t > 0 {
          assert ev[1..][t - 1] == ev[t] && tr[t] == rest[t - 1] && tr[t + 1] == rest[t];
        }
      }
      assert IsRun(tr, ev);
    }
  }

  // --------------------------------------------------------- the shared PLC

  predicate FromElsewhere(e: Event) {
    e == Retransmit || e.Scan? || e.RogueReads? || e.RogueWrites? || e.Foreign? || e.Forge? || e.Elsewhere?
  }

  /** The registers both masters reach, and what the transport and the rogue
      remember about them. */
  class Wire {
    var blocks: Blocks
    var sent: Option<Command>
    var rogue: Option<int>

    constructor ()
      ensures blocks == Blocks(Command(0, 0, 0, 0), 0, 0) && sent == None && rogue == None
    {
      blocks := Blocks(Command(0, 0, 0, 0), 0, 0);
      sent, rogue := None, None;
    }

    function Seen(issued: Option<int>, phase: Phase): System
      reads this
    {
      System(blocks, issued, phase, sent, rogue)
    }

    /** Everybody else's turn; what is not possible in the current state, or is
        not theirs to do, does not happen. */
    method Others(turn: seq<Event>, rogueToo: bool, ghost issued: Option<int>, ghost phase: Phase)
      returns (ghost ev: seq<Event>)
      modifies this
      ensures Leads(old(Seen(issued, phase)), ev, Seen(issued, phase))
      ensures forall e :: e in ev ==> e in turn && FromElsewhere(e) && (rogueToo || !(e.RogueReads? || e.RogueWrites?))
      ensures !rogueToo ==> rogue == old(rogue)
    {
      ev := [];
      for n := 0 to |turn|
        invariant Leads(old(Seen(issued, phase)), ev, Seen(issued, phase))
        invariant forall e :: e in ev ==> e in turn && FromElsewhere(e) && (rogueToo || !(e.RogueReads? || e.RogueWrites?))
        invariant !rogueToo ==> rogue == old(rogue)
      {
        var e := turn[n];
        if FromElsewhere(e) && (rogueToo || !(e.RogueReads? || e.RogueWrites?)) && Enabled(Seen(None, Ready), e) {
          var after := Next(Seen(None, Ready), e);
          LeadsThen(old(Seen(issued, phase)), ev, Seen(issued, phase), e);
          blocks, sent, rogue := after.blocks, after.sent, after.rogue;
          ev := ev + [e];
        }
      }
    }
  }

  // ------------------------------------------------------------ the gateway

  datatype Outcome =
    | Returned(result: int)
    | BadAnswer(value: int)
    | Contended(acknowledged: int, expected: int)
    | TimedOut(number: int)
    | LinkError

  /** One pass of the polling loop: what happens before the poll, and whether
      the poll's transaction succeeds. */
  datatype Round = Round(before: seq<Event>, ok: bool)

  /** Everything invoke does not decide; the deadline passes after the last round. */
  datatype Schedule = Schedule(beforeRead: seq<Event>, readOk: bool,
                               beforeWrite: seq<Event>, writeOk: bool,
                               beforeReply: seq<Event>, rounds: seq<Round>)

  /** What the event that ends an invoke makes of it. */
  function OutcomeOf(s: System, e: Event): Option<Outcome> {
    match e
    case ReadOk =>
      if Refuses(s, e) then Some(Contended(s.blocks.ackSeq, s.issued.value)) else None
    case ReadFails | WriteFails | PollFails => Some(LinkError)
    case Deadline => if s.phase.Polling? then Some(TimedOut(s.phase.cmd.number)) else None
    case PollOk =>
      if !Returns(s, e) then None
      else if OK <= s.blocks.ackResult <= BUSY then Some(Returned(s.blocks.ackResult))
      else Some(BadAnswer(s.blocks.ackResult))
    case _ => None
  }

  /** Every transaction of the polling loop succeeds. */
  predicate PollsSucceed(plan: Schedule) {
    forall n :: 0 <= n < |plan.rounds| ==> plan.rounds[n].ok
  }

  /** One of the gateway's own steps inside an invoke: a transaction fails only where
      the schedule says so, and the deadline passes only after all the polls. */
  predicate OwnStep(plan: Schedule, e: Event) {
    match e
    case ReadOk => plan.readOk
    case ReadFails => !plan.readOk
    case WriteLands => plan.writeOk
    case WriteFails => !plan.writeOk
    case WriteReplies | PollOk => true
    case PollFails => !PollsSucceed(plan)
    case Deadline => PollsSucceed(plan)
    case _ => false
  }

  predicate InRounds(rounds: seq<Round>, e: Event) {
    exists n :: 0 <= n < |rounds| && e in rounds[n].before
  }

  predicate InSchedule(plan: Schedule, e: Event) {
    e in plan.beforeRead || e in plan.beforeWrite || e in plan.beforeReply || InRounds(plan.rounds, e)
  }

  /** A turn of other parties that the schedule provides for. */
  ghost predicate Scheduled(plan: Schedule, turn: seq<Event>) {
    forall e :: e in turn ==> FromElsewhere(e) && InSchedule(plan, e)
  }

  /** After its first event an invoke is only its own steps and what the schedule
      has other parties do. */
  ghost predicate OwnOrScheduled(ev: seq<Event>, plan: Schedule) {
    forall x :: 0 < x < |ev| ==> OwnStep(plan, ev[x]) || (FromElsewhere(ev[x]) && InSchedule(plan, ev[x]))
  }

  /** An invoke under way: from `start` these events lead to `now`. */
  ghost predicate Progress(start: System, ev: seq<Event>, now: System, call: Event, plan: Schedule) {
    |ev| >= 1 && ev[0] == call && Leads(start, ev, now) && OwnOrScheduled(ev, plan)
  }

  /** An invoke over: its last event, in state `last`, decides the outcome. */
  ghost predicate Finished(start: System, ev: seq<Event>, last: System, now: System, call: Event, plan: Schedule,
                           outcome: Outcome)
  {
    |ev| >= 2 && Progress(start, ev[..|ev| - 1], last, call, plan) && OwnOrScheduled(ev, plan)
    && Enabled(last, ev[|ev| - 1]) && now == Next(last, ev[|ev| - 1])
    && OwnStep(plan, ev[|ev| - 1]) && OutcomeOf(last, ev[|ev| - 1]) == Some(outcome)
  }

  lemma OthersActed(start: System, ev: seq<Event>, mid: System, turn: seq<Event>, now: System, call: Event, plan: Schedule)
    requires Progress(start, ev, mid, call, plan) && Leads(mid, turn, now) && Scheduled(plan, turn)
    ensures Progress(start, ev + turn, now, call, plan)
  {
    LeadsOn(start, ev, mid, turn, now);
    forall x | 0 < x < |ev + turn|
      ensures OwnStep(plan, (ev + turn)[x]) || (FromElsewhere((ev + turn)[x]) && InSchedule(plan, (ev + turn)[x]))
    {
      if x >= |ev| {
        assert (ev + turn)[x] in turn;
      }
    }
  }

  lemma Acted(start: System, ev: seq<Event>, mid: System, e: Event, call: Event, plan: Schedule)
    requires Progress(start, ev, mid, call, plan) && OwnStep(plan, e) && Enabled(mid, e)
    ensures Progress(start, ev + [e], Next(mid, e), call, plan)
  {
    LeadsThen(start, ev, mid, e);
  }

  lemma Ended(start: System, ev: seq<Event>, mid: System, e: Event, now: System, call: Event, plan: Schedule, outcome: Outcome)
    requires Progress(start, ev, mid, call, plan) && OwnStep(plan, e) && Enabled(mid, e) && now == Next(mid, e)
    requires OutcomeOf(mid, e) == Some(outcome)
    ensures Finished(start, ev + [e], mid, now, call, plan, outcome)
  {
    assert (ev + [e])[..|ev|] == ev;
  }

  /** What the caller learns from this event, in this state, when it ends an invoke. */
  predicate Tells(last: System, e: Event, outcome: Outcome) {
    match outcome
    case Returned(result) =>
      e == PollOk && last.phase.Polling? && last.blocks.ackSeq == last.phase.cmd.number
      && last.blocks.ackResult == result && 0 <= result <= 3
    case BadAnswer(value) =>
      e == PollOk && last.phase.Polling? && last.blocks.ackSeq == last.phase.cmd.number
      && last.blocks.ackResult == value && !(0 <= value <= 3)
    case Contended(acknowledged, expected) =>
      e == ReadOk && last.blocks.ackSeq == acknowledged && last.issued == Some(expected) && acknowledged != expected
    case TimedOut(number) => e == Deadline && last.phase.Polling? && last.phase.cmd.number == number
    case LinkError => e == ReadFails || e == WriteFails || e == PollFails
  }

  /** The outcome is what the deciding event tells, and no other. */
  lemma OutcomeTells(last: System, e: Event, outcome: Outcome)
    requires Enabled(last, e)
    ensures OutcomeOf(last, e) == Some(outcome) <==> Tells(last, e, outcome)
  {
  }

  lemma FinishedTells(start: System, ev: seq<Event>, last: System, now: System, call: Event, plan: Schedule, outcome: Outcome)
    requires Finished(start, ev, last, now, call, plan, outcome)
    ensures |ev| > 0 && Tells(last, ev[|ev| - 1], outcome)
    ensures plan.readOk && plan.writeOk && PollsSucceed(plan) ==> outcome != LinkError
  {
    OutcomeTells(last, ev[|ev| - 1], outcome);
  }

  class CommandHandshake {
    const wire: Wire
    var issued: Option<int>

    constructor (wire: Wire)
      ensures this.wire == wire && issued == None
    {
      this.wire := wire;
      issued := None;
    }

    function Now(phase: Phase): System
      reads this, wire
    {
      wire.Seen(issued, phase)
    }

    /** The program is a run of the event system: it starts with the invoke, ends
        with the event that decides the outcome, and in between there are only
        the gateway's own steps and the schedule's events. */
    method Invoke(code: int, arg0: int, plan: Schedule) returns (outcome: Outcome, ghost ev: seq<Event>, ghost last: System)
      modifies this`issued, wire
      ensures Finished(old(Now(Ready)), ev, last, Now(Ready), Event.Invoke(code, arg0), plan, outcome)
      ensures Tells(last, ev[|ev| - 1], outcome)
      ensures plan.readOk && plan.writeOk && PollsSucceed(plan) ==> outcome != LinkError
    {
      ghost var start := Now(Ready);
      var refused, cmd;
      refused, cmd, ev, last := ReadAndNumber(code, arg0, plan);
      if refused.Some? {
        FinishedTells(start, ev, last, Now(Ready), Event.Invoke(code, arg0), plan, refused.value);
        return refused.value, ev, last;
      }
      var failed;
      failed, ev, last := WriteCommand(cmd, plan, start, ev, Event.Invoke(code, arg0));
      if failed.Some? {
        FinishedTells(start, ev, last, Now(Ready), Event.Invoke(code, arg0), plan, failed.value);
        return failed.value, ev, last;
      }
      outcome, ev, last := AwaitAck(cmd, plan, start, ev, Event.Invoke(code, arg0));
      FinishedTells(start, ev, last, Now(Ready), Event.Invoke(code, arg0), plan, outcome);
    }

    /** Read the acknowledged number; refuse if it is not the one last issued, and
        otherwise number the command from it. */
    method ReadAndNumber(code: int, arg0: int, plan: Schedule)
      returns (refused: Option<Outcome>, cmd: Command, ghost ev: seq<Event>, ghost last: System)
      modifies this`issued, wire
      ensures refused.Some? ==> Finished(old(Now(Ready)), ev, last, Now(Ready), Event.Invoke(code, arg0), plan, refused.value)
      ensures refused.None? ==> Progress(old(Now(Ready)), ev, Now(Writing(cmd)), Event.Invoke(code, arg0), plan)
    {
      ghost var start, call := Now(Ready), Event.Invoke(code, arg0);
      cmd := Command(0, 0, 0, 0);
      ev, last := [call], start.(phase := Reading(code, arg0));
      LeadsThen(start, [], start, call);
      assert [] + [call] == ev;

      ghost var turn := wire.Others(plan.beforeRead, true, issued, Reading(code, arg0));
      OthersActed(start, ev, last, turn, Now(Reading(code, arg0)), call, plan);
      ev, last := ev + turn, Now(Reading(code, arg0));
      if !plan.readOk {
        Ended(start, ev, last, ReadFails, Now(Ready), call, plan, LinkError);
        ev := ev + [ReadFails];
        return Some(LinkError), cmd, ev, last;
      }
      var current := wire.blocks.ackSeq;

      if issued.Some? && current != issued.value {
        var expected := issued.value;
        issued := Some(current);
        Ended(start, ev, last, ReadOk, Now(Ready), call, plan, Contended(current, expected));
        ev := ev + [ReadOk];
        return Some(Contended(current, expected)), cmd, ev, last;
      }

      cmd := Command(code, arg0 % 0x1_0000, arg0 / 0x1_0000 % 0x1_0000, NextSeq(current));
      Acted(start, ev, last, ReadOk, call, plan);
      ev, last := ev + [ReadOk], Now(Writing(cmd));
      refused := None;
    }

    /** One write of the whole block; the number counts as issued once it returns. */
    method WriteCommand(cmd: Command, plan: Schedule, ghost start: System, ghost begun: seq<Event>, ghost call: Event)
      returns (failed: Option<Outcome>, ghost ev: seq<Event>, ghost last: System)
      requires Progress(start, begun, Now(Writing(cmd)), call, plan)
      modifies this`issued, wire
      ensures failed.Some? ==> Finished(start, ev, last, Now(Ready), call, plan, failed.value)
      ensures failed.None? ==> Progress(start, ev, Now(Polling(cmd)), call, plan)
    {
      ghost var turn := wire.Others(plan.beforeWrite, true, issued, Writing(cmd));
      OthersActed(start, begun, old(Now(Writing(cmd))), turn, Now(Writing(cmd)), call, plan);
      ev, last := begun + turn, Now(Writing(cmd));
      if !plan.writeOk {
        Ended(start, ev, last, WriteFails, Now(Ready), call, plan, LinkError);
        ev := ev + [WriteFails];
        return Some(LinkError), ev, last;
      }
      wire.blocks := wire.blocks.(cmd := cmd);
      wire.sent := Some(cmd);
      Acted(start, ev, last, WriteLands, call, plan);
      ev, last := ev + [WriteLands], Now(Replying(cmd));

      turn := wire.Others(plan.beforeReply, true, issued, Replying(cmd));
      OthersActed(start, ev, last, turn, Now(Replying(cmd)), call, plan);
      ev, last := ev + turn, Now(Replying(cmd));
      issued := Some(cmd.number);
      Acted(start, ev, last, WriteReplies, call, plan);
      ev, last := ev + [WriteReplies], Now(Polling(cmd));
      failed := None;
    }

    /** Poll the acknowledgement until it carries the number or the deadline has
        passed. */
    method AwaitAck(cmd: Command, plan: Schedule, ghost start: System, ghost begun: seq<Event>, ghost call: Event)
      returns (outcome: Outcome, ghost ev: seq<Event>, ghost last: System)
      requires Progress(start, begun, Now(Polling(cmd)), call, plan)
      modifies wire
      ensures Finished(start, ev, last, Now(Ready), call, plan, outcome)
      ensures outcome.TimedOut? ==> outcome.number == cmd.number && PollsSucceed(plan)
      ensures outcome == LinkError ==> !PollsSucceed(plan)
    {
      ev, last := begun, Now(Polling(cmd));
      for n := 0 to |plan.rounds|
        invariant last == Now(Polling(cmd)) && Progress(start, ev, last, call, plan)
        invariant forall m :: 0 <= m < n ==> plan.rounds[m].ok
      {
        ghost var turn := wire.Others(plan.rounds[n].before, true, issued, Polling(cmd));
        OthersActed(start, ev, last, turn, Now(Polling(cmd)), call, plan);
        ev, last := ev + turn, Now(Polling(cmd));
        if !plan.rounds[n].ok {
          Ended(start, ev, last, PollFails, Now(Ready), call, plan, LinkError);
          ev := ev + [PollFails];
          return LinkError, ev, last;
        }
        if wire.blocks.ackSeq == cmd.number {
          var result := wire.blocks.ackResult;
          outcome := if OK <= result <= BUSY then Returned(result) else BadAnswer(result);
          Ended(start, ev, last, PollOk, Now(Ready), call, plan, outcome);
          ev := ev + [PollOk];
          return;
        }
        Acted(start, ev, last, PollOk, call, plan);
        ev := ev + [PollOk];
      }

      Ended(start, ev, last, Deadline, Now(Ready), call, plan, TimedOut(cmd.number));
      ev := ev + [Deadline];
      outcome := TimedOut(cmd.number);
    }
  }

  // -------------------------------------------------------------- the rogue

  class RogueMaster {
    const wire: Wire

    constructor (wire: Wire)
      ensures this.wire == wire
    {
      this.wire := wire;
    }

    /** Read, whatever happens meanwhile, write: the number written is one past
        the acknowledged number at the read, modulo 65536. */
    method Command(code: int, between: seq<Event>, ghost issued: Option<int>, ghost phase: Phase)
      returns (number: int, ghost ev: seq<Event>)
      requires wire.rogue == None
      modifies wire
      ensures number == (old(wire.blocks.ackSeq) + 1) % 0x1_0000
      ensures Leads(old(wire.Seen(issued, phase)), ev, wire.Seen(issued, phase))
      ensures |ev| >= 2 && ev[0] == RogueReads && ev[|ev| - 1] == RogueWrites(code)
      ensures forall x :: 0 < x < |ev| - 1 ==> ev[x] in between && FromElsewhere(ev[x]) && !ev[x].RogueWrites?
      ensures wire.blocks.cmd == Handshake.Command(code, 0, 0, number) && wire.rogue == None
    {
      ghost var start := wire.Seen(issued, phase);
      number := (wire.blocks.ackSeq + 1) % 0x1_0000;
      LeadsThen(start, [], start, RogueReads);
      wire.rogue := Some(wire.blocks.ackSeq);
      ev := [] + [RogueReads];
      ghost var mid := wire.Seen(issued, phase);
      ghost var turn := wire.Others(between, false, issued, phase);
      LeadsOn(start, ev, mid, turn, wire.Seen(issued, phase));
      ev := ev + turn;
      LeadsThen(start, ev, wire.Seen(issued, phase), RogueWrites(code));
      wire.blocks := wire.blocks.(cmd := Handshake.Command(code, 0, 0, number));
      wire.rogue := None;
      ev := ev + [RogueWrites(code)];
    }
  }
}
