/** When invoke raises CommandContended: with the gateway alone, with one rogue
    beside it, and what a refused invoke leaves behind. */
module Contention {
  import opened Wrappers
  import opened Commands
  import opened Handshake
  import opened Soundness

  // ---------------------------------------- the gateway as the only master

  /** The invoke that read at i and wrote at w waited until d, and nothing has
      executed since its write. Either it still waits at t, or it gave up at d
      and up to t no other invoke got past its read. */
  ghost predicate Unanswered(tr: seq<System>, ev: seq<Event>, i: nat, w: nat, d: nat, t: nat)
    requires IsRun(tr, ev)
  {
    Landed(tr, ev, i, w, d) && d <= t < |tr|
    && (d < t ==> (ev[d] == Deadline || ev[d] == PollFails)
                  && forall x :: d < x <= t ==> tr[x].phase.Ready? || tr[x].phase.Reading?)
    && (forall x :: w < x < t ==> !Executes(tr[x], ev[x]))
    && tr[t].blocks.cmd == tr[w].phase.cmd
  }

  lemma UnansweredStep(tr: seq<System>, ev: seq<Event>, i: nat, w: nat, d: nat, p: nat) returns (d': nat)
    requires SoleMasterRun(tr, ev) && p < |ev| && Unanswered(tr, ev, i, w, d, p)
    requires CleanInv(tr[p]) && !Refuses(tr[p], ev[p]) && !Quiescent(tr[p].blocks) && !Quiescent(tr[p + 1].blocks)
    ensures Unanswered(tr, ev, i, w, d', p + 1)
  {
    assert SoleMaster(ev[p]) && tr[p + 1] == Next(tr[p], ev[p]);
    d' := if d < p || tr[p + 1].phase.Ready? then d else p + 1;
  }

  lemma {:induction false} PendingHasItsInvoke(tr: seq<System>, ev: seq<Event>, t: nat) returns (i: nat, w: nat, d: nat)
    requires SoleMasterRun(tr, ev) && t < |tr| && NotRefusedBefore(tr, ev, t)
    requires !Quiescent(tr[t].blocks)
    ensures Unanswered(tr, ev, i, w, d, t)
    decreases t
  {
    var p := t - 1;
    CleanInvHolds(tr, ev, p);
    assert tr[t] == Next(tr[p], ev[p]);
    if Quiescent(tr[p].blocks) {
      PhaseHasAHistory(tr, ev, p);
      i :| Opened(tr, ev, i, p);
      w, d := p, t;
    } else {
      i, w, d := PendingHasItsInvoke(tr, ev, p);
      d := UnansweredStep(tr, ev, i, w, d, p);
    }
  }

  /** With no other writer the first CommandContended is raised if and only if
      the command block is not quiescent at the read: the gateway's own last
      command is still unexecuted. The invoke that wrote it gave up waiting. A
      late acknowledgement that lands before the read never raises it. */
  lemma FirstRefusalIffPending(tr: seq<System>, ev: seq<Event>, t: nat)
    requires SoleMasterRun(tr, ev) && t < |ev| && NotRefusedBefore(tr, ev, t) && ev[t] == ReadOk
    ensures Refuses(tr[t], ev[t]) <==> !Quiescent(tr[t].blocks)
    ensures Refuses(tr[t], ev[t]) ==> exists i: nat, w: nat, d: nat :: d < t && Unanswered(tr, ev, i, w, d, t)
  {
    CleanInvHolds(tr, ev, t);
    assert Enabled(tr[t], ev[t]);
    if !Quiescent(tr[t].blocks) {
      var i, w, d := PendingHasItsInvoke(tr, ev, t);
      assert d < t;
    }
  }

  predicate LinkFailure(e: Event) {
    e == ReadFails || e == WriteFails || e == PollFails
  }

  lemma {:induction false} OneInvokeStays(tr: seq<System>, ev: seq<Event>, x: nat, y: nat)
    requires IsRun(tr, ev) && x < y < |ev| && ev[x].Invoke?
    requires forall z :: x < z <= y ==> tr[z].phase.Ready? || tr[z].phase.Reading?
    requires forall z :: x < z < y ==> !LinkFailure(ev[z]) && !Refuses(tr[z], ev[z])
    ensures tr[y].phase.Reading?
    decreases y
  {
    assert tr[y] == Next(tr[y - 1], ev[y - 1]);
    if y - 1 > x {
      OneInvokeStays(tr, ev, x, y - 1);
    }
  }

  /** If moreover no Modbus transaction has failed so far, that invoke is the immediately
      preceding one and it ended in CommandTimeout. */
  lemma FirstRefusalFollowsATimeout(tr: seq<System>, ev: seq<Event>, t: nat)
    requires SoleMasterRun(tr, ev) && t < |ev| && NotRefusedBefore(tr, ev, t) && Refuses(tr[t], ev[t])
    requires forall x :: 0 <= x < t ==> !LinkFailure(ev[x])
    ensures exists i: nat, w: nat, d: nat ::
              d < t && Unanswered(tr, ev, i, w, d, t) && ev[d] == Deadline
              && (forall x, y :: d < x < y < t && ev[x].Invoke? ==> !ev[y].Invoke?)
  {
    FirstRefusalIffPending(tr, ev, t);
    var i: nat, w: nat, d: nat :| d < t && Unanswered(tr, ev, i, w, d, t);
    forall x, y | d < x < y < t && ev[x].Invoke?
      ensures !ev[y].Invoke?
    {
      OneInvokeStays(tr, ev, x, y);
      assert Enabled(tr[y], ev[y]);
    }
  }

  // ------------------------------------- a link failure does as a timeout

  // Without a single timeout: STOP's first poll fails on the link, and the next
  // invoke is refused.

  function LostEvent(t: int): Event {
    if t == 0 then Invoke(STOP, 0)
    else if t == 1 || t == 6 then ReadOk
    else if t == 2 then WriteLands
    else if t == 3 then WriteReplies
    else if t == 4 then PollFails
    else Invoke(START, 0)
  }

  function LostState(t: int): System {
    System(
      if t <= 2 then Blocks(EMPTY, 0, 0) else Blocks(OLD_STOP, 0, 0),
      if t <= 3 then None else if t <= 6 then Some(1) else Some(0),
      if t == 1 then Reading(STOP, 0) else if t == 2 then Writing(OLD_STOP) else if t == 3 then Replying(OLD_STOP)
      else if t == 4 then Polling(OLD_STOP) else if t == 6 then Reading(START, 0) else Ready,
      if t <= 2 then None else Some(OLD_STOP),
      None)
  }

  lemma LostStep(t: nat)
    requires t < 7
    ensures Enabled(LostState(t), LostEvent(t)) && LostState(t + 1) == Next(LostState(t), LostEvent(t))
  {
  }

  /** The first refusal can follow a poll that failed on the link. */
  lemma AFailedPollCanContend(tr: seq<System>, ev: seq<Event>)
    requires tr == seq(8, t => LostState(t)) && ev == seq(7, t => LostEvent(t))
    ensures SoleMasterRun(tr, ev) && NotRefusedBefore(tr, ev, 6) && Refuses(tr[6], ev[6])
    ensures Deadline !in ev
  {
    forall t: nat | t < 7
      ensures Enabled(tr[t], ev[t]) && tr[t + 1] == Next(tr[t], ev[t])
    {
      LostStep(t);
    }
  }

  // ----------------------------------------------- after a refused invoke

  /** Between two reads of a gateway nobody disturbs: no other master, and the
      transport repeats only what the block already holds. */
  predicate Calm(s: System, e: Event) {
    SoleMaster(e) && e != ReadOk && (e.Retransmit? ==> s.sent == Some(s.blocks.cmd))
  }

  ghost predicate CalmFrom(tr: seq<System>, ev: seq<Event>, t: nat, r: nat)
    requires IsRun(tr, ev) && r <= |ev|
  {
    forall x :: t < x < r ==> Calm(tr[x], ev[x])
  }

  /** After a refusal at t and up to x: still the blocks that it saw, or what the
      one execution since has made of them. */
  lemma {:induction false} AfterRefusal(tr: seq<System>, ev: seq<Event>, t: nat, x: nat)
    requires IsRun(tr, ev) && t < x < |tr| && t < |ev| && Refuses(tr[t], ev[t]) && CalmFrom(tr, ev, t, x)
    ensures tr[x].phase.Ready? || tr[x].phase.Reading?
    ensures tr[x].issued == Some(tr[t].blocks.ackSeq) && tr[x].blocks.cmd == tr[t].blocks.cmd
    ensures (forall y :: t < y < x ==> !Executes(tr[y], ev[y])) ==> tr[x].blocks == tr[t].blocks
    ensures (exists y :: t < y < x && Executes(tr[y], ev[y])) ==>
              !Quiescent(tr[t].blocks) && Quiescent(tr[x].blocks)
    decreases x
  {
    assert tr[x] == Next(tr[x - 1], ev[x - 1]);
    if x - 1 > t {
      AfterRefusal(tr, ev, t, x - 1);
    }
  }

  /** What the resync of a refused invoke is worth, with nobody else about. It
      writes nothing. The retry is refused again if and only if a scan executed
      something in between, so never when the block was quiescent at the refusal;
      and when it is refused again the block is quiescent. */
  lemma RetryIsRefusedIff(tr: seq<System>, ev: seq<Event>, t: nat, r: nat)
    requires IsRun(tr, ev) && t < r < |ev| && Refuses(tr[t], ev[t]) && CalmFrom(tr, ev, t, r) && ev[r] == ReadOk
    ensures tr[t + 1] == tr[t].(issued := Some(tr[t].blocks.ackSeq), phase := Ready)
    ensures Refuses(tr[r], ev[r]) <==> exists x :: t < x < r && Executes(tr[x], ev[x])
    ensures Refuses(tr[r], ev[r]) ==> !Quiescent(tr[t].blocks) && Quiescent(tr[r].blocks)
  {
    AfterRefusal(tr, ev, t, r);
    assert Enabled(tr[r], ev[r]);
    if exists x :: t < x < r && Executes(tr[x], ev[x]) {
      assert tr[r].blocks.ackSeq == tr[t].blocks.cmd.number;
    }
  }

  /** So a retry can be refused once more, and the one after that cannot. */
  lemma ThirdAttemptIsNotRefused(tr: seq<System>, ev: seq<Event>, t: nat, r: nat, q: nat)
    requires IsRun(tr, ev) && t < r < q < |ev| && Refuses(tr[t], ev[t]) && Refuses(tr[r], ev[r])
    requires CalmFrom(tr, ev, t, r) && CalmFrom(tr, ev, r, q) && ev[r] == ReadOk && ev[q] == ReadOk
    ensures !Refuses(tr[q], ev[q])
  {
    RetryIsRefusedIff(tr, ev, t, r);
    RetryIsRefusedIff(tr, ev, r, q);
  }

  lemma {:induction false} BetweenReadAndWrite(tr: seq<System>, ev: seq<Event>, i: nat, w: nat, x: nat)
    requires IsRun(tr, ev) && Opened(tr, ev, i, w) && i < x <= w
    requires forall y :: i < y < x ==> Calm(tr[y], ev[y])
    requires forall y :: i <= y < x ==> !Executes(tr[y], ev[y])
    ensures tr[x].blocks == tr[i].blocks
    decreases x
  {
    assert tr[x] == Next(tr[x - 1], ev[x - 1]);
    assert tr[x].phase.Writing?;
    if x - 1 > i {
      assert tr[x - 1].phase.Writing?;
      BetweenReadAndWrite(tr, ev, i, w, x - 1);
    }
  }

  /** A retry goes through, if nobody disturbs it and no scan executes anything
      between the refusal and its write: it is not refused, and its next good
      poll after a scan returns the result of its own single execution. */
  lemma RetryGoesThrough(tr: seq<System>, ev: seq<Event>, t: nat, i: nat, w: nat, x: nat, j: nat)
    requires IsRun(tr, ev) && t < i < w < x < j < |ev| && Refuses(tr[t], ev[t])
    requires CalmFrom(tr, ev, t, i) && ev[i] == ReadOk && CalmFrom(tr, ev, i, w)
    requires forall y :: t < y < w ==> !Executes(tr[y], ev[y])
    requires forall y :: w < y < j ==> SoleMaster(ev[y])
    requires tr[w].phase.Writing? && ev[w] == WriteLands && (forall y :: i < y <= w ==> tr[y].phase == tr[w].phase)
    requires forall y :: w < y <= j ==> tr[y].phase.Replying? || tr[y].phase.Polling?
    requires ev[x].Scan? && tr[j].phase.Polling? && ev[j] == PollOk
    ensures !Refuses(tr[i], ev[i]) && InvokeSpan(tr, ev, i, w, j)
    ensures exists k: nat :: RanOnceAt(tr, ev, w, k, j)
  {
    RetryIsRefusedIff(tr, ev, t, i);
    assert Enabled(tr[i], ev[i]) && tr[i + 1] == Next(tr[i], ev[i]);
    assert Opened(tr, ev, i, w);
    WaitsFor(tr, ev, w, j);
    BetweenReadAndWrite(tr, ev, i, w, w);
    NextSeqDiffers(tr[i].blocks.ackSeq);
    assert Landed(tr, ev, i, w, j);
    WaitingNeverWrites(tr, ev, i, w, j);
    OwnWriteRunsAtMostOnce(tr, ev, w, x);
    OwnWriteRunsAtMostOnce(tr, ev, w, j);
  }

  /** With no other master that is exact: a retry that returns is genuine if and
      only if no scan executed anything between the refusal and its write. */
  lemma RetryIsGenuineIff(tr: seq<System>, ev: seq<Event>, t: nat, i: nat, w: nat, j: nat)
    requires SoleMasterRun(tr, ev) && t < i < |ev| && Refuses(tr[t], ev[t]) && InvokeSpan(tr, ev, i, w, j)
    requires forall x :: t < x < i ==> ev[x] != ReadOk
    ensures (exists k: nat :: RanOnceAt(tr, ev, w, k, j)) <==> (forall x :: t < x < w ==> !Executes(tr[x], ev[x]))
  {
    forall x | t < x < i
      ensures Calm(tr[x], ev[x])
    {
      GatewayInvHolds(tr, ev, x);
      assert Enabled(tr[x], ev[x]);
    }
    RetryIsRefusedIff(tr, ev, t, i);
    ReturnIsGenuineIff(tr, ev, i, w, j);
  }

  lemma {:induction false} WaitsFor(tr: seq<System>, ev: seq<Event>, w: nat, j: nat)
    requires IsRun(tr, ev) && w < j < |tr| && tr[w].phase.Writing? && ev[w] == WriteLands
    requires forall y :: w < y <= j ==> tr[y].phase.Replying? || tr[y].phase.Polling?
    ensures forall y :: w < y <= j ==> tr[y].phase == Replying(tr[w].phase.cmd) || tr[y].phase == Polling(tr[w].phase.cmd)
    decreases j
  {
    assert tr[j] == Next(tr[j - 1], ev[j - 1]);
    if j - 1 > w {
      WaitsFor(tr, ev, w, j - 1);
    }
  }

  // And the resync does not always let a retry through: STOP times out, START is
  // refused, the scan runs the waiting STOP, and START is refused once more.

  function AgainEvent(t: int): Event {
    if t == 7 then Scan(false, CncState.Idle) else if t == 8 then Invoke(START, 0) else if t == 9 then ReadOk
    else StaleEvent(t)
  }

  function AgainState(t: int): System {
    if t <= 7 then StaleState(t)
    else System(Blocks(OLD_STOP, 1, OK), if t <= 9 then Some(0) else Some(1),
                if t == 9 then Reading(START, 0) else Ready, Some(OLD_STOP), None)
  }

  lemma AgainStep(t: nat)
    requires t < 10
    ensures Enabled(AgainState(t), AgainEvent(t)) && AgainState(t + 1) == Next(AgainState(t), AgainEvent(t))
  {
    if t < 7 {
      StaleStep(t);
    }
  }

  lemma ARetryCanBeRefused(tr: seq<System>, ev: seq<Event>)
    requires tr == seq(11, t => AgainState(t)) && ev == seq(10, t => AgainEvent(t))
    ensures SoleMasterRun(tr, ev) && NotRefusedBefore(tr, ev, 6)
    ensures Refuses(tr[6], ev[6]) && CalmFrom(tr, ev, 6, 9) && Refuses(tr[9], ev[9])
  {
    forall t: nat | t < 10
      ensures Enabled(tr[t], ev[t]) && tr[t + 1] == Next(tr[t], ev[t])
    {
      AgainStep(t);
    }
  }

  // ------------------------------------------------- one rogue, in between

  /** What one sequential rogue keeps, whatever the scan does between its read
      and its write: the acknowledged number only ever trails by one. */
  predicate RogueInv(s: System) {
    var b := s.blocks;
    0 <= b.ackSeq < 0x1_0000
    && (Quiescent(b) || b.cmd.number == (b.ackSeq + 1) % 0x1_0000)
    && (s.rogue.Some? ==>
          0 <= s.rogue.value < 0x1_0000
          && (s.rogue.value == b.ackSeq
              || (Quiescent(b) && (s.rogue.value + 1) % 0x1_0000 == b.ackSeq)))
  }

  /** The rogue, the scan, the next invoke up to its read, and a transport that
      repeats the gateway's last write only while the block still holds it. */
  predicate RogueTurn(s: System, e: Event) {
    e.RogueReads? || e.RogueWrites? || e.Scan? || e.Invoke? || e == ReadFails || e == Elsewhere
    || (e == Retransmit && s.sent == Some(s.blocks.cmd))
  }

  lemma RogueStep(s: System, e: Event)
    requires Enabled(s, e) && RogueTurn(s, e) && RogueInv(s) && (s.phase.Ready? || s.phase.Reading?)
    ensures RogueInv(Next(s, e)) && Next(s, e).issued == s.issued && (Next(s, e).phase.Ready? || Next(s, e).phase.Reading?)
    ensures Next(s, e).blocks.ackSeq == if Executes(s, e) then (s.blocks.ackSeq + 1) % 0x1_0000 else s.blocks.ackSeq
  {
  }

  lemma OneMoreModulo(start: int, n: nat)
    ensures ((start + n) % 0x1_0000 + 1) % 0x1_0000 == (start + (n + 1)) % 0x1_0000
  {
  }

  lemma {:induction false} RogueKeepsCount(tr: seq<System>, ev: seq<Event>, t: nat)
    requires IsRun(tr, ev) && t <= |ev|
    requires tr[0].phase.Ready? && tr[0].rogue.None? && Quiescent(tr[0].blocks)
    requires 0 <= tr[0].blocks.ackSeq < 0x1_0000
    requires forall x :: 0 <= x < t ==> RogueTurn(tr[x], ev[x])
    ensures RogueInv(tr[t]) && tr[t].issued == tr[0].issued && (tr[t].phase.Ready? || tr[t].phase.Reading?)
    ensures tr[t].blocks.ackSeq == (tr[0].blocks.ackSeq + Executions(tr, ev, 0, t)) % 0x1_0000
    decreases t
  {
    if t == 0 {
    } else {
      RogueKeepsCount(tr, ev, t - 1);
      RogueStep(tr[t - 1], ev[t - 1]);
      OneMoreModulo(tr[0].blocks.ackSeq, Executions(tr, ev, 0, t - 1));
      assert tr[t] == Next(tr[t - 1], ev[t - 1]);
    }
  }

  /** After an invoke left the plant quiescent, with only the rogue and the scan
      acting until the next invoke's read, that read is refused exactly when
      the number of executed rogue commands is not a multiple of 65536. */
  lemma RogueIsSeenUnlessItWraps(tr: seq<System>, ev: seq<Event>, t: nat)
    requires IsRun(tr, ev) && t < |ev| && ev[t] == ReadOk
    requires tr[0].phase.Ready? && tr[0].rogue.None? && Quiescent(tr[0].blocks)
    requires 0 <= tr[0].blocks.ackSeq < 0x1_0000 && tr[0].issued == Some(tr[0].blocks.ackSeq)
    requires forall x :: 0 <= x < t ==> RogueTurn(tr[x], ev[x])
    ensures Refuses(tr[t], ev[t]) <==> Executions(tr, ev, 0, t) % 0x1_0000 != 0
  {
    RogueKeepsCount(tr, ev, t);
    assert Enabled(tr[t], ev[t]);
  }

  // -------------------------------------------------- any masters, any repeats

  /** Anything but a forged acknowledgement and the gateway's own progress. */
  predicate OutsideTurn(e: Event) {
    e.RogueReads? || e.RogueWrites? || e.Foreign? || e.Retransmit? || e.Scan? || e.Elsewhere? || e.Invoke? || e == ReadFails
  }

  lemma {:induction false} IssuedStays(tr: seq<System>, ev: seq<Event>, t: nat)
    requires IsRun(tr, ev) && t <= |ev| && forall x :: 0 <= x < t ==> OutsideTurn(ev[x])
    ensures tr[t].issued == tr[0].issued && tr[t].sent == tr[0].sent
    decreases t
  {
    if t == 0 {
    } else {
      IssuedStays(tr, ev, t - 1);
      assert tr[t] == Next(tr[t - 1], ev[t - 1]);
    }
  }

  /** Between two invokes any masters may write commands, and the transport may
      repeat the gateway's last write whenever it likes. The next read is refused
      exactly when something has been executed and the last command executed did
      not carry the number issued last. So a repeat that is executed last hides
      whatever was executed before it. */
  lemma RefusedIffLastIsForeign(tr: seq<System>, ev: seq<Event>, t: nat)
    requires IsRun(tr, ev) && t < |ev| && ev[t] == ReadOk
    requires tr[0].issued == Some(tr[0].blocks.ackSeq) && forall x :: 0 <= x < t ==> OutsideTurn(ev[x])
    ensures Refuses(tr[t], ev[t])
            <==> exists k: nat :: LastExecution(tr, ev, 0, k, t) && Some(tr[k].blocks.cmd.number) != tr[0].issued
    ensures tr[0].sent.Some? && Some(tr[0].sent.value.number) == tr[0].issued ==>
              forall k: nat :: LastExecution(tr, ev, 0, k, t) && tr[k].blocks.cmd == tr[0].sent.value ==> !Refuses(tr[t], ev[t])
  {
    IssuedStays(tr, ev, t);
    AckMovesByExecution(tr, ev, 0, t);
    assert Enabled(tr[t], ev[t]);
  }

  // The rogue's START is executed, then the transport repeats the gateway's STOP,
  // which is executed once more; the next read sees the number it expects.

  const REPEATED := Command(STOP, 0, 0, 5)
  const ROGUE_START := Command(START, 0, 0, 6)

  function HiddenEvent(t: int): Event {
    if t == 0 then RogueReads
    else if t == 1 then RogueWrites(START)
    else if t == 2 || t == 4 then Scan(false, CncState.Idle)
    else if t == 3 then Retransmit
    else if t == 5 then Invoke(START, 0)
    else ReadOk
  }

  function HiddenState(t: int): System {
    System(
      if t <= 1 then Blocks(REPEATED, 5, OK) else if t == 2 then Blocks(ROGUE_START, 5, OK)
      else if t == 3 then Blocks(ROGUE_START, 6, OK) else if t == 4 then Blocks(REPEATED, 6, OK) else Blocks(REPEATED, 5, OK),
      Some(5),
      if t <= 5 then Ready else if t == 6 then Reading(START, 0) else Writing(ROGUE_START),
      Some(REPEATED),
      if t == 1 then Some(5) else None)
  }

  lemma HiddenStep(t: nat)
    requires t < 7
    ensures Enabled(HiddenState(t), HiddenEvent(t)) && HiddenState(t + 1) == Next(HiddenState(t), HiddenEvent(t))
  {
  }

  /** A rogue command and a second execution of the gateway's own, and no refusal. */
  lemma ARepeatHidesTheRogue(tr: seq<System>, ev: seq<Event>)
    requires tr == seq(8, t => HiddenState(t)) && ev == seq(7, t => HiddenEvent(t))
    ensures IsRun(tr, ev) && Quiescent(tr[0].blocks) && tr[0].issued == Some(tr[0].blocks.ackSeq)
    ensures forall x :: 0 <= x < 6 ==> OutsideTurn(ev[x])
    ensures Executes(tr[2], ev[2]) && tr[2].blocks.cmd == ROGUE_START && Executes(tr[4], ev[4]) && tr[4].blocks.cmd == REPEATED
    ensures ev[6] == ReadOk && !Refuses(tr[6], ev[6])
  {
    forall t: nat | t < 7
      ensures Enabled(tr[t], ev[t]) && tr[t + 1] == Next(tr[t], ev[t])
    {
      HiddenStep(t);
    }
  }

  // ------------------------------------------- why the first contention matters

  // A run that defeats the handshake once contention has been reported: STOP
  // times out unexecuted, START is refused and resyncs, START is tried again,
  // and the scan runs the waiting STOP between START's read and its write.

  const EMPTY := Command(0, 0, 0, 0)
  const OLD_STOP := Command(STOP, 0, 0, 1)
  const NEW_START := Command(START, 0, 0, 1)

  function StaleEvent(t: int): Event {
    if t == 0 then Invoke(STOP, 0)
    else if t == 1 || t == 6 || t == 8 then ReadOk
    else if t == 2 || t == 10 then WriteLands
    else if t == 3 || t == 11 then WriteReplies
    else if t == 4 then Deadline
    else if t == 5 || t == 7 then Invoke(START, 0)
    else if t == 9 then Scan(false, CncState.Idle)
    else PollOk
  }

  function StaleState(t: int): System {
    System(
      if t <= 2 then Blocks(EMPTY, 0, 0) else if t <= 9 then Blocks(OLD_STOP, 0, 0)
      else if t == 10 then Blocks(OLD_STOP, 1, OK) else Blocks(NEW_START, 1, OK),
      if t <= 3 then None else if t <= 6 then Some(1) else if t <= 11 then Some(0) else Some(1),
      if t == 1 then Reading(STOP, 0) else if t == 2 then Writing(OLD_STOP) else if t == 3 then Replying(OLD_STOP)
      else if t == 4 then Polling(OLD_STOP) else if t == 6 || t == 8 then Reading(START, 0)
      else if t == 9 || t == 10 then Writing(NEW_START) else if t == 11 then Replying(NEW_START)
      else if t == 12 then Polling(NEW_START) else Ready,
      if t <= 2 then None else if t <= 10 then Some(OLD_STOP) else Some(NEW_START),
      None)
  }

  lemma StaleStep(t: nat)
    requires t < 13
    ensures Enabled(StaleState(t), StaleEvent(t))
    ensures StaleState(t + 1) == Next(StaleState(t), StaleEvent(t))
  {
  }

  /** Both commands carry number 1, so START returns OK without ever running. */
  lemma AfterResyncAReturnCanBeStale(tr: seq<System>, ev: seq<Event>)
    requires tr == seq(14, t => StaleState(t)) && ev == seq(13, t => StaleEvent(t))
    ensures SoleMasterRun(tr, ev) && Refuses(tr[6], ev[6])
    ensures InvokeSpan(tr, ev, 8, 10, 12) && tr[10].phase.cmd.code == START && Answer(tr[12]) == OK
    ensures forall k: nat :: k < 13 && Executes(tr[k], ev[k]) ==> tr[k].blocks.cmd.code == STOP
  {
    forall t: nat | t < 13
      ensures Enabled(tr[t], ev[t]) && tr[t + 1] == Next(tr[t], ev[t])
    {
      StaleStep(t);
    }
    assert Opened(tr, ev, 8, 10);
    assert Landed(tr, ev, 8, 10, 12);
  }
}
