/** What a returning invoke proves about the PLC, over whole runs. */
module Soundness {
  import opened Wrappers
  import opened Commands
  import opened Handshake

  // ---------------------------------------------- the invoke behind a return

  /** The read at i opened the attempt whose command is still unwritten at t. */
  ghost predicate Opened(tr: seq<System>, ev: seq<Event>, i: nat, t: nat)
    requires IsRun(tr, ev)
  {
    i < t < |tr| && ev[i] == ReadOk && tr[i].phase.Reading? && !Contends(tr[i])
    && (forall x :: i < x <= t ==>
          tr[x].phase == Writing(CommandOf(tr[i].phase.code, tr[i].phase.arg0, NextSeq(tr[i].blocks.ackSeq))))
  }

  /** The write at w put that attempt's command on the wire; at t invoke still
      waits for it. */
  ghost predicate Landed(tr: seq<System>, ev: seq<Event>, i: nat, w: nat, t: nat)
    requires IsRun(tr, ev)
  {
    Opened(tr, ev, i, w) && w < t < |tr| && ev[w] == WriteLands
    && (forall x :: w < x <= t ==>
          tr[x].phase == Replying(tr[w].phase.cmd) || tr[x].phase == Polling(tr[w].phase.cmd))
  }

  lemma {:induction false} PhaseHasAHistory(tr: seq<System>, ev: seq<Event>, t: nat)
    requires IsRun(tr, ev) && tr[0].phase.Ready? && t < |tr|
    ensures tr[t].phase.Writing? ==> exists i: nat :: Opened(tr, ev, i, t)
    ensures tr[t].phase.Replying? || tr[t].phase.Polling? ==>
              exists i: nat, w: nat :: Landed(tr, ev, i, w, t)
    decreases t
  {
    if t == 0 {
    } else {
      var p := t - 1;
      PhaseHasAHistory(tr, ev, p);
      assert tr[t] == Next(tr[p], ev[p]);
      if tr[t].phase.Writing? {
        if tr[p].phase.Reading? {
          assert Opened(tr, ev, p, t);
        } else {
          var i: nat :| Opened(tr, ev, i, p);
          assert Opened(tr, ev, i, t);
        }
      } else if tr[t].phase.Replying? || tr[t].phase.Polling? {
        if tr[p].phase.Writing? {
          var i: nat :| Opened(tr, ev, i, p);
          assert Landed(tr, ev, i, p, t);
        } else {
          var i: nat, w: nat :| Landed(tr, ev, i, w, p);
          assert Landed(tr, ev, i, w, t);
        }
      }
    }
  }

  /** One invoke that returned: read at i, write at w, last poll at j. */
  ghost predicate InvokeSpan(tr: seq<System>, ev: seq<Event>, i: nat, w: nat, j: nat)
    requires IsRun(tr, ev)
  {
    j < |ev| && Landed(tr, ev, i, w, j) && Returns(tr[j], ev[j])
  }

  /** The result invoke returns from a poll. */
  function Answer(s: System): int {
    s.blocks.ackResult
  }

  lemma ReturnHasItsInvoke(tr: seq<System>, ev: seq<Event>, j: nat)
    requires IsRun(tr, ev) && tr[0].phase.Ready? && j < |ev| && Returns(tr[j], ev[j])
    ensures exists i: nat, w: nat :: InvokeSpan(tr, ev, i, w, j)
  {
    PhaseHasAHistory(tr, ev, j);
    var i: nat, w: nat :| Landed(tr, ev, i, w, j);
    assert InvokeSpan(tr, ev, i, w, j);
  }

  // ------------------------------------- any masters, no forged ack block

  /** The last execution in [a, b) is at k, and the ack block still shows it. */
  ghost predicate LastExecution(tr: seq<System>, ev: seq<Event>, a: nat, k: nat, b: nat)
    requires IsRun(tr, ev) && b < |tr|
  {
    a <= k < b && Executes(tr[k], ev[k])
    && (forall x :: k < x < b ==> !Executes(tr[x], ev[x]))
    && tr[b].blocks.ackSeq == tr[k].blocks.cmd.number
    && tr[b].blocks.ackResult == CommandResult(tr[k].blocks.cmd.code, ev[k].fault, ev[k].cnc)
  }

  lemma {:induction false} AckMovesByExecution(tr: seq<System>, ev: seq<Event>, a: nat, b: nat)
    requires IsRun(tr, ev) && a <= b < |tr|
    requires forall x :: a <= x < b ==> !ev[x].Forge?
    ensures (exists k: nat :: LastExecution(tr, ev, a, k, b))
            || ((forall x :: a <= x < b ==> !Executes(tr[x], ev[x]))
                && tr[b].blocks.ackSeq == tr[a].blocks.ackSeq && tr[b].blocks.ackResult == tr[a].blocks.ackResult)
    decreases b
  {
    if a < b {
      var p := b - 1;
      AckMovesByExecution(tr, ev, a, p);
      assert tr[b] == Next(tr[p], ev[p]);
      if Executes(tr[p], ev[p]) {
        assert LastExecution(tr, ev, a, p, b);
      } else if exists k: nat :: LastExecution(tr, ev, a, k, p) {
        var k: nat :| LastExecution(tr, ev, a, k, p);
        assert LastExecution(tr, ev, a, k, b);
      }
    }
  }

  lemma NextSeqDiffers(current: int)
    ensures NextSeq(current) != current && SEQ_MIN <= NextSeq(current) <= SEQ_MAX
  {
  }

  /** With any number of other masters writing anything but the ack block, a
      return means that some scan since the read executed a command with the
      invoke's number, and the result is that of the latest execution. */
  lemma ReturnReportsAnExecution(tr: seq<System>, ev: seq<Event>, i: nat, w: nat, j: nat)
    requires IsRun(tr, ev) && InvokeSpan(tr, ev, i, w, j)
    requires forall x :: i <= x < j ==> !ev[x].Forge?
    ensures exists k: nat :: LastExecution(tr, ev, i, k, j)
                             && i < k && tr[k].blocks.cmd.number == tr[w].phase.cmd.number
  {
    AckMovesByExecution(tr, ev, i, j);
    NextSeqDiffers(tr[i].blocks.ackSeq);
    assert tr[w].phase.cmd.number == NextSeq(tr[i].blocks.ackSeq);
    var k: nat :| LastExecution(tr, ev, i, k, j);
    assert ev[i] == ReadOk;
  }

  /** Nobody but this invoke writes either block between its read and j. */
  ghost predicate Undisturbed(ev: seq<Event>, i: nat, w: nat, j: nat)
    requires i <= w <= j <= |ev|
  {
    (forall x :: i <= x < w ==> !ev[x].Retransmit?)
    && (forall x :: i <= x < j ==> !ev[x].Forge? && !ev[x].Foreign? && !ev[x].RogueWrites?)
  }

  lemma {:induction false} NothingMovesBeforeTheWrite(tr: seq<System>, ev: seq<Event>, i: nat, w: nat, t: nat)
    requires IsRun(tr, ev) && Opened(tr, ev, i, w) && i <= t <= w < |ev|
    requires Quiescent(tr[i].blocks)
    requires forall x :: i <= x < w ==> !ev[x].Forge? && !ev[x].Foreign? && !ev[x].RogueWrites? && !ev[x].Retransmit?
    ensures tr[t].blocks == tr[i].blocks
    decreases t
  {
    if t > i {
      NothingMovesBeforeTheWrite(tr, ev, i, w, t - 1);
      assert tr[t] == Next(tr[t - 1], ev[t - 1]);
      assert t - 1 == i || tr[t - 1].phase.Writing?;
      assert tr[t].phase.Writing?;
    }
  }

  /** After the write, with nobody else writing, the block keeps the gateway's
      command; either it is still unexecuted, or it ran exactly once, at k. */
  ghost predicate RanOnceAt(tr: seq<System>, ev: seq<Event>, w: nat, k: nat, t: nat)
    requires IsRun(tr, ev) && t < |tr|
  {
    w < k < t && tr[w].phase.Writing? && Executes(tr[k], ev[k]) && tr[k].blocks.cmd == tr[w].phase.cmd
    && (forall x :: w < x < t && Executes(tr[x], ev[x]) ==> x == k)
    && tr[t].blocks.ackSeq == tr[w].phase.cmd.number
    && tr[t].blocks.ackResult == CommandResult(tr[w].phase.cmd.code, ev[k].fault, ev[k].cnc)
  }

  lemma {:induction false} OwnWriteRunsAtMostOnce(tr: seq<System>, ev: seq<Event>, w: nat, t: nat)
    requires IsRun(tr, ev) && w < t < |tr| && ev[w] == WriteLands
    requires tr[w].blocks.ackSeq != tr[w].phase.cmd.number
    requires forall x :: w < x < t ==> !ev[x].Forge? && !ev[x].Foreign? && !ev[x].RogueWrites? && !ev[x].WriteLands?
    ensures tr[t].blocks.cmd == tr[w].phase.cmd && tr[t].sent == Some(tr[w].phase.cmd)
    ensures (exists k: nat :: RanOnceAt(tr, ev, w, k, t))
            || (tr[t].blocks.ackSeq == tr[w].blocks.ackSeq
                && forall x :: w < x < t ==> !Executes(tr[x], ev[x]))
    decreases t
  {
    var p := t - 1;
    assert tr[t] == Next(tr[p], ev[p]);
    if p > w {
      OwnWriteRunsAtMostOnce(tr, ev, w, p);
      if exists k: nat :: RanOnceAt(tr, ev, w, k, p) {
        var k: nat :| RanOnceAt(tr, ev, w, k, p);
        assert RanOnceAt(tr, ev, w, k, t);
      } else if Executes(tr[p], ev[p]) {
        assert RanOnceAt(tr, ev, w, p, t);
      }
    }
  }

  /** If the block was quiescent at the read and nobody else wrote it until the
      return, the invoke's own command ran, exactly once, between its write and
      its return, and the result is that execution's. */
  lemma UndisturbedReturnIsGenuine(tr: seq<System>, ev: seq<Event>, i: nat, w: nat, j: nat)
    requires IsRun(tr, ev) && InvokeSpan(tr, ev, i, w, j)
    requires Quiescent(tr[i].blocks) && Undisturbed(ev, i, w, j)
    ensures exists k: nat :: RanOnceAt(tr, ev, w, k, j)
    ensures forall x :: i <= x <= w ==> !Executes(tr[x], ev[x])
  {
    forall t: nat | i <= t <= w
      ensures tr[t].blocks == tr[i].blocks
    {
      NothingMovesBeforeTheWrite(tr, ev, i, w, t);
    }
    NextSeqDiffers(tr[i].blocks.ackSeq);
    WaitingNeverWrites(tr, ev, i, w, j);
    OwnWriteRunsAtMostOnce(tr, ev, w, j);
  }

  lemma WaitingNeverWrites(tr: seq<System>, ev: seq<Event>, i: nat, w: nat, t: nat)
    requires IsRun(tr, ev) && Landed(tr, ev, i, w, t)
    ensures forall x :: w < x < t ==> !ev[x].WriteLands?
  {
    forall x | w < x < t
      ensures !ev[x].WriteLands?
    {
      assert Enabled(tr[x], ev[x]);
      assert tr[x].phase == Replying(tr[w].phase.cmd) || tr[x].phase == Polling(tr[w].phase.cmd);
    }
  }

  // --------------------------------------- the gateway as the only master

  predicate SoleMaster(e: Event) {
    !e.Foreign? && !e.Forge? && !e.RogueWrites?
  }

  ghost predicate SoleMasterRun(tr: seq<System>, ev: seq<Event>) {
    IsRun(tr, ev) && Fresh(tr[0]) && forall t :: 0 <= t < |ev| ==> SoleMaster(ev[t])
  }

  /** A gateway that has issued nothing, on a PLC with nothing waiting; a PLC
      that has just booted, all registers zero, is one case. */
  predicate Fresh(s: System) {
    s.phase.Ready? && s.issued.None? && s.sent.None? && Quiescent(s.blocks)
  }

  /** The command waiting, if any, carries the number that follows the ack. */
  predicate PendingIsNext(b: Blocks) {
    b.cmd.number == NextSeq(b.ackSeq)
  }

  /** What every state of a sole-master run satisfies, before and after
      contention alike. */
  predicate GatewayInv(s: System) {
    (Quiescent(s.blocks) || PendingIsNext(s.blocks))
    && (s.sent.Some? ==> s.sent.value == s.blocks.cmd)
    && (s.issued.None? && !s.phase.Replying? ==> Quiescent(s.blocks))
    && (s.phase.Writing? ==>
          || s.phase.cmd.number == NextSeq(s.blocks.ackSeq)
          || (Quiescent(s.blocks) && s.phase.cmd.number == s.blocks.ackSeq))
    && (s.phase.Replying? || s.phase.Polling? ==> s.blocks.cmd == s.phase.cmd)
  }

  lemma {:induction false} GatewayInvHolds(tr: seq<System>, ev: seq<Event>, t: nat)
    requires SoleMasterRun(tr, ev) && t < |tr|
    ensures GatewayInv(tr[t])
    decreases t
  {
    if t == 0 {
    } else {
      GatewayInvHolds(tr, ev, t - 1);
      assert tr[t] == Next(tr[t - 1], ev[t - 1]);
    }
  }

  lemma {:induction false} BeforeTheWrite(tr: seq<System>, ev: seq<Event>, i: nat, w: nat, t: nat)
    requires SoleMasterRun(tr, ev) && Opened(tr, ev, i, w) && i < t <= w < |ev|
    ensures tr[t].blocks.cmd == tr[i].blocks.cmd
    ensures (forall x :: i <= x < t ==> !Executes(tr[x], ev[x])) ==> tr[t].blocks == tr[i].blocks
    ensures (exists x :: i <= x < t && Executes(tr[x], ev[x])) ==>
              Quiescent(tr[t].blocks) && tr[t].blocks.ackSeq == tr[w].phase.cmd.number
              && !Quiescent(tr[i].blocks)
    decreases t
  {
    assert tr[t].phase.Writing? && tr[t].phase == tr[w].phase;
    GatewayInvHolds(tr, ev, t - 1);
    assert tr[t] == Next(tr[t - 1], ev[t - 1]);
    if t - 1 > i {
      assert tr[t - 1].phase.Writing?;
      BeforeTheWrite(tr, ev, i, w, t - 1);
      GatewayInvHolds(tr, ev, i);
    }
  }

  /** The exact soundness of the handshake with no other master, in every run,
      before and after contention: a return is genuine if and only if no scan
      executed a command between the invoke's read and its write. When one did,
      the invoke's own command never runs at all and the result belongs to the
      command that was waiting at the read. */
  lemma ReturnIsGenuineIff(tr: seq<System>, ev: seq<Event>, i: nat, w: nat, j: nat)
    requires SoleMasterRun(tr, ev) && InvokeSpan(tr, ev, i, w, j)
    ensures (exists k: nat :: RanOnceAt(tr, ev, w, k, j))
            <==> (forall x :: i <= x < w ==> !Executes(tr[x], ev[x]))
    ensures (exists x :: i <= x < w && Executes(tr[x], ev[x])) ==>
              !Quiescent(tr[i].blocks) && (forall x :: w < x < j ==> !Executes(tr[x], ev[x]))
              && exists k: nat :: LastExecution(tr, ev, i, k, j) && k < w && tr[k].blocks.cmd == tr[i].blocks.cmd
  {
    BeforeTheWrite(tr, ev, i, w, w);
    WaitingNeverWrites(tr, ev, i, w, j);
    NextSeqDiffers(tr[i].blocks.ackSeq);
    if forall x :: i <= x < w ==> !Executes(tr[x], ev[x]) {
      OwnWriteRunsAtMostOnce(tr, ev, w, j);
    } else {
      StaleWriteNeverRuns(tr, ev, w, j);
      ReturnReportsAnExecution(tr, ev, i, w, j);
      var k: nat :| LastExecution(tr, ev, i, k, j) && i < k;
      assert k < w;
      BeforeTheWrite(tr, ev, i, w, k);
    }
  }

  lemma {:induction false} StaleWriteNeverRuns(tr: seq<System>, ev: seq<Event>, w: nat, t: nat)
    requires IsRun(tr, ev) && w < t < |tr| && ev[w] == WriteLands
    requires tr[w].blocks.ackSeq == tr[w].phase.cmd.number
    requires forall x :: w < x < t ==> SoleMaster(ev[x]) && !ev[x].WriteLands?
    ensures Quiescent(tr[t].blocks) && tr[t].sent == Some(tr[t].blocks.cmd)
    ensures forall x :: w < x < t ==> !Executes(tr[x], ev[x])
    decreases t
  {
    assert tr[t] == Next(tr[t - 1], ev[t - 1]);
    if t - 1 > w {
      StaleWriteNeverRuns(tr, ev, w, t - 1);
    }
  }

  // ------------------------------------------ up to the first contention

  ghost predicate NotRefusedBefore(tr: seq<System>, ev: seq<Event>, t: nat)
    requires IsRun(tr, ev) && t <= |ev|
  {
    forall x :: 0 <= x < t ==> !Refuses(tr[x], ev[x])
  }

  /** Until the first CommandContended the number recorded as issued is the one
      in the command block, and a write is only prepared on a quiescent block. */
  predicate CleanInv(s: System) {
    GatewayInv(s)
    && (s.phase.Ready? || s.phase.Reading? || s.phase.Polling? ==>
          s.issued.Some? ==> s.issued.value == s.blocks.cmd.number)
    && (s.phase.Writing? ==>
          Quiescent(s.blocks) && s.phase.cmd.number == NextSeq(s.blocks.ackSeq)
          && (s.issued.Some? ==> s.issued.value == s.blocks.cmd.number))
  }

  lemma {:induction false} CleanInvHolds(tr: seq<System>, ev: seq<Event>, t: nat)
    requires SoleMasterRun(tr, ev) && t < |tr| && NotRefusedBefore(tr, ev, t)
    ensures CleanInv(tr[t])
    decreases t
  {
    GatewayInvHolds(tr, ev, t);
    if t > 0 {
      CleanInvHolds(tr, ev, t - 1);
      assert tr[t] == Next(tr[t - 1], ev[t - 1]);
    }
  }

  /** The command written at w is executed exactly once, at k with w < k < j,
      however the run goes on until the gateway writes again. */
  ghost predicate ExactlyOnce(tr: seq<System>, ev: seq<Event>, i: nat, w: nat, k: nat, j: nat)
    requires IsRun(tr, ev)
  {
    InvokeSpan(tr, ev, i, w, j) && RanOnceAt(tr, ev, w, k, j)
    && (forall x :: i <= x <= w ==> !Executes(tr[x], ev[x]))
    && Answer(tr[j]) == CommandResult(tr[i].phase.code, ev[k].fault, ev[k].cnc)
    && (forall y: nat {:trigger tr[y]} :: k < y < |ev| && Executes(tr[y], ev[y]) ==>
          exists w' :: j < w' < y && ev[w'] == WriteLands)
  }

  /** From a fresh plant with no other writer, under any scan scheduling, link
      failures, timeouts and retransmissions, until the first CommandContended:
      every invoke that returns had its own command executed exactly once,
      between its write and its return, and returns that execution's result. */
  lemma ReturnedInvokeRanExactlyOnce(tr: seq<System>, ev: seq<Event>, j: nat)
    requires SoleMasterRun(tr, ev) && j < |ev| && Returns(tr[j], ev[j])
    requires NotRefusedBefore(tr, ev, j)
    ensures exists i: nat, w: nat, k: nat :: ExactlyOnce(tr, ev, i, w, k, j)
  {
    ReturnHasItsInvoke(tr, ev, j);
    var i: nat, w: nat :| InvokeSpan(tr, ev, i, w, j);
    CleanInvHolds(tr, ev, i + 1);
    CleanInvHolds(tr, ev, w);
    ReturnIsGenuineIff(tr, ev, i, w, j);
    assert tr[i + 1].blocks == tr[i].blocks;
    assert forall x :: i <= x < w ==> !Executes(tr[x], ev[x]);
    var k: nat :| RanOnceAt(tr, ev, w, k, j);
    forall y: nat {:trigger tr[y]} | k < y < |ev| && Executes(tr[y], ev[y])
      ensures exists w' :: j < w' < y && ev[w'] == WriteLands
    {
      if forall w' :: j < w' < y ==> !ev[w'].WriteLands? {
        WaitingNeverWrites(tr, ev, i, w, j);
        OwnWriteRunsAtMostOnce(tr, ev, w, y);
      }
    }
    assert ExactlyOnce(tr, ev, i, w, k, j);
  }
}
