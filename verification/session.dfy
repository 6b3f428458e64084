/** The gateway program issuing one command after another (src/gateway/server.py,
    src/gateway/commands.py), and what the handshake theorems say of it. */
module Sessions {
  import opened Wrappers
  import opened Commands
  import opened Handshake
  import opened Soundness
  import opened Masters

  datatype Call = Call(code: int, arg0: int, plan: Schedule)

  // ------------------------------------------------------- programs as runs

  lemma {:induction false} SameEnd(s: System, ev: seq<Event>, a: System, b: System)
    requires Leads(s, ev, a) && Leads(s, ev, b)
    ensures a == b
    decreases |ev|
  {
    if ev == [] {
    } else {
      SameEnd(Next(s, ev[0]), ev[1..], a, b);
    }
  }

  lemma {:induction false} RunLeads(tr: seq<System>, ev: seq<Event>, n: nat)
    requires IsRun(tr, ev) && n <= |ev|
    ensures Leads(tr[0], ev[..n], tr[n])
    decreases n
  {
    if n == 0 {
    } else {
      RunLeads(tr, ev, n - 1);
      LeadsThen(tr[0], ev[..n - 1], tr[n - 1], ev[n - 1]);
      assert ev[..n] == ev[..n - 1] + [ev[n - 1]];
    }
  }

  /** whole begins with one run and goes on with another. */
  ghost predicate Joined(tr: seq<System>, ev: seq<Event>, tr': seq<System>, ev': seq<Event>, whole: seq<System>, all: seq<Event>) {
    IsRun(whole, all) && |all| == |ev| + |ev'|
    && all[..|ev|] == ev && whole[..|ev| + 1] == tr && all[|ev|..] == ev' && whole[|ev|..] == tr'
  }

  lemma RunsJoin(tr: seq<System>, ev: seq<Event>, tr': seq<System>, ev': seq<Event>)
    requires IsRun(tr, ev) && IsRun(tr', ev') && tr[|ev|] == tr'[0]
    ensures Joined(tr, ev, tr', ev', tr + tr'[1..], ev + ev')
  {
    var whole, all := tr + tr'[1..], ev + ev';
    assert whole[|ev|..] == tr';
    forall t | 0 <= t < |all|
      ensures Enabled(whole[t], all[t]) && whole[t + 1] == Next(whole[t], all[t])
    {
      if t >= |ev| {
        assert whole[t] == tr'[t - |ev|] && all[t] == ev'[t - |ev|] && whole[t + 1] == tr'[t - |ev| + 1];
      }
    }
  }

  // --------------------------------------------------------------- sessions

  /** The events of one invoke: from, up to but not including until. */
  datatype Stretch = Stretch(from: nat, until: nat)

  /** One invoke: from its Invoke event to the deciding event there are only its own
      steps and its schedule's events. */
  ghost predicate IsInvoke(tr: seq<System>, ev: seq<Event>, at: Stretch, call: Call, outcome: Outcome)
    requires IsRun(tr, ev)
  {
    at.from + 1 < at.until <= |ev| && tr[at.from].phase.Ready? && tr[at.until].phase.Ready?
    && ev[at.from] == Invoke(call.code, call.arg0)
    && (forall x :: at.from < x < at.until ==> OwnStep(call.plan, ev[x]) || (FromElsewhere(ev[x]) && InSchedule(call.plan, ev[x])))
    && OwnStep(call.plan, ev[at.until - 1]) && OutcomeOf(tr[at.until - 1], ev[at.until - 1]) == Some(outcome)
  }

  /** The run is these invokes, one after another. */
  ghost predicate IsSession(tr: seq<System>, ev: seq<Event>, spans: seq<Stretch>, calls: seq<Call>, outcomes: seq<Outcome>) {
    IsRun(tr, ev) && |spans| == |calls| == |outcomes|
    && (if spans == [] then ev == [] else spans[0].from == 0 && spans[|spans| - 1].until == |ev|)
    && (forall m, l :: 0 <= m < |spans| - 1 && l == m + 1 ==> spans[m].until == spans[l].from)
    && forall m :: 0 <= m < |spans| ==> IsInvoke(tr, ev, spans[m], calls[m], outcomes[m])
  }

  lemma FinishedIsAnInvoke(start: System, ev: seq<Event>, last: System, now: System, call: Call, outcome: Outcome)
      returns (tr: seq<System>)
    requires Finished(start, ev, last, now, Invoke(call.code, call.arg0), call.plan, outcome)
    requires start.phase.Ready? && now.phase.Ready?
    ensures IsRun(tr, ev) && tr[0] == start && tr[|ev|] == now && IsInvoke(tr, ev, Stretch(0, |ev|), call, outcome)
  {
    var n := |ev| - 1;
    LeadsThen(start, ev[..n], last, ev[n]);
    assert ev == ev[..n] + [ev[n]];
    LeadsIsARun(start, ev, now);
    tr :| IsRun(tr, ev) && tr[0] == start && tr[|ev|] == now;
    RunLeads(tr, ev, n);
    SameEnd(start, ev[..n], last, tr[n]);
  }

  lemma EarlierSpanStays(tr: seq<System>, ev: seq<Event>, whole: seq<System>, all: seq<Event>, at: Stretch,
                         call: Call, outcome: Outcome)
    requires IsRun(tr, ev) && IsRun(whole, all) && |ev| <= |all| && IsInvoke(tr, ev, at, call, outcome)
    requires all[..|ev|] == ev && whole[..|ev| + 1] == tr
    ensures IsInvoke(whole, all, at, call, outcome)
  {
    assert forall t :: 0 <= t < |ev| ==> all[t] == all[..|ev|][t];
    assert forall t :: 0 <= t <= |ev| ==> whole[t] == whole[..|ev| + 1][t];
  }

  lemma LaterSpanFits(tr: seq<System>, ev: seq<Event>, whole: seq<System>, all: seq<Event>, offset: nat,
                      call: Call, outcome: Outcome)
    requires IsRun(tr, ev) && IsRun(whole, all) && |all| == offset + |ev| && IsInvoke(tr, ev, Stretch(0, |ev|), call, outcome)
    requires all[offset..] == ev && whole[offset..] == tr
    ensures IsInvoke(whole, all, Stretch(offset, offset + |ev|), call, outcome)
  {
    assert forall t :: offset <= t < |all| ==> all[t] == ev[t - offset];
    assert forall t :: offset <= t <= |all| ==> whole[t] == tr[t - offset];
  }

  lemma SessionGrows(tr: seq<System>, ev: seq<Event>, spans: seq<Stretch>, calls: seq<Call>, outcomes: seq<Outcome>,
                     tr': seq<System>, ev': seq<Event>, whole: seq<System>, all: seq<Event>, call: Call, outcome: Outcome)
    requires IsSession(tr, ev, spans, calls, outcomes) && IsRun(tr', ev') && Joined(tr, ev, tr', ev', whole, all)
    requires IsInvoke(tr', ev', Stretch(0, |ev'|), call, outcome)
    ensures IsSession(whole, all, spans + [Stretch(|ev|, |all|)], calls + [call], outcomes + [outcome])
  {
    forall m | 0 <= m < |spans|
      ensures IsInvoke(whole, all, spans[m], calls[m], outcomes[m])
    {
      SpansStayInside(tr, ev, spans, calls, outcomes, m);
      EarlierSpanStays(tr, ev, whole, all, spans[m], calls[m], outcomes[m]);
    }
    LaterSpanFits(tr', ev', whole, all, |ev|, call, outcome);
    SpansGrow(whole, all, spans, calls, outcomes, Stretch(|ev|, |all|), call, outcome);
  }

  lemma SpansGrow(tr: seq<System>, ev: seq<Event>, spans: seq<Stretch>, calls: seq<Call>, outcomes: seq<Outcome>,
                  at: Stretch, call: Call, outcome: Outcome)
    requires IsRun(tr, ev) && |spans| == |calls| == |outcomes|
    requires if spans == [] then at.from == 0 else spans[0].from == 0 && spans[|spans| - 1].until == at.from
    requires at.until == |ev| && IsInvoke(tr, ev, at, call, outcome)
    requires forall m, l :: 0 <= m < |spans| - 1 && l == m + 1 ==> spans[m].until == spans[l].from
    requires forall m :: 0 <= m < |spans| ==> IsInvoke(tr, ev, spans[m], calls[m], outcomes[m])
    ensures IsSession(tr, ev, spans + [at], calls + [call], outcomes + [outcome])
  {
    var spans', calls', outcomes' := spans + [at], calls + [call], outcomes + [outcome];
    assert forall m :: 0 <= m < |spans| ==> spans'[m] == spans[m] && calls'[m] == calls[m] && outcomes'[m] == outcomes[m];
    forall m | 0 <= m < |spans'|
      ensures IsInvoke(tr, ev, spans'[m], calls'[m], outcomes'[m])
    {
      assert m == |spans| || IsInvoke(tr, ev, spans[m], calls[m], outcomes[m]);
    }
  }

  lemma SpansStayInside(tr: seq<System>, ev: seq<Event>, spans: seq<Stretch>, calls: seq<Call>, outcomes: seq<Outcome>, m: nat)
    requires IsSession(tr, ev, spans, calls, outcomes) && m < |spans|
    ensures spans[m].until <= |ev| && IsInvoke(tr, ev, spans[m], calls[m], outcomes[m])
  {
  }

  /** The gateway issuing its commands one at a time. */
  method InvokeEach(gateway: CommandHandshake, calls: seq<Call>)
    returns (outcomes: seq<Outcome>, ghost tr: seq<System>, ghost ev: seq<Event>, ghost spans: seq<Stretch>)
    modifies gateway`issued, gateway.wire
    ensures IsSession(tr, ev, spans, calls, outcomes)
    ensures tr[0] == old(gateway.Now(Ready)) && tr[|ev|] == gateway.Now(Ready)
  {
    outcomes, tr, ev, spans := [], [gateway.Now(Ready)], [], [];
    for m := 0 to |calls|
      invariant IsSession(tr, ev, spans, calls[..m], outcomes)
      invariant tr[0] == old(gateway.Now(Ready)) && tr[|ev|] == gateway.Now(Ready)
    {
      ghost var start := gateway.Now(Ready);
      var outcome;
      ghost var ev', last;
      outcome, ev', last := gateway.Invoke(calls[m].code, calls[m].arg0, calls[m].plan);
      ghost var tr' := FinishedIsAnInvoke(start, ev', last, gateway.Now(Ready), calls[m], outcome);
      RunsJoin(tr, ev, tr', ev');
      SessionGrows(tr, ev, spans, calls[..m], outcomes, tr', ev', tr + tr'[1..], ev + ev', calls[m], outcome);
      assert calls[..m + 1] == calls[..m] + [calls[m]];
      spans := spans + [Stretch(|ev|, |ev + ev'|)];
      tr, ev, outcomes := tr + tr'[1..], ev + ev', outcomes + [outcome];
    }
    assert calls[..|calls|] == calls;
  }

  // ------------------------------------------- what the theorems say of it

  lemma {:induction false} OneReading(tr: seq<System>, ev: seq<Event>, at: Stretch, call: Call, outcome: Outcome, x: nat)
    requires IsRun(tr, ev) && IsInvoke(tr, ev, at, call, outcome) && at.from < x <= at.until
    ensures tr[x].phase.Reading? ==> tr[x].phase == Reading(call.code, call.arg0)
    decreases x
  {
    assert tr[x] == Next(tr[x - 1], ev[x - 1]);
    if x - 1 > at.from {
      OneReading(tr, ev, at, call, outcome, x - 1);
    }
  }

  /** Once an invoke is over inside its stretch, it stays over. */
  lemma {:induction false} StaysReady(tr: seq<System>, ev: seq<Event>, at: Stretch, call: Call, outcome: Outcome,
                                      x: nat, y: nat)
    requires IsRun(tr, ev) && IsInvoke(tr, ev, at, call, outcome) && at.from < x <= y <= at.until
    requires tr[x].phase.Ready?
    ensures tr[y].phase.Ready?
    decreases y
  {
    if y > x {
      StaysReady(tr, ev, at, call, outcome, x, y - 1);
      assert Enabled(tr[y - 1], ev[y - 1]) && tr[y] == Next(tr[y - 1], ev[y - 1]);
    }
  }

  /** A refusal inside an invoke's stretch is its outcome. */
  lemma RefusalIsTheOutcome(tr: seq<System>, ev: seq<Event>, at: Stretch, call: Call, outcome: Outcome, x: nat)
    requires IsRun(tr, ev) && IsInvoke(tr, ev, at, call, outcome) && at.from <= x < at.until && Refuses(tr[x], ev[x])
    ensures x == at.until - 1 && outcome.Contended?
  {
    var last := at.until - 1;
    assert Enabled(tr[last], ev[last]) && OwnStep(call.plan, ev[last]);
    assert tr[x + 1] == Next(tr[x], ev[x]);
    if x < last {
      StaysReady(tr, ev, at, call, outcome, x + 1, last);
    }
  }

  // ------------------------------------------------------ why an invoke ended

  /** Inside its stretch an invoke is under way. */
  lemma NotReadyInside(tr: seq<System>, ev: seq<Event>, at: Stretch, call: Call, outcome: Outcome, x: nat)
    requires IsRun(tr, ev) && IsInvoke(tr, ev, at, call, outcome) && at.from < x < at.until
    ensures !tr[x].phase.Ready?
  {
    var last := at.until - 1;
    assert Enabled(tr[last], ev[last]) && OwnStep(call.plan, ev[last]);
    if tr[x].phase.Ready? {
      StaysReady(tr, ev, at, call, outcome, x, last);
    }
  }

  /** Read at i and written at w, the command was polled for until the deadline, and
      no good poll ever showed its number. */
  ghost predicate WaitedInVain(tr: seq<System>, ev: seq<Event>, at: Stretch, call: Call, number: int, i: nat, w: nat)
    requires IsRun(tr, ev)
  {
    at.from < i && at.until > 0 && Landed(tr, ev, i, w, at.until - 1) && tr[i].phase == Reading(call.code, call.arg0)
    && tr[w].phase.cmd == CommandOf(call.code, call.arg0, number) && number == NextSeq(tr[i].blocks.ackSeq)
    && forall x :: w < x < at.until - 1 && ev[x] == PollOk ==> tr[x].blocks.ackSeq != number
  }

  lemma LandedInside(tr: seq<System>, ev: seq<Event>, at: Stretch, call: Call, outcome: Outcome, i: nat, w: nat)
    requires IsRun(tr, ev) && IsInvoke(tr, ev, at, call, outcome) && Landed(tr, ev, i, w, at.until - 1)
    ensures at.from < i && tr[i].phase == Reading(call.code, call.arg0)
  {
    var j := at.until - 1;
    assert Opened(tr, ev, i, w);
    assert at.from != i && tr[at.from].phase.Ready?;
    assert forall x :: i < x <= w ==> tr[x].phase.Writing?;
    assert forall x :: w < x <= j ==> !tr[x].phase.Ready?;
    OneReading(tr, ev, at, call, outcome, i);
  }

  /** Why an invoke ended, by its last event: a timeout is the deadline's and a link
      error a failed transaction's, a refusal carries both numbers, and a result is
      what the acknowledgement showed. */
  lemma EndsForItsReason(tr: seq<System>, ev: seq<Event>, at: Stretch, call: Call, outcome: Outcome)
    requires IsRun(tr, ev) && IsInvoke(tr, ev, at, call, outcome)
    ensures var e, last := ev[at.until - 1], tr[at.until - 1];
            (outcome.TimedOut? <==> e == Deadline)
            && (outcome == LinkError <==> e == ReadFails || e == WriteFails || e == PollFails)
            && (outcome.Contended? <==> e == ReadOk)
            && (outcome.Returned? <==> e == PollOk && 0 <= last.blocks.ackResult <= 3)
            && (outcome.BadAnswer? <==> e == PollOk && !(0 <= last.blocks.ackResult <= 3))
    ensures Tells(tr[at.until - 1], ev[at.until - 1], outcome)
    ensures outcome == LinkError ==> !(call.plan.readOk && call.plan.writeOk && PollsSucceed(call.plan))
  {
    assert Enabled(tr[at.until - 1], ev[at.until - 1]);
    OutcomeTells(tr[at.until - 1], ev[at.until - 1], outcome);
  }

  /** A timeout names the number this invoke wrote, which no good poll since showed. */
  lemma ATimeoutSawNoAnswer(tr: seq<System>, ev: seq<Event>, at: Stretch, call: Call, outcome: Outcome)
    requires IsRun(tr, ev) && tr[0].phase.Ready? && IsInvoke(tr, ev, at, call, outcome) && outcome.TimedOut?
    ensures exists i: nat, w: nat :: WaitedInVain(tr, ev, at, call, outcome.number, i, w)
  {
    var j := at.until - 1;
    EndsForItsReason(tr, ev, at, call, outcome);
    PhaseHasAHistory(tr, ev, j);
    var i: nat, w: nat :| Landed(tr, ev, i, w, j);
    LandedInside(tr, ev, at, call, outcome, i, w);
    forall x | w < x < j && ev[x] == PollOk
      ensures tr[x].blocks.ackSeq != outcome.number
    {
      assert Enabled(tr[x], ev[x]) && tr[x + 1] == Next(tr[x], ev[x]) && !tr[x + 1].phase.Ready?;
    }
    assert WaitedInVain(tr, ev, at, call, outcome.number, i, w);
  }

  /** Nothing in this schedule moves the acknowledgement. */
  ghost predicate NobodyAnswers(plan: Schedule) {
    forall e :: InSchedule(plan, e) && FromElsewhere(e) ==> !e.Scan? && !e.Forge?
  }

  lemma NextSeqMoves(a: int)
    ensures NextSeq(a) != a && 1 <= NextSeq(a) <= 0xFFFF
    ensures 0 <= a < 0xFFFF ==> NextSeq(a) == a + 1
    ensures a == 0xFFFF ==> NextSeq(a) == 1
  {
  }

  lemma {:induction false} NothingIsAnswered(tr: seq<System>, ev: seq<Event>, at: Stretch, call: Call, outcome: Outcome, x: nat, a: int)
    requires IsRun(tr, ev) && IsInvoke(tr, ev, at, call, outcome) && NobodyAnswers(call.plan) && at.from < x < at.until
    requires a == tr[at.from].blocks.ackSeq && !Contends(tr[at.from])
    ensures tr[x].blocks.ackSeq == a
    ensures tr[x].phase.Reading? ==> tr[x].issued == tr[at.from].issued
    ensures tr[x].phase.Writing? || tr[x].phase.Replying? || tr[x].phase.Polling? ==> tr[x].phase.cmd.number == NextSeq(a)
    decreases x
  {
    var y := x - 1;
    assert Enabled(tr[y], ev[y]) && tr[x] == Next(tr[y], ev[y]);
    NotReadyInside(tr, ev, at, call, outcome, x);
    if y > at.from {
      NothingIsAnswered(tr, ev, at, call, outcome, y, a);
      NotReadyInside(tr, ev, at, call, outcome, y);
    }
  }

  /** A command that no scan answers is a timeout and nothing else, if every
      transaction succeeds. */
  lemma AnUnansweredInvokeTimesOut(tr: seq<System>, ev: seq<Event>, at: Stretch, call: Call, outcome: Outcome)
    requires IsRun(tr, ev) && IsInvoke(tr, ev, at, call, outcome) && !Contends(tr[at.from])
    requires call.plan.readOk && call.plan.writeOk && PollsSucceed(call.plan) && NobodyAnswers(call.plan)
    ensures outcome == TimedOut(NextSeq(tr[at.from].blocks.ackSeq))
  {
    var a := tr[at.from].blocks.ackSeq;
    EndsForItsReason(tr, ev, at, call, outcome);
    NothingIsAnswered(tr, ev, at, call, outcome, at.until - 1, a);
    NextSeqMoves(a);
  }

  lemma {:induction false} StretchOf(tr: seq<System>, ev: seq<Event>, spans: seq<Stretch>, calls: seq<Call>,
                                     outcomes: seq<Outcome>, m: nat, x: nat) returns (l: nat)
    requires IsSession(tr, ev, spans, calls, outcomes) && m < |spans| && x < spans[m].until
    ensures l <= m && spans[l].from <= x < spans[l].until
    decreases m
  {
    if x < spans[m].from {
      var n := m - 1;
      assert spans[n].until == spans[m].from;
      l := StretchOf(tr, ev, spans, calls, outcomes, n, x);
    } else {
      l := m;
    }
  }

  /** The other parties of a call's schedule stay off both blocks. */
  ghost predicate Alone(call: Call) {
    forall e :: InSchedule(call.plan, e) && FromElsewhere(e) ==> SoleMaster(e)
  }

  lemma SessionIsAlone(tr: seq<System>, ev: seq<Event>, spans: seq<Stretch>, calls: seq<Call>, outcomes: seq<Outcome>, x: nat)
    requires IsSession(tr, ev, spans, calls, outcomes) && x < |ev|
    requires forall m :: 0 <= m < |calls| ==> Alone(calls[m])
    ensures SoleMaster(ev[x])
  {
    var l := StretchOf(tr, ev, spans, calls, outcomes, |spans| - 1, x);
    SpansStayInside(tr, ev, spans, calls, outcomes, l);
    AloneInside(tr, ev, spans[l], calls[l], outcomes[l], x);
  }

  lemma AloneInside(tr: seq<System>, ev: seq<Event>, at: Stretch, call: Call, outcome: Outcome, x: nat)
    requires IsRun(tr, ev) && IsInvoke(tr, ev, at, call, outcome) && Alone(call) && at.from <= x < at.until
    ensures SoleMaster(ev[x])
  {
  }

  lemma NoRefusalYet(tr: seq<System>, ev: seq<Event>, spans: seq<Stretch>, calls: seq<Call>, outcomes: seq<Outcome>, m: nat)
    requires IsSession(tr, ev, spans, calls, outcomes) && m < |spans|
    requires forall l :: 0 <= l <= m ==> !outcomes[l].Contended?
    ensures spans[m].until <= |ev| && NotRefusedBefore(tr, ev, spans[m].until)
  {
    SpansStayInside(tr, ev, spans, calls, outcomes, m);
    forall x | 0 <= x < spans[m].until
      ensures !Refuses(tr[x], ev[x])
    {
      var l := StretchOf(tr, ev, spans, calls, outcomes, m, x);
      SpansStayInside(tr, ev, spans, calls, outcomes, l);
      if Refuses(tr[x], ev[x]) {
        RefusalIsTheOutcome(tr, ev, spans[l], calls[l], outcomes[l], x);
      }
    }
  }

  /** The invoke a return belongs to is the one in whose stretch it lies. */
  lemma SpanLiesInside(tr: seq<System>, ev: seq<Event>, at: Stretch, call: Call, outcome: Outcome, i: nat, w: nat)
    requires IsRun(tr, ev) && IsInvoke(tr, ev, at, call, outcome) && InvokeSpan(tr, ev, i, w, at.until - 1)
    ensures at.from < i && tr[i].phase == Reading(call.code, call.arg0)
  {
    LandedInside(tr, ev, at, call, outcome, i, w);
  }

  /** This call, read at i and written at w, was executed exactly once, at k, before
      its stretch ends, and that execution answered `result`. */
  ghost predicate CallRanOnce(tr: seq<System>, ev: seq<Event>, at: Stretch, call: Call, result: int, i: nat, w: nat, k: nat)
    requires IsRun(tr, ev)
  {
    at.from < i && at.until > 0 && ExactlyOnce(tr, ev, i, w, k, at.until - 1)
    && tr[i].phase == Reading(call.code, call.arg0) && result == CommandResult(call.code, ev[k].fault, ev[k].cnc)
  }

  /** Of the program: any number of commands issued one after another to a fresh
      plant with no other master. Each that returns, with none refused before it,
      had its own command executed exactly once, after its write and before its
      return, and returns what that execution answered. */
  lemma ReturnedCallRanExactlyOnce(tr: seq<System>, ev: seq<Event>, spans: seq<Stretch>, calls: seq<Call>,
                                   outcomes: seq<Outcome>, m: nat)
    requires IsSession(tr, ev, spans, calls, outcomes) && Fresh(tr[0]) && m < |spans| && outcomes[m].Returned?
    requires forall l :: 0 <= l < |calls| ==> Alone(calls[l])
    requires forall l :: 0 <= l < m ==> !outcomes[l].Contended?
    ensures exists i: nat, w: nat, k: nat :: CallRanOnce(tr, ev, spans[m], calls[m], outcomes[m].result, i, w, k)
  {
    SpansStayInside(tr, ev, spans, calls, outcomes, m);
    NoRefusalYet(tr, ev, spans, calls, outcomes, m);
    forall x: nat | x < |ev|
      ensures SoleMaster(ev[x])
    {
      SessionIsAlone(tr, ev, spans, calls, outcomes, x);
    }
    ReturnedInSpan(tr, ev, spans[m], calls[m], outcomes[m]);
  }

  lemma ReturnedInSpan(tr: seq<System>, ev: seq<Event>, at: Stretch, call: Call, outcome: Outcome)
    requires SoleMasterRun(tr, ev) && IsInvoke(tr, ev, at, call, outcome) && outcome.Returned?
    requires NotRefusedBefore(tr, ev, at.until)
    ensures exists i: nat, w: nat, k: nat :: CallRanOnce(tr, ev, at, call, outcome.result, i, w, k)
  {
    var j := at.until - 1;
    assert Enabled(tr[j], ev[j]);
    ReturnedInvokeRanExactlyOnce(tr, ev, j);
    var i: nat, w: nat, k: nat :| ExactlyOnce(tr, ev, i, w, k, j);
    SpanLiesInside(tr, ev, at, call, outcome, i, w);
    assert CallRanOnce(tr, ev, at, call, outcome.result, i, w, k);
  }

  // -------------------------------------------------- what the caller is told

  /** The status of the OPC UA call; an acknowledgement that is no AckResult raises. */
  datatype CallStatus =
    | StatusGood
    | BadOutOfRange
    | BadInvalidState
    | BadResourceUnavailable
    | BadSequenceNumberUnknown
    | BadTimeout
    | BadCommunicationError
    | Escapes

  function StatusOf(outcome: Outcome): CallStatus {
    match outcome
    case Returned(result) =>
      if result == OK then StatusGood
      else if result == RANGE then BadOutOfRange
      else if result == STATE then BadInvalidState
      else BadResourceUnavailable
    case BadAnswer(_) => Escapes
    case Contended(_, _) => BadSequenceNumberUnknown
    case TimedOut(_) => BadTimeout
    case LinkError => BadCommunicationError
  }

  /** Seen from the call: the scan at k that executed its command found the machine
      able, unable, or the code unknown. */
  ghost predicate ToldTheTruth(call: Call, e: Event, status: CallStatus)
    requires e.Scan?
  {
    (status == StatusGood <==> (call.code == 1 && !e.fault) || call.code == 2 || (call.code == 3 && e.cnc == Idle)
                               || (call.code == 4 && e.cnc == Fault))
    && (status == BadOutOfRange <==> call.code < 1 || call.code > 4)
    && (status == StatusGood || status == BadOutOfRange || status == BadInvalidState)
  }

  /** On a fresh plant without another master, from the call to the machine: a call
      that is answered before any refusal had its command executed once, by a scan
      whose findings are what its status tells. */
  lemma CallersAreToldTheTruth(tr: seq<System>, ev: seq<Event>, spans: seq<Stretch>, calls: seq<Call>,
                               outcomes: seq<Outcome>, m: nat)
    requires IsSession(tr, ev, spans, calls, outcomes) && Fresh(tr[0]) && m < |spans| && outcomes[m].Returned?
    requires forall l :: 0 <= l < |calls| ==> Alone(calls[l])
    requires forall l :: 0 <= l < m ==> !outcomes[l].Contended?
    ensures exists i: nat, w: nat, k: nat :: CallRanOnce(tr, ev, spans[m], calls[m], outcomes[m].result, i, w, k)
                                             && ToldTheTruth(calls[m], ev[k], StatusOf(outcomes[m]))
  {
    ReturnedCallRanExactlyOnce(tr, ev, spans, calls, outcomes, m);
    var i: nat, w: nat, k: nat :| CallRanOnce(tr, ev, spans[m], calls[m], outcomes[m].result, i, w, k);
    assert ToldTheTruth(calls[m], ev[k], StatusOf(outcomes[m]));
  }

  /** Every other status says how the invoke ended: its last event. */
  lemma StatusTellsTheEnd(tr: seq<System>, ev: seq<Event>, at: Stretch, call: Call, outcome: Outcome)
    requires IsRun(tr, ev) && IsInvoke(tr, ev, at, call, outcome)
    ensures var e, last, status := ev[at.until - 1], tr[at.until - 1], StatusOf(outcome);
            (status == BadTimeout <==> e == Deadline)
            && (status == BadCommunicationError <==> e == ReadFails || e == WriteFails || e == PollFails)
            && (status == BadSequenceNumberUnknown <==> e == ReadOk)
            && (status == StatusGood <==> e == PollOk && last.blocks.ackResult == 0)
            && (status == BadOutOfRange <==> e == PollOk && last.blocks.ackResult == 1)
            && (status == BadInvalidState <==> e == PollOk && last.blocks.ackResult == 2)
            && (status == BadResourceUnavailable <==> e == PollOk && last.blocks.ackResult == 3)
            && (status == Escapes <==> e == PollOk && !(0 <= last.blocks.ackResult <= 3))
  {
    EndsForItsReason(tr, ev, at, call, outcome);
  }

  /** Nobody forges an acknowledgement in this schedule. */
  ghost predicate Unforged(call: Call) {
    forall e :: InSchedule(call.plan, e) && FromElsewhere(e) ==> !e.Forge?
  }

  lemma AnswersAreKnown(tr: seq<System>, ev: seq<Event>, i: nat, w: nat, j: nat)
    requires IsRun(tr, ev) && InvokeSpan(tr, ev, i, w, j) && forall x :: i <= x < j ==> !ev[x].Forge?
    ensures 0 <= tr[j].blocks.ackResult <= 2
  {
    ReturnReportsAnExecution(tr, ev, i, w, j);
  }

  lemma UnforgedInside(tr: seq<System>, ev: seq<Event>, at: Stretch, call: Call, outcome: Outcome, x: nat)
    requires IsRun(tr, ev) && IsInvoke(tr, ev, at, call, outcome) && Unforged(call) && at.from <= x < at.until
    ensures !ev[x].Forge?
  {
  }

  /** While nobody writes the ack block the call never raises, nor tells of a busy
      machine, whatever other masters do. */
  lemma NothingEscapes(tr: seq<System>, ev: seq<Event>, at: Stretch, call: Call, outcome: Outcome)
    requires IsRun(tr, ev) && tr[0].phase.Ready? && IsInvoke(tr, ev, at, call, outcome) && Unforged(call)
    ensures StatusOf(outcome) != Escapes && StatusOf(outcome) != BadResourceUnavailable
  {
    var j := at.until - 1;
    EndsForItsReason(tr, ev, at, call, outcome);
    if ev[j] == PollOk {
      PhaseHasAHistory(tr, ev, j);
      var i: nat, w: nat :| Landed(tr, ev, i, w, j);
      LandedInside(tr, ev, at, call, outcome, i, w);
      forall x: nat | i <= x < j
        ensures !ev[x].Forge?
      {
        UnforgedInside(tr, ev, at, call, outcome, x);
      }
      AnswersAreKnown(tr, ev, i, w, j);
    }
  }

  // A forged acknowledgement of 7, which is no AckResult.

  function ForgedEvent(t: int): Event {
    if t == 0 then Invoke(START, 0)
    else if t == 1 then ReadOk
    else if t == 2 then WriteLands
    else if t == 3 then WriteReplies
    else if t == 4 then Forge(Command(START, 0, 0, 1), 1, 7)
    else PollOk
  }

  function ForgedState(t: int): System {
    System(
      if t <= 2 then Blocks(Command(0, 0, 0, 0), 0, 0)
      else if t <= 4 then Blocks(Command(START, 0, 0, 1), 0, 0)
      else Blocks(Command(START, 0, 0, 1), 1, 7),
      if t <= 3 then None else Some(1),
      if t == 0 || t == 6 then Ready else if t == 1 then Reading(START, 0)
      else if t == 2 then Writing(Command(START, 0, 0, 1)) else if t == 3 then Replying(Command(START, 0, 0, 1))
      else Polling(Command(START, 0, 0, 1)),
      if t <= 2 then None else Some(Command(START, 0, 0, 1)),
      None)
  }

  lemma ForgedStep(t: nat)
    requires t < 6
    ensures Enabled(ForgedState(t), ForgedEvent(t)) && ForgedState(t + 1) == Next(ForgedState(t), ForgedEvent(t))
  {
  }

  /** The call on this run raises, although invoke's caller is said never to. */
  lemma AForgedAnswerEscapes(tr: seq<System>, ev: seq<Event>, call: Call)
    requires tr == seq(7, t => ForgedState(t)) && ev == seq(6, t => ForgedEvent(t))
    requires call == Call(START, 0, Schedule([], true, [], true, [], [Round([ForgedEvent(4)], true)]))
    ensures IsRun(tr, ev) && Fresh(tr[0]) && IsInvoke(tr, ev, Stretch(0, 6), call, BadAnswer(7))
    ensures StatusOf(BadAnswer(7)) == Escapes
  {
    forall t: nat | t < 6
      ensures Enabled(tr[t], ev[t]) && tr[t + 1] == Next(tr[t], ev[t])
    {
      ForgedStep(t);
    }
    assert call.plan.rounds[0].before[0] == ev[4];
    assert InRounds(call.plan.rounds, ev[4]);
  }
}
