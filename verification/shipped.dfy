/** Runs of the plant from a cold start: a command is written, and then the PLC
    scans. They meet the hypotheses of the theorems about runs, which say what
    becomes of them. */
module ShippedRuns {
  import opened Wrappers
  import opened Numbers
  import opened Binary32
  import opened Commands
  import opened Model
  import opened Codec
  import opened ImageTable
  import opened Points
  import opened Scan
  import opened PlantRuns
  import opened Deployment
  import F = ScanFrame
  import H = Handshake
  import W = WireLink
  import V = CycleView
  import S = Sampling
  import G = GatewayServer
  import M = CncMachine

  // ------------------------------------------------ parameters stay readable

  /** The registers of the two parameters are the same. */
  ghost predicate SameParameters(p: Points, holding: map<int, int>, after: map<int, int>)
    requires Readable(p, holding) && Readable(p, after)
  {
    forall k, a :: 0 <= k < 2 && Part(p, k).Addresses().Has(a) ==> after[a] == holding[a]
  }

  lemma ParametersEqual(p: Points, holding: map<int, int>, after: map<int, int>, k: int)
    requires Readable(p, holding) && Readable(p, after) && SameParameters(p, holding, after) && 0 <= k < 2
    ensures Parameter(p, after, k) == Parameter(p, holding, k)
  {
    SpanIsRegisters(p, holding, k);
    SpanIsRegisters(p, after, k);
    var m := Part(p, k);
    forall i | 0 <= i < Width(m.typ)
      ensures SpanOf(after, m)[i] == SpanOf(holding, m)[i]
    {
      assert m.Addresses().Has(m.addr + i);
    }
    assert SpanOf(after, m) == SpanOf(holding, m);
  }

  /** The two parameters read the same. */
  ghost predicate SameReadings(p: Points, s: PlantState, after: PlantState)
    requires CanScan(p, s) && CanScan(p, after)
  {
    Parameter(p, after.tables["holding"], 0) == Parameter(p, s.tables["holding"], 0)
    && Parameter(p, after.tables["holding"], 1) == Parameter(p, s.tables["holding"], 1)
  }

  lemma StillCanScan(p: Points, s: PlantState, after: PlantState)
    requires CanScan(p, s) && Sound(p, after)
    requires forall k, a :: 0 <= k < 2 && At(Part(p, k), "holding", a) ==>
               Holds(after.tables, "holding", a) && Holds(s.tables, "holding", a)
               && after.tables["holding"][a] == s.tables["holding"][a]
    ensures CanScan(p, after) && SameReadings(p, s, after)
  {
    SnapshotIsUsable(p, s);
    SnapshotIsUsable(p, after);
    ParametersAreSame(p, s.tables, after.tables);
    ParametersEqual(p, s.tables["holding"], after.tables["holding"], 0);
    ParametersEqual(p, s.tables["holding"], after.tables["holding"], 1);
  }

  lemma ParametersAreSame(p: Points, tables: Tables, after: Tables)
    requires "holding" in tables && "holding" in after
    requires Readable(p, tables["holding"]) && Readable(p, after["holding"])
    requires forall k, a :: 0 <= k < 2 && At(Part(p, k), "holding", a) ==>
               Holds(after, "holding", a) && Holds(tables, "holding", a) && after["holding"][a] == tables["holding"][a]
    ensures SameParameters(p, tables["holding"], after["holding"])
  {
    forall k, a | 0 <= k < 2 && Part(p, k).Addresses().Has(a)
      ensures after["holding"][a] == tables["holding"][a]
    {
      assert At(Part(p, k), "holding", a);
    }
  }

  lemma ParameterIsNotPublished(p: Points, k: int, a: int)
    requires WellPlaced(p) && 0 <= k < 2 && At(Part(p, k), "holding", a)
    ensures !F.IsPublished(p, "holding", a) && !F.IsAckRegister(p, "holding", a)
  {
    F.PartsAvoidAcks(p, k, "holding", a);
    forall l | 2 <= l < 5
      ensures !At(Part(p, l), "holding", a)
    {
      assert Apart(Part(p, k), Part(p, l));
    }
  }

  lemma ScanKeepsParameters(p: Points, s: PlantState, dt: real, after: PlantState)
    requires CanScan(p, s) && ScanStep(p, s, dt) == Ok(after)
    ensures CanScan(p, after) && SameReadings(p, s, after)
  {
    F.ScanKeepsSound(p, s, dt, after);
    F.ScanLeavesTheRest(p, s, dt, after);
    forall k, a | 0 <= k < 2 && At(Part(p, k), "holding", a)
      ensures Holds(after.tables, "holding", a) && Holds(s.tables, "holding", a)
              && after.tables["holding"][a] == s.tables["holding"][a]
    {
      assert HoldsSpan(s.tables, Part(p, k));
      ParameterIsNotPublished(p, k, a);
    }
    StillCanScan(p, s, after);
  }

  // ------------------------------------------------------------ scans alone

  /** A plant that scans, and has n scans before it could run off binary32. */
  ghost predicate Going(p: Points, dt: real, s: PlantState, n: nat, top: real, reach: real, limit: real) {
    Standard(p) && dt > 0.0 && Safe(p, s) && CanScan(p, s)
    && top == TopSpeed(p) && reach == top * dt && limit == 16777215.5 * Unit(253) * p.position.scale
    && 0.0 <= s.conveyor.position && s.conveyor.position + Times(n, reach) < limit
  }

  lemma ScanCompletes(p: Points, dt: real, s: PlantState, n: nat, top: real, reach: real, limit: real) returns (after: PlantState)
    requires Going(p, dt, s, n, top, reach, limit) && n > 0
    ensures Scans(p, dt, s, Tick) && PlantStep(p, dt, s, Tick, after) && ScanStep(p, s, dt) == Ok(after)
    ensures Going(p, dt, after, n - 1, top, reach, limit)
  {
    TopIsPositive(p, top, dt, reach);
    TimesIsPositive(n, reach);
    NotTooFar(p, s.conveyor.position, limit);
    OnlyThePositionCanFail(p, s);
    after := ScanStep(p, s, dt).value;
    StepIsSafe(p, dt, s, Tick, after);
    PositionStep(p, dt, s, Tick, after, top, reach);
    ScanKeepsParameters(p, s, dt, after);
  }

  lemma TopIsPositive(p: Points, top: real, dt: real, reach: real)
    requires Standard(p) && dt > 0.0 && top == TopSpeed(p) && reach == top * dt
    ensures reach >= 0.0
  {
    assert top >= 0.0;
    MulMono(0.0, top, dt);
  }

  lemma {:induction false} TimesIsPositive(n: nat, reach: real)
    requires reach >= 0.0
    ensures Times(n, reach) >= 0.0
  {
    if n == 0 {
    } else {
      TimesIsPositive(n - 1, reach);
    }
  }

  /** Nothing is pending in the registers. */
  ghost predicate Settled(p: Points, s: PlantState) {
    CanScan(p, s) && !Pending(p, Snapshot(s))
  }

  lemma ScanLeavesNothingPending(p: Points, s: PlantState, dt: real, after: PlantState)
    requires CanScan(p, s) && CanScan(p, after) && ScanStep(p, s, dt) == Ok(after)
    ensures Settled(p, after)
  {
    F.ScanAcknowledges(p, s, dt, after);
    F.ScanKeepsTheCommand(p, s, dt, after, p.cmdSeq);
  }

  ghost predicate CompletedScan(p: Points, dt: real, s: PlantState, after: PlantState) {
    Scans(p, dt, s, Tick) && PlantStep(p, dt, s, Tick, after)
  }

  lemma ScanSettles(p: Points, dt: real, s: PlantState, n: nat, top: real, reach: real, limit: real) returns (after: PlantState)
    requires Going(p, dt, s, n, top, reach, limit) && n > 0
    ensures CompletedScan(p, dt, s, after) && Settled(p, after) && Going(p, dt, after, n - 1, top, reach, limit)
  {
    after := ScanCompletes(p, dt, s, n, top, reach, limit);
    ScanLeavesNothingPending(p, s, dt, after);
  }

  /** n links in a row. */
  ghost predicate Chain<T(!new)>(xs: seq<T>, n: nat, link: (T, T) -> bool)
    decreases n
  {
    |xs| == n + 1 && (n > 0 ==> link(xs[0], xs[1]) && Chain(xs[1..], n - 1, link))
  }

  lemma {:induction false} LinkAt<T(!new)>(xs: seq<T>, n: nat, link: (T, T) -> bool, t: nat, u: nat)
    requires Chain(xs, n, link) && t < n && u == t + 1
    ensures link(xs[t], xs[u])
    decreases t
  {
    if t == 0 {
    } else {
      LinkAt(xs[1..], n - 1, link, t - 1, t);
    }
  }

  ghost predicate HasNext<T(!new)>(good: (T, nat) -> bool, link: (T, T) -> bool, y: T, k: nat) {
    k > 0 && exists z :: link(y, z) && good(z, k - 1)
  }

  lemma NextIs<T(!new)>(good: (T, nat) -> bool, link: (T, T) -> bool, y: T, k: nat, z: T, left: nat)
    requires k == left + 1 && link(y, z) && good(z, left)
    ensures HasNext(good, link, y, k)
  {
  }

  ghost predicate CanGoOn<T(!new)>(good: (T, nat) -> bool, link: (T, T) -> bool) {
    forall y: T, k: nat {:trigger good(y, k)} :: k > 0 && good(y, k) ==> HasNext(good, link, y, k)
  }

  /** Who can always go on makes a chain of any length, and can still go on. */
  lemma {:induction false} ChainFrom<T(!new)>(x: T, n: nat, left: nat, good: (T, nat) -> bool, link: (T, T) -> bool)
      returns (xs: seq<T>)
    requires good(x, n + left) && CanGoOn(good, link)
    ensures Chain(xs, n, link) && xs[0] == x && good(xs[n], left)
    decreases n
  {
    if n == 0 {
      xs := [x];
    } else {
      assert HasNext(good, link, x, n + left);
      var z :| link(x, z) && good(z, n + left - 1);
      var rest := ChainFrom(z, n - 1, left, good, link);
      xs := [x] + rest;
      assert xs[1..] == rest;
    }
  }

  lemma ChainOf<T(!new)>(x: T, n: nat, good: (T, nat) -> bool, link: (T, T) -> bool) returns (xs: seq<T>)
    requires good(x, n) && CanGoOn(good, link)
    ensures Chain(xs, n, link) && xs[0] == x
  {
    xs := ChainFrom(x, n, 0, good, link);
  }

  /** Safe, able to scan, and n scans away from the limit. */
  ghost predicate Near(p: Points, s: PlantState, n: nat, reach: real, limit: real) {
    Safe(p, s) && CanScan(p, s) && 0.0 <= s.conveyor.position && s.conveyor.position + Times(n, reach) < limit
  }

  /** A completed scan, after which nothing is pending. */
  ghost predicate ScanThenSettled(p: Points, dt: real, s: PlantState, after: PlantState) {
    CompletedScan(p, dt, s, after) && Settled(p, after)
  }

  ghost function ScanLink(p: Points, dt: real): (PlantState, PlantState) -> bool {
    (s, after) => ScanThenSettled(p, dt, s, after)
  }

  /** n scans, none of which but the first can find a command. */
  ghost predicate OnlyScans(p: Points, dt: real, st: seq<PlantState>, n: nat) {
    Chain(st, n, ScanLink(p, dt))
  }

  ghost function NearBy(p: Points, reach: real, limit: real): (PlantState, nat) -> bool {
    (s: PlantState, n: nat) => Near(p, s, n, reach, limit)
  }

  lemma OneAdvance(p: Points, dt: real, s: PlantState, n: nat, top: real, reach: real, limit: real) returns (after: PlantState)
    requires Standard(p) && dt > 0.0 && top == TopSpeed(p) && reach == top * dt
    requires limit == 16777215.5 * Unit(253) * p.position.scale && n > 0 && Near(p, s, n, reach, limit)
    ensures ScanThenSettled(p, dt, s, after) && Near(p, after, n - 1, reach, limit)
  {
    after := ScanSettles(p, dt, s, n, top, reach, limit);
  }

  lemma NearAdvances(p: Points, dt: real, s: PlantState, n: nat, top: real, reach: real, limit: real, left: nat)
    requires Standard(p) && dt > 0.0 && top == TopSpeed(p) && reach == top * dt
    requires limit == 16777215.5 * Unit(253) * p.position.scale && n == left + 1 && NearBy(p, reach, limit)(s, n)
    ensures HasNext(NearBy(p, reach, limit), ScanLink(p, dt), s, n)
  {
    var after := AdvanceBy(p, dt, s, n, top, reach, limit, left);
    NextIs(NearBy(p, reach, limit), ScanLink(p, dt), s, n, after, left);
  }

  lemma AdvanceBy(p: Points, dt: real, s: PlantState, n: nat, top: real, reach: real, limit: real, left: nat)
      returns (after: PlantState)
    requires Standard(p) && dt > 0.0 && top == TopSpeed(p) && reach == top * dt
    requires limit == 16777215.5 * Unit(253) * p.position.scale && n == left + 1 && NearBy(p, reach, limit)(s, n)
    ensures ScanLink(p, dt)(s, after) && NearBy(p, reach, limit)(after, left)
  {
    after := OneAdvance(p, dt, s, n, top, reach, limit);
  }

  lemma NearGoesOn(p: Points, dt: real, top: real, reach: real, limit: real)
    requires Standard(p) && dt > 0.0 && top == TopSpeed(p) && reach == top * dt
    requires limit == 16777215.5 * Unit(253) * p.position.scale
    ensures CanGoOn(NearBy(p, reach, limit), ScanLink(p, dt))
  {
    forall s: PlantState, n: nat | n > 0 && NearBy(p, reach, limit)(s, n)
      ensures HasNext(NearBy(p, reach, limit), ScanLink(p, dt), s, n)
    {
      NearAdvances(p, dt, s, n, top, reach, limit, n - 1);
    }
  }

  lemma GoingIsNear(p: Points, dt: real, s: PlantState, n: nat, top: real, reach: real, limit: real, all: nat)
    requires Going(p, dt, s, n, top, reach, limit) && all == n
    ensures NearBy(p, reach, limit)(s, all) && CanGoOn(NearBy(p, reach, limit), ScanLink(p, dt))
  {
    NearGoesOn(p, dt, top, reach, limit);
  }

  lemma KeepsScanning(p: Points, dt: real, s: PlantState, n: nat, top: real, reach: real, limit: real)
      returns (st: seq<PlantState>)
    requires Going(p, dt, s, n, top, reach, limit)
    ensures OnlyScans(p, dt, st, n) && st[0] == s
  {
    GoingIsNear(p, dt, s, n, top, reach, limit, n);
    st := ChainOf(s, n, NearBy(p, reach, limit), ScanLink(p, dt));
  }

  lemma ScanAt(p: Points, dt: real, st: seq<PlantState>, n: nat, t: nat, u: nat)
    requires OnlyScans(p, dt, st, n) && t < n && u == t + 1
    ensures CompletedScan(p, dt, st[t], st[u]) && Settled(p, st[u])
  {
    LinkAt(st, n, ScanLink(p, dt), t, u);
  }

  // -------------------------------------------- one command, and then scans

  /** Four register words. */
  predicate InRegisters(cmd: H.Command) {
    0 <= cmd.code < 0x1_0000 && 0 <= cmd.argLo < 0x1_0000 && 0 <= cmd.argHi < 0x1_0000 && 0 <= cmd.number < 0x1_0000
  }

  lemma BlockWordsAreRegisters(layout: seq<string>, cmd: H.Command)
    requires W.FieldLayout(layout) && InRegisters(cmd)
    ensures Registers(W.BlockWords(layout, cmd))
  {
    forall i | 0 <= i < |layout|
      ensures 0 <= W.BlockWords(layout, cmd)[i] < 0x1_0000
    {
      assert layout[i] in W.FIELDS;
    }
  }

  /** The command is in the registers, and only they have changed. */
  lemma CommandLands(c: Contract, p: Points, dt: real, s: PlantState, cmd: H.Command) returns (after: PlantState)
    requires W.Plant(c, p, s.tables) && Standard(p) && dt > 0.0 && Safe(p, s) && CanScan(p, s) && InRegisters(cmd)
    ensures PlantStep(p, dt, s, BlockWrite(c, cmd), after)
    ensures after == s.(tables := after.tables) && CanScan(p, after) && Safe(p, after) && SameReadings(p, s, after)
    ensures W.Plant(c, p, after.tables) && W.View(c, p, after.tables) == W.View(c, p, s.tables).(cmd := cmd)
  {
    var words := W.BlockWords(c.commandBlock.layout, cmd);
    BlockWordsAreRegisters(c.commandBlock.layout, cmd);
    W.BlockWriteIsAccepted(c, p, s.tables, cmd);
    after := s.(tables := Write(s.tables, 16, c.commandBlock.base, words).value);
    StepIsSafe(p, dt, s, BlockWrite(c, cmd), after);
    W.BlockWriteIsAnEvent(c, p, s.tables, cmd, after.tables);
    WriteKeepsParameters(c, p, s, words, after);
  }

  /** What the view says of a waiting command is what the scan finds. */
  lemma WaitsInSnapshot(c: Contract, p: Points, s: PlantState)
    requires W.Plant(c, p, s.tables) && CanScan(p, s)
    ensures Pending(p, Snapshot(s)) <==> !H.Quiescent(W.View(c, p, s.tables))
    ensures Snapshot(s).holding[p.cmdCode] == W.View(c, p, s.tables).cmd.code
  {
    W.ViewOfPending(c, p, s.tables);
    W.ViewOfAck(c, p, s.tables);
  }

  /** The FC16 write of a command with the first number. */
  function CommandWrite(c: Contract, code: int): PlantEvent
    requires W.FieldLayout(c.commandBlock.layout)
  {
    BlockWrite(c, H.Command(code, 0, 0, 1))
  }

  lemma CommandIsWritten(c: Contract, p: Points, dt: real, s: PlantState, code: int) returns (after: PlantState)
    requires ColdBlocks(c, p, s.tables) && Standard(p) && dt > 0.0 && Safe(p, s) && CanScan(p, s) && 0 <= code < 0x1_0000
    ensures PlantStep(p, dt, s, CommandWrite(c, code), after)
    ensures after == s.(tables := after.tables) && CanScan(p, after) && Safe(p, after)
    ensures Pending(p, Snapshot(after)) && Snapshot(after).holding[p.cmdCode] == code
  {
    after := CommandLands(c, p, dt, s, H.Command(code, 0, 0, 1));
    WaitsInSnapshot(c, p, after);
  }

  lemma WriteKeepsParameters(c: Contract, p: Points, s: PlantState, words: seq<int>, after: PlantState)
    requires W.Plant(c, p, s.tables) && CanScan(p, s) && Sound(p, after) && |words| == |c.commandBlock.layout|
    requires Write(s.tables, 16, c.commandBlock.base, words) == Ok(after.tables)
    ensures CanScan(p, after) && SameReadings(p, s, after)
  {
    forall k, a | 0 <= k < 2 && At(Part(p, k), "holding", a)
      ensures Holds(after.tables, "holding", a) && Holds(s.tables, "holding", a)
              && after.tables["holding"][a] == s.tables["holding"][a]
    {
      ParameterSurvives(p, s.tables, after.tables, p.cmd, words, k, a);
    }
    StillCanScan(p, s, after);
  }

  lemma ParameterSurvives(p: Points, tables: Tables, after: Tables, block: Span, words: seq<int>, k: int, a: int)
    requires WellPlaced(p) && Laid(p, tables) && Laid(p, after) && block == p.cmd && block.stop == block.start + |words|
    requires Write(tables, 16, block.start, words) == Ok(after) && 0 <= k < 2 && At(Part(p, k), "holding", a)
    ensures Holds(after, "holding", a) && Holds(tables, "holding", a) && after["holding"][a] == tables["holding"][a]
  {
    F.PartsAvoidAcks(p, k, "holding", a);
    assert HoldsSpan(tables, Part(p, k)) && HoldsSpan(after, Part(p, k));
    W.WriteKeepsOthers(tables, 16, block.start, words, after, a);
  }

  function ThenTicks(first: PlantEvent, n: nat): (r: seq<PlantEvent>)
    ensures |r| == n + 1 && r[0] == first && forall t :: 0 < t <= n ==> r[t] == Tick
  {
    [first] + seq(n, t => Tick)
  }

  lemma RunOf(p: Points, dt: real, s: PlantState, first: PlantEvent, st: seq<PlantState>, n: nat)
    requires OnlyScans(p, dt, st, n) && PlantStep(p, dt, s, first, st[0])
    ensures IsPlantRun(p, dt, [s] + st, ThenTicks(first, n))
  {
    var all, ev := [s] + st, ThenTicks(first, n);
    assert forall t :: 0 <= t <= n ==> all[t + 1] == st[t];
    forall t: nat | t < |ev|
      ensures PlantStep(p, dt, all[t], ev[t], all[t + 1])
    {
      StepOfRun(p, dt, s, first, st, n, t, all[t], ev[t], st[t]);
    }
  }

  lemma StepOfRun(p: Points, dt: real, s: PlantState, first: PlantEvent, st: seq<PlantState>, n: nat, t: nat,
                  before: PlantState, e: PlantEvent, after: PlantState)
    requires |st| == n + 1 && t <= n && before == ([s] + st)[t] && after == st[t] && e == ThenTicks(first, n)[t]
    requires OnlyScans(p, dt, st, n) && PlantStep(p, dt, s, first, st[0])
    ensures PlantStep(p, dt, before, e, after)
  {
    if t > 0 {
      ScanAt(p, dt, st, n, t - 1, t);
    }
  }

  /** From a cold start, for any command code and any number of scans: the run in
      which the command is written and the scans follow, the first of which finds
      it and the others nothing. */
  lemma CommandThenScans(c: Contract, p: Points, dt: real, s: PlantState, code: int, n: nat, top: real, reach: real, limit: real)
      returns (st: seq<PlantState>)
    requires ColdBlocks(c, p, s.tables) && Going(p, dt, s, n, top, reach, limit) && 0 <= code < 0x1_0000
    ensures OnlyScans(p, dt, st, n) && IsPlantRun(p, dt, [s] + st, ThenTicks(CommandWrite(c, code), n))
    ensures CanScan(p, st[0]) && Pending(p, Snapshot(st[0])) && Snapshot(st[0]).holding[p.cmdCode] == code
    ensures st[0] == s.(tables := st[0].tables)
  {
    var after := CommandIsWritten(c, p, dt, s, code);
    st := KeepsScanning(p, dt, after, n, top, reach, limit);
    RunOf(p, dt, s, CommandWrite(c, code), st, n);
  }

  /** What its events do: after the write, scans, and only the first of them
      executes anything. */
  ghost predicate DeedsAre(deeds: seq<Deed>, n: nat, first: Deed) {
    |deeds| == n + 1 && deeds[0] == Deed(false, false, false, false, false)
    && (n > 0 ==> deeds[1] == first)
    && forall t :: 1 < t <= n ==> deeds[t] == Deed(true, false, false, false, false)
  }

  lemma SettledDeed(p: Points, dt: real, s: PlantState)
    requires Scans(p, dt, s, Tick) && Settled(p, s)
    ensures DeedOf(p, dt, s, Tick) == Deed(true, false, false, false, false)
  {
  }

  lemma DeedAt(p: Points, dt: real, st: seq<PlantState>, ev: seq<PlantEvent>, deeds: seq<Deed>, t: nat)
    requires IsPlantRun(p, dt, st, ev) && deeds == Deeds(p, dt, st, ev) && t < |ev|
    ensures |deeds| == |ev| && deeds[t] == DeedOf(p, dt, st[t], ev[t])
  {
  }

  lemma WriteIsNoDeed(p: Points, dt: real, s: PlantState, write: PlantEvent)
    requires write.WriteRegs?
    ensures DeedOf(p, dt, s, write) == Deed(false, false, false, false, false)
  {
  }

  lemma DeedsOfTheRun(p: Points, dt: real, s: PlantState, write: PlantEvent, st: seq<PlantState>, n: nat, first: Deed,
                      deeds: seq<Deed>)
    requires OnlyScans(p, dt, st, n) && write.WriteRegs? && IsPlantRun(p, dt, [s] + st, ThenTicks(write, n))
    requires n > 0 ==> DeedOf(p, dt, st[0], Tick) == first
    requires deeds == Deeds(p, dt, [s] + st, ThenTicks(write, n))
    ensures DeedsAre(deeds, n, first)
  {
    DeedAt(p, dt, [s] + st, ThenTicks(write, n), deeds, 0);
    WriteIsNoDeed(p, dt, s, write);
    forall t: nat | 0 < t <= n
      ensures deeds[t] == if t == 1 then first else Deed(true, false, false, false, false)
    {
      DeedAt(p, dt, [s] + st, ThenTicks(write, n), deeds, t);
      assert ([s] + st)[t] == st[t - 1];
      if t > 1 {
        LaterDeed(p, dt, st, n, t - 1);
      }
    }
  }

  lemma LaterDeed(p: Points, dt: real, st: seq<PlantState>, n: nat, t: nat)
    requires OnlyScans(p, dt, st, n) && 0 < t < n
    ensures DeedOf(p, dt, st[t], Tick) == Deed(true, false, false, false, false)
  {
    ScanAt(p, dt, st, n, t, t + 1);
    ScanAt(p, dt, st, n, t - 1, t);
    SettledDeed(p, dt, st[t]);
  }

  lemma {:induction false} EveryDeedScans(deeds: seq<Deed>, n: nat, first: Deed, a: nat, t: nat)
    requires DeedsAre(deeds, n, first) && first.scans && a <= 1 && a <= t <= n + 1
    ensures ScanCount(deeds, a, t) == if t <= 1 then 0 else t - 1
    decreases t
  {
    if t == a {
    } else {
      EveryDeedScans(deeds, n, first, a, t - 1);
    }
  }

  // --------------------------------------------------------- the shipped plant

  lemma RoomFor(n: nat, reach: real, limit: real)
    requires n <= 10_000_000 && reach == 0.65535 && limit == 16777215.5 * Unit(253)
    ensures Times(n, reach) < limit
  {
    TimesIsProduct(n, reach);
    MulMono(n as real, 10_000_000.0, reach);
    UnitMono(149, 253);
    MulMono(1.0, Unit(253), 16777215.5);
  }

  lemma ColdIsGoing(p: Points, s: PlantState, n: nat, top: real, reach: real, limit: real)
    requires ColdMachine(p, s) && n <= 10_000_000
    requires top == 65.535 && reach == 0.65535 && limit == 16777215.5 * Unit(253)
    ensures Going(p, DT, s, n, top, reach, limit)
  {
    RoomFor(n, reach, limit);
  }

  /** The run of one command and n scans, with what its events do. */
  lemma ColdRun(c: Contract, p: Points, s: PlantState, code: int, n: nat, first: Deed)
      returns (st: seq<PlantState>, ev: seq<PlantEvent>, deeds: seq<Deed>)
    requires ColdMachine(p, s) && ColdBlocks(c, p, s.tables) && 0 < n <= 10_000_000 && 0 <= code < 0x1_0000
    requires first.scans && forall x :: FirstScan(p, s, code, x) ==> DeedOf(p, DT, x, Tick) == first
    ensures IsPlantRun(p, DT, st, ev) && st[0] == s && |ev| == n + 1 && deeds == Deeds(p, DT, st, ev)
    ensures DeedsAre(deeds, n, first)
  {
    var top, reach, limit := 65.535, 0.65535, 16777215.5 * Unit(253);
    ColdIsGoing(p, s, n, top, reach, limit);
    var scans := CommandThenScans(c, p, DT, s, code, n, top, reach, limit);
    st, ev := [s] + scans, ThenTicks(CommandWrite(c, code), n);
    deeds := Deeds(p, DT, st, ev);
    ScanAt(p, DT, scans, n, 0, 1);
    assert FirstScan(p, s, code, scans[0]);
    DeedsOfTheRun(p, DT, s, CommandWrite(c, code), scans, n, first, deeds);
  }

  /** A cold plant in whose registers this command waits. */
  ghost predicate FirstScan(p: Points, s: PlantState, code: int, x: PlantState) {
    Scans(p, DT, x, Tick) && Pending(p, Snapshot(x)) && Snapshot(x).holding[p.cmdCode] == code && x == s.(tables := x.tables)
  }

  // ---------------------------------------------------------- the shipped cycle

  lemma CycleDeed(p: Points, s: PlantState, x: PlantState)
    requires FirstScan(p, s, CNC_START, x) && s.cnc.state == Idle
    ensures DeedOf(p, DT, x, Tick) == Deed(true, false, false, true, false)
  {
  }

  /** A good poll before every event and after the last. */
  function EveryTime(n: nat): (r: seq<V.Attempt>)
    ensures |r| == n && forall j :: 0 <= j < n ==> r[j] == V.Tried(j, true)
  {
    seq(n, j requires 0 <= j < n => V.Tried(j, true))
  }

  function UpTo(n: nat): (r: seq<nat>)
    ensures |r| == n && forall j :: 0 <= j < n ==> r[j] == j
  {
    if n == 0 then [] else UpTo(n - 1) + [n - 1]
  }

  /** A gateway that polls these states, all well, adds just these transitions. */
  ghost predicate Records(p: Points, st: seq<PlantState>, n: nat, node: G.NodeState, signal: Signal, added: seq<int>) {
    V.Watched(p) && TypesOk(p) && V.Within(st, EveryTime(n))
    && G.After(node, signal, p.meta, V.StreamOf(p, st, EveryTime(n))).transitions == node.transitions + added
  }

  lemma {:induction false} GoodEveryTime(n: nat)
    ensures V.Goods(EveryTime(n)) == UpTo(n)
  {
    if n == 0 {
    } else {
      GoodEveryTime(n - 1);
      assert EveryTime(n)[..n - 1] == EveryTime(n - 1);
    }
  }

  lemma {:induction false} AllPresent<T>(s: seq<Option<T>>)
    ensures |S.Present(s)| <= |s|
    ensures |S.Present(s)| == |s| ==> forall i :: 0 <= i < |s| ==> s[i].Some?
    decreases |s|
  {
    if s == [] {
    } else {
      AllPresent(s[..|s| - 1]);
    }
  }

  lemma {:induction false} AtMostOneEach(states: map<int, string>, stream: seq<G.Happening>)
    ensures |G.Sights(states, stream)| <= |stream|
    decreases |stream|
  {
    if stream == [] {
    } else {
      AtMostOneEach(states, stream[..|stream| - 1]);
    }
  }

  lemma CountsOfDeeds(deeds: seq<Deed>, n: nat, first: Deed, times: seq<nat>)
    requires DeedsAre(deeds, n, first) && first.scans && times == UpTo(n + 2)
    ensures forall j :: 0 <= j < n + 2 ==> V.ScansAt(deeds, times)[j] == if j <= 1 then 0 else j - 1
  {
    forall j: nat | j < n + 2
      ensures V.ScansAt(deeds, times)[j] == if j <= 1 then 0 else j - 1
    {
      EveryDeedScans(deeds, n, first, 0, j);
    }
  }

  /** The register of the shipped cycle changes after the 2nd scan and then every
      29, 30, 30 and 30 scans. */
  lemma ShippedBounds(cnc: M.CncValue)
    requires cnc.durations == DURATIONS
    ensures M.Timed(cnc) && V.Bounds(cnc, DT, 0) == [2, 31, 61, 91, 121]
    ensures S.Sorted(V.Bounds(cnc, DT, 0)) && S.LongEnough(V.Bounds(cnc, DT, 0), 1)
  {
    ShippedDwell(cnc, Homing);
    ShippedDwell(cnc, Loading);
    ShippedDwell(cnc, Running);
    ShippedDwell(cnc, Unloading);
  }

  lemma PollsSpan(ns: seq<nat>, n: nat, bounds: seq<nat>)
    requires |ns| == n + 2 && forall j :: 0 <= j < n + 2 ==> ns[j] == if j <= 1 then 0 else j - 1
    requires n >= 121 && bounds == [2, 31, 61, 91, 121]
    ensures S.Polls(ns, 1) && S.Spans(ns, bounds)
  {
    S.StagePasses(bounds, 0, 0);
    S.StagePasses(bounds, n, 4);
  }

  lemma ShippedCodes(codes: map<CncState, int>)
    requires codes == Codes(STATES) && StateNames(STATES) && ALL_STATES <= codes.Keys
    ensures V.StageCodes(codes) == [0, 1, 2, 3, 4, 0]
  {
    CodesInOrder();
    var stages := V.StageCodes(codes);
    assert stages[0] == 0 && stages[1] == 1 && stages[2] == 2 && stages[3] == 3 && stages[4] == 4 && stages[5] == 0;
  }

  lemma CodesInOrder()
    ensures StateNames(STATES) && ALL_STATES <= Codes(STATES).Keys
    ensures var codes := Codes(STATES);
            codes[Idle] == 0 && codes[Homing] == 1 && codes[Loading] == 2 && codes[Running] == 3 && codes[Unloading] == 4
  {
    StatesAreNamed();
    assert ORDER[0] == Idle && ORDER[1] == Homing && ORDER[2] == Loading && ORDER[3] == Running && ORDER[4] == Unloading;
  }

  lemma ColdCnc(p: Points, s: PlantState)
    requires ColdMachine(p, s)
    ensures s.cnc.durations == DURATIONS && s.cnc.state == Idle
  {
  }

  lemma ColdView(p: Points, s: PlantState)
    requires ColdMachine(p, s)
    ensures V.Watched(p) && Safe(p, s) && M.Timed(s.cnc) && V.ViewOf(p, s) == V.Expected(p.codes, s.cnc, DT, 0)
  {
  }

  lemma ColdCodes(p: Points, s: PlantState)
    requires ColdMachine(p, s)
    ensures ALL_STATES <= p.codes.Keys && V.Unambiguous(p.codes) && p.codes.Values <= STATES.Keys
    ensures V.StageCodes(p.codes) == [0, 1, 2, 3, 4, 0]
  {
    CodesFit();
    V.CodesAreDeclared(STATES);
    ShippedCodes(p.codes);
  }

  lemma NoGapNoInterruption<T>(s: seq<Option<T>>)
    requires forall i :: 0 <= i < |s| ==> s[i].Some?
    ensures !exists i: nat, j: nat :: S.Interrupted(s, i, j)
  {
    forall i: nat, j: nat
      ensures !S.Interrupted(s, i, j)
    {
      if i + 1 < j < |s| {
        assert s[i + 1].Some?;
      }
    }
  }

  lemma AllSeen(sights: seq<Option<int>>, shown: seq<int>, goods: seq<nat>)
    requires forall j :: 0 <= j < |goods| ==> goods[j] < |shown|
    requires S.Present(sights) == V.PickedAt(shown, goods) && |sights| <= |goods|
    ensures !exists i: nat, j: nat :: S.Interrupted([Some(0)] + sights, i, j)
  {
    AllPresent(sights);
    NoGapNoInterruption([Some(0)] + sights);
  }

  lemma NeverInterrupted(p: Points, st: seq<PlantState>, n: nat, states: map<int, string>, shown: seq<int>,
                         sights: seq<Option<int>>)
    requires V.Watched(p) && TypesOk(p) && |st| == n + 2 && V.PollsShow(p, st, states, shown)
    requires sights == G.Sights(states, V.StreamOf(p, st, EveryTime(n + 2)))
    ensures !exists i: nat, j: nat :: S.Interrupted([Some(0)] + sights, i, j)
  {
    var attempts := EveryTime(n + 2);
    V.SightsAreSamples(p, st, attempts, states, shown);
    GoodEveryTime(n + 2);
    AtMostOneEach(states, V.StreamOf(p, st, attempts));
    AllSeen(sights, shown, V.Goods(attempts));
  }

  /** A run of one CNC_START and n scans, from a cold machine. */
  ghost predicate CycleRun(p: Points, st: seq<PlantState>, ev: seq<PlantEvent>, n: nat, deeds: seq<Deed>) {
    V.Watched(p) && IsPlantRun(p, DT, st, ev) && Safe(p, st[0]) && deeds == Deeds(p, DT, st, ev) && |ev| == n + 1
    && n >= 121 && DeedsAre(deeds, n, Deed(true, false, false, true, false))
    && st[0].cnc.durations == DURATIONS && st[0].cnc.state == Idle && M.Timed(st[0].cnc)
    && V.ViewOf(p, st[0]) == V.Expected(p.codes, st[0].cnc, DT, 0)
  }

  lemma {:induction false} CyclePolls(deeds: seq<Deed>, n: nat, goods: seq<nat>)
    requires DeedsAre(deeds, n, Deed(true, false, false, true, false)) && n >= 121 && goods == V.Goods(EveryTime(n + 2))
    ensures ScanCount(deeds, 0, 1) == 0 && V.OneCycle(deeds, 1)
    ensures forall j :: 0 <= j < |goods| ==> goods[j] <= |deeds|
    ensures S.Polls(V.ScansAt(deeds, goods), 1) && S.Spans(V.ScansAt(deeds, goods), [2, 31, 61, 91, 121])
  {
    var first := Deed(true, false, false, true, false);
    GoodEveryTime(n + 2);
    EveryDeedScans(deeds, n, first, 0, 1);
    CountsOfDeeds(deeds, n, first, goods);
    PollsSpan(V.ScansAt(deeds, goods), n, [2, 31, 61, 91, 121]);
  }

  lemma CycleShows(p: Points, st: seq<PlantState>, ev: seq<PlantEvent>, n: nat, deeds: seq<Deed>, states: map<int, string>,
                   bounds: seq<nat>)
    requires CycleRun(p, st, ev, n, deeds) && V.OneCycle(deeds, 1) && ScanCount(deeds, 0, 1) == 0
    requires p.codes.Values <= states.Keys && bounds == V.Bounds(st[0].cnc, DT, 0)
    ensures TypesOk(p) && V.PollsShow(p, st, states, V.Shown(p.codes, deeds, bounds))
  {
    V.RunIsSafe(p, DT, st, ev);
    V.RunShowsStages(p, DT, st, ev, 1, states, deeds, bounds);
  }

  lemma CycleOfTheRun(p: Points, st: seq<PlantState>, ev: seq<PlantEvent>, n: nat, deeds: seq<Deed>,
                      node: G.NodeState, signal: Signal)
    requires CycleRun(p, st, ev, n, deeds)
    requires signal.modbus == p.cncState && signal.states.Some? && p.codes.Values <= signal.states.value.Keys
    requires node.lastCode == Some(0) && V.Unambiguous(p.codes) && V.StageCodes(p.codes) == [0, 1, 2, 3, 4, 0]
    ensures Records(p, st, n + 2, node, signal, [1, 2, 3, 4, 0])
  {
    var attempts := EveryTime(n + 2);
    CyclePolls(deeds, n, V.Goods(attempts));
    ShippedBounds(st[0].cnc);
    var stream, sights := CycleSeen(p, st, ev, n, deeds, signal.states.value, attempts, V.Bounds(st[0].cnc, DT, 0));
    CycleAdds(p, st, ev, n, deeds, node, signal, attempts, V.Goods(attempts), [Some(0)] + sights, stream);
  }

  lemma CycleSeen(p: Points, st: seq<PlantState>, ev: seq<PlantEvent>, n: nat, deeds: seq<Deed>, states: map<int, string>,
                  attempts: seq<V.Attempt>, bounds: seq<nat>) returns (stream: seq<G.Happening>, sights: seq<Option<int>>)
    requires attempts == EveryTime(n + 2) && p.codes.Values <= states.Keys
    requires CycleRun(p, st, ev, n, deeds) && V.OneCycle(deeds, 1) && ScanCount(deeds, 0, 1) == 0
    requires bounds == V.Bounds(st[0].cnc, DT, 0)
    ensures TypesOk(p) && V.Within(st, attempts) && stream == V.StreamOf(p, st, attempts) && sights == G.Sights(states, stream)
    ensures !exists i: nat, j: nat :: S.Interrupted([Some(0)] + sights, i, j)
  {
    CycleShows(p, st, ev, n, deeds, states, bounds);
    stream := V.StreamOf(p, st, attempts);
    sights := G.Sights(states, stream);
    NeverInterrupted(p, st, n, states, V.Shown(p.codes, deeds, bounds), sights);
  }

  lemma CycleAdds(p: Points, st: seq<PlantState>, ev: seq<PlantEvent>, n: nat, deeds: seq<Deed>, node: G.NodeState,
                  signal: Signal, attempts: seq<V.Attempt>, goods: seq<nat>, s: seq<Option<int>>, stream: seq<G.Happening>)
    requires V.Watched(p) && TypesOk(p) && V.Within(st, attempts) && stream == V.StreamOf(p, st, attempts)
    requires goods == V.Goods(attempts) && forall j :: 0 <= j < |goods| ==> goods[j] <= |deeds|
    requires S.Polls(V.ScansAt(deeds, goods), 1) && S.Spans(V.ScansAt(deeds, goods), [2, 31, 61, 91, 121])
    requires signal.modbus == p.cncState && signal.states.Some? && p.codes.Values <= signal.states.value.Keys
    requires node.lastCode == Some(0) && V.Unambiguous(p.codes) && V.StageCodes(p.codes) == [0, 1, 2, 3, 4, 0]
    requires s == [Some(0)] + G.Sights(signal.states.value, stream) && !exists i: nat, j: nat :: S.Interrupted(s, i, j)
    requires CycleRun(p, st, ev, n, deeds) && V.OneCycle(deeds, 1) && ScanCount(deeds, 0, 1) == 0
    requires V.Bounds(st[0].cnc, DT, 0) == [2, 31, 61, 91, 121] && S.LongEnough([2, 31, 61, 91, 121], 1)
    ensures G.After(node, signal, p.meta, stream).transitions == node.transitions + [1, 2, 3, 4, 0]
  {
    var added := V.CycleIsRecorded(p, DT, st, ev, 1, attempts, 1, node, signal, deeds, st[0].cnc, [2, 31, 61, 91, 121], s);
    assert V.StageCodes(p.codes)[1..] == [1, 2, 3, 4, 0];
  }

  lemma ColdCycle(c: Contract, p: Points, s: PlantState, n: nat)
      returns (st: seq<PlantState>, ev: seq<PlantEvent>, deeds: seq<Deed>)
    requires ColdMachine(p, s) && ColdBlocks(c, p, s.tables) && 121 <= n <= 10_000_000
    ensures CycleRun(p, st, ev, n, deeds) && st[0] == s
  {
    ColdCnc(p, s);
    ColdView(p, s);
    forall x | FirstScan(p, s, CNC_START, x)
      ensures DeedOf(p, DT, x, Tick) == Deed(true, false, false, true, false)
    {
      CycleDeed(p, s, x);
    }
    st, ev, deeds := ColdRun(c, p, s, CNC_START, n, Deed(true, false, false, true, false));
  }

  /** The shipped plant from a cold start, a written CNC_START and at least 121
      scans, a gateway that has published Idle and polls well every time: it
      records the codes of Homing, Loading, Running, Unloading and Idle, and
      nothing else. */
  lemma ShippedCycleIsRecorded(c: Contract, p: Points, s: PlantState, n: nat, node: G.NodeState, signal: Signal)
      returns (st: seq<PlantState>, ev: seq<PlantEvent>)
    requires ColdMachine(p, s) && ColdBlocks(c, p, s.tables) && 121 <= n <= 10_000_000
    requires signal.modbus == p.cncState && signal.states == Some(STATES) && node.lastCode == Some(0)
    ensures IsPlantRun(p, DT, st, ev) && st[0] == s && |st| == n + 2
    ensures Records(p, st, n + 2, node, signal, [1, 2, 3, 4, 0])
  {
    var deeds;
    st, ev, deeds := ColdCycle(c, p, s, n);
    ColdView(p, s);
    ColdCodes(p, s);
    CycleOfTheRun(p, st, ev, n, deeds, node, signal);
  }

  // --------------------------------------------------- a ramp time that is NaN

  /** What the two registers hold when the scan finds a NaN ramp time. */
  lemma RampIsNaNIff(p: Points, holding: map<int, int>)
    requires Readable(p, holding) && p.ramp.typ.Float32? && p.ramp.scale > 0.0
    ensures forall a :: p.ramp.Addresses().Has(a) ==> a in holding
    ensures var words := SpanOf(holding, p.ramp);
            Registers(words) && |words| == 2
            && (Parameter(p, holding, 1) == NaN <==> Collect(words, p.meta) % TWO_31 > INFINITY)
  {
    assert p.ramp == Part(p, 1);
    SpanIsRegisters(p, holding, 1);
    DecodesToNaNIff(p.ramp, SpanOf(holding, p.ramp), p.meta);
  }

  /** The write a client can make: one FC16 of a quiet NaN, big end first. */
  const NAN_WORDS: seq<int> := [0x7FC0, 0x0000]

  lemma WrittenSpan(p: Points, tables: Tables, after: Tables, words: seq<int>)
    requires TypesOk(p) && p.ramp.typ.Float32? && p.ramp.table == "holding" && |words| == 2
    requires Write(tables, 16, p.ramp.addr, words) == Ok(after)
    ensures "holding" in after && forall a :: p.ramp.Addresses().Has(a) ==> a in after["holding"]
    ensures SpanOf(after["holding"], p.ramp) == words
  {
  }

  lemma RampWriteIsAccepted(p: Points, tables: Tables, words: seq<int>)
    requires TypesOk(p) && HoldsSpan(tables, Part(p, 1)) && p.ramp.typ.Float32? && "holding" in tables && |words| == 2
    ensures Write(tables, 16, p.ramp.addr, words).Ok?
  {
    assert p.ramp == Part(p, 1);
    forall a | p.ramp.addr <= a < p.ramp.addr + 2
      ensures a in tables["holding"]
    {
      assert At(Part(p, 1), "holding", a);
    }
  }

  /** Accepted by the data store in any safe plant, and the scan after it finds a
      NaN, which the clamp lets through. */
  lemma ANaNCanBeWritten(p: Points, s: PlantState, dt: real) returns (after: PlantState)
    requires Standard(p) && dt > 0.0 && Safe(p, s) && p.ramp.typ.Float32? && p.ramp.scale > 0.0
    requires p.meta.wordOrder == "high_first" && p.meta.byteOrder == "big"
    ensures PlantStep(p, dt, s, WriteRegs(16, p.ramp.addr, NAN_WORDS), after) && Safe(p, after)
    ensures Usable(p, Snapshot(after))
    ensures Parameter(p, after.tables["holding"], 1) == NaN && Clamp(Parameter(p, after.tables["holding"], 1)) == NaN
  {
    assert p.ramp == Part(p, 1);
    RampWriteIsAccepted(p, s.tables, NAN_WORDS);
    after := s.(tables := Write(s.tables, 16, p.ramp.addr, NAN_WORDS).value);
    StepIsSafe(p, dt, s, WriteRegs(16, p.ramp.addr, NAN_WORDS), after);
    SnapshotIsUsable(p, after);
    WrittenSpan(p, s.tables, after.tables, NAN_WORDS);
    QuietNaN(p.meta);
    FindsNaN(p, after.tables["holding"], NAN_WORDS);
  }

  lemma FindsNaN(p: Points, holding: map<int, int>, words: seq<int>)
    requires Readable(p, holding) && p.ramp.typ.Float32? && p.ramp.scale > 0.0
    requires (forall a :: p.ramp.Addresses().Has(a) ==> a in holding) && SpanOf(holding, p.ramp) == words
    requires |words| == 2 && Registers(words) && Collect(words, p.meta) % TWO_31 > INFINITY
    ensures Parameter(p, holding, 1) == NaN && Clamp(Parameter(p, holding, 1)) == NaN
  {
    RampIsNaNIff(p, holding);
    ClampHoldsIff(NaN);
  }

  lemma QuietNaN(meta: Meta)
    requires meta.wordOrder == "high_first" && meta.byteOrder == "big"
    ensures Registers(NAN_WORDS) && Collect(NAN_WORDS, meta) % TWO_31 > INFINITY
  {
    assert "high_first" != "low_first" by { assert "high_first"[0] != "low_first"[0]; }
    assert "big" != "little" by { assert |"big"| != |"little"|; }
  }
}
