/** What a client sees of one CNC cycle: the machine's schedule, as the registers
    show it a scan late, as the gateway samples it, as transitions. */
module CycleView {
  import opened Wrappers
  import opened Commands
  import opened Numbers
  import opened Binary32
  import opened Model
  import opened Codec
  import opened ImageTable
  import opened Points
  import opened Scan
  import opened PlantRuns
  import F = ScanFrame
  import M = CncMachine
  import S = Sampling
  import G = GatewayServer

  // -------------------------------------------------- machine and register

  /** The machine, and the code its register shows. */
  datatype CncView = CncView(cnc: M.CncValue, code: int)

  /** A machine without a fault does only this, whatever else is commanded: each
      completed scan publishes the state it began with, and steps. */
  predicate Follows(codes: map<CncState, int>, dt: real, before: CncView, deed: Deed, after: CncView)
    requires ALL_STATES <= codes.Keys
  {
    M.Timed(before.cnc) && before.cnc.state != Fault && !deed.fails ==>
      after == if deed.scans then
                 EveryState(before.cnc.state);
                 CncView(M.Stepped(if deed.cycles then M.Started(before.cnc) else before.cnc, dt), codes[before.cnc.state])
               else before
  }

  predicate AlwaysFollows(codes: map<CncState, int>, dt: real, views: seq<CncView>, deeds: seq<Deed>)
    requires ALL_STATES <= codes.Keys
  {
    |views| == |deeds| + 1
    && forall x, y :: 0 <= x < |deeds| && y == x + 1 ==> Follows(codes, dt, views[x], deeds[x], views[y])
  }

  /** One cycle is started, by the scan at a, and nothing fails. */
  predicate OneCycle(deeds: seq<Deed>, a: nat) {
    a < |deeds| && deeds[a].scans && deeds[a].cycles
    && forall x :: 0 <= x < |deeds| ==> (x != a ==> !deeds[x].cycles) && !deeds[x].fails
  }

  /** The view n scans after the cycle began, the starting scan included. */
  function Expected(codes: map<CncState, int>, idle: M.CncValue, dt: real, n: nat): CncView
    requires ALL_STATES <= codes.Keys && M.Timed(idle)
  {
    EveryState(Idle);
    if n == 0 then CncView(idle, codes[Idle])
    else
      var shown := if n == 1 then Idle else M.Steps(M.Started(idle), dt, n - 1).state;
      EveryState(shown);
      CncView(M.Steps(M.Started(idle), dt, n), codes[shown])
  }

  lemma {:induction false} BeforeTheCycle(codes: map<CncState, int>, dt: real, views: seq<CncView>, deeds: seq<Deed>,
                                          a: nat, t: nat, idle: M.CncValue)
    requires ALL_STATES <= codes.Keys && AlwaysFollows(codes, dt, views, deeds) && OneCycle(deeds, a)
    requires M.Timed(idle) && idle.state == Idle && views[0] == Expected(codes, idle, dt, 0) && t <= a
    ensures views[t] == Expected(codes, idle, dt, 0)
    decreases t
  {
    if t == 0 {
    } else {
      BeforeTheCycle(codes, dt, views, deeds, a, t - 1, idle);
      assert Follows(codes, dt, views[t - 1], deeds[t - 1], views[t]);
    }
  }

  lemma {:induction false} InTheCycle(codes: map<CncState, int>, dt: real, views: seq<CncView>, deeds: seq<Deed>,
                                      a: nat, t: nat, idle: M.CncValue)
    requires ALL_STATES <= codes.Keys && AlwaysFollows(codes, dt, views, deeds) && OneCycle(deeds, a)
    requires M.Timed(idle) && idle.state == Idle && dt > 0.0 && views[0] == Expected(codes, idle, dt, 0) && a < t < |views|
    ensures ScanCount(deeds, a, t) > 0
    ensures views[t] == Expected(codes, idle, dt, ScanCount(deeds, a, t))
    decreases t
  {
    assert Follows(codes, dt, views[t - 1], deeds[t - 1], views[t]);
    if t - 1 == a {
      BeforeTheCycle(codes, dt, views, deeds, a, a, idle);
      assert M.Steps(M.Started(idle), dt, 0) == M.Started(idle);
    } else {
      InTheCycle(codes, dt, views, deeds, a, t - 1, idle);
      var n := ScanCount(deeds, a, t - 1);
      M.CycleFollowsSchedule(idle, dt, n);
    }
  }

  // --------------------------------------------------------------- as stages

  /** The completed scans after which the register changes, when s0 scans were
      completed before the starting one: Homing shows one scan less than it lasts. */
  function Bounds(idle: M.CncValue, dt: real, s0: nat): (r: seq<nat>)
    requires M.Timed(idle) && dt > 0.0
    ensures |r| == 5
  {
    [s0 + 2, s0 + 1 + M.EndOf(idle, dt, Homing), s0 + 1 + M.EndOf(idle, dt, Loading),
     s0 + 1 + M.EndOf(idle, dt, Running), s0 + 1 + M.EndOf(idle, dt, Unloading)]
  }

  const STAGES: seq<CncState> := [Idle, Homing, Loading, Running, Unloading, Idle]

  function StageCodes(codes: map<CncState, int>): (r: seq<int>)
    requires ALL_STATES <= codes.Keys
    ensures |r| == 6
  {
    seq(6, i requires 0 <= i < 6 => EveryState(STAGES[i]); codes[STAGES[i]])
  }

  predicate Unambiguous(codes: map<CncState, int>) {
    forall s, r :: s in codes && r in codes && s != r ==> codes[s] != codes[r]
  }

  /** The codes the PLC publishes, built from the same declaration the gateway
      decodes with: no two states share one, and the gateway knows every one. */
  lemma CodesAreDeclared(states: map<int, string>)
    requires StateNames(states)
    ensures Unambiguous(Codes(states)) && Codes(states).Values <= states.Keys
    ensures forall s :: s in Codes(states) ==> StateNamed(states[Codes(states)[s]]) == Some(s)
  {
    CodesAreUnambiguous(states);
  }

  lemma StagesAreDistinct(codes: map<CncState, int>)
    requires ALL_STATES <= codes.Keys && Unambiguous(codes)
    ensures S.Distinct(StageCodes(codes))
  {
    EveryState(Idle);
    EveryState(Homing);
    EveryState(Loading);
    EveryState(Running);
    EveryState(Unloading);
  }

  lemma BoundsAreSorted(idle: M.CncValue, dt: real, s0: nat)
    requires M.Timed(idle) && dt > 0.0
    ensures S.Sorted(Bounds(idle, dt, s0))
  {
    assert Homing in M.CYCLE && Loading in M.CYCLE && Running in M.CYCLE && Unloading in M.CYCLE;
  }

  /** The states are all seen by every poller with gaps of at most `gap` scans
      exactly when Homing lasts longer than that, and the other three as long. */
  lemma CycleIsSeenIff(idle: M.CncValue, dt: real, s0: nat, gap: nat, codes: map<CncState, int>)
    requires M.Timed(idle) && dt > 0.0 && gap > 0 && ALL_STATES <= codes.Keys && Unambiguous(codes)
    ensures Homing in idle.durations && Loading in idle.durations && Running in idle.durations && Unloading in idle.durations
    ensures M.DwellOf(idle, dt, Homing) > gap && M.DwellOf(idle, dt, Loading) >= gap
            && M.DwellOf(idle, dt, Running) >= gap && M.DwellOf(idle, dt, Unloading) >= gap
            <==> forall ns :: S.Polls(ns, gap) && S.Spans(ns, Bounds(idle, dt, s0)) ==>
                   S.RecordsAll(StageCodes(codes), Bounds(idle, dt, s0), ns)
  {
    assert Homing in M.CYCLE && Loading in M.CYCLE && Running in M.CYCLE && Unloading in M.CYCLE;
    DwellsAreLongIff(idle, dt, s0, gap);
    BoundsAreSorted(idle, dt, s0);
    StagesAreDistinct(codes);
    S.NothingIsMissedIff(StageCodes(codes), Bounds(idle, dt, s0), gap);
  }

  lemma DwellsAreLongIff(idle: M.CncValue, dt: real, s0: nat, gap: nat)
    requires M.Timed(idle) && dt > 0.0
    ensures Homing in idle.durations && Loading in idle.durations && Running in idle.durations && Unloading in idle.durations
    ensures M.DwellOf(idle, dt, Homing) > gap && M.DwellOf(idle, dt, Loading) >= gap
            && M.DwellOf(idle, dt, Running) >= gap && M.DwellOf(idle, dt, Unloading) >= gap
            <==> S.LongEnough(Bounds(idle, dt, s0), gap)
  {
    assert Homing in M.CYCLE && Loading in M.CYCLE && Running in M.CYCLE && Unloading in M.CYCLE;
    var b := Bounds(idle, dt, s0);
    if S.LongEnough(b, gap) {
      assert b[0] + gap <= b[1];
      assert b[1] + gap <= b[2];
      assert b[2] + gap <= b[3];
      assert b[3] + gap <= b[4];
    }
  }

  /** The register shows the stage the number of completed scans falls in. */
  lemma ExpectedIsStage(codes: map<CncState, int>, idle: M.CncValue, dt: real, s0: nat, n: nat)
    requires ALL_STATES <= codes.Keys && M.Timed(idle) && idle.state == Idle && dt > 0.0
    ensures Expected(codes, idle, dt, n).code == StageCodes(codes)[S.Stage(Bounds(idle, dt, s0), s0 + n)]
  {
    var b := Bounds(idle, dt, s0);
    BoundsAreSorted(idle, dt, s0);
    S.StagePasses(b, s0 + n, 0);
    S.StagePasses(b, s0 + n, 1);
    S.StagePasses(b, s0 + n, 2);
    S.StagePasses(b, s0 + n, 3);
    S.StagePasses(b, s0 + n, 4);
    if n >= 2 {
      M.CycleFollowsSchedule(idle, dt, n - 1);
    }
  }

  lemma EarlyIsStageZero(idle: M.CncValue, dt: real, s0: nat, n: nat)
    requires M.Timed(idle) && dt > 0.0 && n <= s0 + 1
    ensures S.Stage(Bounds(idle, dt, s0), n) == 0
  {
    BoundsAreSorted(idle, dt, s0);
    S.StagePasses(Bounds(idle, dt, s0), n, 0);
  }

  lemma {:induction false} ScansAdd(deeds: seq<Deed>, a: nat, t: nat)
    requires a <= t <= |deeds|
    ensures ScanCount(deeds, 0, t) == ScanCount(deeds, 0, a) + ScanCount(deeds, a, t)
    decreases t
  {
    if a < t {
      ScansAdd(deeds, a, t - 1);
    }
  }

  /** Over the whole run the register follows the stages, by scans completed. */
  lemma RegisterFollowsStages(codes: map<CncState, int>, dt: real, views: seq<CncView>, deeds: seq<Deed>,
                              a: nat, t: nat, idle: M.CncValue)
    requires ALL_STATES <= codes.Keys && AlwaysFollows(codes, dt, views, deeds) && OneCycle(deeds, a)
    requires M.Timed(idle) && idle.state == Idle && dt > 0.0 && views[0] == Expected(codes, idle, dt, 0) && t < |views|
    ensures views[t].code
            == StageCodes(codes)[S.Stage(Bounds(idle, dt, ScanCount(deeds, 0, a)), ScanCount(deeds, 0, t))]
  {
    if t <= a {
      ShowsIdleBefore(codes, dt, views, deeds, a, t, idle);
    } else {
      ShowsStagesAfter(codes, dt, views, deeds, a, t, idle);
    }
  }

  lemma ShowsIdleBefore(codes: map<CncState, int>, dt: real, views: seq<CncView>, deeds: seq<Deed>,
                        a: nat, t: nat, idle: M.CncValue)
    requires ALL_STATES <= codes.Keys && AlwaysFollows(codes, dt, views, deeds) && OneCycle(deeds, a)
    requires M.Timed(idle) && idle.state == Idle && dt > 0.0 && views[0] == Expected(codes, idle, dt, 0) && t <= a
    ensures views[t].code
            == StageCodes(codes)[S.Stage(Bounds(idle, dt, ScanCount(deeds, 0, a)), ScanCount(deeds, 0, t))]
  {
    BeforeTheCycle(codes, dt, views, deeds, a, t, idle);
    ScansAdd(deeds, t, a);
    EarlyCode(codes, idle, dt, ScanCount(deeds, 0, a), ScanCount(deeds, 0, t));
  }

  lemma ShowsStagesAfter(codes: map<CncState, int>, dt: real, views: seq<CncView>, deeds: seq<Deed>,
                         a: nat, t: nat, idle: M.CncValue)
    requires ALL_STATES <= codes.Keys && AlwaysFollows(codes, dt, views, deeds) && OneCycle(deeds, a)
    requires M.Timed(idle) && idle.state == Idle && dt > 0.0 && views[0] == Expected(codes, idle, dt, 0) && a < t < |views|
    ensures views[t].code
            == StageCodes(codes)[S.Stage(Bounds(idle, dt, ScanCount(deeds, 0, a)), ScanCount(deeds, 0, t))]
  {
    InTheCycle(codes, dt, views, deeds, a, t, idle);
    ScansAdd(deeds, a, t);
    ExpectedIsStage(codes, idle, dt, ScanCount(deeds, 0, a), ScanCount(deeds, a, t));
  }

  lemma EarlyCode(codes: map<CncState, int>, idle: M.CncValue, dt: real, s0: nat, n: nat)
    requires ALL_STATES <= codes.Keys && M.Timed(idle) && dt > 0.0 && n <= s0
    ensures Expected(codes, idle, dt, 0).code == StageCodes(codes)[S.Stage(Bounds(idle, dt, s0), n)]
  {
    EarlyIsStageZero(idle, dt, s0, n);
  }

  // ---------------------------------------------------------- in the plant

  /** The state signal as the contract has it: one unsigned word that only the
      PLC can write. */
  predicate Watched(p: Points) {
    Standard(p) && p.cncState.table == "input" && ALL_STATES <= p.codes.Keys
  }

  lemma StateIsHeld(p: Points, tables: Tables)
    requires Watched(p) && TypesOk(p) && Laid(p, tables)
    ensures Holds(tables, "input", p.cncState.addr)
  {
    assert HoldsSpan(tables, Part(p, 4));
    assert At(Part(p, 4), "input", p.cncState.addr);
  }

  ghost function ViewOf(p: Points, s: PlantState): CncView
    requires Watched(p) && Safe(p, s)
  {
    StateIsHeld(p, s.tables);
    CncView(s.cnc, s.tables["input"][p.cncState.addr])
  }

  lemma StateIsOneWord(p: Points, image: InputImage)
    requires Watched(p) && TypesOk(p)
    ensures image.cnc in p.codes && PublishedWords(p, image, 4) == Ok([p.codes[image.cnc]])
  {
    EveryState(image.cnc);
    CodeEncodes(p, p.codes[image.cnc]);
  }

  lemma OneWordShows(tables: Tables, m: Mapping, word: int)
    requires m.typ.UInt16? && F.Shows(tables, m, [word])
    ensures Holds(tables, m.table, m.addr) && tables[m.table][m.addr] == word
  {
    assert F.ShowsAt(tables, m, 0, [word][0]);
  }

  lemma ScanShowsTheState(p: Points, s: PlantState, dt: real, after: PlantState)
    requires Watched(p) && CanScan(p, s) && ScanStep(p, s, dt) == Ok(after)
    ensures s.cnc.state in p.codes
    ensures Holds(after.tables, "input", p.cncState.addr)
    ensures after.tables["input"][p.cncState.addr] == p.codes[s.cnc.state]
  {
    StateIsOneWord(p, Snapshot(s));
    F.ScanPublishes(p, s, dt, after, 4);
    OneWordShows(after.tables, Part(p, 4), p.codes[s.cnc.state]);
  }

  lemma ScanStepsTheCnc(p: Points, s: PlantState, dt: real, after: PlantState)
    requires CanScan(p, s) && ScanStep(p, s, dt) == Ok(after) && s.cnc.state != Fault
    ensures after.cnc == M.Stepped(if Accepted(p, Snapshot(s), CNC_START) then M.Started(s.cnc) else s.cnc, dt)
  {
  }

  lemma StepFollows(p: Points, dt: real, s: PlantState, e: PlantEvent, after: PlantState)
    requires Watched(p) && dt > 0.0 && Safe(p, s) && Safe(p, after) && PlantStep(p, dt, s, e, after)
    ensures Follows(p.codes, dt, ViewOf(p, s), DeedOf(p, dt, s, e), ViewOf(p, after))
  {
    StateIsHeld(p, s.tables);
    match e
    case WriteRegs(fc, address, values) =>
      if Write(s.tables, fc, address, values).Ok? {
        WritesStayInTheirTables(s.tables, fc, address, values, after.tables);
      }
    case Tick =>
      SnapshotIsUsable(p, s);
      if ScanStep(p, s, dt).Ok? && s.cnc.state != Fault {
        ScanShowsTheState(p, s, dt, after);
        ScanStepsTheCnc(p, s, dt, after);
      }
    case Fails(_, _) | Rests =>
  }

  ghost predicate AllSafe(p: Points, st: seq<PlantState>) {
    forall t :: 0 <= t < |st| ==> Safe(p, st[t])
  }

  ghost function Views(p: Points, st: seq<PlantState>): (r: seq<CncView>)
    requires Watched(p) && AllSafe(p, st)
    ensures |r| == |st|
  {
    seq(|st|, t requires 0 <= t < |st| => ViewOf(p, st[t]))
  }

  lemma RunIsSafe(p: Points, dt: real, st: seq<PlantState>, ev: seq<PlantEvent>)
    requires Standard(p) && dt > 0.0 && IsPlantRun(p, dt, st, ev) && Safe(p, st[0])
    ensures AllSafe(p, st)
  {
    forall t | 0 <= t < |st|
      ensures Safe(p, st[t])
    {
      SafeAt(p, dt, st, ev, t);
    }
  }

  lemma RunFollows(p: Points, dt: real, st: seq<PlantState>, ev: seq<PlantEvent>)
    requires Watched(p) && dt > 0.0 && IsPlantRun(p, dt, st, ev) && AllSafe(p, st)
    ensures AlwaysFollows(p.codes, dt, Views(p, st), Deeds(p, dt, st, ev))
  {
    forall x, y | 0 <= x < |ev| && y == x + 1
      ensures Follows(p.codes, dt, Views(p, st)[x], Deeds(p, dt, st, ev)[x], Views(p, st)[y])
    {
      StepFollows(p, dt, st[x], ev[x], st[y]);
    }
  }

  // ------------------------------------------------- through the gateway

  /** One poll of the state signal: read its register, decode it. */
  function PollOf(p: Points, tables: Tables): G.Happening
    requires Watched(p) && TypesOk(p)
  {
    match Read(tables, 4, p.cncState.addr, 1)
    case Err(_) => G.Polled(G.Bad)
    case Ok(words) =>
      if !Registers(words) then G.Polled(G.Bad)
      else match Decode(p.cncState, words, p.meta)
        case Err(_) => G.Polled(G.Bad)
        case Ok(value) => G.Polled(G.Good(words, value))
  }

  lemma PollShowsTheCode(p: Points, s: PlantState, states: map<int, string>)
    requires Watched(p) && Safe(p, s) && ViewOf(p, s).code in states
    ensures G.ShowsState(states, PollOf(p, s.tables), ViewOf(p, s).code)
  {
    StateIsHeld(p, s.tables);
    var code := s.tables["input"][p.cncState.addr];
    assert Read(s.tables, 4, p.cncState.addr, 1).value == [code];
    OneWordDecodes(p.cncState, [code], p.meta);
    assert code as real * 1.0 == code as real;
    assert Trunc(code as real) == code;
  }

  /** What reaches the gateway's publish state: a poll of the run's state `at` that
      succeeds or fails on the link, or a client's write. */
  datatype Attempt = Tried(at: nat, ok: bool) | Wrote(v: Float)

  predicate Within(st: seq<PlantState>, attempts: seq<Attempt>) {
    forall j :: 0 <= j < |attempts| && attempts[j].Tried? ==> attempts[j].at < |st|
  }

  function StreamOf(p: Points, st: seq<PlantState>, attempts: seq<Attempt>): seq<G.Happening>
    requires Watched(p) && TypesOk(p) && Within(st, attempts)
  {
    seq(|attempts|, j requires 0 <= j < |attempts| =>
      match attempts[j]
      case Wrote(v) => G.Written(v)
      case Tried(at, ok) => if ok then PollOf(p, st[at].tables) else G.Polled(G.Bad))
  }

  /** Where the good polls are. */
  function Goods(attempts: seq<Attempt>): seq<nat> {
    if attempts == [] then []
    else
      var last := attempts[|attempts| - 1];
      Goods(attempts[..|attempts| - 1]) + if last.Tried? && last.ok then [last.at] else []
  }

  lemma {:induction false} GoodsWithin(st: seq<PlantState>, attempts: seq<Attempt>)
    requires Within(st, attempts)
    ensures forall j :: 0 <= j < |Goods(attempts)| ==> Goods(attempts)[j] < |st|
    decreases |attempts|
  {
    if attempts == [] {
    } else {
      GoodsWithin(st, attempts[..|attempts| - 1]);
    }
  }

  /** The scans completed before each poll. */
  function ScansAt(deeds: seq<Deed>, q: seq<nat>): (r: seq<nat>)
    requires forall j :: 0 <= j < |q| ==> q[j] <= |deeds|
    ensures |r| == |q|
  {
    seq(|q|, j requires 0 <= j < |q| => ScanCount(deeds, 0, q[j]))
  }

  function PickedAt(shown: seq<int>, q: seq<nat>): (r: seq<int>)
    requires forall j :: 0 <= j < |q| ==> q[j] < |shown|
    ensures |r| == |q|
  {
    seq(|q|, j requires 0 <= j < |q| => shown[q[j]])
  }

  /** Every poll that succeeds shows what the register holds at that time. */
  ghost predicate PollsShow(p: Points, st: seq<PlantState>, states: map<int, string>, shown: seq<int>)
    requires Watched(p) && TypesOk(p)
  {
    |shown| == |st| && forall t :: 0 <= t < |st| ==> G.ShowsState(states, PollOf(p, st[t].tables), shown[t])
  }

  lemma {:induction false} SightsAreSamples(p: Points, st: seq<PlantState>, attempts: seq<Attempt>, states: map<int, string>,
                                            shown: seq<int>)
    requires Watched(p) && TypesOk(p) && Within(st, attempts) && PollsShow(p, st, states, shown)
    ensures forall j :: 0 <= j < |Goods(attempts)| ==> Goods(attempts)[j] < |shown|
    ensures S.Present(G.Sights(states, StreamOf(p, st, attempts))) == PickedAt(shown, Goods(attempts))
    ensures forall j :: 0 <= j < |attempts| && StreamOf(p, st, attempts)[j].Polled? ==>
              !G.Raises(Some(states), StreamOf(p, st, attempts)[j].r)
    decreases |attempts|
  {
    GoodsWithin(st, attempts);
    if attempts == [] {
    } else {
      var k := |attempts| - 1;
      SightsAreSamples(p, st, attempts[..k], states, shown);
      var stream := StreamOf(p, st, attempts);
      assert stream[..k] == StreamOf(p, st, attempts[..k]);
      var sights := G.Sights(states, stream);
      var last := attempts[k];
      if last.Tried? {
        assert G.ShowsState(states, PollOf(p, st[last.at].tables), shown[last.at]);
        assert sights[..|sights| - 1] == G.Sights(states, stream[..k]);
      } else {
        assert sights == G.Sights(states, stream[..k]);
      }
    }
  }

  lemma StageCodesAreCodes(codes: map<CncState, int>, k: nat)
    requires ALL_STATES <= codes.Keys && k < 6
    ensures StageCodes(codes)[k] in codes.Values
  {
    EveryState(STAGES[k]);
  }

  /** What the state register holds at each time of a run with one cycle. */
  ghost function Shown(codes: map<CncState, int>, deeds: seq<Deed>, bounds: seq<nat>): (r: seq<int>)
    requires ALL_STATES <= codes.Keys && |bounds| == 5
    ensures |r| == |deeds| + 1
  {
    seq(|deeds| + 1, t requires 0 <= t <= |deeds| => StageCodes(codes)[S.Stage(bounds, ScanCount(deeds, 0, t))])
  }

  lemma RunShowsStages(p: Points, dt: real, st: seq<PlantState>, ev: seq<PlantEvent>, a: nat,
                       states: map<int, string>, deeds: seq<Deed>, bounds: seq<nat>)
    requires Watched(p) && dt > 0.0 && IsPlantRun(p, dt, st, ev) && AllSafe(p, st) && deeds == Deeds(p, dt, st, ev)
    requires OneCycle(deeds, a) && M.Timed(st[0].cnc) && ViewOf(p, st[0]) == Expected(p.codes, st[0].cnc, dt, 0)
    requires st[0].cnc.state == Idle && bounds == Bounds(st[0].cnc, dt, ScanCount(deeds, 0, a))
    requires p.codes.Values <= states.Keys
    ensures TypesOk(p) && PollsShow(p, st, states, Shown(p.codes, deeds, bounds))
  {
    assert Safe(p, st[0]);
    RunFollows(p, dt, st, ev);
    forall t: nat | t < |st|
      ensures G.ShowsState(states, PollOf(p, st[t].tables), Shown(p.codes, deeds, bounds)[t])
    {
      RegisterFollowsStages(p.codes, dt, Views(p, st), deeds, a, t, st[0].cnc);
      StageCodesAreCodes(p.codes, S.Stage(bounds, ScanCount(deeds, 0, t)));
      PollShowsTheCode(p, st[t], states);
    }
  }

  /** The same through the gateway: the moves between what the good polls show are
      the stages, all of them. */
  lemma GoodPollsMoveThroughStages(codes: map<CncState, int>, deeds: seq<Deed>, bounds: seq<nat>, q: seq<nat>, gap: nat,
                                   s: seq<Option<int>>, sights: seq<Option<int>>)
    requires ALL_STATES <= codes.Keys && Unambiguous(codes) && |bounds| == 5 && S.Sorted(bounds)
    requires forall j :: 0 <= j < |q| ==> q[j] <= |deeds|
    requires S.Polls(ScansAt(deeds, q), gap) && S.Spans(ScansAt(deeds, q), bounds) && S.LongEnough(bounds, gap)
    requires s == [Some(StageCodes(codes)[0])] + sights
    requires S.Present(sights) == PickedAt(Shown(codes, deeds, bounds), q)
    ensures S.Moves(StageCodes(codes)[0], S.Present(s)) == StageCodes(codes)[1..]
  {
    StagesAreDistinct(codes);
    S.RecordsAllWhenLong(StageCodes(codes), bounds, ScansAt(deeds, q), gap);
    assert PickedAt(Shown(codes, deeds, bounds), q) == S.Samples(StageCodes(codes), bounds, ScansAt(deeds, q));
    S.PresentAfter(StageCodes(codes)[0], sights);
    S.MovesFromStart(StageCodes(codes)[0], S.Present(sights));
  }

  /** In any run of the plant in which one cycle is started and the CNC does not
      fail, whatever else is written and commanded, whichever polls fail and
      whatever clients write: if the gateway has published Idle, good polls are
      at most `gap` completed scans apart and reach from before the first change
      to after the last, and the dwells are long enough, then what the gateway
      records is, repeats apart, Homing, Loading, Running, Unloading, Idle; and
      exactly these, each once, if and only if no polls failed between two good
      polls of one state. */
  lemma CycleIsRecorded(p: Points, dt: real, st: seq<PlantState>, ev: seq<PlantEvent>, a: nat, attempts: seq<Attempt>,
                        gap: nat, n: G.NodeState, signal: Signal, deeds: seq<Deed>, idle: M.CncValue, bounds: seq<nat>,
                        s: seq<Option<int>>) returns (added: seq<int>)
    requires Watched(p) && dt > 0.0 && IsPlantRun(p, dt, st, ev) && Safe(p, st[0]) && deeds == Deeds(p, dt, st, ev)
    requires idle == st[0].cnc && idle.state == Idle && ViewOf(p, st[0]) == Expected(p.codes, idle, dt, 0)
    requires OneCycle(deeds, a) && bounds == Bounds(idle, dt, ScanCount(deeds, 0, a))
    requires signal.modbus == p.cncState && signal.states.Some? && p.codes.Values <= signal.states.value.Keys
    requires Unambiguous(p.codes) && n.lastCode == Some(StageCodes(p.codes)[0])
    requires Within(st, attempts) && forall j :: 0 <= j < |Goods(attempts)| ==> Goods(attempts)[j] <= |deeds|
    requires S.Polls(ScansAt(deeds, Goods(attempts)), gap) && S.Spans(ScansAt(deeds, Goods(attempts)), bounds)
    requires S.LongEnough(bounds, gap)
    requires s == [n.lastCode] + G.Sights(signal.states.value, StreamOf(p, st, attempts))
    ensures G.After(n, signal, p.meta, StreamOf(p, st, attempts)).transitions == n.transitions + added
    ensures S.Moves(StageCodes(p.codes)[0], added) == StageCodes(p.codes)[1..]
    ensures added == StageCodes(p.codes)[1..] <==> !exists i: nat, j: nat :: S.Interrupted(s, i, j)
  {
    var states, stream := signal.states.value, StreamOf(p, st, attempts);
    RunIsSafe(p, dt, st, ev);
    RunShowsStages(p, dt, st, ev, a, states, deeds, bounds);
    SightsAreSamples(p, st, attempts, states, Shown(p.codes, deeds, bounds));
    BoundsAreSorted(idle, dt, ScanCount(deeds, 0, a));
    GoodPollsMoveThroughStages(p.codes, deeds, bounds, Goods(attempts), gap, s, G.Sights(states, stream));
    added := G.TransitionsFollowGoodPolls(n, signal, p.meta, stream, StageCodes(p.codes)[0], s);
  }
}
