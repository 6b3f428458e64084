/** The CNC's timed cycle (src/machine/cnc.py). */
module CncMachine {
  import opened Numbers
  import opened Commands

  const CYCLE: seq<CncState> := [Homing, Loading, Running, Unloading]

  predicate InCycle(state: CncState) {
    state in CYCLE
  }

  /** The state after `state` in CYCLE_ORDER, Idle after the last. */
  function After(state: CncState): CncState {
    match state
    case Homing => Loading
    case Loading => Running
    case Running => Unloading
    case _ => Idle
  }

  datatype CncValue = CncValue(durations: map<CncState, real>, state: CncState, elapsed: real)

  /** Every state of the cycle has its duration. */
  predicate Timed(c: CncValue) {
    forall state :: state in CYCLE ==> state in c.durations
  }

  function Started(c: CncValue): CncValue {
    if c.state == Idle then c.(state := Homing, elapsed := 0.0) else c
  }

  function Faulted(c: CncValue): CncValue {
    c.(state := Fault, elapsed := 0.0)
  }

  function WasReset(c: CncValue): CncValue {
    if c.state == Fault then c.(state := Idle, elapsed := 0.0) else c
  }

  function Stepped(c: CncValue, dt: real): CncValue
    requires Timed(c)
  {
    if !InCycle(c.state) then c
    else if c.elapsed + dt >= c.durations[c.state] then c.(state := After(c.state), elapsed := 0.0)
    else c.(elapsed := c.elapsed + dt)
  }

  class Cnc {
    var durations: map<CncState, real>
    var state: CncState
    var elapsed: real

    constructor (durations: map<CncState, real>)
      ensures Value() == CncValue(durations, Idle, 0.0)
    {
      this.durations, state, elapsed := durations, Idle, 0.0;
    }

    function Value(): CncValue
      reads this
    {
      CncValue(durations, state, elapsed)
    }

    method Start()
      modifies this`state, this`elapsed
      ensures Value() == Started(old(Value()))
    {
      if state == Idle {
        state := CYCLE[0];
        elapsed := 0.0;
      }
    }

    method RaiseFault()
      modifies this`state, this`elapsed
      ensures Value() == Faulted(old(Value()))
    {
      state := Fault;
      elapsed := 0.0;
    }

    method Reset()
      modifies this`state, this`elapsed
      ensures Value() == WasReset(old(Value()))
    {
      if state == Fault {
        state := Idle;
        elapsed := 0.0;
      }
    }

    method Step(dt: real)
      requires Timed(Value())
      modifies this`state, this`elapsed
      ensures Value() == Stepped(old(Value()), dt)
    {
      if state !in CYCLE {
        return;
      }
      elapsed := elapsed + dt;
      if elapsed >= durations[state] {
        Advance();
      }
    }

    method Advance()
      requires InCycle(state)
      modifies this`state, this`elapsed
      ensures state == After(old(state)) && elapsed == 0.0
    {
      var idx := 0;
      while CYCLE[idx] != state
        invariant 0 <= idx < |CYCLE| && state !in CYCLE[..idx]
        decreases |CYCLE| - idx
      {
        idx := idx + 1;
      }
      if idx == |CYCLE| - 1 {
        state := Idle;
      } else {
        state := CYCLE[idx + 1];
      }
      elapsed := 0.0;
    }
  }

  // ------------------------------------------------------------ whole cycles

  function Steps(c: CncValue, dt: real, k: nat): (r: CncValue)
    requires Timed(c)
    ensures r.durations == c.durations
    decreases k
  {
    if k == 0 then c else Stepped(Steps(c, dt, k - 1), dt)
  }

  /** The steps a state lasts: a duration that is not positive still takes one. */
  function Dwell(duration: real, dt: real): nat
    requires dt > 0.0
  {
    if duration <= dt then 1 else Ceil(duration / dt)
  }

  lemma DwellIs(duration: real, dt: real, k: nat)
    requires dt > 0.0 && k > 0
    ensures k as real * dt >= duration <==> k >= Dwell(duration, dt)
  {
    DivBound(k as real, duration, dt);
    MulMono(1.0, k as real, dt);
  }

  lemma {:induction false} OneDwell(c: CncValue, dt: real, k: nat)
    requires Timed(c) && dt > 0.0 && InCycle(c.state) && c.elapsed == 0.0
    requires k <= Dwell(c.durations[c.state], dt)
    ensures Steps(c, dt, k) == if k < Dwell(c.durations[c.state], dt) then c.(elapsed := k as real * dt)
                               else c.(state := After(c.state), elapsed := 0.0)
    decreases k
  {
    if k == 0 {
    } else {
      OneDwell(c, dt, k - 1);
      DwellIs(c.durations[c.state], dt, k);
      assert k as real * dt == (k - 1) as real * dt + dt;
    }
  }

  lemma {:induction false} StepsAdd(c: CncValue, dt: real, a: nat, b: nat)
    requires Timed(c)
    ensures Steps(c, dt, a + b) == Steps(Steps(c, dt, a), dt, b)
    decreases b
  {
    if b == 0 {
    } else {
      StepsAdd(c, dt, a, b - 1);
    }
  }

  lemma {:induction false} RestingStays(c: CncValue, dt: real, k: nat)
    requires Timed(c) && !InCycle(c.state)
    ensures Steps(c, dt, k) == c
    decreases k
  {
    if k == 0 {
    } else {
      RestingStays(c, dt, k - 1);
    }
  }

  function DwellOf(c: CncValue, dt: real, state: CncState): nat
    requires dt > 0.0 && state in c.durations
  {
    Dwell(c.durations[state], dt)
  }

  /** Steps from start() until `state` is left. */
  function EndOf(c: CncValue, dt: real, state: CncState): nat
    requires Timed(c) && dt > 0.0
  {
    var h := DwellOf(c, dt, Homing);
    var l := h + DwellOf(c, dt, Loading);
    var r := l + DwellOf(c, dt, Running);
    match state
    case Homing => h
    case Loading => l
    case Running => r
    case _ => r + DwellOf(c, dt, Unloading)
  }

  /** The state n steps after start(): the four states once each, in order, for
      exactly their dwells, and Idle from then on. */
  function Schedule(c: CncValue, dt: real, n: nat): CncState
    requires Timed(c) && dt > 0.0
  {
    if n < EndOf(c, dt, Homing) then Homing
    else if n < EndOf(c, dt, Loading) then Loading
    else if n < EndOf(c, dt, Running) then Running
    else if n < EndOf(c, dt, Unloading) then Unloading
    else Idle
  }

  lemma Leg(c: CncValue, dt: real, a: nat, n: nat, state: CncState)
    requires Timed(c) && dt > 0.0 && InCycle(state)
    requires Steps(c, dt, a) == c.(state := state, elapsed := 0.0)
    requires a <= n
    ensures n < a + DwellOf(c, dt, state) ==> Steps(c, dt, n).state == state
    ensures n == a + DwellOf(c, dt, state) ==> Steps(c, dt, n) == c.(state := After(state), elapsed := 0.0)
  {
    StepsAdd(c, dt, a, n - a);
    if n - a <= Dwell(c.durations[state], dt) {
      OneDwell(c.(state := state, elapsed := 0.0), dt, n - a);
    }
  }

  lemma LegEnds(c: CncValue, dt: real)
    requires Timed(c) && dt > 0.0 && c.state == Homing && c.elapsed == 0.0
    ensures Steps(c, dt, EndOf(c, dt, Homing)) == c.(state := Loading, elapsed := 0.0)
    ensures Steps(c, dt, EndOf(c, dt, Loading)) == c.(state := Running, elapsed := 0.0)
    ensures Steps(c, dt, EndOf(c, dt, Running)) == c.(state := Unloading, elapsed := 0.0)
    ensures Steps(c, dt, EndOf(c, dt, Unloading)) == c.(state := Idle, elapsed := 0.0)
  {
    Leg(c, dt, 0, EndOf(c, dt, Homing), Homing);
    Leg(c, dt, EndOf(c, dt, Homing), EndOf(c, dt, Loading), Loading);
    Leg(c, dt, EndOf(c, dt, Loading), EndOf(c, dt, Running), Running);
    Leg(c, dt, EndOf(c, dt, Running), EndOf(c, dt, Unloading), Unloading);
  }

  lemma LegHolds(c: CncValue, dt: real, n: nat, state: CncState)
    requires Timed(c) && dt > 0.0 && c.state == Homing && c.elapsed == 0.0
    requires state == Schedule(c, dt, n) && state != Idle
    ensures Steps(c, dt, n).state == state
  {
    LegEnds(c, dt);
    match state
    case Homing => Leg(c, dt, 0, n, Homing);
    case Loading => Leg(c, dt, EndOf(c, dt, Homing), n, Loading);
    case Running => Leg(c, dt, EndOf(c, dt, Loading), n, Running);
    case Unloading => Leg(c, dt, EndOf(c, dt, Running), n, Unloading);
  }

  lemma RestAfter(c: CncValue, dt: real, n: nat)
    requires Timed(c) && dt > 0.0 && c.state == Homing && c.elapsed == 0.0
    requires n >= EndOf(c, dt, Unloading)
    ensures Steps(c, dt, n) == c.(state := Idle, elapsed := 0.0)
  {
    LegEnds(c, dt);
    StepsAdd(c, dt, EndOf(c, dt, Unloading), n - EndOf(c, dt, Unloading));
    RestingStays(c.(state := Idle, elapsed := 0.0), dt, n - EndOf(c, dt, Unloading));
  }

  lemma CycleFollowsSchedule(c: CncValue, dt: real, n: nat)
    requires Timed(c) && dt > 0.0 && c.state == Idle
    ensures Steps(Started(c), dt, n).state == Schedule(c, dt, n)
    ensures n >= EndOf(c, dt, Unloading) ==> Steps(Started(c), dt, n) == c.(elapsed := 0.0)
  {
    if n >= EndOf(c, dt, Unloading) {
      RestAfter(Started(c), dt, n);
    } else {
      LegHolds(Started(c), dt, n, Schedule(c, dt, n));
    }
  }

  lemma DwellTime(duration: real, dt: real)
    requires dt > 0.0 && duration > 0.0
    ensures duration <= Dwell(duration, dt) as real * dt < duration + dt
  {
    var k := Dwell(duration, dt);
    DwellIs(duration, dt, k);
    if k > 1 {
      DwellIs(duration, dt, k - 1);
      assert (k - 1) as real * dt == k as real * dt - dt;
    }
  }

  lemma DwellTimes(duration: real, dt: real, n: nat)
    requires dt > 0.0 && duration > 0.0 && n == Dwell(duration, dt)
    ensures duration <= Times(n, dt) < duration + dt
  {
    DwellTime(duration, dt);
    TimesIsProduct(n, dt);
  }

  /** The whole cycle takes at least the configured time, and less than four
      steps more. */
  lemma CycleTime(c: CncValue, dt: real)
    requires Timed(c) && dt > 0.0 && forall state :: state in CYCLE ==> c.durations[state] > 0.0
    ensures var configured := c.durations[Homing] + c.durations[Loading] + c.durations[Running] + c.durations[Unloading];
            configured <= Times(EndOf(c, dt, Unloading), dt) < configured + 4.0 * dt
  {
    assert Homing in CYCLE && Loading in CYCLE && Running in CYCLE && Unloading in CYCLE;
    var h, l := DwellOf(c, dt, Homing), DwellOf(c, dt, Loading);
    var r, u := DwellOf(c, dt, Running), DwellOf(c, dt, Unloading);
    DwellTimes(c.durations[Homing], dt, h);
    DwellTimes(c.durations[Loading], dt, l);
    DwellTimes(c.durations[Running], dt, r);
    DwellTimes(c.durations[Unloading], dt, u);
    TimesAdds(h, l, dt);
    TimesAdds(h + l, r, dt);
    TimesAdds(h + l + r, u, dt);
  }

  // ------------------------------------------------------------------ fault

  datatype Action = DoStart | DoFault | DoReset | DoStep(dt: real)

  function Acted(c: CncValue, a: Action): CncValue
    requires Timed(c)
  {
    match a
    case DoStart => Started(c)
    case DoFault => Faulted(c)
    case DoReset => WasReset(c)
    case DoStep(dt) => Stepped(c, dt)
  }

  function ActedAll(c: CncValue, actions: seq<Action>): (r: CncValue)
    requires Timed(c)
    ensures r.durations == c.durations
    decreases |actions|
  {
    if actions == [] then c else Acted(ActedAll(c, actions[..|actions| - 1]), actions[|actions| - 1])
  }

  /** Whatever else happens, in any order: a faulted machine stays faulted until
      reset(), and a machine that was never told of a fault never shows one. */
  lemma {:induction false} FaultNeedsItsCause(c: CncValue, actions: seq<Action>)
    requires Timed(c)
    ensures c.state == Fault && DoReset !in actions ==> ActedAll(c, actions).state == Fault
    ensures c.state != Fault && DoFault !in actions ==> ActedAll(c, actions).state != Fault
    decreases |actions|
  {
    if actions == [] {
    } else {
      var n := |actions| - 1;
      FaultNeedsItsCause(c, actions[..n]);
      assert forall a :: a in actions[..n] ==> a in actions;
      assert actions[n] in actions;
    }
  }

  /** What is left of the actions for a machine that is busy. */
  function StepsOf(actions: seq<Action>): seq<Action> {
    if actions == [] then []
    else StepsOf(actions[..|actions| - 1])
         + if actions[|actions| - 1].DoStep? then [actions[|actions| - 1]] else []
  }

  /** A cycle under way takes no notice of start() and reset(): whatever of them
      comes between its steps, it is where the steps alone have brought it. */
  lemma {:induction false} BusyIgnoresCommands(c: CncValue, actions: seq<Action>)
    requires Timed(c) && DoFault !in actions
    requires forall n :: 0 <= n < |actions| ==> InCycle(ActedAll(c, actions[..n]).state)
    ensures ActedAll(c, actions) == ActedAll(c, StepsOf(actions))
    decreases |actions|
  {
    if actions != [] {
      var n := |actions| - 1;
      var before := actions[..n];
      forall m | 0 <= m < |before|
        ensures InCycle(ActedAll(c, before[..m]).state)
      {
        assert before[..m] == actions[..m];
      }
      BusyIgnoresCommands(c, before);
      assert actions[n] in actions;
      assert InCycle(ActedAll(c, actions[..n]).state);
      if actions[n].DoStep? {
        OneMoreStep(c, StepsOf(before), actions[n]);
      } else {
        assert StepsOf(before) + [] == StepsOf(before);
      }
    }
  }

  lemma OneMoreStep(c: CncValue, steps: seq<Action>, a: Action)
    requires Timed(c)
    ensures ActedAll(c, steps + [a]) == Acted(ActedAll(c, steps), a)
  {
    assert (steps + [a])[..|steps|] == steps;
  }

  /** From wherever it is, a fault stops the machine, and only reset() then makes it
      ready, from the beginning of its cycle. */
  lemma FaultThenReset(c: CncValue, dt: real)
    requires Timed(c)
    ensures ActedAll(c, [DoFault]) == CncValue(c.durations, Fault, 0.0)
    ensures ActedAll(c, [DoFault, DoStep(dt), DoStart]) == CncValue(c.durations, Fault, 0.0)
    ensures ActedAll(c, [DoFault, DoStep(dt), DoReset]) == CncValue(c.durations, Idle, 0.0)
    ensures ActedAll(c, [DoFault, DoStep(dt), DoReset, DoStart]) == CncValue(c.durations, Homing, 0.0)
  {
    OneMoreStep(c, [], DoFault);
    assert [] + [DoFault] == [DoFault];
    OneMoreStep(c, [DoFault], DoStep(dt));
    assert [DoFault] + [DoStep(dt)] == [DoFault, DoStep(dt)];
    OneMoreStep(c, [DoFault, DoStep(dt)], DoStart);
    assert [DoFault, DoStep(dt)] + [DoStart] == [DoFault, DoStep(dt), DoStart];
    OneMoreStep(c, [DoFault, DoStep(dt)], DoReset);
    assert [DoFault, DoStep(dt)] + [DoReset] == [DoFault, DoStep(dt), DoReset];
    OneMoreStep(c, [DoFault, DoStep(dt), DoReset], DoStart);
    assert [DoFault, DoStep(dt), DoReset] + [DoStart] == [DoFault, DoStep(dt), DoReset, DoStart];
  }
}
