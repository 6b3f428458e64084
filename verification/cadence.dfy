/** When the scans happen: the loop of Plc.run (src/plc/scan.py), its deadlines
    and its watchdog. What one scan does is elsewhere; here it only takes time. */
module Cadence {
  import opened Wrappers
  import opened Numbers

  /** What the clock does in one turn of the loop: how long the scan takes, how
      long until the sleep is computed, and how far the sleep overshoots. */
  datatype Timing = Timing(duration: real, overhead: real, oversleep: real)

  /** `starts` are the times at which scans began. */
  datatype LoopState = LoopState(now: real, ticks: nat, overruns: nat, tripped: bool, starts: seq<real>)

  predicate Enough(ticks: nat, limit: Option<nat>) {
    limit.Some? && ticks >= limit.value
  }

  function Woken(asleep: real, deadline: real, oversleep: real): real {
    if deadline - asleep > 0.0 then deadline + oversleep else asleep
  }

  /** The loop from its head, for as long as the clock is known. */
  function Looped(s: LoopState, deadline: real, dt: real, limit: Option<nat>, clock: seq<Timing>): LoopState
    decreases |clock|
  {
    if clock == [] || Enough(s.ticks, limit) || s.tripped then s
    else
      var turn := clock[0];
      var scanned := s.(now := s.now + turn.duration, ticks := s.ticks + 1, starts := s.starts + [s.now]);
      if turn.duration > dt then scanned.(overruns := s.overruns + 1, tripped := true)
      else Looped(scanned.(now := Woken(scanned.now + turn.overhead, deadline, turn.oversleep)),
                  deadline + dt, dt, limit, clock[1..])
  }

  /** After a turn that the watchdog passes. */
  function AfterTurn(s: LoopState, deadline: real, turn: Timing): LoopState {
    s.(now := Woken(s.now + turn.duration + turn.overhead, deadline, turn.oversleep),
       ticks := s.ticks + 1, starts := s.starts + [s.now])
  }

  class ScanLoop {
    var now: real
    var ticks: nat
    var overruns: nat
    var watchdogTripped: bool
    var starts: seq<real>

    constructor (now: real)
      ensures State() == LoopState(now, 0, 0, false, [])
    {
      this.now, ticks, overruns, watchdogTripped, starts := now, 0, 0, false, [];
    }

    function State(): LoopState
      reads this
    {
      LoopState(now, ticks, overruns, watchdogTripped, starts)
    }

    method Run(dt: real, limit: Option<nat>, clock: seq<Timing>)
      modifies this
      ensures State() == Looped(old(State()), old(now) + dt, dt, limit, clock)
    {
      var nextDeadline := now + dt;
      var i := 0;
      while i < |clock| && (limit.None? || ticks < limit.value)
        invariant i <= |clock|
        invariant Looped(State(), nextDeadline, dt, limit, clock[i..])
                  == Looped(old(State()), old(now) + dt, dt, limit, clock)
      {
        if watchdogTripped {
          break;
        }
        assert clock[i..][0] == clock[i] && clock[i..][1..] == clock[i + 1..];
        var start := now;
        now := start + clock[i].duration;
        starts := starts + [start];
        ticks := ticks + 1;
        var duration := now - start;
        if duration > dt {
          overruns := overruns + 1;
          watchdogTripped := true;
          break;
        }
        now := now + clock[i].overhead;
        var sleepFor := nextDeadline - now;
        if sleepFor > 0.0 {
          now := nextDeadline + clock[i].oversleep;
        }
        nextDeadline := nextDeadline + dt;
        i := i + 1;
      }
    }
  }

  // -------------------------------------------------------------- no drift

  /** The scan and what follows it fit in dt, and no sleep ends early or more than
      `jitter` late. */
  predicate Punctual(turn: Timing, dt: real, jitter: real) {
    0.0 <= turn.duration && 0.0 <= turn.overhead && turn.duration + turn.overhead <= dt
    && 0.0 <= turn.oversleep <= jitter
  }

  predicate AllPunctual(clock: seq<Timing>, dt: real, jitter: real) {
    forall i :: 0 <= i < |clock| ==> Punctual(clock[i], dt, jitter)
  }

  predicate StartsIn(start: real, due: real, jitter: real) {
    due <= start <= due + jitter
  }

  function Runs(s: LoopState, limit: Option<nat>, available: nat): nat {
    if limit.None? then available
    else if limit.value <= s.ticks then 0
    else if limit.value - s.ticks < available then limit.value - s.ticks
    else available
  }

  lemma {:induction false} KeepsItsDeadlines(s: LoopState, due: real, dt: real, limit: Option<nat>, clock: seq<Timing>,
                                             jitter: real)
    requires dt > 0.0 && AllPunctual(clock, dt, jitter) && !s.tripped && StartsIn(s.now, due, jitter)
    ensures var r := Looped(s, due + dt, dt, limit, clock);
            !r.tripped && r.overruns == s.overruns
            && |r.starts| == |s.starts| + Runs(s, limit, |clock|) && r.starts[..|s.starts|] == s.starts
            && forall k {:trigger Times(k, dt)} :: 0 <= k < Runs(s, limit, |clock|) ==>
                 StartsIn(r.starts[|s.starts| + k], due + Times(k, dt), jitter)
    decreases |clock|
  {
    if clock != [] && !Enough(s.ticks, limit) {
      var turn := clock[0];
      assert Punctual(turn, dt, jitter);
      var next := AfterTurn(s, due + dt, turn);
      KeepsItsDeadlines(next, due + dt, dt, limit, clock[1..], jitter);
      var r := Looped(s, due + dt, dt, limit, clock);
      assert r == Looped(next, due + dt + dt, dt, limit, clock[1..]);
      assert r.starts[|s.starts|] == next.starts[|s.starts|];
      forall k {:trigger Times(k, dt)} | 0 <= k < Runs(s, limit, |clock|)
        ensures StartsIn(r.starts[|s.starts| + k], due + Times(k, dt), jitter)
      {
        if k > 0 {
          assert StartsIn(r.starts[|next.starts| + (k - 1)], due + dt + Times(k - 1, dt), jitter);
        }
      }
    }
  }

  /** However many turns it makes, the loop does not drift: scan k starts within
      the jitter after t0 + k dt, and the watchdog never trips. */
  lemma NoDrift(t0: real, dt: real, limit: Option<nat>, clock: seq<Timing>, jitter: real, k: nat)
    requires dt > 0.0 && jitter >= 0.0 && AllPunctual(clock, dt, jitter)
    ensures var s := LoopState(t0, 0, 0, false, []);
            var r := Looped(s, t0 + dt, dt, limit, clock);
            !r.tripped && |r.starts| == Runs(s, limit, |clock|)
            && (k < |r.starts| ==> t0 + k as real * dt <= r.starts[k] <= t0 + k as real * dt + jitter)
  {
    KeepsItsDeadlines(LoopState(t0, 0, 0, false, []), t0, dt, limit, clock, jitter);
    TimesIsProduct(k, dt);
  }

  // ------------------------------------------------------------ catching up

  /** The loop only adds to the starts, and the first it adds is where it is now. */
  lemma {:induction false} StartsGoOn(s: LoopState, deadline: real, dt: real, limit: Option<nat>, clock: seq<Timing>)
    ensures var r := Looped(s, deadline, dt, limit, clock);
            |r.starts| >= |s.starts| && r.starts[..|s.starts|] == s.starts
            && (|r.starts| > |s.starts| ==> r.starts[|s.starts|] == s.now)
    decreases |clock|
  {
    if clock != [] && !Enough(s.ticks, limit) && !s.tripped && clock[0].duration <= dt {
      var next := AfterTurn(s, deadline, clock[0]);
      StartsGoOn(next, deadline + dt, dt, limit, clock[1..]);
      var r := Looped(s, deadline, dt, limit, clock);
      assert r == Looped(next, deadline + dt, dt, limit, clock[1..]);
      assert r.starts[|s.starts|] == r.starts[..|next.starts|][|s.starts|];
      assert r.starts[..|s.starts|] == r.starts[..|next.starts|][..|s.starts|];
    }
  }

  /** Whatever the clock does, scan k + 1 begins where scan k and what followed it
      ended, or at the deadline if that was still to come; and deadline k + 1 is
      `deadline` + k dt however late the loop is. */
  lemma {:induction false} DeadlinesDoNotMove(s: LoopState, deadline: real, dt: real, limit: Option<nat>, clock: seq<Timing>, k: nat)
    requires |s.starts| + k + 1 < |Looped(s, deadline, dt, limit, clock).starts|
    ensures k < |clock|
    ensures var r := Looped(s, deadline, dt, limit, clock);
            var asleep, due := r.starts[|s.starts| + k] + clock[k].duration + clock[k].overhead, deadline + Times(k, dt);
            r.starts[|s.starts| + k + 1] == if asleep < due then due + clock[k].oversleep else asleep
    decreases k
  {
    StartsGoOn(s, deadline, dt, limit, clock);
    var next := AfterTurn(s, deadline, clock[0]);
    assert Looped(s, deadline, dt, limit, clock) == Looped(next, deadline + dt, dt, limit, clock[1..]);
    if k > 0 {
      DeadlinesDoNotMove(next, deadline + dt, dt, limit, clock[1..], k - 1);
    } else {
      StartsGoOn(next, deadline + dt, dt, limit, clock[1..]);
    }
  }

  /** From t0: scan k + 1 is due at t0 + (k + 1) dt, waits for it if it can, and
      follows scan k at once if that is late. */
  lemma CatchesUp(t0: real, dt: real, limit: Option<nat>, clock: seq<Timing>, k: nat)
    requires k + 1 < |Looped(LoopState(t0, 0, 0, false, []), t0 + dt, dt, limit, clock).starts|
    ensures k < |clock|
    ensures var starts := Looped(LoopState(t0, 0, 0, false, []), t0 + dt, dt, limit, clock).starts;
            var asleep, due := starts[k] + clock[k].duration + clock[k].overhead, t0 + (k + 1) as real * dt;
            starts[k + 1] == if asleep < due then due + clock[k].oversleep else asleep
  {
    DeadlinesDoNotMove(LoopState(t0, 0, 0, false, []), t0 + dt, dt, limit, clock, k);
    TimesIsProduct(k, dt);
  }

  // -------------------------------------------------------------- watchdog

  /** Whatever the clock does, the loop goes on exactly until the first scan
      longer than dt, if the ticks or the clock do not end before; that scan is
      the last, and the only overrun. */
  lemma {:induction false} WatchdogStopsTheLoop(s: LoopState, deadline: real, dt: real, limit: Option<nat>, clock: seq<Timing>)
    requires !s.tripped
    ensures var r := Looped(s, deadline, dt, limit, clock);
            var n := r.ticks - s.ticks;
            0 <= n <= |clock| && |r.starts| == |s.starts| + n
            && (forall i :: 0 <= i < n - 1 ==> clock[i].duration <= dt)
            && (r.tripped <==> n > 0 && clock[n - 1].duration > dt)
            && r.overruns == s.overruns + (if r.tripped then 1 else 0)
            && (!r.tripped ==> n == Runs(s, limit, |clock|))
    decreases |clock|
  {
    if clock != [] && !Enough(s.ticks, limit) && clock[0].duration <= dt {
      var turn := clock[0];
      var next := AfterTurn(s, deadline, turn);
      WatchdogStopsTheLoop(next, deadline + dt, dt, limit, clock[1..]);
      var r := Looped(s, deadline, dt, limit, clock);
      var n := r.ticks - s.ticks;
      assert r == Looped(next, deadline + dt, dt, limit, clock[1..]);
      forall i | 0 <= i < n - 1
        ensures clock[i].duration <= dt
      {
        if i > 0 { assert clock[1..][i - 1] == clock[i]; }
      }
      if n > 1 { assert clock[1..][n - 2] == clock[n - 1]; }
    }
  }

  /** One call of run(): when it begins, its tick limit, and its clock. */
  datatype Call = Call(begins: real, limit: Option<nat>, clock: seq<Timing>)

  function Called(s: LoopState, dt: real, calls: seq<Call>): LoopState {
    if calls == [] then s
    else
      var before := Called(s, dt, calls[..|calls| - 1]);
      var call := calls[|calls| - 1];
      Looped(before.(now := call.begins), call.begins + dt, dt, call.limit, call.clock)
  }

  /** Over any number of runs of the loop there is an overrun exactly when the
      watchdog has tripped, never a second one, and once it has, running again
      scans nothing. */
  lemma {:induction false} OverrunOnce(t0: real, dt: real, calls: seq<Call>, earlier: nat)
    requires earlier <= |calls|
    ensures var initial := LoopState(t0, 0, 0, false, []);
            var sofar, r := Called(initial, dt, calls[..earlier]), Called(initial, dt, calls);
            r.overruns == (if r.tripped then 1 else 0)
            && (sofar.tripped ==> r.tripped && r.starts == sofar.starts && r.ticks == sofar.ticks)
    decreases |calls|
  {
    var initial := LoopState(t0, 0, 0, false, []);
    if |calls| > 0 {
      var n := |calls| - 1;
      var call := calls[n];
      var before := Called(initial, dt, calls[..n]);
      if earlier <= n {
        OverrunOnce(t0, dt, calls[..n], earlier);
        assert calls[..n][..earlier] == calls[..earlier];
      } else {
        OverrunOnce(t0, dt, calls[..n], n);
        assert calls[..earlier] == calls;
      }
      if !before.tripped {
        WatchdogStopsTheLoop(before.(now := call.begins), call.begins + dt, dt, call.limit, call.clock);
      }
    } else {
      assert calls[..earlier] == calls;
    }
  }
}
