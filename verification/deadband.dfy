/** The client's deadband filter (src/client/controller.py): which notifications
    are news, measured against the last one reported. */
module Deadband {
  import opened Wrappers
  import opened Numbers

  /** A number, a text or a truth value, or null. */
  datatype Value = Number(r: real) | Other(text: string) | Null

  /** One notification about one signal; `analogue` is whether the signal's OPC UA
      type is Float or Double, whose values are numbers or null. */
  datatype Update = Update(name: string, analogue: bool, value: Value, status: int) {
    predicate WellTyped() {
      analogue ==> !value.Other?
    }
  }

  /** Not worth reporting after `last`. */
  predicate Noise(last: Option<Update>, u: Update, deadband: real)
    requires u.WellTyped() && (last.Some? ==> last.value.WellTyped() && last.value.analogue == u.analogue)
  {
    last.Some? && u.analogue && last.value.status == u.status
    && last.value.value != Null && u.value != Null
    && Abs(u.value.r - last.value.value.r) < deadband
  }

  class DeviceController {
    const deadband: real
    var reported: map<string, Update>

    predicate Valid()
      reads this
    {
      forall name :: name in reported ==> reported[name].name == name && reported[name].WellTyped()
    }

    constructor (deadband: real)
      ensures Valid() && this.deadband == deadband && reported == map[]
    {
      this.deadband, reported := deadband, map[];
    }

    function LastReported(name: string): Option<Update>
      reads this
    {
      if name in reported then Some(reported[name]) else None
    }

    /** Resubscribing forgets every report. */
    method Watch()
      modifies this`reported
      ensures Valid() && reported == map[]
    {
      reported := map[];
    }

    method Report(u: Update) returns (news: bool)
      requires Valid() && u.WellTyped()
      requires u.name in reported ==> reported[u.name].analogue == u.analogue
      modifies this`reported
      ensures Valid()
      ensures news == !Noise(old(LastReported(u.name)), u, deadband)
      ensures reported == if news then old(reported)[u.name := u] else old(reported)
    {
      var last := LastReported(u.name);
      var noise :=
        last.Some?
        && u.analogue
        && last.value.status == u.status
        && last.value.value != Null
        && u.value != Null
        && Abs(u.value.r - last.value.value.r) < deadband;
      if noise {
        return false;
      }
      reported := reported[u.name := u];
      news := true;
    }
  }

  // ------------------------------------------------- any stream, any signals

  datatype Event = Watches | Receives(u: Update)

  /** Every signal has one type. */
  predicate Typed(types: map<string, bool>, events: seq<Event>) {
    forall i :: 0 <= i < |events| && events[i].Receives? ==>
      var u := events[i].u;
      u.WellTyped() && u.name in types && types[u.name] == u.analogue
  }

  predicate Remembers(types: map<string, bool>, reported: map<string, Update>) {
    forall name :: name in reported ==>
      var u := reported[name];
      u.name == name && u.WellTyped() && name in types && types[name] == u.analogue
  }

  function Reports(reported: map<string, Update>, u: Update, deadband: real): bool
    requires u.WellTyped()
    requires u.name in reported ==> reported[u.name].WellTyped() && reported[u.name].analogue == u.analogue
  {
    !Noise(if u.name in reported then Some(reported[u.name]) else None, u, deadband)
  }

  /** What is remembered as reported after a stream. */
  function After(types: map<string, bool>, events: seq<Event>, deadband: real): (r: map<string, Update>)
    requires Typed(types, events)
    ensures Remembers(types, r)
  {
    if events == [] then map[]
    else
      var n := |events| - 1;
      var before := After(types, events[..n], deadband);
      match events[n]
      case Watches => map[]
      case Receives(u) => if Reports(before, u, deadband) then before[u.name := u] else before
  }

  /** The last update received of a signal under the current subscription. */
  function LastReceived(events: seq<Event>, name: string): Option<Update> {
    if events == [] then None
    else
      match events[|events| - 1]
      case Watches => None
      case Receives(u) => if u.name == name then Some(u) else LastReceived(events[..|events| - 1], name)
  }

  /** One is the other, or both are numbers less than the deadband apart with the
      same status. */
  predicate Tracks(reported: Update, received: Update, deadband: real) {
    reported == received
    || (reported.status == received.status && reported.value.Number? && received.value.Number?
        && Abs(received.value.r - reported.value.r) < deadband)
  }

  /** After any stream of notifications about any signals, with any number of
      resubscriptions, what was last reported of a signal tracks what was last
      received of it; and there is one exactly when there is the other. */
  lemma {:induction false} ReportedTracksReceived(types: map<string, bool>, events: seq<Event>, deadband: real, name: string)
    requires Typed(types, events)
    ensures name in After(types, events, deadband) <==> LastReceived(events, name).Some?
    ensures LastReceived(events, name).Some? ==>
              Tracks(After(types, events, deadband)[name], LastReceived(events, name).value, deadband)
    decreases |events|
  {
    if events == [] {
    } else {
      var n := |events| - 1;
      ReportedTracksReceived(types, events[..n], deadband, name);
      assert events[n] == events[|events| - 1];
    }
  }

  /** What is reported, after any stream: the first update under a subscription, any
      change of status, every update of a signal that is not analogue, every null
      and the first number after one, and a number a deadband away from the last
      reported; and nothing else. */
  lemma ReportedIff(types: map<string, bool>, events: seq<Event>, u: Update, deadband: real)
    requires Typed(types, events + [Receives(u)])
    ensures Typed(types, events)
    ensures u.name in After(types, events, deadband) <==> LastReceived(events, u.name).Some?
    ensures var before, after := After(types, events, deadband), After(types, events + [Receives(u)], deadband);
            var news := u.name !in before || !u.analogue || u.value == Null
                        || before[u.name].status != u.status || before[u.name].value == Null
                        || u.value.r - before[u.name].value.r >= deadband || before[u.name].value.r - u.value.r >= deadband;
            (forall name :: ReportCount(types, events + [Receives(u)], deadband, name)
                            == ReportCount(types, events, deadband, name) + if name == u.name && news then 1 else 0)
            && after == if news then before[u.name := u] else before
  {
    var all := events + [Receives(u)];
    assert all[..|events|] == events && all[|events|] == Receives(u);
    forall i | 0 <= i < |events|
      ensures all[i] == events[i]
    {
    }
    ReportedTracksReceived(types, events, deadband, u.name);
  }

  // ------------------------------------------------------------ report counts

  /** What the filter makes of the numbers one signal takes: the last reported,
      and how many were. */
  datatype Filter = Filter(last: real, count: nat)

  function Filtered(xs: seq<real>, deadband: real): (f: Filter)
    requires |xs| > 0
    ensures f.count > 0
  {
    if |xs| == 1 then Filter(xs[0], 1)
    else
      var before := Filtered(xs[..|xs| - 1], deadband);
      var x := xs[|xs| - 1];
      if Abs(x - before.last) < deadband then before else Filter(x, before.count + 1)
  }

  /** How far the value has moved altogether. */
  function Variation(xs: seq<real>): real
    requires |xs| > 0
  {
    if |xs| == 1 then 0.0
    else Variation(xs[..|xs| - 1]) + Abs(xs[|xs| - 1] - xs[|xs| - 2])
  }

  lemma {:induction false} EachReportIsPaidFor(xs: seq<real>, deadband: real)
    requires |xs| > 0 && deadband > 0.0
    ensures Times(Filtered(xs, deadband).count - 1, deadband) + Abs(xs[|xs| - 1] - Filtered(xs, deadband).last)
            <= Variation(xs)
    decreases |xs|
  {
    if |xs| > 1 {
      var n := |xs| - 1;
      EachReportIsPaidFor(xs[..n], deadband);
      assert xs[..n][n - 1] == xs[n - 1];
    }
  }

  /** How many updates of one signal were reported. */
  function ReportCount(types: map<string, bool>, events: seq<Event>, deadband: real, name: string): nat
    requires Typed(types, events)
  {
    if events == [] then 0
    else
      var n := |events| - 1;
      var before := After(types, events[..n], deadband);
      ReportCount(types, events[..n], deadband, name)
      + match events[n]
        case Watches => 0
        case Receives(u) => if u.name == name && Reports(before, u, deadband) then 1 else 0
  }

  /** The numbers a signal takes. */
  function NumbersOf(events: seq<Event>, name: string): seq<real> {
    if events == [] then []
    else
      var e := events[|events| - 1];
      NumbersOf(events[..|events| - 1], name)
      + if e.Receives? && e.u.name == name && e.u.value.Number? then [e.u.value.r] else []
  }

  /** Under one subscription, an analogue signal with numbers under one status,
      among whatever other signals do. */
  predicate Steady(events: seq<Event>, name: string, status: int) {
    forall i :: 0 <= i < |events| ==>
      events[i].Receives?
      && (events[i].u.name == name ==> events[i].u.analogue && events[i].u.value.Number? && events[i].u.status == status)
  }

  lemma {:induction false} FilterIsReports(types: map<string, bool>, events: seq<Event>, deadband: real,
                                           name: string, status: int)
    requires Typed(types, events) && Steady(events, name, status)
    ensures var xs, after := NumbersOf(events, name), After(types, events, deadband);
            if xs == [] then name !in after && ReportCount(types, events, deadband, name) == 0
            else name in after && ReportCount(types, events, deadband, name) == Filtered(xs, deadband).count
                 && after[name] == Update(name, true, Number(Filtered(xs, deadband).last), status)
    decreases |events|
  {
    if events == [] {
    } else {
      var n := |events| - 1;
      FilterIsReports(types, events[..n], deadband, name, status);
      var xs := NumbersOf(events, name);
      var u := events[n].u;
      if u.name == name {
        assert xs[..|xs| - 1] == NumbersOf(events[..n], name);
        assert xs[|xs| - 1] == u.value.r;
        var before := After(types, events[..n], deadband);
        if |xs| > 1 {
          assert Reports(before, u, deadband) <==> Abs(u.value.r - before[name].value.r) >= deadband;
        }
      } else {
        assert xs == NumbersOf(events[..n], name);
        assert events[n].Receives?;
      }
    }
  }

  lemma PaidReports(count: nat, variation: real, deadband: real)
    requires count > 0 && deadband > 0.0 && Times(count - 1, deadband) <= variation
    ensures count as real <= 1.0 + variation / deadband
  {
    TimesIsProduct(count - 1, deadband);
    DivBound((count - 1) as real, variation, deadband);
  }

  /** With the status constant and no nulls, reports are few: every one after the
      first is paid for by a deadband's worth of movement. */
  lemma ReportsAreBounded(types: map<string, bool>, events: seq<Event>, deadband: real, name: string, status: int)
    requires Typed(types, events) && Steady(events, name, status) && deadband > 0.0 && NumbersOf(events, name) != []
    ensures ReportCount(types, events, deadband, name) as real <= 1.0 + Variation(NumbersOf(events, name)) / deadband
  {
    var xs := NumbersOf(events, name);
    FilterIsReports(types, events, deadband, name, status);
    EachReportIsPaidFor(xs, deadband);
    PaidReports(Filtered(xs, deadband).count, Variation(xs), deadband);
  }
}
