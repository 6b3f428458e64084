/** Sampling a value that changes in stages: when a poller with bounded gaps sees
    every stage. */
module Sampling {
  import opened Wrappers

  /** How many of the boundaries lie at or before n: the stage n falls in. */
  function Stage(bounds: seq<nat>, n: nat): (k: nat)
    ensures k <= |bounds|
  {
    if bounds == [] then 0
    else Stage(bounds[..|bounds| - 1], n) + if bounds[|bounds| - 1] <= n then 1 else 0
  }

  predicate Sorted(bounds: seq<nat>) {
    forall i, j :: 0 <= i < j < |bounds| ==> bounds[i] <= bounds[j]
  }

  /** In sorted boundaries, the stages past a boundary are those at or after it. */
  lemma {:induction false} StagePasses(bounds: seq<nat>, n: nat, i: nat)
    requires Sorted(bounds) && i < |bounds|
    ensures i < Stage(bounds, n) <==> bounds[i] <= n
    decreases |bounds|
  {
    var last := |bounds| - 1;
    var rest := bounds[..last];
    if i < last {
      StagePasses(rest, n, i);
      if bounds[last] <= n { assert bounds[i] <= bounds[last]; }
    } else if bounds[last] <= n && last > 0 {
      assert rest[last - 1] <= bounds[last];
      StagePasses(rest, n, last - 1);
    }
  }

  /** Polls no more than `gap` apart. */
  predicate Polls(ns: seq<nat>, gap: nat) {
    |ns| > 0 && forall i, j :: 0 <= i < |ns| - 1 && j == i + 1 ==> ns[i] <= ns[j] <= ns[i] + gap
  }

  /** From before the first change to after the last. */
  predicate Spans(ns: seq<nat>, bounds: seq<nat>) {
    |ns| > 0 && Stage(bounds, ns[0]) == 0 && Stage(bounds, ns[|ns| - 1]) == |bounds|
  }

  /** Every stage between the first and the last holds for `gap` or more. */
  predicate LongEnough(bounds: seq<nat>, gap: nat) {
    forall i, j :: 0 <= i < |bounds| - 1 && j == i + 1 ==> bounds[i] + gap <= bounds[j]
  }

  /** What a recorder keeps that last knew `prev`: the samples that differ from
      the sample before. */
  function Moves<T(==)>(prev: T, samples: seq<T>): seq<T> {
    if samples == [] then []
    else
      var last := |samples| - 1;
      var before := if last == 0 then prev else samples[last - 1];
      Moves(prev, samples[..last]) + if samples[last] != before then [samples[last]] else []
  }

  function Samples<T>(values: seq<T>, bounds: seq<nat>, ns: seq<nat>): (r: seq<T>)
    requires |values| == |bounds| + 1
    ensures |r| == |ns|
  {
    seq(|ns|, j requires 0 <= j < |ns| => values[Stage(bounds, ns[j])])
  }

  predicate Distinct<T(==)>(values: seq<T>) {
    (forall i, j :: 0 <= i < |values| - 1 && j == i + 1 ==> values[i] != values[j])
    && (forall i, j :: 0 < i < |values| - 1 && 0 <= j < |values| && i != j ==> values[i] != values[j])
  }

  lemma OneStageAtATime(bounds: seq<nat>, gap: nat, n: nat, m: nat)
    requires Sorted(bounds) && LongEnough(bounds, gap) && n <= m <= n + gap
    ensures Stage(bounds, n) <= Stage(bounds, m) <= Stage(bounds, n) + 1
  {
    var k, l := Stage(bounds, n), Stage(bounds, m);
    if l < k {
      StagePasses(bounds, n, l);
      StagePasses(bounds, m, l);
    }
    if l > k + 1 {
      var j := k + 1;
      assert bounds[k] + gap <= bounds[j];
      StagePasses(bounds, m, j);
      StagePasses(bounds, n, k);
    }
  }

  lemma {:induction false} MovesFollowStages<T>(values: seq<T>, bounds: seq<nat>, ns: seq<nat>, gap: nat)
    requires Sorted(bounds) && LongEnough(bounds, gap) && Polls(ns, gap) && Stage(bounds, ns[0]) == 0
    requires |values| == |bounds| + 1 && Distinct(values)
    ensures Moves(values[0], Samples(values, bounds, ns)) == values[1..Stage(bounds, ns[|ns| - 1]) + 1]
    decreases |ns|
  {
    var last := |ns| - 1;
    var samples := Samples(values, bounds, ns);
    assert samples[last] == values[Stage(bounds, ns[last])];
    if last > 0 {
      MovesFollowStages(values, bounds, ns[..last], gap);
      assert samples[..last] == Samples(values, bounds, ns[..last]);
      var before := last - 1;
      assert ns[before] <= ns[last] <= ns[before] + gap;
      OneStageAtATime(bounds, gap, ns[before], ns[last]);
    } else {
      assert samples[..0] == [];
    }
  }

  lemma {:induction false} MovesAreSamples<T>(prev: T, samples: seq<T>, x: T)
    requires x in Moves(prev, samples)
    ensures x in samples
    decreases |samples|
  {
    var last := |samples| - 1;
    if x in Moves(prev, samples[..last]) {
      MovesAreSamples(prev, samples[..last], x);
      assert x in samples[..last];
    }
  }

  /** Poll every time but those in stage i + 1. */
  function Skipping(bounds: seq<nat>, i: nat): (ns: seq<nat>)
    requires Sorted(bounds) && i + 1 < |bounds|
  {
    var from, next, end := bounds[i], bounds[i + 1], bounds[|bounds| - 1];
    seq(from + (end - next + 1), j requires 0 <= j < from + (end - next + 1) => if j < from then j else next + (j - from))
  }

  lemma SkippingMisses(bounds: seq<nat>, i: nat, gap: nat)
    requires Sorted(bounds) && i + 1 < |bounds| && bounds[0] > 0 && gap > 0 && bounds[i + 1] < bounds[i] + gap
    ensures Polls(Skipping(bounds, i), gap) && Spans(Skipping(bounds, i), bounds)
    ensures forall j :: 0 <= j < |Skipping(bounds, i)| ==> Stage(bounds, Skipping(bounds, i)[j]) != i + 1
  {
    var ns := Skipping(bounds, i);
    var last := |bounds| - 1;
    assert bounds[0] <= bounds[i] && bounds[i + 1] <= bounds[last];
    assert ns[0] == 0 && ns[|ns| - 1] == bounds[last];
    StagePasses(bounds, 0, 0);
    StagePasses(bounds, bounds[last], last);
    forall j | 0 <= j < |ns|
      ensures Stage(bounds, ns[j]) != i + 1
    {
      StagePasses(bounds, ns[j], i);
      StagePasses(bounds, ns[j], i + 1);
    }
  }

  /** This schedule of polls records every change, once and in order. */
  predicate RecordsAll<T(==)>(values: seq<T>, bounds: seq<nat>, ns: seq<nat>)
    requires |values| == |bounds| + 1
  {
    Moves(values[0], Samples(values, bounds, ns)) == values[1..]
  }

  lemma SkippingLosesAStage<T>(values: seq<T>, bounds: seq<nat>, i: nat, gap: nat)
    requires Sorted(bounds) && i + 1 < |bounds| && bounds[0] > 0 && gap > 0 && bounds[i + 1] < bounds[i] + gap
    requires |values| == |bounds| + 1 && Distinct(values)
    ensures !RecordsAll(values, bounds, Skipping(bounds, i))
  {
    var ns := Skipping(bounds, i);
    SkippingMisses(bounds, i, gap);
    var samples := Samples(values, bounds, ns);
    var x := values[i + 1];
    assert x !in samples;
    assert x == values[1..][i];
    if x in Moves(values[0], samples) {
      MovesAreSamples(values[0], samples, x);
    }
  }

  lemma RecordsAllWhenLong<T>(values: seq<T>, bounds: seq<nat>, ns: seq<nat>, gap: nat)
    requires Sorted(bounds) && LongEnough(bounds, gap) && Polls(ns, gap) && Spans(ns, bounds)
    requires |values| == |bounds| + 1 && Distinct(values)
    ensures RecordsAll(values, bounds, ns)
  {
    MovesFollowStages(values, bounds, ns, gap);
    assert values[1..|values|] == values[1..];
  }

  /** Every change is recorded, once and in order, by every poller with gaps of at
      most `gap`, exactly when no stage in between is shorter than `gap`. */
  lemma NothingIsMissedIff<T>(values: seq<T>, bounds: seq<nat>, gap: nat)
    requires Sorted(bounds) && |bounds| > 0 && bounds[0] > 0 && gap > 0
    requires |values| == |bounds| + 1 && Distinct(values)
    ensures LongEnough(bounds, gap)
            <==> forall ns :: Polls(ns, gap) && Spans(ns, bounds) ==> RecordsAll(values, bounds, ns)
  {
    if LongEnough(bounds, gap) {
      forall ns | Polls(ns, gap) && Spans(ns, bounds)
        ensures RecordsAll(values, bounds, ns)
      {
        RecordsAllWhenLong(values, bounds, ns, gap);
      }
    } else {
      var i, j :| 0 <= i < |bounds| - 1 && j == i + 1 && bounds[i] + gap > bounds[j];
      SkippingMisses(bounds, i, gap);
      SkippingLosesAStage(values, bounds, i, gap);
    }
  }

  // ------------------------------------------------------ when polls fail

  /** The samples that are there. */
  function Present<T>(s: seq<Option<T>>): seq<T> {
    if s == [] then []
    else
      var last := s[|s| - 1];
      Present(s[..|s| - 1]) + if last.Some? then [last.value] else []
  }

  /** What a recorder keeps that forgets what it knew whenever a sample is missing:
      every sample that is not the same as the one directly before it. */
  function Stamps<T(==)>(s: seq<Option<T>>): seq<T>
    requires |s| > 0
  {
    if |s| == 1 then []
    else
      var last := s[|s| - 1];
      Stamps(s[..|s| - 1]) + if last.Some? && last != s[|s| - 2] then [last.value] else []
  }

  lemma OneMoreStamp<T>(s: seq<Option<T>>, x: Option<T>)
    requires |s| > 0
    ensures Stamps(s + [x]) == Stamps(s) + if x.Some? && x != s[|s| - 1] then [x.value] else []
  {
    assert (s + [x])[..|s|] == s;
  }

  /** The same sample at i and at j, and between them only missing ones. */
  ghost predicate Interrupted<T>(s: seq<Option<T>>, i: nat, j: nat) {
    i + 1 < j < |s| && s[i].Some? && s[j] == s[i] && forall x :: i < x < j ==> s[x].None?
  }

  function LastOf<T>(prev: T, xs: seq<T>): T {
    if xs == [] then prev else xs[|xs| - 1]
  }

  lemma MovesOneMore<T>(prev: T, xs: seq<T>, x: T)
    ensures Moves(prev, xs + [x]) == Moves(prev, xs) + if x != LastOf(prev, xs) then [x] else []
  {
    assert (xs + [x])[..|xs|] == xs;
  }

  /** Where the last sample that is there lies. */
  lemma {:induction false} LastPresent<T>(s: seq<Option<T>>) returns (i: nat)
    requires |s| > 0 && s[0].Some?
    ensures i < |s| && s[i].Some? && (forall x :: i < x < |s| ==> s[x].None?)
    ensures Present(s) != [] && LastOf(s[0].value, Present(s)) == s[i].value
    decreases |s|
  {
    var n := |s| - 1;
    if s[n].Some? {
      i := n;
    } else {
      i := LastPresent(s[..n]);
      assert Present(s) == Present(s[..n]);
    }
  }

  /** One more sample, after the last one present at i: it is stamped though
      nothing moved exactly when it was interrupted. */
  lemma StampedAgain<T>(s: seq<Option<T>>, i: nat, n: nat)
    requires |s| == n + 1 && i < n && s[n].Some? && s[i].Some? && forall x :: i < x < n ==> s[x].None?
    ensures s[n] == s[n - 1] ==> i == n - 1
    ensures s[n] != s[n - 1] && s[n] == s[i] <==> Interrupted(s, i, n)
    ensures forall k: nat :: Interrupted(s, k, n) ==> k == i
  {
    assert i < n - 1 ==> s[n - 1].None?;
  }

  /** What one more sample does to the stamps and to the moves. */
  lemma OneMoreSample<T>(s: seq<Option<T>>, prev: T, n: nat) returns (i: nat)
    requires |s| == n + 1 && n > 0 && s[0] == Some(prev) && s[n].Some?
    ensures i < n && s[i].Some? && LastOf(prev, Present(s[..n])) == s[i].value
    ensures s[n] == s[n - 1] ==> s[n] == s[i]
    ensures Moves(prev, Present(s)) == Moves(prev, Present(s[..n])) + if s[n] != s[i] then [s[n].value] else []
    ensures Stamps(s) == Stamps(s[..n]) + if s[n] != s[n - 1] then [s[n].value] else []
    ensures s[n] != s[n - 1] && s[n] == s[i] <==> Interrupted(s, i, n)
    ensures forall k: nat :: Interrupted(s, k, n) ==> k == i
  {
    i := LastPresent(s[..n]);
    LastStays(s, i, n);
    StampedAgain(s, i, n);
    MovesOneMore(prev, Present(s[..n]), s[n].value);
  }

  lemma LastStays<T>(s: seq<Option<T>>, i: nat, n: nat)
    requires |s| == n + 1 && i < n && forall x :: i < x < n ==> s[..n][x].None?
    ensures s[..n][i] == s[i] && forall x :: i < x < n ==> s[x].None?
  {
    assert forall x :: i < x < n ==> s[x] == s[..n][x];
  }

  /** Repeats apart, the stamps are the moves of the samples that are there. */
  lemma {:induction false} StampsCollapse<T>(s: seq<Option<T>>, prev: T)
    requires |s| > 0 && s[0] == Some(prev)
    ensures Moves(prev, Stamps(s)) == Moves(prev, Present(s))
    ensures LastOf(prev, Stamps(s)) == LastOf(prev, Present(s))
    decreases |s|
  {
    var n := |s| - 1;
    if n == 0 {
      OnlyTheFirst(s, prev);
    } else {
      StampsCollapse(s[..n], prev);
      if s[n].Some? {
        var i := OneMoreSample(s, prev, n);
        MovesOneMore(prev, Stamps(s[..n]), s[n].value);
        if s[n] == s[n - 1] {
          assert Stamps(s) == Stamps(s[..n]);
        }
        assert LastOf(prev, Present(s)) == s[n].value;
      } else {
        NothingMore(s, n);
      }
    }
  }

  lemma OnlyTheFirst<T>(s: seq<Option<T>>, prev: T)
    requires s == [Some(prev)]
    ensures Present(s) == [prev] && Stamps(s) == [] && Moves(prev, Present(s)) == []
  {
    assert s[..0] == [];
    MovesOneMore(prev, [], prev);
    assert [] + [prev] == [prev];
  }

  lemma NothingMore<T>(s: seq<Option<T>>, n: nat)
    requires |s| == n + 1 && n > 0 && s[n].None?
    ensures Present(s) == Present(s[..n]) && Stamps(s) == Stamps(s[..n])
  {
  }

  lemma InterruptedBefore<T>(s: seq<Option<T>>, n: nat)
    requires |s| == n + 1
    ensures forall i: nat, j: nat :: Interrupted(s[..n], i, j) <==> Interrupted(s, i, j) && j < n
  {
    forall i: nat, j: nat
      ensures Interrupted(s[..n], i, j) <==> Interrupted(s, i, j) && j < n
    {
      if j < n {
        assert forall x :: 0 <= x <= j ==> s[..n][x] == s[x];
      }
    }
  }

  /** And there are no repeats exactly when no sample was interrupted. */
  lemma {:induction false} StampsAreMovesIff<T>(s: seq<Option<T>>, prev: T)
    requires |s| > 0 && s[0] == Some(prev)
    ensures |Moves(prev, Present(s))| <= |Stamps(s)|
    ensures Stamps(s) == Moves(prev, Present(s)) <==> !exists i: nat, j: nat :: Interrupted(s, i, j)
    decreases |s|
  {
    var n := |s| - 1;
    if n == 0 {
      OnlyTheFirst(s, prev);
    } else {
      StampsAreMovesIff(s[..n], prev);
      InterruptedBefore(s, n);
      if s[n].Some? {
        var i := OneMoreSample(s, prev, n);
        if Stamps(s) == Moves(prev, Present(s)) {
          SameTail(Stamps(s[..n]), Moves(prev, Present(s[..n])), if s[n] != s[n - 1] then [s[n].value] else [],
                   if s[n] != s[i] then [s[n].value] else []);
        }
      } else {
        NothingMore(s, n);
      }
    }
  }

  lemma SameTail<T>(a: seq<T>, b: seq<T>, x: seq<T>, y: seq<T>)
    requires a + x == b + y && |b| <= |a| && |y| <= |x|
    ensures a == b && x == y
  {
    assert a == (a + x)[..|a|] && b == (b + y)[..|b|];
    assert x == (a + x)[|a|..] && y == (b + y)[|b|..];
  }

  lemma {:induction false} PresentAfter<T>(first: T, s: seq<Option<T>>)
    ensures Present([Some(first)] + s) == [first] + Present(s)
    decreases |s|
  {
    var whole := [Some(first)] + s;
    if s == [] {
      assert whole[..0] == [];
      assert Present(whole) == [first];
    } else {
      var n := |s| - 1;
      PresentAfter(first, s[..n]);
      assert whole[..n + 1] == [Some(first)] + s[..n];
    }
  }

  /** Starting where the recorder already is moves nothing. */
  lemma {:induction false} MovesFromStart<T>(first: T, xs: seq<T>)
    ensures Moves(first, [first] + xs) == Moves(first, xs)
    decreases |xs|
  {
    if xs == [] {
      MovesOneMore(first, [], first);
      assert [] + [first] == [first] + xs;
    } else {
      var n := |xs| - 1;
      MovesFromStart(first, xs[..n]);
      MovesOneMore(first, [first] + xs[..n], xs[n]);
      MovesOneMore(first, xs[..n], xs[n]);
      assert ([first] + xs[..n]) + [xs[n]] == [first] + xs && xs[..n] + [xs[n]] == xs;
    }
  }
}
