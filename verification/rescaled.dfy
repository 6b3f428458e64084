/** The loader does not look at scales, so a contract can make the scan raise. */
module Rescaled {
  import opened Wrappers
  import opened Numbers
  import opened Binary32
  import opened Commands
  import opened Model
  import opened Codec
  import opened ImageTable
  import opened Points
  import opened Scan
  import opened PlantRuns
  import Loader
  import D = Deployment

  function WithScale(c: Contract, i: nat, scale: real): Contract
    requires i < |c.signals|
  {
    var signal := c.signals[i];
    c.(signals := c.signals[i := signal.(modbus := signal.modbus.(scale := scale))])
  }

  /** An accepted contract stays accepted whatever a signal's scale becomes. */
  lemma ScalesAreNotChecked(c: Contract, i: nat, scale: real)
    requires Loader.Valid(c) && i < |c.signals|
    ensures Loader.Valid(WithScale(c, i, scale))
  {
    var d := WithScale(c, i, scale);
    forall j: nat | j < |c.signals| + 2
      ensures Loader.EntryAt(d, j) == Loader.EntryAt(c, j)
    {
    }
    forall j: nat, k: nat | j < |d.signals| + 2 && k < |d.signals| + 2
      ensures Loader.Fits(Loader.EntryAt(d, j), Loader.EntryAt(d, k))
    {
      assert Loader.Fits(Loader.EntryAt(c, j), Loader.EntryAt(c, k));
    }
  }

  lemma {:induction false} FoundByName(signals: seq<Signal>, others: seq<Signal>, name: string)
    requires |signals| == |others| && forall i :: 0 <= i < |signals| ==> signals[i].name == others[i].name
    ensures Find(signals, name) == Find(others, name)
  {
    if signals == [] {
    } else {
      var n := |signals| - 1;
      FoundByName(signals[..n], others[..n], name);
    }
  }

  function Rescale(p: Points, scale: real): Points {
    p.(position := p.position.(scale := scale))
  }

  lemma SamePlaces(p: Points, scale: real, k: int)
    requires 0 <= k < 5 && !Part(p, k).typ.Unknown?
    ensures var q := Rescale(p, scale);
            !Part(q, k).typ.Unknown? && Part(q, k).typ == Part(p, k).typ && Part(q, k).Addresses() == Part(p, k).Addresses()
            && forall t, a :: At(Part(q, k), t, a) <==> At(Part(p, k), t, a)
    ensures k != 3 ==> Part(Rescale(p, scale), k) == Part(p, k)
  {
  }

  lemma StillPlaced(p: Points, scale: real)
    requires WellPlaced(p)
    ensures WellPlaced(Rescale(p, scale))
  {
    var q := Rescale(p, scale);
    forall k | 0 <= k < 5
      ensures !Part(q, k).typ.Unknown? && OutsideBlocks(q, Part(q, k))
    {
      SamePlaces(p, scale, k);
      assert OutsideBlocks(p, Part(p, k));
    }
    forall k, l | 0 <= k < l < 5
      ensures Apart(Part(q, k), Part(q, l))
    {
      SamePlaces(p, scale, k);
      SamePlaces(p, scale, l);
      assert Apart(Part(p, k), Part(p, l));
    }
  }

  lemma StillLaid(p: Points, scale: real, tables: Tables)
    requires WellPlaced(p) && Laid(p, tables) && WellPlaced(Rescale(p, scale))
    ensures Laid(Rescale(p, scale), tables)
  {
    forall k | 0 <= k < 5
      ensures HoldsSpan(tables, Part(Rescale(p, scale), k))
    {
      SamePlaces(p, scale, k);
      assert HoldsSpan(tables, Part(p, k));
    }
  }

  lemma SameParameter(p: Points, scale: real, holding: map<int, int>, k: int)
    requires Readable(p, holding) && Readable(Rescale(p, scale), holding) && 0 <= k < 2
    ensures Parameter(Rescale(p, scale), holding, k) == Parameter(p, holding, k)
  {
    assert Part(Rescale(p, scale), k) == Part(p, k);
    SpanIsRegisters(p, holding, k);
  }

  /** The plant, its position signal rescaled, one metre on. */
  function OneMetre(s: PlantState): PlantState {
    s.(conveyor := s.conveyor.(position := 1.0))
  }

  lemma StillScans(p: Points, s: PlantState, scale: real)
    requires Standard(p) && Safe(p, s) && CanScan(p, s) && scale > 0.0
    ensures Standard(Rescale(p, scale)) && Safe(Rescale(p, scale), OneMetre(s)) && CanScan(Rescale(p, scale), OneMetre(s))
  {
    var q, t := Rescale(p, scale), OneMetre(s);
    StillPlaced(p, scale);
    StillLaid(p, scale, s.tables);
    SnapshotIsUsable(q, t);
    SameParameter(p, scale, s.tables["holding"], 0);
    SameParameter(p, scale, s.tables["holding"], 1);
  }

  lemma ScaleTooSmall(scale: real)
    requires scale == 1.0 / (16777216.0 * Unit(253))
    ensures scale > 0.0 && 16777215.5 * Unit(253) <= Abs(1.0 / scale)
  {
    var u := 16777216.0 * Unit(253);
    assert u > 0.0 && scale * u == 1.0;
    assert 1.0 / scale == u;
    MulMono(16777215.5, 16777216.0, Unit(253));
  }

  /** A scan that raises: any safe plant, the scale of its position register 2^-128,
      the conveyor one metre on. */
  lemma APositionCanRaise(p: Points, s: PlantState, dt: real, scale: real)
    requires Standard(p) && Safe(p, s) && CanScan(p, s) && scale == 1.0 / (16777216.0 * Unit(253))
    ensures var q, t := Rescale(p, scale), OneMetre(s);
            Standard(q) && Safe(q, t) && CanScan(q, t) && ScanStep(q, t, dt) == Err(FloatOverflow)
  {
    var q, t := Rescale(p, scale), OneMetre(s);
    ScaleTooSmall(scale);
    StillScans(p, s, scale);
    TinyIsTooFar(q, scale);
    OnlyThePositionCanFail(q, t);
  }

  lemma TinyIsTooFar(q: Points, scale: real)
    requires q.position.scale == scale && scale > 0.0 && 16777215.5 * Unit(253) <= Abs(1.0 / scale)
    ensures TooFar(q, 1.0)
  {
  }

  /** And that plant is laid out by an accepted contract: the shipped one, but for
      that scale. */
  lemma RescaledTags(scale: real)
    ensures |D.TAGS.signals| == 5 && Loader.Valid(WithScale(D.TAGS, 3, scale))
    ensures AllPresent(WithScale(D.TAGS, 3, scale))
    ensures PartMapping(WithScale(D.TAGS, 3, scale), 3) == D.MAPPINGS[3].(scale := scale)
    ensures forall k :: 0 <= k < 5 && k != 3 ==> PartMapping(WithScale(D.TAGS, 3, scale), k) == D.MAPPINGS[k]
  {
    D.TagsAreAccepted();
    ScalesAreNotChecked(D.TAGS, 3, scale);
    D.NamesDiffer();
    forall k | 0 <= k < 5
      ensures Find(WithScale(D.TAGS, 3, scale).signals, PartName(k)) == Some(k)
    {
      D.FindsDistinct(D.TAGS.signals, k);
      FoundByName(D.TAGS.signals, WithScale(D.TAGS, 3, scale).signals, PartName(k));
    }
  }
}
