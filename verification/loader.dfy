/** What makes a contract acceptable (src/contract/loader.py). */
module Loader {
  import opened Wrappers
  import opened Model

  datatype LoadError =
    | BadOrder(order: string)
    | DuplicateNames(names: set<string>)
    | UnknownModbusType(typ: string)
    | Overlap(table: string, first: string, second: string)
    | BadKind(name: string)

  predicate OrdersKnown(meta: Meta) {
    (meta.wordOrder == "high_first" || meta.wordOrder == "low_first")
    && (meta.byteOrder == "big" || meta.byteOrder == "little")
  }

  // ------------------------------------------------------- duplicate names

  function Count(signals: seq<Signal>, name: string): nat {
    if signals == [] then 0
    else Count(signals[..|signals| - 1], name) + if signals[|signals| - 1].name == name then 1 else 0
  }

  predicate DistinctNames(signals: seq<Signal>) {
    forall i, j :: 0 <= i < j < |signals| ==> signals[i].name != signals[j].name
  }

  predicate Named(signals: seq<Signal>, name: string, i: int) {
    0 <= i < |signals| && signals[i].name == name
  }

  lemma {:induction false} CountFinds(signals: seq<Signal>, name: string)
    ensures Count(signals, name) >= 1 <==> exists i :: Named(signals, name, i)
    ensures Count(signals, name) >= 2 <==> exists i, j :: Named(signals, name, i) && Named(signals, name, j) && i < j
  {
    if signals == [] {
    } else {
      var n := |signals| - 1;
      var rest := signals[..n];
      CountFinds(rest, name);
      NamedInRest(signals, rest, name, n);
    }
  }

  lemma NamedInRest(signals: seq<Signal>, rest: seq<Signal>, name: string, n: nat)
    requires |signals| == n + 1 && rest == signals[..n]
    ensures forall i :: Named(signals, name, i) <==> Named(rest, name, i) || (i == n && signals[n].name == name)
    ensures signals[n].name == name ==> Named(signals, name, n)
    ensures forall i :: Named(rest, name, i) ==> i < n
  {
  }

  /** Accepts exactly the contracts whose names are all different, and otherwise
      reports exactly the names that occur more than once. */
  method CheckDuplicateNames(signals: seq<Signal>) returns (r: Result<(), LoadError>)
    ensures r.Ok? <==> DistinctNames(signals)
    ensures r.Err? ==> r.error.DuplicateNames? && r.error.names != {}
                       && forall name :: name in r.error.names <==> Count(signals, name) > 1
  {
    var counts: map<string, int> := map[];
    for i := 0 to |signals|
      invariant forall name :: (if name in counts then counts[name] else 0) == Count(signals[..i], name)
    {
      var name := signals[i].name;
      assert signals[..i + 1][..i] == signals[..i];
      counts := counts[name := (if name in counts then counts[name] else 0) + 1];
    }
    assert signals[..|signals|] == signals;
    var dupes := set name | name in counts && counts[name] > 1;
    forall name
      ensures name in dupes <==> Count(signals, name) > 1
    {
    }
    if dupes == {} {
      forall i, j | 0 <= i < j < |signals|
        ensures signals[i].name != signals[j].name
      {
        CountFinds(signals, signals[j].name);
        assert signals[j].name !in dupes && Named(signals, signals[j].name, j);
        assert !Named(signals, signals[j].name, i);
      }
      r := Ok(());
    } else {
      var name :| name in dupes;
      CountFinds(signals, name);
      ghost var i, j :| Named(signals, name, i) && Named(signals, name, j) && i < j;
      r := Err(DuplicateNames(dupes));
    }
  }

  // -------------------------------------------------------------- overlaps

  /** One claim on a table; `position` is its place in the listing. */
  datatype Entry = Entry(table: string, span: Span, name: string, position: nat)

  predicate TypesKnown(c: Contract) {
    forall i :: 0 <= i < |c.signals| ==> !c.signals[i].modbus.typ.Unknown?
  }

  function EntryAt(c: Contract, i: nat): Entry
    requires TypesKnown(c) && i < |c.signals| + 2
  {
    if i < |c.signals| then
      Entry(c.signals[i].modbus.table, c.signals[i].modbus.Addresses(), c.signals[i].name, i)
    else if i == |c.signals| then
      Entry(BLOCK_TABLE, c.commandBlock.Addresses(), "command_block", i)
    else
      Entry(BLOCK_TABLE, c.ackBlock.Addresses(), "ack_block", i)
  }

  /** The order of a stable sort by start address. */
  predicate Before(a: Entry, b: Entry) {
    a.span.start < b.span.start || (a.span.start == b.span.start && a.position < b.position)
  }

  predicate Ordered(s: seq<Entry>) {
    forall i, j :: 0 <= i < j < |s| ==> Before(s[i], s[j])
  }

  /** Insert after every entry that does not start later, as a stable sort does. */
  function Insert(s: seq<Entry>, x: Entry): seq<Entry> {
    if s == [] then [x]
    else if s[|s| - 1].span.start <= x.span.start then s + [x]
    else Insert(s[..|s| - 1], x) + [s[|s| - 1]]
  }

  /** list.sort(key=start): stable. */
  function SortByStart(s: seq<Entry>): seq<Entry> {
    if s == [] then [] else Insert(SortByStart(s[..|s| - 1]), s[|s| - 1])
  }

  lemma AllBeforeLast(into: seq<Entry>, rest: seq<Entry>, x: Entry, last: Entry)
    requires Ordered(rest + [last]) && last.span.start > x.span.start
    requires forall y :: y in into ==> y in rest || y == x
    ensures forall i :: 0 <= i < |into| ==> Before(into[i], last)
  {
    var s := rest + [last];
    forall i | 0 <= i < |into|
      ensures Before(into[i], last)
    {
      assert into[i] in into;
      if into[i] != x {
        var k :| 0 <= k < |rest| && rest[k] == into[i];
        assert s[k] == into[i] && s[|rest|] == last;
      }
    }
  }

  lemma OrderedWithLast(into: seq<Entry>, last: Entry)
    requires Ordered(into) && forall i :: 0 <= i < |into| ==> Before(into[i], last)
    ensures Ordered(into + [last])
  {
  }

  lemma {:induction false} InsertKeepsOrder(s: seq<Entry>, x: Entry)
    requires Ordered(s) && forall i :: 0 <= i < |s| ==> s[i].position < x.position
    ensures Ordered(Insert(s, x)) && |Insert(s, x)| == |s| + 1
    ensures forall y :: y in Insert(s, x) <==> y in s || y == x
  {
    if s == [] {
    } else {
      var n := |s| - 1;
      var rest, last := s[..n], s[n];
      assert s == rest + [last];
      if last.span.start > x.span.start {
        InsertKeepsOrder(rest, x);
        AllBeforeLast(Insert(rest, x), rest, x, last);
        OrderedWithLast(Insert(rest, x), last);
      } else {
        LastStartsFirst(s, x);
        OrderedWithLast(s, x);
      }
    }
  }

  lemma LastStartsFirst(s: seq<Entry>, x: Entry)
    requires Ordered(s) && s != [] && s[|s| - 1].span.start <= x.span.start
    requires forall i :: 0 <= i < |s| ==> s[i].position < x.position
    ensures forall i :: 0 <= i < |s| ==> Before(s[i], x)
  {
    forall i | 0 <= i < |s| - 1
      ensures Before(s[i], x)
    {
      assert Before(s[i], s[|s| - 1]);
    }
  }

  predicate Listed(s: seq<Entry>) {
    forall i, j :: 0 <= i < j < |s| ==> s[i].position < s[j].position
  }

  lemma ListedBefore(s: seq<Entry>, sorted: seq<Entry>, n: nat)
    requires Listed(s) && n < |s| && forall y :: y in sorted <==> y in s[..n]
    ensures forall i :: 0 <= i < |sorted| ==> sorted[i].position < s[n].position
  {
    forall i | 0 <= i < |sorted|
      ensures sorted[i].position < s[n].position
    {
      assert sorted[i] in s[..n];
      var k :| 0 <= k < n && s[..n][k] == sorted[i];
      assert s[k] == sorted[i];
    }
  }

  lemma {:induction false} SortIsStable(s: seq<Entry>)
    requires Listed(s)
    ensures Ordered(SortByStart(s)) && |SortByStart(s)| == |s|
    ensures forall y :: y in SortByStart(s) <==> y in s
  {
    if s == [] {
    } else {
      var n := |s| - 1;
      var sorted := SortByStart(s[..n]);
      SortIsStable(s[..n]);
      ListedBefore(s, sorted, n);
      InsertKeepsOrder(sorted, s[n]);
      assert s == s[..n] + [s[n]];
    }
  }

  predicate NeighboursFit(s: seq<Entry>) {
    forall i, j :: 0 <= i < |s| && j == i + 1 && j < |s| ==> s[i].span.stop <= s[j].span.start
  }

  /** Comparing neighbours is enough once the list is sorted. */
  lemma {:induction false} NeighboursSuffice(s: seq<Entry>, i: nat, j: nat)
    requires NeighboursFit(s) && i < j < |s|
    requires Forward(s)
    ensures s[i].span.stop <= s[j].span.start
    decreases j
  {
    assert s[j - 1].span.stop <= s[j].span.start;
    if i < j - 1 {
      NeighboursSuffice(s, i, j - 1);
    }
  }

  /** Of two claims on one table, the one sorted first ends before the other
      begins. */
  predicate Fits(a: Entry, b: Entry) {
    a.table == b.table && Before(a, b) ==> a.span.stop <= b.span.start
  }

  predicate AllFit(c: Contract)
    requires TypesKnown(c)
  {
    forall i: nat, j: nat :: i < |c.signals| + 2 && j < |c.signals| + 2 ==> Fits(EntryAt(c, i), EntryAt(c, j))
  }

  predicate ComesFrom(c: Contract, e: Entry, t: string)
    requires TypesKnown(c)
  {
    e.table == t && e.position < |c.signals| + 2 && e == EntryAt(c, e.position)
  }

  /** Every claim is filed under its table, in listing order. */
  ghost predicate Filed(c: Contract, byTable: map<string, seq<Entry>>, n: nat)
    requires TypesKnown(c) && n <= |c.signals| + 2
  {
    (forall t :: t in byTable ==> Listed(byTable[t]))
    && (forall t, e :: t in byTable && e in byTable[t] ==> ComesFrom(c, e, t) && e.position < n)
    && (forall k: nat :: k < n ==> var e := EntryAt(c, k); e.table in byTable && e in byTable[e.table])
  }

  lemma FileOne(c: Contract, byTable: map<string, seq<Entry>>, n: nat, filed: map<string, seq<Entry>>)
    requires TypesKnown(c) && n < |c.signals| + 2 && Filed(c, byTable, n)
    requires var e := EntryAt(c, n);
             filed == byTable[e.table := (if e.table in byTable then byTable[e.table] else []) + [e]]
    ensures Filed(c, filed, n + 1)
  {
    var e := EntryAt(c, n);
    var listed := if e.table in byTable then byTable[e.table] else [];
    forall k | 0 <= k < |listed|
      ensures listed[k].position < n
    {
      assert listed[k] in listed;
    }
  }

  method GroupByTable(c: Contract) returns (byTable: map<string, seq<Entry>>, tables: seq<string>)
    requires TypesKnown(c)
    ensures Filed(c, byTable, |c.signals| + 2) && forall t :: t in byTable <==> t in tables
  {
    byTable, tables := map[], [];
    for i := 0 to |c.signals| + 2
      invariant Filed(c, byTable, i) && forall t :: t in byTable <==> t in tables
    {
      var e := EntryAt(c, i);
      ghost var before := byTable;
      if e.table !in byTable {
        byTable := byTable[e.table := []];
        tables := tables + [e.table];
      }
      byTable := byTable[e.table := byTable[e.table] + [e]];
      assert byTable == before[e.table := (if e.table in before then before[e.table] else []) + [e]];
      FileOne(c, before, i, byTable);
    }
  }

  /** Neighbours n and n + 1 overlap. */
  predicate NeighboursClash(t: string, spans: seq<Entry>, n: nat, e: LoadError) {
    n + 1 < |spans| && spans[n].span.stop > spans[n + 1].span.start && e == Overlap(t, spans[n].name, spans[n + 1].name)
  }

  predicate Clash(byTable: map<string, seq<Entry>>, t: string, n: nat, e: LoadError) {
    t in byTable && NeighboursClash(t, SortByStart(byTable[t]), n, e)
  }

  method CheckNeighbours(t: string, spans: seq<Entry>) returns (r: Result<(), LoadError>)
    ensures r.Ok? <==> NeighboursFit(spans)
    ensures r.Err? ==> exists n :: NeighboursClash(t, spans, n, r.error)
  {
    var n := 0;
    while n + 1 < |spans|
      invariant n == 0 || n < |spans|
      invariant forall i, j :: 0 <= i < n && j == i + 1 ==> spans[i].span.stop <= spans[j].span.start
    {
      if spans[n].span.stop > spans[n + 1].span.start {
        r := Err(Overlap(t, spans[n].name, spans[n + 1].name));
        assert NeighboursClash(t, spans, n, r.error);
        return;
      }
      n := n + 1;
    }
    r := Ok(());
  }

  predicate TableFits(byTable: map<string, seq<Entry>>, t: string) {
    t in byTable && NeighboursFit(SortByStart(byTable[t]))
  }

  method CheckTable(byTable: map<string, seq<Entry>>, t: string) returns (r: Result<(), LoadError>)
    requires t in byTable
    ensures r.Ok? <==> TableFits(byTable, t)
    ensures r.Err? ==> exists n :: Clash(byTable, t, n, r.error)
  {
    var spans := SortByStart(byTable[t]);
    r := CheckNeighbours(t, spans);
    if r.Err? {
      ghost var n :| NeighboursClash(t, spans, n, r.error);
      assert Clash(byTable, t, n, r.error);
    }
  }

  /** One table after another, each sorted by start. */
  method CheckTables(byTable: map<string, seq<Entry>>, tables: seq<string>) returns (r: Result<(), LoadError>)
    requires forall t :: t in byTable <==> t in tables
    ensures r.Ok? ==> forall t :: t in byTable ==> TableFits(byTable, t)
    ensures r.Err? ==> exists t, n :: Clash(byTable, t, n, r.error)
  {
    for k := 0 to |tables|
      invariant forall m :: 0 <= m < k ==> TableFits(byTable, tables[m])
    {
      assert tables[k] in tables;
      r := CheckTable(byTable, tables[k]);
      if r.Err? {
        return;
      }
    }
    r := Ok(());
  }

  predicate Forward(s: seq<Entry>) {
    forall k :: 0 <= k < |s| ==> s[k].span.start <= s[k].span.stop
  }

  lemma OrderedPairFits(spans: seq<Entry>, x: nat, y: nat)
    requires Ordered(spans) && NeighboursFit(spans) && Forward(spans)
    requires x < |spans| && y < |spans|
    ensures Fits(spans[x], spans[y])
  {
    if x < y {
      NeighboursSuffice(spans, x, y);
    } else if y < x {
      assert Before(spans[y], spans[x]);
    }
  }

  lemma SortedTableFits(listed: seq<Entry>, a: Entry, b: Entry)
    requires Listed(listed) && NeighboursFit(SortByStart(listed)) && a in listed && b in listed
    requires Forward(listed)
    ensures Fits(a, b)
  {
    SortIsStable(listed);
    SortForward(listed);
    var spans := SortByStart(listed);
    assert a in spans && b in spans;
    var x: nat :| x < |spans| && spans[x] == a;
    var y: nat :| y < |spans| && spans[y] == b;
    OrderedPairFits(spans, x, y);
  }

  lemma SortForward(listed: seq<Entry>)
    requires Listed(listed) && Forward(listed)
    ensures Forward(SortByStart(listed))
  {
    SortIsStable(listed);
    var spans := SortByStart(listed);
    forall k | 0 <= k < |spans|
      ensures spans[k].span.start <= spans[k].span.stop
    {
      assert spans[k] in listed;
    }
  }

  lemma FiledForward(c: Contract, byTable: map<string, seq<Entry>>, t: string)
    requires TypesKnown(c) && Filed(c, byTable, |c.signals| + 2) && t in byTable
    ensures Forward(byTable[t])
  {
    forall k | 0 <= k < |byTable[t]|
      ensures byTable[t][k].span.start <= byTable[t][k].span.stop
    {
      assert byTable[t][k] in byTable[t];
    }
  }

  lemma ClashIsBlamed(c: Contract, byTable: map<string, seq<Entry>>, t: string, n: nat, e: LoadError)
    requires TypesKnown(c) && Filed(c, byTable, |c.signals| + 2) && Clash(byTable, t, n, e)
    ensures (exists i: nat, j: nat :: Blames(c, e, i, j)) && !AllFit(c)
  {
    var spans := SortByStart(byTable[t]);
    SortIsStable(byTable[t]);
    var a, b := spans[n], spans[n + 1];
    assert a in spans && b in spans;
    assert ComesFrom(c, a, t) && ComesFrom(c, b, t);
    assert Before(a, b);
    assert Blames(c, e, a.position, b.position);
  }

  lemma TablesFit(c: Contract, byTable: map<string, seq<Entry>>)
    requires TypesKnown(c) && Filed(c, byTable, |c.signals| + 2)
    requires forall t :: t in byTable ==> TableFits(byTable, t)
    ensures AllFit(c)
  {
    forall i: nat, j: nat | i < |c.signals| + 2 && j < |c.signals| + 2
      ensures Fits(EntryAt(c, i), EntryAt(c, j))
    {
      var a, b := EntryAt(c, i), EntryAt(c, j);
      if a.table == b.table {
        assert a in byTable[a.table] && b in byTable[a.table];
        assert TableFits(byTable, a.table);
        FiledForward(c, byTable, a.table);
        SortedTableFits(byTable[a.table], a, b);
      }
    }
  }

  /** A pair of claims on one table that do not fit, named in the error. */
  ghost predicate Blames(c: Contract, e: LoadError, i: nat, j: nat)
    requires TypesKnown(c)
  {
    i < |c.signals| + 2 && j < |c.signals| + 2 && !Fits(EntryAt(c, i), EntryAt(c, j))
    && e == Overlap(EntryAt(c, i).table, EntryAt(c, i).name, EntryAt(c, j).name)
  }

  /** The first signal of an unknown type, named in the error. */
  predicate FirstUnknown(c: Contract, e: LoadError, i: int) {
    0 <= i < |c.signals| && c.signals[i].modbus.typ.Unknown? && e == UnknownModbusType(c.signals[i].modbus.typ.name)
    && forall j :: 0 <= j < i ==> !c.signals[j].modbus.typ.Unknown?
  }

  /** Every type has a width. */
  method CheckTypes(c: Contract) returns (r: Result<(), LoadError>)
    ensures r.Ok? <==> TypesKnown(c)
    ensures r.Err? ==> exists i :: FirstUnknown(c, r.error, i)
  {
    for i := 0 to |c.signals|
      invariant forall j :: 0 <= j < i ==> !c.signals[j].modbus.typ.Unknown?
    {
      if c.signals[i].modbus.typ.Unknown? {
        r := Err(UnknownModbusType(c.signals[i].modbus.typ.name));
        assert FirstUnknown(c, r.error, i);
        return;
      }
    }
    r := Ok(());
  }

  /** The check as it is run: group by table, sort each group, compare
      neighbours. It accepts exactly when all pairs fit, and otherwise names a
      pair on one table that does not. */
  method CheckNoOverlaps(c: Contract) returns (r: Result<(), LoadError>)
    ensures r.Ok? <==> TypesKnown(c) && AllFit(c)
    ensures r.Err? && TypesKnown(c) ==> exists i: nat, j: nat :: Blames(c, r.error, i, j)
    ensures !TypesKnown(c) ==> r.Err? && exists i :: FirstUnknown(c, r.error, i)
  {
    r := CheckTypes(c);
    if r.Err? {
      return;
    }
    var byTable, tables := GroupByTable(c);
    r := CheckTables(byTable, tables);
    if r.Ok? {
      TablesFit(c, byTable);
    } else {
      ghost var t, n :| Clash(byTable, t, n, r.error);
      ClashIsBlamed(c, byTable, t, n, r.error);
    }
  }

  ghost predicate Disjoint(a: Entry, b: Entry) {
    a.table == b.table ==> forall x :: !(a.span.Has(x) && b.span.Has(x))
  }

  /** No register is claimed twice. */
  ghost predicate PairwiseDisjoint(c: Contract)
    requires TypesKnown(c)
  {
    forall i: nat, j: nat :: i < |c.signals| + 2 && j < |c.signals| + 2 && i != j ==> Disjoint(EntryAt(c, i), EntryAt(c, j))
  }

  /** No claim covers the address of an empty one, but for a claim that begins
      there and is listed later. Only a block can be empty. */
  predicate EmptiesClear(c: Contract)
    requires TypesKnown(c)
  {
    forall i: nat, j: nat :: i < |c.signals| + 2 && j < |c.signals| + 2 ==> ClearOf(EntryAt(c, i), EntryAt(c, j))
  }

  predicate ClearOf(empty: Entry, other: Entry) {
    empty.table == other.table && empty.span.start == empty.span.stop && other.span.Has(empty.span.start) ==>
      other.span.start == empty.span.start && empty.position < other.position
  }

  lemma FitsIff(a: Entry, b: Entry)
    requires a.span.start <= a.span.stop && b.span.start <= b.span.stop && a.position != b.position
    ensures Fits(a, b) && Fits(b, a) <==> Disjoint(a, b) && ClearOf(a, b) && ClearOf(b, a)
  {
    if a.table == b.table && Disjoint(a, b) {
      assert !(a.span.Has(b.span.start) && b.span.Has(b.span.start));
      assert !(a.span.Has(a.span.start) && b.span.Has(a.span.start));
    }
  }

  /** What the check decides, for every contract: it accepts exactly when no
      register is claimed twice and no empty block lies in the way. So it is
      sound, and when neither block is empty complete. */
  lemma OverlapCheckIsExact(c: Contract)
    requires TypesKnown(c)
    ensures AllFit(c) <==> PairwiseDisjoint(c) && EmptiesClear(c)
    ensures c.commandBlock.layout != [] && c.ackBlock.layout != [] ==> EmptiesClear(c)
  {
    if AllFit(c) {
      forall i: nat, j: nat | i < |c.signals| + 2 && j < |c.signals| + 2
        ensures i != j ==> Disjoint(EntryAt(c, i), EntryAt(c, j))
        ensures ClearOf(EntryAt(c, i), EntryAt(c, j))
      {
        assert Fits(EntryAt(c, i), EntryAt(c, j)) && Fits(EntryAt(c, j), EntryAt(c, i));
        if i != j {
          FitsIff(EntryAt(c, i), EntryAt(c, j));
        }
      }
    }
    if PairwiseDisjoint(c) && EmptiesClear(c) {
      forall i: nat, j: nat | i < |c.signals| + 2 && j < |c.signals| + 2
        ensures Fits(EntryAt(c, i), EntryAt(c, j))
      {
        if i != j {
          assert Disjoint(EntryAt(c, i), EntryAt(c, j));
          assert ClearOf(EntryAt(c, i), EntryAt(c, j)) && ClearOf(EntryAt(c, j), EntryAt(c, i));
          FitsIff(EntryAt(c, i), EntryAt(c, j));
        }
      }
    }
  }

  /** Why emptiness matters: an empty block claims nothing, yet the check refuses
      it inside a two-register signal. */
  lemma EmptyBlockCanBeRefused(c: Contract)
    requires c.signals == [Signal("f", Mapping("holding", 10, Float32, 1.0), Some("Float"), None)]
    requires c.commandBlock == RegisterBlock(11, []) && c.ackBlock == RegisterBlock(20, ["ack_seq"])
    ensures TypesKnown(c) && PairwiseDisjoint(c) && !AllFit(c)
  {
    assert !Fits(EntryAt(c, 0), EntryAt(c, 1));
    assert EntryAt(c, 0).span == Span(10, 12) && EntryAt(c, 1).span == Span(11, 11) && EntryAt(c, 2).span == Span(20, 21);
  }

  // ------------------------------------------------------------ everything

  predicate KindsKnown(signals: seq<Signal>) {
    forall i :: 0 <= i < |signals| ==> signals[i].opcuaType.None? != signals[i].states.None?
  }

  ghost predicate Valid(c: Contract) {
    OrdersKnown(c.meta) && DistinctNames(c.signals) && TypesKnown(c) && AllFit(c) && KindsKnown(c.signals)
  }

  /** The first signal with both kinds or neither, named in the error. */
  predicate FirstOfNoKind(c: Contract, e: LoadError, i: int) {
    0 <= i < |c.signals| && c.signals[i].opcuaType.None? == c.signals[i].states.None? && e == BadKind(c.signals[i].name)
    && forall j :: 0 <= j < i ==> c.signals[j].opcuaType.None? != c.signals[j].states.None?
  }

  /** What the first failing check reports. */
  ghost predicate Reports(c: Contract, e: LoadError) {
    match e
    case BadOrder(order) =>
      (order == c.meta.wordOrder && order !in {"high_first", "low_first"})
      || (order == c.meta.byteOrder && order !in {"big", "little"} && c.meta.wordOrder in {"high_first", "low_first"})
    case DuplicateNames(names) =>
      OrdersKnown(c.meta) && names != {} && forall name :: name in names <==> Count(c.signals, name) > 1
    case UnknownModbusType(_) =>
      OrdersKnown(c.meta) && DistinctNames(c.signals) && exists i :: FirstUnknown(c, e, i)
    case Overlap(_, _, _) =>
      OrdersKnown(c.meta) && DistinctNames(c.signals) && TypesKnown(c) && exists i: nat, j: nat :: Blames(c, e, i, j)
    case BadKind(_) =>
      OrdersKnown(c.meta) && DistinctNames(c.signals) && TypesKnown(c) && AllFit(c) && exists i :: FirstOfNoKind(c, e, i)
  }

  /** The checks in their order: accepted if all pass, and otherwise the first that
      fails says what is wrong. */
  method Validate(c: Contract) returns (r: Result<(), LoadError>)
    ensures r.Ok? <==> Valid(c)
    ensures r.Err? ==> Reports(c, r.error)
  {
    if c.meta.wordOrder != "high_first" && c.meta.wordOrder != "low_first" {
      return Err(BadOrder(c.meta.wordOrder));
    }
    if c.meta.byteOrder != "big" && c.meta.byteOrder != "little" {
      return Err(BadOrder(c.meta.byteOrder));
    }
    r := CheckDuplicateNames(c.signals);
    if r.Err? {
      return;
    }
    r := CheckNoOverlaps(c);
    if r.Err? {
      return;
    }
    for i := 0 to |c.signals|
      invariant forall j :: 0 <= j < i ==> c.signals[j].opcuaType.None? != c.signals[j].states.None?
    {
      if c.signals[i].opcuaType.None? == c.signals[i].states.None? {
        r := Err(BadKind(c.signals[i].name));
        assert FirstOfNoKind(c, r.error, i);
        return;
      }
    }
    r := Ok(());
  }

  /** Accepted or not is decided by the orders, the names, the types, the claims and
      the kinds, and by nothing else. */
  lemma AcceptedIff(c: Contract)
    ensures Valid(c) <==>
            c.meta.wordOrder in {"high_first", "low_first"} && c.meta.byteOrder in {"big", "little"}
            && (forall i, j :: 0 <= i < |c.signals| && 0 <= j < |c.signals| && c.signals[i].name == c.signals[j].name ==> i == j)
            && (forall i :: 0 <= i < |c.signals| ==>
                  c.signals[i].modbus.typ in {Bool, UInt16, Int16, UInt32, Int32, Float32}
                  && ((c.signals[i].opcuaType.Some? && c.signals[i].states.None?)
                      || (c.signals[i].opcuaType.None? && c.signals[i].states.Some?)))
            && TypesKnown(c) && PairwiseDisjoint(c) && EmptiesClear(c)
  {
    if TypesKnown(c) {
      OverlapCheckIsExact(c);
    }
    forall i | 0 <= i < |c.signals|
      ensures c.signals[i].modbus.typ.Unknown? <==> c.signals[i].modbus.typ !in {Bool, UInt16, Int16, UInt32, Int32, Float32}
    {
    }
  }

  /** Either order may be exchanged for its other value, and for no third. */
  lemma OrdersAreFree(c: Contract, wordOrder: string, byteOrder: string)
    requires Valid(c)
    ensures Valid(c.(meta := c.meta.(wordOrder := wordOrder, byteOrder := byteOrder)))
            <==> wordOrder in {"high_first", "low_first"} && byteOrder in {"big", "little"}
  {
    var d := c.(meta := c.meta.(wordOrder := wordOrder, byteOrder := byteOrder));
    forall i: nat | i < |c.signals| + 2
      ensures EntryAt(d, i) == EntryAt(c, i)
    {
    }
    forall i: nat, j: nat | i < |d.signals| + 2 && j < |d.signals| + 2
      ensures Fits(EntryAt(d, i), EntryAt(d, j))
    {
      assert Fits(EntryAt(c, i), EntryAt(c, j));
    }
  }

  /** When the two blocks alone clash, the one that starts first is named first. */
  lemma ClashingBlocksAreNamed(c: Contract, e: LoadError, i: nat, j: nat)
    requires c.signals == [] && Blames(c, e, i, j)
    ensures e == if c.commandBlock.base <= c.ackBlock.base then Overlap("holding", "command_block", "ack_block")
                 else Overlap("holding", "ack_block", "command_block")
  {
  }
}
