/** Tool pins: the set of hashes a server's tools were accepted with, and how far the current ones drifted from it. */
module Pins {
  import opened Common
  import opened JsText
  import ToolHash

  /** A stored tool row, as far as pinning looks at it. */
  datatype Row = Row(name: Text, hash: Text)

  type Pinned = map<Text, Text>

  /** What drift reports; a changed tool is reported with a readable diff, of which only the name is kept here. */
  datatype DriftReport = DriftReport(changed: seq<Text>, added: seq<Text>, removed: seq<Text>)

  datatype Error = TypeError(name: Text)

  function Latin(s: string): Text {
    seq(|s|, i requires 0 <= i < |s| => if s[i] < 128 as char then s[i] as int else 0)
  }

  /** Properties every JavaScript object inherits: looking one up in a record that lacks it does not give undefined. */
  predicate Inherited(name: Text) {
    || name == ToolHash.PROTO
    || name in {
         Latin("constructor"), Latin("hasOwnProperty"), Latin("isPrototypeOf"), Latin("propertyIsEnumerable"),
         Latin("toLocaleString"), Latin("toString"), Latin("valueOf"), Latin("__defineGetter__"),
         Latin("__defineSetter__"), Latin("__lookupGetter__"), Latin("__lookupSetter__")
       }
  }

  lemma LatinAt(s: string, i: nat)
    requires i < |s| && s[i] < 128 as char
    ensures |Latin(s)| == |s| && Latin(s)[i] == s[i] as int
  {
  }

  lemma ProtoIs()
    ensures ToolHash.PROTO == Latin("__proto__")
  {
  }

  lemma InheritedAre()
    ensures Inherited(ToolHash.PROTO) && Inherited(Latin("constructor")) && Inherited(Latin("toString")) && Inherited(Latin("valueOf"))
    ensures Inherited(Latin("hasOwnProperty")) && Inherited(Latin("isPrototypeOf")) && Inherited(Latin("propertyIsEnumerable"))
    ensures Inherited(Latin("toLocaleString")) && Inherited(Latin("__defineGetter__")) && Inherited(Latin("__defineSetter__"))
    ensures Inherited(Latin("__lookupGetter__")) && Inherited(Latin("__lookupSetter__"))
  {
    hide Latin;
  }

  ghost predicate DistinctNames(rows: seq<Row>) {
    forall i, j | 0 <= i < j < |rows| :: rows[i].name != rows[j].name
  }

  ghost predicate NoneInherited(rows: seq<Row>) {
    forall i | 0 <= i < |rows| :: !Inherited(rows[i].name)
  }

  /** The name-to-hash map of a list of rows. */
  function Hashes(rows: seq<Row>): map<Text, Text> {
    if rows == [] then map[]
    else
      var last := rows[|rows| - 1];
      Hashes(rows[..|rows| - 1])[last.name := last.hash]
  }

  /** The map a pin stores: a member called `__proto__` does not become a property. */
  function PinsOf(rows: seq<Row>): Pinned {
    Hashes(rows) - {ToolHash.PROTO}
  }

  /** Names of the rows the pins do not know, in row order. */
  function Added(pins: Pinned, rows: seq<Row>): seq<Text> {
    if rows == [] then []
    else
      var last := rows[|rows| - 1];
      Added(pins, rows[..|rows| - 1]) + if last.name in pins then [] else [last.name]
  }

  /** Names of the rows pinned with another hash, in row order. */
  function Changed(pins: Pinned, rows: seq<Row>): seq<Text> {
    if rows == [] then []
    else
      var last := rows[|rows| - 1];
      Changed(pins, rows[..|rows| - 1]) + if last.name in pins && pins[last.name] != last.hash then [last.name] else []
  }

  ghost function Names(rows: seq<Row>): set<Text> {
    set i | 0 <= i < |rows| :: rows[i].name
  }

  /** Looking up such a row's pin finds an inherited property, and describing its change fails. */
  predicate Trips(pins: Pinned, row: Row) {
    row.name !in pins && Inherited(row.name)
  }

  predicate NoneTrips(pins: Pinned, rows: seq<Row>) {
    forall i | 0 <= i < |rows| :: !Trips(pins, rows[i])
  }

  ghost predicate Lists(names: seq<Text>, wanted: set<Text>) {
    && (forall i, j | 0 <= i < j < |names| :: names[i] != names[j])
    && (forall n :: n in names <==> n in wanted)
  }

  ghost predicate IsDriftOf(drift: DriftReport, pins: Pinned, rows: seq<Row>) {
    && drift.added == Added(pins, rows)
    && drift.changed == Changed(pins, rows)
    && Lists(drift.removed, pins.Keys - Names(rows))
  }

  predicate IsDrifted(drift: DriftReport) {
    |drift.changed| + |drift.added| + |drift.removed| > 0
  }

  /** One pinned set per server; `K` is whatever identifies a server. */
  class PinStore<K(==)> {
    var pins: map<K, Pinned>

    constructor ()
      ensures pins == map[]
    {
      pins := map[];
    }

    method Pin(serverId: K, rows: seq<Row>)
      modifies this
      ensures pins == old(pins)[serverId := PinsOf(rows)]
    {
      var pinned: Pinned := map[];
      for i := 0 to |rows|
        invariant pinned == PinsOf(rows[..i])
      {
        assert rows[..i + 1][..i] == rows[..i];
        if rows[i].name != ToolHash.PROTO {
          pinned := pinned[rows[i].name := rows[i].hash];
        }
      }
      assert rows[..|rows|] == rows;
      pins := pins[serverId := pinned];
    }

    /** The row goes with its server. */
    method Forget(serverId: K)
      modifies this
      ensures pins == old(pins) - {serverId}
    {
      pins := pins - {serverId};
    }

    /** Compares the pinned set with the current rows; an unpinned server has no drift. */
    method Drift(serverId: K, current: seq<Row>) returns (r: Result<DriftReport, Error>)
      ensures serverId !in pins ==> r == Success(DriftReport([], [], []))
      ensures serverId in pins ==> (r.Success? <==> NoneTrips(pins[serverId], current))
      ensures serverId in pins && r.Success? ==> IsDriftOf(r.value, pins[serverId], current)
    {
      if serverId !in pins {
        return Success(DriftReport([], [], []));
      }
      var pinned := pins[serverId];
      var seen: set<Text> := {};
      var added, changed := [], [];
      for i := 0 to |current|
        invariant seen == Names(current[..i])
        invariant added == Added(pinned, current[..i]) && changed == Changed(pinned, current[..i])
        invariant NoneTrips(pinned, current[..i])
      {
        var t := current[i];
        assert current[..i + 1][..i] == current[..i];
        NamesGrow(current[..i], t);
        assert current[..i + 1] == current[..i] + [t];
        seen := seen + {t.name};
        if t.name !in pinned && Inherited(t.name) {
          assert Trips(pinned, current[i]);
          return Failure(TypeError(t.name));
        }
        if t.name !in pinned {
          added := added + [t.name];
        } else if pinned[t.name] != t.hash {
          changed := changed + [t.name];
        }
      }
      assert current[..|current|] == current;
      var removed := Remaining(pinned.Keys - seen);
      r := Success(DriftReport(changed, added, removed));
    }
  }

  lemma NamesGrow(rows: seq<Row>, row: Row)
    ensures Names(rows + [row]) == Names(rows) + {row.name}
  {
    forall n ensures n in Names(rows + [row]) <==> n in Names(rows) + {row.name} {
      if n in Names(rows) {
        var i :| 0 <= i < |rows| && rows[i].name == n;
        assert (rows + [row])[i].name == n;
      }
      if n == row.name {
        assert (rows + [row])[|rows|].name == n;
      }
    }
  }

  method Remaining(names: set<Text>) returns (listed: seq<Text>)
    ensures Lists(listed, names)
  {
    listed := [];
    var todo := names;
    while todo != {}
      invariant todo <= names && Lists(listed, names - todo)
      decreases todo
    {
      var n :| n in todo;
      listed := listed + [n];
      todo := todo - {n};
    }
  }

  // ---- What an empty drift means ----

  lemma {:induction false} HashesAt(rows: seq<Row>)
    requires DistinctNames(rows)
    ensures forall i | 0 <= i < |rows| :: rows[i].name in Hashes(rows) && Hashes(rows)[rows[i].name] == rows[i].hash
    ensures Hashes(rows).Keys == Names(rows)
  {
    if rows != [] {
      var front, last := rows[..|rows| - 1], rows[|rows| - 1];
      HashesAt(front);
      NamesGrow(front, last);
      assert front + [last] == rows;
    }
  }

  lemma {:induction false} AddedAre(pins: Pinned, rows: seq<Row>)
    ensures Added(pins, rows) == [] <==> forall i | 0 <= i < |rows| :: rows[i].name in pins
  {
    if rows != [] {
      AddedAre(pins, rows[..|rows| - 1]);
    }
  }

  lemma {:induction false} ChangedAre(pins: Pinned, rows: seq<Row>)
    ensures Changed(pins, rows) == [] <==>
            forall i | 0 <= i < |rows| :: rows[i].name in pins ==> pins[rows[i].name] == rows[i].hash
  {
    if rows != [] {
      ChangedAre(pins, rows[..|rows| - 1]);
    }
  }

  lemma RemovedAre(removed: seq<Text>, gone: set<Text>)
    requires Lists(removed, gone)
    ensures removed == [] <==> gone == {}
  {
    if removed != [] {
      assert removed[0] in gone;
    }
    if gone != {} {
      var n :| n in gone;
      assert n in removed;
    }
  }

  /** Drift is empty exactly when the pinned map and the current rows' map are the same map. */
  lemma NoDriftMeansPinned(drift: DriftReport, pins: Pinned, rows: seq<Row>)
    requires DistinctNames(rows) && IsDriftOf(drift, pins, rows)
    ensures !IsDrifted(drift) <==> pins == Hashes(rows)
  {
    hide Added, Changed, Hashes, Lists;
    HashesAt(rows);
    AddedAre(pins, rows);
    ChangedAre(pins, rows);
    RemovedAre(drift.removed, pins.Keys - Names(rows));
    SameMap(pins, Hashes(rows), rows);
  }

  lemma SameMap(pins: Pinned, hashes: map<Text, Text>, rows: seq<Row>)
    requires hashes.Keys == Names(rows)
    requires forall i | 0 <= i < |rows| :: rows[i].name in hashes && hashes[rows[i].name] == rows[i].hash
    ensures pins == hashes <==>
            && (forall i | 0 <= i < |rows| :: rows[i].name in pins && pins[rows[i].name] == rows[i].hash)
            && pins.Keys - Names(rows) == {}
  {
    if (forall i | 0 <= i < |rows| :: rows[i].name in pins && pins[rows[i].name] == rows[i].hash)
       && pins.Keys - Names(rows) == {}
    {
      forall n | n in pins ensures n in Names(rows) {
        assert n !in pins.Keys - Names(rows);
      }
      forall n | n in Names(rows) ensures n in pins && pins[n] == hashes[n] {
        var i :| 0 <= i < |rows| && rows[i].name == n;
      }
      assert pins.Keys == hashes.Keys;
    }
  }

  /** Rows just pinned do not drift, whatever was pinned before. */
  lemma PinnedRowsDoNotDrift(rows: seq<Row>, drift: DriftReport)
    requires DistinctNames(rows) && NoneInherited(rows)
    requires IsDriftOf(drift, PinsOf(rows), rows)
    ensures !IsDrifted(drift)
  {
    PinsAreHashes(rows);
    NoDriftMeansPinned(drift, PinsOf(rows), rows);
  }

  lemma PinsAreHashes(rows: seq<Row>)
    requires DistinctNames(rows) && NoneInherited(rows)
    ensures PinsOf(rows) == Hashes(rows)
  {
    HashesAt(rows);
  }

  /** A tool called `__proto__` is never pinned, so it always trips. */
  lemma ProtoTrips(pins: Pinned, rows: seq<Row>)
    requires DistinctNames(rows) && ToolHash.PROTO !in pins && ToolHash.PROTO in Hashes(rows)
    ensures !NoneTrips(pins, rows)
  {
    HashesAt(rows);
    var i :| 0 <= i < |rows| && rows[i].name == ToolHash.PROTO;
    assert Trips(pins, rows[i]);
  }

  /** What trips is not pinned. */
  lemma TrippingIsDrift(pins: Pinned, rows: seq<Row>)
    requires DistinctNames(rows) && !NoneTrips(pins, rows)
    ensures pins != Hashes(rows)
  {
    HashesAt(rows);
  }

  lemma NoneInheritedNoneTrips(pins: Pinned, rows: seq<Row>)
    requires NoneInherited(rows)
    ensures NoneTrips(pins, rows)
  {
    hide Inherited;
  }

  // ---- ... in terms of definitions ----

  /** The row stored for a definition; `hex` writes a digest out. */
  function RowFor(tool: ToolHash.Tool, hex: ToolHash.Digest -> Text): Row {
    Row(tool.name, hex(ToolHash.HashOf(tool)))
  }

  function Rows(tools: seq<ToolHash.Tool>, hex: ToolHash.Digest -> Text): (rows: seq<Row>)
    ensures |rows| == |tools| && forall i | 0 <= i < |tools| :: rows[i] == RowFor(tools[i], hex)
  {
    seq(|tools|, i requires 0 <= i < |tools| => RowFor(tools[i], hex))
  }

  ghost predicate Proper(tools: seq<ToolHash.Tool>) {
    && (forall i | 0 <= i < |tools| :: ToolHash.WellFormed(tools[i]) && !Inherited(tools[i].name))
    && (forall i, j | 0 <= i < j < |tools| :: tools[i].name != tools[j].name)
  }

  /** Every definition of `xs` is among `ys`, up to the order of keys. */
  ghost predicate Covered(xs: seq<ToolHash.Tool>, ys: seq<ToolHash.Tool>) {
    forall i | 0 <= i < |xs| :: exists j | 0 <= j < |ys| :: ToolHash.SameDefinition(xs[i], ys[j])
  }

  ghost predicate Injective(hex: ToolHash.Digest -> Text) {
    forall d, e :: hex(d) == hex(e) ==> d == e
  }

  /** A server drifts from its pins exactly when its definitions differ from the pinned ones by more than key order. */
  lemma NoDriftMeansSameDefinitions(
      pinned: seq<ToolHash.Tool>, now: seq<ToolHash.Tool>, hex: ToolHash.Digest -> Text, drift: DriftReport)
    requires Proper(pinned) && Proper(now) && Injective(hex)
    requires IsDriftOf(drift, PinsOf(Rows(pinned, hex)), Rows(now, hex))
    ensures !IsDrifted(drift) <==> Covered(pinned, now) && Covered(now, pinned)
  {
    PinsAreHashes(Rows(pinned, hex));
    NoDriftMeansPinned(drift, PinsOf(Rows(pinned, hex)), Rows(now, hex));
    SameMapSameDefinitions(pinned, now, hex);
  }

  lemma SameMapSameDefinitions(xs: seq<ToolHash.Tool>, ys: seq<ToolHash.Tool>, hex: ToolHash.Digest -> Text)
    requires Proper(xs) && Proper(ys) && Injective(hex)
    ensures Hashes(Rows(xs, hex)) == Hashes(Rows(ys, hex)) <==> Covered(xs, ys) && Covered(ys, xs)
  {
    hide ToolHash.HashOf, ToolHash.SameDefinition, ToolHash.WellFormed, Hashes, Inherited;
    CoveredIsSubmap(xs, ys, hex);
    CoveredIsSubmap(ys, xs, hex);
  }

  lemma CoveredIsSubmap(xs: seq<ToolHash.Tool>, ys: seq<ToolHash.Tool>, hex: ToolHash.Digest -> Text)
    requires Proper(xs) && Proper(ys) && Injective(hex)
    ensures Covered(xs, ys) <==>
            (forall n | n in Hashes(Rows(xs, hex)) :: n in Hashes(Rows(ys, hex))
              && Hashes(Rows(xs, hex))[n] == Hashes(Rows(ys, hex))[n])
  {
    hide ToolHash.HashOf, ToolHash.SameDefinition, ToolHash.WellFormed, Hashes, Inherited;
    var m, k := Hashes(Rows(xs, hex)), Hashes(Rows(ys, hex));
    HashesAt(Rows(xs, hex));
    HashesAt(Rows(ys, hex));
    if Covered(xs, ys) {
      forall n | n in m ensures n in k && m[n] == k[n] {
        var i :| 0 <= i < |xs| && Rows(xs, hex)[i].name == n;
        var j :| 0 <= j < |ys| && ToolHash.SameDefinition(xs[i], ys[j]);
        SameRow(xs[i], ys[j], hex);
        assert Rows(ys, hex)[j].name in k;
        assert Rows(xs, hex)[i].name in m;
      }
    }
    if forall n | n in m :: n in k && m[n] == k[n] {
      forall i | 0 <= i < |xs| ensures exists j | 0 <= j < |ys| :: ToolHash.SameDefinition(xs[i], ys[j]) {
        assert Rows(xs, hex)[i].name in m;
        var j :| 0 <= j < |ys| && Rows(ys, hex)[j].name == xs[i].name;
        SameRow(xs[i], ys[j], hex);
      }
    }
  }

  lemma SameRow(x: ToolHash.Tool, y: ToolHash.Tool, hex: ToolHash.Digest -> Text)
    requires ToolHash.WellFormed(x) && ToolHash.WellFormed(y) && Injective(hex)
    ensures RowFor(x, hex) == RowFor(y, hex) <==> ToolHash.SameDefinition(x, y)
  {
    ToolHash.HashIsDefinition(x, y);
    assert ToolHash.SameDefinition(x, y) ==> x.name == y.name;
    hide ToolHash.HashOf, ToolHash.SameDefinition, ToolHash.WellFormed;
  }
}
