/**
 The ranker's snapshot of the tool index. It is rebuilt only when the index
 generation or the embedding model moved, and is proved to be always what a
 rebuild would give.
 */
module RankerCache {
  import opened Common
  import opened JsText
  import opened ToolHash
  import opened ToolIndex
  import opened Vocabulary
  import Catalog

  function Docs(t: Tables): set<Doc> {
    set k | k in t.rows && t.rows[k].id in t.fts :: Doc(t.rows[k].id, k.server, t.fts[t.rows[k].id])
  }

  /** Stored vectors of one model, by row id. */
  datatype Vectors = Vectors(model: string, rows: set<(RowId, string)>)

  function VectorsOf(t: Tables, model: Option<string>): Option<Vectors> {
    if model.None? then None
    else Some(Vectors(model.value,
      set k | k in t.rows && t.rows[k].vector.Some? && t.rows[k].vector.value.model == model.value
        :: (t.rows[k].id, t.rows[k].vector.value.embedding)))
  }

  /** Call counts per tool row: never cached. */
  function CallsOf(t: Tables, usage: map<Key, nat>): set<(RowId, nat)> {
    set k | k in t.rows && k in usage :: (t.rows[k].id, usage[k])
  }

  datatype Snapshot = Snapshot(
    generation: nat,
    vocab: Counts,
    serverTerms: map<ServerId, set<Text>>,
    docs: set<Doc>,
    calls: set<(RowId, nat)>,
    vectors: Option<Vectors>)

  function Model(s: Snapshot): Option<string> {
    if s.vectors.Some? then Some(s.vectors.value.model) else None
  }

  ghost function Rebuild(t: Tables, generation: nat, model: Option<string>, usage: map<Key, nat>, words: Words): Snapshot {
    Snapshot(generation, VocabularyOf(Docs(t), words), ServerTerms(Docs(t), words), Docs(t), CallsOf(t, usage), VectorsOf(t, model))
  }

  /** What a rebuilt snapshot holds, row by row: search rows with their tool rows, call counts, and the vectors of the model. */
  lemma WhatASnapshotHolds(
      t: Tables, generation: nat, model: Option<string>, usage: map<Key, nat>, words: Words, d: Doc, id: RowId, n: nat, embedding: string)
    ensures
      var s := Rebuild(t, generation, model, usage, words);
      && s.generation == generation
      && (d in s.docs <==> exists k :: k in t.rows && t.rows[k].id == d.id && k.server == d.server
                                       && d.id in t.fts && t.fts[d.id] == d.document)
      && ((id, n) in s.calls <==> exists k :: k in t.rows && t.rows[k].id == id && k in usage && usage[k] == n)
      && (s.vectors.Some? <==> model.Some?)
      && (model.Some? ==>
            && s.vectors.value.model == model.value
            && ((id, embedding) in s.vectors.value.rows <==>
                  exists k :: k in t.rows && t.rows[k].id == id && t.rows[k].vector == Some(Vector(embedding, model.value))))
      && IsVocabulary(s.vocab, s.docs, words) && s.serverTerms == ServerTerms(s.docs, words)
  {
    VocabularyOfIs(Docs(t), words);
    hide VocabularyOf, IsVocabulary, ServerTerms;
  }

  /** A cached snapshot is never from the future, and one of this generation is up to date but for the calls. */
  ghost predicate Coherent(cached: Option<Snapshot>, t: Tables, generation: nat, words: Words) {
    cached.Some? ==>
      && cached.value.generation <= generation
      && (cached.value.generation == generation ==>
            cached.value == Rebuild(t, generation, Model(cached.value), map[], words).(calls := cached.value.calls))
  }

  /** The rows of a query, in whatever order they come. */
  method InSomeOrder(docs: set<Doc>) returns (rows: seq<Doc>)
    ensures AsSet(rows) == docs && forall i, j | 0 <= i < j < |rows| :: rows[i] != rows[j]
  {
    rows := [];
    var todo := docs;
    while todo != {}
      invariant todo <= docs && AsSet(rows) == docs - todo
      invariant forall i, j | 0 <= i < j < |rows| :: rows[i] != rows[j]
      decreases todo
    {
      var d :| d in todo;
      assert forall i | 0 <= i < |rows| :: rows[i] in AsSet(rows);
      AsSetWith(rows, d);
      rows, todo := rows + [d], todo - {d};
    }
  }

  lemma AsSetWith(rows: seq<Doc>, d: Doc)
    ensures AsSet(rows + [d]) == AsSet(rows) + {d}
  {
    assert d in rows + [d];
  }

  class HybridRanker {
    const words: Words
    var snapshot: Option<Snapshot>

    constructor (words: Words)
      ensures this.words == words && snapshot == None
    {
      this.words, snapshot := words, None;
    }

    method Load(index: ToolIndex, model: Option<string>, usage: map<Key, nat>) returns (s: Snapshot)
      requires Coherent(snapshot, index.tables, index.generation, words)
      modifies this
      ensures s == Rebuild(index.tables, index.generation, model, usage, words)
      ensures snapshot == Some(s) && Coherent(snapshot, index.tables, index.generation, words)
    {
      var calls := CallsOf(index.tables, usage);
      if snapshot.Some? && snapshot.value.generation == index.generation && Model(snapshot.value) == model {
        s := snapshot.value.(calls := calls);
      } else {
        var docs := Docs(index.tables);
        var rows := InSomeOrder(docs);
        var vocab := Build(rows, words);
        var serverTerms := BuildServerTerms(rows, words);
        s := Snapshot(index.generation, vocab, serverTerms, docs, calls, VectorsOf(index.tables, model));
      }
      snapshot := Some(s);
    }
  }

  // ---- Every run ----

  datatype Op =
    | Change(op: Catalog.Op)
    | Load(model: Option<string>, usage: map<Key, nat>)

  datatype System = System(store: Catalog.State, cached: Option<Snapshot>)

  ghost predicate May(s: System, op: Op) {
    op.Change? ==> Catalog.May(s.store, op.op)
  }

  /** One operation; a load answers with the cache when generation and model still match. */
  ghost function Step(s: System, op: Op, build: Builder, words: Words): System
    requires May(s, op)
  {
    match op
    case Change(change) => s.(store := Catalog.Step(s.store, change, build))
    case Load(model, usage) => s.(cached := Some(Loaded(s, model, usage, words)))
  }

  ghost function Loaded(s: System, model: Option<string>, usage: map<Key, nat>, words: Words): Snapshot {
    if s.cached.Some? && s.cached.value.generation == s.store.generation && Model(s.cached.value) == model
    then s.cached.value.(calls := CallsOf(s.store.tables, usage))
    else Rebuild(s.store.tables, s.store.generation, model, usage, words)
  }

  ghost predicate IsRun(s: System, ops: seq<Op>, build: Builder, words: Words)
    decreases ops
  {
    ops == [] || (May(s, ops[0]) && IsRun(Step(s, ops[0], build, words), ops[1..], build, words))
  }

  ghost function Run(s: System, ops: seq<Op>, build: Builder, words: Words): System
    requires IsRun(s, ops, build, words)
    decreases ops
  {
    if ops == [] then s else Run(Step(s, ops[0], build, words), ops[1..], build, words)
  }

  ghost predicate Good(s: System, build: Builder, words: Words) {
    Catalog.InOrder(s.store, build) && Coherent(s.cached, s.store.tables, s.store.generation, words)
  }

  /** A snapshot of the present generation is cached, and an uninstall takes tools away without a new generation. */
  ghost predicate Stales(s: System, op: Op)
    requires May(s, op)
  {
    && op.Change? && Catalog.TakesAnother(s.store, op.op)
    && s.cached.Some? && s.cached.value.generation == s.store.generation
  }

  lemma SameToolsSameRebuild(t: Tables, u: Tables, generation: nat, model: Option<string>, usage: map<Key, nat>, words: Words)
    requires Catalog.SameTools(t, u)
    ensures Rebuild(t, generation, model, usage, words) == Rebuild(u, generation, model, usage, words)
  {
    assert Docs(t) == Docs(u) && VectorsOf(t, model) == VectorsOf(u, model) && CallsOf(t, usage) == CallsOf(u, usage);
    hide Docs, VectorsOf, CallsOf;
  }

  /** Every tool row has its document, under its own id. */
  lemma TakenDocsDiffer(t: Tables, u: Tables, k: Key, build: Builder)
    requires Sound(t, build) && k in t.rows && k !in u.rows
    requires forall l | l in u.rows :: l in t.rows && u.rows[l] == t.rows[l]
    ensures Docs(t) != Docs(u)
  {
    var d := Doc(t.rows[k].id, k.server, t.fts[t.rows[k].id]);
    assert d in Docs(t);
    assert d !in Docs(u);
  }

  lemma AnotherIsTaken(s: Catalog.State, op: Catalog.Op, build: Builder)
    requires Catalog.May(s, op) && Catalog.InOrder(s, build) && Catalog.TakesAnother(s, op)
    ensures Docs(s.tables) != Docs(Catalog.Step(s, op, build).tables)
  {
    var l := s.uninstalls[op.id];
    var owner := Catalog.Owner(s.tables, l.name).value;
    assert Catalog.LeavingOk(s, op.id);
    Catalog.UninstalledIs(s, l, build);
    NoKeysNoRows(s.tables, owner);
    var k :| k in KeysUnder(s.tables, owner);
    TakenDocsDiffer(s.tables, Catalog.Uninstalled(s, l).tables, k, build);
    hide Docs, Orphans, UniqueIds, Documented, Catalog.Uninstalled, Catalog.Owner;
  }

  /** A step keeps the cache coherent if and only if it does not take tools away behind a current snapshot. */
  lemma CoherentExactlyUnlessStaled(s: System, op: Op, build: Builder, words: Words)
    requires May(s, op) && Good(s, build, words)
    ensures Good(Step(s, op, build, words), build, words) <==> !Stales(s, op)
  {
    match op
    case Load(model, usage) => LoadIsCoherent(s, model, usage, words);
    case Change(change) =>
      Catalog.StepKeepsInOrder(s.store, change, build);
      ChangeIsCoherent(s, change, build, words);
    hide Catalog.May, Catalog.Step, Catalog.InOrder, Catalog.TakesAnother, Rebuild, Loaded;
  }

  lemma ChangeIsCoherent(s: System, change: Catalog.Op, build: Builder, words: Words)
    requires Catalog.May(s.store, change) && Good(s, build, words)
    ensures var u := Catalog.Step(s.store, change, build);
            Coherent(s.cached, u.tables, u.generation, words) <==> !Stales(s, Change(change))
  {
    var u := Catalog.Step(s.store, change, build);
    Catalog.StepMovesGeneration(s.store, change, build);
    if s.cached.Some? && s.cached.value.generation == s.store.generation == u.generation {
      var c := s.cached.value;
      if Catalog.TakesAnother(s.store, change) {
        AnotherIsTaken(s.store, change, build);
      } else {
        SameToolsSameRebuild(s.store.tables, u.tables, c.generation, Model(c), map[], words);
      }
    }
    hide Docs, VectorsOf, CallsOf, Catalog.May, Catalog.Step, Catalog.InOrder, Catalog.TakesAnother, Catalog.SameTools;
  }

  /** From a coherent cache, a load answers what a rebuild from the tables gives. */
  lemma LoadIsCoherent(s: System, model: Option<string>, usage: map<Key, nat>, words: Words)
    requires Coherent(s.cached, s.store.tables, s.store.generation, words)
    ensures Loaded(s, model, usage, words) == Rebuild(s.store.tables, s.store.generation, model, usage, words)
    ensures Coherent(Some(Loaded(s, model, usage, words)), s.store.tables, s.store.generation, words)
  {
    hide Docs, CallsOf;
  }

  ghost predicate SomeStepStales(s: System, ops: seq<Op>, build: Builder, words: Words)
    requires IsRun(s, ops, build, words)
    decreases ops
  {
    ops != [] && (Stales(s, ops[0]) || SomeStepStales(Step(s, ops[0], build, words), ops[1..], build, words))
  }

  ghost predicate GoodThroughout(s: System, ops: seq<Op>, build: Builder, words: Words)
    requires IsRun(s, ops, build, words)
    decreases ops
  {
    Good(s, build, words) && (ops == [] || GoodThroughout(Step(s, ops[0], build, words), ops[1..], build, words))
  }

  /** A cached snapshot of the present generation agrees with the tables throughout a run if and only if no step stales it. */
  lemma {:induction false} CoherentExactlyInUnstaledRuns(s: System, ops: seq<Op>, build: Builder, words: Words)
    requires IsRun(s, ops, build, words) && Good(s, build, words)
    ensures GoodThroughout(s, ops, build, words) <==> !SomeStepStales(s, ops, build, words)
    decreases ops
  {
    hide May, Step, Good, Stales;
    if ops != [] {
      CoherentExactlyUnlessStaled(s, ops[0], build, words);
      if !Stales(s, ops[0]) {
        CoherentExactlyInUnstaledRuns(Step(s, ops[0], build, words), ops[1..], build, words);
      }
    }
  }

  lemma {:induction false} RunKeepsCoherence(s: System, ops: seq<Op>, build: Builder, words: Words)
    requires IsRun(s, ops, build, words) && Good(s, build, words) && !SomeStepStales(s, ops, build, words)
    ensures Good(Run(s, ops, build, words), build, words)
    decreases ops
  {
    hide May, Step, Good, Stales;
    if ops != [] {
      CoherentExactlyUnlessStaled(s, ops[0], build, words);
      RunKeepsCoherence(Step(s, ops[0], build, words), ops[1..], build, words);
    }
  }

  const START := System(Catalog.START, None)

  /** After any run of installs, saves, uninstalls and loads that stales nothing, a load answers what a rebuild gives. */
  lemma LoadIsRebuild(ops: seq<Op>, model: Option<string>, usage: map<Key, nat>, build: Builder, words: Words)
    requires IsRun(START, ops, build, words) && !SomeStepStales(START, ops, build, words)
    ensures
      var s := Run(START, ops, build, words);
      Loaded(s, model, usage, words) == Rebuild(s.store.tables, s.store.generation, model, usage, words)
  {
    Catalog.StartIsInOrder(build);
    RunKeepsCoherence(START, ops, build, words);
    LoadIsCoherent(Run(START, ops, build, words), model, usage, words);
    hide Run, IsRun, SomeStepStales, Loaded, Rebuild, Catalog.InOrder;
  }

  // ---- A stale snapshot ----

  /** Once a step stales the cache, the next load for the same model still answers with tools that are gone. */
  lemma StaledLoadIsWrong(s: System, op: Op, usage: map<Key, nat>, build: Builder, words: Words)
    requires May(s, op) && Good(s, build, words) && Stales(s, op)
    ensures var u := Step(s, op, build, words);
            Loaded(u, Model(s.cached.value), usage, words).docs != Docs(u.store.tables)
  {
    Catalog.StepMovesGeneration(s.store, op.op, build);
    AnotherIsTaken(s.store, op.op, build);
    hide Docs, VectorsOf, CallsOf, Catalog.May, Catalog.Step, Catalog.InOrder, Catalog.TakesAnother, Catalog.SameTools;
  }

  lemma {:induction false} Lift(s: System, ops: seq<Catalog.Op>, build: Builder, words: Words) returns (more: seq<Op>)
    requires Catalog.IsRun(s.store, ops, build)
    ensures IsRun(s, more, build, words) && Run(s, more, build, words) == System(Catalog.Run(s.store, ops, build), s.cached)
    decreases ops
  {
    hide Catalog.May, Catalog.Step;
    if ops == [] {
      more := [];
    } else {
      var op := Change(ops[0]);
      var rest := Lift(Step(s, op, build, words), ops[1..], build, words);
      more := [op] + rest;
      assert more[1..] == rest;
    }
  }

  lemma {:induction false} RunThen(s: System, ops: seq<Op>, op: Op, build: Builder, words: Words)
    requires IsRun(s, ops, build, words) && May(Run(s, ops, build, words), op)
    ensures IsRun(s, ops + [op], build, words)
    ensures Run(s, ops + [op], build, words) == Step(Run(s, ops, build, words), op, build, words)
    decreases ops
  {
    hide May, Step;
    if ops == [] {
      assert [] + [op] == [op] && [op][1..] == [];
    } else {
      RunThen(Step(s, ops[0], build, words), ops[1..], op, build, words);
      assert (ops + [op])[0] == ops[0] && (ops + [op])[1..] == ops[1..] + [op];
    }
  }

  /** Two uninstalls of one name, and a load before the slower one goes on. */
  lemma SecondUninstallStales(name: Catalog.Name, tool: Tool, build: Builder, words: Words) returns (ops: seq<Op>)
    ensures IsRun(START, ops, build, words)
    ensures var s := Run(START, ops, build, words);
            May(s, Change(Catalog.UninstallEnds(0))) && Stales(s, Change(Catalog.UninstallEnds(0)))
  {
    var changes := Catalog.SecondUninstallTakesAnother(name, tool, build);
    ops := Lift(START, changes, build, words);
    hide Run, IsRun, Catalog.Run, Catalog.IsRun, Catalog.May, Catalog.InOrder, Catalog.TakesAnother, Docs, CallsOf;
    RunThen(START, ops, Load(None, map[]), build, words);
    ops := ops + [Load(None, map[])];
  }
}
