/**
 The persisted tool catalog: `save` diffs a server's reported tools against the
 stored ones by hash and writes rows and search rows in one transaction.
 */
module ToolIndex {
  import opened Common
  import opened JsText
  import opened Json
  import opened ToolHash

  type ServerId = nat
  type RowId = nat

  datatype Vector = Vector(embedding: string, model: string)

  /** What the search index holds for a tool. */
  datatype Document = Document(name: Text, description: Text, args: Text)

  /** A row of `server_tools`; its server and name are its key in the table. */
  datatype Row = Row(
    id: RowId,
    title: Option<Text>,
    description: Text,
    inputSchema: Json,
    outputSchema: Option<Json>,
    annotations: Option<Json>,
    hash: Digest,
    vector: Option<Vector>)

  datatype Key = Key(server: ServerId, name: Text)

  /** `server_tools`, the search rows by row id, the next row id (never reused), and the names in `servers` by id. */
  datatype Tables = Tables(rows: map<Key, Row>, fts: map<RowId, Document>, nextId: RowId, servers: map<ServerId, string>)

  const EMPTY := Tables(map[], map[], 1, map[])

  /** `buildDocument`: some function of the fields a row stores. */
  type Builder = (Text, Option<Text>, Text, Json) -> Document

  function DocumentOf(build: Builder, key: Key, r: Row): Document {
    build(key.name, r.title, r.description, r.inputSchema)
  }

  /** Row ids are unique and used up. */
  ghost predicate UniqueIds(t: Tables) {
    && (forall k | k in t.rows :: t.rows[k].id < t.nextId)
    && (forall k, l | k in t.rows && l in t.rows && t.rows[k].id == t.rows[l].id :: k == l)
  }

  /** Every row has its search row, built from the row's own fields. */
  ghost predicate Documented(t: Tables, build: Builder) {
    forall k | k in t.rows :: Lookup(t.fts, t.rows[k].id) == Some(DocumentOf(build, k, t.rows[k]))
  }

  /** Search rows are under used ids, and tools belong to servers there are. */
  ghost predicate Rooted(t: Tables) {
    (forall id | id in t.fts :: id < t.nextId) && (forall k | k in t.rows :: k.server in t.servers)
  }

  /** What the tables always satisfy. */
  ghost predicate Sound(t: Tables, build: Builder) {
    UniqueIds(t) && Documented(t, build) && Rooted(t)
  }

  function RowIds(t: Tables): set<RowId> {
    set k | k in t.rows :: t.rows[k].id
  }

  /** Search rows without a tool row. */
  function Orphans(t: Tables): set<RowId> {
    t.fts.Keys - RowIds(t)
  }

  ghost predicate Consistent(t: Tables, build: Builder) {
    Sound(t, build) && Orphans(t) == {}
  }

  // ---- What a save starts from ----

  datatype Provider = NoProvider | Provider(model: string)

  function AllNames(t: Tables): set<Text> {
    set k | k in t.rows :: k.name
  }

  /** The stored rows of one server, by name. */
  function Existing(t: Tables, server: ServerId): map<Text, Row> {
    map name | name in AllNames(t) && Key(server, name) in t.rows :: t.rows[Key(server, name)]
  }

  lemma ExistingAt(t: Tables, server: ServerId, name: Text)
    ensures Lookup(Existing(t, server), name) == Lookup(t.rows, Key(server, name))
  {}

  /** New, changed, or without a vector of the configured model. */
  predicate Dirty(existing: map<Text, Row>, tool: Tool, provider: Provider) {
    || IsNew(existing, tool)
    || IsChanged(existing, tool)
    || (provider.Provider? && (existing[tool.name].vector.None? || existing[tool.name].vector.value.model != provider.model))
  }

  predicate IsNew(existing: map<Text, Row>, tool: Tool) {
    tool.name !in existing
  }

  predicate IsChanged(existing: map<Text, Row>, tool: Tool) {
    tool.name in existing && existing[tool.name].hash != HashOf(tool)
  }

  function DirtyTools(existing: map<Text, Row>, tools: seq<Tool>, provider: Provider): seq<Tool> {
    if tools == [] then []
    else
      var last := tools[|tools| - 1];
      DirtyTools(existing, tools[..|tools| - 1], provider) + if Dirty(existing, last, provider) then [last] else []
  }

  function NewNames(existing: map<Text, Row>, tools: seq<Tool>): seq<Text> {
    if tools == [] then []
    else
      var last := tools[|tools| - 1];
      NewNames(existing, tools[..|tools| - 1]) + if IsNew(existing, last) then [last.name] else []
  }

  function ChangedNames(existing: map<Text, Row>, tools: seq<Tool>): seq<Text> {
    if tools == [] then []
    else
      var last := tools[|tools| - 1];
      ChangedNames(existing, tools[..|tools| - 1]) + if IsChanged(existing, last) then [last.name] else []
  }

  /** How many tools are stored under the same hash. */
  function Unchanged(existing: map<Text, Row>, tools: seq<Tool>): nat {
    if tools == [] then 0
    else
      var last := tools[|tools| - 1];
      Unchanged(existing, tools[..|tools| - 1]) + if !IsNew(existing, last) && !IsChanged(existing, last) then 1 else 0
  }

  function Seen(tools: seq<Tool>): set<Text> {
    set tool | tool in tools :: tool.name
  }

  ghost predicate DistinctNames(tools: seq<Tool>) {
    forall i, j | 0 <= i < j < |tools| :: tools[i].name != tools[j].name
  }

  // ---- The statements of the transaction ----

  const DEFAULT_SCHEMA: Json := Obj([Member([116, 121, 112, 101], Str([111, 98, 106, 101, 99, 116]))])

  function RowFor(id: RowId, tool: Tool, vectors: map<Digest, Vector>): Row {
    Row(id, tool.title, tool.description.GetOr([]), tool.inputSchema.GetOr(DEFAULT_SCHEMA), tool.outputSchema, tool.annotations,
        HashOf(tool), Lookup(vectors, HashOf(tool)))
  }

  /** Deletes rows; the delete trigger drops their search rows. */
  function DeleteAll(t: Tables, keys: set<Key>): Tables
    requires keys <= t.rows.Keys
  {
    t.(rows := t.rows - keys, fts := t.fts - (set k | k in keys :: t.rows[k].id))
  }

  function KeysWith(t: Tables, ids: set<RowId>): (keys: set<Key>)
    ensures keys <= t.rows.Keys
  {
    set k | k in t.rows && t.rows[k].id in ids
  }

  /** Deletes rows by id; an id without a row deletes nothing. */
  function DeleteIds(t: Tables, ids: set<RowId>): Tables {
    DeleteAll(t, KeysWith(t, ids))
  }

  /** Storing a row and its search row, under its old id or a new one. */
  function Put(t: Tables, key: Key, row: Row, build: Builder): Tables {
    t.(rows := t.rows[key := row], fts := t.fts[row.id := DocumentOf(build, key, row)],
       nextId := if row.id == t.nextId then t.nextId + 1 else t.nextId)
  }

  /** Updates the row with the id of `row`, if there is one, and replaces the search row under that id in any case. */
  function Update(t: Tables, key: Key, row: Row, build: Builder): Tables {
    t.(rows := map k | k in t.rows :: if t.rows[k].id == row.id then row else t.rows[k],
       fts := t.fts[row.id := DocumentOf(build, key, row)])
  }

  /** Writes one dirty tool; None when an insert violates the unique key, or the reference to its server. */
  function Write(t: Tables, server: ServerId, prior: Option<Row>, tool: Tool, vectors: map<Digest, Vector>, build: Builder): Option<Tables> {
    var key := Key(server, tool.name);
    match prior
    case Some(stored) => Some(Update(t, key, RowFor(stored.id, tool, vectors), build))
    case None =>
      if key in t.rows || server !in t.servers then None
      else Some(Put(t, key, RowFor(t.nextId, tool, vectors), build))
  }

  function WriteAll(t: Tables, server: ServerId, existing: map<Text, Row>, tools: seq<Tool>, vectors: map<Digest, Vector>, build: Builder)
    : Option<Tables>
    decreases tools
  {
    if tools == [] then Some(t)
    else
      var last := tools[|tools| - 1];
      var before := WriteAll(t, server, existing, tools[..|tools| - 1], vectors, build);
      if before.None? then None else Write(before.value, server, Lookup(existing, last.name), last, vectors, build)
  }

  /** `prior` is the stored row the write replaces. */
  ghost predicate Replaces(t: Tables, key: Key, prior: Option<Row>) {
    prior.Some? ==> key in t.rows && t.rows[key].id == prior.value.id
  }

  /** The row at `key` was written from `tool`, under the id it had or a new one. */
  ghost predicate Written(t: Tables, u: Tables, key: Key, tool: Tool, vectors: map<Digest, Vector>) {
    && key in u.rows && u.rows[key] == RowFor(u.rows[key].id, tool, vectors)
    && if key in t.rows then u.rows[key].id == t.rows[key].id else u.rows[key].id >= t.nextId
  }

  /** An update that finds its row puts the new one in its place. */
  lemma UpdateIsPut(t: Tables, key: Key, row: Row, build: Builder)
    requires UniqueIds(t) && key in t.rows && t.rows[key].id == row.id
    ensures Update(t, key, row, build) == Put(t, key, row, build)
  {
    assert Update(t, key, row, build).rows == t.rows[key := row];
  }

  lemma WriteWrites(t: Tables, server: ServerId, prior: Option<Row>, tool: Tool, vectors: map<Digest, Vector>, build: Builder, k: Key)
    requires UniqueIds(t) && Replaces(t, Key(server, tool.name), prior)
    ensures prior.Some? || (Key(server, tool.name) !in t.rows && server in t.servers) ==> Write(t, server, prior, tool, vectors, build).Some?
    ensures var w := Write(t, server, prior, tool, vectors, build);
            w.Some? ==> && t.nextId <= w.value.nextId && w.value.servers == t.servers
                        && (k == Key(server, tool.name) ==> Written(t, w.value, k, tool, vectors))
                        && (k != Key(server, tool.name) ==> Lookup(w.value.rows, k) == Lookup(t.rows, k))
  {
    if prior.Some? {
      UpdateIsPut(t, Key(server, tool.name), RowFor(prior.value.id, tool, vectors), build);
    }
    hide UniqueIds, Update, RowFor;
  }

  /** The id a row may be stored under: its old one, or the next one. */
  predicate RightId(t: Tables, key: Key, row: Row) {
    row.id == if key in t.rows then t.rows[key].id else t.nextId
  }

  lemma PutKeepsIds(t: Tables, key: Key, row: Row, build: Builder)
    requires UniqueIds(t) && RightId(t, key, row)
    ensures UniqueIds(Put(t, key, row, build))
  {}

  lemma PutDocuments(t: Tables, key: Key, row: Row, build: Builder)
    requires UniqueIds(t) && Documented(t, build) && RightId(t, key, row)
    ensures Documented(Put(t, key, row, build), build)
  {}

  lemma PutLeavesNoOrphan(t: Tables, key: Key, row: Row, build: Builder)
    requires UniqueIds(t) && Rooted(t) && RightId(t, key, row)
    ensures Orphans(Put(t, key, row, build)) == Orphans(t)
  {
    var u := Put(t, key, row, build);
    assert u.fts.Keys == t.fts.Keys + {row.id};
    forall id ensures id in RowIds(u) <==> id in RowIds(t) || id == row.id {
      if id in RowIds(t) {
        var k :| k in t.rows && t.rows[k].id == id;
        assert k in u.rows && u.rows[k].id == id;
      }
      assert key in u.rows;
    }
    if key in t.rows {
      assert row.id in RowIds(t);
    }
  }

  lemma PutIsSound(t: Tables, key: Key, row: Row, build: Builder)
    requires Sound(t, build) && RightId(t, key, row) && key.server in t.servers
    ensures Sound(Put(t, key, row, build), build) && Orphans(Put(t, key, row, build)) == Orphans(t)
  {
    assert Rooted(Put(t, key, row, build));
    hide UniqueIds, Documented, Orphans, Put, Rooted;
    PutKeepsIds(t, key, row, build);
    PutDocuments(t, key, row, build);
    PutLeavesNoOrphan(t, key, row, build);
  }

  lemma WriteIsSound(t: Tables, server: ServerId, prior: Option<Row>, tool: Tool, vectors: map<Digest, Vector>, build: Builder)
    requires Sound(t, build) && Replaces(t, Key(server, tool.name), prior)
    ensures var w := Write(t, server, prior, tool, vectors, build); w.Some? ==> Sound(w.value, build) && Orphans(w.value) == Orphans(t)
  {
    var key := Key(server, tool.name);
    if prior.Some? {
      var row := RowFor(prior.value.id, tool, vectors);
      UpdateIsPut(t, key, row, build);
      PutIsSound(t, key, row, build);
    } else if key !in t.rows && server in t.servers {
      PutIsSound(t, key, RowFor(t.nextId, tool, vectors), build);
    }
    hide UniqueIds, Documented, Orphans;
  }

  lemma DeleteAllIsSound(t: Tables, keys: set<Key>, build: Builder)
    requires Sound(t, build) && keys <= t.rows.Keys
    ensures Sound(DeleteAll(t, keys), build) && Orphans(DeleteAll(t, keys)) == Orphans(t)
  {
    var u := DeleteAll(t, keys);
    assert UniqueIds(u);
    forall id | id in t.fts ensures id in Orphans(u) <==> id in Orphans(t) {
      if id in RowIds(t) {
        var k :| k in t.rows && t.rows[k].id == id;
        assert k in keys || k in u.rows;
      }
    }
  }

  /** The last of the tools with a name. */
  function LastNamed(tools: seq<Tool>, name: Text): (tool: Tool)
    requires name in Seen(tools)
    ensures tool in tools && tool.name == name
    decreases tools
  {
    var last := tools[|tools| - 1];
    if last.name == name then last
    else
      assert tools == tools[..|tools| - 1] + [last];
      LastNamed(tools[..|tools| - 1], name)
  }

  /** What writing several tools does at one key. */
  ghost predicate WrittenAt(t: Tables, u: Tables, server: ServerId, tools: seq<Tool>, vectors: map<Digest, Vector>, k: Key) {
    if k.server == server && k.name in Seen(tools)
    then Written(t, u, k, LastNamed(tools, k.name), vectors)
    else Lookup(u.rows, k) == Lookup(t.rows, k)
  }

  ghost predicate AllWritten(t: Tables, u: Tables, server: ServerId, tools: seq<Tool>, vectors: map<Digest, Vector>) {
    t.nextId <= u.nextId && u.servers == t.servers && forall k :: WrittenAt(t, u, server, tools, vectors, k)
  }

  ghost predicate ReplacesAll(t: Tables, server: ServerId, existing: map<Text, Row>, tools: seq<Tool>) {
    forall tool | tool in tools :: Replaces(t, Key(server, tool.name), Lookup(existing, tool.name))
  }

  lemma {:induction false} WriteAllWrites(
      t: Tables, server: ServerId, existing: map<Text, Row>, tools: seq<Tool>, vectors: map<Digest, Vector>, build: Builder)
    requires Sound(t, build) && ReplacesAll(t, server, existing, tools)
    ensures var w := WriteAll(t, server, existing, tools, vectors, build);
            w.Some? ==> Sound(w.value, build) && Orphans(w.value) == Orphans(t) && AllWritten(t, w.value, server, tools, vectors)
    decreases tools
  {
    hide Sound, Write, Replaces, Orphans;
    if tools != [] {
      var front, last := tools[..|tools| - 1], tools[|tools| - 1];
      assert tools == front + [last];
      WriteAllWrites(t, server, existing, front, vectors, build);
      var before := WriteAll(t, server, existing, front, vectors, build);
      var w := WriteAll(t, server, existing, tools, vectors, build);
      if w.Some? {
        assert Replaces(t, Key(server, last.name), Lookup(existing, last.name));
        OneMoreWrite(t, before.value, w.value, server, existing, front, last, vectors, build);
      }
    } else {
      assert forall k :: WrittenAt(t, t, server, [], vectors, k);
    }
  }

  lemma OneMoreWrite(t: Tables, u: Tables, w: Tables, server: ServerId, existing: map<Text, Row>,
      front: seq<Tool>, last: Tool, vectors: map<Digest, Vector>, build: Builder)
    requires Sound(u, build) && AllWritten(t, u, server, front, vectors)
    requires Replaces(t, Key(server, last.name), Lookup(existing, last.name))
    requires Write(u, server, Lookup(existing, last.name), last, vectors, build) == Some(w)
    ensures Sound(w, build) && Orphans(w) == Orphans(u) && AllWritten(t, w, server, front + [last], vectors)
  {
    hide Write, Orphans, Documented, LastNamed;
    var prior, key := Lookup(existing, last.name), Key(server, last.name);
    assert WrittenAt(t, u, server, front, vectors, key);
    assert Replaces(u, key, prior);
    WriteIsSound(u, server, prior, last, vectors, build);
    WriteWrites(u, server, prior, last, vectors, build, key);
    forall k ensures WrittenAt(t, w, server, front + [last], vectors, k) {
      assert WrittenAt(t, u, server, front, vectors, k);
      WriteWrites(u, server, prior, last, vectors, build, k);
      WrittenMore(t, u, w, server, front, last, vectors, k);
    }
    hide Replaces, Sound, UniqueIds;
  }

  lemma WrittenMore(t: Tables, u: Tables, w: Tables, server: ServerId, front: seq<Tool>, last: Tool, vectors: map<Digest, Vector>, k: Key)
    requires t.nextId <= u.nextId
    requires WrittenAt(t, u, server, front, vectors, k)
    requires if k == Key(server, last.name) then Written(u, w, k, last, vectors) else Lookup(w.rows, k) == Lookup(u.rows, k)
    ensures WrittenAt(t, w, server, front + [last], vectors, k)
  {
    var tools := front + [last];
    assert tools[..|tools| - 1] == front;
    assert Seen(tools) == Seen(front) + {last.name};
    if k == Key(server, last.name) {
      assert Written(t, w, k, last, vectors);
    }
    hide RowFor;
  }

  /** Distinct names never collide; but a server that is gone takes no new tool. */
  lemma {:induction false} WriteAllSucceeds(
      t: Tables, server: ServerId, existing: map<Text, Row>, tools: seq<Tool>, vectors: map<Digest, Vector>, build: Builder)
    requires Sound(t, build) && ReplacesAll(t, server, existing, tools) && DistinctNames(tools)
    requires forall tool | tool in tools && tool.name !in existing :: Key(server, tool.name) !in t.rows && server in t.servers
    ensures WriteAll(t, server, existing, tools, vectors, build).Some?
    decreases tools
  {
    hide Sound, Orphans, LastNamed, Write;
    if tools != [] {
      var front, last := tools[..|tools| - 1], tools[|tools| - 1];
      assert tools == front + [last];
      WriteAllSucceeds(t, server, existing, front, vectors, build);
      WriteAllWrites(t, server, existing, front, vectors, build);
      var u := WriteAll(t, server, existing, front, vectors, build).value;
      var key := Key(server, last.name);
      assert last.name !in Seen(front);
      assert WrittenAt(t, u, server, front, vectors, key);
      assert Replaces(t, key, Lookup(existing, last.name));
      WriteSucceeds(u, server, Lookup(existing, last.name), last, vectors, build);
    }
  }

  lemma WriteSucceeds(t: Tables, server: ServerId, prior: Option<Row>, tool: Tool, vectors: map<Digest, Vector>, build: Builder)
    ensures Write(t, server, prior, tool, vectors, build).Some? <==> prior.Some? || (Key(server, tool.name) !in t.rows && server in t.servers)
  {}

  // ---- Writing from a copy of rows that are gone ----

  /** The ids under which the captured rows of some tools were stored. */
  function OldIds(existing: map<Text, Row>, tools: seq<Tool>): set<RowId> {
    set tool | tool in tools && tool.name in existing :: existing[tool.name].id
  }

  /** The captured rows were stored once, and are not any more. */
  ghost predicate Stale(t: Tables, server: ServerId, existing: map<Text, Row>) {
    && server !in t.servers
    && forall name | name in existing :: existing[name].id < t.nextId && existing[name].id !in RowIds(t)
  }

  /** An update that finds no row leaves nothing but its search row. */
  lemma StaleUpdate(t: Tables, key: Key, row: Row, build: Builder)
    requires Sound(t, build) && row.id < t.nextId && row.id !in RowIds(t)
    ensures
      var u := Update(t, key, row, build);
      u == t.(fts := u.fts) && Sound(u, build) && Orphans(u) == Orphans(t) + {row.id}
  {
    var u := Update(t, key, row, build);
    forall k | k in t.rows ensures t.rows[k].id != row.id && u.rows[k] == t.rows[k] {
      assert t.rows[k].id in RowIds(t);
    }
    assert u.rows == t.rows;
    assert u == t.(fts := t.fts[row.id := DocumentOf(build, key, row)]);
    assert u.fts.Keys == t.fts.Keys + {row.id};
    hide Update;
  }

  lemma StaleWrite(t: Tables, server: ServerId, existing: map<Text, Row>, tool: Tool, vectors: map<Digest, Vector>, build: Builder)
    requires Sound(t, build) && Stale(t, server, existing)
    ensures
      var w := Write(t, server, Lookup(existing, tool.name), tool, vectors, build);
      && (w.Some? <==> tool.name in existing)
      && (w.Some? ==>
            && Sound(w.value, build) && w.value == t.(fts := w.value.fts) && Stale(w.value, server, existing)
            && Orphans(w.value) == Orphans(t) + OldIds(existing, [tool]))
  {
    if tool.name in existing {
      StaleUpdate(t, Key(server, tool.name), RowFor(existing[tool.name].id, tool, vectors), build);
      assert OldIds(existing, [tool]) == {existing[tool.name].id} by {
        assert tool in [tool];
      }
    }
    hide Sound, Orphans, Update;
  }

  /**
   If the server of a save is gone, its updates touch no row but still leave their search rows, and the first tool
   that has no captured row rolls everything back.
   */
  lemma {:induction false} StaleWriteAll(
      t: Tables, server: ServerId, existing: map<Text, Row>, tools: seq<Tool>, vectors: map<Digest, Vector>, build: Builder)
    requires Sound(t, build) && Stale(t, server, existing)
    ensures
      var w := WriteAll(t, server, existing, tools, vectors, build);
      && (w.Some? <==> forall tool | tool in tools :: tool.name in existing)
      && (w.Some? ==>
            && Sound(w.value, build) && w.value == t.(fts := w.value.fts) && Stale(w.value, server, existing)
            && Orphans(w.value) == Orphans(t) + OldIds(existing, tools))
    decreases tools
  {
    hide Sound, Stale, Orphans, Write;
    if tools != [] {
      var front, last := tools[..|tools| - 1], tools[|tools| - 1];
      assert tools == front + [last];
      StaleWriteAll(t, server, existing, front, vectors, build);
      var before := WriteAll(t, server, existing, front, vectors, build);
      if before.Some? {
        StaleWrite(before.value, server, existing, last, vectors, build);
        assert OldIds(existing, tools) == OldIds(existing, front) + OldIds(existing, [last]);
      }
    } else {
      assert OldIds(existing, []) == {};
    }
  }

  // ---- The whole save ----

  function Missing(existing: map<Text, Row>, tools: seq<Tool>): set<Text> {
    existing.Keys - Seen(tools)
  }

  function KeysOf(server: ServerId, names: set<Text>): set<Key> {
    set n | n in names :: Key(server, n)
  }

  /** The rows a save has read, and what it was given; it holds them while it waits for the vectors. */
  datatype Capture = Capture(existing: map<Text, Row>, tools: seq<Tool>, provider: Provider) {
    function Dirty(): seq<Tool> {
      DirtyTools(existing, tools, provider)
    }

    /** The ids of the rows to delete. */
    function Gone(): set<RowId> {
      set name | name in Missing(existing, tools) :: existing[name].id
    }

    /** Whether there is anything to write. */
    predicate Writes() {
      Dirty() != [] || Missing(existing, tools) != {}
    }
  }

  function Captured(t: Tables, server: ServerId, tools: seq<Tool>, provider: Provider): Capture {
    Capture(Existing(t, server), tools, provider)
  }

  /** The tables after the transaction of a save; None when it was rolled back. */
  function SaveFrom(t: Tables, server: ServerId, c: Capture, vectors: map<Digest, Vector>, build: Builder): Option<Tables> {
    WriteAll(DeleteIds(t, c.Gone()), server, c.existing, c.Dirty(), vectors, build)
  }

  /** A save with nothing between its read and its transaction. */
  function Saved(t: Tables, server: ServerId, tools: seq<Tool>, provider: Provider, vectors: map<Digest, Vector>, build: Builder): Option<Tables> {
    SaveFrom(t, server, Captured(t, server, tools, provider), vectors, build)
  }

  /** A server's rows as an uninstall deletes them. */
  function Removed(t: Tables, server: ServerId): Tables {
    DeleteAll(t, KeysUnder(t, server))
  }

  function KeysUnder(t: Tables, server: ServerId): (keys: set<Key>)
    ensures keys <= t.rows.Keys
  {
    set k | k in t.rows && k.server == server
  }

  lemma NoKeysNoRows(t: Tables, server: ServerId)
    ensures KeysUnder(t, server) == {} <==> Existing(t, server) == map[]
  {
    if KeysUnder(t, server) != {} {
      var k :| k in KeysUnder(t, server);
      assert k.name in Existing(t, server);
    }
    if Existing(t, server) != map[] {
      var name :| name in Existing(t, server);
      assert Key(server, name) in KeysUnder(t, server);
    }
  }

  /** The captured rows are those stored now, unless the server is gone and they with it. */
  ghost predicate InStep(t: Tables, server: ServerId, existing: map<Text, Row>) {
    if server in t.servers then existing == Existing(t, server) else Stale(t, server, existing)
  }

  /** The stored name-to-hash map of a server. */
  function Hashes(t: Tables, server: ServerId): map<Text, Digest> {
    map name | name in Existing(t, server) :: Existing(t, server)[name].hash
  }

  /** The name-to-hash map a server reported. */
  ghost predicate Reported(hashes: map<Text, Digest>, tools: seq<Tool>) {
    hashes.Keys == Seen(tools) && forall tool | tool in tools :: hashes[tool.name] == HashOf(tool)
  }

  lemma {:induction false} DirtyToolsAre(existing: map<Text, Row>, tools: seq<Tool>, provider: Provider)
    ensures forall tool :: tool in DirtyTools(existing, tools, provider) <==> tool in tools && Dirty(existing, tool, provider)
    decreases tools
  {
    hide Dirty;
    if tools != [] {
      var front, last := tools[..|tools| - 1], tools[|tools| - 1];
      assert tools == front + [last];
      DirtyToolsAre(existing, front, provider);
    }
  }

  lemma {:induction false} DirtyToolsDistinct(existing: map<Text, Row>, tools: seq<Tool>, provider: Provider)
    requires DistinctNames(tools)
    ensures DistinctNames(DirtyTools(existing, tools, provider))
    decreases tools
  {
    hide Dirty;
    if tools != [] {
      var front, last := tools[..|tools| - 1], tools[|tools| - 1];
      DirtyToolsDistinct(existing, front, provider);
      DirtyToolsAre(existing, front, provider);
      var d := DirtyTools(existing, front, provider);
      forall i | 0 <= i < |d| ensures d[i].name != last.name {
        assert d[i] in front;
      }
    }
  }

  /** Looking at the dirty tools only loses no new or changed name. */
  lemma {:induction false} DirtyToolsSuffice(existing: map<Text, Row>, tools: seq<Tool>, provider: Provider)
    ensures NewNames(existing, DirtyTools(existing, tools, provider)) == NewNames(existing, tools)
    ensures ChangedNames(existing, DirtyTools(existing, tools, provider)) == ChangedNames(existing, tools)
    decreases tools
  {
    hide Dirty, IsNew, IsChanged;
    if tools != [] {
      var front, last := tools[..|tools| - 1], tools[|tools| - 1];
      DirtyToolsSuffice(existing, front, provider);
      var d := DirtyTools(existing, front, provider);
      if Dirty(existing, last, provider) {
        assert (d + [last])[..|d|] == d;
      } else {
        CleanIsNeither(existing, last, provider);
        assert d + [] == d;
      }
    }
  }

  lemma CleanIsNeither(existing: map<Text, Row>, tool: Tool, provider: Provider)
    requires !Dirty(existing, tool, provider)
    ensures !IsNew(existing, tool) && !IsChanged(existing, tool)
  {}

  lemma {:induction false} CountsAddUp(existing: map<Text, Row>, tools: seq<Tool>)
    ensures |NewNames(existing, tools)| + |ChangedNames(existing, tools)| + Unchanged(existing, tools) == |tools|
    decreases tools
  {
    if tools != [] {
      CountsAddUp(existing, tools[..|tools| - 1]);
    }
  }

  /** The ids of a server's missing rows are theirs alone. */
  lemma GoneKeys(t: Tables, server: ServerId, tools: seq<Tool>, provider: Provider)
    requires UniqueIds(t)
    ensures
      var c := Captured(t, server, tools, provider);
      KeysWith(t, c.Gone()) == KeysOf(server, Missing(c.existing, tools))
  {
    var c := Captured(t, server, tools, provider);
    var keys := KeysOf(server, Missing(c.existing, tools));
    forall k ensures k in keys <==> k in KeysWith(t, c.Gone()) {
      if k in keys {
        assert c.existing[k.name].id in c.Gone();
      }
      if k in KeysWith(t, c.Gone()) {
        var name :| name in Missing(c.existing, tools) && c.existing[name].id == t.rows[k].id;
        assert t.rows[Key(server, name)].id == t.rows[k].id;
        assert Key(server, name) in keys;
      }
    }
  }

  lemma DeletesReady(t: Tables, server: ServerId, tools: seq<Tool>, provider: Provider, build: Builder)
    requires Sound(t, build)
    ensures
      var c := Captured(t, server, tools, provider);
      var gone := KeysOf(server, Missing(c.existing, tools));
      && gone <= t.rows.Keys
      && DeleteIds(t, c.Gone()) == DeleteAll(t, gone)
      && Sound(DeleteAll(t, gone), build) && Orphans(DeleteAll(t, gone)) == Orphans(t)
      && ReplacesAll(DeleteAll(t, gone), server, c.existing, c.Dirty())
  {
    var existing := Existing(t, server);
    var gone := KeysOf(server, Missing(existing, tools));
    GoneKeys(t, server, tools, provider);
    DeleteAllIsSound(t, gone, build);
    DirtyToolsAre(existing, tools, provider);
    hide Dirty, Sound, UniqueIds, Documented, Orphans;
    forall tool | tool in tools && tool.name in existing ensures Key(server, tool.name) in t.rows && Key(server, tool.name) !in gone {
      assert tool.name in Seen(tools);
    }
  }

  /**
   What a save does at one key: other servers' rows stay, names no longer
   reported go, dirty tools are written and clean ones stay as they are.
   */
  ghost predicate SavedAt(t: Tables, u: Tables, server: ServerId, tools: seq<Tool>, provider: Provider, vectors: map<Digest, Vector>, k: Key) {
    if k.server != server then Lookup(u.rows, k) == Lookup(t.rows, k)
    else if k.name !in Seen(tools) then k !in u.rows
    else exists tool :: && tool in tools && tool.name == k.name
                        && if Dirty(Existing(t, server), tool, provider) then Written(t, u, k, tool, vectors)
                           else Lookup(u.rows, k) == Lookup(t.rows, k)
  }

  lemma SavedKey(t: Tables, u: Tables, server: ServerId, tools: seq<Tool>, provider: Provider, vectors: map<Digest, Vector>, k: Key)
    requires DistinctNames(tools)
    requires
      var existing := Existing(t, server);
      var gone := KeysOf(server, Missing(existing, tools));
      && gone <= t.rows.Keys
      && WrittenAt(DeleteAll(t, gone), u, server, DirtyTools(existing, tools, provider), vectors, k)
    ensures SavedAt(t, u, server, tools, provider, vectors, k)
  {
    var existing := Existing(t, server);
    var dirty := DirtyTools(existing, tools, provider);
    DirtyToolsAre(existing, tools, provider);
    hide Dirty, DirtyTools;
    if k.server == server && k.name in Seen(tools) {
      var tool :| tool in tools && tool.name == k.name;
      if Dirty(existing, tool, provider) {
        var d :| d in dirty && d.name == k.name && Written(DeleteAll(t, KeysOf(server, Missing(existing, tools))), u, k, d, vectors);
        SameNameSameTool(tools, tool, d);
      } else {
        forall d | d in dirty ensures d.name != k.name {
          if d.name == k.name {
            SameNameSameTool(tools, tool, d);
          }
        }
      }
    }
  }

  lemma SameNameSameTool(tools: seq<Tool>, x: Tool, y: Tool)
    requires DistinctNames(tools) && x in tools && y in tools && x.name == y.name
    ensures x == y
  {}

  lemma SaveIsExact(t: Tables, server: ServerId, tools: seq<Tool>, provider: Provider, vectors: map<Digest, Vector>, build: Builder)
    requires Sound(t, build) && DistinctNames(tools) && server in t.servers
    ensures Saved(t, server, tools, provider, vectors, build).Some?
    ensures
      var u := Saved(t, server, tools, provider, vectors, build).value;
      && Sound(u, build) && Orphans(u) == Orphans(t)
      && forall k :: SavedAt(t, u, server, tools, provider, vectors, k)
  {
    hide Sound, Dirty, WriteAll, DeleteAll, DirtyTools, Orphans, LastNamed;
    var existing := Existing(t, server);
    var gone := KeysOf(server, Missing(existing, tools));
    var dirty := DirtyTools(existing, tools, provider);
    DeletesReady(t, server, tools, provider, build);
    DirtyToolsDistinct(existing, tools, provider);
    NewKeysAreFree(t, server, tools, provider);
    var v := DeleteAll(t, gone);
    assert v.servers == t.servers by {
      DeleteAllKeeps(t, gone);
    }
    WriteAllSucceeds(v, server, existing, dirty, vectors, build);
    WriteAllWrites(v, server, existing, dirty, vectors, build);
    var u := Saved(t, server, tools, provider, vectors, build).value;
    forall k ensures SavedAt(t, u, server, tools, provider, vectors, k) {
      assert WrittenAt(v, u, server, dirty, vectors, k);
      SavedKey(t, u, server, tools, provider, vectors, k);
    }
  }

  /**
   The row and the search row of a reported tool after a save. A row with the same hash, and a vector of the model if
   there is one, stays as it was; else the row holds what was reported, with the vector given for its hash, and the
   search row is built from what was reported.
   */
  lemma SaveStoresTheDefinitions(
      t: Tables, server: ServerId, tools: seq<Tool>, provider: Provider, vectors: map<Digest, Vector>, build: Builder, tool: Tool)
    requires Sound(t, build) && DistinctNames(tools) && server in t.servers && tool in tools
    ensures Saved(t, server, tools, provider, vectors, build).Some?
    ensures
      var u, key, hash := Saved(t, server, tools, provider, vectors, build).value, Key(server, tool.name), HashOf(tool);
      && key in u.rows
      && var row := u.rows[key];
         if key in t.rows && t.rows[key].hash == hash
            && (provider.Provider? ==> t.rows[key].vector.Some? && t.rows[key].vector.value.model == provider.model) then
           && row == t.rows[key]
           && row.id in t.fts && row.id in u.fts && u.fts[row.id] == t.fts[row.id]
         else
           var description := if tool.description.Some? then tool.description.value else [];
           var schema := if tool.inputSchema.Some? then tool.inputSchema.value
                         else Obj([Member([116, 121, 112, 101], Str([111, 98, 106, 101, 99, 116]))]);
           && row.title == tool.title && row.description == description && row.inputSchema == schema
           && row.outputSchema == tool.outputSchema && row.annotations == tool.annotations && row.hash == hash
           && row.vector == (if hash in vectors then Some(vectors[hash]) else None)
           && row.id in u.fts && u.fts[row.id] == build(tool.name, tool.title, description, schema)
  {
    SaveIsExact(t, server, tools, provider, vectors, build);
    var u, key := Saved(t, server, tools, provider, vectors, build).value, Key(server, tool.name);
    assert SavedAt(t, u, server, tools, provider, vectors, key);
    ExistingAt(t, server, tool.name);
    SavedRow(t, u, server, tools, provider, vectors, build, tool);
    hide Saved, HashOf, SavedAt, Existing, Orphans, UniqueIds, Rooted;
  }

  lemma SavedRow(t: Tables, u: Tables, server: ServerId, tools: seq<Tool>, provider: Provider, vectors: map<Digest, Vector>, build: Builder, tool: Tool)
    requires Documented(t, build) && Documented(u, build) && DistinctNames(tools) && tool in tools
    requires SavedAt(t, u, server, tools, provider, vectors, Key(server, tool.name))
    ensures
      var key := Key(server, tool.name);
      && key in u.rows
      && (if Dirty(Existing(t, server), tool, provider) then u.rows[key] == RowFor(u.rows[key].id, tool, vectors)
          else key in t.rows && u.rows[key] == t.rows[key] && Lookup(t.fts, u.rows[key].id) == Lookup(u.fts, u.rows[key].id))
      && Lookup(u.fts, u.rows[key].id) == Some(DocumentOf(build, key, u.rows[key]))
  {
    var key := Key(server, tool.name);
    assert tool.name in Seen(tools);
    var d :| && d in tools && d.name == tool.name
             && if Dirty(Existing(t, server), d, provider) then Written(t, u, key, d, vectors)
                else Lookup(u.rows, key) == Lookup(t.rows, key);
    SameNameSameTool(tools, tool, d);
    ExistingAt(t, server, tool.name);
    hide HashOf, RowFor, Existing;
  }

  lemma DeleteAllKeeps(t: Tables, keys: set<Key>)
    requires keys <= t.rows.Keys
    ensures var u := DeleteAll(t, keys);
            u.servers == t.servers && u.nextId == t.nextId && u.rows == t.rows - keys
  {}

  /** Deleting by ids that have no row deletes nothing. */
  lemma StaleDelete(t: Tables, server: ServerId, c: Capture)
    requires Stale(t, server, c.existing)
    ensures DeleteIds(t, c.Gone()) == t
  {
    forall k | k in t.rows ensures t.rows[k].id !in c.Gone() {
      assert t.rows[k].id in RowIds(t);
    }
    assert KeysWith(t, c.Gone()) == {};
  }

  /**
   A save whose server was removed while it waited: it fails if some dirty tool had no row. Else it changes no tool
   row, and leaves a search row without one for every dirty tool.
   */
  lemma StaleSave(t: Tables, server: ServerId, c: Capture, vectors: map<Digest, Vector>, build: Builder)
    requires Sound(t, build) && Stale(t, server, c.existing)
    ensures
      var saved := SaveFrom(t, server, c, vectors, build);
      && (saved.Some? <==> forall tool | tool in c.Dirty() :: tool.name in c.existing)
      && (saved.Some? ==>
            && Sound(saved.value, build) && saved.value == t.(fts := saved.value.fts)
            && Orphans(saved.value) == Orphans(t) + OldIds(c.existing, c.Dirty()))
  {
    StaleDelete(t, server, c);
    StaleWriteAll(t, server, c.existing, c.Dirty(), vectors, build);
    hide Sound, Orphans, Stale, WriteAll, DeleteIds, DirtyTools;
  }

  /** Rows of other servers stay, and a row that is not where it was has an id never used. */
  ghost predicate GrownFrom(t: Tables, u: Tables, server: ServerId) {
    && u.servers == t.servers && t.nextId <= u.nextId
    && (forall k: Key | k.server != server :: Lookup(u.rows, k) == Lookup(t.rows, k))
    && (forall k | k in u.rows :: (k in t.rows && u.rows[k].id == t.rows[k].id) || u.rows[k].id >= t.nextId)
  }

  lemma WrittenIsGrown(t: Tables, u: Tables, server: ServerId, gone: set<Key>, tools: seq<Tool>, vectors: map<Digest, Vector>)
    requires gone <= t.rows.Keys && (forall k | k in gone :: k.server == server)
    requires AllWritten(DeleteAll(t, gone), u, server, tools, vectors)
    ensures GrownFrom(t, u, server)
  {
    var v := DeleteAll(t, gone);
    DeleteAllKeeps(t, gone);
    hide DeleteAll, LastNamed, RowFor;
    forall k: Key | k.server != server ensures Lookup(u.rows, k) == Lookup(t.rows, k) {
      assert WrittenAt(v, u, server, tools, vectors, k);
    }
    forall k | k in u.rows ensures (k in t.rows && u.rows[k].id == t.rows[k].id) || u.rows[k].id >= t.nextId {
      assert WrittenAt(v, u, server, tools, vectors, k);
      assert k in v.rows ==> v.rows[k] == t.rows[k];
    }
  }

  lemma LiveSave(t: Tables, server: ServerId, c: Capture, vectors: map<Digest, Vector>, build: Builder)
    requires Sound(t, build) && server in t.servers && c.existing == Existing(t, server)
    ensures
      var saved := SaveFrom(t, server, c, vectors, build);
      saved.Some? ==> Sound(saved.value, build) && Orphans(saved.value) == Orphans(t) && GrownFrom(t, saved.value, server)
  {
    DeletesReady(t, server, c.tools, c.provider, build);
    var gone := KeysOf(server, Missing(c.existing, c.tools));
    WriteAllWrites(DeleteAll(t, gone), server, c.existing, c.Dirty(), vectors, build);
    var saved := SaveFrom(t, server, c, vectors, build);
    hide Sound, Orphans, WriteAll, DeleteIds, DirtyTools, DeleteAll, GrownFrom, AllWritten, Existing;
    if saved.Some? {
      WrittenIsGrown(t, saved.value, server, gone, c.Dirty(), vectors);
    }
  }

  lemma NewDocumentsOnly(t: Tables, u: Tables, server: ServerId)
    ensures u == t.(fts := u.fts) ==> GrownFrom(t, u, server)
  {
  }

  /** What any save keeps, and the search rows it leaves behind. */
  lemma SaveFromIsSound(t: Tables, server: ServerId, c: Capture, vectors: map<Digest, Vector>, build: Builder)
    requires Sound(t, build) && InStep(t, server, c.existing)
    ensures
      var saved := SaveFrom(t, server, c, vectors, build);
      saved.Some? ==>
        && Sound(saved.value, build) && GrownFrom(t, saved.value, server)
        && Orphans(saved.value) == if server in t.servers then Orphans(t) else Orphans(t) + OldIds(c.existing, c.Dirty())
  {
    hide *;
    if server in t.servers {
      CapturedIsPresent(t, server, c.existing);
      LiveSave(t, server, c, vectors, build);
    } else {
      CapturedIsPresent(t, server, c.existing);
      StaleSave(t, server, c, vectors, build);
      NewDocumentsOnly(t, SaveFrom(t, server, c, vectors, build).GetOr(t), server);
      GetIs(SaveFrom(t, server, c, vectors, build), t);
    }
  }

  lemma GetIs(saved: Option<Tables>, t: Tables)
    ensures saved.Some? ==> saved.GetOr(t) == saved.value
  {
  }

  lemma CapturedIsPresent(t: Tables, server: ServerId, existing: map<Text, Row>)
    requires InStep(t, server, existing)
    ensures if server in t.servers then existing == Existing(t, server) else Stale(t, server, existing)
  {
  }

  lemma NewKeysAreFree(t: Tables, server: ServerId, tools: seq<Tool>, provider: Provider)
    requires KeysOf(server, Missing(Existing(t, server), tools)) <= t.rows.Keys
    ensures
      var existing := Existing(t, server);
      forall tool | tool in DirtyTools(existing, tools, provider) && tool.name !in existing ::
        Key(server, tool.name) !in DeleteAll(t, KeysOf(server, Missing(existing, tools))).rows
  {
    var existing := Existing(t, server);
    forall n | Key(server, n) in t.rows ensures n in existing {
      assert Key(server, n).name == n;
    }
  }

  /** The stored name-to-hash map becomes the reported one. */
  lemma SaveReports(t: Tables, u: Tables, server: ServerId, tools: seq<Tool>, provider: Provider, vectors: map<Digest, Vector>)
    requires DistinctNames(tools)
    requires forall k :: SavedAt(t, u, server, tools, provider, vectors, k)
    ensures Reported(Hashes(u, server), tools)
  {
    forall n ensures n in Hashes(u, server) <==> n in Seen(tools) {
      assert SavedAt(t, u, server, tools, provider, vectors, Key(server, n));
    }
    forall tool | tool in tools ensures Hashes(u, server)[tool.name] == HashOf(tool) {
      assert SavedAt(t, u, server, tools, provider, vectors, Key(server, tool.name));
      var d :| && d in tools && d.name == tool.name
               && if Dirty(Existing(t, server), d, provider) then Written(t, u, Key(server, d.name), d, vectors)
                  else Lookup(u.rows, Key(server, d.name)) == Lookup(t.rows, Key(server, d.name));
      SameNameSameTool(tools, tool, d);
    }
  }

  /** A name that stays keeps its row id, and a new one gets an id never used before. */
  lemma SaveKeepsIds(t: Tables, u: Tables, server: ServerId, tools: seq<Tool>, provider: Provider, vectors: map<Digest, Vector>, k: Key)
    requires SavedAt(t, u, server, tools, provider, vectors, k)
    ensures k in t.rows && k in u.rows ==> u.rows[k].id == t.rows[k].id
    ensures k in u.rows && k !in t.rows ==> u.rows[k].id >= t.nextId
  {}

  lemma {:induction false} NoNames(existing: map<Text, Row>, tools: seq<Tool>)
    ensures NewNames(existing, tools) == [] <==> forall tool | tool in tools :: !IsNew(existing, tool)
    ensures ChangedNames(existing, tools) == [] <==> forall tool | tool in tools :: !IsChanged(existing, tool)
    decreases tools
  {
    hide IsNew, IsChanged;
    if tools != [] {
      var front, last := tools[..|tools| - 1], tools[|tools| - 1];
      assert tools == front + [last];
      NoNames(existing, front);
    }
  }

  /** The diff is empty exactly when the stored name-to-hash map stays as it was. */
  lemma EmptyDiffKeepsHashes(t: Tables, server: ServerId, tools: seq<Tool>, hashes: map<Text, Digest>)
    requires Reported(hashes, tools)
    ensures
      var existing := Existing(t, server);
      NewNames(existing, tools) == [] && ChangedNames(existing, tools) == [] && Missing(existing, tools) == {}
      <==> hashes == Hashes(t, server)
  {
    var existing := Existing(t, server);
    NoNames(existing, tools);
    StoredHashes(t, server);
    hide Existing, Hashes, NewNames, ChangedNames;
    if NewNames(existing, tools) == [] && ChangedNames(existing, tools) == [] && Missing(existing, tools) == {} {
      forall n | n in hashes ensures n in existing && hashes[n] == existing[n].hash {
        var tool :| tool in tools && tool.name == n;
        assert !IsNew(existing, tool) && !IsChanged(existing, tool);
      }
      forall n | n in existing ensures n in hashes {
        assert n !in Missing(existing, tools);
      }
      assert hashes == Hashes(t, server);
    }
    if hashes == Hashes(t, server) {
      forall tool | tool in tools ensures !IsNew(existing, tool) && !IsChanged(existing, tool) {
        assert tool.name in Seen(tools);
      }
    }
  }

  lemma StoredHashes(t: Tables, server: ServerId)
    ensures Hashes(t, server).Keys == Existing(t, server).Keys
    ensures forall n | n in Existing(t, server) :: Hashes(t, server)[n] == Existing(t, server)[n].hash
  {}

  /** Without a dirty tool or a missing one, a save changes nothing. */
  lemma CleanSaveChangesNothing(t: Tables, server: ServerId, tools: seq<Tool>, provider: Provider, vectors: map<Digest, Vector>, build: Builder)
    requires DirtyTools(Existing(t, server), tools, provider) == [] && Missing(Existing(t, server), tools) == {}
    ensures Saved(t, server, tools, provider, vectors, build) == Some(t)
  {
    NothingToDelete(t, Captured(t, server, tools, provider));
    hide Existing, DirtyTools, DeleteIds, Missing;
  }

  lemma NothingToDelete(t: Tables, c: Capture)
    requires Missing(c.existing, c.tools) == {}
    ensures DeleteIds(t, c.Gone()) == t
  {
    assert c.Gone() == {} && KeysWith(t, {}) == {};
    assert DeleteAll(t, {}) == t;
  }

  // ---- The index ----

  /** The same tools but for title and output schema. */
  ghost predicate Retitled(tools: seq<Tool>, others: seq<Tool>) {
    && |others| == |tools|
    && forall i | 0 <= i < |tools| :: others[i] == tools[i].(title := others[i].title, outputSchema := others[i].outputSchema)
  }

  lemma {:induction false} RetitledIsAsDirty(existing: map<Text, Row>, tools: seq<Tool>, others: seq<Tool>, provider: Provider)
    requires Retitled(tools, others)
    ensures |DirtyTools(existing, others, provider)| == |DirtyTools(existing, tools, provider)|
    decreases tools
  {
    hide HashOf;
    if tools != [] {
      var n := |tools| - 1;
      TitleIsNotHashed(tools[n], others[n].title, others[n].outputSchema);
      RetitledIsAsDirty(existing, tools[..n], others[..n], provider);
    }
  }

  /** New titles and output schemas of tools that are otherwise stored already are not stored. */
  lemma NewTitlesAreNotStored(
      t: Tables, server: ServerId, tools: seq<Tool>, others: seq<Tool>, provider: Provider, vectors: map<Digest, Vector>, build: Builder)
    requires Retitled(tools, others)
    requires DirtyTools(Existing(t, server), tools, provider) == [] && Missing(Existing(t, server), tools) == {}
    ensures Saved(t, server, others, provider, vectors, build) == Some(t)
  {
    var existing := Existing(t, server);
    RetitledIsAsDirty(existing, tools, others, provider);
    forall name | name in existing ensures name !in Missing(existing, others) {
      assert name !in Missing(existing, tools);
      var i :| 0 <= i < |tools| && tools[i].name == name;
      assert others[i].name == name;
    }
    hide DirtyTools, Saved;
    CleanSaveChangesNothing(t, server, others, provider, vectors, build);
  }

  /** `same` counts the tools reported under their stored hash. */
  datatype Diff = Diff(added: seq<Text>, changed: seq<Text>, removed: seq<Text>, same: int, embedded: nat)

  /** The diff names every added, changed and removed tool once, and counts the rest. */
  ghost predicate IsDiff(diff: Diff, existing: map<Text, Row>, tools: seq<Tool>) {
    && diff.added == NewNames(existing, tools)
    && diff.changed == ChangedNames(existing, tools)
    && multiset(diff.removed) == multiset(Missing(existing, tools))
    && diff.same == Unchanged(existing, tools)
  }

  function Embedded(tools: seq<Tool>, vectors: map<Digest, Vector>): nat {
    if tools == [] then 0
    else Embedded(tools[..|tools| - 1], vectors) + if HashOf(tools[|tools| - 1]) in vectors then 1 else 0
  }

  class ToolIndex {
    const build: Builder
    /** The database; other parts of the program add and remove servers in it. */
    var tables: Tables
    var generation: nat

    ghost predicate Valid()
      reads this
    {
      Sound(tables, build)
    }

    constructor (build: Builder, tables: Tables, generation: nat)
      requires Sound(tables, build)
      ensures Valid() && this.build == build && this.tables == tables && this.generation == generation
    {
      this.build, this.tables, this.generation := build, tables, generation;
    }

    /** The rows are deleted by the ids they were read with. */
    method DeleteMissing(existing: map<Text, Row>, missing: set<Text>) returns (removed: seq<Text>)
      requires missing <= existing.Keys
      modifies `tables
      ensures tables == DeleteIds(old(tables), set name | name in missing :: existing[name].id)
      ensures multiset(removed) == multiset(missing)
    {
      removed := [];
      var todo := missing;
      assert KeysWith(tables, {}) == {};
      while todo != {}
        invariant todo <= missing
        invariant tables == DeleteIds(old(tables), set name | name in missing - todo :: existing[name].id)
        invariant multiset(removed) + multiset(todo) == multiset(missing)
        decreases todo
      {
        var name :| name in todo;
        DeleteOneMore(old(tables), existing, missing - todo, name);
        tables := DeleteIds(tables, {existing[name].id});
        removed := removed + [name];
        assert missing - (todo - {name}) == missing - todo + {name};
        todo := todo - {name};
      }
      assert missing - {} == missing;
    }

    /** Writes the dirty tools one by one; false when an insert fails. */
    method WriteDirty(server: ServerId, existing: map<Text, Row>, dirty: seq<Tool>, vectors: map<Digest, Vector>)
      returns (ok: bool, added: seq<Text>, changed: seq<Text>, embedded: nat)
      modifies `tables
      ensures ok <==> WriteAll(old(tables), server, existing, dirty, vectors, build).Some?
      ensures ok ==>
        && WriteAll(old(tables), server, existing, dirty, vectors, build) == Some(tables)
        && added == NewNames(existing, dirty) && changed == ChangedNames(existing, dirty)
        && embedded == Embedded(dirty, vectors)
    {
      hide Write, IsNew, IsChanged;
      added, changed, embedded := [], [], 0;
      for k := 0 to |dirty|
        invariant WriteAll(old(tables), server, existing, dirty[..k], vectors, build) == Some(tables)
        invariant added == NewNames(existing, dirty[..k]) && changed == ChangedNames(existing, dirty[..k])
        invariant embedded == Embedded(dirty[..k], vectors)
      {
        var tool := dirty[k];
        assert dirty[..k + 1][..k] == dirty[..k];
        var written := Write(tables, server, Lookup(existing, tool.name), tool, vectors, build);
        if written.None? {
          WriteAllFails(old(tables), server, existing, dirty, vectors, build, k + 1);
          return false, [], [], 0;
        }
        tables := written.value;
        if HashOf(tool) in vectors {
          embedded := embedded + 1;
        }
        if IsChanged(existing, tool) {
          changed := changed + [tool.name];
        }
        if IsNew(existing, tool) {
          added := added + [tool.name];
        }
      }
      assert dirty[..|dirty|] == dirty;
      ok := true;
    }

    /** The first stretch of `save`: the stored rows are read, and what is dirty follows from them. */
    method Begin(server: ServerId, tools: seq<Tool>, provider: Provider) returns (c: Capture)
      ensures c == Captured(tables, server, tools, provider) && (Valid() ==> InStep(tables, server, c.existing))
    {
      c := Capture(Existing(tables, server), tools, provider);
      if server !in tables.servers && Sound(tables, build) {
        assert c.existing == map[];
      }
    }

    /**
     The transaction of `save`, over the rows read before the vectors were computed. It is rolled back if a name
     reported twice violates the unique key, or if the server of a new tool is gone.
     */
    method Commit(server: ServerId, c: Capture, vectors: map<Digest, Vector>) returns (diff: Option<Diff>)
      requires Valid() && InStep(tables, server, c.existing)
      modifies this
      ensures Valid()
      ensures
        var saved := SaveFrom(old(tables), server, c, vectors, build);
        if saved.None? then diff.None? && tables == old(tables) && generation == old(generation)
        else
          && diff.Some? && tables == saved.value
          && generation == old(generation) + (if c.Writes() then 1 else 0)
          && IsDiff(diff.value, c.existing, c.tools)
          && diff.value.embedded == Embedded(c.Dirty(), vectors)
      ensures diff.Some? ==>
        Orphans(tables) == Orphans(old(tables)) + (if server in tables.servers then {} else OldIds(c.existing, c.Dirty()))
    {
      hide Sound, Dirty, WriteAll, DirtyTools, NewNames, ChangedNames, Unchanged, Embedded, DeleteIds, Orphans, OldIds, InStep;
      var before := tables;
      SaveFromIsSound(tables, server, c, vectors, build);
      var dirty := c.Dirty();
      var removed := DeleteMissing(c.existing, Missing(c.existing, c.tools));
      var ok, added, changed, embedded := WriteDirty(server, c.existing, dirty, vectors);
      if !ok {
        tables := before;
        return None;
      }
      DirtyToolsSuffice(c.existing, c.tools, c.provider);
      CountsAddUp(c.existing, c.tools);
      NoneRemoved(removed, Missing(c.existing, c.tools));
      if |dirty| > 0 || |removed| > 0 {
        generation := generation + 1;
      }
      return Some(Diff(added, changed, removed, |c.tools| - |added| - |changed|, embedded));
    }

    /** Drops a server's tools. */
    method Remove(server: ServerId)
      requires Valid()
      modifies this
      ensures Valid() && Orphans(tables) == Orphans(old(tables))
      ensures tables == Removed(old(tables), server)
      ensures generation == old(generation) + (if Existing(old(tables), server) == map[] then 0 else 1)
    {
      var keys := KeysUnder(tables, server);
      DeleteAllIsSound(tables, keys, build);
      NoKeysNoRows(tables, server);
      hide Sound, Orphans, KeysUnder, Existing;
      tables := DeleteAll(tables, keys);
      if |keys| > 0 {
        generation := generation + 1;
      }
    }
  }

  lemma NoneRemoved(removed: seq<Text>, missing: set<Text>)
    requires multiset(removed) == multiset(missing)
    ensures |removed| == 0 <==> missing == {}
  {
    assert |removed| == |multiset(removed)|;
  }

  lemma DeleteOneMore(t: Tables, existing: map<Text, Row>, done: set<Text>, name: Text)
    requires done <= existing.Keys && name in existing
    ensures DeleteIds(DeleteIds(t, set n | n in done :: existing[n].id), {existing[name].id})
            == DeleteIds(t, set n | n in done + {name} :: existing[n].id)
  {
    DeleteIdsTwice(t, set n | n in done :: existing[n].id, {existing[name].id});
    assert (set n | n in done + {name} :: existing[n].id) == (set n | n in done :: existing[n].id) + {existing[name].id};
  }

  lemma DeleteIdsTwice(t: Tables, a: set<RowId>, b: set<RowId>)
    ensures DeleteIds(DeleteIds(t, a), b) == DeleteIds(t, a + b)
  {
    var u := DeleteIds(t, a);
    assert KeysWith(t, a + b) == KeysWith(t, a) + KeysWith(u, b);
    var both, once := DeleteIds(u, b), DeleteIds(t, a + b);
    assert both.rows == once.rows;
    assert both.fts == once.fts;
  }

  lemma {:induction false} WriteAllFails(t: Tables, server: ServerId, existing: map<Text, Row>, tools: seq<Tool>,
      vectors: map<Digest, Vector>, build: Builder, k: nat)
    requires k <= |tools| && WriteAll(t, server, existing, tools[..k], vectors, build).None?
    ensures WriteAll(t, server, existing, tools, vectors, build).None?
    decreases |tools|
  {
    if k < |tools| {
      assert tools[..|tools| - 1][..k] == tools[..k];
      WriteAllFails(t, server, existing, tools[..|tools| - 1], vectors, build, k);
    } else {
      assert tools[..k] == tools;
    }
  }
}
