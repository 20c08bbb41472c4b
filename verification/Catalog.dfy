/**
 Installs, saves and uninstalls side by side. A save reads the stored rows, waits for its vectors, and then writes
 from the rows it has read; an uninstall reads the server, waits for its connection to close, and then removes.
 */
module Catalog {
  import opened Common
  import opened JsText
  import opened ToolHash
  import opened ToolIndex

  type Name = string

  /** An uninstall that waits: the name it was given, and the server it has read under it. */
  datatype Leaving = Leaving(name: Name, read: ServerId)

  datatype State = State(
    tables: Tables,
    generation: nat,
    nextServer: ServerId,
    /** At most one save per server: one index runs under a name at a time, and an id keeps its name. */
    saves: map<ServerId, Capture>,
    uninstalls: map<nat, Leaving>)

  const START := State(EMPTY, 0, 1, map[], map[])

  datatype Op =
    | Install(name: Name)
    | SaveStarts(server: ServerId, tools: seq<Tool>, provider: Provider)
    | SaveEnds(server: ServerId, vectors: map<Digest, Vector>)
    | UninstallStarts(id: nat, name: Name)
    | UninstallEnds(id: nat)

  /** The server of a name. */
  ghost function Owner(t: Tables, name: Name): Option<ServerId> {
    if id :| id in t.servers && t.servers[id] == name then Some(id) else None
  }

  /** The row of a server is deleted; its tools go by cascade. */
  function Cascaded(t: Tables, server: ServerId): Tables {
    Removed(t, server).(servers := t.servers - {server})
  }

  ghost predicate May(s: State, op: Op) {
    match op
    case Install(name) => Owner(s.tables, name).None?
    case SaveStarts(server, _, _) => server < s.nextServer && server !in s.saves
    case SaveEnds(server, _) => server in s.saves
    case UninstallStarts(id, name) => id !in s.uninstalls && Owner(s.tables, name).Some?
    case UninstallEnds(id) => id in s.uninstalls
  }

  ghost function Step(s: State, op: Op, build: Builder): State
    requires May(s, op)
  {
    match op
    case Install(name) => s.(tables := s.tables.(servers := s.tables.servers[s.nextServer := name]), nextServer := s.nextServer + 1)
    case SaveStarts(server, tools, provider) => s.(saves := s.saves[server := Captured(s.tables, server, tools, provider)])
    case SaveEnds(server, vectors) => Ended(s, server, vectors, build)
    case UninstallStarts(id, name) => s.(uninstalls := s.uninstalls[id := Leaving(name, Owner(s.tables, name).value)])
    case UninstallEnds(id) => Uninstalled(s, s.uninstalls[id]).(uninstalls := s.uninstalls - {id})
  }

  function Ended(s: State, server: ServerId, vectors: map<Digest, Vector>, build: Builder): State
    requires server in s.saves
  {
    var c := s.saves[server];
    var saved := SaveFrom(s.tables, server, c, vectors, build);
    var rest := s.(saves := s.saves - {server});
    if saved.None? then rest
    else rest.(tables := saved.value, generation := s.generation + if c.Writes() then 1 else 0)
  }

  /** The tools of the server that was read are dropped. Then whatever server has the name now goes, if there is one. */
  ghost function Uninstalled(s: State, l: Leaving): State {
    var dropped := s.(tables := Removed(s.tables, l.read),
                      generation := s.generation + if Existing(s.tables, l.read) == map[] then 0 else 1);
    var owner := Owner(s.tables, l.name);
    if owner.None? then dropped else dropped.(tables := Cascaded(dropped.tables, owner.value))
  }

  ghost predicate IsRun(s: State, ops: seq<Op>, build: Builder)
    decreases ops
  {
    ops == [] || (May(s, ops[0]) && IsRun(Step(s, ops[0], build), ops[1..], build))
  }

  ghost function Run(s: State, ops: seq<Op>, build: Builder): State
    requires IsRun(s, ops, build)
    decreases ops
  {
    if ops == [] then s else Run(Step(s, ops[0], build), ops[1..], build)
  }

  // ---- What every step keeps ----

  ghost predicate NamesOk(s: State) {
    && (forall id | id in s.tables.servers :: id < s.nextServer)
    && (forall a, b | a in s.tables.servers && b in s.tables.servers && s.tables.servers[a] == s.tables.servers[b] :: a == b)
  }

  /** What a save has captured is still so, or the server and its rows are gone for good. */
  ghost predicate SaveOk(s: State, server: ServerId) {
    server in s.saves ==> server < s.nextServer && InStep(s.tables, server, s.saves[server].existing)
  }

  /** The server an uninstall has read keeps its name as long as it lives. */
  ghost predicate LeavingOk(s: State, id: nat) {
    id in s.uninstalls ==>
      var l := s.uninstalls[id];
      l.read < s.nextServer && (l.read in s.tables.servers ==> s.tables.servers[l.read] == l.name)
  }

  ghost predicate InOrder(s: State, build: Builder) {
    && Sound(s.tables, build) && NamesOk(s)
    && (forall server :: SaveOk(s, server))
    && (forall id :: LeavingOk(s, id))
  }

  lemma OwnerOf(t: Tables, name: Name)
    ensures var owner := Owner(t, name);
            && (owner.Some? ==> owner.value in t.servers && t.servers[owner.value] == name)
            && (owner.None? ==> forall id | id in t.servers :: t.servers[id] != name)
  {}

  /** No row of a server that is not there. */
  lemma NoServerNoRows(t: Tables, server: ServerId)
    requires Rooted(t) && server !in t.servers
    ensures Existing(t, server) == map[]
  {}

  /** The tables without the rows of one server. */
  ghost predicate Without(t: Tables, u: Tables, server: ServerId) {
    && u.nextId == t.nextId
    && (forall k | k in u.rows :: k in t.rows && u.rows[k] == t.rows[k] && k.server != server)
    && (forall k | k in t.rows && k.server != server :: k in u.rows)
  }

  lemma RemovedIs(t: Tables, server: ServerId, build: Builder)
    requires Sound(t, build)
    ensures
      var u := Removed(t, server);
      && Sound(u, build) && Orphans(u) == Orphans(t) && u.servers == t.servers && Without(t, u, server)
  {
    DeleteAllIsSound(t, KeysUnder(t, server), build);
    hide Sound, Orphans;
  }

  lemma RemovedNothing(t: Tables, server: ServerId)
    requires Existing(t, server) == map[]
    ensures Removed(t, server) == t
  {
    NoKeysNoRows(t, server);
    assert DeleteAll(t, {}) == t;
  }

  lemma CascadedIs(t: Tables, server: ServerId, build: Builder)
    requires Sound(t, build)
    ensures
      var u := Cascaded(t, server);
      && Sound(u, build) && Orphans(u) == Orphans(t) && u.servers == t.servers - {server} && Without(t, u, server)
  {
    RemovedIs(t, server, build);
    hide Removed;
  }

  ghost predicate SameRowsOf(t: Tables, u: Tables, server: ServerId) {
    forall k: Key | k.server == server :: Lookup(u.rows, k) == Lookup(t.rows, k)
  }

  /** Rows of other servers may change, rows of this one only go with it, and new rows get new ids. */
  ghost predicate Beside(t: Tables, u: Tables, server: ServerId) {
    && t.nextId <= u.nextId
    && (server in u.servers ==> server in t.servers && SameRowsOf(t, u, server))
    && (forall k | k in u.rows :: (k in t.rows && u.rows[k].id == t.rows[k].id) || u.rows[k].id >= t.nextId)
  }

  lemma SameRowsSameExisting(t: Tables, u: Tables, server: ServerId)
    requires SameRowsOf(t, u, server)
    ensures Existing(u, server) == Existing(t, server)
  {
    forall name ensures Lookup(Existing(u, server), name) == Lookup(Existing(t, server), name) {
      ExistingAt(t, server, name);
      ExistingAt(u, server, name);
      assert Lookup(u.rows, Key(server, name)) == Lookup(t.rows, Key(server, name));
    }
    hide Existing, Lookup;
    MapsEqualByLookup(Existing(u, server), Existing(t, server));
  }

  lemma StaysInStep(t: Tables, u: Tables, server: ServerId, existing: map<Text, Row>)
    requires UniqueIds(t) && Rooted(u) && InStep(t, server, existing) && Beside(t, u, server)
    ensures InStep(u, server, existing)
  {
    if server in u.servers {
      SameRowsSameExisting(t, u, server);
    } else {
      forall name, k | name in existing && k in u.rows ensures u.rows[k].id != existing[name].id {
        if server in t.servers {
          ExistingAt(t, server, name);
        } else if k in t.rows {
          assert t.rows[k].id in RowIds(t);
        }
      }
    }
    hide Existing;
  }

  lemma SavedBeside(t: Tables, server: ServerId, c: Capture, vectors: map<Digest, Vector>, build: Builder, m: ServerId)
    requires Sound(t, build) && InStep(t, server, c.existing) && m != server
    ensures var saved := SaveFrom(t, server, c, vectors, build);
            saved.Some? ==> Beside(t, saved.value, m)
  {
    SaveFromIsSound(t, server, c, vectors, build);
    hide SaveFrom, Orphans, OldIds, InStep, Sound;
  }

  /** What an uninstall does to the tables, and to the servers with it. */
  lemma UninstalledIs(s: State, l: Leaving, build: Builder)
    requires Sound(s.tables, build) && NamesOk(s) && (l.read in s.tables.servers ==> s.tables.servers[l.read] == l.name)
    ensures
      var t, u, owner := s.tables, Uninstalled(s, l).tables, Owner(s.tables, l.name);
      && Sound(u, build) && Orphans(u) == Orphans(t) && u.nextId == t.nextId
      && u.servers == (if owner.None? then t.servers else t.servers - {owner.value})
      && (forall k | k in u.rows :: k in t.rows && u.rows[k] == t.rows[k] && Some(k.server) != owner)
      && (forall k | k in t.rows && Some(k.server) != owner :: k in u.rows)
  {
    var t, owner := s.tables, Owner(s.tables, l.name);
    OwnerOf(t, l.name);
    RemovedIs(t, l.read, build);
    if owner.Some? {
      CascadedIs(Removed(t, l.read), owner.value, build);
    }
    assert l.read in t.servers ==> owner == Some(l.read);
    assert forall k | k in t.rows :: k.server in t.servers;
    hide Sound, Orphans, Removed, Cascaded, Owner;
  }

  lemma UninstallIsBeside(s: State, l: Leaving, build: Builder, m: ServerId)
    requires Sound(s.tables, build) && NamesOk(s) && (l.read in s.tables.servers ==> s.tables.servers[l.read] == l.name)
    ensures Beside(s.tables, Uninstalled(s, l).tables, m)
  {
    var t, u := s.tables, Uninstalled(s, l).tables;
    UninstalledIs(s, l, build);
    hide Sound, Orphans, Uninstalled, NamesOk, Owner;
    if m in u.servers {
      assert Owner(t, l.name) != Some(m);
    }
  }

  /** A step changes nothing for a server it is not about, except to take it away. */
  lemma StepIsBeside(s: State, op: Op, build: Builder, m: ServerId)
    requires May(s, op) && InOrder(s, build) && m < s.nextServer && !(op.SaveEnds? && op.server == m)
    ensures Beside(s.tables, Step(s, op, build).tables, m)
  {
    match op
    case SaveEnds(server, vectors) =>
      assert SaveOk(s, server);
      SavedBeside(s.tables, server, s.saves[server], vectors, build, m);
      hide SaveFrom, Sound, NamesOk, InStep;
    case UninstallEnds(id) =>
      assert LeavingOk(s, id);
      UninstallIsBeside(s, s.uninstalls[id], build, m);
      hide Uninstalled, Beside, Sound, NamesOk, SaveOk;
    case Install(name) =>
      hide Sound, SaveOk, LeavingOk, Owner;
    case _ =>
      hide Sound, NamesOk, SaveOk, LeavingOk, Existing, Owner;
  }

  lemma StepKeepsSaveOk(s: State, op: Op, build: Builder, m: ServerId)
    requires May(s, op) && InOrder(s, build) && Rooted(Step(s, op, build).tables)
    ensures SaveOk(Step(s, op, build), m)
  {
    assert SaveOk(s, m);
    var u := Step(s, op, build);
    if op.SaveStarts? && op.server == m {
      if m !in s.tables.servers {
        NoServerNoRows(s.tables, m);
      }
    } else if m in u.saves {
      StepIsBeside(s, op, build, m);
      StaysInStep(s.tables, u.tables, m, s.saves[m].existing);
    }
    hide SaveFrom, Uninstalled, Beside, Sound, Orphans;
  }

  /** A step adds a new server or takes one away. */
  lemma ServersMove(s: State, op: Op, build: Builder)
    requires May(s, op) && InOrder(s, build)
    ensures
      var u := Step(s, op, build);
      if op.Install? then u.tables.servers == s.tables.servers[s.nextServer := op.name] && u.nextServer == s.nextServer + 1
      else u.nextServer == s.nextServer && forall id | id in u.tables.servers ::
        id in s.tables.servers && u.tables.servers[id] == s.tables.servers[id]
  {
    match op
    case SaveEnds(server, vectors) =>
      assert SaveOk(s, server);
      SaveFromIsSound(s.tables, server, s.saves[server], vectors, build);
    case UninstallEnds(id) =>
      assert LeavingOk(s, id);
      UninstalledIs(s, s.uninstalls[id], build);
    case _ =>
    hide SaveFrom, Sound, Orphans, InStep, NamesOk, Removed, Cascaded;
  }

  lemma StepKeepsNames(s: State, op: Op, build: Builder)
    requires May(s, op) && InOrder(s, build)
    ensures NamesOk(Step(s, op, build))
  {
    ServersMove(s, op, build);
    if op.Install? {
      OwnerOf(s.tables, op.name);
    }
    hide Step, May, Sound, SaveOk, LeavingOk;
  }

  lemma StepKeepsLeavingOk(s: State, op: Op, build: Builder, id: nat)
    requires May(s, op) && InOrder(s, build)
    ensures LeavingOk(Step(s, op, build), id)
  {
    assert LeavingOk(s, id);
    ServersMove(s, op, build);
    if op.UninstallStarts? {
      OwnerOf(s.tables, op.name);
    }
    hide SaveFrom, Owner, Sound, SaveOk, Removed, Cascaded;
  }

  // ---- Search rows without a tool ----

  /** A save writes from a copy of rows that are gone. */
  ghost predicate IsStranded(s: State, op: Op)
    requires May(s, op)
  {
    op.SaveEnds? && op.server !in s.tables.servers
  }

  /**
   Such a save leaves search rows behind if it has something to write and every tool to write had a row; a tool that
   had none rolls it back.
   */
  ghost predicate Strands(s: State, op: Op)
    requires May(s, op)
  {
    IsStranded(s, op)
    && var c := s.saves[op.server];
       c.Dirty() != [] && forall tool | tool in c.Dirty() :: tool.name in c.existing
  }

  ghost function LeftBehind(s: State, op: Op): set<RowId>
    requires May(s, op)
  {
    if op.SaveEnds? then Left(s.tables, op.server, s.saves[op.server]) else {}
  }

  ghost function Left(t: Tables, server: ServerId, c: Capture): set<RowId> {
    if server !in t.servers && forall tool | tool in c.Dirty() :: tool.name in c.existing then OldIds(c.existing, c.Dirty()) else {}
  }

  lemma SomethingIsLeft(s: State, op: Op)
    requires May(s, op)
    ensures LeftBehind(s, op) != {} <==> Strands(s, op)
  {
    if op.SaveEnds? {
      var c := s.saves[op.server];
      if Strands(s, op) {
        assert c.Dirty()[0] in c.Dirty();
        assert c.existing[c.Dirty()[0].name].id in OldIds(c.existing, c.Dirty());
      } else if c.Dirty() == [] {
        NothingOld(c.existing);
      }
    }
    hide DirtyTools;
  }

  lemma NothingOld(existing: map<Text, Row>)
    ensures OldIds(existing, []) == {}
  {}

  lemma SaveLeavesBehind(t: Tables, server: ServerId, c: Capture, vectors: map<Digest, Vector>, build: Builder)
    requires Sound(t, build) && InStep(t, server, c.existing)
    ensures var saved := SaveFrom(t, server, c, vectors, build);
            if saved.Some? then Sound(saved.value, build) && Orphans(saved.value) == Orphans(t) + Left(t, server, c)
            else Left(t, server, c) == {}
  {
    if server in t.servers {
      SaveFromIsSound(t, server, c, vectors, build);
    } else {
      StaleSave(t, server, c, vectors, build);
    }
    hide Sound, Orphans, SaveFrom, OldIds, Stale, DirtyTools, Existing;
  }

  /** The tables stay sound in every step, and gain exactly the search rows a stranded save leaves. */
  lemma StepLeavesBehind(s: State, op: Op, build: Builder)
    requires May(s, op) && InOrder(s, build)
    ensures Sound(Step(s, op, build).tables, build)
    ensures Orphans(Step(s, op, build).tables) == Orphans(s.tables) + LeftBehind(s, op)
  {
    match op
    case SaveEnds(server, vectors) =>
      assert SaveOk(s, server);
      SaveLeavesBehind(s.tables, server, s.saves[server], vectors, build);
      hide InOrder, Sound, Orphans, Left, SaveFrom, SaveOk;
    case UninstallEnds(id) =>
      assert LeavingOk(s, id);
      UninstalledIs(s, s.uninstalls[id], build);
      hide Sound, Orphans, Uninstalled, NamesOk, SaveOk;
    case Install(name) =>
      assert Orphans(Step(s, op, build).tables) == Orphans(s.tables);
    case _ =>
  }

  lemma StepKeepsInOrder(s: State, op: Op, build: Builder)
    requires May(s, op) && InOrder(s, build)
    ensures InOrder(Step(s, op, build), build)
  {
    StepLeavesBehind(s, op, build);
    StepKeepsNames(s, op, build);
    hide May, Step, Sound, NamesOk, SaveOk, LeavingOk;
    forall m ensures SaveOk(Step(s, op, build), m) {
      StepKeepsSaveOk(s, op, build, m);
    }
    forall id ensures LeavingOk(Step(s, op, build), id) {
      StepKeepsLeavingOk(s, op, build, id);
    }
  }

  lemma {:induction false} RunKeepsInOrder(s: State, ops: seq<Op>, build: Builder)
    requires IsRun(s, ops, build) && InOrder(s, build)
    ensures InOrder(Run(s, ops, build), build)
    decreases ops
  {
    hide May, Step, InOrder;
    if ops != [] {
      StepKeepsInOrder(s, ops[0], build);
      RunKeepsInOrder(Step(s, ops[0], build), ops[1..], build);
    }
  }

  lemma StartIsInOrder(build: Builder)
    ensures InOrder(START, build) && Orphans(START.tables) == {}
  {}

  ghost predicate SomeStepStrands(s: State, ops: seq<Op>, build: Builder)
    requires IsRun(s, ops, build)
    decreases ops
  {
    ops != [] && (Strands(s, ops[0]) || SomeStepStrands(Step(s, ops[0], build), ops[1..], build))
  }

  /** A search row without a tool row stays for good. */
  lemma {:induction false} OrphansStay(s: State, ops: seq<Op>, build: Builder)
    requires IsRun(s, ops, build) && InOrder(s, build)
    ensures Orphans(s.tables) <= Orphans(Run(s, ops, build).tables)
    decreases ops
  {
    hide May, Step, InOrder, Orphans, LeftBehind;
    if ops != [] {
      StepLeavesBehind(s, ops[0], build);
      StepKeepsInOrder(s, ops[0], build);
      OrphansStay(Step(s, ops[0], build), ops[1..], build);
    }
  }

  /** After any run every search row has its tool row, if and only if no save of it was stranded with updates only. */
  lemma {:induction false} OrphansExactlyIfStranded(s: State, ops: seq<Op>, build: Builder)
    requires IsRun(s, ops, build) && InOrder(s, build) && Orphans(s.tables) == {}
    ensures Orphans(Run(s, ops, build).tables) == {} <==> !SomeStepStrands(s, ops, build)
    decreases ops
  {
    hide May, Step, InOrder, Orphans, LeftBehind, Strands;
    if ops != [] {
      StepLeavesBehind(s, ops[0], build);
      StepKeepsInOrder(s, ops[0], build);
      SomethingIsLeft(s, ops[0]);
      if Strands(s, ops[0]) {
        OrphansStay(Step(s, ops[0], build), ops[1..], build);
      } else {
        OrphansExactlyIfStranded(Step(s, ops[0], build), ops[1..], build);
      }
    }
  }

  // ---- The generation ----

  ghost predicate SameTools(t: Tables, u: Tables) {
    u.rows == t.rows && u.fts == t.fts
  }

  /** An uninstall resumes when another one has removed the server it read, and takes away tools of a new one. */
  ghost predicate TakesAnother(s: State, op: Op)
    requires May(s, op)
  {
    op.UninstallEnds?
    && var l := s.uninstalls[op.id];
       var owner := Owner(s.tables, l.name);
       owner.Some? && owner.value != l.read && Existing(s.tables, owner.value) != map[]
  }

  /** No step lowers the generation; one that leaves it as it is leaves the tools as they are, unless it takes those of another server. */
  lemma StepMovesGeneration(s: State, op: Op, build: Builder)
    requires May(s, op) && InOrder(s, build)
    ensures s.generation <= Step(s, op, build).generation
    ensures TakesAnother(s, op) <==> Step(s, op, build).generation == s.generation && !SameTools(s.tables, Step(s, op, build).tables)
  {
    match op
    case SaveEnds(server, vectors) =>
      assert SaveOk(s, server);
      QuietSave(s.tables, server, s.saves[server], vectors, build);
      hide SaveFrom, Sound, Orphans;
    case UninstallEnds(id) =>
      assert LeavingOk(s, id);
      QuietUninstall(s, s.uninstalls[id], build);
      hide Uninstalled, Sound, Orphans;
    case _ =>
  }

  /** A new generation comes, one at a time, exactly with a save that has something to write or delete, and with the removal of tools that were read. */
  lemma WhatRaisesTheGeneration(s: State, op: Op, build: Builder)
    requires May(s, op)
    ensures
      var raises :=
        (op.SaveEnds? && SaveFrom(s.tables, op.server, s.saves[op.server], op.vectors, build).Some?
         && var c := s.saves[op.server];
            DirtyTools(c.existing, c.tools, c.provider) != [] || exists name :: name in c.existing && forall tool | tool in c.tools :: tool.name != name)
        || (op.UninstallEnds? && exists k :: k in s.tables.rows && k.server == s.uninstalls[op.id].read);
      Step(s, op, build).generation == s.generation + if raises then 1 else 0
  {
    match op
    case SaveEnds(server, _) =>
      var c := s.saves[server];
      assert forall name :: name in Missing(c.existing, c.tools) <==> name in c.existing && forall tool | tool in c.tools :: tool.name != name;
      hide SaveFrom, DirtyTools;
    case UninstallEnds(id) =>
      var read := s.uninstalls[id].read;
      NoKeysNoRows(s.tables, read);
      assert forall k :: k in KeysUnder(s.tables, read) <==> k in s.tables.rows && k.server == read;
      hide Removed, Cascaded, Existing, KeysUnder, Owner;
    case _ =>
  }

  lemma QuietSave(t: Tables, server: ServerId, c: Capture, vectors: map<Digest, Vector>, build: Builder)
    ensures !c.Writes() ==> SaveFrom(t, server, c, vectors, build) == Some(t)
  {
    if !c.Writes() {
      NothingToDelete(t, c);
    }
  }

  lemma QuietUninstall(s: State, l: Leaving, build: Builder)
    requires Sound(s.tables, build) && NamesOk(s) && (l.read in s.tables.servers ==> s.tables.servers[l.read] == l.name)
    ensures
      var t, u, owner := s.tables, Uninstalled(s, l), Owner(s.tables, l.name);
      && s.generation <= u.generation
      && (u.generation == s.generation && !SameTools(t, u.tables) <==>
            owner.Some? && owner.value != l.read && Existing(t, owner.value) != map[])
  {
    var t, owner := s.tables, Owner(s.tables, l.name);
    OwnerOf(t, l.name);
    if l.read !in t.servers {
      NoServerNoRows(t, l.read);
      RemovedNothing(t, l.read);
      if owner.Some? {
        CascadeTakes(t, owner.value);
      }
    } else {
      assert owner == Some(l.read);
      if Existing(t, l.read) == map[] {
        RemovedNothing(t, l.read);
        CascadeTakes(t, l.read);
      }
    }
    hide Removed, Cascaded, Existing, Orphans, UniqueIds, Documented;
  }

  lemma CascadeTakes(t: Tables, server: ServerId)
    ensures SameTools(t, Cascaded(t, server)) <==> Existing(t, server) == map[]
  {
    NoKeysNoRows(t, server);
    if Existing(t, server) == map[] {
      RemovedNothing(t, server);
    } else {
      var k :| k in KeysUnder(t, server);
      assert k !in Cascaded(t, server).rows;
    }
  }

  ghost predicate SomeStepTakesAnother(s: State, ops: seq<Op>, build: Builder)
    requires IsRun(s, ops, build)
    decreases ops
  {
    ops != [] && (TakesAnother(s, ops[0]) || SomeStepTakesAnother(Step(s, ops[0], build), ops[1..], build))
  }

  /** Whatever alters rows, search rows or vectors strictly raises the generation, unless a step takes the tools of another server. */
  lemma {:induction false} RunMovesGeneration(s: State, ops: seq<Op>, build: Builder)
    requires IsRun(s, ops, build) && InOrder(s, build)
    ensures s.generation <= Run(s, ops, build).generation
    ensures !SomeStepTakesAnother(s, ops, build) && !SameTools(s.tables, Run(s, ops, build).tables) ==>
              s.generation < Run(s, ops, build).generation
    decreases ops
  {
    hide May, Step, InOrder, TakesAnother;
    if ops != [] {
      StepMovesGeneration(s, ops[0], build);
      StepKeepsInOrder(s, ops[0], build);
      RunMovesGeneration(Step(s, ops[0], build), ops[1..], build);
    }
  }

  // ---- Inputs ----

  lemma {:induction false} RunThen(s: State, ops: seq<Op>, op: Op, build: Builder)
    requires IsRun(s, ops, build) && May(Run(s, ops, build), op)
    ensures IsRun(s, ops + [op], build) && Run(s, ops + [op], build) == Step(Run(s, ops, build), op, build)
    decreases ops
  {
    hide May, Step;
    if ops == [] {
      assert [] + [op] == [op] && [op][1..] == [];
    } else {
      RunThen(Step(s, ops[0], build), ops[1..], op, build);
      assert (ops + [op])[0] == ops[0] && (ops + [op])[1..] == ops[1..] + [op];
    }
  }

  lemma Then(ops: seq<Op>, op: Op, build: Builder) returns (more: seq<Op>)
    requires IsRun(START, ops, build) && May(Run(START, ops, build), op)
    ensures IsRun(START, more, build) && Run(START, more, build) == Step(Run(START, ops, build), op, build)
    ensures InOrder(Run(START, more, build), build)
  {
    more := ops + [op];
    RunThen(START, ops, op, build);
    StartIsInOrder(build);
    RunKeepsInOrder(START, more, build);
    hide May, Step, InOrder;
  }

  lemma OneTool(tool: Tool)
    ensures DistinctNames([tool]) && Seen([tool]) == {tool.name} && tool in [tool]
  {}

  lemma SavedOne(t: Tables, server: ServerId, tool: Tool, build: Builder)
    requires Sound(t, build) && server in t.servers
    ensures
      var saved := SaveFrom(t, server, Captured(t, server, [tool], NoProvider), map[], build);
      && saved.Some? && saved.value.servers == t.servers && Orphans(saved.value) == Orphans(t)
      && tool.name in Existing(saved.value, server) && Existing(saved.value, server)[tool.name].hash == HashOf(tool)
  {
    OneTool(tool);
    SaveIsExact(t, server, [tool], NoProvider, map[], build);
    SaveFromIsSound(t, server, Captured(t, server, [tool], NoProvider), map[], build);
    var u := Saved(t, server, [tool], NoProvider, map[], build).value;
    SaveReports(t, u, server, [tool], NoProvider, map[]);
    StoredHashes(u, server);
    hide SaveFrom, Orphans, Existing, Hashes, Sound, HashOf;
  }

  predicate AllButTools(s: State, u: State) {
    u.nextServer == s.nextServer && u.saves == s.saves
  }

  lemma StartedIs(s: State, server: ServerId, tools: seq<Tool>, provider: Provider, build: Builder)
    requires server < s.nextServer && server !in s.saves
    ensures May(s, SaveStarts(server, tools, provider))
    ensures
      var u := Step(s, SaveStarts(server, tools, provider), build);
      u == s.(saves := s.saves[server := Captured(s.tables, server, tools, provider)])
  {}

  lemma EndedIs(s: State, server: ServerId, vectors: map<Digest, Vector>, build: Builder)
    requires server in s.saves
    ensures May(s, SaveEnds(server, vectors))
    ensures
      var saved, u := SaveFrom(s.tables, server, s.saves[server], vectors, build), Step(s, SaveEnds(server, vectors), build);
      saved.Some? ==>
        u.tables == saved.value && u.saves == s.saves - {server} && u.nextServer == s.nextServer && u.uninstalls == s.uninstalls
  {
    hide SaveFrom;
  }

  /** A server gets one tool. */
  lemma SaveSteps(s: State, server: ServerId, tool: Tool, build: Builder)
    requires Sound(s.tables, build) && server in s.tables.servers && server < s.nextServer && server !in s.saves
    ensures May(s, SaveStarts(server, [tool], NoProvider))
    ensures May(Step(s, SaveStarts(server, [tool], NoProvider), build), SaveEnds(server, map[]))
    ensures
      var u := Step(Step(s, SaveStarts(server, [tool], NoProvider), build), SaveEnds(server, map[]), build);
      && AllButTools(s, u) && u.uninstalls == s.uninstalls && u.tables.servers == s.tables.servers
      && tool.name in Existing(u.tables, server) && Existing(u.tables, server)[tool.name].hash == HashOf(tool)
  {
    SavedOne(s.tables, server, tool, build);
    StartedIs(s, server, [tool], NoProvider, build);
    EndedIs(Step(s, SaveStarts(server, [tool], NoProvider), build), server, map[], build);
    PutThenDrop(s.saves, server, Captured(s.tables, server, [tool], NoProvider));
    hide Step, May, Sound, Captured, SaveFrom, Existing, HashOf;
  }

  lemma SaveOne(ops: seq<Op>, server: ServerId, tool: Tool, build: Builder) returns (more: seq<Op>)
    requires IsRun(START, ops, build) && InOrder(Run(START, ops, build), build)
    requires var s := Run(START, ops, build);
             server in s.tables.servers && server < s.nextServer && server !in s.saves
    ensures IsRun(START, more, build)
    ensures
      var s, u := Run(START, ops, build), Run(START, more, build);
      && AllButTools(s, u) && u.uninstalls == s.uninstalls && InOrder(u, build) && u.tables.servers == s.tables.servers
      && tool.name in Existing(u.tables, server) && Existing(u.tables, server)[tool.name].hash == HashOf(tool)
  {
    SaveSteps(Run(START, ops, build), server, tool, build);
    hide Run, IsRun, May, Step, InOrder, Existing, HashOf;
    more := Then(ops, SaveStarts(server, [tool], NoProvider), build);
    more := Then(more, SaveEnds(server, map[]), build);
  }

  lemma OneOwner(s: State, name: Name, id: ServerId, build: Builder)
    requires InOrder(s, build) && id in s.tables.servers && s.tables.servers[id] == name
    ensures Owner(s.tables, name) == Some(id)
  {
    OwnerOf(s.tables, name);
    hide Owner, Sound;
  }

  /** An installed server with one tool, at rest. */
  lemma InstallOne(name: Name, tool: Tool, build: Builder) returns (ops: seq<Op>)
    ensures IsRun(START, ops, build)
    ensures
      var s := Run(START, ops, build);
      && InOrder(s, build) && s.tables.servers == map[1 := name] && s.nextServer == 2
      && s.saves == map[] && s.uninstalls == map[]
      && tool.name in Existing(s.tables, 1) && Existing(s.tables, 1)[tool.name].hash == HashOf(tool)
  {
    assert IsRun(START, [], build) && Run(START, [], build) == START;
    StartIsInOrder(build);
    InstalledIs(START, name, build);
    hide Run, IsRun, InOrder, Existing, HashOf, May, Step;
    ops := Then([], Install(name), build);
    ops := SaveOne(ops, 1, tool, build);
  }

  lemma OneDirty(existing: map<Text, Row>, tool: Tool)
    requires tool.name in existing && existing[tool.name].hash != HashOf(tool)
    ensures DirtyTools(existing, [tool], NoProvider) == [tool]
  {
    assert [tool][..0] == [];
  }

  lemma NoServersNoRows(s: State, build: Builder)
    requires InOrder(s, build) && s.tables.servers == map[]
    ensures s.tables.rows == map[]
  {
    assert forall k | k in s.tables.rows :: k.server in s.tables.servers;
  }

  lemma LeavingIs(s: State, id: nat, name: Name, server: ServerId, build: Builder)
    requires id !in s.uninstalls && Owner(s.tables, name) == Some(server)
    ensures May(s, UninstallStarts(id, name))
    ensures Step(s, UninstallStarts(id, name), build) == s.(uninstalls := s.uninstalls[id := Leaving(name, server)])
  {
    hide Owner;
  }

  lemma GoneIs(s: State, id: nat, build: Builder)
    requires id in s.uninstalls
    ensures May(s, UninstallEnds(id))
    ensures
      var u, v := Step(s, UninstallEnds(id), build), Uninstalled(s, s.uninstalls[id]);
      u.tables == v.tables && AllButTools(s, u) && u.uninstalls == s.uninstalls - {id}
  {
    hide Owner, Removed, Cascaded, Existing;
  }

  /** An uninstall of the only server leaves none. */
  lemma OnlyServerGoes(s: State, id: nat, name: Name, server: ServerId, build: Builder)
    requires InOrder(s, build) && s.tables.servers == map[server := name] && id in s.uninstalls && s.uninstalls[id] == Leaving(name, server)
    ensures May(s, UninstallEnds(id))
    ensures
      var u := Step(s, UninstallEnds(id), build);
      && AllButTools(s, u) && u.uninstalls == s.uninstalls - {id} && u.tables.servers == map[]
  {
    OneOwner(s, name, server, build);
    UninstalledIs(s, s.uninstalls[id], build);
    GoneIs(s, id, build);
    PutThenDrop(map[], server, name);
    hide May, Step, Sound, Orphans, Owner, Uninstalled, SaveOk, LeavingOk;
  }

  lemma StrandedUpdate(s: State, server: ServerId, tool: Tool, build: Builder)
    requires InOrder(s, build) && s.tables.servers == map[] && server in s.saves
    requires var c := s.saves[server];
             c.Dirty() == [tool] && tool.name in c.existing
    ensures var t := Step(s, SaveEnds(server, map[]), build).tables;
            Orphans(t) != {} && t.rows == map[] && t.servers == map[]
  {
    var op := SaveEnds(server, map[]);
    assert Strands(s, op);
    StepLeavesBehind(s, op, build);
    SomethingIsLeft(s, op);
    StepKeepsInOrder(s, op, build);
    ServersMove(s, op, build);
    NoServersNoRows(Step(s, op, build), build);
    hide InOrder, Step, Orphans, LeftBehind;
  }

  /** A server is uninstalled while a save of it waits with a changed tool: a search row is left, and no tool at all. */
  lemma UninstallDuringSave(name: Name, was: Tool, now: Tool, build: Builder) returns (ops: seq<Op>)
    requires was.name == now.name && HashOf(was) != HashOf(now)
    ensures IsRun(START, ops, build)
    ensures var t := Run(START, ops, build).tables;
            Orphans(t) != {} && t.rows == map[] && t.servers == map[]
  {
    ops := InstallOne(name, was, build);
    var s := Run(START, ops, build);
    OneOwner(s, name, 1, build);
    OneDirty(Existing(s.tables, 1), now);
    StartedIs(s, 1, [now], NoProvider, build);
    hide Run, IsRun, InOrder, Existing, HashOf, Owner, May, Step, Orphans, DirtyTools;
    ops := Then(ops, SaveStarts(1, [now], NoProvider), build);
    LeavingIs(Run(START, ops, build), 0, name, 1, build);
    ops := Then(ops, UninstallStarts(0, name), build);
    OnlyServerGoes(Run(START, ops, build), 0, name, 1, build);
    ops := Then(ops, UninstallEnds(0), build);
    StrandedUpdate(Run(START, ops, build), 1, now, build);
    ops := Then(ops, SaveEnds(1, map[]), build);
  }

  lemma InstalledIs(s: State, name: Name, build: Builder)
    requires InOrder(s, build) && s.tables.servers == map[]
    ensures May(s, Install(name))
    ensures
      var u := Step(s, Install(name), build);
      && u == s.(tables := u.tables, nextServer := s.nextServer + 1) && u.tables.servers == map[s.nextServer := name]
  {
    OwnerOf(s.tables, name);
  }

  /** Two uninstalls of one name: the slower one takes away the tools of a server installed in between, unseen by the generation. */
  lemma SecondUninstallTakesAnother(name: Name, tool: Tool, build: Builder) returns (ops: seq<Op>)
    ensures IsRun(START, ops, build)
    ensures var s := Run(START, ops, build);
            May(s, UninstallEnds(0)) && TakesAnother(s, UninstallEnds(0)) && InOrder(s, build)
  {
    ops := InstallOne(name, tool, build);
    var s := Run(START, ops, build);
    OneOwner(s, name, 1, build);
    LeavingIs(s, 0, name, 1, build);
    hide Run, IsRun, InOrder, Existing, HashOf, Owner, Step, May;
    ops := Then(ops, UninstallStarts(0, name), build);
    LeavingIs(Run(START, ops, build), 1, name, 1, build);
    ops := Then(ops, UninstallStarts(1, name), build);
    OnlyServerGoes(Run(START, ops, build), 1, name, 1, build);
    ops := Then(ops, UninstallEnds(1), build);
    PutThenDrop(map[0 := Leaving(name, 1)], 1, Leaving(name, 1));
    InstalledIs(Run(START, ops, build), name, build);
    ops := Then(ops, Install(name), build);
    ops := SaveOne(ops, 2, tool, build);
    TakesTheSecond(Run(START, ops, build), 0, name, 1, 2, tool, build);
  }

  lemma TakesTheSecond(s: State, id: nat, name: Name, read: ServerId, now: ServerId, tool: Tool, build: Builder)
    requires InOrder(s, build) && id in s.uninstalls && s.uninstalls[id] == Leaving(name, read) && read != now
    requires now in s.tables.servers && s.tables.servers[now] == name && tool.name in Existing(s.tables, now)
    ensures May(s, UninstallEnds(id)) && TakesAnother(s, UninstallEnds(id))
  {
    OneOwner(s, name, now, build);
    hide Owner, InOrder, Existing;
  }
}
