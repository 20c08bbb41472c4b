/**
 * The connection pool: one connection per server, opened on demand and shared by the calls.
 *
 * Code between two awaits is one step. What the upstream does (a handshake that succeeds or fails, a transport
 * that closes), the clock and the back-off after failures are free choices of the steps.
 */
module Pool {
  import opened Common

  type Name = string
  type Config = string
  type ClientId = nat
  type OpenId = nat
  type CallId = nat

  /** A connection object: it outlives its place in the pool while calls still use it. */
  datatype Conn = Conn(name: Name, config: Config, generation: nat, inflight: int, elicitors: set<CallId>)

  /** How far an activation of `open` is. */
  datatype Phase =
    | Handshaking(generation: nat, config: Config, retried: bool)
    /** The handshake is done; `open` has not gone on yet. */
    | Connected(generation: nat, config: Config, client: ClientId)
    /** Something changed meanwhile: the client is being closed, then `open` starts over. */
    | ClosingStale
    /** `open` has returned or thrown; it is still listed as pending. */
    | Done

  datatype Opening = Opening(name: Name, phase: Phase)

  /** A call running on a connection; it brings a fresh elicitor of its own, or none. */
  datatype Call = Call(client: ClientId, elicits: bool)

  datatype Pool = Pool(
    configs: map<Name, Config>,
    generations: map<Name, nat>,
    conns: map<Name, ClientId>,
    pending: map<Name, OpenId>,
    opens: map<OpenId, Opening>,
    objects: map<ClientId, Conn>,
    /** Every client a handshake gave, and those that were closed, by either side. */
    clients: set<ClientId>,
    closed: set<ClientId>,
    /** History: clients whose transport closed while their open held them, when nobody listens for that yet. */
    early: set<ClientId>,
    calls: map<CallId, Call>)

  datatype Op =
    | Install(name: Name, config: Config)
    | Reconfigure(name: Name, config: Config)
    | Remove(name: Name)
    | Connect(name: Name, id: OpenId, refused: bool)
    | HandshakeFails(id: OpenId, again: bool)
    | HandshakeSucceeds(id: OpenId, client: ClientId)
    | OpenGoesOn(id: OpenId)
    | OpenStartsOver(id: OpenId, refused: bool)
    | Settle(id: OpenId)
    | Disconnect(name: Name)
    | TransportCloses(client: ClientId)
    | CallStarts(name: Name, call: CallId, elicits: bool)
    | CallEnds(call: CallId)
    | Sweep(name: Name)
    | ProbeEnds(name: Name, client: ClientId, shared: bool)

  const EMPTY := Pool(map[], map[], map[], map[], map[], map[], {}, {}, {}, map[])

  // ---- The steps ----

  function Generation(p: Pool, n: Name): nat {
    Lookup(p.generations, n).GetOr(0)
  }

  /** The first stretch of `open`: refused by the back-off or by a missing server, or a handshake begins. */
  function FirstPhase(p: Pool, n: Name, refused: bool): Phase {
    if refused || n !in p.configs then Done else Handshaking(Generation(p, n), p.configs[n], false)
  }

  function WithPhase(p: Pool, id: OpenId, phase: Phase): Pool
    requires id in p.opens
  {
    p.(opens := p.opens[id := Opening(p.opens[id].name, phase)])
  }

  function Disconnected(p: Pool, n: Name): (q: Pool)
    ensures q == p.(generations := q.generations, conns := p.conns - {n}, closed := q.closed) && p.closed <= q.closed
    ensures n in p.conns ==> p.conns[n] in q.closed
    ensures Generation(q, n) == Generation(p, n) + 1
  {
    var q := p.(generations := p.generations[n := Generation(p, n) + 1]);
    if n !in p.conns then q else q.(conns := p.conns - {n}, closed := p.closed + {p.conns[n]})
  }

  predicate Idle(p: Pool, n: Name) {
    n in p.conns && p.conns[n] in p.objects && p.objects[p.conns[n]].inflight == 0
  }

  /** When a step can happen: its operation has got that far, and what it brings is new. */
  predicate May(p: Pool, op: Op) {
    match op
    case Install(n, _) => n !in p.configs
    case Reconfigure(n, _) => n in p.configs
    case Remove(n) => n in p.configs
    case Connect(_, id, _) => id !in p.opens
    case HandshakeFails(id, _) => id in p.opens && p.opens[id].phase.Handshaking?
    case HandshakeSucceeds(id, client) => id in p.opens && p.opens[id].phase.Handshaking? && client !in p.clients
    case OpenGoesOn(id) => id in p.opens && p.opens[id].phase.Connected?
    case OpenStartsOver(id, _) => id in p.opens && p.opens[id].phase.ClosingStale?
    case Settle(id) => id in p.opens && p.opens[id].phase.Done?
    case TransportCloses(client) => client in p.clients
    case CallStarts(n, call, _) => call !in p.calls && (n in p.conns ==> p.conns[n] in p.objects)
    case CallEnds(call) => call in p.calls && p.calls[call].client in p.objects
    case _ => true
  }

  function Step(p: Pool, op: Op): Pool
    requires May(p, op)
  {
    match op
    case Install(n, config) => p.(configs := p.configs[n := config])
    case Reconfigure(n, config) => Disconnected(p.(configs := p.configs[n := config]), n)
    case Remove(n) => p.(configs := p.configs - {n})
    case Connect(n, id, refused) =>
      if n in p.conns || n in p.pending then p
      else p.(pending := p.pending[n := id], opens := p.opens[id := Opening(n, FirstPhase(p, n, refused))])
    case HandshakeFails(id, again) =>
      var was := p.opens[id].phase;
      WithPhase(p, id, if was.retried || !again then Done else was.(retried := true))
    case HandshakeSucceeds(id, client) =>
      var was := p.opens[id].phase;
      WithPhase(p, id, Connected(was.generation, was.config, client)).(clients := p.clients + {client})
    case OpenGoesOn(id) => GoneOn(p, id)
    case OpenStartsOver(id, refused) => WithPhase(p, id, FirstPhase(p, p.opens[id].name, refused))
    case Settle(id) => p.(pending := p.pending - {p.opens[id].name}, opens := p.opens - {id})
    case Disconnect(n) => Disconnected(p, n)
    case TransportCloses(client) =>
      p.(closed := p.closed + {client}, conns := map n | n in p.conns && p.conns[n] != client :: p.conns[n],
         early := if exists id | id in p.opens :: Holds(p, id, client) then p.early + {client} else p.early)
    case CallStarts(n, call, elicits) => if n in p.conns then CallStarted(p, n, call, elicits) else p
    case CallEnds(call) => CallEnded(p, call)
    case Sweep(n) => if Idle(p, n) then Disconnected(p, n) else p
    case ProbeEnds(n, client, shared) =>
      if !shared && Idle(p, n) && p.conns[n] == client then Disconnected(p, n) else p
  }

  /** The client is kept if nothing was disconnected since `open` read the configuration, else closed. */
  function GoneOn(p: Pool, id: OpenId): (q: Pool)
    requires id in p.opens && p.opens[id].phase.Connected?
    ensures q == p.(opens := q.opens, closed := q.closed, conns := q.conns, objects := q.objects)
    ensures q.opens == p.opens[id := Opening(p.opens[id].name, if Keeps(p, id) then Done else ClosingStale)]
  {
    var n, phase := p.opens[id].name, p.opens[id].phase;
    if Generation(p, n) != phase.generation then
      p.(opens := p.opens[id := Opening(n, ClosingStale)], closed := p.closed + {phase.client})
    else
      p.(opens := p.opens[id := Opening(n, Done)],
         conns := p.conns[n := phase.client],
         objects := p.objects[phase.client := Conn(n, phase.config, phase.generation, 0, {})])
  }

  predicate HoldsClient(p: Pool, id: OpenId) {
    id in p.opens && p.opens[id].phase.Connected?
  }

  predicate Holds(p: Pool, id: OpenId, client: ClientId) {
    HoldsClient(p, id) && p.opens[id].phase.client == client
  }

  /** Nothing was disconnected under the name since this open read the configuration. */
  predicate Keeps(p: Pool, id: OpenId) {
    HoldsClient(p, id) && Generation(p, p.opens[id].name) == p.opens[id].phase.generation
  }

  function Entered(conn: Conn, call: CallId, elicits: bool): Conn {
    conn.(inflight := conn.inflight + 1, elicitors := if elicits then conn.elicitors + {call} else conn.elicitors)
  }

  function Left(conn: Conn, call: CallId, elicits: bool): Conn {
    conn.(inflight := conn.inflight - 1, elicitors := if elicits then conn.elicitors - {call} else conn.elicitors)
  }

  function CallStarted(p: Pool, n: Name, call: CallId, elicits: bool): Pool
    requires n in p.conns && p.conns[n] in p.objects
  {
    var client := p.conns[n];
    p.(objects := p.objects[client := Entered(p.objects[client], call, elicits)],
       calls := p.calls[call := Call(client, elicits)])
  }

  function CallEnded(p: Pool, call: CallId): Pool
    requires call in p.calls && p.calls[call].client in p.objects
  {
    var client := p.calls[call].client;
    p.(objects := p.objects[client := Left(p.objects[client], call, p.calls[call].elicits)], calls := p.calls - {call})
  }

  /** Where a question pushed by a server goes: to a caller, or to the queue. */
  function Route(p: Pool, n: Name): Option<CallId> {
    if n in p.conns && p.conns[n] in p.objects then
      var conn := p.objects[p.conns[n]];
      if conn.inflight == 1 && |conn.elicitors| == 1 then Some(Only(conn.elicitors)) else None
    else None
  }

  function Only(s: set<CallId>): (x: CallId)
    requires |s| == 1
    ensures s == {x}
  {
    OneElement(s);
    var x :| x in s;
    x
  }

  lemma OneElement(s: set<CallId>)
    requires |s| == 1
    ensures exists x :: x in s
    ensures forall x | x in s :: s == {x}
  {
    var x :| x in s;
    assert |s - {x}| == 0;
    assert s == {x};
  }

  // ---- What every step keeps ----

  function CallsOn(calls: map<CallId, Call>, client: ClientId): set<CallId> {
    set c | c in calls && calls[c].client == client
  }

  function ElicitingOn(calls: map<CallId, Call>, client: ClientId): set<CallId> {
    set c | c in calls && calls[c].client == client && calls[c].elicits
  }

  predicate Unfinished(o: Opening) {
    !o.phase.Done?
  }

  /** The pending activation is a real one; while it is unfinished nothing is pooled under its name. */
  ghost predicate NameOk(p: Pool, n: Name) {
    && (n in p.pending ==>
          && p.pending[n] in p.opens && p.opens[p.pending[n]].name == n
          && (Unfinished(p.opens[p.pending[n]]) ==> n !in p.conns))
    && (n in p.conns ==> p.conns[n] in p.objects && p.objects[p.conns[n]].name == n)
  }

  /** Every activation is listed as the pending one of its name; the client it holds is in nobody else's hands. */
  ghost predicate OpenOk(p: Pool, id: OpenId) {
    id in p.opens ==>
      && p.opens[id].name in p.pending && p.pending[p.opens[id].name] == id
      && (p.opens[id].phase.Connected? ==>
            p.opens[id].phase.client in p.clients && p.opens[id].phase.client !in p.objects)
  }

  ghost predicate Apart(p: Pool, id: OpenId, other: OpenId) {
    HoldsClient(p, id) && HoldsClient(p, other) && p.opens[id].phase.client == p.opens[other].phase.client ==> id == other
  }

  ghost predicate CallOk(p: Pool, call: CallId) {
    call in p.calls ==> p.calls[call].client in p.objects
  }

  ghost predicate ObjectOk(p: Pool, client: ClientId) {
    client in p.objects ==> client in p.clients
  }

  ghost predicate Protocol(p: Pool) {
    && (forall n :: NameOk(p, n))
    && (forall id :: OpenOk(p, id))
    && (forall id, other :: Apart(p, id, other))
    && (forall call :: CallOk(p, call))
    && (forall client :: ObjectOk(p, client))
  }

  /** The activation a step advances. */
  predicate Advances(op: Op) {
    op.HandshakeFails? || op.HandshakeSucceeds? || op.OpenGoesOn? || op.OpenStartsOver? || op.Settle?
  }

  predicate SameIdentity(c: Conn, d: Conn) {
    c.name == d.name && c.config == d.config && c.generation == d.generation
  }

  /** Apart from counters, nothing but pooled connections has gone. */
  ghost predicate OnlyLost(p: Pool, q: Pool) {
    && q.pending == p.pending && q.opens == p.opens && q.clients == p.clients && p.closed <= q.closed
    && (forall n | n in q.conns :: n in p.conns && q.conns[n] == p.conns[n])
    && (forall n | n in p.conns && n !in q.conns :: p.conns[n] in q.closed)
    && q.objects.Keys == p.objects.Keys
    && (forall k | k in p.objects :: SameIdentity(q.objects[k], p.objects[k]))
  }

  lemma DisconnectingOnlyLoses(p: Pool, op: Op)
    requires May(p, op)
    requires op.Reconfigure? || op.Disconnect? || op.Sweep? || op.ProbeEnds? || op.TransportCloses?
    ensures OnlyLost(p, Step(p, op))
  {
    if op.Reconfigure? {
      DisconnectedOnlyLost(p.(configs := p.configs[op.name := op.config]), op.name);
    } else if !op.TransportCloses? {
      DisconnectedOnlyLost(p, op.name);
    }
    hide Disconnected, Idle;
  }

  lemma DisconnectedOnlyLost(p: Pool, n: Name)
    ensures OnlyLost(p, Disconnected(p, n))
  {
    var q := Disconnected(p, n);
    assert q.objects == p.objects;
    hide Disconnected, Generation;
    assert forall k | k in p.objects :: SameIdentity(q.objects[k], p.objects[k]);
  }

  lemma OtherStepsOnlyLose(p: Pool, op: Op)
    requires May(p, op)
    requires op.Install? || op.Remove? || op.CallStarts? || op.CallEnds?
    ensures OnlyLost(p, Step(p, op))
  {
  }

  lemma LosingKeepsProtocol(p: Pool, q: Pool)
    requires OnlyLost(p, q) && Protocol(p) && forall call :: CallOk(q, call)
    ensures Protocol(q)
  {
    forall n ensures NameOk(q, n) {
      assert NameOk(p, n);
    }
    forall id ensures OpenOk(q, id) {
      assert OpenOk(p, id);
    }
    forall id, other ensures Apart(q, id, other) {
      assert Apart(p, id, other);
    }
    forall client ensures ObjectOk(q, client) {
      assert ObjectOk(p, client);
    }
  }

  /** An unfinished activation has got on; if it holds a client now, a new one. */
  ghost predicate GotOn(p: Pool, q: Pool, id: OpenId) {
    && q.pending == p.pending && q.conns == p.conns && q.objects == p.objects && q.calls == p.calls
    && p.clients <= q.clients && id in p.opens && Unfinished(p.opens[id])
    && id in q.opens && q.opens == p.opens[id := Opening(p.opens[id].name, q.opens[id].phase)]
    && (HoldsClient(q, id) ==> q.opens[id].phase.client in q.clients && q.opens[id].phase.client !in p.clients)
  }

  lemma OpensGetOn(p: Pool, op: Op)
    requires May(p, op)
    requires op.HandshakeFails? || op.HandshakeSucceeds? || op.OpenStartsOver? || (op.OpenGoesOn? && !Keeps(p, op.id))
    ensures GotOn(p, Step(p, op), op.id)
  {
  }

  lemma GettingOnKeepsProtocol(p: Pool, q: Pool, id: OpenId)
    requires GotOn(p, q, id) && Protocol(p)
    ensures Protocol(q)
  {
    assert OpenOk(p, id);
    forall n ensures NameOk(q, n) {
      assert NameOk(p, n);
    }
    forall other ensures OpenOk(q, other) {
      assert OpenOk(p, other);
      if HoldsClient(q, id) {
        assert ObjectOk(p, q.opens[id].phase.client);
      }
    }
    forall other, another ensures Apart(q, other, another) {
      assert Apart(p, other, another) && OpenOk(p, other) && OpenOk(p, another);
    }
    forall client ensures ObjectOk(q, client) {
      assert ObjectOk(p, client);
    }
    forall call ensures CallOk(q, call) {
      assert CallOk(p, call);
    }
  }

  lemma KeepingKeepsProtocol(p: Pool, id: OpenId)
    requires Protocol(p) && Keeps(p, id)
    ensures Protocol(GoneOn(p, id))
  {
    var q := GoneOn(p, id);
    assert OpenOk(p, id);
    forall n ensures NameOk(q, n) {
      assert NameOk(p, n);
    }
    forall other ensures OpenOk(q, other) {
      assert OpenOk(p, other) && Apart(p, id, other);
    }
    forall other, another ensures Apart(q, other, another) {
      assert Apart(p, other, another);
    }
    forall client ensures ObjectOk(q, client) {
      assert ObjectOk(p, client);
    }
    forall call ensures CallOk(q, call) {
      assert CallOk(p, call);
    }
  }

  /** One activation was listed or unlisted; nothing else of the protocol changed. */
  ghost predicate Listed(p: Pool, q: Pool, n: Name) {
    && q.conns == p.conns && q.objects == p.objects && q.calls == p.calls && q.clients == p.clients
    && (forall m | m != n :: Lookup(q.pending, m) == Lookup(p.pending, m))
    && (forall id | id in q.opens ::
          || (id in p.opens && q.opens[id] == p.opens[id] && q.opens[id].name != n)
          || (n in q.pending && q.pending[n] == id && q.opens[id].name == n && !q.opens[id].phase.Connected?))
    && (forall id | id in p.opens && p.opens[id].name != n :: id in q.opens && q.opens[id] == p.opens[id])
    && (n in q.pending ==> q.pending[n] in q.opens && q.opens[q.pending[n]].name == n && n !in q.conns)
  }

  lemma ListingKeepsProtocol(p: Pool, q: Pool, n: Name)
    requires Listed(p, q, n) && Protocol(p)
    ensures Protocol(q)
  {
    forall m ensures NameOk(q, m) {
      assert NameOk(p, m);
      assert m != n ==> Lookup(q.pending, m) == Lookup(p.pending, m);
    }
    forall id ensures OpenOk(q, id) {
      assert OpenOk(p, id);
      assert id in q.opens && q.opens[id].name != n ==> Lookup(q.pending, q.opens[id].name) == Lookup(p.pending, q.opens[id].name);
    }
    forall id, other ensures Apart(q, id, other) {
      assert Apart(p, id, other);
    }
    forall client ensures ObjectOk(q, client) {
      assert ObjectOk(p, client);
    }
    forall call ensures CallOk(q, call) {
      assert CallOk(p, call);
    }
  }

  lemma EachIsPending(p: Pool)
    requires Protocol(p)
    ensures forall id | id in p.opens :: p.opens[id].name in p.pending && p.pending[p.opens[id].name] == id
  {
    forall id | id in p.opens ensures p.opens[id].name in p.pending && p.pending[p.opens[id].name] == id {
      assert OpenOk(p, id);
    }
  }

  lemma ConnectLists(p: Pool, op: Op)
    requires May(p, op) && Protocol(p) && op.Connect?
    ensures Protocol(Step(p, op))
  {
    EachIsPending(p);
    hide Protocol;
    if Step(p, op) != p {
      ListingKeepsProtocol(p, Step(p, op), op.name);
    }
  }

  lemma SettleLists(p: Pool, op: Op)
    requires May(p, op) && Protocol(p) && op.Settle?
    ensures Protocol(Step(p, op))
  {
    EachIsPending(p);
    hide Protocol;
    ListingKeepsProtocol(p, Step(p, op), p.opens[op.id].name);
  }

  lemma CallStaysOk(p: Pool, op: Op, call: CallId)
    requires May(p, op) && Protocol(p) && !Advances(op) && !op.Connect?
    ensures CallOk(Step(p, op), call)
  {
    assert CallOk(p, call);
  }

  lemma StepKeepsProtocol(p: Pool, op: Op)
    requires May(p, op) && Protocol(p)
    ensures Protocol(Step(p, op))
  {
    hide May, NameOk, OpenOk, Apart, CallOk, ObjectOk, OnlyLost, GotOn, Listed, Protocol;
    if op.Connect? {
      ConnectLists(p, op);
    } else if op.Settle? {
      SettleLists(p, op);
    } else if op.OpenGoesOn? && Keeps(p, op.id) {
      KeepingKeepsProtocol(p, op.id);
    } else if Advances(op) {
      OpensGetOn(p, op);
      GettingOnKeepsProtocol(p, Step(p, op), op.id);
    } else {
      if op.Install? || op.Remove? || op.CallStarts? || op.CallEnds? {
        OtherStepsOnlyLose(p, op);
      } else {
        DisconnectingOnlyLoses(p, op);
      }
      forall call ensures CallOk(Step(p, op), call) {
        CallStaysOk(p, op, call);
      }
      LosingKeepsProtocol(p, Step(p, op));
    }
  }

  // ---- No client leaks ----

  ghost predicate Pooled(p: Pool, client: ClientId) {
    exists n :: n in p.conns && p.conns[n] == client
  }

  /** The client's open decides about it in its next step. */
  ghost predicate Undecided(p: Pool, client: ClientId) {
    exists id :: HoldsClient(p, id) && p.opens[id].phase.client == client
  }

  ghost predicate Accounted(p: Pool, client: ClientId) {
    client in p.clients ==> client in p.closed || Pooled(p, client) || Undecided(p, client)
  }

  lemma PooledStays(p: Pool, op: Op, n: Name)
    requires May(p, op) && Protocol(p) && n in p.conns
    ensures p.conns[n] in Step(p, op).closed || (n in Step(p, op).conns && Step(p, op).conns[n] == p.conns[n])
  {
    if op.OpenGoesOn? {
      assert OpenOk(p, op.id) && NameOk(p, n);
    }
  }

  lemma UndecidedStays(p: Pool, op: Op, id: OpenId)
    requires May(p, op) && HoldsClient(p, id)
    ensures
      var q, client := Step(p, op), p.opens[id].phase.client;
      || (HoldsClient(q, id) && q.opens[id].phase.client == client)
      || client in q.closed
      || (p.opens[id].name in q.conns && q.conns[p.opens[id].name] == client)
  {
    if Advances(op) || op.Connect? {
    } else if op.Install? || op.Remove? || op.CallStarts? || op.CallEnds? {
      OtherStepsOnlyLose(p, op);
      hide Step, May;
    } else {
      DisconnectingOnlyLoses(p, op);
      hide Step, May;
    }
  }

  lemma StepAccounts(p: Pool, op: Op, client: ClientId)
    requires May(p, op) && Protocol(p) && Accounted(p, client)
    ensures Accounted(Step(p, op), client)
  {
    if client in p.clients {
      KnownStaysAccounted(p, op, client);
    } else if client in Step(p, op).clients {
      assert op.HandshakeSucceeds? && HoldsClient(Step(p, op), op.id);
    }
  }

  lemma KnownStaysAccounted(p: Pool, op: Op, client: ClientId)
    requires May(p, op) && Protocol(p) && Accounted(p, client) && client in p.clients
    ensures Accounted(Step(p, op), client)
  {
    ClosedStays(p, op);
    if client !in p.closed {
      hide Step, May;
      if Pooled(p, client) {
        var n :| n in p.conns && p.conns[n] == client;
        PooledStays(p, op, n);
      } else {
        var id :| HoldsClient(p, id) && p.opens[id].phase.client == client;
        UndecidedStays(p, op, id);
      }
    }
  }

  lemma ClosedStays(p: Pool, op: Op)
    requires May(p, op)
    ensures p.closed <= Step(p, op).closed
  {
  }

  // ---- What is pooled is not closed ----

  /** A transport that closes takes its connection out of the pool, and no other. */
  lemma ClosedTransportIsUnpooled(p: Pool, client: ClientId)
    requires May(p, TransportCloses(client))
    ensures
      var q := Step(p, TransportCloses(client));
      && client in q.closed
      && (forall n :: n in q.conns <==> n in p.conns && p.conns[n] != client)
      && (forall n | n in q.conns :: q.conns[n] == p.conns[n])
  {
  }

  /** A pooled client is closed, or one held by an open is, only if its transport closed while an open held it. */
  ghost predicate NotClosed(p: Pool, n: Name) {
    n in p.conns ==> (p.conns[n] in p.closed <==> p.conns[n] in p.early)
  }

  ghost predicate HeldNotClosed(p: Pool, id: OpenId) {
    HoldsClient(p, id) ==> (p.opens[id].phase.client in p.closed <==> p.opens[id].phase.client in p.early)
  }

  ghost predicate OnlyKnown(p: Pool) {
    p.closed <= p.clients && p.early <= p.clients
  }

  lemma StepKeepsKnown(p: Pool, op: Op)
    requires May(p, op) && Protocol(p) && OnlyKnown(p)
    ensures OnlyKnown(Step(p, op))
  {
    if op.OpenGoesOn? {
      assert OpenOk(p, op.id);
    } else if op.Reconfigure? || op.Disconnect? || op.Sweep? || op.ProbeEnds? {
      assert NameOk(p, op.name);
      if op.name in p.conns {
        assert ObjectOk(p, p.conns[op.name]);
      }
    }
  }

  /** A disconnected client is pooled under no other name, and held by no open. */
  lemma DisconnectedIsApart(p: Pool, n: Name)
    requires Protocol(p) && n in p.conns
    ensures forall m | m in p.conns && m != n :: p.conns[m] != p.conns[n]
    ensures forall id | HoldsClient(p, id) :: p.opens[id].phase.client != p.conns[n]
  {
    assert NameOk(p, n);
    forall m | m in p.conns && m != n ensures p.conns[m] != p.conns[n] {
      assert NameOk(p, m);
    }
    forall id | HoldsClient(p, id) ensures p.opens[id].phase.client != p.conns[n] {
      assert OpenOk(p, id);
    }
  }

  lemma DisconnectingKeepsNotClosed(p: Pool, q: Pool, n: Name)
    requires Protocol(p) && (forall m :: NotClosed(p, m)) && (forall id :: HeldNotClosed(p, id))
    requires q == p.(configs := q.configs, generations := q.generations, conns := p.conns - {n}, closed := q.closed)
    requires q.closed == if n in p.conns then p.closed + {p.conns[n]} else p.closed
    ensures (forall m :: NotClosed(q, m)) && (forall id :: HeldNotClosed(q, id))
  {
    if n in p.conns {
      DisconnectedIsApart(p, n);
    }
    hide Protocol;
    forall m ensures NotClosed(q, m) {
      assert NotClosed(p, m);
    }
    forall id ensures HeldNotClosed(q, id) {
      assert HeldNotClosed(p, id);
    }
  }

  lemma ClosingKeepsNotClosed(p: Pool, client: ClientId)
    requires May(p, TransportCloses(client)) && (forall m :: NotClosed(p, m)) && (forall id :: HeldNotClosed(p, id))
    ensures var q := Step(p, TransportCloses(client));
            (forall m :: NotClosed(q, m)) && (forall id :: HeldNotClosed(q, id))
  {
    var q := Step(p, TransportCloses(client));
    ClosedTransportIsUnpooled(p, client);
    forall m ensures NotClosed(q, m) {
      assert NotClosed(p, m);
    }
    forall id ensures HeldNotClosed(q, id) {
      assert HeldNotClosed(p, id);
      assert HoldsClient(p, id) ==> Holds(p, id, p.opens[id].phase.client);
    }
  }

  lemma GoingOnKeepsNotClosed(p: Pool, id: OpenId, m: Name)
    requires Protocol(p) && HoldsClient(p, id) && HeldNotClosed(p, id) && NotClosed(p, m)
    ensures NotClosed(GoneOn(p, id), m)
  {
    assert OpenOk(p, id) && NameOk(p, m);
    hide Protocol;
  }

  lemma GoingOnKeepsHeld(p: Pool, id: OpenId, other: OpenId)
    requires Protocol(p) && HoldsClient(p, id) && HeldNotClosed(p, other)
    ensures HeldNotClosed(GoneOn(p, id), other)
  {
    assert Apart(p, other, id);
    hide Protocol;
  }

  /** Other advances close nothing, and a client that is held anew is new. */
  lemma AdvancingClosesNothing(p: Pool, op: Op)
    requires May(p, op) && (Advances(op) || op.Connect?) && !op.OpenGoesOn?
    ensures
      var q := Step(p, op);
      && q.conns == p.conns && q.closed == p.closed && q.early == p.early
      && (forall id | HoldsClient(q, id) :: q.opens[id].phase.client !in p.clients || (HoldsClient(p, id) && q.opens[id] == p.opens[id]))
  {
  }

  lemma AdvancingKeepsNotClosed(p: Pool, op: Op)
    requires May(p, op) && Protocol(p) && OnlyKnown(p) && (forall m :: NotClosed(p, m)) && (forall id :: HeldNotClosed(p, id))
    requires Advances(op) || op.Connect?
    ensures (forall m :: NotClosed(Step(p, op), m)) && (forall id :: HeldNotClosed(Step(p, op), id))
  {
    var q := Step(p, op);
    if op.OpenGoesOn? {
      forall m ensures NotClosed(q, m) {
        GoingOnKeepsNotClosed(p, op.id, m);
      }
      forall id ensures HeldNotClosed(q, id) {
        GoingOnKeepsHeld(p, op.id, id);
      }
      hide Protocol, NotClosed, HeldNotClosed, GoneOn, OnlyKnown;
    } else {
      AdvancingClosesNothing(p, op);
      hide Protocol, Step, May;
      forall m ensures NotClosed(q, m) {
        assert NotClosed(p, m);
      }
      forall id ensures HeldNotClosed(q, id) {
        assert HeldNotClosed(p, id);
      }
    }
  }

  lemma StepKeepsNotClosed(p: Pool, op: Op)
    requires May(p, op) && Protocol(p) && OnlyKnown(p) && (forall m :: NotClosed(p, m)) && (forall id :: HeldNotClosed(p, id))
    ensures (forall m :: NotClosed(Step(p, op), m)) && (forall id :: HeldNotClosed(Step(p, op), id))
  {
    var q := Step(p, op);
    if Advances(op) || op.Connect? {
      AdvancingKeepsNotClosed(p, op);
    } else if op.TransportCloses? {
      ClosingKeepsNotClosed(p, op.client);
    } else if (op.Reconfigure? || op.Disconnect? || op.Sweep? || op.ProbeEnds?) && q != p {
      DisconnectingKeepsNotClosed(p, q, op.name);
    } else {
      forall m ensures NotClosed(q, m) {
        assert NotClosed(p, m);
      }
      forall id ensures HeldNotClosed(q, id) {
        assert HeldNotClosed(p, id);
      }
    }
    hide Protocol, OnlyKnown, NotClosed, HeldNotClosed;
  }

  // ---- A pooled connection is current ----

  predicate HasRead(phase: Phase) {
    phase.Handshaking? || phase.Connected?
  }

  /** What is pooled has the generation of now and, while the server is installed, the configuration of now. */
  ghost predicate Current(p: Pool, n: Name) {
    n in p.conns && p.conns[n] in p.objects ==>
      && p.objects[p.conns[n]].generation == Generation(p, n)
      && (n in p.configs ==> p.objects[p.conns[n]].config == p.configs[n])
  }

  /** What an open has read together stays together: the generation of now means the configuration of now. */
  ghost predicate ReadTogether(p: Pool, id: OpenId) {
    id in p.opens && HasRead(p.opens[id].phase) ==>
      var n, phase := p.opens[id].name, p.opens[id].phase;
      && phase.generation <= Generation(p, n)
      && (n in p.configs && phase.generation == Generation(p, n) ==> phase.config == p.configs[n])
  }

  /** An open that will pool its client, unless something is disconnected first. */
  predicate Live(p: Pool, id: OpenId) {
    id in p.opens && HasRead(p.opens[id].phase) && p.opens[id].phase.generation == Generation(p, p.opens[id].name)
  }

  /** A server is not installed under a name for which a connection, or a live open, with another configuration is left. */
  predicate Clean(p: Pool, op: Op) {
    op.Install? ==>
      && (op.name in p.conns && p.conns[op.name] in p.objects ==> p.objects[p.conns[op.name]].config == op.config)
      && (op.name in p.pending && Live(p, p.pending[op.name]) ==> p.opens[p.pending[op.name]].phase.config == op.config)
  }

  lemma KeptIsCurrent(p: Pool, id: OpenId, n: Name)
    requires Protocol(p) && Current(p, n) && HoldsClient(p, id) && ReadTogether(p, id)
    ensures Current(GoneOn(p, id), n)
  {
    assert NameOk(p, n) && OpenOk(p, id);
  }

  lemma DisconnectedIsCurrent(p: Pool, m: Name, configs: map<Name, Config>, n: Name)
    requires Current(p, n)
    requires n != m && n in configs ==> n in p.configs && configs[n] == p.configs[n]
    ensures Current(Disconnected(p.(configs := configs), m), n)
  {
  }

  lemma StaysCurrent(p: Pool, op: Op, n: Name)
    requires May(p, op) && Clean(p, op) && Protocol(p) && Current(p, n)
    requires op.OpenGoesOn? ==> ReadTogether(p, op.id)
    ensures Current(Step(p, op), n)
  {
    if op.OpenGoesOn? {
      KeptIsCurrent(p, op.id, n);
    } else if op.Reconfigure? {
      DisconnectedIsCurrent(p, op.name, p.configs[op.name := op.config], n);
    } else if op.Disconnect? || op.Sweep? || op.ProbeEnds? {
      DisconnectedIsCurrent(p, op.name, p.configs, n);
      assert p.(configs := p.configs) == p;
    }
    hide Disconnected, Idle, GoneOn, Protocol;
  }

  lemma DisconnectedStaysReadTogether(p: Pool, n: Name, configs: map<Name, Config>, id: OpenId)
    requires ReadTogether(p, id)
    requires forall m | m != n && m in configs :: m in p.configs && configs[m] == p.configs[m]
    ensures ReadTogether(Disconnected(p.(configs := configs), n), id)
  {
  }

  lemma OpensKeepFacts(p: Pool, op: Op)
    requires May(p, op) && (Advances(op) || op.Connect?)
    ensures Step(p, op).configs == p.configs && Step(p, op).generations == p.generations
    ensures forall id | id != op.id :: Lookup(Step(p, op).opens, id) == Lookup(p.opens, id)
  {
    hide GoneOn, FirstPhase;
  }

  /** The advanced activation still has what it read, or has just read what holds now. */
  lemma AdvancedHasRead(p: Pool, op: Op)
    requires May(p, op) && (Advances(op) || op.Connect?)
    requires op.id in Step(p, op).opens && HasRead(Step(p, op).opens[op.id].phase)
    ensures
      var now := Step(p, op).opens[op.id];
      || (op.id in p.opens && p.opens[op.id].name == now.name && HasRead(p.opens[op.id].phase)
          && p.opens[op.id].phase.generation == now.phase.generation && p.opens[op.id].phase.config == now.phase.config)
      || (now.phase.generation == Generation(p, now.name) && now.name in p.configs
          && now.phase.config == p.configs[now.name])
  {
    hide GoneOn;
  }

  lemma OpensReadTogether(p: Pool, op: Op, id: OpenId)
    requires May(p, op) && ReadTogether(p, id) && (Advances(op) || op.Connect?)
    ensures ReadTogether(Step(p, op), id)
  {
    hide Step, May;
    OpensKeepFacts(p, op);
    if id == op.id && id in Step(p, op).opens && HasRead(Step(p, op).opens[id].phase) {
      AdvancedHasRead(p, op);
    }
    assert id != op.id ==> Lookup(Step(p, op).opens, id) == Lookup(p.opens, id);
  }

  lemma StaysReadTogether(p: Pool, op: Op, id: OpenId)
    requires May(p, op) && Clean(p, op) && Protocol(p) && ReadTogether(p, id)
    ensures ReadTogether(Step(p, op), id)
  {
    assert OpenOk(p, id);
    if Advances(op) || op.Connect? {
      OpensReadTogether(p, op, id);
      hide Step, May;
    } else if op.Reconfigure? {
      DisconnectedStaysReadTogether(p, op.name, p.configs[op.name := op.config], id);
      hide Disconnected;
    } else if op.Disconnect? || op.Sweep? || op.ProbeEnds? {
      DisconnectedStaysReadTogether(p, op.name, p.configs, id);
      assert p.(configs := p.configs) == p;
      hide Disconnected, Idle;
    }
  }

  // ---- Counters ----

  /** The counters of a connection object are those of the calls that run on it. */
  ghost predicate Counted(p: Pool, client: ClientId) {
    client in p.objects ==>
      && p.objects[client].inflight == |CallsOn(p.calls, client)|
      && p.objects[client].elicitors == ElicitingOn(p.calls, client)
  }

  lemma CallsWith(calls: map<CallId, Call>, id: CallId, call: Call, client: ClientId)
    requires id !in calls
    ensures |CallsOn(calls[id := call], client)| == |CallsOn(calls, client)| + (if client == call.client then 1 else 0)
  {
    var more := calls[id := call];
    if client == call.client {
      assert CallsOn(more, client) == CallsOn(calls, client) + {id};
    } else {
      assert CallsOn(more, client) == CallsOn(calls, client);
    }
  }

  lemma ElicitingWith(calls: map<CallId, Call>, id: CallId, call: Call, client: ClientId)
    requires id !in calls
    ensures ElicitingOn(calls[id := call], client) ==
            ElicitingOn(calls, client) + (if client == call.client && call.elicits then {id} else {})
  {
  }

  lemma CallsWithout(calls: map<CallId, Call>, id: CallId, client: ClientId)
    requires id in calls
    ensures CallsOn(calls - {id}, client) == CallsOn(calls, client) - {id}
    ensures |CallsOn(calls - {id}, client)| == |CallsOn(calls, client)| - (if client == calls[id].client then 1 else 0)
    ensures ElicitingOn(calls - {id}, client) == ElicitingOn(calls, client) - {id}
    ensures id in ElicitingOn(calls, client) ==> calls[id].client == client && calls[id].elicits
  {
    assert id in CallsOn(calls, client) <==> client == calls[id].client;
  }

  lemma StartIsCounted(p: Pool, n: Name, call: CallId, elicits: bool, client: ClientId)
    requires n in p.conns && p.conns[n] in p.objects && call !in p.calls && Counted(p, client)
    ensures Counted(CallStarted(p, n, call, elicits), client)
  {
    hide CallsOn, ElicitingOn;
    CallsWith(p.calls, call, Call(p.conns[n], elicits), client);
    ElicitingWith(p.calls, call, Call(p.conns[n], elicits), client);
  }

  lemma EndIsCounted(p: Pool, call: CallId, client: ClientId)
    requires call in p.calls && p.calls[call].client in p.objects && Counted(p, client)
    ensures Counted(CallEnded(p, call), client)
  {
    hide CallsOn, ElicitingOn;
    CallsWithout(p.calls, call, client);
  }

  lemma SameCallsAreCounted(p: Pool, q: Pool, client: ClientId)
    requires q.calls == p.calls && Counted(p, client) && Lookup(q.objects, client) == Lookup(p.objects, client)
    ensures Counted(q, client)
  {
  }

  lemma NewObjectIsCounted(p: Pool, op: Op, client: ClientId)
    requires May(p, op) && Protocol(p) && Counted(p, client) && op.OpenGoesOn?
    ensures Counted(Step(p, op), client)
  {
    assert OpenOk(p, op.id);
    var q := Step(p, op);
    if client in q.objects && client !in p.objects {
      forall c | c in p.calls ensures p.calls[c].client != client {
        assert CallOk(p, c);
      }
      assert CallsOn(q.calls, client) == {} && ElicitingOn(q.calls, client) == {};
    } else {
      SameCallsAreCounted(p, q, client);
    }
  }

  lemma StepKeepsCounted(p: Pool, op: Op, client: ClientId)
    requires May(p, op) && Protocol(p) && Counted(p, client)
    ensures Counted(Step(p, op), client)
  {
    if op.OpenGoesOn? {
      NewObjectIsCounted(p, op, client);
    } else if op.CallStarts? && op.name in p.conns {
      StartIsCounted(p, op.name, op.call, op.elicits, client);
    } else if op.CallEnds? {
      EndIsCounted(p, op.call, client);
    } else {
      SameCallsAreCounted(p, Step(p, op), client);
    }
    hide Counted, Protocol, CallStarted, CallEnded, GoneOn;
  }

  // ---- What the steps do, told by their effects ----

  /** The steps that disconnect a name: on request, by a new configuration, and when unused by the sweep or the probe that opened it. */
  ghost predicate Disconnects(p: Pool, op: Op, n: Name) {
    || op == Disconnect(n)
    || (op.Reconfigure? && op.name == n)
    || (n in p.conns && p.conns[n] in p.objects && p.objects[p.conns[n]].inflight == 0
        && (op == Sweep(n) || op == ProbeEnds(n, p.conns[n], false)))
  }

  predicate MayDisconnect(op: Op) {
    op.Disconnect? || op.Reconfigure? || op.Sweep? || op.ProbeEnds?
  }

  /** Such a step disconnects its name or changes nothing. */
  lemma DisconnectsOrNot(p: Pool, op: Op)
    requires May(p, op) && MayDisconnect(op)
    ensures
      var q := Step(p, op);
      if Disconnects(p, op, op.name) then
        && q.conns == p.conns - {op.name}
        && q.closed == (if op.name in p.conns then p.closed + {p.conns[op.name]} else p.closed)
      else q == p
  {
  }

  /** What was pooled is unpooled exactly by a disconnect or by the end of its own transport; else it stays. */
  lemma WhatUnpools(p: Pool, op: Op, n: Name)
    requires May(p, op) && Protocol(p) && n in p.conns
    ensures n !in Step(p, op).conns <==> Disconnects(p, op, n) || op == TransportCloses(p.conns[n])
    ensures n in Step(p, op).conns ==> Step(p, op).conns[n] == p.conns[n]
  {
    if MayDisconnect(op) {
      DisconnectsOrNot(p, op);
      hide Step, May, Protocol;
    } else if op.OpenGoesOn? {
      assert OpenOk(p, op.id) && NameOk(p, n);
      hide Protocol;
    }
  }

  /** Something is pooled exactly by an open that goes on with no disconnect since it began: its client, on a fresh object. */
  lemma WhatIsPooled(p: Pool, op: Op, n: Name)
    requires May(p, op) && n !in p.conns
    ensures n in Step(p, op).conns <==>
            op.OpenGoesOn? && p.opens[op.id].name == n && p.opens[op.id].phase.generation == Lookup(p.generations, n).GetOr(0)
    ensures n in Step(p, op).conns ==>
              var phase, q := p.opens[op.id].phase, Step(p, op);
              q.conns[n] == phase.client && Lookup(q.objects, phase.client) == Some(Conn(n, phase.config, phase.generation, 0, {}))
  {
  }

  /** A client is closed exactly by its transport, by being disconnected, or by its open when that is overtaken. */
  lemma WhatCloses(p: Pool, op: Op, client: ClientId)
    requires May(p, op) && client !in p.closed
    ensures client in Step(p, op).closed <==>
      || op == TransportCloses(client)
      || (exists n :: n in p.conns && p.conns[n] == client && Disconnects(p, op, n))
      || (op.OpenGoesOn? && p.opens[op.id].phase.client == client
          && p.opens[op.id].phase.generation != Lookup(p.generations, p.opens[op.id].name).GetOr(0))
  {
    if MayDisconnect(op) {
      DisconnectsOrNot(p, op);
      hide Step, May;
    }
  }

  /** Exactly a client whose transport closes while an open holds it is closed early. */
  lemma WhatClosesEarly(p: Pool, op: Op, client: ClientId)
    requires May(p, op)
    ensures client in Step(p, op).early <==>
      client in p.early
      || (op == TransportCloses(client) && exists id :: id in p.opens && p.opens[id].phase.Connected? && p.opens[id].phase.client == client)
  {
    assert forall id | id in p.opens :: Holds(p, id, client) <==> p.opens[id].phase.Connected? && p.opens[id].phase.client == client;
  }

  /** A call runs from its start on a pooled connection to its end, on that connection. */
  lemma WhichCallsRun(p: Pool, op: Op, call: CallId)
    requires May(p, op)
    ensures var q := Step(p, op);
            && (call in q.calls <==> (op.CallStarts? && op.call == call && op.name in p.conns) || (call in p.calls && op != CallEnds(call)))
            && (call in q.calls && call in p.calls ==> q.calls[call] == p.calls[call])
            && (call in q.calls && call !in p.calls ==> q.calls[call] == Call(p.conns[op.name], op.elicits))
  {
  }

  /** Generations count the disconnects of a name. */
  lemma WhatMovesGenerations(p: Pool, op: Op, n: Name)
    requires May(p, op)
    ensures Lookup(Step(p, op).generations, n).GetOr(0) == Lookup(p.generations, n).GetOr(0) + if Disconnects(p, op, n) then 1 else 0
  {
    if MayDisconnect(op) {
      GenerationsOrNot(p, op, n);
    } else {
      OthersKeepGenerations(p, op);
    }
    hide Step, May;
  }

  lemma OthersKeepGenerations(p: Pool, op: Op)
    requires May(p, op) && !MayDisconnect(op)
    ensures Step(p, op).generations == p.generations
  {
    hide Generation, Disconnected;
  }

  lemma GenerationsOrNot(p: Pool, op: Op, n: Name)
    requires May(p, op) && MayDisconnect(op)
    ensures Lookup(Step(p, op).generations, n).GetOr(0) == Lookup(p.generations, n).GetOr(0) + if Disconnects(p, op, n) then 1 else 0
  {
    if op.Reconfigure? {
      OneGenerationMoves(p.(configs := p.configs[op.name := op.config]), op.name, n);
    } else {
      OneGenerationMoves(p, op.name, n);
    }
    hide Disconnected;
  }

  lemma OneGenerationMoves(p: Pool, n: Name, m: Name)
    ensures Lookup(Disconnected(p, n).generations, m).GetOr(0) == Lookup(p.generations, m).GetOr(0) + if m == n then 1 else 0
  {
  }

  lemma WhatIsConfigured(p: Pool, op: Op, n: Name)
    requires May(p, op)
    ensures Lookup(Step(p, op).configs, n) ==
            if (op.Install? || op.Reconfigure?) && op.name == n then Some(op.config)
            else if op == Remove(n) then None
            else Lookup(p.configs, n)
  {
  }

  /** An open begins, or begins again: it is over at once, or shakes hands with the configuration and generation of now. */
  ghost predicate Begins(p: Pool, n: Name, refused: bool, open: Opening) {
    && open.name == n
    && if refused || n !in p.configs then open.phase == Done
       else open.phase == Handshaking(Lookup(p.generations, n).GetOr(0), p.configs[n], false)
  }

  /** A new open begins exactly for a name that is neither pooled nor being opened. */
  lemma WhatStartsAnOpen(p: Pool, op: Op, id: OpenId)
    requires May(p, op) && id !in p.opens
    ensures var q := Step(p, op);
            && (id in q.opens <==> op.Connect? && op.id == id && op.name !in p.conns && op.name !in p.pending)
            && (id in q.opens ==> Begins(p, op.name, op.refused, q.opens[id]) && Lookup(q.pending, op.name) == Some(id))
  {
  }

  /** How an open gets on: it retries a handshake once, goes on with its client, starts over if overtaken, and is unlisted at its end. */
  lemma WhatAnOpenDoes(p: Pool, op: Op, id: OpenId)
    requires May(p, op) && id in p.opens
    ensures
      var q, was := Step(p, op), p.opens[id];
      match was.phase
      case Handshaking(generation, config, retried) =>
        if op.HandshakeSucceeds? && op.id == id then
          q.opens == p.opens[id := Opening(was.name, Connected(generation, config, op.client))] && op.client in q.clients
        else if op.HandshakeFails? && op.id == id then
          q.opens == p.opens[id := Opening(was.name, if op.again && !retried then Handshaking(generation, config, true) else Done)]
        else id in q.opens && q.opens[id] == was
      case Connected(generation, _, _) =>
        if op == OpenGoesOn(id) then
          id in q.opens && q.opens[id].name == was.name
          && (q.opens[id].phase == if generation == Lookup(p.generations, was.name).GetOr(0) then Done else ClosingStale)
        else id in q.opens && q.opens[id] == was
      case ClosingStale =>
        if op.OpenStartsOver? && op.id == id then id in q.opens && Begins(p, was.name, op.refused, q.opens[id])
        else id in q.opens && q.opens[id] == was
      case Done =>
        if op == Settle(id) then id !in q.opens && was.name !in q.pending
        else id in q.opens && q.opens[id] == was
  {
  }

  // ---- Whole runs ----

  predicate IsRun(p: Pool, ops: seq<Op>)
    decreases ops
  {
    ops == [] || (May(p, ops[0]) && IsRun(Step(p, ops[0]), ops[1..]))
  }

  function Run(p: Pool, ops: seq<Op>): Pool
    requires IsRun(p, ops)
    decreases ops
  {
    if ops == [] then p else Run(Step(p, ops[0]), ops[1..])
  }

  ghost predicate IsCleanRun(p: Pool, ops: seq<Op>)
    requires IsRun(p, ops)
    decreases ops
  {
    ops == [] || (Clean(p, ops[0]) && IsCleanRun(Step(p, ops[0]), ops[1..]))
  }

  ghost predicate Sound(p: Pool) {
    && Protocol(p)
    && (forall client :: Accounted(p, client))
    && (forall client :: Counted(p, client))
  }

  ghost predicate UpToDate(p: Pool) {
    && (forall n :: Current(p, n))
    && (forall id :: ReadTogether(p, id))
  }

  lemma StepKeepsSound(p: Pool, op: Op)
    requires May(p, op) && Sound(p)
    ensures Sound(Step(p, op))
  {
    hide May, Step, Protocol, Accounted, Counted;
    StepKeepsProtocol(p, op);
    forall client ensures Accounted(Step(p, op), client) {
      StepAccounts(p, op, client);
    }
    forall client ensures Counted(Step(p, op), client) {
      StepKeepsCounted(p, op, client);
    }
  }

  lemma StepKeepsUpToDate(p: Pool, op: Op)
    requires May(p, op) && Clean(p, op) && Protocol(p) && UpToDate(p)
    ensures UpToDate(Step(p, op))
  {
    hide May, Step, Protocol, Current, ReadTogether, Clean;
    forall n ensures Current(Step(p, op), n) {
      assert Current(p, n);
      if op.OpenGoesOn? {
        assert ReadTogether(p, op.id);
      }
      StaysCurrent(p, op, n);
    }
    forall id ensures ReadTogether(Step(p, op), id) {
      StaysReadTogether(p, op, id);
    }
  }

  /** A step leaves everything pooled or about to be pooled up to date if and only if it is clean. */
  lemma UpToDateExactlyIfClean(p: Pool, op: Op)
    requires May(p, op) && Protocol(p) && UpToDate(p)
    ensures UpToDate(Step(p, op)) <==> Clean(p, op)
  {
    if Clean(p, op) {
      StepKeepsUpToDate(p, op);
    } else {
      UncleanInstall(p, op);
    }
    hide UpToDate, Protocol, Step, May, Clean;
  }

  lemma UncleanInstall(p: Pool, op: Op)
    requires May(p, op) && Protocol(p) && !Clean(p, op)
    ensures !UpToDate(Step(p, op))
  {
    var q, n := Step(p, op), op.name;
    assert NameOk(p, n);
    if n in p.conns && p.objects[p.conns[n]].config != op.config {
      assert !Current(q, n);
    } else {
      assert !ReadTogether(q, p.pending[n]);
    }
  }

  ghost predicate UpToDateThroughout(p: Pool, ops: seq<Op>)
    requires IsRun(p, ops)
    decreases ops
  {
    UpToDate(p) && (ops == [] || UpToDateThroughout(Step(p, ops[0]), ops[1..]))
  }

  /** Connections stay up to date throughout a run if and only if every step of it is clean. */
  lemma {:induction false} UpToDateExactlyInCleanRuns(p: Pool, ops: seq<Op>)
    requires IsRun(p, ops) && Sound(p) && UpToDate(p)
    ensures UpToDateThroughout(p, ops) <==> IsCleanRun(p, ops)
    decreases ops
  {
    hide May, Step, UpToDate, Accounted, Counted, Protocol, Clean;
    if ops != [] {
      StepKeepsSound(p, ops[0]);
      UpToDateExactlyIfClean(p, ops[0]);
      if Clean(p, ops[0]) {
        UpToDateExactlyInCleanRuns(Step(p, ops[0]), ops[1..]);
      }
    }
  }

  lemma {:induction false} RunKeepsSound(p: Pool, ops: seq<Op>)
    requires IsRun(p, ops) && Sound(p)
    ensures Sound(Run(p, ops))
    decreases ops
  {
    hide May, Step, Sound;
    if ops != [] {
      StepKeepsSound(p, ops[0]);
      RunKeepsSound(Step(p, ops[0]), ops[1..]);
    }
  }

  lemma {:induction false} RunKeepsUpToDate(p: Pool, ops: seq<Op>)
    requires IsRun(p, ops) && IsCleanRun(p, ops) && Sound(p) && UpToDate(p)
    ensures UpToDate(Run(p, ops))
    decreases ops
  {
    hide May, Step, UpToDate, Accounted, Counted, Protocol, Clean;
    if ops != [] {
      StepKeepsSound(p, ops[0]);
      StepKeepsUpToDate(p, ops[0]);
      RunKeepsUpToDate(Step(p, ops[0]), ops[1..]);
    }
  }

  lemma EmptyIsSound()
    ensures Sound(EMPTY) && UpToDate(EMPTY)
  {
  }

  /** Whatever the interleaving, no two unfinished opens share a name, and an open never finishes onto a pooled connection. */
  lemma OneOpenPerName(ops: seq<Op>, id: OpenId, other: OpenId)
    requires IsRun(EMPTY, ops) && id in Run(EMPTY, ops).opens && Unfinished(Run(EMPTY, ops).opens[id])
    ensures
      var p := Run(EMPTY, ops);
      && p.opens[id].name !in p.conns
      && (other in p.opens && p.opens[other].name == p.opens[id].name ==> other == id)
  {
    hide Run, IsRun, Accounted, Counted;
    EmptyIsSound();
    RunKeepsSound(EMPTY, ops);
    var p := Run(EMPTY, ops);
    assert OpenOk(p, id) && OpenOk(p, other) && NameOk(p, p.opens[id].name);
  }

  /** Every client a handshake gave is pooled or was closed, unless its open has yet to decide. */
  lemma NoClientLeaks(ops: seq<Op>, client: ClientId)
    requires IsRun(EMPTY, ops) && client in Run(EMPTY, ops).clients
    ensures
      var p := Run(EMPTY, ops);
      client in p.closed || Pooled(p, client) || Undecided(p, client)
  {
    hide Run, IsRun, Protocol, Counted, Pooled, Undecided;
    EmptyIsSound();
    RunKeepsSound(EMPTY, ops);
    assert Accounted(Run(EMPTY, ops), client);
  }

  lemma {:induction false} RunKeepsNotClosed(p: Pool, ops: seq<Op>)
    requires IsRun(p, ops) && Protocol(p) && OnlyKnown(p) && (forall m :: NotClosed(p, m)) && (forall id :: HeldNotClosed(p, id))
    ensures OnlyKnown(Run(p, ops)) && (forall m :: NotClosed(Run(p, ops), m))
    decreases ops
  {
    hide May, Step, Protocol, OnlyKnown, NotClosed, HeldNotClosed;
    if ops != [] {
      StepKeepsProtocol(p, ops[0]);
      StepKeepsKnown(p, ops[0]);
      StepKeepsNotClosed(p, ops[0]);
      RunKeepsNotClosed(Step(p, ops[0]), ops[1..]);
    }
  }

  /** In every run: what is pooled is not closed, except exactly a client whose transport closed while its open held it. */
  lemma PooledIsNotClosed(ops: seq<Op>, n: Name)
    requires IsRun(EMPTY, ops) && n in Run(EMPTY, ops).conns
    ensures var p := Run(EMPTY, ops);
            p.conns[n] in p.closed <==> p.conns[n] in p.early
  {
    EmptyIsSound();
    RunKeepsNotClosed(EMPTY, ops);
    assert NotClosed(Run(EMPTY, ops), n);
    hide Run, IsRun, Protocol, OnlyKnown;
  }

  /** That exception: a transport that closes before `open` goes on is pooled all the same. */
  lemma DeadClientIsPooled(n: Name, config: Config) returns (ops: seq<Op>)
    ensures IsRun(EMPTY, ops)
    ensures var p := Run(EMPTY, ops);
            n in p.conns && p.conns[n] in p.closed && p.conns[n] in p.early
  {
    hide Run, IsRun, Disconnected;
    RunOfNone(EMPTY);
    ops := [];
    ops := Then(ops, Install(n, config));
    ops := Then(ops, Connect(n, 0, false));
    ops := Then(ops, HandshakeSucceeds(0, 7));
    assert Holds(Run(EMPTY, ops), 0, 7);
    ops := Then(ops, TransportCloses(7));
    assert Keeps(Run(EMPTY, ops), 0);
    ops := Then(ops, OpenGoesOn(0));
  }

  /** A pooled connection of an installed server was opened with the configuration it has now. */
  lemma PooledIsCurrent(ops: seq<Op>, n: Name)
    requires IsRun(EMPTY, ops) && IsCleanRun(EMPTY, ops)
    requires n in Run(EMPTY, ops).configs && n in Run(EMPTY, ops).conns
    ensures
      var p := Run(EMPTY, ops);
      && p.conns[n] in p.objects
      && p.objects[p.conns[n]].config == p.configs[n] && p.objects[p.conns[n]].generation == Generation(p, n)
  {
    hide Run, IsRun, IsCleanRun, Accounted, Counted, ReadTogether;
    EmptyIsSound();
    RunKeepsSound(EMPTY, ops);
    RunKeepsUpToDate(EMPTY, ops);
    assert NameOk(Run(EMPTY, ops), n) && Current(Run(EMPTY, ops), n);
  }

  /** The counters of a connection are exact, also after it left the pool. */
  lemma CountersAreExact(ops: seq<Op>, client: ClientId)
    requires IsRun(EMPTY, ops) && client in Run(EMPTY, ops).objects
    ensures
      var p := Run(EMPTY, ops);
      && p.objects[client].inflight == |CallsOn(p.calls, client)|
      && p.objects[client].elicitors == ElicitingOn(p.calls, client)
  {
    hide Run, IsRun, Protocol, Accounted, CallsOn, ElicitingOn;
    EmptyIsSound();
    RunKeepsSound(EMPTY, ops);
    assert Counted(Run(EMPTY, ops), client);
  }

  /** The idle sweep and a finished probe close only connections that no call runs on. */
  lemma SweepSparesCalls(ops: seq<Op>, op: Op, call: CallId)
    requires IsRun(EMPTY, ops) && (op.Sweep? || op.ProbeEnds?) && call in Run(EMPTY, ops).calls
    ensures
      var p := Run(EMPTY, ops);
      && Step(p, op).calls == p.calls
      && (p.calls[call].client in Step(p, op).closed ==> p.calls[call].client in p.closed)
      && (forall n | n in p.conns && p.conns[n] == p.calls[call].client :: n in Step(p, op).conns)
  {
    hide Run, IsRun, Accounted, CallsOn, ElicitingOn;
    EmptyIsSound();
    RunKeepsSound(EMPTY, ops);
    var p := Run(EMPTY, ops);
    SweepSpares(p, op, call);
  }

  lemma SweepSpares(p: Pool, op: Op, call: CallId)
    requires Sound(p) && (op.Sweep? || op.ProbeEnds?) && call in p.calls
    ensures Step(p, op).calls == p.calls
    ensures p.calls[call].client in Step(p, op).closed ==> p.calls[call].client in p.closed
    ensures forall n | n in p.conns && p.conns[n] == p.calls[call].client :: n in Step(p, op).conns
  {
    hide Protocol, Accounted;
    var client := p.calls[call].client;
    assert Counted(p, client);
    assert call in CallsOn(p.calls, client);
    assert client in p.objects ==> p.objects[client].inflight > 0;
  }

  /** A pushed question goes to a caller exactly when its call is the only one on the pooled connection and can answer. */
  lemma PushReachesItsCall(ops: seq<Op>, n: Name, call: CallId)
    requires IsRun(EMPTY, ops)
    ensures
      var p := Run(EMPTY, ops);
      Route(p, n) == Some(call) <==>
        n in p.conns && CallsOn(p.calls, p.conns[n]) == {call} && p.calls[call].elicits
  {
    hide Run, IsRun;
    EmptyIsSound();
    RunKeepsSound(EMPTY, ops);
    RouteIsTheOnlyCall(Run(EMPTY, ops), n, call);
  }

  lemma RouteIsTheOnlyCall(p: Pool, n: Name, call: CallId)
    requires Sound(p)
    ensures Route(p, n) == Some(call) <==>
            n in p.conns && CallsOn(p.calls, p.conns[n]) == {call} && p.calls[call].elicits
  {
    hide Accounted;
    assert NameOk(p, n);
    if n in p.conns {
      assert Counted(p, p.conns[n]);
      OnlyCall(p.calls, p.conns[n], call);
    }
  }

  lemma OnlyCall(calls: map<CallId, Call>, client: ClientId, call: CallId)
    ensures |CallsOn(calls, client)| == 1 && ElicitingOn(calls, client) == {call} <==>
            CallsOn(calls, client) == {call} && calls[call].elicits
  {
    if |CallsOn(calls, client)| == 1 && ElicitingOn(calls, client) == {call} {
      assert call in ElicitingOn(calls, client);
      OneElement(CallsOn(calls, client));
    }
    if CallsOn(calls, client) == {call} && calls[call].elicits {
      forall c | c in ElicitingOn(calls, client) ensures c == call {
        assert c in CallsOn(calls, client);
      }
      assert call in CallsOn(calls, client);
    }
  }

  /** A server installed again while an older open still runs gets a connection with the old configuration. */
  lemma ReinstallKeepsOldConfig(n: Name, before: Config, after: Config) returns (ops: seq<Op>)
    requires before != after
    ensures IsRun(EMPTY, ops)
    ensures
      var p := Run(EMPTY, ops);
      n in p.configs && n in p.conns && p.conns[n] in p.objects
      && p.configs[n] == after && p.objects[p.conns[n]].config == before
  {
    hide Run, IsRun, Disconnected;
    RunOfNone(EMPTY);
    ops := [];
    ops := Then(ops, Install(n, before));
    ops := Then(ops, Connect(n, 0, false));
    ops := Then(ops, Remove(n));
    ops := Then(ops, Install(n, after));
    ops := Then(ops, HandshakeSucceeds(0, 7));
    assert Keeps(Run(EMPTY, ops), 0);
    ops := Then(ops, OpenGoesOn(0));
  }

  /** A configuration set while an open shakes hands: its client is closed, and the open starts over with the new configuration. */
  lemma ReconfiguredOpenStartsOver(n: Name, before: Config, after: Config) returns (ops: seq<Op>)
    ensures IsRun(EMPTY, ops)
    ensures
      var p := Run(EMPTY, ops);
      && n !in p.conns && 7 in p.closed && n in p.configs && p.configs[n] == after
      && p.opens == map[0 := Opening(n, Handshaking(1, after, false))]
  {
    hide Run, IsRun;
    RunOfNone(EMPTY);
    ops := [];
    ops := Then(ops, Install(n, before));
    ops := Then(ops, Connect(n, 0, false));
    ops := Then(ops, Reconfigure(n, after));
    ops := Then(ops, HandshakeSucceeds(0, 7));
    ops := Then(ops, OpenGoesOn(0));
    ops := Then(ops, OpenStartsOver(0, false));
  }

  /** An open from start to end. */
  lemma OpenOne(ops: seq<Op>, n: Name, id: OpenId, client: ClientId) returns (more: seq<Op>)
    requires IsRun(EMPTY, ops)
    requires var p := Run(EMPTY, ops);
             n in p.configs && n !in p.conns && n !in p.pending && id !in p.opens && client !in p.clients
    ensures IsRun(EMPTY, more)
    ensures
      var p, q := Run(EMPTY, ops), Run(EMPTY, more);
      && q == p.(conns := q.conns, objects := q.objects, clients := q.clients)
      && q.conns == p.conns[n := client] && q.clients == p.clients + {client}
      && q.objects == p.objects[client := Conn(n, p.configs[n], Generation(p, n), 0, {})]
  {
    hide Run, IsRun;
    more := Then(ops, Connect(n, id, false));
    more := Then(more, HandshakeSucceeds(id, client));
    assert Keeps(Run(EMPTY, more), id);
    more := Then(more, OpenGoesOn(id));
    more := Then(more, Settle(id));
    var p, q := Run(EMPTY, ops), Run(EMPTY, more);
    assert q.pending == p.pending && q.opens == p.opens;
  }

  /** So does one that is installed over a connection left behind, when every open is long over. */
  lemma LeftoverConnectionIsKept(n: Name, before: Config, after: Config) returns (ops: seq<Op>)
    requires before != after
    ensures IsRun(EMPTY, ops)
    ensures
      var p := Run(EMPTY, ops);
      n in p.configs && n in p.conns && p.conns[n] in p.objects && p.pending == map[] && p.opens == map[]
      && p.configs[n] == after && p.objects[p.conns[n]].config == before
  {
    hide Run, IsRun;
    RunOfNone(EMPTY);
    ops := [];
    ops := Then(ops, Install(n, before));
    ops := Then(ops, Disconnect(n));
    ops := OpenOne(ops, n, 0, 7);
    ops := Then(ops, Remove(n));
    ops := Then(ops, Install(n, after));
  }

  /** A question pushed by a client goes to a call of that client exactly if the client is the pooled one. */
  lemma PushOfAnotherClient(ops: seq<Op>, n: Name, client: ClientId, call: CallId)
    requires IsRun(EMPTY, ops) && Route(Run(EMPTY, ops), n) == Some(call)
    ensures
      var p := Run(EMPTY, ops);
      call in p.calls && n in p.conns && (p.calls[call].client == client <==> p.conns[n] == client)
  {
    hide Run, IsRun;
    PushReachesItsCall(ops, n, call);
    var p := Run(EMPTY, ops);
    assert call in CallsOn(p.calls, p.conns[n]);
  }

  /** A client that is being closed pushes once more: the question reaches a call on its successor. */
  lemma LatePushReachesTheSuccessor(n: Name, config: Config, call: CallId) returns (ops: seq<Op>)
    ensures IsRun(EMPTY, ops)
    ensures
      var p := Run(EMPTY, ops);
      && Route(p, n) == Some(call) && call in p.calls && p.calls[call].client == 2
      && 1 in p.objects && p.objects[1].name == n && n in p.conns && p.conns[n] != 1
  {
    hide Run, IsRun;
    RunOfNone(EMPTY);
    ops := [];
    ops := Then(ops, Install(n, config));
    ops := OpenOne(ops, n, 0, 1);
    ops := Then(ops, Disconnect(n));
    assert n !in Run(EMPTY, ops).conns;
    ops := OpenOne(ops, n, 0, 2);
    ops := Then(ops, CallStarts(n, call, true));
    PushReachesItsCall(ops, n, call);
    assert Run(EMPTY, ops).calls == map[call := Call(2, true)];
    assert CallsOn(Run(EMPTY, ops).calls, 2) == {call};
  }

  lemma RunOfNone(p: Pool)
    ensures IsRun(p, []) && Run(p, []) == p
  {
  }

  lemma Then(ops: seq<Op>, op: Op) returns (more: seq<Op>)
    requires IsRun(EMPTY, ops) && May(Run(EMPTY, ops), op)
    ensures more == ops + [op] && IsRun(EMPTY, more) && Run(EMPTY, more) == Step(Run(EMPTY, ops), op)
  {
    more := ops + [op];
    RunThen(EMPTY, ops, op);
  }

  lemma {:induction false} RunThen(p: Pool, ops: seq<Op>, op: Op)
    requires IsRun(p, ops) && May(Run(p, ops), op)
    ensures IsRun(p, ops + [op]) && Run(p, ops + [op]) == Step(Run(p, ops), op)
    decreases ops
  {
    hide May, Step;
    if ops == [] {
      assert [] + [op] == [op] && [op][1..] == [];
    } else {
      RunThen(Step(p, ops[0]), ops[1..], op);
      assert (ops + [op])[0] == ops[0] && (ops + [op])[1..] == ops[1..] + [op];
    }
  }

  // ---- The pool ----

  class Connection {
    const client: ClientId
    const name: Name
    const config: Config
    ghost const generation: nat
    var inflight: int
    var elicitors: set<CallId>

    constructor (client: ClientId, name: Name, config: Config, ghost generation: nat)
      ensures this.client == client && Value() == Conn(name, config, generation, 0, {})
    {
      this.client, this.name, this.config, this.generation := client, name, config, generation;
      inflight, elicitors := 0, {};
    }

    ghost function Value(): Conn
      reads this
    {
      Conn(name, config, generation, inflight, elicitors)
    }

    method Enter(call: CallId, elicits: bool)
      modifies this
      ensures Value() == Entered(old(Value()), call, elicits)
    {
      inflight := inflight + 1;
      if elicits {
        elicitors := elicitors + {call};
      }
    }

    method Leave(call: CallId, elicits: bool)
      modifies this
      ensures Value() == Left(old(Value()), call, elicits)
    {
      if elicits {
        elicitors := elicitors - {call};
      }
      inflight := inflight - 1;
    }
  }

  // The three maps of objects, as maps of values.

  ghost function ClientsOf(conns: map<Name, Connection>): map<Name, ClientId> {
    map n | n in conns :: conns[n].client
  }

  ghost function CallsOf(calls: map<CallId, (Connection, bool)>): map<CallId, Call> {
    map c | c in calls :: Call(calls[c].0.client, calls[c].1)
  }

  ghost function ValuesOf(objects: map<ClientId, Connection>): map<ClientId, Conn>
    reads objects.Values
  {
    map k | k in objects :: objects[k].Value()
  }

  lemma ClientsWith(conns: map<Name, Connection>, n: Name, conn: Connection)
    ensures ClientsOf(conns[n := conn]) == ClientsOf(conns)[n := conn.client]
    ensures ClientsOf(conns - {n}) == ClientsOf(conns) - {n}
  {
  }

  lemma ClientsAre(conns: map<Name, Connection>)
    ensures ClientsOf(conns).Keys == conns.Keys
    ensures forall n | n in conns :: ClientsOf(conns)[n] == conns[n].client
  {
  }

  lemma CallsAre(calls: map<CallId, (Connection, bool)>)
    ensures CallsOf(calls).Keys == calls.Keys
    ensures forall c | c in calls :: CallsOf(calls)[c] == Call(calls[c].0.client, calls[c].1)
  {
  }

  lemma ValuesAre(objects: map<ClientId, Connection>)
    ensures ValuesOf(objects).Keys == objects.Keys
    ensures forall k | k in objects :: ValuesOf(objects)[k] == objects[k].Value()
  {
  }

  lemma ObjectsWith(objects: map<ClientId, Connection>, k: ClientId, conn: Connection)
    ensures ValuesOf(objects[k := conn]) == ValuesOf(objects)[k := conn.Value()]
  {
  }

  lemma CallsOfWith(calls: map<CallId, (Connection, bool)>, call: CallId, conn: Connection, elicits: bool)
    ensures CallsOf(calls[call := (conn, elicits)]) == CallsOf(calls)[call := Call(conn.client, elicits)]
    ensures CallsOf(calls - {call}) == CallsOf(calls) - {call}
  {
  }

  /** Each object is filed under the client it holds; pooled connections and those held by calls are filed ones. */
  ghost predicate Filed(
      objects: map<ClientId, Connection>, conns: map<Name, Connection>, calls: map<CallId, (Connection, bool)>) {
    && (forall k | k in objects :: objects[k].client == k)
    && (forall n | n in conns :: Lookup(objects, conns[n].client) == Some(conns[n]))
    && (forall c | c in calls :: Lookup(objects, calls[c].0.client) == Some(calls[c].0))
  }

  lemma FiledFacts(
      objects: map<ClientId, Connection>, conns: map<Name, Connection>, calls: map<CallId, (Connection, bool)>)
    requires Filed(objects, conns, calls)
    ensures forall k | k in objects :: objects[k].client == k
    ensures forall n | n in conns :: conns[n].client in objects && objects[conns[n].client] == conns[n]
    ensures forall c | c in calls :: calls[c].0.client in objects && objects[calls[c].0.client] == calls[c].0
  {
    forall n | n in conns ensures conns[n].client in objects && objects[conns[n].client] == conns[n] {
      assert Lookup(objects, conns[n].client) == Some(conns[n]);
    }
    forall c | c in calls ensures calls[c].0.client in objects && objects[calls[c].0.client] == calls[c].0 {
      assert Lookup(objects, calls[c].0.client) == Some(calls[c].0);
    }
  }

  lemma NewIsFiled(
      objects: map<ClientId, Connection>, conns: map<Name, Connection>, calls: map<CallId, (Connection, bool)>,
      n: Name, conn: Connection)
    requires Filed(objects, conns, calls) && conn.client !in objects
    ensures Filed(objects[conn.client := conn], conns[n := conn], calls)
  {
    FiledFacts(objects, conns, calls);
  }

  lemma ChangesAreFiled(
      objects: map<ClientId, Connection>, conns: map<Name, Connection>, calls: map<CallId, (Connection, bool)>,
      n: Name, call: CallId, conn: Connection, elicits: bool)
    requires Filed(objects, conns, calls)
    ensures Filed(objects, conns - {n}, calls) && Filed(objects, conns, calls - {call})
    ensures conn.client in objects && objects[conn.client] == conn ==>
            Filed(objects, conns, calls[call := (conn, elicits)])
  {
  }

  class ConnectionPool {
    var configs: map<Name, Config>
    var generations: map<Name, nat>
    var conns: map<Name, Connection>
    var pending: map<Name, OpenId>
    /** The local variables of the running activations of `open`. */
    var opens: map<OpenId, Opening>
    /** The running calls, each with the connection object it holds. */
    var calls: map<CallId, (Connection, bool)>
    /** Every connection object made, pooled or not. */
    ghost var objects: map<ClientId, Connection>
    ghost var clients: set<ClientId>
    ghost var closed: set<ClientId>
    ghost var early: set<ClientId>

    ghost function State(): Pool
      reads this, objects.Values
    {
      Pool(configs, generations, ClientsOf(conns), pending, opens, ValuesOf(objects), clients, closed, early, CallsOf(calls))
    }

    ghost predicate Linked()
      reads this
    {
      Filed(objects, conns, calls)
    }

    constructor ()
      ensures Linked() && State() == EMPTY
    {
      configs, generations, conns, pending, opens := map[], map[], map[], map[], map[];
      objects, calls, clients, closed, early := map[], map[], {}, {}, {};
    }

    /** Reuses the pooled connection, joins the pending open, or starts one. */
    method Connect(name: Name, id: OpenId, refused: bool)
      requires Linked() && id !in opens
      modifies `opens, `pending
      ensures Linked() && State() == Step(old(State()), Op.Connect(name, id, refused))
    {
      hide ValuesOf, CallsOf, ClientsOf;
      ClientsAre(conns);
      if name !in conns && name !in pending {
        var phase := if refused || name !in configs then Done
                     else Handshaking(Lookup(generations, name).GetOr(0), configs[name], false);
        opens := opens[id := Opening(name, phase)];
        pending := pending[name := id];
      }
    }

    /** The rest of `open` once the handshake is done. */
    method GoOn(id: OpenId)
      requires Linked() && Protocol(State()) && id in opens && opens[id].phase.Connected?
      modifies this
      ensures Linked() && State() == GoneOn(old(State()), id)
    {
      hide Protocol, CallsOf, ClientsOf, ValuesOf, Filed;
      var open := opens[id];
      var client := open.phase.client;
      if Lookup(generations, open.name).GetOr(0) != open.phase.generation {
        closed := closed + {client};
        opens := opens[id := Opening(open.name, ClosingStale)];
      } else {
        var conn := new Connection(client, open.name, open.phase.config, open.phase.generation);
        NotYetFiled(id);
        ClientsWith(conns, open.name, conn);
        ObjectsWith(objects, client, conn);
        NewIsFiled(objects, conns, calls, open.name, conn);
        conns := conns[open.name := conn];
        objects := objects[client := conn];
        opens := opens[id := Opening(open.name, Done)];
      }
    }

    lemma NotYetFiled(id: OpenId)
      requires Protocol(State()) && id in opens && opens[id].phase.Connected?
      ensures opens[id].phase.client !in objects
    {
      ValuesAre(objects);
      assert OpenOk(State(), id);
    }

    method Disconnect(name: Name)
      requires Linked()
      modifies `generations, `conns, `closed
      ensures Linked() && State() == Disconnected(old(State()), name)
      ensures conns == old(conns) - {name}
    {
      hide CallsOf, ClientsOf, ValuesOf, Filed;
      ClientsAre(conns);
      generations := generations[name := Lookup(generations, name).GetOr(0) + 1];
      if name in conns {
        ClientsWith(conns, name, conns[name]);
        ChangesAreFiled(objects, conns, calls, name, 0, conns[name], false);
        closed := closed + {conns[name].client};
        conns := conns - {name};
      }
    }

    /** Disconnects what no call uses and nobody used lately; `stale` are the names the clock is over for. */
    method SweepIdle(stale: set<Name>) returns (ghost ops: seq<Op>)
      requires Linked()
      modifies `generations, `conns, `closed
      ensures Linked() && (forall i | 0 <= i < |ops| :: ops[i].Sweep?)
      ensures IsRun(old(State()), ops) && State() == Run(old(State()), ops)
      ensures forall n :: n in conns <==> n in old(conns) && (n in stale ==> old(conns)[n].inflight != 0)
    {
      hide Run, IsRun, Step, May, CallsOf, ClientsOf, ValuesOf, Filed, Disconnected;
      ghost var before := State();
      RunOfNone(before);
      ops := [];
      var todo := stale * conns.Keys;
      while todo != {}
        invariant Linked() && todo <= stale * conns.Keys
        invariant forall i | 0 <= i < |ops| :: ops[i].Sweep?
        invariant IsRun(before, ops) && State() == Run(before, ops)
        invariant forall n | n in conns :: n in old(conns) && conns[n] == old(conns)[n]
        invariant forall n | n in old(conns) ::
          n in conns <==> (n in stale && n !in todo ==> old(conns)[n].inflight != 0)
        decreases todo
      {
        var name :| name in todo;
        todo := todo - {name};
        SweepOne(name);
        RunThen(before, ops, Sweep(name));
        ops := ops + [Sweep(name)];
      }
    }

    method SweepOne(name: Name)
      requires Linked() && name in conns
      modifies `generations, `conns, `closed
      ensures Linked() && May(old(State()), Sweep(name)) && State() == Step(old(State()), Sweep(name))
      ensures conns == if old(conns)[name].inflight == 0 then old(conns) - {name} else old(conns)
    {
      IdleIs(name);
      hide CallsOf, ClientsOf, ValuesOf, Filed, Disconnected, Idle;
      if conns[name].inflight == 0 {
        Disconnect(name);
      }
    }

    lemma IdleIs(name: Name)
      requires Linked() && name in conns
      ensures Idle(State(), name) <==> conns[name].inflight == 0
    {
      ClientsAre(conns);
      FiledObject(conns[name]);
    }

    method Acquire(conn: Connection, call: CallId, elicits: bool)
      requires Linked() && conn in objects.Values
      modifies conn
      ensures ValuesOf(objects) == old(ValuesOf(objects))[conn.client := Entered(old(conn.Value()), call, elicits)]
    {
      FiledFacts(objects, conns, calls);
      hide Entered, Filed;
      conn.Enter(call, elicits);
    }

    method Release(conn: Connection, call: CallId, elicits: bool)
      requires Linked() && conn in objects.Values
      modifies conn
      ensures ValuesOf(objects) == old(ValuesOf(objects))[conn.client := Left(old(conn.Value()), call, elicits)]
    {
      FiledFacts(objects, conns, calls);
      hide Left, Filed;
      conn.Leave(call, elicits);
    }

    /** After its await of connect: the call takes whatever connection is pooled now, or fails. */
    method StartCall(name: Name, call: CallId, elicits: bool) returns (started: bool)
      requires Linked() && call !in calls
      modifies `calls, objects.Values
      ensures Linked() && (started <==> old(name in State().conns && State().conns[name] in State().objects))
      ensures State() == if started then CallStarted(old(State()), name, call, elicits) else old(State())
    {
      hide CallsOf, ClientsOf, ValuesOf, Entered, Filed;
      assert name in conns <==> name in ClientsOf(conns) by {
        ClientsAre(conns);
      }
      if name !in conns {
        return false;
      }
      var conn := conns[name];
      assert ClientsOf(conns)[name] == conn.client by {
        ClientsAre(conns);
      }
      FiledObject(conn);
      CallsOfWith(calls, call, conn, elicits);
      ChangesAreFiled(objects, conns, calls, name, call, conn, elicits);
      Acquire(conn, call, elicits);
      calls := calls[call := (conn, elicits)];
      return true;
    }

    /** Whatever happened to the pool meanwhile, the call gives back what it took, on its own connection object. */
    method EndCall(call: CallId)
      requires Linked() && call in calls
      modifies `calls, objects.Values
      ensures Linked() && old(call in State().calls && State().calls[call].client in State().objects)
      ensures State() == CallEnded(old(State()), call)
    {
      hide CallsOf, ClientsOf, ValuesOf, Left, Filed;
      var conn, elicits := calls[call].0, calls[call].1;
      assert call in CallsOf(calls) && CallsOf(calls)[call] == Call(conn.client, elicits) by {
        CallsAre(calls);
      }
      FiledObject(conn);
      CallsOfWith(calls, call, conn, elicits);
      ChangesAreFiled(objects, conns, calls, "", call, conn, elicits);
      Release(conn, call, elicits);
      calls := calls - {call};
    }

    lemma FiledObject(conn: Connection)
      requires Linked()
      requires (exists n :: n in conns && conns[n] == conn) || (exists c :: c in calls && calls[c].0 == conn)
      ensures conn.client in objects && objects[conn.client] == conn && conn in objects.Values
      ensures conn.client in ValuesOf(objects) && ValuesOf(objects)[conn.client] == conn.Value()
    {
      FiledFacts(objects, conns, calls);
    }
  }
}
