/**
 * The states of an installed server: indexed, pinned, quarantined, enabled.
 *
 * Code between two awaits is one step. A world is what the steps of all operations on all servers share:
 * the server rows, the pins, and what the tools-changed listeners could read when they last fired.
 */
module Lifecycle {
  import opened Common
  import opened JsText
  import ToolHash
  import opened Pins
  import HashSet

  type Name = Text

  /** Where the running index of a server is: no second one starts before it ends. */
  datatype Phase =
    | Idle
    | Probing
    /** The new rows are committed; `shape` says whether the diff was not empty. */
    | Saved(shape: bool, before: Before)
    /** The rows are compared with the pins; the verdict is not stored yet. */
    | Judged(drifted: bool, shape: bool, before: Before)

  /** History: the rows a commit replaced, and how often the listeners had fired until then. */
  datatype Before = Before(tools: seq<Row>, fired: nat)

  datatype Server = Server(
    enabled: bool,
    quarantined: bool,
    indexed: bool,
    tools: seq<Row>,
    phase: Phase,
    /** Enable calls waiting for the first index, each with the `enabled` it has read. */
    waiting: multiset<bool>)

  /** An uninstall that waits for the connection to close: its name, and the `enabled` it has read. */
  datatype Leaving = Leaving(name: Name, enabled: bool)

  /** A tool under the hash it was accepted with, at the first index or by an approval. */
  datatype Consent = Consent(server: Name, tool: Text, hash: Text)

  datatype World = World(
    servers: map<Name, Server>,
    pins: map<Name, Pinned>,
    /** Names uninstalled while an index or an enable was under way. */
    departed: set<Name>,
    leaving: multiset<Leaving>,
    /** How often the listeners fired, and what they could read the last time. */
    fired: nat,
    heard: map<Name, map<Text, Text>>,
    consents: set<Consent>)

  datatype Op =
    | Install(name: Name)
    | StartIndex(name: Name)
    | ProbeFails(name: Name)
    | Commit(name: Name, rows: seq<Row>, shape: bool)
    | Judge(name: Name)
    | FinishIndex(name: Name)
    | Enable(name: Name)
    | EnableResumes(name: Name, wasEnabled: bool)
    | EnableFails(name: Name, wasEnabled: bool)
    | Disable(name: Name)
    | Approve(name: Name, hashes: seq<Text>)
    | UninstallStarts(name: Name)
    | UninstallEnds(name: Name, enabled: bool)
    /** The last operation on a server uninstalled meanwhile has failed. */
    | StragglersEnd(name: Name)

  // ---- What clients see ----

  /** The tools native mode exposes for a server. */
  function Exposed(s: Server): map<Text, Text> {
    if s.enabled && !s.quarantined then Hashes(s.tools) else map[]
  }

  function Exposure(servers: map<Name, Server>): map<Name, map<Text, Text>> {
    map n | n in servers :: Exposed(servers[n])
  }

  function At(m: map<Name, map<Text, Text>>, n: Name): map<Text, Text> {
    if n in m then m[n] else map[]
  }

  /** The guards of a proxied call. */
  predicate Callable(s: Server, tool: Text) {
    !s.quarantined && (s.indexed ==> tool in Hashes(s.tools))
  }

  // ---- The steps ----

  const FRESH := Server(false, false, false, [], Idle, multiset{})

  const START := World(map[], map[], {}, multiset{}, 0, map[], {})

  /** Row hashes of a server, as an approval has to echo them. */
  function HashList(rows: seq<Row>): seq<Text> {
    seq(|rows|, i requires 0 <= i < |rows| => rows[i].hash)
  }

  function ConsentsTo(n: Name, pins: Pinned): set<Consent> {
    set t | t in pins :: Consent(n, t, pins[t])
  }

  function Fire(w: World, exposed: bool): (r: World)
    ensures r.servers == w.servers && r.pins == w.pins && r.departed == w.departed && r.leaving == w.leaving && r.consents == w.consents
    ensures exposed ==> r.heard == Exposure(r.servers) && r.fired > w.fired
  {
    if exposed then w.(fired := w.fired + 1, heard := Exposure(w.servers)) else w
  }

  function Put(w: World, n: Name, s: Server): World {
    w.(servers := w.servers[n := s])
  }

  function PinTools(w: World, n: Name): (r: World)
    requires n in w.servers
    ensures r.servers == w.servers && r.heard == w.heard && r.fired == w.fired
    ensures r.pins == w.pins[n := PinsOf(w.servers[n].tools)]
  {
    var rows := w.servers[n].tools;
    w.(pins := w.pins[n := PinsOf(rows)], consents := w.consents + ConsentsTo(n, PinsOf(rows)))
  }

  function Flag(w: World, n: Name, quarantined: bool): (r: World)
    requires n in w.servers
    ensures r.servers == w.servers[n := w.servers[n].(quarantined := quarantined)]
    ensures r.pins == w.pins && r.departed == w.departed && r.leaving == w.leaving && r.consents == w.consents
  {
    var s := w.servers[n];
    if s.quarantined == quarantined then w
    else Fire(Put(w, n, s.(quarantined := quarantined)), s.enabled)
  }

  function Switch(w: World, n: Name, enabled: bool): (r: World)
    requires n in w.servers
    ensures r.servers == w.servers[n := w.servers[n].(enabled := enabled)]
    ensures r.pins == w.pins && r.departed == w.departed && r.leaving == w.leaving && r.consents == w.consents
    ensures r.heard == Exposure(r.servers)
  {
    Fire(Put(w, n, w.servers[n].(enabled := enabled)), true)
  }

  /** An approval succeeds if it names the digest of the current hashes. */
  predicate Accepts(s: Server, hashes: seq<Text>) {
    HashSet.Digest(hashes) == HashSet.Digest(HashList(s.tools))
  }

  /** Comparing the rows with their pins fails, for an unpinned tool named like an inherited property. */
  predicate Throws(w: World, n: Name)
    requires n in w.servers
  {
    var rows := w.servers[n].tools;
    !NoneTrips(if n in w.pins then w.pins[n] else PinsOf(rows), rows)
  }

  /** When a step can happen: its operation has got that far. */
  ghost predicate May(w: World, op: Op) {
    if op.Install? then op.name !in w.servers && op.name !in w.departed
    else if op.StragglersEnd? then op.name in w.departed
    else if op.UninstallEnds? then Leaving(op.name, op.enabled) in w.leaving
    else
      && op.name in w.servers
      && var s := w.servers[op.name];
         match op
         case ProbeFails(_) => s.phase == Probing
         case Commit(_, rows, shape) =>
           && s.phase == Probing && DistinctNames(rows)
           && (!shape ==> Hashes(rows) == Hashes(s.tools))
         case Judge(_) => s.phase.Saved?
         case FinishIndex(_) => s.phase.Judged?
         case EnableResumes(_, was) => was in s.waiting && s.indexed
         case EnableFails(_, was) => was in s.waiting
         case _ => true
  }

  function Begin(s: Server): Server {
    if s.phase == Idle then s.(phase := Probing) else s
  }

  function Step(w: World, op: Op): World
    requires May(w, op)
  {
    if op.Install? then Put(w, op.name, FRESH)
    else if op.StragglersEnd? then w.(departed := w.departed - {op.name})
    else if op.UninstallEnds? then Uninstalled(w.(leaving := w.leaving - multiset{Leaving(op.name, op.enabled)}), op.name, op.enabled)
    else
      var n, s := op.name, w.servers[op.name];
      match op
      case StartIndex(_) => Put(w, n, Begin(s))
      case ProbeFails(_) => Put(w, n, s.(phase := Idle))
      case Commit(_, rows, shape) => Put(w, n, s.(tools := rows, phase := Saved(shape, Before(s.tools, w.fired))))
      case Judge(_) => Judged(w, n)
      case FinishIndex(_) => Finished(w, n)
      case Enable(_) =>
        if s.quarantined then w
        else if !s.indexed then Put(w, n, Begin(s.(waiting := s.waiting + multiset{s.enabled})))
        else if s.enabled then w
        else Switch(w, n, true)
      case EnableResumes(_, was) =>
        var resumed := Put(w, n, s.(waiting := s.waiting - multiset{was}));
        if was then resumed else Switch(resumed, n, true)
      case EnableFails(_, was) => Put(w, n, s.(waiting := s.waiting - multiset{was}))
      case Disable(_) => if s.enabled then Switch(w, n, false) else w
      case Approve(_, hashes) =>
        if !Accepts(s, hashes) then w
        else Flag(PinTools(w, n), n, false)
      case UninstallStarts(_) => w.(leaving := w.leaving + multiset{Leaving(n, s.enabled)})
  }

  /** After the commit: mark indexed, pin what was never pinned, compare. If that throws, the index ends here. */
  function Judged(w: World, n: Name): World
    requires n in w.servers && w.servers[n].phase.Saved?
  {
    var s := w.servers[n];
    var pinned := if n in w.pins then w else PinTools(w, n);
    var phase := if Throws(w, n) then Idle else Phase.Judged(pinned.pins[n] != Hashes(s.tools), s.phase.shape, s.phase.before);
    Put(pinned, n, s.(indexed := true, phase := phase))
  }

  function Finished(w: World, n: Name): World
    requires n in w.servers && w.servers[n].phase.Judged?
  {
    var s := w.servers[n];
    var stored := Flag(Put(w, n, s.(phase := Idle)), n, s.phase.drifted);
    Fire(stored, s.enabled && s.phase.shape)
  }

  /** Whatever server has the name is removed; if none has it any more, the uninstall fails. */
  function Uninstalled(w: World, n: Name, enabled: bool): World {
    if n !in w.servers then w
    else
      var s := w.servers[n];
      var busy := s.phase != Idle || s.waiting != multiset{};
      Fire(w.(servers := w.servers - {n}, pins := w.pins - {n},
                 departed := if busy then w.departed + {n} else w.departed,
                 consents := set c | c in w.consents && c.server != n),
              enabled)
  }

  ghost predicate IsRun(w: World, ops: seq<Op>)
    decreases ops
  {
    ops == [] || (May(w, ops[0]) && IsRun(Step(w, ops[0]), ops[1..]))
  }

  function Run(w: World, ops: seq<Op>): World
    requires IsRun(w, ops)
    decreases ops
  {
    if ops == [] then w else Run(Step(w, ops[0]), ops[1..])
  }

  // ---- What every step keeps ----

  /** The rows may have changed and the quarantine flag does not say so yet. */
  predicate InWindow(s: Server) {
    s.phase.Saved? || (s.phase.Judged? && s.phase.drifted)
  }

  ghost predicate Consented(consents: set<Consent>, n: Name, hashes: map<Text, Text>) {
    forall t | t in hashes :: Consent(n, t, hashes[t]) in consents
  }

  /** What holds of every server in every run. */
  ghost predicate Sound(w: World, n: Name) {
    && (n in w.servers ==> SoundServer(w.servers[n], Lookup(w.pins, n)))
    && (n in w.pins ==> n in w.servers && Consented(w.consents, n, w.pins[n]) && ToolHash.PROTO !in w.pins[n])
  }

  ghost predicate SoundServer(s: Server, pins: Option<Pinned>) {
    && DistinctNames(s.tools)
    && (s.indexed ==> pins.Some?)
    && (!s.indexed ==> !s.enabled && !s.phase.Judged?)
    && (s.phase.Judged? ==>
          && pins.Some? && ToolHash.PROTO !in Hashes(s.tools)
          && (!s.phase.drifted ==> pins.value == Hashes(s.tools)))
  }

  /** Outside the window, a pinned server that is not quarantined has exactly the pinned tools. */
  ghost predicate PinnedAtRest(w: World, n: Name) {
    n in w.servers && n in w.pins && !InWindow(w.servers[n]) && !w.servers[n].quarantined ==>
      w.pins[n] == Hashes(w.servers[n].tools)
  }

  /**
   A comparison fails only for a server in quarantine, and an approval outside the window is not of a tool
   called `__proto__`, which no pin can hold.
   */
  ghost predicate Safe(w: World, op: Op)
    requires May(w, op)
  {
    && (op.Judge? && Throws(w, op.name) ==> w.servers[op.name].quarantined)
    && (op.Approve? && Accepts(w.servers[op.name], op.hashes) && !InWindow(w.servers[op.name]) ==>
          ToolHash.PROTO !in Hashes(w.servers[op.name].tools))
  }

  /** A running index of an enabled server will still fire the listeners. */
  predicate Announcing(s: Server) {
    s.enabled && (s.phase.Saved? || s.phase.Judged?) && s.phase.shape
  }

  /** What the listeners could read of a server when they last fired: its rows of now, or those before a commit since. */
  function Shown(s: Server, fired: nat): map<Text, Text> {
    if (s.phase.Saved? || s.phase.Judged?) && s.phase.before.fired == fired then Exposed(s.(tools := s.phase.before.tools))
    else Exposed(s)
  }

  /** The history of a commit is of the past, and an empty diff means the same hashes. */
  ghost predicate Dated(s: Server, fired: nat) {
    s.phase.Saved? || s.phase.Judged? ==>
      && s.phase.before.fired <= fired
      && (!s.phase.shape ==> Hashes(s.phase.before.tools) == Hashes(s.tools))
  }

  function ShownAt(w: World, n: Name): map<Text, Text> {
    if n in w.servers then Shown(w.servers[n], w.fired) else map[]
  }

  ghost predicate UpToDate(w: World, n: Name) {
    && At(w.heard, n) == ShownAt(w, n)
    && (n in w.servers ==> Dated(w.servers[n], w.fired))
  }

  ghost predicate Untouched(w: World, v: World, n: Name) {
    && Lookup(v.servers, n) == Lookup(w.servers, n)
    && Lookup(v.pins, n) == Lookup(w.pins, n)
    && forall c: Consent | c.server == n :: c in v.consents <==> c in w.consents
  }

  lemma IndexEndTouches(w: World, m: Name, n: Name)
    requires m in w.servers && n != m
    ensures w.servers[m].phase.Saved? ==> Untouched(w, Judged(w, m), n)
    ensures w.servers[m].phase.Judged? ==> Untouched(w, Finished(w, m), n)
  {
    hide Hashes, PinsOf, Exposure, NoneTrips;
  }

  lemma ApprovalTouches(w: World, m: Name, n: Name)
    requires m in w.servers && n != m
    ensures Untouched(w, Flag(PinTools(w, m), m, false), n)
  {
    hide Hashes, PinsOf, Exposure;
  }

  lemma UninstallTouches(w: World, m: Name, enabled: bool, n: Name)
    requires n != m
    ensures Untouched(w, Uninstalled(w, m, enabled), n)
  {
    hide Hashes, Exposure;
  }

  lemma OthersKept(w: World, op: Op, n: Name)
    requires May(w, op) && n != op.name
    ensures Untouched(w, Step(w, op), n)
  {
    hide Hashes, PinsOf, DistinctNames, Exposure, Fire, Flag, Switch, NoneTrips, Accepts, Judged, Finished, PinTools, Uninstalled;
    match op
    case Judge(m) => IndexEndTouches(w, m, n);
    case FinishIndex(m) => IndexEndTouches(w, m, n);
    case Approve(m, _) => ApprovalTouches(w, m, n);
    case UninstallEnds(m, enabled) => UninstallTouches(w.(leaving := w.leaving - multiset{Leaving(m, enabled)}), m, enabled, n);
    case _ =>
  }

  lemma PinIsSound(w: World, n: Name)
    requires Sound(w, n) && n in w.servers
    ensures Sound(PinTools(w, n), n)
    ensures ToolHash.PROTO !in Hashes(w.servers[n].tools) <==> PinTools(w, n).pins[n] == Hashes(w.servers[n].tools)
  {
    hide Hashes, DistinctNames;
  }

  lemma FlagIsSound(w: World, n: Name, quarantined: bool)
    requires Sound(w, n) && n in w.servers
    ensures Sound(Flag(w, n, quarantined), n)
  {
    hide Hashes, DistinctNames, Exposure, Consented, Flag;
  }

  lemma JudgedIsSound(w: World, n: Name)
    requires Sound(w, n) && n in w.servers && w.servers[n].phase.Saved?
    ensures Sound(Judged(w, n), n)
  {
    hide Hashes, DistinctNames, PinTools, Consented, NoneTrips;
    PinIsSound(w, n);
    var pinned := if n in w.pins then w else PinTools(w, n);
    if ToolHash.PROTO in Hashes(w.servers[n].tools) {
      ProtoTrips(pinned.pins[n], w.servers[n].tools);
    }
  }

  /** What the end of an index leaves, and what it sets off. */
  lemma FinishedServers(w: World, n: Name)
    requires n in w.servers && w.servers[n].phase.Judged?
    ensures var s := w.servers[n];
            Finished(w, n).servers == w.servers[n := s.(phase := Idle, quarantined := s.phase.drifted)]
  {
    hide Exposure;
  }

  lemma FinishedIsSound(w: World, n: Name)
    requires Sound(w, n) && n in w.servers && w.servers[n].phase.Judged?
    ensures Sound(Finished(w, n), n)
  {
    hide Hashes, DistinctNames, Exposure, Consented;
  }

  lemma IndexStepIsSound(w: World, op: Op)
    requires May(w, op) && Sound(w, op.name)
    requires op.Commit? || op.Judge? || op.FinishIndex? || op.Approve?
    ensures Sound(Step(w, op), op.name)
  {
    hide Hashes, DistinctNames, Judged, Finished, PinTools, Flag;
    match op
    case Judge(n) => JudgedIsSound(w, n);
    case FinishIndex(n) => FinishedIsSound(w, n);
    case Approve(n, _) =>
      PinIsSound(w, n);
      FlagIsSound(PinTools(w, n), n, false);
    case _ =>
  }

  lemma OtherStepIsSound(w: World, op: Op)
    requires May(w, op) && Sound(w, op.name)
    requires !(op.Commit? || op.Judge? || op.FinishIndex? || op.Approve?)
    ensures Sound(Step(w, op), op.name)
  {
    hide Hashes, Exposure, Consented;
  }

  lemma StepKeepsSound(w: World, op: Op, n: Name)
    requires May(w, op) && Sound(w, n)
    ensures Sound(Step(w, op), n)
  {
    hide Step, May, SoundServer;
    if n != op.name {
      OthersKept(w, op, n);
    } else if op.Commit? || op.Judge? || op.FinishIndex? || op.Approve? {
      IndexStepIsSound(w, op);
    } else {
      OtherStepIsSound(w, op);
    }
  }

  // ---- Which steps keep the tools pinned ----

  lemma JudgedIsPinned(w: World, n: Name)
    requires Sound(w, n) && n in w.servers && w.servers[n].phase.Saved?
    ensures PinnedAtRest(Judged(w, n), n) <==> (Throws(w, n) ==> w.servers[n].quarantined)
  {
    hide Hashes, DistinctNames, PinTools, Consented, NoneTrips;
    PinIsSound(w, n);
    var pinned := if n in w.pins then w else PinTools(w, n);
    if Throws(w, n) {
      TrippingIsDrift(pinned.pins[n], w.servers[n].tools);
    }
  }

  lemma ApprovedIsPinned(w: World, n: Name)
    requires Sound(w, n) && n in w.servers
    ensures PinnedAtRest(Flag(PinTools(w, n), n, false), n) <==>
            InWindow(w.servers[n]) || ToolHash.PROTO !in Hashes(w.servers[n].tools)
  {
    PinIsSound(w, n);
    hide Hashes, Flag, PinTools;
  }

  lemma IndexStepIsPinned(w: World, op: Op)
    requires May(w, op) && Sound(w, op.name) && PinnedAtRest(w, op.name)
    requires op.Commit? || op.Judge? || op.FinishIndex? || op.Approve?
    ensures PinnedAtRest(Step(w, op), op.name) <==> Safe(w, op)
  {
    hide Hashes, Judged, Flag, PinTools, Exposure, HashSet.Digest;
    match op
    case Judge(n) => JudgedIsPinned(w, n);
    case Approve(n, _) => ApprovedIsPinned(w, n);
    case _ =>
  }

  lemma OtherStepIsPinned(w: World, op: Op)
    requires May(w, op) && Sound(w, op.name) && PinnedAtRest(w, op.name)
    requires !(op.Commit? || op.Judge? || op.FinishIndex? || op.Approve?)
    ensures PinnedAtRest(Step(w, op), op.name)
  {
    hide Hashes, Exposure, Switch, Consented;
  }

  /** A step leaves its server with the pinned tools, unless quarantined or in the window, if and only if it is safe. */
  lemma PinnedExactlyIfSafe(w: World, op: Op)
    requires May(w, op) && Sound(w, op.name) && PinnedAtRest(w, op.name)
    ensures PinnedAtRest(Step(w, op), op.name) <==> Safe(w, op)
  {
    hide Step, May, PinnedAtRest, Sound;
    if op.Commit? || op.Judge? || op.FinishIndex? || op.Approve? {
      IndexStepIsPinned(w, op);
    } else {
      OtherStepIsPinned(w, op);
    }
  }

  lemma StepKeepsPinned(w: World, op: Op, n: Name)
    requires May(w, op) && Sound(w, n) && PinnedAtRest(w, n) && (n == op.name ==> Safe(w, op))
    ensures PinnedAtRest(Step(w, op), n)
  {
    hide Step, May, Safe;
    if n == op.name {
      PinnedExactlyIfSafe(w, op);
    } else {
      OthersKept(w, op, n);
    }
  }

  lemma PinIsUpToDate(w: World, m: Name, n: Name)
    requires UpToDate(w, n) && m in w.servers
    ensures UpToDate(PinTools(w, m), n)
  {
    hide Hashes, PinsOf, ConsentsTo;
  }

  lemma FiredIsUpToDate(w: World, v: World, n: Name)
    requires v.heard == Exposure(v.servers) && v.fired > w.fired
    requires n in v.servers ==> Dated(v.servers[n], w.fired)
    ensures UpToDate(v, n)
  {
    hide Hashes;
  }

  /** A change that nobody sees needs no firing. */
  lemma QuietIsUpToDate(w: World, v: World, n: Name)
    requires UpToDate(w, n) && v.heard == w.heard && v.fired == w.fired && ShownAt(v, n) == ShownAt(w, n)
    requires n in v.servers ==> Dated(v.servers[n], v.fired)
    ensures UpToDate(v, n)
  {
  }

  lemma FlagIsUpToDate(w: World, m: Name, quarantined: bool, n: Name)
    requires UpToDate(w, n) && m in w.servers
    ensures UpToDate(Flag(w, m, quarantined), n)
  {
    var v := Flag(w, m, quarantined);
    hide Hashes;
    if v.fired > w.fired {
      FiredIsUpToDate(w, v, n);
    } else {
      QuietIsUpToDate(w, v, n);
    }
  }

  lemma JudgedIsUpToDate(w: World, m: Name, n: Name)
    requires UpToDate(w, n) && m in w.servers && w.servers[m].phase.Saved?
    ensures n != m || !Throws(w, m) ==> UpToDate(Judged(w, m), n)
    ensures n == m && Throws(w, m) ==> (UpToDate(Judged(w, m), n) <==> Shown(w.servers[m], w.fired) == Exposed(w.servers[m]))
  {
    hide Hashes, PinsOf, ConsentsTo, NoneTrips;
  }

  /** An index that ends without firing has changed nothing that is seen. */
  lemma EndIsQuiet(s: Server, fired: nat)
    requires s.phase.Judged? && Dated(s, fired) && !(s.enabled && s.phase.shape)
    ensures Shown(s, fired) == Exposed(s)
  {
    hide Hashes;
  }

  lemma FinishedIsUpToDate(w: World, m: Name, n: Name)
    requires UpToDate(w, n) && m in w.servers && w.servers[m].phase.Judged?
    ensures UpToDate(Finished(w, m), n)
  {
    var v := Finished(w, m);
    hide Hashes, Exposure;
    if v.fired > w.fired {
      assert n in v.servers ==> Dated(v.servers[n], w.fired);
      FiredIsUpToDate(w, v, n);
    } else {
      if n == m {
        EndIsQuiet(w.servers[m], w.fired);
      }
      QuietIsUpToDate(w, v, n);
    }
  }

  lemma UninstalledIsUpToDate(w: World, m: Name, enabled: bool, n: Name)
    requires UpToDate(w, n)
    ensures n != m || enabled ==> UpToDate(Uninstalled(w, m, enabled), n)
    ensures n == m && !enabled ==> (UpToDate(Uninstalled(w, m, enabled), n) <==> ShownAt(w, n) == map[])
  {
    var v := Uninstalled(w, m, enabled);
    hide Hashes, Shown;
    if v.fired > w.fired {
      FiredIsUpToDate(w, v, n);
    }
  }

  lemma IndexStepIsUpToDate(w: World, op: Op, n: Name)
    requires May(w, op) && UpToDate(w, n)
    requires op.Commit? || op.Judge? || op.FinishIndex? || op.Approve? || op.UninstallEnds?
    ensures n != op.name ==> UpToDate(Step(w, op), n)
    ensures n == op.name ==> (UpToDate(Step(w, op), n) <==> Heeded(w, op))
  {
    hide DistinctNames, Judged, Finished, Flag, Uninstalled, PinTools, NoneTrips;
    match op
    case Judge(m) =>
      JudgedIsUpToDate(w, m, n);
      hide UpToDate;
    case FinishIndex(m) =>
      FinishedIsUpToDate(w, m, n);
      hide UpToDate;
    case Approve(m, _) =>
      PinIsUpToDate(w, m, n);
      FlagIsUpToDate(PinTools(w, m), m, false, n);
      hide UpToDate, HashSet.Digest;
    case UninstallEnds(m, enabled) =>
      UninstalledIsUpToDate(w.(leaving := w.leaving - multiset{Leaving(m, enabled)}), m, enabled, n);
      hide Hashes;
    case Commit(m, rows, shape) =>
      QuietIsUpToDate(w, Step(w, op), n);
  }

  lemma SwitchIsUpToDate(w: World, m: Name, enabled: bool, n: Name)
    requires UpToDate(w, n) && m in w.servers
    ensures UpToDate(Switch(w, m, enabled), n)
  {
    FiredIsUpToDate(w, Switch(w, m, enabled), n);
    hide Hashes, Exposure;
  }

  lemma QuietPutIsUpToDate(w: World, m: Name, s: Server, n: Name)
    requires UpToDate(w, n) && Shown(s, w.fired) == ShownAt(w, m)
    requires Dated(s, w.fired)
    ensures UpToDate(Put(w, m, s), n)
  {
    hide Shown, Dated;
  }

  lemma ResumedIsUpToDate(w: World, op: Op, n: Name)
    requires May(w, op) && UpToDate(w, n) && UpToDate(w, op.name) && (op.EnableResumes? || op.EnableFails?)
    ensures UpToDate(Step(w, op), n)
  {
    var s := w.servers[op.name];
    var resumed := s.(waiting := s.waiting - multiset{op.wasEnabled});
    QuietPutIsUpToDate(w, op.name, resumed, n);
    SwitchIsUpToDate(Put(w, op.name, resumed), op.name, true, n);
    hide Hashes, UpToDate, Switch;
  }

  lemma OtherStepIsUpToDate(w: World, op: Op, n: Name)
    requires May(w, op) && UpToDate(w, n)
    requires !(op.Commit? || op.Judge? || op.FinishIndex? || op.Approve? || op.UninstallEnds?)
    ensures UpToDate(Step(w, op), n)
  {
    hide Hashes, DistinctNames, Switch;
    if n != op.name {
      OtherServerStaysUpToDate(w, op, n);
    } else {
      match op
      case Install(m) => QuietPutIsUpToDate(w, m, FRESH, n);
      case StragglersEnd(_) => QuietIsUpToDate(w, Step(w, op), n);
      case UninstallStarts(_) => QuietIsUpToDate(w, Step(w, op), n);
      case StartIndex(m) => QuietPutIsUpToDate(w, m, Begin(w.servers[m]), n);
      case ProbeFails(m) => QuietPutIsUpToDate(w, m, w.servers[m].(phase := Idle), n);
      case Enable(m) =>
        var s := w.servers[m];
        QuietPutIsUpToDate(w, m, Begin(s.(waiting := s.waiting + multiset{s.enabled})), n);
        SwitchIsUpToDate(w, m, true, n);
      case Disable(m) => SwitchIsUpToDate(w, m, false, n);
      case _ => ResumedIsUpToDate(w, op, n);
      hide UpToDate;
    }
  }

  /** What other servers are to the listeners: either they have not fired, or they were shown everything. */
  lemma OtherServerStaysUpToDate(w: World, op: Op, n: Name)
    requires May(w, op) && UpToDate(w, n) && n != op.name
    ensures UpToDate(Step(w, op), n)
  {
    var v := Step(w, op);
    OthersKept(w, op, n);
    FiringShowsAll(w, op);
    hide Step, May, Hashes;
    if v.fired > w.fired {
      FiredIsUpToDate(w, v, n);
    } else {
      QuietIsUpToDate(w, v, n);
    }
  }

  /** Either the listeners have not fired from `w` to `v`, or they were shown all of `v`. */
  ghost predicate ShowsAll(w: World, v: World) {
    if v.fired == w.fired then v.heard == w.heard else v.fired > w.fired && v.heard == Exposure(v.servers)
  }

  lemma IndexEndShowsAll(w: World, n: Name)
    requires n in w.servers
    ensures w.servers[n].phase.Saved? ==> ShowsAll(w, Judged(w, n))
    ensures w.servers[n].phase.Judged? ==> ShowsAll(w, Finished(w, n))
  {
    hide Hashes, PinsOf, Exposure, ConsentsTo, NoneTrips, PinTools;
  }

  lemma ApprovalShowsAll(w: World, n: Name)
    requires n in w.servers
    ensures ShowsAll(w, Flag(PinTools(w, n), n, false))
  {
    hide Hashes, PinsOf, Exposure, ConsentsTo, PinTools;
  }

  lemma FiringShowsAll(w: World, op: Op)
    requires May(w, op)
    ensures ShowsAll(w, Step(w, op))
  {
    hide Hashes, PinsOf, Exposure, ConsentsTo, NoneTrips, HashSet.Digest, DistinctNames, HashList, Judged, Finished, Flag, PinTools;
    match op
    case Judge(n) => IndexEndShowsAll(w, n);
    case FinishIndex(n) => IndexEndShowsAll(w, n);
    case Approve(n, _) => ApprovalShowsAll(w, n);
    case _ =>
  }

  /** The listeners are up to date about the server of a step if and only if the step is heeded. */
  lemma UpToDateExactlyIfHeeded(w: World, op: Op, n: Name)
    requires May(w, op) && UpToDate(w, n)
    ensures n != op.name ==> UpToDate(Step(w, op), n)
    ensures n == op.name ==> (UpToDate(Step(w, op), n) <==> Heeded(w, op))
  {
    hide Step, May, UpToDate;
    if op.Commit? || op.Judge? || op.FinishIndex? || op.Approve? || op.UninstallEnds? {
      IndexStepIsUpToDate(w, op, n);
    } else {
      OtherStepIsUpToDate(w, op, n);
    }
  }

  /**
   Two steps announce nothing. A comparison may fail only if the listeners have fired since the commit, or the commit
   has not changed what is exposed. An uninstall that has read `enabled` as false may only take away what the
   listeners were not shown: the rows on show when they last fired, or those before a commit since.
   */
  ghost predicate Heeded(w: World, op: Op)
    requires May(w, op)
  {
    && (op.Judge? && Throws(w, op.name) ==>
          var s := w.servers[op.name];
          w.fired != s.phase.before.fired || Exposed(s.(tools := s.phase.before.tools)) == Exposed(s))
    && (op.UninstallEnds? && !op.enabled && op.name in w.servers ==> Shown(w.servers[op.name], w.fired) == map[])
  }

  ghost predicate IsHeededRun(w: World, ops: seq<Op>)
    requires IsRun(w, ops)
    decreases ops
  {
    ops == [] || (Heeded(w, ops[0]) && IsHeededRun(Step(w, ops[0]), ops[1..]))
  }

  lemma {:induction false} RunKeepsSound(w: World, ops: seq<Op>, n: Name)
    requires IsRun(w, ops) && Sound(w, n)
    ensures Sound(Run(w, ops), n)
    decreases ops
  {
    hide Sound, Step, May;
    if ops != [] {
      StepKeepsSound(w, ops[0], n);
      RunKeepsSound(Step(w, ops[0]), ops[1..], n);
    }
  }

  lemma {:induction false} RunKeepsUpToDate(w: World, ops: seq<Op>, n: Name)
    requires IsRun(w, ops) && IsHeededRun(w, ops) && UpToDate(w, n)
    ensures UpToDate(Run(w, ops), n)
    decreases ops
  {
    hide UpToDate, Step, May, Heeded;
    if ops != [] {
      UpToDateExactlyIfHeeded(w, ops[0], n);
      RunKeepsUpToDate(Step(w, ops[0]), ops[1..], n);
    }
  }

  ghost predicate AllUpToDate(w: World) {
    forall n :: UpToDate(w, n)
  }

  lemma AllUpToDateExactlyIfHeeded(w: World, op: Op)
    requires May(w, op) && AllUpToDate(w)
    ensures AllUpToDate(Step(w, op)) <==> Heeded(w, op)
  {
    hide Step, May, UpToDate, Heeded;
    UpToDateExactlyIfHeeded(w, op, op.name);
    if Heeded(w, op) {
      forall n ensures UpToDate(Step(w, op), n) {
        UpToDateExactlyIfHeeded(w, op, n);
      }
    }
  }

  ghost predicate UpToDateThroughout(w: World, ops: seq<Op>)
    requires IsRun(w, ops)
    decreases ops
  {
    AllUpToDate(w) && (ops == [] || UpToDateThroughout(Step(w, ops[0]), ops[1..]))
  }

  /** The listeners are up to date in every world of a run if and only if every step is heeded. */
  lemma {:induction false} UpToDateExactlyInHeededRuns(w: World, ops: seq<Op>)
    requires IsRun(w, ops) && AllUpToDate(w)
    ensures UpToDateThroughout(w, ops) <==> IsHeededRun(w, ops)
    decreases ops
  {
    hide May, Step, AllUpToDate, Heeded;
    if ops != [] {
      AllUpToDateExactlyIfHeeded(w, ops[0]);
      if Heeded(w, ops[0]) {
        UpToDateExactlyInHeededRuns(Step(w, ops[0]), ops[1..]);
      }
    }
  }

  ghost predicate IsSafeRun(w: World, ops: seq<Op>)
    requires IsRun(w, ops)
    decreases ops
  {
    ops == [] || (Safe(w, ops[0]) && IsSafeRun(Step(w, ops[0]), ops[1..]))
  }

  lemma {:induction false} RunKeepsPinned(w: World, ops: seq<Op>, n: Name)
    requires IsRun(w, ops) && IsSafeRun(w, ops) && Sound(w, n) && PinnedAtRest(w, n)
    ensures PinnedAtRest(Run(w, ops), n)
    decreases ops
  {
    hide Sound, PinnedAtRest, Step, May, Safe;
    if ops != [] {
      StepKeepsSound(w, ops[0], n);
      StepKeepsPinned(w, ops[0], n);
      RunKeepsPinned(Step(w, ops[0]), ops[1..], n);
    }
  }

  ghost predicate AllSound(w: World) {
    forall n :: Sound(w, n)
  }

  ghost predicate AllPinned(w: World) {
    forall n :: PinnedAtRest(w, n)
  }

  lemma StepKeepsAllSound(w: World, op: Op)
    requires May(w, op) && AllSound(w)
    ensures AllSound(Step(w, op))
  {
    hide May, Step, Sound;
    forall n ensures Sound(Step(w, op), n) {
      StepKeepsSound(w, op, n);
    }
  }

  lemma AllPinnedExactlyIfSafe(w: World, op: Op)
    requires May(w, op) && AllSound(w) && AllPinned(w)
    ensures AllPinned(Step(w, op)) <==> Safe(w, op)
  {
    hide May, Step, Sound, PinnedAtRest, Safe;
    assert Sound(w, op.name) && PinnedAtRest(w, op.name);
    PinnedExactlyIfSafe(w, op);
    if Safe(w, op) {
      forall n ensures PinnedAtRest(Step(w, op), n) {
        StepKeepsPinned(w, op, n);
      }
    }
  }

  /** In every world of the run, every server at rest and out of quarantine has exactly its pinned tools. */
  ghost predicate PinnedThroughout(w: World, ops: seq<Op>)
    requires IsRun(w, ops)
    decreases ops
  {
    AllPinned(w) && (ops == [] || PinnedThroughout(Step(w, ops[0]), ops[1..]))
  }

  lemma {:induction false} PinnedThroughoutExactlySafeRuns(w: World, ops: seq<Op>)
    requires IsRun(w, ops) && AllSound(w) && AllPinned(w)
    ensures PinnedThroughout(w, ops) <==> IsSafeRun(w, ops)
    decreases ops
  {
    hide May, Step, AllSound, AllPinned, Safe;
    if ops != [] {
      StepKeepsAllSound(w, ops[0]);
      AllPinnedExactlyIfSafe(w, ops[0]);
      if Safe(w, ops[0]) {
        PinnedThroughoutExactlySafeRuns(Step(w, ops[0]), ops[1..]);
      }
    }
  }

  /**
   * Whatever the interleaving: a server that no index is judging shows, and lets be called, only tools
   * that were pinned with that very hash, at its first index or by an approval.
   */
  lemma OnlyConsentedToolsAreReachable(ops: seq<Op>, n: Name)
    requires IsRun(START, ops) && IsSafeRun(START, ops)
    requires n in Run(START, ops).servers && !InWindow(Run(START, ops).servers[n])
    ensures
      var w := Run(START, ops);
      var s := w.servers[n];
      && (s.indexed && !s.quarantined ==> n in w.pins && w.pins[n] == Hashes(s.tools))
      && (forall t | t in Exposed(s) :: Consent(n, t, Exposed(s)[t]) in w.consents)
      && (forall t | s.indexed && Callable(s, t) :: Consent(n, t, Hashes(s.tools)[t]) in w.consents)
  {
    hide Run, IsRun, IsSafeRun, Hashes, DistinctNames;
    RunKeepsSound(START, ops, n);
    RunKeepsPinned(START, ops, n);
  }

  /** Row `i` of what an approval is compared with is the hash of row `i`. */
  lemma HashListAt(rows: seq<Row>)
    ensures HashList(rows) == seq(|rows|, i requires 0 <= i < |rows| => rows[i].hash)
  {
  }

  /**
   What an approval has to echo. With row hashes on one line each, the quarantine is lifted if and only if the lines
   echoed, sorted entry by entry, are the hashes of the rows in order; for one-line echoes, if and only if these are
   the hashes of the rows, each as often, in any order. A refused approval changes nothing.
   */
  lemma ApprovalEchoesTheHashes(w: World, n: Name, hashes: seq<Text>)
    requires n in w.servers && w.servers[n].quarantined
    ensures
      var rows, v := w.servers[n].tools, Step(w, Approve(n, hashes));
      var current := seq(|rows|, i requires 0 <= i < |rows| => rows[i].hash);
      && n in v.servers && (v.servers[n].quarantined ==> v == w)
      && (HashSet.OneLineEach(current) ==>
            (!v.servers[n].quarantined <==> HashSet.Lines(HashSet.Joined(HashSet.Sort(hashes))) == HashSet.Sort(current)))
      && (HashSet.OneLineEach(current) && HashSet.OneLineEach(hashes) ==>
            (!v.servers[n].quarantined <==> multiset(hashes) == multiset(current)))
  {
    var rows := w.servers[n].tools;
    EchoIsDecided(rows, hashes);
    hide HashSet.Digest, HashSet.OneLineEach, HashSet.Lines, HashSet.Joined, HashSet.Sort, HashList, Hashes, Exposure, PinsOf;
  }

  lemma EchoIsDecided(rows: seq<Row>, hashes: seq<Text>)
    ensures
      var current := seq(|rows|, i requires 0 <= i < |rows| => rows[i].hash);
      var agrees := HashSet.Digest(hashes) == HashSet.Digest(HashList(rows));
      && (HashSet.OneLineEach(current) ==>
            (agrees <==> HashSet.Lines(HashSet.Joined(HashSet.Sort(hashes))) == HashSet.Sort(current)))
      && (HashSet.OneLineEach(current) && HashSet.OneLineEach(hashes) ==> (agrees <==> multiset(hashes) == multiset(current)))
  {
    var current := seq(|rows|, i requires 0 <= i < |rows| => rows[i].hash);
    HashListAt(rows);
    if HashSet.OneLineEach(current) {
      HashSet.DigestMatchesExactly(hashes, current);
      if HashSet.OneLineEach(hashes) {
        HashSet.DigestIsOfTheSet(hashes, current);
      }
    }
    hide HashSet.Digest, HashSet.OneLineEach, HashSet.Lines, HashSet.Joined, HashSet.Sort, HashList;
  }

  /**
   Consent is given by a first index or by an approval; the hash of an approved tool is among the lines that were
   echoed (if all row hashes are on one line each).
   */
  lemma ConsentIsGiven(w: World, op: Op, c: Consent)
    requires May(w, op) && c in Step(w, op).consents && c !in w.consents
    ensures op.name == c.server && c.server in w.servers
    ensures var tools := w.servers[c.server].tools;
            && c.tool in Hashes(tools) && Hashes(tools)[c.tool] == c.hash
            && ((op.Judge? && c.server !in w.pins)
                || (op.Approve? && Accepts(w.servers[c.server], op.hashes)))
            && (op.Approve? && DistinctNames(tools) && (forall i | 0 <= i < |tools| :: HashSet.OneLine(tools[i].hash)) ==>
                  c.hash in HashSet.Lines(HashSet.Joined(HashSet.Sort(op.hashes))))
  {
    ConsentComesFrom(w, op, c);
    var tools := w.servers[c.server].tools;
    if op.Approve? && DistinctNames(tools) && forall i | 0 <= i < |tools| :: HashSet.OneLine(tools[i].hash) {
      EchoHasEach(tools, op.hashes, c.tool);
    }
    hide Step, May, Hashes;
  }

  lemma ConsentComesFrom(w: World, op: Op, c: Consent)
    requires May(w, op) && c in Step(w, op).consents && c !in w.consents
    ensures op.name == c.server && c.server in w.servers
    ensures var tools := w.servers[c.server].tools;
            && c.tool in Hashes(tools) && Hashes(tools)[c.tool] == c.hash
            && ((op.Judge? && c.server !in w.pins)
                || (op.Approve? && Accepts(w.servers[c.server], op.hashes)))
  {
    hide Hashes, Exposure, HashSet.Digest, NoneTrips;
  }

  /** An echo that is accepted has the hash of every tool on a line. */
  lemma EchoHasEach(rows: seq<Row>, hashes: seq<Text>, tool: Text)
    requires DistinctNames(rows) && tool in Hashes(rows) && forall i | 0 <= i < |rows| :: HashSet.OneLine(rows[i].hash)
    requires HashSet.Digest(hashes) == HashSet.Digest(HashList(rows))
    ensures Hashes(rows)[tool] in HashSet.Lines(HashSet.Joined(HashSet.Sort(hashes)))
  {
    var current := seq(|rows|, i requires 0 <= i < |rows| => rows[i].hash);
    EchoIsDecided(rows, hashes);
    HashesAt(rows);
    HashSet.SortSorts(current);
    var i :| 0 <= i < |rows| && rows[i].name == tool;
    assert current[i] == Hashes(rows)[tool] && current[i] in multiset(current);
    hide HashSet.Digest, HashSet.Lines, HashSet.Joined, HashSet.Sort, HashList, Hashes;
  }

  predicate AnnouncingAt(w: World, n: Name) {
    n in w.servers && Announcing(w.servers[n])
  }

  /** Unless an index is about to fire them, the listeners were last shown what is exposed. */
  lemma ShownIsExposed(w: World, n: Name)
    requires UpToDate(w, n) && !AnnouncingAt(w, n)
    ensures At(w.heard, n) == ShownAt(w, n) == At(Exposure(w.servers), n)
  {
    hide Hashes;
  }

  /** When no index is about to fire them, the listeners have seen exactly what is exposed. */
  lemma ListenersKnowTheExposure(ops: seq<Op>, n: Name)
    requires IsRun(START, ops) && IsHeededRun(START, ops)
    requires n in Run(START, ops).servers ==> !Announcing(Run(START, ops).servers[n])
    ensures At(Run(START, ops).heard, n) == At(Exposure(Run(START, ops).servers), n)
  {
    hide Run, IsRun, IsHeededRun, Exposed;
    RunKeepsUpToDate(START, ops, n);
    ShownIsExposed(Run(START, ops), n);
  }

  /** No comparison fails for a server that an index is about to announce, and no uninstall takes away unheard what is on show. */
  ghost predicate Plain(w: World, op: Op)
    requires May(w, op)
  {
    && (op.Judge? && Throws(w, op.name) ==> !AnnouncingAt(w, op.name))
    && (op.UninstallEnds? && !op.enabled && op.name in w.servers ==>
          !AnnouncingAt(w, op.name) && Exposed(w.servers[op.name]) == map[])
  }

  lemma PlainIsHeeded(w: World, op: Op)
    requires May(w, op) && UpToDate(w, op.name) && Plain(w, op)
    ensures Heeded(w, op)
  {
    if op.Judge? && Throws(w, op.name) {
      ShownIsExposed(w, op.name);
    }
    if op.UninstallEnds? && !op.enabled && op.name in w.servers {
      ShownIsExposed(w, op.name);
    }
    hide Hashes, NoneTrips;
  }

  ghost predicate IsPlainRun(w: World, ops: seq<Op>)
    requires IsRun(w, ops)
    decreases ops
  {
    ops == [] || (Plain(w, ops[0]) && IsPlainRun(Step(w, ops[0]), ops[1..]))
  }

  /** A run of plain steps is heeded. */
  lemma {:induction false} PlainRunIsHeeded(w: World, ops: seq<Op>)
    requires IsRun(w, ops) && IsPlainRun(w, ops) && AllUpToDate(w)
    ensures IsHeededRun(w, ops)
    decreases ops
  {
    hide May, Step, UpToDate, Heeded, Plain;
    if ops != [] {
      PlainIsHeeded(w, ops[0]);
      AllUpToDateExactlyIfHeeded(w, ops[0]);
      PlainRunIsHeeded(Step(w, ops[0]), ops[1..]);
    }
  }

  /** A commit and a comparison that fails at once: the listeners stay up to date if and only if the commit changed nothing that is exposed. */
  lemma FailedIndexIsHeard(w: World, n: Name, rows: seq<Row>, shape: bool)
    requires May(w, Commit(n, rows, shape)) && UpToDate(w, n) && Throws(Step(w, Commit(n, rows, shape)), n)
    ensures UpToDate(Step(Step(w, Commit(n, rows, shape)), Judge(n)), n) <==> Exposed(w.servers[n]) == Exposed(w.servers[n].(tools := rows))
  {
    var v := Step(w, Commit(n, rows, shape));
    UpToDateExactlyIfHeeded(w, Commit(n, rows, shape), n);
    UpToDateExactlyIfHeeded(v, Judge(n), n);
    hide UpToDate, NoneTrips, Hashes, DistinctNames, Judged;
  }

  lemma FiringIsCounted(w: World, op: Op)
    requires May(w, op)
    ensures Step(w, op).fired >= w.fired
    ensures Step(w, op).fired == w.fired ==> Step(w, op).heard == w.heard
  {
    FiringShowsAll(w, op);
    hide Step, May;
  }

  lemma {:induction false} RunCountsFiring(w: World, ops: seq<Op>)
    requires IsRun(w, ops)
    ensures Run(w, ops).fired >= w.fired
    ensures Run(w, ops).fired == w.fired ==> Run(w, ops).heard == w.heard
    decreases ops
  {
    hide Step, May;
    if ops != [] {
      FiringIsCounted(w, ops[0]);
      RunCountsFiring(Step(w, ops[0]), ops[1..]);
    }
  }

  /** A run that changes what a server exposes fires the listeners, the last time with the new exposure in place. */
  lemma ExposureChangeIsAnnounced(w: World, ops: seq<Op>, n: Name)
    requires IsRun(w, ops) && IsHeededRun(w, ops) && UpToDate(w, n)
    requires !AnnouncingAt(w, n) && !AnnouncingAt(Run(w, ops), n)
    requires At(Exposure(w.servers), n) != At(Exposure(Run(w, ops).servers), n)
    ensures Run(w, ops).fired > w.fired
    ensures At(Run(w, ops).heard, n) == At(Exposure(Run(w, ops).servers), n)
  {
    RunKeepsUpToDate(w, ops, n);
    RunCountsFiring(w, ops);
    ShownIsExposed(w, n);
    ShownIsExposed(Run(w, ops), n);
    hide Run, IsRun, IsHeededRun, Exposed;
  }

  /** Enabling or disabling a second time fires nothing and, once the first index is over, changes nothing. */
  lemma RepetitionIsSilent(w: World, n: Name)
    requires n in w.servers
    ensures Step(Step(w, Disable(n)), Disable(n)) == Step(w, Disable(n))
    ensures
      var once := Step(w, Enable(n));
      var twice := Step(once, Enable(n));
      && twice.fired == once.fired && twice.heard == once.heard
      && twice.servers.Keys == once.servers.Keys && twice.servers[n].enabled == once.servers[n].enabled
      && (w.servers[n].indexed ==> twice == once)
  {
    hide Exposure;
  }

  // ---- What the steps do, told by their effects ----

  /** An approval that names the digest of the row hashes. */
  ghost predicate Approves(w: World, op: Op, n: Name)
    requires n in w.servers
  {
    var rows := w.servers[n].tools;
    op.Approve? && op.name == n
    && HashSet.Digest(op.hashes) == HashSet.Digest(seq(|rows|, i requires 0 <= i < |rows| => rows[i].hash))
  }

  /** The steps that switch a server on: an enable once it is indexed, or one that waited for that and had read disabled. */
  ghost predicate SwitchesOn(w: World, op: Op, n: Name)
    requires n in w.servers
  {
    || (op == Op.Enable(n) && !w.servers[n].quarantined && w.servers[n].indexed && !w.servers[n].enabled)
    || op == EnableResumes(n, false)
  }

  /** What the longer steps do to the rest of the world. */
  lemma JudgedIs(w: World, n: Name)
    requires n in w.servers && w.servers[n].phase.Saved?
    ensures
      var s, v := w.servers[n], Judged(w, n);
      && n in v.servers && v.servers == w.servers[n := s.(indexed := true, phase := v.servers[n].phase)]
      && v.leaving == w.leaving && v.departed == w.departed && v.fired == w.fired && v.heard == w.heard
      && v.pins == (if n in w.pins then w.pins else w.pins[n := PinsOf(s.tools)])
  {
    hide Hashes, PinsOf, ConsentsTo, NoneTrips;
  }

  lemma FinishedIs(w: World, n: Name)
    requires n in w.servers && w.servers[n].phase.Judged?
    ensures
      var s, v := w.servers[n], Finished(w, n);
      && v.servers == w.servers[n := s.(phase := Idle, quarantined := s.phase.drifted)]
      && v.leaving == w.leaving && v.departed == w.departed && v.pins == w.pins
      && (v.fired > w.fired <==> s.enabled && (s.phase.shape || s.phase.drifted != s.quarantined))
  {
    hide Exposure;
  }

  lemma UninstalledIs(w: World, n: Name, enabled: bool)
    ensures
      var v := Uninstalled(w, n, enabled);
      && v.servers == w.servers - {n} && v.leaving == w.leaving
      && v.pins == (if n in w.servers then w.pins - {n} else w.pins)
      && v.departed == (if n in w.servers && (w.servers[n].phase != Idle || w.servers[n].waiting != multiset{}) then w.departed + {n}
                        else w.departed)
      && (v.fired > w.fired <==> enabled && n in w.servers)
  {
    hide Exposure;
  }

  lemma FlagFires(w: World, n: Name, quarantined: bool)
    requires n in w.servers
    ensures Flag(w, n, quarantined).fired > w.fired <==> w.servers[n].enabled && w.servers[n].quarantined != quarantined
  {
    hide Exposure;
  }

  lemma PinKeeps(w: World, n: Name)
    requires n in w.servers
    ensures var v := PinTools(w, n); v.leaving == w.leaving && v.departed == w.departed && v.fired == w.fired
  {
    hide PinsOf, ConsentsTo;
  }

  lemma LongStepsAre(w: World, op: Op)
    requires May(w, op)
    ensures op.Judge? ==> Step(w, op) == Judged(w, op.name)
    ensures op.FinishIndex? ==> Step(w, op) == Finished(w, op.name)
    ensures op.UninstallEnds? ==>
              Step(w, op) == Uninstalled(w.(leaving := w.leaving - multiset{Leaving(op.name, op.enabled)}), op.name, op.enabled)
    ensures op.Approve? ==>
              Step(w, op) == if Approves(w, op, op.name) then Flag(PinTools(w, op.name), op.name, false) else w
  {
    if op.Approve? {
      HashListAt(w.servers[op.name].tools);
    }
    hide Hashes, HashSet.Digest, HashList, DistinctNames, Judged, Finished, Uninstalled, Flag, PinTools, NoneTrips;
  }

  /** The facts about whatever step it is. */
  lemma StepFacts(w: World, op: Op)
    requires May(w, op)
    ensures op.Judge? ==>
              var s, v := w.servers[op.name], Step(w, op);
              && op.name in v.servers && v.servers == w.servers[op.name := s.(indexed := true, phase := v.servers[op.name].phase)]
              && v.leaving == w.leaving && v.departed == w.departed && v.fired == w.fired
              && v.pins == (if op.name in w.pins then w.pins else w.pins[op.name := PinsOf(s.tools)])
    ensures op.FinishIndex? ==>
              var s, v := w.servers[op.name], Step(w, op);
              && v.servers == w.servers[op.name := s.(phase := Idle, quarantined := s.phase.drifted)]
              && v.leaving == w.leaving && v.departed == w.departed && v.pins == w.pins
              && (v.fired > w.fired <==> s.enabled && (s.phase.shape || s.phase.drifted != s.quarantined))
    ensures op.UninstallEnds? ==>
              var v := Step(w, op);
              && v.servers == w.servers - {op.name} && v.leaving == w.leaving - multiset{Leaving(op.name, op.enabled)}
              && v.pins == (if op.name in w.servers then w.pins - {op.name} else w.pins)
              && v.departed == (if op.name in w.servers && (w.servers[op.name].phase != Idle || w.servers[op.name].waiting != multiset{})
                                then w.departed + {op.name} else w.departed)
              && (v.fired > w.fired <==> op.enabled && op.name in w.servers)
    ensures op.Approve? ==>
              var s, v := w.servers[op.name], Step(w, op);
              if Approves(w, op, op.name) then
                && v.servers == w.servers[op.name := s.(quarantined := false)]
                && v.leaving == w.leaving && v.departed == w.departed && v.pins == w.pins[op.name := PinsOf(s.tools)]
                && (v.fired > w.fired <==> s.enabled && s.quarantined)
              else v == w
  {
    LongStepsAre(w, op);
    match op
    case Judge(n) => JudgedIs(w, n);
    case FinishIndex(n) => FinishedIs(w, n);
    case UninstallEnds(n, enabled) => UninstalledIs(w.(leaving := w.leaving - multiset{Leaving(n, enabled)}), n, enabled);
    case Approve(n, _) =>
      PinKeeps(w, n);
      FlagFires(PinTools(w, n), n, false);
    case _ =>
    hide Step, May, Judged, Finished, Uninstalled, Flag, PinTools, PinsOf, Approves, Exposure, Hashes;
  }

  /** The server of a short step, after it. */
  ghost function NextServer(s: Server, op: Op, fired: nat): Server {
    match op
    case StartIndex(_) => if s.phase == Idle then s.(phase := Probing) else s
    case ProbeFails(_) => s.(phase := Idle)
    case Commit(_, rows, shape) => s.(tools := rows, phase := Saved(shape, Before(s.tools, fired)))
    case Enable(_) =>
      if s.quarantined then s
      else if s.indexed then s.(enabled := true)
      else s.(phase := if s.phase == Idle then Probing else s.phase, waiting := s.waiting + multiset{s.enabled})
    case EnableResumes(_, was) => s.(enabled := s.enabled || !was, waiting := s.waiting - multiset{was})
    case EnableFails(_, was) => s.(waiting := s.waiting - multiset{was})
    case Disable(_) => s.(enabled := false)
    case _ => s
  }

  predicate IsLong(op: Op) {
    op.Judge? || op.FinishIndex? || op.Approve? || op.UninstallEnds?
  }

  lemma ShortStepsAre(w: World, op: Op)
    requires May(w, op) && !IsLong(op) && op.name in w.servers
    ensures
      var v := Step(w, op);
      && op.name in v.servers && v.servers[op.name] == NextServer(w.servers[op.name], op, w.fired)
      && v.pins == w.pins
  {
    hide Hashes, Exposure, DistinctNames, Judged, Finished, Uninstalled, Flag, PinTools, Accepts, Fire;
  }

  lemma ServersStay(w: World, op: Op, n: Name)
    requires May(w, op)
    ensures n != op.name ==> Lookup(Step(w, op).servers, n) == Lookup(w.servers, n) && Lookup(Step(w, op).pins, n) == Lookup(w.pins, n)
    ensures n == op.name && n in w.servers && !IsLong(op) ==>
              Lookup(Step(w, op).servers, n) == Some(NextServer(w.servers[n], op, w.fired)) && Step(w, op).pins == w.pins
  {
    if n != op.name {
      OthersKept(w, op, n);
    } else if n in w.servers && !IsLong(op) {
      ShortStepsAre(w, op);
    }
    hide Step, May, NextServer;
  }

  lemma WhatEnables(w: World, op: Op, n: Name)
    requires May(w, op) && n in w.servers && n in Step(w, op).servers
    ensures Step(w, op).servers[n].enabled <==> SwitchesOn(w, op, n) || (w.servers[n].enabled && op != Op.Disable(n))
  {
    StepFacts(w, op);
    ServersStay(w, op, n);
    hide Step, May, Approves, Exposure, Hashes;
  }

  /** The flag is what the index found at its end, and an approval takes it away. */
  lemma WhatQuarantines(w: World, op: Op, n: Name)
    requires May(w, op) && n in w.servers && n in Step(w, op).servers
    ensures Step(w, op).servers[n].quarantined ==
            if op == Op.FinishIndex(n) then w.servers[n].phase.drifted
            else w.servers[n].quarantined && !Approves(w, op, n)
  {
    StepFacts(w, op);
    ServersStay(w, op, n);
    hide Step, May, Approves, Exposure, Hashes;
  }

  /** The rows are those of the last commit; marked indexed is what has been compared, even if that failed. */
  lemma WhatIsStored(w: World, op: Op, n: Name)
    requires May(w, op) && n in w.servers && n in Step(w, op).servers
    ensures var was, now := w.servers[n], Step(w, op).servers[n];
            && now.tools == (if op.Commit? && op.name == n then op.rows else was.tools)
            && (now.indexed <==> was.indexed || op == Op.Judge(n))
  {
    StepFacts(w, op);
    ServersStay(w, op, n);
    hide Step, May, Approves, Exposure, Hashes;
  }

  /** Which servers there are: installed, and not yet removed by the end of any uninstall of the name. */
  lemma WhichServersThereAre(w: World, op: Op, n: Name)
    requires May(w, op)
    ensures n in Step(w, op).servers <==> op == Op.Install(n) || (n in w.servers && !(op.UninstallEnds? && op.name == n))
    ensures op == Op.Install(n) ==>
              var s := Step(w, op).servers[n];
              !s.enabled && !s.quarantined && !s.indexed && s.tools == [] && s.phase == Idle && s.waiting == multiset{}
  {
    StepFacts(w, op);
    hide Hashes, PinsOf, Exposure, NoneTrips, HashSet.Digest, DistinctNames, Judged, Finished, Uninstalled, Flag, PinTools, Approves, Accepts;
  }

  /** Pins are set by the comparison of a server that has none and by an approval, to the rows there are, and go with the server. */
  lemma WhatIsPinned(w: World, op: Op, n: Name)
    requires May(w, op) && (n in w.pins ==> n in w.servers)
    ensures Lookup(Step(w, op).pins, n) ==
            if op.UninstallEnds? && op.name == n && n in w.servers then None
            else if n in w.servers && ((op == Op.Judge(n) && n !in w.pins) || Approves(w, op, n)) then
              Some(Hashes(w.servers[n].tools) - {ToolHash.PROTO})
            else Lookup(w.pins, n)
  {
    StepFacts(w, op);
    hide Hashes, Exposure, NoneTrips, HashSet.Digest, DistinctNames, Judged, Finished, Uninstalled, Flag, PinTools, Approves, Accepts;
  }

  /** An index is started or joined, probes, commits, compares and ends, in this order. */
  lemma WhatAnIndexDoes(w: World, op: Op, n: Name)
    requires May(w, op) && n in w.servers && n in Step(w, op).servers
    ensures
      var was, now := w.servers[n], Step(w, op).servers[n];
      if op.name != n then now.phase == was.phase
      else match was.phase
        case Idle =>
          now.phase == if op.StartIndex? || (op.Enable? && !was.quarantined && !was.indexed) then Probing else Idle
        case Probing =>
          now.phase == if op.ProbeFails? then Idle
                       else if op.Commit? then Saved(op.shape, Before(was.tools, w.fired))
                       else Probing
        case Saved(shape, before) =>
          if !op.Judge? then now.phase == was.phase
          else if !NoneTrips(if n in w.pins then w.pins[n] else Hashes(was.tools) - {ToolHash.PROTO}, was.tools) then now.phase == Idle
          else now.phase == Phase.Judged(Step(w, op).pins[n] != Hashes(was.tools), shape, before)
        case Judged(_, _, _) => now.phase == if op.FinishIndex? then Idle else was.phase
  {
    OthersKeptOrSame(w, op, n);
    hide Hashes, Exposure, ConsentsTo, NoneTrips, HashSet.Digest, HashList, DistinctNames, Flag, PinTools, Fire, Switch;
  }

  lemma OthersKeptOrSame(w: World, op: Op, n: Name)
    requires May(w, op)
    ensures op.name != n ==> Lookup(Step(w, op).servers, n) == Lookup(w.servers, n)
  {
    if op.name != n {
      OthersKept(w, op, n);
    }
    hide Step, May;
  }

  /** Enables that wait: each starts once, for a server not indexed and not quarantined, and goes on or fails once. */
  lemma WhoWaits(w: World, op: Op, n: Name)
    requires May(w, op) && n in w.servers && n in Step(w, op).servers
    ensures
      var was, now := w.servers[n], Step(w, op).servers[n];
      now.waiting ==
        if op == Op.Enable(n) && !was.quarantined && !was.indexed then was.waiting + multiset{was.enabled}
        else if (op.EnableResumes? || op.EnableFails?) && op.name == n then was.waiting - multiset{op.wasEnabled}
        else was.waiting
  {
    StepFacts(w, op);
    ServersStay(w, op, n);
    hide Step, May, Approves, Exposure, Hashes;
  }

  /** Uninstalls that wait, each with what it read; and the names that left with an index or an enable under way. */
  lemma WhoLeaves(w: World, op: Op)
    requires May(w, op)
    ensures Step(w, op).leaving ==
            if op.UninstallStarts? then w.leaving + multiset{Leaving(op.name, w.servers[op.name].enabled)}
            else if op.UninstallEnds? then w.leaving - multiset{Leaving(op.name, op.enabled)}
            else w.leaving
    ensures Step(w, op).departed ==
            if op.StragglersEnd? then w.departed - {op.name}
            else if op.UninstallEnds? && op.name in w.servers
                    && (w.servers[op.name].phase != Idle || w.servers[op.name].waiting != multiset{}) then w.departed + {op.name}
            else w.departed
  {
    StepFacts(w, op);
    hide Hashes, PinsOf, Exposure, NoneTrips, HashSet.Digest, DistinctNames, Judged, Finished, Uninstalled, Flag, PinTools, Approves, Accepts;
  }

  /** The listeners fire exactly when an enabled server's rows or flag changed, when a server is switched, and when an enabled one is removed. */
  ghost predicate FiresListeners(w: World, op: Op)
    requires May(w, op)
  {
    op.name in w.servers
    && var s := w.servers[op.name];
       || SwitchesOn(w, op, op.name)
       || (op.Disable? && s.enabled)
       || (op.FinishIndex? && s.enabled && (s.phase.shape || s.phase.drifted != s.quarantined))
       || (Approves(w, op, op.name) && s.enabled && s.quarantined)
       || (op.UninstallEnds? && op.enabled)
  }

  lemma WhatFires(w: World, op: Op)
    requires May(w, op)
    ensures Step(w, op).fired > w.fired <==> FiresListeners(w, op)
    ensures if FiresListeners(w, op) then Step(w, op).heard == Exposure(Step(w, op).servers) else Step(w, op).heard == w.heard
  {
    StepFacts(w, op);
    FiringShowsAll(w, op);
    hide Hashes, PinsOf, Exposure, NoneTrips, HashSet.Digest, DistinctNames, Judged, Finished, Uninstalled, Flag, PinTools, Approves, Accepts;
  }

  /** What it means that an index is about to announce: with its verdict it fires at its end, or else only for a new flag. */
  lemma AnnouncingFires(w: World, n: Name)
    requires n in w.servers && w.servers[n].phase.Judged?
    ensures FiresListeners(w, Op.FinishIndex(n)) <==>
            Announcing(w.servers[n]) || (w.servers[n].enabled && w.servers[n].phase.drifted != w.servers[n].quarantined)
  {
    hide HashSet.Digest;
  }

  /** What is on show: rows of enabled servers out of quarantine, each under its hash; a call needs a listed tool once there are rows. */
  lemma WhatIsExposed(w: World, n: Name, tool: Text)
    requires n in w.servers && DistinctNames(w.servers[n].tools)
    ensures
      var s := w.servers[n];
      && n in Exposure(w.servers)
      && (tool in Exposure(w.servers)[n] <==> s.enabled && !s.quarantined && exists i | 0 <= i < |s.tools| :: s.tools[i].name == tool)
      && (forall i | 0 <= i < |s.tools| && s.enabled && !s.quarantined ::
            s.tools[i].name in Exposure(w.servers)[n] && Exposure(w.servers)[n][s.tools[i].name] == s.tools[i].hash)
      && (Callable(s, tool) <==> !s.quarantined && (!s.indexed || exists i | 0 <= i < |s.tools| :: s.tools[i].name == tool))
  {
    HashesAt(w.servers[n].tools);
    hide Hashes;
  }

  // ---- The service ----

  /** The unique key of the tool table. */
  ghost predicate Named(w: World) {
    forall n | n in w.servers :: DistinctNames(w.servers[n].tools)
  }

  lemma StepKeepsNamed(w: World, op: Op)
    requires May(w, op) && Named(w)
    ensures Named(Step(w, op))
  {
    forall n | n in Step(w, op).servers ensures DistinctNames(Step(w, op).servers[n].tools) {
      StepKeepsNames(w, op, n);
    }
  }

  lemma StepKeepsNames(w: World, op: Op, n: Name)
    requires May(w, op) && n in Step(w, op).servers && (n in w.servers ==> DistinctNames(w.servers[n].tools))
    ensures DistinctNames(Step(w, op).servers[n].tools)
  {
    hide Hashes, Exposure, Flag, Switch, Fire, NoneTrips, PinTools;
    if n != op.name {
      OthersKept(w, op, n);
      hide Step, May;
    }
  }

  lemma EndIs(w: World, n: Name, enabled: bool)
    requires May(w, UninstallEnds(n, enabled))
    ensures Step(w, UninstallEnds(n, enabled)) == Uninstalled(w.(leaving := w.leaving - multiset{Leaving(n, enabled)}), n, enabled)
  {
    hide Uninstalled;
  }

  datatype Refusal = Quarantined | Conflict | NotFound

  /** The server rows and the methods that write them, one method for each stretch of code without an await. */
  class ServerLifecycle {
    var servers: map<Name, Server>
    const pins: PinStore<Name>
    var departed: set<Name>
    var leaving: multiset<Leaving>
    ghost var fired: nat
    ghost var heard: map<Name, map<Text, Text>>
    ghost var consents: set<Consent>

    ghost function State(): World
      reads this, pins
    {
      World(servers, pins.pins, departed, leaving, fired, heard, consents)
    }

    ghost predicate Valid()
      reads this, pins
    {
      Named(State())
    }

    constructor ()
      ensures Valid() && fresh(pins) && State() == START
    {
      pins := new PinStore();
      servers, departed, leaving, fired, heard, consents := map[], {}, multiset{}, 0, map[], {};
    }

    /** Fires the listeners, which can then read the exposed tools. */
    method Changed(exposed: bool)
      modifies `fired, `heard
      ensures State() == Fire(old(State()), exposed)
    {
      if exposed {
        fired, heard := fired + 1, Exposure(servers);
      }
    }

    method SetQuarantined(name: Name, quarantined: bool)
      requires name in servers
      modifies this
      ensures State() == Flag(old(State()), name, quarantined)
    {
      hide Exposure;
      var server := servers[name];
      if server.quarantined != quarantined {
        servers := servers[name := server.(quarantined := quarantined)];
        Changed(server.enabled);
      }
    }

    method PinCurrent(name: Name)
      requires name in servers
      modifies `consents, pins
      ensures State() == PinTools(old(State()), name)
    {
      pins.Pin(name, servers[name].tools);
      consents := consents + ConsentsTo(name, PinsOf(servers[name].tools));
    }

    method Install(name: Name) returns (r: Result<(), Refusal>)
      requires Valid() && name !in departed
      modifies this
      ensures Valid() && (r.Success? <==> name !in old(servers))
      ensures State() == if r.Success? then Step(old(State()), Op.Install(name)) else old(State())
    {
      if name in servers {
        return Failure(Conflict);
      }
      StepKeepsNamed(State(), Op.Install(name));
      hide Exposure, Named;
      servers := servers[name := FRESH];
      r := Success(());
    }

    /** Starts an index, or joins the one that runs. */
    method Reindex(name: Name) returns (joined: bool)
      requires Valid() && name in servers
      modifies this
      ensures Valid() && State() == Step(old(State()), StartIndex(name))
      ensures servers[name].phase != Idle && (joined ==> State() == old(State()))
    {
      StepKeepsNamed(State(), StartIndex(name));
      hide Exposure, Named;
      joined := servers[name].phase != Idle;
      if !joined {
        servers := servers[name := servers[name].(phase := Probing)];
      }
    }

    /** The trust hook of an index: pin what was never pinned, then compare. */
    method AfterIndex(name: Name) returns (verdict: Result<bool, Error>)
      requires Valid() && name in servers
      modifies `consents, pins
      ensures State() == if old(name in pins.pins) then old(State()) else PinTools(old(State()), name)
      ensures name in pins.pins && (verdict.Failure? <==> Throws(old(State()), name))
      ensures verdict.Success? ==> (verdict.value <==> pins.pins[name] != Hashes(servers[name].tools))
    {
      hide Exposure, Hashes, PinsOf, ConsentsTo, NoneTrips;
      var rows := servers[name].tools;
      if name !in pins.pins {
        PinCurrent(name);
      }
      var drift := pins.Drift(name, rows);
      if drift.Failure? {
        return Failure(drift.error);
      }
      NoDriftMeansPinned(drift.value, pins.pins[name], rows);
      verdict := Success(IsDrifted(drift.value));
    }

    /** If the hook throws, the index ends: the server is marked indexed and its flag stays. */
    method MarkIndexedAndJudge(name: Name) returns (done: bool)
      requires Valid() && May(State(), Op.Judge(name))
      modifies this, pins
      ensures Valid() && State() == Step(old(State()), Op.Judge(name))
      ensures done <==> servers[name].phase.Judged?
    {
      StepKeepsNamed(State(), Op.Judge(name));
      hide Exposure, Hashes, PinsOf, Named, ConsentsTo, NoneTrips;
      var server := servers[name];
      var verdict := AfterIndex(name);
      done := verdict.Success?;
      var phase := if done then Phase.Judged(verdict.value, server.phase.shape, server.phase.before) else Idle;
      servers := servers[name := server.(indexed := true, phase := phase)];
    }

    method FinishIndex(name: Name)
      requires Valid() && May(State(), Op.FinishIndex(name))
      modifies this
      ensures Valid() && State() == Step(old(State()), Op.FinishIndex(name))
      ensures var was := old(servers)[name];
              servers == old(servers)[name := was.(phase := Idle, quarantined := was.phase.drifted)]
    {
      StepKeepsNamed(State(), Op.FinishIndex(name));
      FinishedServers(State(), name);
      hide Exposure, Named;
      var server := servers[name];
      servers := servers[name := server.(phase := Idle)];
      SetQuarantined(name, server.phase.drifted);
      var after := servers[name];
      Changed(after.enabled && server.phase.shape);
    }

    /** Up to the first await: starts or joins the first index, or switches the server on. */
    method Enable(name: Name) returns (r: Result<bool, Refusal>)
      requires Valid() && name in servers
      modifies this
      ensures Valid() && State() == Step(old(State()), Op.Enable(name))
      ensures r.Failure? <==> old(servers[name].quarantined)
      ensures r.Failure? ==> State() == old(State())
      ensures r.Success? ==> (r.value <==> old(servers[name].indexed)) && (r.value ==> servers[name].enabled)
    {
      StepKeepsNamed(State(), Op.Enable(name));
      hide Exposure, Named;
      var server := servers[name];
      if server.quarantined {
        return Failure(Quarantined);
      }
      if !server.indexed {
        servers := servers[name := Begin(server.(waiting := server.waiting + multiset{server.enabled}))];
        return Success(false);
      }
      if !server.enabled {
        servers := servers[name := server.(enabled := true)];
        Changed(true);
      }
      r := Success(true);
    }

    /** After the awaited index: the decision rests on `enabled` as it was read before it. */
    method ResumeEnable(name: Name, wasEnabled: bool)
      requires Valid() && May(State(), EnableResumes(name, wasEnabled))
      modifies this
      ensures Valid() && State() == Step(old(State()), EnableResumes(name, wasEnabled))
    {
      StepKeepsNamed(State(), EnableResumes(name, wasEnabled));
      hide Exposure, Named;
      var server := servers[name];
      servers := servers[name := server.(waiting := server.waiting - multiset{wasEnabled})];
      if !wasEnabled {
        servers := servers[name := servers[name].(enabled := true)];
        Changed(true);
      }
    }

    method Disable(name: Name)
      requires Valid() && name in servers
      modifies this
      ensures Valid() && State() == Step(old(State()), Op.Disable(name))
      ensures servers == old(servers)[name := old(servers)[name].(enabled := false)]
    {
      StepKeepsNamed(State(), Op.Disable(name));
      hide Exposure, Named;
      var server := servers[name];
      if server.enabled {
        servers := servers[name := server.(enabled := false)];
        Changed(true);
      }
    }

    /** Accepts the current tools if `hashes` is their hash set, and lifts the quarantine. */
    method Approve(name: Name, hashes: seq<Text>) returns (r: Result<(), Refusal>)
      requires Valid() && name in servers
      modifies this, pins
      ensures Valid() && State() == Step(old(State()), Op.Approve(name, hashes))
      ensures
        var rows := old(servers[name]).tools;
        var current := seq(|rows|, i requires 0 <= i < |rows| => rows[i].hash);
        && (HashSet.OneLineEach(current) ==>
              (r.Success? <==> HashSet.Lines(HashSet.Joined(HashSet.Sort(hashes))) == HashSet.Sort(current)))
        && (HashSet.OneLineEach(current) && HashSet.OneLineEach(hashes) ==> (r.Success? <==> multiset(hashes) == multiset(current)))
      ensures r.Failure? ==> State() == old(State())
      ensures r.Success? ==> !servers[name].quarantined && pins.pins == old(pins.pins)[name := PinsOf(servers[name].tools)]
    {
      StepKeepsNamed(State(), Op.Approve(name, hashes));
      EchoIsDecided(servers[name].tools, hashes);
      hide Exposure, Named, Hashes, PinsOf, ConsentsTo;
      hide HashSet.Digest, HashSet.OneLineEach, HashSet.Lines, HashSet.Joined, HashSet.Sort, HashList;
      if !Accepts(servers[name], hashes) {
        return Failure(Conflict);
      }
      PinCurrent(name);
      SetQuarantined(name, false);
      r := Success(());
    }

    /** Up to the await of an uninstall: reads whether the server is enabled. */
    method StartUninstall(name: Name)
      requires Valid() && name in servers
      modifies this
      ensures Valid() && State() == Step(old(State()), UninstallStarts(name))
    {
      StepKeepsNamed(State(), UninstallStarts(name));
      hide Exposure, Named;
      leaving := leaving + multiset{Leaving(name, servers[name].enabled)};
    }

    /** The row of a server is deleted, and its pins with it. */
    method RemoveServer(name: Name)
      requires name in servers
      modifies this, pins
      ensures State() == old(State()).(
        servers := old(servers) - {name}, pins := old(pins.pins) - {name}, departed := departed, consents := consents)
      ensures departed == (if old(servers[name].phase) != Idle || old(servers[name].waiting) != multiset{} then old(departed) + {name}
                           else old(departed))
      ensures consents == set c | c in old(consents) && c.server != name
    {
      var server := servers[name];
      servers := servers - {name};
      pins.Forget(name);
      if server.phase != Idle || server.waiting != multiset{} {
        departed := departed + {name};
      }
      consents := set c | c in consents && c.server != name;
    }

    /** The end of an uninstall, which announces what it read as enabled before the await; it fails if the name is gone. */
    method FinishUninstall(name: Name, enabled: bool) returns (r: Result<(), Refusal>)
      requires Valid() && May(State(), UninstallEnds(name, enabled))
      modifies this, pins
      ensures Valid() && State() == Step(old(State()), UninstallEnds(name, enabled))
      ensures (r.Success? <==> name in old(servers)) && servers == old(servers) - {name}
    {
      StepKeepsNamed(State(), UninstallEnds(name, enabled));
      EndIs(State(), name, enabled);
      hide Exposure, Named, Step, May;
      leaving := leaving - multiset{Leaving(name, enabled)};
      if name !in servers {
        return Failure(NotFound);
      }
      RemoveServer(name);
      Changed(enabled);
      r := Success(());
    }
  }

  // ---- When quarantined means drifted ----

  /** An approval that succeeds does not come between an index's verdict of drift and the storing of it. */
  ghost predicate Timely(w: World, op: Op)
    requires May(w, op)
  {
    op.Approve? && Accepts(w.servers[op.name], op.hashes) ==>
      !(w.servers[op.name].phase.Judged? && w.servers[op.name].phase.drifted)
  }

  ghost predicate Drifted(s: Server, pins: Option<Pinned>) {
    pins.Some? && pins.value != Hashes(s.tools)
  }

  /** The flag between indexes, and the verdict of a running one, say whether the tools drift from the pins. */
  ghost predicate Exact(w: World, n: Name) {
    n in w.servers ==>
      var s, pins := w.servers[n], Lookup(w.pins, n);
      && (s.phase.Judged? ==> (s.phase.drifted <==> Drifted(s, pins)))
      && (s.phase == Idle || s.phase == Probing ==> (s.quarantined <==> Drifted(s, pins)))
  }

  lemma JudgedIsExact(w: World, n: Name)
    requires Sound(w, n) && n in w.servers && w.servers[n].phase.Saved?
    ensures Exact(Judged(w, n), n) <==> (Throws(w, n) ==> w.servers[n].quarantined)
  {
    hide Hashes, DistinctNames, PinTools, Consented, NoneTrips;
    PinIsSound(w, n);
    var pinned := if n in w.pins then w else PinTools(w, n);
    if Throws(w, n) {
      TrippingIsDrift(pinned.pins[n], w.servers[n].tools);
    }
  }

  lemma ApprovedIsExact(w: World, n: Name)
    requires Sound(w, n) && Exact(w, n) && n in w.servers
    ensures Exact(Flag(PinTools(w, n), n, false), n) <==>
            && !(w.servers[n].phase.Judged? && w.servers[n].phase.drifted)
            && (!InWindow(w.servers[n]) ==> ToolHash.PROTO !in Hashes(w.servers[n].tools))
  {
    PinIsSound(w, n);
    hide Hashes, Flag, PinTools;
  }

  lemma IndexStepIsExact(w: World, op: Op)
    requires May(w, op) && Sound(w, op.name) && Exact(w, op.name)
    requires op.Commit? || op.Judge? || op.FinishIndex? || op.Approve?
    ensures Exact(Step(w, op), op.name) <==> Safe(w, op) && Timely(w, op)
  {
    hide Hashes, Judged, Flag, PinTools, Exposure, HashSet.Digest, Fire;
    match op
    case Judge(n) => JudgedIsExact(w, n);
    case Approve(n, _) => ApprovedIsExact(w, n);
    case _ =>
  }

  lemma OtherStepIsExact(w: World, op: Op)
    requires May(w, op) && Sound(w, op.name) && Exact(w, op.name)
    requires !(op.Commit? || op.Judge? || op.FinishIndex? || op.Approve?)
    ensures Exact(Step(w, op), op.name)
  {
    OtherStepKeepsFlags(w, op);
    hide Step, May, SoundServer, Hashes;
  }

  lemma OtherStepKeepsFlags(w: World, op: Op)
    requires May(w, op) && !(op.Commit? || op.Judge? || op.FinishIndex? || op.Approve?)
    ensures
      var n, v := op.name, Step(w, op);
      n in v.servers && n in w.servers ==>
        && Lookup(v.pins, n) == Lookup(w.pins, n)
        && v.servers[n].tools == w.servers[n].tools && v.servers[n].quarantined == w.servers[n].quarantined
        && (v.servers[n].phase == w.servers[n].phase
            || (!v.servers[n].phase.Judged? && !w.servers[n].phase.Judged? && !w.servers[n].phase.Saved?))
    ensures op.name !in w.servers && op.name in Step(w, op).servers ==>
              Step(w, op).servers[op.name] == FRESH && Lookup(Step(w, op).pins, op.name) == Lookup(w.pins, op.name)
  {
    hide Hashes, Exposure, Switch, Fire, DistinctNames, HashSet.Digest;
  }

  /** A step leaves flag and verdict equal to drift if and only if it is safe and timely. */
  lemma ExactExactlyIfTimely(w: World, op: Op)
    requires May(w, op) && Sound(w, op.name) && Exact(w, op.name)
    ensures Exact(Step(w, op), op.name) <==> Safe(w, op) && Timely(w, op)
  {
    hide Step, May, Exact, Sound;
    if op.Commit? || op.Judge? || op.FinishIndex? || op.Approve? {
      IndexStepIsExact(w, op);
    } else {
      OtherStepIsExact(w, op);
    }
  }

  lemma OtherServerStaysExact(w: World, op: Op, n: Name)
    requires May(w, op) && Exact(w, n) && n != op.name
    ensures Exact(Step(w, op), n)
  {
    OthersKept(w, op, n);
    hide Step, May, Drifted;
  }

  ghost predicate AllExact(w: World) {
    forall n :: Exact(w, n)
  }

  lemma AllExactExactlyIfTimely(w: World, op: Op)
    requires May(w, op) && AllSound(w) && AllExact(w)
    ensures AllExact(Step(w, op)) <==> Safe(w, op) && Timely(w, op)
  {
    hide May, Step, Sound, Exact, Safe, Timely;
    assert Sound(w, op.name) && Exact(w, op.name);
    ExactExactlyIfTimely(w, op);
    if Safe(w, op) && Timely(w, op) {
      forall n ensures Exact(Step(w, op), n) {
        if n != op.name {
          OtherServerStaysExact(w, op, n);
        }
      }
    }
  }

  ghost predicate IsTimelyRun(w: World, ops: seq<Op>)
    requires IsRun(w, ops)
    decreases ops
  {
    ops == [] || (Safe(w, ops[0]) && Timely(w, ops[0]) && IsTimelyRun(Step(w, ops[0]), ops[1..]))
  }

  ghost predicate ExactThroughout(w: World, ops: seq<Op>)
    requires IsRun(w, ops)
    decreases ops
  {
    AllExact(w) && (ops == [] || ExactThroughout(Step(w, ops[0]), ops[1..]))
  }

  /** Flags and verdicts equal drift in every world of a run if and only if every step is safe and timely. */
  lemma {:induction false} ExactThroughoutExactlyTimelyRuns(w: World, ops: seq<Op>)
    requires IsRun(w, ops) && AllSound(w) && AllExact(w)
    ensures ExactThroughout(w, ops) <==> IsTimelyRun(w, ops)
    decreases ops
  {
    hide May, Step, AllSound, AllExact, Safe, Timely;
    if ops != [] {
      StepKeepsAllSound(w, ops[0]);
      AllExactExactlyIfTimely(w, ops[0]);
      if Safe(w, ops[0]) && Timely(w, ops[0]) {
        ExactThroughoutExactlyTimelyRuns(Step(w, ops[0]), ops[1..]);
      }
    }
  }

  lemma {:induction false} RunKeepsAll(w: World, ops: seq<Op>)
    requires IsRun(w, ops) && IsTimelyRun(w, ops) && AllSound(w) && AllExact(w)
    ensures AllSound(Run(w, ops)) && AllExact(Run(w, ops))
    decreases ops
  {
    hide May, Step, AllSound, AllExact, Safe, Timely;
    if ops != [] {
      StepKeepsAllSound(w, ops[0]);
      AllExactExactlyIfTimely(w, ops[0]);
      RunKeepsAll(Step(w, ops[0]), ops[1..]);
    }
  }

  /** Between indexes, a server is quarantined exactly when comparing its rows with its pins reports a drift. */
  lemma QuarantinedMeansDrifted(ops: seq<Op>, n: Name, drift: DriftReport)
    requires IsRun(START, ops) && IsTimelyRun(START, ops) && n in Run(START, ops).servers
    requires Run(START, ops).servers[n].phase == Idle || Run(START, ops).servers[n].phase == Probing
    requires var w := Run(START, ops);
             if n in w.pins then IsDriftOf(drift, w.pins[n], w.servers[n].tools) else drift == DriftReport([], [], [])
    ensures Run(START, ops).servers[n].quarantined <==> IsDrifted(drift)
  {
    hide Run, IsRun, IsTimelyRun, Hashes, Inherited, IsDriftOf;
    RunKeepsAll(START, ops);
    var w := Run(START, ops);
    assert Exact(w, n) && Sound(w, n);
    if n in w.pins {
      NoDriftMeansPinned(drift, w.pins[n], w.servers[n].tools);
    }
  }

  // ---- What the window and an overtaken uninstall let through ----

  lemma {:induction false} RunConcat(w: World, first: seq<Op>, second: seq<Op>)
    requires IsRun(w, first) && IsRun(Run(w, first), second)
    ensures IsRun(w, first + second) && Run(w, first + second) == Run(Run(w, first), second)
    decreases first
  {
    hide Step, May;
    if first == [] {
      assert first + second == second;
    } else {
      RunConcat(Step(w, first[0]), first[1..], second);
      assert (first + second)[0] == first[0] && (first + second)[1..] == first[1..] + second;
    }
  }

  lemma RunOfOne(w: World, op: Op)
    requires May(w, op)
    ensures IsRun(w, [op]) && Run(w, [op]) == Step(w, op)
  {
    hide Step, May;
    assert [op][1..] == [];
    assert IsRun(Step(w, op), []);
  }

  lemma RunThen(w: World, ops: seq<Op>, op: Op)
    requires IsRun(w, ops) && May(Run(w, ops), op)
    ensures IsRun(w, ops + [op]) && Run(w, ops + [op]) == Step(Run(w, ops), op)
  {
    hide Step, May;
    RunOfOne(Run(w, ops), op);
    RunConcat(w, ops, [op]);
  }

  lemma OneRow(row: Row)
    requires !Inherited(row.name)
    ensures Hashes([row]) == map[row.name := row.hash] == PinsOf([row])
    ensures DistinctNames([row]) && NoneInherited([row])
  {
    assert [row][..0] == [];
  }

  lemma OneConsent(n: Name, row: Row)
    requires !Inherited(row.name)
    ensures ConsentsTo(n, PinsOf([row])) == {Consent(n, row.name, row.hash)}
  {
    OneRow(row);
    forall c ensures c in ConsentsTo(n, PinsOf([row])) <==> c == Consent(n, row.name, row.hash) {
      assert row.name in PinsOf([row]);
    }
  }

  /** One server with one tool, enabled, at rest. */
  ghost predicate Settled(w: World, n: Name, row: Row) {
    && w.servers == map[n := Server(true, false, true, [row], Idle, multiset{})]
    && w.pins == map[n := map[row.name := row.hash]]
    && w.consents == {Consent(n, row.name, row.hash)}
    && At(w.heard, n) == map[row.name := row.hash]
    && w.leaving == multiset{} && w.departed == {}
  }

  lemma FirstIndex(n: Name, row: Row) returns (ops: seq<Op>)
    requires !Inherited(row.name)
    ensures IsRun(START, ops) && Settled(Run(START, ops), n, row)
  {
    hide IsRun, Run, Inherited, Hashes, PinsOf, DistinctNames;
    OneRow(row);
    RunOfOne(START, Install(n));
    ops := [Install(n)];
    RunThen(START, ops, StartIndex(n));
    ops := ops + [StartIndex(n)];
    RunThen(START, ops, Commit(n, [row], true));
    ops := ops + [Commit(n, [row], true)];
    assert Run(START, ops).servers == map[n := FRESH.(tools := [row], phase := Saved(true, Before([], 0)))];
    OneConsent(n, row);
    RunThen(START, ops, Judge(n));
    ops := ops + [Judge(n)];
    assert Run(START, ops).pins == map[n := map[row.name := row.hash]];
    RunThen(START, ops, FinishIndex(n));
    ops := ops + [FinishIndex(n)];
    RunThen(START, ops, Enable(n));
    ops := ops + [Enable(n)];
  }

  /** Between the commit and the storing of the verdict, a tool nobody accepted is on show, even once it is judged. */
  lemma WindowShowsUnconsented(n: Name, was: Row, now: Row) returns (ops: seq<Op>)
    requires !Inherited(was.name) && was.name == now.name && was.hash != now.hash
    ensures IsRun(START, ops)
    ensures var w := Run(START, ops);
            && n in w.servers && w.servers[n].(phase := Idle) == Server(true, false, true, [now], Idle, multiset{})
            && w.servers[n].phase.Judged? && w.servers[n].phase.drifted
            && Exposed(w.servers[n]) == map[now.name := now.hash]
            && Consent(n, now.name, now.hash) !in w.consents
  {
    hide IsRun, Run, Inherited, Hashes, PinsOf, DistinctNames;
    ops := FirstIndex(n, was);
    OneRow(now);
    RunThen(START, ops, StartIndex(n));
    ops := ops + [StartIndex(n)];
    RunThen(START, ops, Commit(n, [now], true));
    ops := ops + [Commit(n, [now], true)];
    assert Run(START, ops).pins[n][now.name] != now.hash;
    RunThen(START, ops, Judge(n));
    ops := ops + [Judge(n)];
  }

  /** An approval between the verdict and its storing is not timely: the server ends quarantined without any drift. */
  lemma UntimelyApproval(n: Name, was: Row, now: Row) returns (ops: seq<Op>)
    requires !Inherited(was.name) && was.name == now.name && was.hash != now.hash
    ensures IsRun(START, ops)
    ensures var w := Run(START, ops);
            && n in w.servers && n in w.pins && w.servers[n].phase == Idle
            && w.servers[n].quarantined && !Drifted(w.servers[n], Some(w.pins[n]))
  {
    hide IsRun, Run, Inherited, Hashes, PinsOf, DistinctNames, HashSet.Digest;
    ops := WindowShowsUnconsented(n, was, now);
    OneRow(now);
    var approve := Approve(n, HashList([now]));
    RunThen(START, ops, approve);
    ops := ops + [approve];
    RunThen(START, ops, FinishIndex(n));
    ops := ops + [FinishIndex(n)];
  }

  /**
   A comparison that fails for an enabled server: the index is over, a tool nobody accepted stays on show, and the
   listeners were never told.
   */
  lemma ThrowingIndexGoesUnnoticed(n: Name, was: Row, extra: Row) returns (ops: seq<Op>)
    requires !Inherited(was.name) && Inherited(extra.name)
    ensures IsRun(START, ops)
    ensures
      var w := Run(START, ops);
      && n in w.servers && w.servers[n].phase == Idle
      && extra.name in Exposed(w.servers[n]) && Consent(n, extra.name, extra.hash) !in w.consents
      && At(w.heard, n) == map[was.name := was.hash]
  {
    ops := FirstIndex(n, was);
    OneRow(was);
    TwoRows(was, extra);
    hide IsRun, Run, Inherited, Hashes, PinsOf, DistinctNames, NoneInherited, NoneTrips;
    RunThen(START, ops, StartIndex(n));
    ops := ops + [StartIndex(n)];
    RunThen(START, ops, Commit(n, [was, extra], true));
    ops := ops + [Commit(n, [was, extra], true)];
    RunThen(START, ops, Judge(n));
    ops := ops + [Judge(n)];
  }

  lemma TwoRows(was: Row, extra: Row)
    requires !Inherited(was.name) && Inherited(extra.name)
    ensures DistinctNames([was, extra]) && extra.name in Hashes([was, extra])
    ensures !NoneTrips(map[was.name := was.hash], [was, extra])
  {
    assert [was, extra][..1] == [was] && [was][..0] == [];
    assert Trips(map[was.name := was.hash], [was, extra][1]);
    hide Inherited;
  }

  /** The listeners hear of an uninstall exactly when it has read the server as enabled, or nothing was on show. */
  lemma UninstallIsHeard(w: World, n: Name, enabled: bool)
    requires May(w, UninstallEnds(n, enabled)) && n in w.servers && UpToDate(w, n)
    ensures UpToDate(Step(w, UninstallEnds(n, enabled)), n) <==> enabled || Shown(w.servers[n], w.fired) == map[]
    ensures !Announcing(w.servers[n]) ==>
              (UpToDate(Step(w, UninstallEnds(n, enabled)), n) <==> enabled || Exposed(w.servers[n]) == map[])
  {
    UpToDateExactlyIfHeeded(w, UninstallEnds(n, enabled), n);
    if !Announcing(w.servers[n]) {
      ShownIsExposed(w, n);
    }
    hide Step, May, UpToDate, Shown;
  }

  /** Two uninstalls of one name: the slower one removes the server that was installed in between. */
  lemma SecondUninstallTakesTheSuccessor(n: Name, row: Row) returns (ops: seq<Op>)
    requires !Inherited(row.name)
    ensures IsRun(START, ops)
    ensures
      var w := Run(START, ops);
      && ops != [] && ops[|ops| - 1] == Install(n) && n in w.servers
      && May(w, UninstallEnds(n, true)) && n !in Step(w, UninstallEnds(n, true)).servers
  {
    hide IsRun, Run, Inherited, Hashes, PinsOf, DistinctNames;
    ops := FirstIndex(n, row);
    RunThen(START, ops, UninstallStarts(n));
    ops := ops + [UninstallStarts(n)];
    RunThen(START, ops, UninstallStarts(n));
    ops := ops + [UninstallStarts(n)];
    assert Run(START, ops).leaving == multiset{Leaving(n, true), Leaving(n, true)};
    RunThen(START, ops, UninstallEnds(n, true));
    ops := ops + [UninstallEnds(n, true)];
    RunThen(START, ops, Install(n));
    ops := ops + [Install(n)];
  }

  /** An enable that overtakes the uninstall of a disabled server: the listeners still hold its tools. */
  lemma OvertakenUninstall(n: Name, row: Row) returns (ops: seq<Op>)
    requires !Inherited(row.name)
    ensures IsRun(START, ops)
    ensures n !in Run(START, ops).servers && At(Run(START, ops).heard, n) == map[row.name := row.hash]
  {
    hide IsRun, Run, Inherited, Hashes, PinsOf, DistinctNames;
    ops := FirstIndex(n, row);
    OneRow(row);
    RunThen(START, ops, Disable(n));
    ops := ops + [Disable(n)];
    RunThen(START, ops, UninstallStarts(n));
    ops := ops + [UninstallStarts(n)];
    RunThen(START, ops, Enable(n));
    ops := ops + [Enable(n)];
    RunThen(START, ops, UninstallEnds(n, false));
    ops := ops + [UninstallEnds(n, false)];
  }
}
