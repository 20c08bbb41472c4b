/**
 * Upstream questions in the middle of a call: queued per call, handed to the downstream one round at a time,
 * parked until the downstream comes back with the answer or the time is up.
 *
 * Code between two awaits is one step. The k-th question an upstream pushes during a call is question k.
 */
module McpServer {
  import opened Common

  type CallId = nat
  type ParkId = nat
  type Target = string

  // ---- The queue ----

  /** Items not taken yet, or somebody waiting for the next one. */
  datatype Queue<T> = Queue(items: seq<T>, waiting: bool)

  /** Pushing hands the item to whoever waits, else keeps it. */
  function Pushed<T>(q: Queue<T>, item: T): Queue<T> {
    if q.waiting then q.(waiting := false) else q.(items := q.items + [item])
  }

  /** Taking gives the first item, or starts to wait. */
  function Taken<T>(q: Queue<T>): Queue<T> {
    if q.items != [] then q.(items := q.items[1..]) else q.(waiting := true)
  }

  /** The `queue` closure: nobody waits while items are there. */
  class QuestionQueue<T> {
    var items: seq<T>
    var waiting: bool
    /** Every item pushed, and every item somebody has got. */
    ghost var pushed: seq<T>
    ghost var got: seq<T>

    ghost predicate Valid()
      reads this
    {
      pushed == got + items && (waiting ==> items == [])
    }

    ghost function State(): Queue<T>
      reads this
    {
      Queue(items, waiting)
    }

    constructor ()
      ensures Valid() && State() == Queue([], false) && pushed == got == []
    {
      items, waiting, pushed, got := [], false, [], [];
    }

    /** First in, first out: what is handed over is the item itself, since nothing older is left. */
    method Push(item: T) returns (handed: bool)
      requires Valid()
      modifies this
      ensures Valid() && State() == Pushed(old(State()), item)
      ensures handed <==> old(waiting)
      ensures pushed == old(pushed) + [item] && got == (if handed then old(got) + [item] else old(got))
    {
      handed := waiting;
      pushed := pushed + [item];
      if handed {
        waiting := false;
        got := got + [item];
      } else {
        items := items + [item];
      }
    }

    method Next() returns (item: Option<T>)
      requires Valid() && !waiting
      modifies this
      ensures Valid() && State() == Taken(old(State()))
      ensures pushed == old(pushed) && got == (if item.Some? then old(got) + [item.value] else old(got))
      ensures item == None <==> waiting
    {
      if items != [] {
        item := Some(items[0]);
        got, items := got + [items[0]], items[1..];
      } else {
        item := None;
        waiting := true;
      }
    }
  }

  // ---- Calls and rounds ----

  datatype Relay =
    /** No downstream round waits on the call. */
    | NoRelay
    /** A round waits for the result or a question, whichever comes first. */
    | Racing
    /** The question won; the round has yet to hand it out. */
    | Holding(question: nat)
    /** The result won. */
    | Won

  /** A question handed to the downstream, under the id it was parked by. */
  datatype Round = Round(id: ParkId, question: nat)

  datatype Answer = Replied(question: nat) | Cancelled(question: nat)

  datatype Call = Call(
    target: Target,
    questions: Queue<nat>,
    relay: Relay,
    ready: bool,
    /** History: how many questions were pushed, the rounds they went out in, the answers given. */
    pushed: nat,
    rounds: seq<Round>,
    answers: seq<Answer>,
    /** History: questions that went to a race the result had won. */
    dropped: seq<nat>,
    /** The result has won a race: no question is handed out any more. */
    ended: bool)

  datatype Parked = Parked(call: CallId, question: nat)

  datatype State = State(calls: map<CallId, Call>, parked: map<ParkId, Parked>, issued: set<ParkId>)

  const EMPTY := State(map[], map[], {})

  datatype Op =
    | StartCall(call: CallId, target: Target)
    | Push(call: CallId)
    | ResultArrives(call: CallId)
    | RelayGoesOn(call: CallId, id: ParkId)
    | Forward(id: ParkId, target: Target)
    | Timeout(id: ParkId)

  function Least(a: nat, b: nat): nat {
    if a < b then a else b
  }

  /** The first stretch of `relay`: the result is raced against the next question, which is taken now. */
  function Relayed(c: Call): Call {
    var taken := c.(questions := Taken(c.questions));
    if c.ready then taken.(relay := Won, ended := true, dropped := c.dropped + c.questions.items[..Least(1, |c.questions.items|)])
    else if c.questions.items != [] then taken.(relay := Holding(c.questions.items[0]))
    else taken.(relay := Racing)
  }

  function Asked(c: Call): Call {
    var more := c.(questions := Pushed(c.questions, c.pushed), pushed := c.pushed + 1);
    if c.relay == Racing then more.(relay := Holding(c.pushed))
    else if c.questions.waiting then more.(dropped := c.dropped + [c.pushed])
    else more
  }

  function Resulted(c: Call): Call {
    if c.relay == Racing then c.(ready := true, relay := Won, ended := true) else c.(ready := true)
  }

  predicate May(s: State, op: Op) {
    match op
    case StartCall(n, _) => n !in s.calls
    case Push(n) => n in s.calls
    case ResultArrives(n) => n in s.calls
    case RelayGoesOn(n, id) => n in s.calls && (s.calls[n].relay.Holding? || s.calls[n].relay.Won?) && id !in s.issued
    case _ => true
  }

  function Step(s: State, op: Op): State
    requires May(s, op)
  {
    match op
    case StartCall(n, target) =>
      s.(calls := s.calls[n := Relayed(Call(target, Queue([], false), NoRelay, false, 0, [], [], [], false))])
    case Push(n) => s.(calls := s.calls[n := Asked(s.calls[n])])
    case ResultArrives(n) => s.(calls := s.calls[n := Resulted(s.calls[n])])
    case RelayGoesOn(n, id) => GoneOn(s, n, id)
    case Forward(id, target) => Forwarded(s, id, target)
    case Timeout(id) => TimedOut(s, id)
  }

  /** The round ends: with the result, or with a question that is parked. */
  function GoneOn(s: State, n: CallId, id: ParkId): State
    requires n in s.calls && (s.calls[n].relay.Holding? || s.calls[n].relay.Won?)
  {
    var c := s.calls[n];
    if c.relay.Won? then s.(calls := s.calls[n := c.(relay := NoRelay)])
    else
      var q := c.relay.question;
      State(s.calls[n := c.(relay := NoRelay, rounds := c.rounds + [Round(id, q)])],
            s.parked[id := Parked(n, q)], s.issued + {id})
  }

  predicate Found(s: State, id: ParkId, target: Target) {
    id in s.parked && s.parked[id].call in s.calls && s.calls[s.parked[id].call].target == target
  }

  /** The downstream came back: its answer is passed on and the next round starts. */
  function Forwarded(s: State, id: ParkId, target: Target): State {
    if !Found(s, id, target) then s
    else
      var n, q := s.parked[id].call, s.parked[id].question;
      var c := s.calls[n];
      s.(calls := s.calls[n := Relayed(c.(answers := c.answers + [Replied(q)]))], parked := s.parked - {id})
  }

  function TimedOut(s: State, id: ParkId): State {
    if id !in s.parked || s.parked[id].call !in s.calls then s
    else
      var n, q := s.parked[id].call, s.parked[id].question;
      var c := s.calls[n];
      s.(calls := s.calls[n := c.(answers := c.answers + [Cancelled(q)])], parked := s.parked - {id})
  }

  // ---- What every step keeps ----

  function Held(c: Call): nat {
    if c.relay.Holding? then 1 else 0
  }

  /**
   Rounds carry questions 0, 1, 2 ...; the question held, the one dropped and those queued follow without a gap.
   Only a call whose result has won drops a question, and only one: the first after its last round.
   */
  ghost predicate InOrder(c: Call) {
    && (forall i | 0 <= i < |c.rounds| :: c.rounds[i].question == i)
    && c.pushed == |c.rounds| + Held(c) + |c.dropped| + |c.questions.items|
    && (forall i | 0 <= i < |c.questions.items| :: c.questions.items[i] == |c.rounds| + Held(c) + |c.dropped| + i)
    && (c.relay.Holding? ==> c.relay.question == |c.rounds|)
    && (c.questions.waiting ==> c.questions.items == [])
    && if c.ended then
         && c.ready && (c.relay == Won || c.relay == NoRelay)
         && c.dropped == (if c.questions.waiting then [] else [|c.rounds|])
       else
         && c.relay != Won && c.dropped == []
         && (c.questions.waiting <==> c.relay == Racing) && (c.questions.waiting ==> !c.ready)
  }

  /** Each question of a round is answered once, in order, but for the last one while it is parked. */
  ghost predicate Answered(c: Call) {
    && |c.rounds| - 1 <= |c.answers| <= |c.rounds|
    && (forall i | 0 <= i < |c.answers| :: c.answers[i].question == i)
  }

  predicate Open(c: Call) {
    |c.answers| < |c.rounds|
  }

  /** The last answer was given by the timer: the downstream has not come back. */
  predicate TimedOutLast(c: Call) {
    c.answers != [] && c.answers[|c.answers| - 1].Cancelled?
  }

  /** Nothing waits on the call and nothing is parked, exactly when its timer has run out. */
  ghost predicate Abandoned(c: Call) {
    && (forall i | 0 <= i < |c.answers| - 1 :: c.answers[i].Replied?)
    && (TimedOutLast(c) <==> !c.ended && c.relay == NoRelay && !Open(c))
  }

  ghost predicate CallOk(s: State, n: CallId) {
    n in s.calls ==>
      var c := s.calls[n];
      && InOrder(c) && Answered(c) && Abandoned(c)
      && (forall i | 0 <= i < |c.rounds| :: c.rounds[i].id in s.issued)
      && (Open(c) ==>
            && c.relay == NoRelay && !c.ended
            && var last := c.rounds[|c.rounds| - 1];
               last.id in s.parked && s.parked[last.id] == Parked(n, last.question))
  }

  ghost predicate ParkOk(s: State, id: ParkId) {
    id in s.parked ==>
      && id in s.issued && s.parked[id].call in s.calls
      && var c := s.calls[s.parked[id].call];
         Open(c) && c.rounds[|c.rounds| - 1] == Round(id, s.parked[id].question)
  }

  /** No two rounds, of whatever calls, share an id. */
  ghost predicate Unique(s: State, n: CallId, k: nat, m: CallId, j: nat) {
    n in s.calls && m in s.calls && k < |s.calls[n].rounds| && j < |s.calls[m].rounds| ==>
      (s.calls[n].rounds[k].id == s.calls[m].rounds[j].id ==> n == m && k == j)
  }

  ghost predicate Sound(s: State) {
    && (forall n :: CallOk(s, n))
    && (forall id :: ParkOk(s, id))
    && (forall n, k, m, j :: Unique(s, n, k, m, j))
  }

  lemma RelayedIsInOrder(c: Call)
    requires InOrder(c) && c.relay == NoRelay && !c.ended
    ensures InOrder(Relayed(c))
  {
  }

  lemma AskedIsInOrder(c: Call)
    requires InOrder(c)
    ensures InOrder(Asked(c))
  {
  }

  lemma AskedIsOk(s: State, n: CallId, m: CallId)
    requires n in s.calls && CallOk(s, m)
    ensures CallOk(s.(calls := s.calls[n := Asked(s.calls[n])]), m)
  {
    if m == n {
      AskedIsInOrder(s.calls[n]);
    }
    hide InOrder;
  }

  lemma ResultedIsOk(s: State, n: CallId, m: CallId)
    requires n in s.calls && CallOk(s, m)
    ensures CallOk(s.(calls := s.calls[n := Resulted(s.calls[n])]), m)
  {
  }

  lemma HandedOutIsOk(c: Call, id: ParkId)
    requires InOrder(c) && Answered(c) && Abandoned(c) && !Open(c) && c.relay.Holding?
    ensures
      var d := c.(relay := NoRelay, rounds := c.rounds + [Round(id, c.relay.question)]);
      InOrder(d) && Answered(d) && Abandoned(d) && Open(d) && !d.ended
  {
  }

  lemma GoneOnIsOk(s: State, n: CallId, id: ParkId, m: CallId)
    requires CallOk(s, n) && CallOk(s, m) && id !in s.issued
    requires n in s.calls && (s.calls[n].relay.Holding? || s.calls[n].relay.Won?)
    ensures CallOk(GoneOn(s, n, id), m)
  {
    if s.calls[n].relay.Holding? {
      HandedOutIsOk(s.calls[n], id);
      hide InOrder, Answered, Abandoned;
    }
  }

  /** Answering the parked question and racing again keeps a call in order. */
  lemma RepliedIsOk(c: Call, q: nat)
    requires InOrder(c) && Answered(c) && Abandoned(c) && Open(c) && c.relay == NoRelay && !c.ended && q == |c.answers|
    ensures
      var r := Relayed(c.(answers := c.answers + [Replied(q)]));
      InOrder(r) && Answered(r) && Abandoned(r) && !Open(r) && r.rounds == c.rounds
  {
    RelayedIsInOrder(c.(answers := c.answers + [Replied(q)]));
    hide InOrder;
  }

  lemma ForwardedIsOk(s: State, id: ParkId, target: Target, m: CallId)
    requires ParkOk(s, id) && CallOk(s, m) && (id in s.parked ==> CallOk(s, s.parked[id].call))
    ensures CallOk(Forwarded(s, id, target), m)
  {
    if Found(s, id, target) {
      var n := s.parked[id].call;
      LastIsQuestion(s.calls[n]);
      RepliedIsOk(s.calls[n], s.parked[id].question);
    }
    hide InOrder, Answered, Abandoned, Relayed;
  }

  lemma LastIsQuestion(c: Call)
    requires InOrder(c) && Answered(c) && Open(c)
    ensures c.rounds[|c.rounds| - 1].question == |c.answers|
  {
  }

  lemma TimedOutIsOk(s: State, id: ParkId, m: CallId)
    requires ParkOk(s, id) && CallOk(s, m) && (id in s.parked ==> CallOk(s, s.parked[id].call))
    ensures CallOk(TimedOut(s, id), m)
  {
  }

  lemma StepKeepsCallOk(s: State, op: Op, m: CallId)
    requires May(s, op) && Sound(s)
    ensures CallOk(Step(s, op), m)
  {
    hide GoneOn, Forwarded, TimedOut;
    assert CallOk(s, m);
    match op
    case StartCall(_, _) =>
    case Push(n) => AskedIsOk(s, n, m);
    case ResultArrives(n) => ResultedIsOk(s, n, m);
    case RelayGoesOn(n, id) =>
      assert CallOk(s, n);
      GoneOnIsOk(s, n, id, m);
    case Forward(id, target) =>
      assert ParkOk(s, id) && (id in s.parked ==> CallOk(s, s.parked[id].call));
      ForwardedIsOk(s, id, target, m);
    case Timeout(id) =>
      assert ParkOk(s, id) && (id in s.parked ==> CallOk(s, s.parked[id].call));
      TimedOutIsOk(s, id, m);
  }

  lemma StepKeepsParkOk(s: State, op: Op, id: ParkId)
    requires May(s, op) && Sound(s)
    ensures ParkOk(Step(s, op), id)
  {
    assert ParkOk(s, id);
    assert id in s.parked ==> CallOk(s, s.parked[id].call);
    if op.Forward? || op.Timeout? {
      assert ParkOk(s, op.id);
    } else if op.RelayGoesOn? {
      assert CallOk(s, op.call);
    }
  }

  lemma StepKeepsUnique(s: State, op: Op, n: CallId, k: nat, m: CallId, j: nat)
    requires May(s, op) && Sound(s)
    ensures Unique(Step(s, op), n, k, m, j)
  {
    assert Unique(s, n, k, m, j) && CallOk(s, n) && CallOk(s, m);
    RoundsGrow(s, op, n);
    RoundsGrow(s, op, m);
    hide Step, May, InOrder, Answered;
  }

  /** The rounds of a call that a step leaves: those it had, and one with a new id if its relay went on. */
  lemma RoundsGrow(s: State, op: Op, n: CallId)
    requires May(s, op)
    ensures n in Step(s, op).calls && n !in s.calls ==> Step(s, op).calls[n].rounds == []
    ensures n in Step(s, op).calls && n in s.calls ==>
              || Step(s, op).calls[n].rounds == s.calls[n].rounds
              || (op.RelayGoesOn? && op.call == n && op.id !in s.issued && s.calls[n].relay.Holding?
                  && Step(s, op).calls[n].rounds == s.calls[n].rounds + [Round(op.id, s.calls[n].relay.question)])
  {
  }

  predicate IsRun(s: State, ops: seq<Op>)
    decreases ops
  {
    ops == [] || (May(s, ops[0]) && IsRun(Step(s, ops[0]), ops[1..]))
  }

  function Run(s: State, ops: seq<Op>): State
    requires IsRun(s, ops)
    decreases ops
  {
    if ops == [] then s else Run(Step(s, ops[0]), ops[1..])
  }

  lemma StepKeepsSound(s: State, op: Op)
    requires May(s, op) && Sound(s)
    ensures Sound(Step(s, op))
  {
    hide Step, May, CallOk, ParkOk, Unique;
    forall n ensures CallOk(Step(s, op), n) {
      StepKeepsCallOk(s, op, n);
    }
    forall id ensures ParkOk(Step(s, op), id) {
      StepKeepsParkOk(s, op, id);
    }
    forall n, k, m, j ensures Unique(Step(s, op), n, k, m, j) {
      StepKeepsUnique(s, op, n, k, m, j);
    }
  }

  lemma {:induction false} RunKeepsSound(s: State, ops: seq<Op>)
    requires IsRun(s, ops) && Sound(s)
    ensures Sound(Run(s, ops))
    decreases ops
  {
    hide Step, May, Sound;
    if ops != [] {
      StepKeepsSound(s, ops[0]);
      RunKeepsSound(Step(s, ops[0]), ops[1..]);
    }
  }

  /** Where every question pushed is, in the order pushed: handed out, held by a round, dropped, or queued. */
  function Places(c: Call): seq<nat> {
    seq(|c.rounds|, i requires 0 <= i < |c.rounds| => c.rounds[i].question)
    + (if c.relay.Holding? then [c.relay.question] else []) + c.dropped + c.questions.items
  }

  /** Questions reach the downstream in the order pushed, and each of them is in one place. */
  lemma QuestionsReachRoundsInOrder(ops: seq<Op>, n: CallId)
    requires IsRun(EMPTY, ops) && n in Run(EMPTY, ops).calls
    ensures var c := Run(EMPTY, ops).calls[n];
            |Places(c)| == c.pushed && forall i | 0 <= i < c.pushed :: Places(c)[i] == i
  {
    hide Run, IsRun;
    RunKeepsSound(EMPTY, ops);
    assert CallOk(Run(EMPTY, ops), n);
  }

  /** A question handed out has one answer, or none while it is parked; only the last one can be parked. */
  lemma QuestionsAreAnsweredOnce(ops: seq<Op>, n: CallId, k: nat)
    requires IsRun(EMPTY, ops) && n in Run(EMPTY, ops).calls && k < |Run(EMPTY, ops).calls[n].rounds|
    ensures
      var s := Run(EMPTY, ops);
      var c := s.calls[n];
      && (c.rounds[k].id in s.parked <==> !IsAnswered(c, k))
      && (forall i, j | 0 <= i < j < |c.answers| :: c.answers[i].question != c.answers[j].question)
      && (c.rounds[k].id in s.parked ==> k == |c.rounds| - 1 && s.parked[c.rounds[k].id] == Parked(n, k))
  {
    hide Run, IsRun;
    RunKeepsSound(EMPTY, ops);
    var s := Run(EMPTY, ops);
    assert CallOk(s, n);
    hide InOrder, ParkOk, Unique;
    RoundIsParkedOrAnswered(s, n, k);
  }

  lemma RoundIsParkedOrAnswered(s: State, n: CallId, k: nat)
    requires Sound(s) && n in s.calls && k < |s.calls[n].rounds|
    ensures s.calls[n].rounds[k].id in s.parked <==> Open(s.calls[n]) && k == |s.calls[n].rounds| - 1
    ensures var c := s.calls[n];
            c.rounds[k].id in s.parked <==> !IsAnswered(c, k)
  {
    var c := s.calls[n];
    var id := c.rounds[k].id;
    assert CallOk(s, n) && ParkOk(s, id);
    if id in s.parked {
      var m := s.parked[id].call;
      assert Unique(s, n, k, m, |s.calls[m].rounds| - 1);
    }
    if k < |c.answers| {
      AnswersInOrder(s, n, k);
    }
    hide InOrder;
  }

  /** While a round waits on a call, or holds a question for it, nothing of that call is parked; and at most one thing ever is. */
  lemma NeverWaitingAndParked(ops: seq<Op>, id: ParkId, other: ParkId)
    requires IsRun(EMPTY, ops) && id in Run(EMPTY, ops).parked && other in Run(EMPTY, ops).parked
    ensures
      var s := Run(EMPTY, ops);
      && s.parked[id].call in s.calls && s.calls[s.parked[id].call].relay == NoRelay
      && (s.parked[other].call == s.parked[id].call ==> other == id)
  {
    hide Run, IsRun, InOrder, Answered;
    RunKeepsSound(EMPTY, ops);
    var s := Run(EMPTY, ops);
    assert ParkOk(s, id) && ParkOk(s, other) && CallOk(s, s.parked[id].call);
  }

  /** A step drops a question exactly if a round starts on a call with its result ready and questions queued, or the
      question comes after the result has won the race that waited for it. */
  lemma WhatDropsAQuestion(s: State, op: Op, n: CallId)
    requires May(s, op) && Sound(s) && n in s.calls
    ensures
      var c := s.calls[n];
      Step(s, op).calls[n].dropped != c.dropped <==>
        || (op.Forward? && Found(s, op.id, op.target) && s.parked[op.id].call == n && c.ready && c.questions.items != [])
        || (op == Push(n) && c.ended && c.questions.waiting)
  {
    assert CallOk(s, n);
    if op.Forward? || op.Timeout? {
      assert ParkOk(s, op.id);
    }
    hide Answered, Abandoned;
  }

  // ---- Which questions are never answered ----

  /** No round waits on an unfinished call, and nothing is parked, exactly when its timer ran out. */
  lemma AbandonedByTimeout(ops: seq<Op>, n: CallId)
    requires IsRun(EMPTY, ops) && n in Run(EMPTY, ops).calls && !Run(EMPTY, ops).calls[n].ended
    ensures
      var c := Run(EMPTY, ops).calls[n];
      c.relay == NoRelay && !Open(c) <==> exists i | 0 <= i < |c.answers| :: c.answers[i].Cancelled?
  {
    hide Run, IsRun, InOrder;
    RunKeepsSound(EMPTY, ops);
    assert CallOk(Run(EMPTY, ops), n);
  }

  /** From here on no question after the first `k` can be handed out. */
  ghost predicate Closed(s: State, n: CallId, k: nat) {
    && n in s.calls
    && var c := s.calls[n];
       |c.rounds| + Held(c) <= k && (c.ready || TimedOutLast(c))
  }

  lemma StepKeepsClosed(s: State, op: Op, n: CallId, k: nat)
    requires May(s, op) && Sound(s) && Closed(s, n, k)
    ensures Closed(Step(s, op), n, k)
  {
    assert CallOk(s, n);
    if op.Forward? || op.Timeout? {
      assert ParkOk(s, op.id);
    }
  }

  lemma {:induction false} RunKeepsClosed(s: State, ops: seq<Op>, n: CallId, k: nat)
    requires IsRun(s, ops) && Sound(s) && Closed(s, n, k)
    ensures Closed(Run(s, ops), n, k)
    decreases ops
  {
    hide Step, May, Sound, Closed;
    if ops != [] {
      StepKeepsClosed(s, ops[0], n, k);
      StepKeepsSound(s, ops[0]);
      RunKeepsClosed(Step(s, ops[0]), ops[1..], n, k);
    }
  }

  /** A call whose timer ran out, or whose result has won, never hands out or answers anything again. */
  lemma {:induction false} NothingMoreHappens(s: State, ops: seq<Op>, n: CallId)
    requires IsRun(s, ops) && Sound(s) && n in s.calls && (s.calls[n].ended || TimedOutLast(s.calls[n]))
    ensures n in Run(s, ops).calls
    ensures Run(s, ops).calls[n].rounds == s.calls[n].rounds && Run(s, ops).calls[n].answers == s.calls[n].answers
    decreases ops
  {
    hide Step, May, Sound;
    if ops != [] {
      OverStaysOver(s, ops[0], n);
      StepKeepsSound(s, ops[0]);
      NothingMoreHappens(Step(s, ops[0]), ops[1..], n);
    }
  }

  lemma OverStaysOver(s: State, op: Op, n: CallId)
    requires May(s, op) && Sound(s) && n in s.calls && (s.calls[n].ended || TimedOutLast(s.calls[n]))
    ensures var t := Step(s, op);
            && n in t.calls && (t.calls[n].ended || TimedOutLast(t.calls[n]))
            && t.calls[n].rounds == s.calls[n].rounds && t.calls[n].answers == s.calls[n].answers
  {
    assert CallOk(s, n);
    if op.Forward? || op.Timeout? {
      assert ParkOk(s, op.id);
    }
  }

  ghost predicate IsAnswered(c: Call, k: nat) {
    exists i | 0 <= i < |c.answers| :: c.answers[i].question == k
  }

  predicate LeftBehind(c: Call, k: nat) {
    k in c.dropped || (k in c.questions.items && (c.ready || TimedOutLast(c)))
  }

  /**
   A question pushed has been answered or can still be, unless it was dropped, or is queued on a call whose result
   is ready or whose timer ran out. Then no continuation answers it.
   */
  lemma WhichQuestionsCanBeAnswered(s: State, n: CallId, k: nat)
    requires Sound(s) && n in s.calls && k < s.calls[n].pushed
    ensures (exists ops :: IsRun(s, ops) && AnsweredAfter(s, ops, n, k)) <==> !LeftBehind(s.calls[n], k)
  {
    if LeftBehind(s.calls[n], k) {
      forall ops | IsRun(s, ops) ensures !AnsweredAfter(s, ops, n, k) {
        LeftBehindStays(s, ops, n, k);
      }
    } else {
      var ops := AnswerComes(s, n, k);
    }
  }

  lemma {:induction false} NewId(ids: set<ParkId>) returns (id: ParkId)
    ensures forall other | other in ids :: other < id
    decreases ids
  {
    if ids == {} {
      id := 0;
    } else {
      var x :| x in ids;
      var above := NewId(ids - {x});
      id := if above <= x then x + 1 else above;
      forall other | other in ids ensures other < id {
        assert other == x || other in ids - {x};
      }
    }
  }

  /** The step that brings question `k` nearer to its answer: the timer, the end of a round, or a reply. */
  lemma NextStep(s: State, n: CallId, k: nat) returns (op: Op)
    requires Sound(s) && n in s.calls && k < s.calls[n].pushed && !LeftBehind(s.calls[n], k) && k >= |s.calls[n].answers|
    ensures May(s, op) && n in Step(s, op).calls
    ensures
      var c, d := s.calls[n], Step(s, op).calls[n];
      && k < d.pushed && !LeftBehind(d, k)
      && (k < |d.answers| || 2 * |d.questions.items| + Held(d) < 2 * |c.questions.items| + Held(c))
  {
    var c := s.calls[n];
    assert CallOk(s, n);
    if c.relay.Holding? {
      var id := NewId(s.issued);
      op := RelayGoesOn(n, id);
    } else {
      WhereItIs(c, k);
      var last := c.rounds[|c.rounds| - 1];
      op := if k < |c.rounds| then Timeout(last.id) else Forward(last.id, c.target);
    }
    hide Sound;
  }

  /** A question not answered, not left behind and not held is parked, or queued behind one that is. */
  lemma WhereItIs(c: Call, k: nat)
    requires InOrder(c) && Answered(c) && Abandoned(c) && !c.relay.Holding?
    requires |c.answers| <= k < c.pushed && !LeftBehind(c, k) && (Open(c) ==> !c.ended)
    ensures Open(c) && !c.ended
    ensures k < |c.rounds| ==> k == |c.answers|
    ensures k >= |c.rounds| ==> c.questions.items != [] && !c.ready && |c.dropped| == 0
    ensures k >= |c.rounds| ==> k in c.questions.items
  {
    if k >= |c.rounds| + |c.dropped| {
      assert c.questions.items[k - |c.rounds| - |c.dropped|] == k;
    }
  }

  lemma {:induction false} AnswerComes(s: State, n: CallId, k: nat) returns (ops: seq<Op>)
    requires Sound(s) && n in s.calls && k < s.calls[n].pushed && !LeftBehind(s.calls[n], k)
    ensures IsRun(s, ops) && AnsweredAfter(s, ops, n, k)
    decreases if k < |s.calls[n].answers| then 0 else 1, 2 * |s.calls[n].questions.items| + Held(s.calls[n])
  {
    hide Step, May, LeftBehind, Sound;
    if k < |s.calls[n].answers| {
      ops := [];
      AnswersInOrder(s, n, k);
    } else {
      var op := NextStep(s, n, k);
      StepKeepsSound(s, op);
      var rest := AnswerComes(Step(s, op), n, k);
      ops := [op] + rest;
      assert ops[1..] == rest;
    }
  }

  lemma AnswersInOrder(s: State, n: CallId, k: nat)
    requires Sound(s) && n in s.calls && k < |s.calls[n].answers|
    ensures IsAnswered(s.calls[n], k)
  {
    assert CallOk(s, n);
    assert s.calls[n].answers[k].question == k;
  }

  ghost predicate AnsweredAfter(s: State, ops: seq<Op>, n: CallId, k: nat)
    requires IsRun(s, ops)
  {
    n in Run(s, ops).calls && IsAnswered(Run(s, ops).calls[n], k)
  }

  lemma LeftBehindStays(s: State, ops: seq<Op>, n: CallId, k: nat)
    requires Sound(s) && n in s.calls && LeftBehind(s.calls[n], k) && IsRun(s, ops)
    ensures !AnsweredAfter(s, ops, n, k)
  {
    LeftBehindIsClosed(s, n, k);
    RunKeepsClosed(s, ops, n, k);
    RunKeepsSound(s, ops);
    assert CallOk(Run(s, ops), n);
    hide Run, IsRun;
  }

  lemma LeftBehindIsClosed(s: State, n: CallId, k: nat)
    requires Sound(s) && n in s.calls && LeftBehind(s.calls[n], k)
    ensures Closed(s, n, k)
  {
    assert CallOk(s, n);
    hide Answered, Abandoned;
  }

  /** An id that has been answered, or never was parked, answers nothing. */
  lemma SpentIdsChangeNothing(s: State, id: ParkId, target: Target)
    requires id !in s.parked
    ensures Step(s, Forward(id, target)) == s && Step(s, Timeout(id)) == s
  {
  }

  /** ... and such an id never comes back: the answer of a late or repeated request reaches no other question. */
  lemma {:induction false} SpentIdsStaySpent(s: State, ops: seq<Op>, id: ParkId)
    requires IsRun(s, ops) && id in s.issued && id !in s.parked
    ensures id in Run(s, ops).issued && id !in Run(s, ops).parked
    decreases ops
  {
    if ops != [] {
      SpentStaysSpent(s, ops[0], id);
      SpentIdsStaySpent(Step(s, ops[0]), ops[1..], id);
    }
    hide Step, May;
  }

  lemma SpentStaysSpent(s: State, op: Op, id: ParkId)
    requires May(s, op) && id in s.issued && id !in s.parked
    ensures id in Step(s, op).issued && id !in Step(s, op).parked
  {
  }

  lemma {:induction false} RunThen(s: State, ops: seq<Op>, op: Op)
    requires IsRun(s, ops) && May(Run(s, ops), op)
    ensures IsRun(s, ops + [op]) && Run(s, ops + [op]) == Step(Run(s, ops), op)
    decreases ops
  {
    hide May, Step;
    if ops == [] {
      assert [] + [op] == [op] && [op][1..] == [];
    } else {
      RunThen(Step(s, ops[0]), ops[1..], op);
      assert (ops + [op])[0] == ops[0] && (ops + [op])[1..] == ops[1..] + [op];
    }
  }

  lemma Then(ops: seq<Op>, op: Op) returns (more: seq<Op>)
    requires IsRun(EMPTY, ops) && May(Run(EMPTY, ops), op)
    ensures IsRun(EMPTY, more) && Run(EMPTY, more) == Step(Run(EMPTY, ops), op)
  {
    more := ops + [op];
    RunThen(EMPTY, ops, op);
  }

  /** A question queued when the result is ready goes to the race that the result wins, and is dropped. */
  lemma ResultDropsQueuedQuestion(n: CallId, id: ParkId, target: Target) returns (ops: seq<Op>)
    ensures IsRun(EMPTY, ops) && n in Run(EMPTY, ops).calls
    ensures var c := Run(EMPTY, ops).calls[n];
            c.ended && c.pushed == 2 && c.rounds == [Round(id, 0)] && c.questions.items == [] && !c.relay.Holding?
  {
    hide Run, IsRun;
    assert IsRun(EMPTY, []) && Run(EMPTY, []) == EMPTY by {
      RunOfNone(EMPTY);
    }
    ops := [];
    ops := Then(ops, StartCall(n, target));
    ops := Then(ops, Push(n));
    ops := Then(ops, RelayGoesOn(n, id));
    ops := Then(ops, Push(n));
    ops := Then(ops, ResultArrives(n));
    ops := Then(ops, Forward(id, target));
  }

  lemma RunOfNone(s: State)
    ensures IsRun(s, []) && Run(s, []) == s
  {
  }

  /** After a timeout the call is abandoned: the next question it asks is queued for good. */
  lemma TimeoutStrandsTheNextQuestion(n: CallId, id: ParkId, target: Target) returns (ops: seq<Op>)
    ensures IsRun(EMPTY, ops) && n in Run(EMPTY, ops).calls
    ensures var c := Run(EMPTY, ops).calls[n];
            !c.ended && c.pushed == 2 && c.questions.items == [1] && c.answers == [Cancelled(0)] && LeftBehind(c, 1)
  {
    hide Run, IsRun;
    RunOfNone(EMPTY);
    ops := [];
    ops := Then(ops, StartCall(n, target));
    ops := Then(ops, Push(n));
    ops := Then(ops, RelayGoesOn(n, id));
    ops := Then(ops, Timeout(id));
    ops := Then(ops, Push(n));
  }

  /** Over every run: a question is answered once or can still be, with exactly the exceptions of `LeftBehind`. */
  lemma EveryQuestionIsAnsweredOrLeftBehind(ops: seq<Op>, n: CallId, k: nat)
    requires IsRun(EMPTY, ops) && n in Run(EMPTY, ops).calls && k < Run(EMPTY, ops).calls[n].pushed
    ensures
      var s := Run(EMPTY, ops);
      (exists more :: IsRun(s, more) && AnsweredAfter(s, more, n, k)) <==> !LeftBehind(s.calls[n], k)
  {
    RunKeepsSound(EMPTY, ops);
    WhichQuestionsCanBeAnswered(Run(EMPTY, ops), n, k);
    hide Run, IsRun, Sound, LeftBehind;
  }

  // ---- The parked calls ----

  /** The map of parked calls and the calls themselves, one method for each stretch of code without an await. */
  class ParkedCalls {
    var calls: map<CallId, Call>
    var parked: map<ParkId, Parked>
    ghost var issued: set<ParkId>

    ghost function Contents(): State
      reads this
    {
      State(calls, parked, issued)
    }

    ghost predicate Valid()
      reads this
    {
      Sound(Contents())
    }

    constructor ()
      ensures Valid() && Contents() == EMPTY
    {
      calls, parked, issued := map[], map[], {};
    }

    /** Races the result against the next question. */
    method Relay(call: CallId)
      requires call in calls
      modifies `calls
      ensures calls == old(calls)[call := Relayed(old(calls)[call])]
    {
      var c := calls[call];
      var first := c.questions.items;
      var relay := if c.ready then Won else if first != [] then Holding(first[0]) else Racing;
      var lost := if c.ready then first[..Least(1, |first|)] else [];
      calls := calls[call := c.(questions := Taken(c.questions), relay := relay, ended := c.ended || c.ready,
                                dropped := c.dropped + lost)];
      assert !c.ready ==> c.dropped + [] == c.dropped;
    }

    method Start(call: CallId, target: Target)
      requires Valid() && call !in calls
      modifies this
      ensures Valid() && Contents() == Step(old(Contents()), StartCall(call, target))
    {
      StepKeepsSound(Contents(), StartCall(call, target));
      hide Sound;
      calls := calls[call := Call(target, Queue([], false), NoRelay, false, 0, [], [], [], false)];
      Relay(call);
      assert Contents() == Step(old(Contents()), StartCall(call, target));
    }

    /** The race is decided: the round ends with the result, or parks the question under a new id. */
    method EndRound(call: CallId, id: ParkId) returns (question: Option<nat>)
      requires Valid() && May(Contents(), RelayGoesOn(call, id))
      modifies this
      ensures Valid() && Contents() == Step(old(Contents()), RelayGoesOn(call, id))
      ensures question.Some? <==> old(calls[call].relay.Holding?)
      ensures question.Some? ==> id in parked && parked[id] == Parked(call, question.value)
    {
      StepKeepsSound(Contents(), RelayGoesOn(call, id));
      hide Sound;
      var c := calls[call];
      calls := calls[call := c.(relay := NoRelay)];
      if c.relay.Won? {
        return None;
      }
      question := Some(c.relay.question);
      parked := parked[id := Parked(call, c.relay.question)];
      issued := issued + {id};
      calls := calls[call := calls[call].(rounds := c.rounds + [Round(id, c.relay.question)])];
      assert Contents() == Step(old(Contents()), RelayGoesOn(call, id));
    }

    /** A downstream request that names a parked call: refused if it expired, else answered and raced again. */
    method ForwardAnswer(id: ParkId, target: Target) returns (found: bool)
      requires Valid()
      modifies this
      ensures Valid() && Contents() == Step(old(Contents()), Forward(id, target))
      ensures found <==> old(id in parked && parked[id].call in calls && calls[parked[id].call].target == target)
      ensures !found ==> Contents() == old(Contents())
      ensures found ==> parked == old(parked) - {id} && old(parked)[id].call in calls
                        && calls[old(parked)[id].call].answers
                           == old(calls[parked[id].call].answers) + [Replied(old(parked)[id].question)]
    {
      StepKeepsSound(Contents(), Forward(id, target));
      assert ParkOk(Contents(), id);
      hide Sound;
      if id !in parked || calls[parked[id].call].target != target {
        return false;
      }
      var entry := parked[id];
      var c := calls[entry.call];
      parked := parked - {id};
      calls := calls[entry.call := c.(answers := c.answers + [Replied(entry.question)])];
      Relay(entry.call);
      assert Contents() == Step(old(Contents()), Forward(id, target));
      return true;
    }

    method Expire(id: ParkId)
      requires Valid()
      modifies this
      ensures Valid() && Contents() == Step(old(Contents()), Timeout(id))
      ensures parked == old(parked) - {id} && issued == old(issued)
    {
      StepKeepsSound(Contents(), Timeout(id));
      assert ParkOk(Contents(), id);
      hide Sound;
      if id in parked {
        var entry := parked[id];
        var c := calls[entry.call];
        parked := parked - {id};
        calls := calls[entry.call := c.(answers := c.answers + [Cancelled(entry.question)])];
      }
    }
  }
}
