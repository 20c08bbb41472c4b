/** Questions that no running call can answer: they wait in the pool until somebody responds or the time is up. */
module Elicitations {
  import opened Common

  type Id = nat

  datatype Action = Accept | Decline | Cancel

  datatype Answer = Answer(action: Action, content: Option<string>)

  datatype Resolved = Resolved(id: Id, answer: Answer)

  /** `next` counts the ids given out; `resolved` is the history of promises resolved. */
  datatype State = State(next: nat, waiting: map<Id, string>, resolved: seq<Resolved>)

  const EMPTY := State(0, map[], [])

  datatype Op =
    | Queue(question: string)
    | Respond(id: Id, answer: Answer)
    | Timeout(id: Id)

  /** Only an acceptance carries content. */
  function Trimmed(answer: Answer): Answer {
    if answer.action == Accept then answer else Answer(answer.action, None)
  }

  function Resolve(s: State, id: Id, answer: Answer): State {
    if id in s.waiting then s.(waiting := s.waiting - {id}, resolved := s.resolved + [Resolved(id, answer)]) else s
  }

  function Step(s: State, op: Op): State {
    match op
    case Queue(question) => s.(next := s.next + 1, waiting := s.waiting[s.next + 1 := question])
    case Respond(id, answer) => Resolve(s, id, Trimmed(answer))
    case Timeout(id) => Resolve(s, id, Answer(Cancel, None))
  }

  function Run(s: State, ops: seq<Op>): State
    decreases ops
  {
    if ops == [] then s else Run(Step(s, ops[0]), ops[1..])
  }

  /** A run takes every step, in order. */
  lemma {:induction false} RunThen(s: State, ops: seq<Op>, op: Op)
    ensures Run(s, []) == s && Run(s, ops + [op]) == Step(Run(s, ops), op)
    decreases ops
  {
    if ops == [] {
      assert [] + [op] == [op] && [op][1..] == [];
    } else {
      RunThen(Step(s, ops[0]), ops[1..], op);
      assert (ops + [op])[0] == ops[0] && (ops + [op])[1..] == ops[1..] + [op];
    }
    hide Step;
  }

  predicate IsResolved(s: State, id: Id) {
    exists i | 0 <= i < |s.resolved| :: s.resolved[i].id == id
  }

  /** Every id given out is waiting or resolved, never both, and never resolved twice. */
  ghost predicate Sound(s: State) {
    && (forall id: Id :: id in s.waiting || IsResolved(s, id) <==> 1 <= id <= s.next)
    && (forall id: Id :: !(id in s.waiting && IsResolved(s, id)))
    && (forall i, j | 0 <= i < j < |s.resolved| :: s.resolved[i].id != s.resolved[j].id)
  }

  lemma ResolvedWith(s: State, id: Id, answer: Answer, other: Id)
    requires id in s.waiting
    ensures IsResolved(Resolve(s, id, answer), other) <==> IsResolved(s, other) || other == id
  {
    var t := Resolve(s, id, answer);
    if other == id {
      assert t.resolved[|s.resolved|].id == id;
    }
    if IsResolved(s, other) {
      var i :| 0 <= i < |s.resolved| && s.resolved[i].id == other;
      assert t.resolved[i].id == other;
    }
  }

  lemma ResolveIsSound(s: State, id: Id, answer: Answer)
    requires Sound(s)
    ensures Sound(Resolve(s, id, answer))
  {
    if id in s.waiting {
      var t := Resolve(s, id, answer);
      forall other ensures IsResolved(t, other) <==> IsResolved(s, other) || other == id {
        ResolvedWith(s, id, answer, other);
      }
      forall i | 0 <= i < |s.resolved| ensures s.resolved[i].id != id {
        assert IsResolved(s, s.resolved[i].id);
      }
      hide IsResolved;
    }
  }

  lemma QueueIsSound(s: State, question: string)
    requires Sound(s)
    ensures Sound(Step(s, Queue(question)))
  {
    var t := Step(s, Queue(question));
    assert forall id :: IsResolved(t, id) <==> IsResolved(s, id);
    hide IsResolved;
  }

  lemma StepKeepsSound(s: State, op: Op)
    requires Sound(s)
    ensures Sound(Step(s, op))
  {
    hide Sound, Resolve;
    match op
    case Queue(question) => QueueIsSound(s, question);
    case Respond(id, answer) => ResolveIsSound(s, id, Trimmed(answer));
    case Timeout(id) => ResolveIsSound(s, id, Answer(Cancel, None));
  }

  lemma {:induction false} RunKeepsSound(s: State, ops: seq<Op>)
    requires Sound(s)
    ensures Sound(Run(s, ops))
    decreases ops
  {
    hide Sound, Step;
    if ops != [] {
      StepKeepsSound(s, ops[0]);
      RunKeepsSound(Step(s, ops[0]), ops[1..]);
    }
  }

  /** Over every run: a queued question waits or has been resolved, and nothing is resolved twice. */
  lemma EachIsResolvedOnce(ops: seq<Op>, id: Id)
    ensures var s := Run(EMPTY, ops);
            && (1 <= id <= s.next ==> (id in s.waiting <==> !IsResolved(s, id)))
            && (forall i, j | 0 <= i < |s.resolved| && 0 <= j < |s.resolved| ::
                  s.resolved[i].id == s.resolved[j].id ==> i == j)
  {
    RunKeepsSound(EMPTY, ops);
    hide Run, IsResolved;
  }

  /** A second response, or the timer after a response, changes nothing. */
  lemma SecondAnswerIsIgnored(s: State, id: Id, first: Answer, second: Answer)
    ensures var t := Step(s, Respond(id, first)); Step(t, Respond(id, second)) == t && Step(t, Timeout(id)) == t
    ensures var t := Step(s, Timeout(id)); Step(t, Respond(id, second)) == t && Step(t, Timeout(id)) == t
  {
    hide Trimmed;
  }

  /** A response settles a waiting question with the action given, and with the content given if that is an acceptance. */
  lemma ResponseIsDelivered(s: State, id: Id, answer: Answer)
    requires id in s.waiting
    ensures
      var t := Step(s, Respond(id, answer));
      && t.waiting == s.waiting - {id} && t.next == s.next
      && |t.resolved| == |s.resolved| + 1 && t.resolved[..|s.resolved|] == s.resolved
      && var last := t.resolved[|s.resolved|];
         && last.id == id && last.answer.action == answer.action
         && (answer.action.Accept? ==> last.answer.content == answer.content)
         && (!answer.action.Accept? ==> last.answer.content == None)
  {
  }

  /** The timer settles it as cancelled. */
  lemma TimeoutCancels(s: State, id: Id)
    requires id in s.waiting
    ensures
      var t := Step(s, Timeout(id));
      && t.waiting == s.waiting - {id} && t.next == s.next
      && |t.resolved| == |s.resolved| + 1 && t.resolved[..|s.resolved|] == s.resolved
      && t.resolved[|s.resolved|].id == id && t.resolved[|s.resolved|].answer.action.Cancel?
      && t.resolved[|s.resolved|].answer.content == None
  {
  }

  class ElicitationQueue {
    var next: nat
    var waiting: map<Id, string>
    ghost var resolved: seq<Resolved>

    ghost function Contents(): State
      reads this
    {
      State(next, waiting, resolved)
    }

    constructor ()
      ensures Contents() == EMPTY
    {
      next, waiting, resolved := 0, map[], [];
    }

    method QueueElicitation(question: string) returns (id: Id)
      requires Sound(Contents())
      modifies this
      ensures Sound(Contents()) && Contents() == Step(old(Contents()), Queue(question))
      ensures id !in old(waiting) && id in waiting && !IsResolved(old(Contents()), id)
    {
      StepKeepsSound(Contents(), Queue(question));
      assert next + 1 !in waiting && !IsResolved(Contents(), next + 1);
      next := next + 1;
      id := next;
      waiting := waiting[id := question];
    }

    method RespondElicitation(id: Id, answer: Answer) returns (known: bool)
      requires Sound(Contents())
      modifies this
      ensures Sound(Contents()) && Contents() == Step(old(Contents()), Respond(id, answer))
      ensures known <==> id in old(waiting)
    {
      StepKeepsSound(Contents(), Respond(id, answer));
      hide Sound;
      known := id in waiting;
      if known {
        waiting := waiting - {id};
        resolved := resolved + [Resolved(id, Trimmed(answer))];
      }
    }
  }
}
