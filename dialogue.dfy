/** What one iteration of `MultiAgentChatbot.run` does to the two agents'
    histories, as a function on values, and what a whole session of such
    iterations does. The classes in module Agents are proved against it. */
module Dialogue {
  import opened Text
  import opened Routing

  /** One iteration's inputs: what the user typed, and the two model replies
      of that iteration (to the routing prompt, then to the persona prompt). */
  datatype Exchange = Exchange(input: string, classifierReply: string, personaReply: string)

  /** What an iteration produces: the loop ends, or the chosen agent answers.
      `classification` and `request` are the two requests sent to the model. */
  datatype Outcome =
    | Exited
    | Answered(classification: seq<Message>, request: seq<Message>, speaker: Kind, reply: string)

  /** The chatbot's observable state: each agent's history and which of the
      two agents `current_agent` is. */
  datatype Conversation = Conversation(therapist: seq<Message>, logical: seq<Message>, current: Kind)

  /** The state right after `MultiAgentChatbot()`. */
  const Start: Conversation := Conversation([], [], Therapist)

  function Total(c: Conversation): nat {
    |c.therapist| + |c.logical|
  }

  /** `user_input.lower() == "exit"`: no trimming, and no other word ends the loop. */
  predicate IsExit(input: string)
    ensures IsExit(input) ==> |input| == 4
  {
    Lower(input) == "exit"
  }

  /** One iteration: the exit word changes nothing; any other input is
      appended to both histories, the reply to the routing prompt picks the
      agent, and only that agent records its answer. */
  function Step(c: Conversation, e: Exchange): (r: (Conversation, Outcome))
    ensures IsExit(e.input) <==> r.1 == Exited
    ensures IsExit(e.input) ==> r.0 == c
    ensures !IsExit(e.input) ==>
              Total(r.0) == Total(c) + 3
              && c.therapist < r.0.therapist && c.logical < r.0.logical
              && r.0.current != Base && r.1.speaker == r.0.current
  {
    if IsExit(e.input) then (c, Exited)
    else
      var chosen := Chosen(e.classifierReply);
      (Conversation(c.therapist + Heard(Therapist, e), c.logical + Heard(Logical, e), chosen),
       Answered(ClassifierRequest(e.input), PersonaRequest(chosen, e.input), chosen, e.personaReply))
  }

  /** What a handled exchange appends to the history of the agent `agent`:
      the user message, then the reply if the agent was the one chosen. */
  function Heard(agent: Kind, e: Exchange): seq<Message> {
    [Message(User, e.input)]
    + (if Chosen(e.classifierReply) == agent then [Message(Assistant, e.personaReply)] else [])
  }

  /** The history of one of the two agents. */
  function History(c: Conversation, agent: Kind): seq<Message>
    requires agent != Base
  {
    if agent == Therapist then c.therapist else c.logical
  }

  /** The state and outcome of an iteration on a line other than the exit word. */
  lemma StepAnswered(c: Conversation, e: Exchange)
    requires !IsExit(e.input)
    ensures var chosen := Chosen(e.classifierReply);
            var heard, said := Message(User, e.input), Message(Assistant, e.personaReply);
            Step(c, e) == (Conversation(c.therapist + [heard] + (if chosen == Therapist then [said] else []),
                                        c.logical + [heard] + (if chosen == Logical then [said] else []),
                                        chosen),
                           Answered(ClassifierRequest(e.input), PersonaRequest(chosen, e.input), chosen, e.personaReply))
  {
    var chosen := Chosen(e.classifierReply);
    var heard, said := Message(User, e.input), Message(Assistant, e.personaReply);
    var extra := if chosen == Therapist then [said] else [];
    assert c.therapist + Heard(Therapist, e) == c.therapist + [heard] + extra;
    extra := if chosen == Logical then [said] else [];
    assert c.logical + Heard(Logical, e) == c.logical + [heard] + extra;
  }

  /** The exchanges the loop handles before it reads the exit word. */
  function BeforeExit(es: seq<Exchange>): (r: seq<Exchange>)
    ensures r <= es
    ensures forall i :: 0 <= i < |r| ==> !IsExit(r[i].input)
    ensures |r| < |es| ==> IsExit(es[|r|].input)
  {
    if es == [] || IsExit(es[0].input) then [] else [es[0]] + BeforeExit(es[1..])
  }

  /** The state after the loop has run over `es`, stopping at the exit word. */
  function Session(c: Conversation, es: seq<Exchange>): (r: Conversation)
    ensures c.therapist <= r.therapist && c.logical <= r.logical
    decreases |es|
  {
    if es == [] || IsExit(es[0].input) then c else Session(Step(c, es[0]).0, es[1..])
  }

  /** The contents of the messages of `ms` that have the given role, in order. */
  function Said(ms: seq<Message>, role: Role): seq<string> {
    if ms == [] then []
    else (if ms[0].role == role then [ms[0].content] else []) + Said(ms[1..], role)
  }

  function Inputs(es: seq<Exchange>): seq<string> {
    if es == [] then [] else [es[0].input] + Inputs(es[1..])
  }

  /** The persona replies of the exchanges routed to the agent `name`. */
  function RepliesTo(agent: Kind, es: seq<Exchange>): seq<string> {
    if es == [] then []
    else (if Chosen(es[0].classifierReply) == agent then [es[0].personaReply] else [])
         + RepliesTo(agent, es[1..])
  }

  lemma {:induction false} SaidAppend(a: seq<Message>, b: seq<Message>, role: Role)
    ensures Said(a + b, role) == Said(a, role) + Said(b, role)
  {
    if a != [] {
      assert (a + b)[1..] == a[1..] + b;
      SaidAppend(a[1..], b, role);
    } else {
      assert a + b == b;
    }
  }

  /** The exit test ignores letter case but nothing else: exactly the four
      letters of "exit", each in either case. */
  lemma ExitWord(input: string)
    ensures IsExit(input) <==>
              |input| == 4
              && (input[0] == 'e' || input[0] == 'E') && (input[1] == 'x' || input[1] == 'X')
              && (input[2] == 'i' || input[2] == 'I') && (input[3] == 't' || input[3] == 'T')
  {
    if |input| == 4 {
      var l := Lower(input);
      LowerSpec(input);
      assert l[0] == LowerChar(input[0]) && l[1] == LowerChar(input[1]);
      assert l[2] == LowerChar(input[2]) && l[3] == LowerChar(input[3]);
    }
  }

  /** The hint printed by `run` names "bye", but neither it, "quit", nor a
      padded "exit" ends the loop; "EXIT" does. */
  lemma ExitExamples()
    ensures !IsExit("bye") && !IsExit("quit") && !IsExit(" exit") && !IsExit("")
    ensures IsExit("EXIT")
  {
    ExitWord("quit");
    ExitWord("EXIT");
  }

  /** Routing has no memory: whatever the histories and the current agent,
      an iteration with the same inputs chooses the same agent and sends the
      same two requests. */
  lemma StepForgetsHistory(c1: Conversation, c2: Conversation, e: Exchange)
    ensures Step(c1, e).1 == Step(c2, e).1
    ensures !IsExit(e.input) ==> Step(c1, e).0.current == Step(c2, e).0.current
  {
  }

  /** Nothing after the exit word is ever read. */
  lemma {:induction false} SessionStopsAtExit(c: Conversation, es: seq<Exchange>)
    ensures Session(c, es) == Session(c, BeforeExit(es))
    decreases |es|
  {
    if es != [] && !IsExit(es[0].input) {
      SessionStopsAtExit(Step(c, es[0]).0, es[1..]);
      assert BeforeExit(es)[1..] == BeforeExit(es[1..]);
    }
  }

  /** Each handled input adds three messages in all: one user message to each
      agent and one reply to the agent that answered. */
  lemma {:induction false} SessionGrowth(c: Conversation, es: seq<Exchange>)
    ensures Total(Session(c, es)) == Total(c) + 3 * |BeforeExit(es)|
    decreases |es|
  {
    if es != [] && !IsExit(es[0].input) {
      SessionGrowth(Step(c, es[0]).0, es[1..]);
    }
  }

  /** A handled exchange gives every agent one user message, and a reply only
      to the agent it is routed to. */
  lemma HeardSaid(agent: Kind, e: Exchange)
    ensures Said(Heard(agent, e), User) == [e.input]
    ensures Said(Heard(agent, e), Assistant)
            == if Chosen(e.classifierReply) == agent then [e.personaReply] else []
  {
    var h := Heard(agent, e);
    if Chosen(e.classifierReply) == agent {
      var said := Message(Assistant, e.personaReply);
      assert h[1..] == [said];
      assert [said][1..] == [];
      assert Said([said], User) == [] && Said([said], Assistant) == [e.personaReply];
    } else {
      assert h[1..] == [];
    }
  }

  /** One unrolling of `Session` and `BeforeExit`. */
  lemma SessionUnfold(c: Conversation, es: seq<Exchange>)
    requires es != []
    ensures IsExit(es[0].input) ==> Session(c, es) == c && BeforeExit(es) == []
    ensures !IsExit(es[0].input) ==>
              Session(c, es) == Session(Step(c, es[0]).0, es[1..])
              && BeforeExit(es) == [es[0]] + BeforeExit(es[1..])
  {
  }

  /** What one handled exchange does to one agent's history. */
  lemma StepHistory(c: Conversation, e: Exchange, agent: Kind)
    requires !IsExit(e.input) && agent != Base
    ensures History(Step(c, e).0, agent) == History(c, agent) + Heard(agent, e)
  {
  }

  /** Every agent hears every handled input, in order. */
  lemma {:induction false} SessionHeard(c: Conversation, es: seq<Exchange>, agent: Kind)
    requires agent != Base
    ensures Said(History(Session(c, es), agent), User)
            == Said(History(c, agent), User) + Inputs(BeforeExit(es))
    decreases |es|
  {
    if es != [] && !IsExit(es[0].input) {
      var e := es[0];
      var c' := Step(c, e).0;
      SessionUnfold(c, es);
      StepHistory(c, e, agent);
      SaidAppend(History(c, agent), Heard(agent, e), User);
      HeardSaid(agent, e);
      SessionHeard(c', es[1..], agent);
      assert Inputs(BeforeExit(es)) == [e.input] + Inputs(BeforeExit(es[1..])) by {
        assert ([e] + BeforeExit(es[1..]))[1..] == BeforeExit(es[1..]);
      }
    }
  }

  /** Each agent's replies are exactly the replies of the inputs routed to it. */
  lemma {:induction false} SessionReplies(c: Conversation, es: seq<Exchange>, agent: Kind)
    requires agent != Base
    ensures Said(History(Session(c, es), agent), Assistant)
            == Said(History(c, agent), Assistant) + RepliesTo(agent, BeforeExit(es))
    decreases |es|
  {
    if es != [] && !IsExit(es[0].input) {
      var e := es[0];
      var c' := Step(c, e).0;
      SessionUnfold(c, es);
      StepHistory(c, e, agent);
      SaidAppend(History(c, agent), Heard(agent, e), Assistant);
      HeardSaid(agent, e);
      SessionReplies(c', es[1..], agent);
      assert ([e] + BeforeExit(es[1..]))[1..] == BeforeExit(es[1..]);
    }
  }

  /** From a fresh chatbot, after n handled lines the two histories hold 3n
      messages in all, and each agent's user messages are exactly those lines. */
  lemma FreshSession(es: seq<Exchange>)
    ensures Total(Session(Start, es)) == 3 * |BeforeExit(es)|
    ensures Said(Session(Start, es).therapist, User) == Inputs(BeforeExit(es))
    ensures Said(Session(Start, es).logical, User) == Inputs(BeforeExit(es))
  {
    SessionGrowth(Start, es);
    SessionHeard(Start, es, Therapist);
    SessionHeard(Start, es, Logical);
  }
}
