/** The agent classes and the chatbot of coral-server/agents/reception/coral_agent.py.
    Every call to the language model is replaced by the reply it returns,
    passed in as a parameter; the request that would have been sent is
    returned so that its shape can be stated. */
module Agents {
  import opened Text
  import opened Routing
  import opened Dialogue

  /** The Python exceptions the router can raise on its own. */
  datatype Error =
    | IndexError          // `messages[-1]` on an empty history
    | KeyError(key: string)  // the agent table lacks the key looked up

  datatype Result<T> = Ok(value: T) | Err(error: Error)

  datatype Option<T> = None | Some(value: T)

  /** `BaseAgent` and its two subclasses; `kind` says which class the object is. */
  class Agent {
    const name: string
    const kind: Kind
    /** `state["messages"]` */
    var messages: seq<Message>
    /** `state["message_type"]`, which no method of the router writes. */
    var messageType: Option<string>

    constructor (name: string, kind: Kind)
      ensures this.name == name && this.kind == kind
      ensures messages == [] && messageType == None
    {
      this.name := name;
      this.kind := kind;
      messages := [];
      messageType := None;
    }

    /** `add_message`: one record at the end; the frame keeps `messageType`. */
    method AddMessage(role: Role, content: string)
      modifies this`messages
      ensures messages == old(messages) + [Message(role, content)]
    {
      messages := messages + [Message(role, content)];
    }

    /** `respond`. The base class answers with an empty list and calls no
        model. A persona sends its system prompt and its own last message,
        records `reply` as one assistant message and returns that message.
        `request` is what is sent to the model, `None` when nothing is sent. */
    method Respond(reply: string) returns (request: Option<seq<Message>>, r: Result<seq<Message>>)
      modifies this`messages
      ensures kind == Base ==> request == None && r == Ok([]) && messages == old(messages)
      ensures kind != Base && old(messages) == [] ==>
                request == None && r == Err(IndexError) && messages == old(messages)
      ensures kind != Base && old(messages) != [] ==>
                request == Some(PersonaRequest(kind, old(messages)[|old(messages)| - 1].content))
                && r == Ok([Message(Assistant, reply)])
                && messages == old(messages) + [Message(Assistant, reply)]
    {
      if kind == Base {
        return None, Ok([]);
      }
      if messages == [] {
        return None, Err(IndexError);
      }
      var last := messages[|messages| - 1];
      request := Some(PersonaRequest(kind, last.content));
      AddMessage(Assistant, reply);
      r := Ok([Message(Assistant, reply)]);
    }

    /** `decide_next_agent`: classifies this agent's last message and looks
        the normalised reply up in `agents`, falling back to "logical".
        Nothing is sent when the history is empty. */
    method DecideNextAgent(agents: map<string, Agent>, reply: string)
      returns (request: Option<seq<Message>>, r: Result<Agent>)
      ensures messages == [] ==> request == None && r == Err(IndexError)
      ensures messages != [] ==>
                request == Some(ClassifierRequest(messages[|messages| - 1].content))
      ensures messages != [] && Fallback in agents ==>
                RouteName(reply, agents.Keys) in agents && r == Ok(agents[RouteName(reply, agents.Keys)])
      ensures messages != [] && Fallback !in agents ==>
                if Normalize(reply) in agents then r == Ok(agents[Normalize(reply)])
                else r == Err(KeyError(Fallback))
    {
      if messages == [] {
        return None, Err(IndexError);
      }
      var last := messages[|messages| - 1].content;
      request := Some(ClassifierRequest(last));
      var name := Normalize(reply);
      if name !in agents {
        name := Fallback;
      }
      if name in agents {
        r := Ok(agents[name]);
      } else {
        r := Err(KeyError(name));
      }
    }
  }

  /** `MultiAgentChatbot`: the agent table and the current agent. */
  class MultiAgentChatbot {
    const therapist: Agent
    const logical: Agent
    var current: Agent

    ghost predicate Valid()
      reads this
    {
      therapist != logical
      && therapist.kind == Therapist && therapist.name == TherapistName
      && logical.kind == Logical && logical.name == LogicalName
      && (current == therapist || current == logical)
    }

    /** `self.agents`, keyed by agent name. */
    function Agents(): (table: map<string, Agent>)
      ensures table.Keys == AgentNames
    {
      map[TherapistName := therapist, LogicalName := logical]
    }

    /** The two histories and which agent is the current one. */
    ghost function State(): Conversation
      reads this, therapist, logical
    {
      Conversation(therapist.messages, logical.messages, current.kind)
    }

    constructor ()
      ensures Valid() && fresh(therapist) && fresh(logical)
      ensures State() == Start
      ensures therapist.messageType == None && logical.messageType == None
    {
      therapist := new Agent(TherapistName, Therapist);
      logical := new Agent(LogicalName, Logical);
      current := therapist;
    }

    /** The loop of `run` that adds the user's line to every agent of
        `self.agents.values()`, in insertion order. */
    method Broadcast(content: string)
      requires Valid()
      modifies therapist`messages, logical`messages
      ensures therapist.messages == old(therapist.messages) + [Message(User, content)]
      ensures logical.messages == old(logical.messages) + [Message(User, content)]
    {
      var everyone := [therapist, logical];
      var heard := Message(User, content);
      var i := 0;
      while i < |everyone|
        invariant 0 <= i <= |everyone|
        invariant forall j :: 0 <= j < i ==> everyone[j].messages == old(everyone[j].messages) + [heard]
        invariant forall j :: i <= j < |everyone| ==> everyone[j].messages == old(everyone[j].messages)
      {
        everyone[i].AddMessage(User, content);
        i := i + 1;
      }
      assert everyone[0] == therapist && everyone[1] == logical;
    }

    /** One iteration of `run` on the line `e.input`, with `e`'s two model
        replies: it does what `Step` says. */
    method Turn(e: Exchange) returns (outcome: Outcome)
      requires Valid()
      modifies this`current, therapist`messages, logical`messages
      ensures Valid()
      ensures (State(), outcome) == Step(old(State()), e)
    {
      if IsExit(e.input) {
        return Exited;
      }
      ghost var before := State();
      ghost var name := RouteName(e.classifierReply, AgentNames);
      ghost var chosen := Chosen(e.classifierReply);
      ghost var heard, said := Message(User, e.input), Message(Assistant, e.personaReply);
      Broadcast(e.input);
      assert current.messages == before.therapist + [heard] || current.messages == before.logical + [heard];
      var table := Agents();
      var classification, next := current.DecideNextAgent(table, e.classifierReply);
      assert classification == Some(ClassifierRequest(e.input));
      assert next == Ok(table[name]);
      current := next.value;
      assert current == if chosen == Therapist then therapist else logical;
      var request, response := current.Respond(e.personaReply);
      assert request == Some(PersonaRequest(chosen, e.input));
      var reply := response.value;
      outcome := Answered(classification.value, request.value, current.kind, reply[|reply| - 1].content);
      if chosen == Therapist {
        assert therapist.messages == before.therapist + [heard] + [said];
        assert logical.messages == before.logical + [heard];
      } else {
        assert therapist.messages == before.therapist + [heard];
        assert logical.messages == before.logical + [heard] + [said];
      }
      StepAnswered(before, e);
      assert current.kind == chosen;
      assert State().therapist == Step(before, e).0.therapist;
      assert State().logical == Step(before, e).0.logical;
      assert outcome == Step(before, e).1;
    }

    /** `run` over a scripted sequence of input lines and model replies: it
        stops at the exit word or when the script ends, and returns how many
        lines were answered. */
    method Run(script: seq<Exchange>) returns (answered: nat)
      requires Valid()
      modifies this`current, therapist`messages, logical`messages
      ensures Valid()
      ensures State() == Session(old(State()), script)
      ensures answered == |BeforeExit(script)|
    {
      ghost var start := State();
      var i := 0;
      while i < |script|
        invariant Valid()
        invariant 0 <= i <= |script|
        invariant Session(start, script) == Session(State(), script[i..])
        invariant |BeforeExit(script)| == i + |BeforeExit(script[i..])|
      {
        ghost var before := State();
        var outcome := Turn(script[i]);
        SessionUnfold(before, script[i..]);
        assert script[i..][0] == script[i] && script[i..][1..] == script[i + 1..];
        if outcome == Exited {
          break;
        }
        i := i + 1;
      }
      answered := i;
    }
  }
}
