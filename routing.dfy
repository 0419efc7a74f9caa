/** Messages, the fixed prompts, and the normalise-and-fall-back step that
    `BaseAgent.decide_next_agent` applies to the classifier's reply. */
module Routing {
  import opened Text

  /** The `role` of a message record; the router only ever uses these three. */
  datatype Role = System | User | Assistant

  /** One `{"role": ..., "content": ...}` record of an agent's history. */
  datatype Message = Message(role: Role, content: string)

  /** Which class an agent object is: `BaseAgent` itself or one of its two
      persona subclasses. */
  datatype Kind = Base | Therapist | Logical

  /** The keys of the chatbot's agent table. */
  const TherapistName: string := "therapist"
  const LogicalName: string := "logical"
  const AgentNames: set<string> := {TherapistName, LogicalName}

  /** The key `decide_next_agent` falls back to. */
  const Fallback: string := LogicalName

  const TherapistPrompt: string :=
    "You are a compassionate therapist. Focus on emotions, validate feelings, ask thoughtful questions."
  const LogicalPrompt: string :=
    "You are a logical assistant. Focus only on facts and information. Be direct."

  /** The text of the routing prompt around the embedded user message. */
  const RouterPromptHead: string :=
    "\nYou are an agent router. Decide if the following message requires\n"
    + "an emotional/therapist response or a logical/technical response.\n"
    + "Respond ONLY with 'therapist' or 'logical'.\n\nUser message: "
  const RouterPromptTail: string := "\n"

  /** The system prompt of a persona subclass. */
  function SystemPrompt(kind: Kind): string
    requires kind != Base
  {
    if kind == Therapist then TherapistPrompt else LogicalPrompt
  }

  /** The persona an agent-table key stands for. */
  function KindOf(name: string): Kind {
    if name == TherapistName then Therapist else Logical
  }

  /** The one-message request `decide_next_agent` sends to the model: a
      user message carrying the whole of `last` after the routing prompt. */
  function ClassifierRequest(last: string): (r: seq<Message>)
    ensures |r| == 1 && r[0].role == User
    ensures |r[0].content| == |RouterPromptHead| + |last| + 1
    ensures r[0].content[|RouterPromptHead|..|RouterPromptHead| + |last|] == last
  {
    [Message(User, RouterPromptHead + last + RouterPromptTail)]
  }

  /** The two-message request a persona's `respond` sends to the model:
      its system prompt, then the last stored message as a user message. */
  function PersonaRequest(kind: Kind, last: string): (r: seq<Message>)
    requires kind != Base
    ensures |r| == 2 && r[0].role == System && r[1] == Message(User, last)
  {
    [Message(System, SystemPrompt(kind)), Message(User, last)]
  }

  /** `reply.strip().lower()`. */
  function Normalize(reply: string): (n: string)
    ensures |n| <= |reply|
  {
    Lower(Strip(reply))
  }

  /** The key `decide_next_agent` looks up: the normalised reply when the
      table has it, otherwise the fallback. */
  function RouteName(reply: string, keys: set<string>): (name: string)
    ensures name in keys || name == Fallback
  {
    var name := Normalize(reply);
    if name in keys then name else Fallback
  }

  /** Which of the chatbot's two agents `decide_next_agent` returns over its
      agent table: the one stored under the key `RouteName` gives. */
  function Chosen(reply: string): (k: Kind)
    ensures k != Base
  {
    KindOf(RouteName(reply, AgentNames))
  }

  /** The routing prompt embeds the whole user message: two different
      messages never produce the same classification request. */
  lemma ClassifierRequestInjective(a: string, b: string)
    requires ClassifierRequest(a) == ClassifierRequest(b)
    ensures a == b
  {
    var ca := ClassifierRequest(a)[0].content;
    assert |a| == |b|;
    assert a == ca[|RouterPromptHead|..|RouterPromptHead| + |a|];
  }

  /** The two personas send the same user message under different system
      prompts, so the model can tell which persona is asking. */
  lemma PersonaRequestsDiffer(last: string)
    ensures PersonaRequest(Therapist, last)[1] == PersonaRequest(Logical, last)[1]
    ensures PersonaRequest(Therapist, last)[0] != PersonaRequest(Logical, last)[0]
  {
    assert |TherapistPrompt| != |LogicalPrompt|;
  }

  /** Normalising twice changes nothing more. */
  lemma NormalizeIdempotent(reply: string)
    ensures Normalize(Normalize(reply)) == Normalize(reply)
  {
    var n := Normalize(reply);
    StripSpec(reply);
    LowerKeepsSpaces(Strip(reply));
    assert [] + n + [] == n;
    StripPadded([], n, []);
    assert Strip(n) == n;
    LowerIdempotent(Strip(reply));
  }

  /** Surrounding whitespace and letter case in the reply do not matter:
      a padded label normalises to the lower-cased label. */
  lemma NormalizePadded(p: string, w: string, q: string)
    requires AllSpace(p) && AllSpace(q) && Unpadded(w)
    ensures Normalize(p + w + q) == Lower(w)
  {
    StripPadded(p, w, q);
  }

  /** With the fallback present in the table, the route is always a key of
      the table, so the lookup that follows cannot fail. */
  lemma RouteInTable(reply: string, keys: set<string>)
    requires Fallback in keys
    ensures RouteName(reply, keys) in keys
  {
  }

  /** Over the chatbot's table routing is two-way: the therapist exactly when
      the normalised reply is "therapist", the logical agent otherwise. */
  lemma RouteTwoWay(reply: string)
    ensures RouteName(reply, AgentNames) == TherapistName <==> Normalize(reply) == TherapistName
    ensures RouteName(reply, AgentNames) == LogicalName <==> Normalize(reply) != TherapistName
    ensures Chosen(reply) == Therapist <==> Normalize(reply) == TherapistName
    ensures Chosen(reply) == Logical <==> Normalize(reply) != TherapistName
  {
  }

  /** A label padded with whitespace, in any letter case, routes to the key
      it spells once lower-cased; anything else falls back. */
  lemma {:induction false} RoutePadded(p: string, w: string, q: string, keys: set<string>)
    requires AllSpace(p) && AllSpace(q) && Unpadded(w)
    ensures Lower(w) in keys ==> RouteName(p + w + q, keys) == Lower(w)
    ensures Lower(w) !in keys ==> RouteName(p + w + q, keys) == Fallback
  {
    NormalizePadded(p, w, q);
  }
}
