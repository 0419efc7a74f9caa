# MindBridge reception router in Dafny

This project models the class-based multi-agent router of MindBridge's
reception agent (`coral-server/agents/reception/coral_agent.py`). Two persona
agents, a therapist and a logical assistant, each keep an append-only history
of `{role, content}` messages. On every line the user types, the chatbot
does the following:

1. It stops if the line lower-cases to `exit`.
2. Otherwise it appends the line to every agent's history.
3. It asks the language model which agent should answer. It trims and
   lower-cases the reply and looks it up in the agent table, falling back to
   `"logical"` when the reply is not a key.
4. It lets the chosen agent answer. That agent sends the model its fixed
   system prompt and the user's line, then records the answer in its own
   history only.

Every model reply is an opaque string passed in as a parameter. The requests
the router would send are returned, so that their shape can be stated.

Files, one module each:

- `text.dfy` (`Text`): Python's `str.strip()` (exact whitespace set) and
  `str.lower()` (ASCII letters).
- `routing.dfy` (`Routing`): messages, the fixed prompts, and the
  normalise-and-fall-back step of `decide_next_agent`.
- `dialogue.dfy` (`Dialogue`): one iteration of `run` as a function `Step`
  on the observable state, a whole session as `Session`, and what a session
  does to the histories.
- `agents.dfy` (`Agents`): the classes. `Agent` covers `BaseAgent` and its
  two subclasses, with `kind` recording which class the object is.
  `MultiAgentChatbot` holds the agent table and `current_agent`. `Turn` and
  `Run` are proved against `Step` and `Session`.

Behaviour of `coral_agent.py` worth noting:

- An empty line is not skipped. It is appended to both histories and routed
  like any other line.
- Only `exit`, in any letter case and with no surrounding spaces, ends the
  loop, although the hint the loop prints names `bye`; `quit` does not end
  it either (`Dialogue.ExitExamples`).
- Only a reply that normalises to `therapist` selects the therapist. Any
  other reply, such as `emotional`, falls back to the logical agent
  (`Routing.RouteTwoWay`).
- The user's line goes into both agents' histories, so after n answered
  lines the two histories hold 3n messages together (`Dialogue.FreshSession`).

## Model

| member | source | states |
|---|---|---|
| `Agents.Agent.constructor` | coral-server/agents/reception/coral_agent.py:39-41 | a new agent has the given name, an empty message list and `message_type` None |
| `Agents.Agent.AddMessage` | coral-server/agents/reception/coral_agent.py:43-44 | exactly one `{role, content}` record is appended at the end; earlier records and `message_type` are unchanged (frame) |
| `Agents.Agent.Respond` | coral-server/agents/reception/coral_agent.py:46-108 | base class: returns an empty list, sends nothing, changes nothing; a persona with an empty history raises IndexError and changes nothing; otherwise it sends exactly its own system prompt followed by its last stored message as a user message, appends one assistant message holding the reply, and returns a one-element list with that message |
| `Agents.Agent.DecideNextAgent` | coral-server/agents/reception/coral_agent.py:50-82 | empty history: IndexError and no request; otherwise the request is the routing prompt around the last stored message, and the result is the table entry under the normalised reply, or under "logical" when that is not a key; KeyError only when "logical" is missing too |
| `Agents.MultiAgentChatbot.constructor` | coral-server/agents/reception/coral_agent.py:112-117 | two fresh, distinct agents "therapist" and "logical" with empty histories and `message_type` None; the current agent is the therapist |
| `Agents.MultiAgentChatbot.Agents` | coral-server/agents/reception/coral_agent.py:113-116 | the agent table has exactly the keys "therapist" and "logical" |
| `Agents.MultiAgentChatbot.Broadcast` | coral-server/agents/reception/coral_agent.py:127-129 | the loop over the agent table appends the same user message to the therapist's and to the logical agent's history, and changes nothing else (frame) |
| `Agents.MultiAgentChatbot.Turn` | coral-server/agents/reception/coral_agent.py:121-137 | one loop iteration changes the histories and the current agent as `Dialogue.Step` says, returns the requests sent and the answer, and changes nothing else (frame: `message_type` is untouched) |
| `Agents.MultiAgentChatbot.Run` | coral-server/agents/reception/coral_agent.py:119-137 | running the loop over scripted lines leaves the state `Dialogue.Session` gives, answers as many lines as precede the first exit word, and changes nothing else (frame) |
| `Dialogue.Step` | coral-server/agents/reception/coral_agent.py:121-137 | the exit word changes nothing and ends the loop; any other line adds 3 messages in all, strictly extends both histories, and makes the chosen persona (therapist or logical, never the base class) the current agent and the speaker |
| `Dialogue.BeforeExit` | coral-server/agents/reception/coral_agent.py:121-125 | the answered lines are a prefix of the input, none is the exit word, and the line after them is the exit word |
| `Dialogue.IsExit` | coral-server/agents/reception/coral_agent.py:123 | the exit test; only a line of four characters can pass it (exact characterisation in `Dialogue.ExitWord`) |
| `Dialogue.ExitWord` | coral-server/agents/reception/coral_agent.py:123 | a line ends the loop if and only if it is the four letters e, x, i, t, each in either case |
| `Dialogue.ExitExamples` | coral-server/agents/reception/coral_agent.py:120-123 | "bye", "quit", " exit" and the empty line do not end the loop; "EXIT" does |
| `Dialogue.StepForgetsHistory` | coral-server/agents/reception/coral_agent.py:127-137 | the agent chosen and the requests sent depend only on the line and the model's replies, not on the histories or on the previous current agent |
| `Dialogue.HeardSaid` | coral-server/agents/reception/coral_agent.py:127-135 | an answered line gives each agent one user message, and an assistant reply only to the agent it was routed to |
| `Dialogue.SessionStopsAtExit` | coral-server/agents/reception/coral_agent.py:121-125 | nothing after the first exit word affects the state |
| `Dialogue.Session` | coral-server/agents/reception/coral_agent.py:121-137 | the loop over a sequence of lines, stopping at the exit word; each history is a prefix of what it becomes after any number of iterations |
| `Dialogue.SessionGrowth` | coral-server/agents/reception/coral_agent.py:127-135 | every answered line adds exactly three messages across the two histories |
| `Dialogue.SessionHeard` | coral-server/agents/reception/coral_agent.py:121-135 | after any number of iterations, an agent's user messages are its earlier ones followed by every answered line, in order |
| `Dialogue.SessionReplies` | coral-server/agents/reception/coral_agent.py:127-137 | after any number of iterations, an agent's assistant messages are its earlier ones followed by the replies to exactly the lines routed to it, in order |
| `Dialogue.FreshSession` | coral-server/agents/reception/coral_agent.py:112-135 | from a fresh chatbot, n answered lines give 3n messages in all, and each agent's user messages are exactly those lines |
| `Routing.RouteName` | coral-server/agents/reception/coral_agent.py:78-82 | the key looked up is a key of the table or the fallback "logical" |
| `Routing.Normalize` | coral-server/agents/reception/coral_agent.py:78 | `strip` then `lower` of the classifier's reply; never longer than the reply (`Routing.NormalizePadded` and `Routing.NormalizeIdempotent` state what it does) |
| `Routing.Chosen` | coral-server/agents/reception/coral_agent.py:78-82 | the agent the chatbot's table yields for a reply is always one of the two personas, never the base class |
| `Routing.RouteInTable` | coral-server/agents/reception/coral_agent.py:80-82 | when "logical" is in the table, the key looked up always is too, so the lookup cannot fail |
| `Routing.RouteTwoWay` | coral-server/agents/reception/coral_agent.py:80-82 | over the chatbot's table, the therapist is chosen if and only if the normalised reply is "therapist", and the logical agent otherwise |
| `Routing.RoutePadded` | coral-server/agents/reception/coral_agent.py:78-82 | a label surrounded by whitespace routes to its lower-cased form when that is a key, and to "logical" otherwise |
| `Routing.NormalizePadded` | coral-server/agents/reception/coral_agent.py:78 | trimming then lower-casing a whitespace-padded label gives the lower-cased label |
| `Routing.NormalizeIdempotent` | coral-server/agents/reception/coral_agent.py:78 | normalising an already normalised reply changes nothing |
| `Routing.ClassifierRequestInjective` | coral-server/agents/reception/coral_agent.py:59-65 | the routing prompt embeds the whole last message, so different messages give different requests |
| `Routing.ClassifierRequest` | coral-server/agents/reception/coral_agent.py:59-65 | the routing request is a single user message whose content is the routing prompt with the whole last message embedded at a fixed offset, followed by a newline |
| `Routing.PersonaRequest` | coral-server/agents/reception/coral_agent.py:86-108 | a persona's request is its system prompt as a system message followed by the last stored message, unchanged, as a user message |
| `Routing.PersonaRequestsDiffer` | coral-server/agents/reception/coral_agent.py:86-108 | the two personas send the same user message under different system prompts |
| `Text.TrimStartSpec` | coral-server/agents/reception/coral_agent.py:78 | the result is the suffix of the input after its leading whitespace, and does not start with whitespace |
| `Text.TrimEndSpec` | coral-server/agents/reception/coral_agent.py:78 | the result is the prefix of the input before its trailing whitespace, and does not end with whitespace |
| `Text.StripSpec` | coral-server/agents/reception/coral_agent.py:78 | the result of `strip` has no whitespace at either end and is an infix of the input with only whitespace before and after it |
| `Text.StripPadded` | coral-server/agents/reception/coral_agent.py:78 | stripping whitespace padding from a string with no whitespace at its ends gives back that string |
| `Text.StripIdempotent` | coral-server/agents/reception/coral_agent.py:78 | stripping twice is stripping once |
| `Text.LowerSpec` | coral-server/agents/reception/coral_agent.py:78 | each character of the result is the lower-cased character of the input at the same position |
| `Text.LowerIdempotent` | coral-server/agents/reception/coral_agent.py:78 | lower-casing twice is lower-casing once |
| `Text.LowerKeepsSpaces` | coral-server/agents/reception/coral_agent.py:78 | lower-casing neither creates nor removes whitespace at the ends of a string |
| `Text.LowerCharKeepsSpace` | coral-server/agents/reception/coral_agent.py:78 | lower-casing a character neither makes nor unmakes whitespace |

## Left out

- Calls to the language model (`init_chat_model`, `llm.invoke`). Each reply
  is a string parameter. A failing call, which would raise out of `run`, is
  not modelled.
- Terminal I/O. The `input` and `print` calls of `run` are not modelled,
  including the "Bye" and "<Name> Agent: ..." lines and the `title()` casing
  of the name. `Run` takes the lines as a finite script and stops when the
  script ends, where the program would wait for more input.
- Text.Lower: only ASCII letters are folded; Python's `str.lower()` also
  folds other Unicode letters. This does not change any routing or exit
  decision. The keys and the exit word are ASCII without a `k`. No
  non-ASCII character lower-cases to an ASCII letter, except the Kelvin
  sign (to `k`) and U+0130 (to `i` plus a combining mark, which changes
  the length).
- Agents.Agent.AddMessage: the role is one of the three roles the router
  uses rather than an arbitrary string.
- The unused `MessageClassifier` schema, the commented-out OpenAI routing
  path, and the dotenv configuration.
- The `add_messages` annotation on `State`. It has no effect outside a
  langgraph graph.
- `coral-server/agents/reception/main.py` is not part of this model. It is
  asynchronous client plumbing in which the model itself picks the tool.
- `archive.py` is not part of this model. Its routing and state merging
  are done by the langgraph library.
