/** The conversation history and the `chatting` call that extends it.
    The chat-completion request itself is not modelled: the reply text it
    would return is a parameter. */
module Chat {

  import opened Outcomes

  datatype Role = System | User | Assistant

  /** One entry of the history: `{"role": ..., "content": ...}`. */
  datatype Message = Message(role: Role, content: string)

  /** The content of the system entry every turn starts with. */
  const SystemPrompt: string := "You are now chatting with an AI."

  /** The three entries one call of `chatting` appends. */
  function Turn(input: string, reply: string): seq<Message> {
    [Message(System, SystemPrompt), Message(User, input), Message(Assistant, reply)]
  }

  /** A history built from whole turns only. Every history the window holds
      between events is one, as long as each request completes before the
      next event: each call of `chatting` appends one turn, and a reset
      empties the history. */
  predicate IsConversation(h: seq<Message>)
    decreases |h|
  {
    h == [] ||
    (|h| >= 3 && IsConversation(h[..|h| - 3])
     && h[|h| - 3..] == Turn(h[|h| - 2].content, h[|h| - 1].content))
  }

  /** The role the entry at position `k` of a turn has. */
  function RoleInTurn(k: nat): Role
    requires k < 3
  {
    if k == 0 then System else if k == 1 then User else Assistant
  }

  /** `chatting(input_message, chat_history, model)`: appends a system
      entry, a user entry holding the input and an assistant entry holding
      the reply, one after the other, and returns the reply together with
      the extended history. Earlier entries are kept as they were. */
  method Chatting(inputMessage: string, history: seq<Message>, reply: string)
    returns (response: string, updated: seq<Message>)
    ensures |updated| == |history| + 3
    ensures updated[..|history|] == history
    ensures updated[|history|] == Message(System, SystemPrompt)
    ensures updated[|history| + 1] == Message(User, inputMessage)
    ensures updated[|history| + 2] == Message(Assistant, reply)
    ensures response == reply == updated[|updated| - 1].content
    ensures updated == history + Turn(inputMessage, reply)
  {
    updated := history;
    updated := updated + [Message(System, SystemPrompt)];
    updated := updated + [Message(User, inputMessage)];
    updated := updated + [Message(Assistant, reply)];
    response := updated[|updated| - 1].content;
  }

  /** What `chatting` does to the history is exactly to append one turn,
      so a conversation stays a conversation. */
  lemma ConversationGrows(h: seq<Message>, input: string, reply: string)
    requires IsConversation(h)
    ensures IsConversation(h + Turn(input, reply))
  {
    var g := h + Turn(input, reply);
    assert g[..|g| - 3] == h;
    assert g[|g| - 3..] == Turn(input, reply);
  }

  /** In a conversation the roles cycle system, user, assistant from the
      first entry on, and the length is a multiple of three. */
  lemma {:induction false} ConversationRoles(h: seq<Message>)
    requires IsConversation(h)
    ensures |h| % 3 == 0
    ensures forall i :: 0 <= i < |h| ==> h[i].role == RoleInTurn(i % 3)
    decreases |h|
  {
    if h != [] {
      var p := h[..|h| - 3];
      ConversationRoles(p);
      forall i | 0 <= i < |h|
        ensures h[i].role == RoleInTurn(i % 3)
      {
        if i < |p| {
          assert h[i] == p[i];
        } else {
          var j := i - |p|;
          assert (|p| + j) % 3 == j;
          assert h[i] == h[|h| - 3..][j];
        }
      }
    }
  }

  /** The user entry and the assistant entry of the last turn, which the
      tag log reads as `chat_history[-3:]` (its first entry is discarded). */
  datatype Exchange = Exchange(question: Message, answer: Message)

  /** `_, user_message, gpt4_response = chat_history[-3:]`: unpacking
      fails unless the history holds at least three entries. */
  function LastExchange(h: seq<Message>): (r: Option<Exchange>)
    ensures r.Some? <==> |h| >= 3
  {
    if |h| < 3 then None else Some(Exchange(h[|h| - 2], h[|h| - 1]))
  }

  /** In a conversation the entries the tag log reads are the user's
      question and the assistant's answer of one turn. */
  lemma ConversationLastExchange(h: seq<Message>)
    requires IsConversation(h) && h != []
    ensures |h| >= 3
    ensures LastExchange(h).value.question.role == User
    ensures LastExchange(h).value.answer.role == Assistant
  {
  }

  /** After a call of `chatting`, the tag log reads that call's input and
      reply. */
  lemma LastExchangeOfTurn(h: seq<Message>, input: string, reply: string)
    ensures LastExchange(h + Turn(input, reply))
      == Some(Exchange(Message(User, input), Message(Assistant, reply)))
  {
  }

  /** `send_clarification`: the message `"<type>: <last content>"`;
      reading `chat_history[-1]` fails on an empty history. */
  function ClarificationRequest(h: seq<Message>, clarificationType: string): (r: Option<string>)
    ensures r.None? <==> h == []
  {
    if h == [] then None else Some(clarificationType + ": " + h[|h| - 1].content)
  }

  /** In a conversation the entry a clarification quotes is always an
      assistant reply. */
  lemma ClarificationQuotesReply(h: seq<Message>)
    requires IsConversation(h) && h != []
    ensures h[|h| - 1].role == Assistant
  {
  }
}
