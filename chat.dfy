/**
 * What the two chat panels (coordination document and lesson plan) have in
 * common: the message log, the reply a chat call settles to, the assistant
 * message made from it, the send guard, and the log of remote calls a
 * handler issues.
 */
module Chat {
  import opened Wrappers
  import opened Strings

  datatype Role = User | Assistant

  datatype ChatMessage = ChatMessage(role: Role, content: string)

  /**
   * How a call to a chat or generate endpoint settles: a reply whose
   * `response` text and updated document (of type `D`) may each be absent,
   * or a thrown error.
   */
  datatype Reply<D> = Replied(response: Option<string>, updated: Option<D>) | Failed

  const NoResponseText: string := "Sin respuesta"
  const ErrorText: string := "Error al procesar el mensaje"

  /**
   * The assistant turn appended once the call settles: the response text,
   * `Sin respuesta` when that text is absent or empty (JavaScript `||`), or
   * the fixed error text when the call failed.
   */
  function AssistantMessage<D>(reply: Reply<D>): (m: ChatMessage)
    ensures m.role == Assistant && m.content != []
    ensures reply.Failed? ==> m.content == ErrorText
    ensures reply.Replied? && reply.response.Some? && reply.response.value != [] ==> m.content == reply.response.value
    ensures reply.Replied? && reply.response.GetOr([]) == [] ==> m.content == NoResponseText
  {
    match reply
    case Failed => ChatMessage(Assistant, ErrorText)
    case Replied(response, _) =>
      if response.Some? && response.value != [] then ChatMessage(Assistant, response.value)
      else ChatMessage(Assistant, NoResponseText)
  }

  /** The guard of both send handlers: some non-blank input and an open document. */
  predicate CanSend(input: string, documentOpen: bool) {
    !IsBlank(input) && documentOpen
  }

  /**
   * A chat log as the send handlers build it: user turn, assistant turn, in
   * pairs. Each handler run appends exactly one such pair.
   */
  predicate Alternating(history: seq<ChatMessage>) {
    && |history| % 2 == 0
    && forall i :: 0 <= i < |history| ==> history[i].role == (if i % 2 == 0 then User else Assistant)
  }

  /** Appending one user turn and one assistant turn keeps a log alternating. */
  lemma AlternatingAppendPair(history: seq<ChatMessage>, user: ChatMessage, assistant: ChatMessage)
    requires Alternating(history) && user.role == User && assistant.role == Assistant
    ensures Alternating(history + [user, assistant])
  {
    var h := history + [user, assistant];
    forall i | 0 <= i < |h|
      ensures h[i].role == (if i % 2 == 0 then User else Assistant)
    {
      if i == |history| {
        assert h[i] == user;
      } else if i == |history| + 1 {
        assert h[i] == assistant;
      }
    }
  }

  /** In an alternating log every assistant turn answers the user turn just before it. */
  lemma AssistantFollowsUser(history: seq<ChatMessage>, i: nat)
    requires Alternating(history) && i < |history| && history[i].role == Assistant
    ensures i >= 1 && history[i - 1].role == User
  {
    assert i % 2 == 1;
  }

  /** One remote call a handler issued, with the busy flag as it stood when it was issued. */
  datatype Call<R> = Call(request: R, busy: bool)

  /** The chat request body `{message, history}`. */
  datatype ChatRequest = ChatRequest(message: string, history: seq<ChatMessage>)
}
