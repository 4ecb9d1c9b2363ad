/**
 * The thought-partner chat: `sendMessage` appends the user's trimmed input
 * and then one assistant message, chosen by how the request to the chat
 * endpoint went. The request itself is an abstract input, `Reply`.
 */
module ThoughtPartner {
  import opened Common

  datatype Role = User | Assistant

  datatype Message = Message(role: Role, content: string)

  const ApiPath := "/api/thought-partner"
  const Apology := "Sorry, I couldn't process your request."
  const CommunicationError := "An error occurred while communicating with the assistant."

  /** How the POST to the chat endpoint and the parse of its body went:
      a parsed body with the response's `ok` flag and its `message` field,
      or a throw from `fetch` or `response.json()`. */
  datatype Reply = Answered(ok: bool, message: string) | Failed(reason: Thrown)

  datatype ChatState = ChatState(conversation: seq<Message>, input: string, loading: bool)

  /** The state after a send, the conversation sent as the request body (if
      a request was made), and the state rendered while it was pending. */
  datatype Sent = Sent(after: ChatState, request: Option<seq<Message>>, pending: ChatState)

  /** The assistant's message for a reply. */
  function AssistantText(reply: Reply): string {
    match reply
    case Answered(ok, message) => if ok then message else Apology
    case Failed(_) => CommunicationError
  }

  /** `sendMessage`: a whitespace-only input sends nothing and changes nothing;
      otherwise the request carries the old conversation plus the trimmed
      input from the user, the input is cleared, and once the reply is in the
      conversation has grown by that message and one answer, with `loading`
      off again. */
  function SendStep(st: ChatState, reply: Reply): (r: Sent)
    ensures r.request.None? <==> Blank(st.input)
    ensures r.request.None? ==> r.after == st && r.pending == st
    ensures r.request.Some? ==>
      && r.request.value == st.conversation + [Message(User, Trim(st.input))]
      && r.pending == ChatState(r.request.value, "", true)
      && r.after == ChatState(r.request.value + [Message(Assistant, AssistantText(reply))], "", false)
  {
    TrimEmptyIffBlank(st.input);
    if Trim(st.input) == "" then Sent(st, None, st)
    else
      var asked := st.conversation + [Message(User, Trim(st.input))];
      Sent(ChatState(asked + [Message(Assistant, AssistantText(reply))], "", false), Some(asked), ChatState(asked, "", true))
  }

  /** An accepted send grows the conversation by exactly two, keeps the old
      messages as a prefix, and ends with `loading` false. */
  lemma AcceptedSendAppendsTwo(st: ChatState, reply: Reply)
    requires !Blank(st.input)
    ensures var r := SendStep(st, reply);
      && |r.after.conversation| == |st.conversation| + 2
      && st.conversation <= r.after.conversation
      && r.after.conversation[|st.conversation|].role == User
      && r.after.conversation[|st.conversation| + 1].role == Assistant
      && !r.after.loading
  {
  }

  /** The three texts an answer can carry. */
  lemma AnswerTexts(message: string, reason: Thrown)
    ensures AssistantText(Answered(true, message)) == message
    ensures AssistantText(Answered(false, message)) == Apology
    ensures AssistantText(Failed(reason)) == CommunicationError
  {
  }

  // ---------------------------------------------------------------------------
  // The conversation over many sends
  // ---------------------------------------------------------------------------

  datatype Action = Type(text: string) | Send(reply: Reply)

  function Apply(st: ChatState, a: Action): ChatState {
    match a
    case Type(text) => st.(input := text)
    case Send(reply) => SendStep(st, reply).after
  }

  function Run(st: ChatState, actions: seq<Action>): ChatState
    decreases |actions|
  {
    if actions == [] then st else Run(Apply(st, actions[0]), actions[1..])
  }

  /** Users and the assistant take turns, the user first, and no user
      message is blank. */
  predicate Alternating(conversation: seq<Message>) {
    && |conversation| % 2 == 0
    && (forall i :: 0 <= i < |conversation| ==>
          conversation[i].role == (if i % 2 == 0 then User else Assistant))
    && (forall i :: 0 <= i < |conversation| && i % 2 == 0 ==> !Blank(conversation[i].content))
  }

  lemma ApplyKeepsAlternating(st: ChatState, a: Action)
    requires Alternating(st.conversation)
    ensures Alternating(Apply(st, a).conversation)
    ensures st.conversation <= Apply(st, a).conversation
  {
    if a.Send? && !Blank(st.input) {
      TrimOfNonBlankIsNonBlank(st.input);
      var c := Apply(st, a).conversation;
      var n := |st.conversation|;
      assert c == st.conversation + [Message(User, Trim(st.input)), Message(Assistant, AssistantText(a.reply))];
      forall i | 0 <= i < |c|
        ensures c[i].role == (if i % 2 == 0 then User else Assistant)
        ensures i % 2 == 0 ==> !Blank(c[i].content)
      {
        if i < n {
          assert c[i] == st.conversation[i];
        }
      }
    }
  }

  /** From any alternating conversation, every sequence of typing and sending
      keeps earlier messages untouched and the turns alternating. */
  lemma {:induction false} RunKeepsAlternating(st: ChatState, actions: seq<Action>)
    requires Alternating(st.conversation)
    ensures Alternating(Run(st, actions).conversation)
    ensures st.conversation <= Run(st, actions).conversation
    decreases |actions|
  {
    if actions != [] {
      ApplyKeepsAlternating(st, actions[0]);
      RunKeepsAlternating(Apply(st, actions[0]), actions[1..]);
    }
  }

  class ThoughtPartnerView {
    var conversation: seq<Message>
    var input: string
    var loading: bool

    function State(): ChatState
      reads this
    {
      ChatState(conversation, input, loading)
    }

    constructor ()
      ensures State() == ChatState([], "", false)
    {
      conversation, input, loading := [], "", false;
    }

    method SendMessage(reply: Reply) returns (request: Option<seq<Message>>, pending: ChatState)
      modifies this
      ensures Sent(State(), request, pending) == SendStep(old(State()), reply)
    {
      if Trim(input) == "" {
        request, pending := None, State();
        return;
      }
      var newConversation := conversation + [Message(User, Trim(input))];
      conversation := newConversation;
      input := "";
      loading := true;
      request, pending := Some(newConversation), State();
      match reply {
        case Answered(ok, message) =>
          if ok {
            conversation := conversation + [Message(Assistant, message)];
          } else {
            conversation := conversation + [Message(Assistant, Apology)];
          }
        case Failed(_) =>
          conversation := conversation + [Message(Assistant, CommunicationError)];
      }
      loading := false;
    }
  }
}
