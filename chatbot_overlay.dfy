/**
 * The chat panel: an append-only transcript, the text input and the busy
 * flag. The input and the send button are disabled while a reply is awaited,
 * so at most one chat request is in flight.
 */
module ChatbotOverlay {
  import opened Wrappers
  import opened Text

  datatype Role = User | Bot
  datatype ChatMessage = ChatMessage(role: Role, content: string)

  const Greeting := "Hello! I am your nutrition assistant. What would you like to know?"
  const FallbackReply := "Sorry, I didn't understand that."
  const ErrorReply := "An error occurred. Please try again later."
  const EnterKey := "Enter"

  /** How the chat endpoint settles a request. */
  datatype ChatOutcome =
      /** a 2xx response whose body's `response` field is present or absent */
    | Replied(response: Option<string>)
    | NotOk
    | TransportFailed

  /** `inFlight` is the prompt of the request being awaited, if any. */
  datatype Chat = Chat(messages: seq<ChatMessage>, input: string, isLoading: bool, inFlight: Option<string>)

  const Opened := Chat([ChatMessage(Bot, Greeting)], "", false, None)

  /** The bot message a settled request appends. */
  function Reply(o: ChatOutcome): (text: string)
  {
    match o
    case Replied(r) => if r.Some? && r.value != "" then r.value else FallbackReply
    case NotOk => ErrorReply
    case TransportFailed => ErrorReply
  }

  /** `onChange` of the input field, which is disabled while loading. */
  function TypeInto(c: Chat, text: string): (c': Chat)
  {
    if c.isLoading then c else c.(input := text)
  }

  /** `handleSend` up to the `await`; both of its callers check that nothing is in flight. */
  function Send(c: Chat): (c': Chat)
    requires !c.isLoading
  {
    if Trim(c.input) == [] then c
    else Chat(c.messages + [ChatMessage(User, c.input)], "", true, Some(c.input))
  }

  /** `handleKeyDown` */
  function KeyDown(c: Chat, key: string): (c': Chat)
  {
    if key == EnterKey && !c.isLoading then Send(c) else c
  }

  /** A click on the send button, which is disabled while loading. */
  function ClickSend(c: Chat): (c': Chat)
  {
    if c.isLoading then c else Send(c)
  }

  /** The rest of `handleSend`: one bot message, then the `finally` clears the busy flag. */
  function Settle(c: Chat, o: ChatOutcome): (c': Chat)
    requires c.inFlight.Some?
  {
    c.(messages := c.messages + [ChatMessage(Bot, Reply(o))], isLoading := false, inFlight := None)
  }

  /**
   * The transcript starts with the greeting and then alternates user and bot
   * messages; it ends with a user message exactly while that message's
   * request is in flight, and the input is empty meanwhile.
   */
  predicate Inv(c: Chat)
  {
    && |c.messages| >= 1 && c.messages[0] == ChatMessage(Bot, Greeting)
    && (forall i :: 1 <= i < |c.messages| ==> c.messages[i].role == (if i % 2 == 1 then User else Bot))
    && (c.isLoading <==> c.inFlight.Some?)
    && (c.isLoading <==> |c.messages| % 2 == 0)
    && (c.inFlight.Some? ==> c.messages[|c.messages| - 1] == ChatMessage(User, c.inFlight.value) && c.input == "")
  }

  /** The panel opens with exactly one message, the bot's greeting. */
  lemma OpenedInv()
    ensures Inv(Opened) && Opened.messages == [ChatMessage(Bot, Greeting)]
  {
  }

  /**
   * A blank input (only whitespace) changes nothing and issues no request;
   * otherwise exactly one user message with the untrimmed input is appended,
   * the input is cleared, loading starts and the request's prompt is that input.
   */
  lemma SendEffect(c: Chat)
    requires !c.isLoading
    ensures AllWhitespace(c.input) ==> Send(c) == c
    ensures !AllWhitespace(c.input) ==>
      Send(c) == Chat(c.messages + [ChatMessage(User, c.input)], "", true, Some(c.input))
  {
    TrimEmptyIff(c.input);
  }

  /**
   * Settling appends exactly one bot message: the response text when it is
   * present and non-empty, the fallback when it is not, the error notice on a
   * non-ok response or a failure; loading ends.
   */
  lemma SettleEffect(c: Chat, o: ChatOutcome)
    requires c.inFlight.Some?
    ensures Settle(c, o).messages == c.messages + [ChatMessage(Bot, Reply(o))]
    ensures !Settle(c, o).isLoading && Settle(c, o).input == c.input
    ensures o.Replied? && o.response.Some? && o.response.value != "" ==> Reply(o) == o.response.value
    ensures o.Replied? && (o.response.None? || o.response == Some("")) ==> Reply(o) == FallbackReply
    ensures !o.Replied? ==> Reply(o) == ErrorReply
  {
  }

  /** A whole exchange grows the transcript by exactly two, keeping what was there as a prefix. */
  lemma ExchangeGrowsByTwo(c: Chat, o: ChatOutcome)
    requires Inv(c) && !c.isLoading && !AllWhitespace(c.input)
    ensures Send(c).inFlight == Some(c.input)
    ensures var after := Settle(Send(c), o).messages;
      && |after| == |c.messages| + 2
      && after[..|c.messages|] == c.messages
      && after[|c.messages|] == ChatMessage(User, c.input)
      && after[|c.messages| + 1] == ChatMessage(Bot, Reply(o))
      && !Settle(Send(c), o).isLoading
  {
    SendEffect(c);
  }

  /** Enter and the button do nothing while a reply is awaited. */
  lemma BusyBlocksSending(c: Chat, key: string, text: string)
    requires c.isLoading
    ensures KeyDown(c, key) == c && ClickSend(c) == c && TypeInto(c, text) == c
  {
  }

  // ---- Any sequence of user actions and replies ----

  datatype ChatEvent = Typed(text: string) | KeyPressed(key: string) | SendClicked | ReplyArrived(outcome: ChatOutcome)

  function Step(c: Chat, e: ChatEvent): (c': Chat)
  {
    match e
    case Typed(t) => TypeInto(c, t)
    case KeyPressed(k) => KeyDown(c, k)
    case SendClicked => ClickSend(c)
    case ReplyArrived(o) => if c.inFlight.Some? then Settle(c, o) else c
  }

  function Run(c: Chat, es: seq<ChatEvent>): (c': Chat)
    decreases |es|
  {
    if es == [] then c else Run(Step(c, es[0]), es[1..])
  }

  lemma StepPreservesInv(c: Chat, e: ChatEvent)
    requires Inv(c)
    ensures Inv(Step(c, e))
    ensures c.messages <= Step(c, e).messages
  {
    match e {
      case Typed(t) =>
      case KeyPressed(k) => if k == EnterKey && !c.isLoading { SendEffect(c); }
      case SendClicked => if !c.isLoading { SendEffect(c); }
      case ReplyArrived(o) =>
    }
  }

  /**
   * Under every sequence of typing, sending and replies the invariant holds
   * and the transcript only grows: earlier messages stay as a prefix.
   */
  lemma {:induction false} RunAppendOnly(c: Chat, es: seq<ChatEvent>)
    requires Inv(c)
    ensures Inv(Run(c, es))
    ensures c.messages <= Run(c, es).messages
    decreases |es|
  {
    if es != [] {
      StepPreservesInv(c, es[0]);
      RunAppendOnly(Step(c, es[0]), es[1..]);
    }
  }

  // ---- The component's state, updated in place ----

  class ChatPanel {
    var messages: seq<ChatMessage>
    var input: string
    var isLoading: bool
    /** The prompt of the awaited request, if any. */
    var inFlight: Option<string>

    function State(): (c: Chat)
      reads this
    {
      Chat(messages, input, isLoading, inFlight)
    }

    constructor ()
      ensures State() == Opened && Inv(State())
    {
      messages := [ChatMessage(Bot, Greeting)];
      input := "";
      isLoading := false;
      inFlight := None;
    }

    method SetInput(text: string)
      modifies this
      ensures State() == TypeInto(old(State()), text)
    {
      if !isLoading {
        input := text;
      }
    }

    /** `handleSend` up to the `await`; `prompt` is the request's body, if one is sent. */
    method HandleSend() returns (prompt: Option<string>)
      requires !isLoading
      modifies this
      ensures State() == Send(old(State()))
      ensures prompt.Some? <==> isLoading
      ensures prompt.Some? ==> prompt == inFlight && prompt.value == old(input)
    {
      if Trim(input) == [] {
        return None;
      }
      var newMessages := messages + [ChatMessage(User, input)];
      messages := newMessages;
      prompt := Some(input);
      inFlight := prompt;
      input := "";
      isLoading := true;
    }

    method HandleKeyDown(key: string) returns (prompt: Option<string>)
      modifies this
      ensures State() == KeyDown(old(State()), key)
      ensures prompt == if State().isLoading && !old(isLoading) then State().inFlight else None
    {
      prompt := None;
      if key == EnterKey && !isLoading {
        prompt := HandleSend();
      }
    }

    method ClickSendButton() returns (prompt: Option<string>)
      modifies this
      ensures State() == ClickSend(old(State()))
      ensures prompt == if State().isLoading && !old(isLoading) then State().inFlight else None
    {
      prompt := None;
      if !isLoading {
        prompt := HandleSend();
      }
    }

    /** The awaited request settles with `outcome`. */
    method RequestSettled(outcome: ChatOutcome)
      requires inFlight.Some?
      modifies this
      ensures State() == Settle(old(State()), outcome)
      ensures Inv(old(State())) ==> Inv(State())
    {
      var content: string;
      match outcome {
        case Replied(r) =>
          content := if r.Some? && r.value != "" then r.value else FallbackReply;
        case NotOk =>
          content := ErrorReply;
        case TransportFailed =>
          content := ErrorReply;
      }
      messages := messages + [ChatMessage(Bot, content)];
      isLoading := false;
      inFlight := None;
    }
  }
}
