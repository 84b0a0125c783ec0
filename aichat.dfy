/** The chat widget: whether it is open, the visible transcript, the text in the input box
    and whether a reply is pending. Sending is split in two steps, because the reply arrives
    later while the shopper may keep typing or toggling the window: `SendStep` (the guard and
    everything before the `await`) and `ReplyStep` (everything after it). */
module AIChat {
  import opened Types
  import opened Text
  import Gemini

  const WelcomeText: string :=
    "Welcome to Liwisi. I'm your design assistant. How can I help you elevate your space today?"
  const ApologyText: string := "I apologize, but I'm having trouble connecting. Please try again."

  /** How the awaited `sendMessageToGemini` promise settled. */
  datatype Settlement = Resolved(text: string) | Rejected

  datatype ChatState = ChatState(isOpen: bool, messages: seq<ChatMessage>, input: string, isTyping: bool)

  function Welcome(): ChatMessage
  {
    ChatMessage(Model, WelcomeText, None)
  }

  /** A closed window whose transcript is the welcome turn alone. */
  function InitialState(): (r: ChatState)
    ensures !r.isOpen && r.input == [] && r.messages == [Welcome()] && Conversation(r)
  {
    ChatState(false, [Welcome()], "", false)
  }

  /** The send button's `disabled` attribute. */
  predicate SendDisabled(s: ChatState)
    ensures SendDisabled(s) <==> IsBlank(s.input) || s.isTyping
  {
    TrimEmptyIffBlank(s.input);
    Trim(s.input) == [] || s.isTyping
  }

  // ---------------------------------------------------------------------------
  // One step per event

  /** `handleSend` up to the `await`: rejected when the trimmed input is empty or a reply is
      pending; otherwise appends the user turn with the untrimmed input, clears the box and
      marks a reply as pending. */
  function SendStep(s: ChatState): (r: ChatState)
    ensures r.isOpen == s.isOpen
    ensures r != s ==>
              !s.isTyping && r.isTyping && r.input == [] && |r.messages| == |s.messages| + 1
              && r.messages[..|s.messages|] == s.messages && r.messages[|s.messages|].role == User
  {
    if Trim(s.input) == [] || s.isTyping then s
    else s.(messages := s.messages + [ChatMessage(User, s.input, None)], input := "", isTyping := true)
  }

  /** The model turn that a settled request adds. */
  function ModelTurn(settled: Settlement): (m: ChatMessage)
    ensures m.role == Model
    ensures m.isError == Some(true) <==> settled.Rejected?
    ensures settled.Resolved? ==> m.text == settled.text && m.isError == None
    ensures settled.Rejected? ==> m.text == ApologyText
  {
    match settled
    case Resolved(text) => ChatMessage(Model, text, None)
    case Rejected => ChatMessage(Model, ApologyText, Some(true))
  }

  /** `handleSend` after the `await`: one model turn, then the pending flag is cleared. */
  function ReplyStep(s: ChatState, settled: Settlement): (r: ChatState)
    ensures |r.messages| == |s.messages| + 1 && r.messages[..|s.messages|] == s.messages
    ensures r.messages[|s.messages|].role == Model
    ensures r.messages[|s.messages|].isError == Some(true) <==> settled.Rejected?
    ensures settled.Resolved? ==> r.messages[|s.messages|] == ChatMessage(Model, settled.text, None)
    ensures settled.Rejected? ==> r.messages[|s.messages|] == ChatMessage(Model, ApologyText, Some(true))
    ensures !r.isTyping && r.input == s.input && r.isOpen == s.isOpen
  {
    s.(messages := s.messages + [ModelTurn(settled)], isTyping := false)
  }

  /** `handleKeyPress`: only the Enter key sends. */
  function KeyStep(s: ChatState, key: string): (r: ChatState)
    ensures r == s || (key == "Enter" && r == SendStep(s))
  {
    if key == "Enter" then SendStep(s) else s
  }

  datatype Event =
    | Typed(text: string)          // the input box's onChange
    | SendClicked                  // the send button
    | KeyPressed(key: string)      // a key in the input box
    | Settled(settled: Settlement) // the pending request settles
    | ToggleClicked                // the round toggle button
    | CloseClicked                 // the minimise button or the backup close button

  function Step(s: ChatState, e: Event): (r: ChatState)
    ensures r.messages != s.messages || r.isTyping != s.isTyping ==>
              e.SendClicked? || e.KeyPressed? || e.Settled?
    ensures r.input != s.input ==> e.Typed? || e.SendClicked? || e.KeyPressed?
  {
    match e
    case Typed(text) => s.(input := text)
    case SendClicked => SendStep(s)
    case KeyPressed(key) => KeyStep(s, key)
    case Settled(settled) => ReplyStep(s, settled)
    case ToggleClicked => s.(isOpen := !s.isOpen)
    case CloseClicked => s.(isOpen := false)
  }

  function Run(s: ChatState, events: seq<Event>): ChatState
    decreases events
  {
    if events == [] then s else Run(Step(s, events[0]), events[1..])
  }

  /** A request settles only while one is pending: the only `Settled` events are the ones
      that complete an accepted send. */
  predicate Feasible(s: ChatState, events: seq<Event>)
    decreases events
  {
    events == [] || ((events[0].Settled? ==> s.isTyping) && Feasible(Step(s, events[0]), events[1..]))
  }

  // ---------------------------------------------------------------------------
  // Properties

  /** The send button is disabled exactly when `handleSend` would return without doing
      anything. */
  lemma DisabledIffSendIgnored(s: ChatState)
    ensures SendDisabled(s) <==> SendStep(s) == s
  {
    if !SendDisabled(s) {
      assert |SendStep(s).messages| == |s.messages| + 1;
    }
  }

  /** An accepted send appends one user turn carrying the untrimmed input, clears the input
      and marks a reply as pending; the window stays as it was. */
  lemma SendAccepted(s: ChatState)
    requires !SendDisabled(s)
    ensures SendStep(s).messages == s.messages + [ChatMessage(User, s.input, None)]
    ensures SendStep(s).input == "" && SendStep(s).isTyping && SendStep(s).isOpen == s.isOpen
  {
  }

  /** Only Enter sends; any other key changes nothing. */
  lemma OnlyEnterSends(s: ChatState, key: string)
    ensures key != "Enter" ==> KeyStep(s, key) == s
    ensures key == "Enter" ==> KeyStep(s, key) == SendStep(s)
  {
  }

  /** Every event keeps the transcript so far and adds at most one message to it. */
  lemma StepAppendOnly(s: ChatState, e: Event)
    ensures |s.messages| <= |Step(s, e).messages| <= |s.messages| + 1
    ensures Step(s, e).messages[..|s.messages|] == s.messages
  {
  }

  /** Along any sequence of events, earlier messages are never altered or removed, and the
      transcript grows by at most one message per event. */
  lemma {:induction false} RunAppendOnly(s: ChatState, events: seq<Event>)
    ensures |s.messages| <= |Run(s, events).messages| <= |s.messages| + |events|
    ensures Run(s, events).messages[..|s.messages|] == s.messages
    decreases events
  {
    if events != [] {
      var next := Step(s, events[0]);
      StepAppendOnly(s, events[0]);
      RunAppendOnly(next, events[1..]);
      assert Run(s, events).messages[..|next.messages|] == next.messages;
      assert next.messages[..|s.messages|] == s.messages;
    }
  }

  /** After the welcome turn, user and model turns alternate, the user's first. */
  predicate Alternates(messages: seq<ChatMessage>)
  {
    forall i :: 1 <= i < |messages| ==> messages[i].role == (if i % 2 == 1 then User else Model)
  }

  /** The shape of a conversation: the welcome turn, then user and model turns alternating,
      ending on a user turn exactly while a reply is pending. */
  predicate Conversation(s: ChatState)
  {
    && |s.messages| >= 1
    && s.messages[0] == Welcome()
    && Alternates(s.messages)
    && (s.isTyping <==> |s.messages| % 2 == 0)
  }

  /** Appending the turn whose role is due keeps the alternation. */
  lemma AlternatesSnoc(messages: seq<ChatMessage>, m: ChatMessage)
    requires Alternates(messages)
    requires m.role == (if |messages| % 2 == 1 then User else Model)
    ensures Alternates(messages + [m])
  {
    var t := messages + [m];
    forall i | 1 <= i < |t|
      ensures t[i].role == (if i % 2 == 1 then User else Model)
    {
      if i < |messages| {
        assert t[i] == messages[i];
      }
    }
  }

  /** Sending from a conversation keeps it one. */
  lemma SendKeepsConversation(s: ChatState)
    requires Conversation(s)
    ensures Conversation(SendStep(s))
  {
    if !SendDisabled(s) {
      AlternatesSnoc(s.messages, ChatMessage(User, s.input, None));
    }
  }

  lemma {:induction false} StepKeepsConversation(s: ChatState, e: Event)
    requires Conversation(s)
    requires e.Settled? ==> s.isTyping
    ensures Conversation(Step(s, e))
  {
    match e
    case Typed(_) =>
    case ToggleClicked =>
    case CloseClicked =>
    case SendClicked => SendKeepsConversation(s);
    case KeyPressed(key) => SendKeepsConversation(s);
    case Settled(settled) => AlternatesSnoc(s.messages, ModelTurn(settled));
  }

  /** Every feasible run from a conversation (the initial state is one) stays one: the welcome turn stays
      first, user and model turns alternate, and a reply is pending exactly when the last
      turn is the shopper's. */
  lemma {:induction false} RunKeepsConversation(s: ChatState, events: seq<Event>)
    requires Conversation(s) && Feasible(s, events)
    ensures Conversation(Run(s, events))
    decreases events
  {
    if events != [] {
      StepKeepsConversation(s, events[0]);
      RunKeepsConversation(Step(s, events[0]), events[1..]);
    }
  }

  lemma InitialIsConversation()
    ensures InitialState().messages == [Welcome()] && !InitialState().isTyping
    ensures Conversation(InitialState())
  {
  }

  /** Wired to `sendMessageToGemini`, the request never rejects, so the model turn it adds is
      the service's non-empty reply and is never flagged as an error. */
  lemma ServiceReplyIsNeverError(s: ChatState, outcome: Gemini.Outcome)
    ensures var t := ReplyStep(s, Resolved(Gemini.ReplyText(outcome)));
            t.messages == s.messages + [ChatMessage(Model, Gemini.ReplyText(outcome), None)]
            && t.messages[|s.messages|].text != [] && !t.isTyping
  {
  }

  // ---------------------------------------------------------------------------
  // The component's state

  class ChatWidget {
    var isOpen: bool
    var messages: seq<ChatMessage>
    var input: string
    var isTyping: bool

    function State(): ChatState
      reads this
    {
      ChatState(isOpen, messages, input, isTyping)
    }

    constructor ()
      ensures State() == InitialState()
    {
      isOpen := false;
      messages := [Welcome()];
      input := "";
      isTyping := false;
    }

    /** The input box's onChange. */
    method SetInput(text: string)
      modifies this
      ensures State() == Step(old(State()), Typed(text))
    {
      input := text;
    }

    /** `handleSend` up to the `await`. */
    method BeginSend() returns (accepted: bool)
      modifies this
      ensures accepted == !SendDisabled(old(State()))
      ensures State() == SendStep(old(State()))
      ensures accepted ==> messages == old(messages) + [ChatMessage(User, old(input), None)]
      ensures !accepted ==> State() == old(State())
    {
      if Trim(input) == [] || isTyping {
        return false;
      }
      messages := messages + [ChatMessage(User, input, None)];
      input := "";
      isTyping := true;
      accepted := true;
    }

    /** `handleSend` after the `await`: the `try` appends the reply, the `catch` the apology,
        the `finally` clears the pending flag. */
    method CompleteSend(settled: Settlement)
      modifies this
      ensures State() == ReplyStep(old(State()), settled)
      ensures messages == old(messages) + [ModelTurn(settled)] && !isTyping
    {
      match settled {
        case Resolved(text) =>
          messages := messages + [ChatMessage(Model, text, None)];
        case Rejected =>
          messages := messages + [ChatMessage(Model, ApologyText, Some(true))];
      }
      isTyping := false;
    }

    /** `handleKeyPress`. */
    method HandleKeyPress(key: string) returns (accepted: bool)
      modifies this
      ensures State() == KeyStep(old(State()), key)
      ensures accepted <==> key == "Enter" && !SendDisabled(old(State()))
    {
      accepted := false;
      if key == "Enter" {
        accepted := BeginSend();
      }
    }

    /** The round toggle button. */
    method Toggle()
      modifies this
      ensures State() == Step(old(State()), ToggleClicked)
      ensures isOpen == !old(isOpen)
    {
      isOpen := !isOpen;
    }

    /** The minimise button and the backup close button. */
    method Close()
      modifies this
      ensures State() == Step(old(State()), CloseClicked)
      ensures !isOpen
    {
      isOpen := false;
    }
  }
}
