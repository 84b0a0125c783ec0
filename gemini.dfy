/** The assistant client: one lazily created chat session, and the fail-soft mapping of
    whatever the hosted model returns to the text shown to the shopper. The hosted model
    itself is outside the model: the result of each call to it is an `Outcome` parameter. */
module Gemini {
  import Catalog

  /** What one call to the hosted model produced: a response carrying text, a response whose
      text field is missing, or a thrown failure (network, authentication, quota, payload). */
  datatype Outcome = Ok(text: string) | Missing | Failed

  const NoResponse: string := "I'm sorry, I couldn't generate a response at the moment."
  const ConnectionTrouble: string :=
    "I'm having trouble connecting to the design servers right now. Please try again later."
  const InsightFallback: string := "Experience premium quality."
  const InsightFailure: string := "Timeless design for your home."

  // ---------------------------------------------------------------------------
  // Chat replies

  /** The text `sendMessageToGemini` resolves with. It never rejects and never resolves with
      the empty string: non-empty model text passes through unchanged, empty or missing text
      becomes the "no response" sentence, and any failure the "connection trouble" sentence. */
  function ReplyText(outcome: Outcome): (r: string)
    ensures r != []
    ensures outcome.Ok? && outcome.text != [] ==> r == outcome.text
    ensures outcome.Missing? || outcome == Ok([]) ==> r == NoResponse
    ensures outcome.Failed? ==> r == ConnectionTrouble
  {
    match outcome
    case Ok(text) => if text != [] then text else NoResponse
    case Missing => NoResponse
    case Failed => ConnectionTrouble
  }

  /** The remote conversation handle. `turns` stands for the context the provider keeps:
      the messages submitted to it, in order. */
  class ChatSession {
    const model: string
    const systemInstruction: string
    var turns: seq<string>

    constructor (model: string, systemInstruction: string)
      ensures this.model == model && this.systemInstruction == systemInstruction
      ensures turns == []
    {
      this.model := model;
      this.systemInstruction := systemInstruction;
      turns := [];
    }
  }

  /** The module-level client state: the chat session, absent until the first message. */
  class Client {
    var chatSession: ChatSession?

    constructor ()
      ensures chatSession == null
    {
      chatSession := null;
    }

    /** `getChatSession`: creates the session, bound to the fixed model and system
        instruction, only when there is none; otherwise returns the one already held. */
    method GetChatSession() returns (chat: ChatSession)
      modifies this
      ensures chatSession == chat
      ensures old(chatSession) != null ==> chat == old(chatSession)
      ensures old(chatSession) == null ==>
                fresh(chat) && chat.turns == []
                && chat.model == Catalog.GeminiModel
                && chat.systemInstruction == Catalog.SystemInstruction
    {
      if chatSession == null {
        chatSession := new ChatSession(Catalog.GeminiModel, Catalog.SystemInstruction);
      }
      chat := chatSession;
    }

    /** `sendMessageToGemini`: submits the shopper's text, unchanged, as the next turn of the
        one session, and resolves with the mapped reply. */
    method SendMessage(message: string, outcome: Outcome) returns (reply: string)
      modifies this, chatSession
      ensures chatSession != null
      ensures old(chatSession) != null ==>
                chatSession == old(chatSession)
                && chatSession.turns == old(chatSession.turns) + [message]
      ensures old(chatSession) == null ==>
                fresh(chatSession) && chatSession.turns == [message]
                && chatSession.model == Catalog.GeminiModel
                && chatSession.systemInstruction == Catalog.SystemInstruction
      ensures reply == ReplyText(outcome) && reply != []
    {
      var chat := GetChatSession();
      chat.turns := chat.turns + [message];
      reply := ReplyText(outcome);
    }
  }

  /** Two calls to `getChatSession` in a row hand out the same session object. */
  method SessionIsReused(client: Client) returns (first: ChatSession, second: ChatSession)
    modifies client
    ensures first == second && client.chatSession == first
  {
    first := client.GetChatSession();
    second := client.GetChatSession();
  }

  // ---------------------------------------------------------------------------
  // Product insights

  function Quoted(s: string): string
  {
    "\"" + s + "\""
  }

  const PromptHead: string :=
    "Write a very short, 1-sentence punchy marketing hook (max 15 words) for a product named "
  const PromptMiddle: string := " with description: "
  const PromptTail: string := ". It's for a Black Friday sale."

  /** The one-shot instruction sent for a product: it carries the name and the description
      verbatim, each between double quotes, at fixed places of the template. */
  function InsightPrompt(name: string, description: string): (p: string)
    ensures |p| == |PromptHead| + |name| + |PromptMiddle| + |description| + |PromptTail| + 4
    ensures p[|PromptHead|..|PromptHead| + |name| + 2] == Quoted(name)
    ensures p[|p| - |PromptTail| - |description| - 2..|p| - |PromptTail|] == Quoted(description)
  {
    var p := PromptHead + Quoted(name) + PromptMiddle + Quoted(description) + PromptTail;
    assert p == (PromptHead + Quoted(name)) + (PromptMiddle + Quoted(description) + PromptTail);
    assert (PromptHead + Quoted(name))[|PromptHead|..] == Quoted(name);
    assert p[..|p| - |PromptTail|] == PromptHead + Quoted(name) + PromptMiddle + Quoted(description);
    p
  }

  /** `text.replace(/^"|"$/g, '')`: at most one double quote is removed at the start and at
      most one at the end; what remains is the contiguous rest of the text. A quote is removed
      at the end exactly when the text still ends with one after the start was handled. */
  function StripQuotes(s: string): (r: string)
    ensures var lead := if |s| > 0 && s[0] == '"' then 1 else 0;
            lead + |r| <= |s| && r == s[lead..lead + |r|]
            && (s[lead + |r|..] == [] || s[lead + |r|..] == ['"'])
            && (s[lead + |r|..] == ['"'] <==> |s| > lead && s[|s| - 1] == '"')
  {
    var lead := if |s| > 0 && s[0] == '"' then 1 else 0;
    var rest := s[lead..];
    if |rest| > 0 && rest[|rest| - 1] == '"' then rest[..|rest| - 1] else rest
  }

  /** A text wrapped in one pair of quotes comes back exactly. */
  lemma StripQuotesOfQuoted(t: string)
    ensures StripQuotes(Quoted(t)) == t
  {
    var s := Quoted(t);
    assert s[1..][..|t|] == t;
  }

  /** A text that neither starts nor ends with a quote is returned unchanged. */
  lemma StripQuotesOfUnquoted(t: string)
    requires t == [] || (t[0] != '"' && t[|t| - 1] != '"')
    ensures StripQuotes(t) == t
  {
    assert t[0..] == t;
  }

  /** The text `generateProductInsight` resolves with: the stripped model text when that is
      non-empty, the "premium quality" sentence when it is empty or missing, and the
      "timeless design" sentence on any failure. It is never empty. */
  function InsightText(outcome: Outcome): (r: string)
    ensures r != []
    ensures outcome.Failed? ==> r == InsightFailure
    ensures outcome.Missing? ==> r == InsightFallback
    ensures outcome.Ok? && StripQuotes(outcome.text) != [] ==> r == StripQuotes(outcome.text)
    ensures outcome.Ok? && StripQuotes(outcome.text) == [] ==> r == InsightFallback
  {
    match outcome
    case Ok(text) => if StripQuotes(text) != [] then StripQuotes(text) else InsightFallback
    case Missing => InsightFallback
    case Failed => InsightFailure
  }

  /** `generateProductInsight(name, description)`: one stateless call of the hosted model
      (given as `model`) on the product's prompt, mapped to a non-empty sentence. */
  function GenerateProductInsight(name: string, description: string, model: string -> Outcome): (r: string)
    ensures r != []
    ensures r == InsightFailure || r == InsightFallback
            || (model(InsightPrompt(name, description)).Ok?
                && r == StripQuotes(model(InsightPrompt(name, description)).text))
  {
    InsightText(model(InsightPrompt(name, description)))
  }
}
