/** The chat widget of the portfolio page: its conversation state and the
    `handleSend` transition, with the language-model service replaced by the
    outcome it produces for one send. */
module ChatBot {
  import opened JsString

  datatype Option<T> = None | Some(value: T)

  datatype Role = User | Model

  /** One entry of the conversation, in display order. */
  datatype Message = Message(role: Role, text: string)

  const Greeting: string :=
    "Hi! I'm Nagaraj's AI assistant. Ask me anything about his experience, projects, or technical skills."
  const OfflineNotice: string :=
    "AI Assistant is currently offline (API Key not configured). Please contact Nagaraj directly."
  const Apology: string :=
    "I'm sorry, I encountered an error. Please try again or reach out to Nagaraj directly."
  const ModelId: string := "gemini-3-pro-preview"

  /** Values fixed when the page loads: the API key (empty when not configured)
      and the system instruction, which the model treats as an opaque string. */
  datatype Config = Config(apiKey: string, systemInstruction: string)

  /** The chat session handle of `ai.chats.create`, by the settings it is bound to. */
  datatype ChatSession = ChatSession(apiKey: string, model: string, systemInstruction: string)

  function CreateSession(config: Config): ChatSession {
    ChatSession(config.apiKey, ModelId, config.systemInstruction)
  }

  /** One streamed chunk; `text` is None when the chunk carries no text. */
  datatype Chunk = Chunk(text: Option<string>)

  /** What `sendMessageStream` does for one send: its promise rejects, or it
      yields `chunks` in order and then either ends or throws. */
  datatype Reply =
    | RequestFails
    | Stream(chunks: seq<Chunk>, endsInError: bool)

  /** The widget's state as a value: the four pieces `handleSend` reads and writes. */
  datatype Widget = Widget(messages: seq<Message>, input: string, isLoading: bool, chat: Option<ChatSession>)

  /** One greeting from the model, an empty text box, nothing outstanding, no session. */
  const InitialWidget: Widget := Widget([Message(Model, Greeting)], "", false, None)

  /** `chunk.text || ''` */
  function ChunkText(c: Chunk): string {
    match c.text
    case Some(t) => t
    case None => ""
  }

  /** The accumulator `fullText` once `chunks` have been consumed. */
  function StreamedText(chunks: seq<Chunk>): string {
    if chunks == [] then "" else StreamedText(chunks[..|chunks| - 1]) + ChunkText(chunks[|chunks| - 1])
  }

  /** The guard of `handleSend`: blank input, or a send already outstanding. */
  predicate Rejected(w: Widget) {
    Trim(w.input) == [] || w.isLoading
  }

  /** The updater a chunk applies: the last entry becomes the model's text so
      far, and nothing else changes. */
  function ReplaceLast(prev: seq<Message>, text: string): (next: seq<Message>)
    requires prev != []
    ensures |next| == |prev|
    ensures next[|next| - 1] == Message(Model, text)
    ensures forall k :: 0 <= k < |prev| - 1 ==> next[k] == prev[k]
  {
    prev[|prev| - 1 := Message(Model, text)]
  }

  /** The messages once the empty placeholder has been appended to `prefix`
      and the first `k` chunks' updaters have been applied in order. */
  function AfterChunks(prefix: seq<Message>, chunks: seq<Chunk>, k: nat): (r: seq<Message>)
    requires k <= |chunks|
    ensures |r| == |prefix| + 1
  {
    if k == 0 then prefix + [Message(Model, "")]
    else ReplaceLast(AfterChunks(prefix, chunks, k - 1), StreamedText(chunks[..k]))
  }

  /** The state once a send has passed both guards: the trimmed text is a user
      message, the text box is cleared and the send is outstanding. */
  function Accepted(w: Widget): Widget {
    Widget(w.messages + [Message(User, Trim(w.input))], "", true, w.chat)
  }

  /** The session a send runs with: the existing one, else a new one if the
      service creates it. */
  function SessionFor(config: Config, w: Widget, createSucceeds: bool): Option<ChatSession> {
    if w.chat.Some? then w.chat
    else if createSucceeds then Some(CreateSession(config))
    else None
  }

  /** The model messages an accepted send leaves after the user message. */
  function Replies(hasSession: bool, reply: Reply): seq<Message> {
    if !hasSession then [Message(Model, Apology)]
    else
      match reply
      case RequestFails => [Message(Model, Apology)]
      case Stream(chunks, endsInError) =>
        [Message(Model, StreamedText(chunks))] + (if endsInError then [Message(Model, Apology)] else [])
  }

  /** The widget after one `handleSend`, in closed form. */
  function Sent(config: Config, w: Widget, createSucceeds: bool, reply: Reply): Widget {
    if Rejected(w) then w
    else if config.apiKey == "" then w.(messages := w.messages + [Message(Model, OfflineNotice)])
    else
      var chat := SessionFor(config, w, createSucceeds);
      Widget(Accepted(w).messages + Replies(chat.Some?, reply), "", false, chat)
  }

  /** The typing dots drawn in place of message `i`. */
  predicate ShowsTypingIndicator(w: Widget, i: nat)
    requires i < |w.messages|
  {
    w.messages[i].text == "" && w.messages[i].role == Model && w.isLoading
    && w.messages[|w.messages| - 1].text == ""
  }

  lemma {:induction false} AfterChunksShape(prefix: seq<Message>, chunks: seq<Chunk>, k: nat)
    requires k <= |chunks|
    ensures AfterChunks(prefix, chunks, k) == prefix + [Message(Model, StreamedText(chunks[..k]))]
  {
    if k == 0 {
      assert chunks[..0] == [];
    } else {
      AfterChunksShape(prefix, chunks, k - 1);
      var r := AfterChunks(prefix, chunks, k);
      var s := prefix + [Message(Model, StreamedText(chunks[..k]))];
      assert |r| == |s|;
      forall j | 0 <= j < |r| ensures r[j] == s[j] {
      }
    }
  }

  class ChatWidget {
    const config: Config
    var messages: seq<Message>
    var input: string
    var isLoading: bool
    var chat: Option<ChatSession>
    /** How many sessions `initChat` has created so far. */
    ghost var sessionsCreated: nat

    ghost predicate Valid()
      reads this
    {
      && messages != []
      && sessionsCreated == (if chat.Some? then 1 else 0)
      && (chat.Some? ==> chat.value == CreateSession(config))
    }

    function State(): Widget
      reads this
    {
      Widget(messages, input, isLoading, chat)
    }

    constructor (config: Config)
      ensures Valid()
      ensures this.config == config && State() == InitialWidget && sessionsCreated == 0
    {
      this.config := config;
      messages := [Message(Model, Greeting)];
      input := "";
      isLoading := false;
      chat := None;
      sessionsCreated := 0;
    }

    /** The text box's change handler. */
    method SetInput(text: string)
      requires Valid()
      modifies this`input
      ensures Valid() && input == text
    {
      input := text;
    }

    /** `initChat`: create the session on first use, reuse it afterwards.
        `createSucceeds` is whether `ai.chats.create` would return; `ok` is
        false when it throws. */
    method InitChat(createSucceeds: bool) returns (ok: bool)
      requires Valid()
      modifies this`chat, this`sessionsCreated
      ensures Valid()
      ensures ok == chat.Some? && chat == SessionFor(config, old(State()), createSucceeds)
      ensures old(chat).Some? ==> sessionsCreated == old(sessionsCreated)
    {
      if chat.None? && createSucceeds {
        chat := Some(CreateSession(config));
        sessionsCreated := sessionsCreated + 1;
      }
      ok := chat.Some?;
    }

    /** The `for await` loop of `handleSend`: append the empty placeholder,
        then after each chunk replace the last entry by the text so far. */
    method ConsumeStream(chunks: seq<Chunk>)
      modifies this`messages
      ensures messages == old(messages) + [Message(Model, StreamedText(chunks))]
    {
      ghost var prefix := messages;
      var fullText := "";
      messages := messages + [Message(Model, "")];
      for i := 0 to |chunks|
        invariant fullText == StreamedText(chunks[..i])
        invariant messages == AfterChunks(prefix, chunks, i)
      {
        assert chunks[..i + 1][..i] == chunks[..i];
        fullText := fullText + ChunkText(chunks[i]);
        messages := ReplaceLast(messages, fullText);
      }
      AfterChunksShape(prefix, chunks, |chunks|);
      assert chunks[..|chunks|] == chunks;
    }

    /** `handleSend`, with the service's behaviour for this send given as
        `createSucceeds` and `reply`. */
    method HandleSend(createSucceeds: bool, reply: Reply)
      requires Valid()
      modifies this
      ensures Valid()
      ensures State() == Sent(config, old(State()), createSucceeds, reply)
      ensures sessionsCreated <= 1
      ensures old(chat).Some? ==> sessionsCreated == old(sessionsCreated)
    {
      if Trim(input) == [] || isLoading {
        return;
      }
      if config.apiKey == "" {
        messages := messages + [Message(Model, OfflineNotice)];
        return;
      }
      ghost var before := State();
      var userMessage := Trim(input);
      input := "";
      messages := messages + [Message(User, userMessage)];
      isLoading := true;
      assert State() == Accepted(before);

      var ok := InitChat(createSucceeds);
      ghost var replies := Replies(ok, reply);
      if !ok {
        messages := messages + [Message(Model, Apology)];
      } else {
        match reply
        case RequestFails =>
          messages := messages + [Message(Model, Apology)];
        case Stream(chunks, endsInError) =>
          ConsumeStream(chunks);
          if endsInError {
            messages := messages + [Message(Model, Apology)];
            assert replies == [Message(Model, StreamedText(chunks)), Message(Model, Apology)];
          } else {
            assert replies == [Message(Model, StreamedText(chunks))];
          }
      }
      assert messages == Accepted(before).messages + replies;
      isLoading := false;
    }
  }
}
