/** What one `handleSend` does to the conversation, on each of its paths, and
    what a whole conversation of sends looks like. */
module ChatBotProperties {
  import opened JsString
  import opened ChatBot

  /** A send changes the widget exactly when it passes the guard: blank text or
      an outstanding send leaves messages, input, flag and session as they were. */
  lemma SentIsNoOpIffRejected(config: Config, w: Widget, createSucceeds: bool, reply: Reply)
    ensures Sent(config, w, createSucceeds, reply) == w <==> Rejected(w)
  {
    var v := Sent(config, w, createSucceeds, reply);
    if !Rejected(w) {
      assert |v.messages| > |w.messages|;
    }
  }

  /** Whitespace-only text is always rejected, and text with a visible
      character is rejected only while a send is outstanding. */
  lemma RejectedIff(w: Widget)
    ensures Rejected(w) <==> AllWhitespace(w.input) || w.isLoading
  {
    TrimBlankIff(w.input);
  }

  /** Without an API key, one model message with the offline notice is appended;
      the text box, the flag and the session are left alone. */
  lemma OfflineSend(config: Config, w: Widget, createSucceeds: bool, reply: Reply)
    requires !Rejected(w) && config.apiKey == ""
    ensures var v := Sent(config, w, createSucceeds, reply);
      && v.messages == w.messages + [Message(Model, OfflineNotice)]
      && v.input == w.input && v.isLoading == w.isLoading && v.chat == w.chat
  {
  }

  /** Once accepted, and before the service has answered, the trimmed text
      is the last message, the text box is empty and the send is outstanding;
      the final state extends this one. */
  lemma AcceptedSend(config: Config, w: Widget, createSucceeds: bool, reply: Reply)
    requires !Rejected(w) && config.apiKey != ""
    ensures var a := Accepted(w);
      && a.messages == w.messages + [Message(User, Trim(w.input))]
      && Trim(w.input) != [] && a.input == "" && a.isLoading && a.chat == w.chat
    ensures var v := Sent(config, w, createSucceeds, reply);
      && |v.messages| > |w.messages| + 1
      && v.messages[..|w.messages| + 1] == Accepted(w).messages
      && v.input == ""
  {
    var v := Sent(config, w, createSucceeds, reply);
    assert v.messages[..|w.messages| + 1] == Accepted(w).messages;
  }

  /** A stream that ends normally grows the conversation by exactly two: the
      user message, then one model message holding every chunk's text. */
  lemma SuccessfulSend(config: Config, w: Widget, createSucceeds: bool, chunks: seq<Chunk>)
    requires !Rejected(w) && config.apiKey != "" && SessionFor(config, w, createSucceeds).Some?
    ensures var v := Sent(config, w, createSucceeds, Stream(chunks, false));
      && |v.messages| == |w.messages| + 2
      && v.messages[..|w.messages|] == w.messages
      && v.messages[|w.messages|] == Message(User, Trim(w.input))
      && v.messages[|w.messages| + 1] == Message(Model, StreamedText(chunks))
  {
  }

  /** Any failure appends the apology after whatever is there and removes
      nothing: two new entries when no stream was obtained, three (user,
      partial reply, apology) when the stream broke off. */
  lemma FailedSend(config: Config, w: Widget, createSucceeds: bool, reply: Reply)
    requires !Rejected(w) && config.apiKey != ""
    requires SessionFor(config, w, createSucceeds).None? || reply.RequestFails? || reply.endsInError
    ensures var v := Sent(config, w, createSucceeds, reply);
      && v.messages[..|w.messages|] == w.messages
      && v.messages[|w.messages|] == Message(User, Trim(w.input))
      && v.messages[|v.messages| - 1] == Message(Model, Apology)
      && if SessionFor(config, w, createSucceeds).Some? && reply.Stream? then
           && |v.messages| == |w.messages| + 3
           && v.messages[|w.messages| + 1] == Message(Model, StreamedText(reply.chunks))
         else
           |v.messages| == |w.messages| + 2
  {
  }

  /** No path removes or rewrites an existing message, and none grows the
      conversation by more than three. */
  lemma SentOnlyAppends(config: Config, w: Widget, createSucceeds: bool, reply: Reply)
    ensures var v := Sent(config, w, createSucceeds, reply);
      && |w.messages| <= |v.messages| <= |w.messages| + 3
      && v.messages[..|w.messages|] == w.messages
  {
    var v := Sent(config, w, createSucceeds, reply);
    if !Rejected(w) && config.apiKey != "" {
      assert v.messages[..|w.messages|] == w.messages;
    }
  }

  /** The outstanding-send flag ends as it began, so whatever path a send
      past the guard takes, it ends cleared. */
  lemma SentClearsLoading(config: Config, w: Widget, createSucceeds: bool, reply: Reply)
    ensures Sent(config, w, createSucceeds, reply).isLoading == w.isLoading
    ensures !Rejected(w) ==> !Sent(config, w, createSucceeds, reply).isLoading
  {
  }

  /** An existing session is kept and reused; otherwise the only session a
      send can leave is one bound to the configured key and instruction. */
  lemma SentReusesSession(config: Config, w: Widget, createSucceeds: bool, reply: Reply)
    ensures var v := Sent(config, w, createSucceeds, reply);
      && (w.chat.Some? ==> v.chat == w.chat)
      && (w.chat.None? && v.chat.Some? ==> v.chat == Some(CreateSession(config)) && config.apiKey != "")
  {
  }

  /** After `k` chunk updates the last message is the model's text so far,
      and everything before it is as it was when the stream opened. */
  lemma StreamProgress(prefix: seq<Message>, chunks: seq<Chunk>, k: nat)
    requires k <= |chunks|
    ensures var m := AfterChunks(prefix, chunks, k);
      && m[..|prefix|] == prefix
      && m[|prefix|] == Message(Model, StreamedText(chunks[..k]))
  {
    AfterChunksShape(prefix, chunks, k);
    var m := AfterChunks(prefix, chunks, k);
    assert m[..|prefix|] == prefix;
  }

  /** The accumulated text of a stream is the text of its first part followed
      by that of the rest. */
  lemma {:induction false} StreamedTextAppend(a: seq<Chunk>, b: seq<Chunk>)
    ensures StreamedText(a + b) == StreamedText(a) + StreamedText(b)
    decreases |b|
  {
    if b == [] {
      assert a + b == a;
    } else {
      var b' := b[..|b| - 1];
      assert (a + b)[..|a + b| - 1] == a + b';
      StreamedTextAppend(a, b');
    }
  }

  /** The displayed text only ever grows: the text after `j` chunks is a
      prefix of the text after any later number of chunks. */
  lemma StreamedTextGrows(chunks: seq<Chunk>, j: nat, k: nat)
    requires j <= k <= |chunks|
    ensures StreamedText(chunks[..j]) <= StreamedText(chunks[..k])
  {
    assert chunks[..k] == chunks[..j] + chunks[j..k];
    StreamedTextAppend(chunks[..j], chunks[j..k]);
  }

  /** One chunk extends the text so far by exactly that chunk's text. */
  lemma StreamedTextStep(chunks: seq<Chunk>, k: nat)
    requires k < |chunks|
    ensures StreamedText(chunks[..k + 1]) == StreamedText(chunks[..k]) + ChunkText(chunks[k])
  {
    assert chunks[..k + 1][..k] == chunks[..k];
  }

  /** The stream "Hel", "lo", " there" accumulates "Hel", then "Hello", then
      "Hello there", which by StreamProgress is what its placeholder shows. */
  lemma HelloThereExample()
    ensures var chunks := [Chunk(Some("Hel")), Chunk(Some("lo")), Chunk(Some(" there"))];
      && StreamedText(chunks[..1]) == "Hel"
      && StreamedText(chunks[..2]) == "Hello"
      && StreamedText(chunks[..3]) == "Hello there"
  {
    var chunks := [Chunk(Some("Hel")), Chunk(Some("lo")), Chunk(Some(" there"))];
    assert chunks[..0] == [];
    StreamedTextStep(chunks, 0);
    StreamedTextStep(chunks, 1);
    assert "Hel" + "lo" == "Hello";
    StreamedTextStep(chunks, 2);
    assert "Hello" + " there" == "Hello there";
  }

  /** A chunk without text leaves the displayed text unchanged. */
  lemma TextlessChunkKeepsText(chunks: seq<Chunk>, k: nat)
    requires k < |chunks| && chunks[k].text.None?
    ensures StreamedText(chunks[..k + 1]) == StreamedText(chunks[..k])
  {
    StreamedTextStep(chunks, k);
  }

  /** Nothing is drawn as typing once no send is outstanding. */
  lemma NoTypingIndicatorAtRest(w: Widget, i: nat)
    requires i < |w.messages| && !w.isLoading
    ensures !ShowsTypingIndicator(w, i)
  {
  }

  /** While the request is still unanswered the last entry is the user's
      non-blank text, so no typing dots are drawn anywhere. */
  lemma NoTypingIndicatorBeforeStream(w: Widget, i: nat)
    requires !Rejected(w) && i < |Accepted(w).messages|
    ensures !ShowsTypingIndicator(Accepted(w), i)
  {
  }

  /** While streaming, the placeholder shows the typing dots exactly as long
      as the text so far is empty. */
  lemma TypingIndicatorWhileStreaming(prefix: seq<Message>, chunks: seq<Chunk>, k: nat, chat: Option<ChatSession>)
    requires k <= |chunks|
    ensures var w := Widget(AfterChunks(prefix, chunks, k), "", true, chat);
      ShowsTypingIndicator(w, |prefix|) <==> StreamedText(chunks[..k]) == ""
  {
    StreamProgress(prefix, chunks, k);
  }

  /** One turn of a conversation: the visitor types `text`, then sends it. */
  datatype Turn = Turn(text: string, createSucceeds: bool, reply: Reply)

  function Converse(config: Config, w: Widget, turns: seq<Turn>): Widget
    decreases |turns|
  {
    if turns == [] then w
    else
      var t := turns[0];
      Converse(config, Sent(config, w.(input := t.text), t.createSucceeds, t.reply), turns[1..])
  }

  /** Model and user entries alternate, starting with the model. */
  predicate Alternating(messages: seq<Message>) {
    forall i :: 0 <= i < |messages| ==> messages[i].role == if i % 2 == 0 then Model else User
  }

  /** A turn with visible text whose stream, if one opens, does not break off. */
  predicate Settles(t: Turn) {
    Trim(t.text) != [] && !(t.reply.Stream? && t.reply.endsInError)
  }

  lemma OneTurnAlternates(config: Config, w: Widget, t: Turn)
    requires config.apiKey != "" && !w.isLoading && |w.messages| % 2 == 1 && Alternating(w.messages)
    requires Settles(t)
    ensures var v := Sent(config, w.(input := t.text), t.createSucceeds, t.reply);
      && |v.messages| == |w.messages| + 2 && Alternating(v.messages) && !v.isLoading
  {
    var v := Sent(config, w.(input := t.text), t.createSucceeds, t.reply);
    assert |v.messages| == |w.messages| + 2;
    forall i | 0 <= i < |v.messages| ensures v.messages[i].role == if i % 2 == 0 then Model else User {
      if i < |w.messages| {
        assert v.messages[i] == w.messages[i];
      }
    }
  }

  /** With an API key, every turn that settles adds one user and one model
      message, keeping the alternation and clearing the flag. */
  lemma {:induction false} ConversationAlternates(config: Config, w: Widget, turns: seq<Turn>)
    requires config.apiKey != "" && !w.isLoading && |w.messages| % 2 == 1 && Alternating(w.messages)
    requires forall t :: t in turns ==> Settles(t)
    ensures var v := Converse(config, w, turns);
      && |v.messages| == |w.messages| + 2 * |turns| && Alternating(v.messages) && !v.isLoading
    decreases |turns|
  {
    if turns != [] {
      var t := turns[0];
      assert t in turns;
      OneTurnAlternates(config, w, t);
      var w' := Sent(config, w.(input := t.text), t.createSucceeds, t.reply);
      forall u | u in turns[1..] ensures Settles(u) {
        assert u in turns;
      }
      ConversationAlternates(config, w', turns[1..]);
    }
  }

  /** From the greeting, n settling turns leave 1 + 2n messages, alternating
      and ending with the model. */
  lemma SeededConversation(config: Config, turns: seq<Turn>)
    requires config.apiKey != ""
    requires forall t :: t in turns ==> Settles(t)
    ensures var v := Converse(config, InitialWidget, turns);
      && |v.messages| == 1 + 2 * |turns| && Alternating(v.messages)
      && v.messages[|v.messages| - 1].role == Model
  {
    var w := InitialWidget;
    assert |w.messages| == 1 && w.messages[0].role == Model;
    assert Alternating(w.messages);
    ConversationAlternates(config, w, turns);
    var v := Converse(config, w, turns);
    assert (|v.messages| - 1) % 2 == 0;
  }
}
