# Chat widget of the portfolio site, in Dafny

The portfolio page embeds a chat widget (`components/ChatBot.tsx`). It keeps
an ordered conversation of `{role: user | model, text}` entries, seeded with
one greeting from the model. It also keeps the text box contents (`input`),
a flag for an outstanding send (`isLoading`) and a lazily created chat
session. When the visitor sends:

- `handleSend` ignores blank text and ignores sends while one is outstanding.
- Without an API key it answers with a fixed offline notice.
- Otherwise it appends the trimmed user message and clears the text box.
- It asks the language-model service for a streamed reply, which it merges
  chunk by chunk into a trailing model entry.
- On any failure it appends a fixed apology.

This project models that state machine. The service is replaced by what it
does on one send:

- `createSucceeds`: whether `ai.chats.create` returns. It is consulted only
  when no session exists yet.
- `reply`: either `RequestFails` (the `sendMessageStream` promise rejects) or
  `Stream(chunks, endsInError)`. The chunks arrive in order, then the
  iteration either ends or throws. A chunk whose `text` is missing carries
  `None` and is read as `""`.

Files:

- `jsstring.dfy`, module `JsString`: `String.prototype.trim`. It removes the
  characters ECMAScript counts as WhiteSpace or LineTerminator from both ends.
- `chatbot.dfy`, module `ChatBot`:
  - the data model (`Message`, `Reply`, `Widget`, `ChatSession`);
  - the closed-form specification `Sent` of one `handleSend`;
  - the intermediate states `Accepted` and `AfterChunks`;
  - the typing-indicator condition;
  - the class `ChatWidget`. Its fields are the component's state, and
    `HandleSend`, `InitChat` and the `for await` loop (`ConsumeStream`) update
    them in place. `HandleSend` is proved to leave exactly `Sent` of the
    state it started from.
- `chatbot_props.dfy`, module `ChatBotProperties`: what `Sent` does on each
  path, how the streamed text builds up, when the typing dots show, and what
  a whole conversation of sends looks like.

The API key and the system instruction are module-level constants in the
source, computed when the page loads. Here they are the `Config` the widget
is constructed with. The system instruction is an opaque string.

Behaviour the code has that a reader might not expect. The model follows the
code in each case:

- The empty model placeholder is appended only after `sendMessageStream`
  has resolved (line 83 comes after line 80). While the request is
  unanswered, the last entry is the user's text, so no typing dots show
  (`NoTypingIndicatorBeforeStream`).
- A failure appends the apology (line 96) rather than replacing the partial
  reply. A stream that breaks off therefore leaves the user message, the
  partial text and the apology: three entries (`FailedSend`).
- A chunk update replaces the last entry unconditionally and gives it the
  model role (line 90). It does not check the role first. In the model the
  last entry is always the placeholder at that point (`AfterChunksShape`).
- A stream that ends normally without any text leaves an empty model
  message in the conversation. `SuccessfulSend` with
  `StreamedText(chunks) == ""` says so.

## Model

| member | source | states |
|---|---|---|
| `JsString.Trim` | components/ChatBot.tsx:67 | the trimmed text is no longer than the input, and when it is not empty neither its first nor its last character is whitespace |
| `JsString.SkipForward` | components/ChatBot.tsx:67 | the leading-whitespace scan stops at the first non-whitespace position, and everything it skipped is whitespace |
| `JsString.SkipBackward` | components/ChatBot.tsx:67 | the trailing-whitespace scan stops just past the last non-whitespace position, and everything it skipped is whitespace |
| `JsString.TrimUnique` | components/ChatBot.tsx:73 | for any split of a string into a whitespace prefix, a middle with non-whitespace ends and a whitespace suffix, trimming gives exactly that middle |
| `JsString.TrimBlankIff` | components/ChatBot.tsx:67 | `input.trim()` is empty if and only if every character of `input` is whitespace |
| `JsString.TrimIdempotent` | components/ChatBot.tsx:73 | the stored user text is already trimmed: trimming it again changes nothing |
| `ChatBot.ReplaceLast` | components/ChatBot.tsx:88-92 | a chunk's updater keeps the length, makes the last entry the model's text so far, and leaves every earlier entry unchanged |
| `ChatBot.AfterChunks` | components/ChatBot.tsx:83-92 | the placeholder and the chunk updates make the conversation exactly one entry longer than when the stream opened |
| `ChatBot.AfterChunksShape` | components/ChatBot.tsx:82-93 | after the first k chunks the conversation is the old one plus one model entry holding the concatenated text of those k chunks |
| `ChatBot.ChatWidget.constructor` | components/ChatBot.tsx:39-45 | initially the conversation is the single model greeting, the text box is empty, nothing is outstanding and there is no session |
| `ChatBot.ChatWidget.SetInput` | components/ChatBot.tsx:161 | the text box's change handler sets `input` to the typed text and touches nothing else |
| `ChatBot.ChatWidget.InitChat` | components/ChatBot.tsx:53-64 | a session is created only when none exists, bound to the configured key, model id and system instruction, and an existing one is returned unchanged |
| `ChatBot.ChatWidget.ConsumeStream` | components/ChatBot.tsx:82-93 | the streaming loop leaves the prior conversation plus one model entry whose text is every chunk's text in order |
| `ChatBot.ChatWidget.HandleSend` | components/ChatBot.tsx:66-100 | one send leaves exactly the state `Sent` gives for the state it started from, keeps the object invariant, and creates at most one session ever |
| `ChatBotProperties.SentIsNoOpIffRejected` | components/ChatBot.tsx:67 | a send leaves messages, input, flag and session all unchanged if and only if the input trims to empty or a send is outstanding |
| `ChatBotProperties.RejectedIff` | components/ChatBot.tsx:67 | a send is rejected exactly when the input is all whitespace or a send is outstanding |
| `ChatBotProperties.OfflineSend` | components/ChatBot.tsx:68-71 | with no API key, a valid send appends one model entry with the offline notice and leaves input, flag and session unchanged |
| `ChatBotProperties.AcceptedSend` | components/ChatBot.tsx:73-76 | on acceptance, before any reply, the user entry with the trimmed text is appended, the input is cleared and the flag is set; the final state extends this one and the input stays cleared |
| `ChatBotProperties.SuccessfulSend` | components/ChatBot.tsx:79-93 | a stream that ends normally grows the conversation by exactly two: the user entry, then a model entry with the concatenation of all chunk texts |
| `ChatBotProperties.FailedSend` | components/ChatBot.tsx:78-96 | any failure keeps every earlier entry and ends with the apology; growth is two if no stream was obtained and three, with the partial text kept, if the stream broke off |
| `ChatBotProperties.SentOnlyAppends` | components/ChatBot.tsx:66-100 | no path removes or rewrites an existing entry, and one send adds at most three |
| `ChatBotProperties.SentClearsLoading` | components/ChatBot.tsx:97-99 | the flag ends as it began, so every send past the guard ends with the flag cleared |
| `ChatBotProperties.SentReusesSession` | components/ChatBot.tsx:53-64 | an existing session is kept across sends; a newly created one is bound to the configured key and instruction and only arises when a key is set |
| `ChatBotProperties.StreamProgress` | components/ChatBot.tsx:85-93 | after k chunks the entries before the placeholder are as they were and the placeholder holds the cumulative text of the first k chunks |
| `ChatBotProperties.StreamedTextAppend` | components/ChatBot.tsx:82-87 | the accumulated text of two consecutive stretches of a stream is the first one's text followed by the second one's |
| `ChatBotProperties.StreamedTextGrows` | components/ChatBot.tsx:85-92 | the displayed text only grows: the text after j chunks is a prefix of the text after any later number of chunks |
| `ChatBotProperties.StreamedTextStep` | components/ChatBot.tsx:86-87 | each chunk extends the accumulated text by exactly that chunk's text, with a missing text read as empty |
| `ChatBotProperties.HelloThereExample` | components/ChatBot.tsx:85-92 | the chunks "Hel", "lo", " there" accumulate "Hel", then "Hello", then "Hello there" |
| `ChatBotProperties.TextlessChunkKeepsText` | components/ChatBot.tsx:86 | a chunk without text leaves the displayed text unchanged |
| `ChatBotProperties.NoTypingIndicatorAtRest` | components/ChatBot.tsx:144 | no entry shows the typing dots when no send is outstanding |
| `ChatBotProperties.NoTypingIndicatorBeforeStream` | components/ChatBot.tsx:144 | between acceptance and the stream opening, no entry shows the typing dots, because the last entry is the user's non-blank text |
| `ChatBotProperties.TypingIndicatorWhileStreaming` | components/ChatBot.tsx:144 | while streaming, the placeholder shows the typing dots if and only if the text so far is empty |
| `ChatBotProperties.OneTurnAlternates` | components/ChatBot.tsx:66-100 | with a key set, one non-blank send whose stream does not break off adds a user entry then a model entry, keeping the alternation and clearing the flag |
| `ChatBotProperties.ConversationAlternates` | components/ChatBot.tsx:66-100 | n such sends add exactly 2n entries, keep user and model entries alternating, and leave nothing outstanding |
| `ChatBotProperties.SeededConversation` | components/ChatBot.tsx:39-100 | from the greeting, n such sends leave 1 + 2n entries, alternating from the model's greeting and ending with a model entry |

## Left out

- The language-model service: `GoogleGenAI`, `ai.chats.create` and `sendMessageStream` (lines 55-61, 80). This is a foreign SDK, so its behaviour on one send is the `createSucceeds` and `reply` parameters. The session's server-side conversation history is not modelled.
- A failure of `new GoogleGenAI` and one of `ai.chats.create` have the same effect, so `createSucceeds` covers both.
- Building the system instruction from the profile data (lines 9-30) uses `JSON.stringify`, a foreign serialiser. The instruction is an opaque string in `Config`.
- Reading `VITE_API_KEY` from the environment (line 7) is I/O. The key is a `Config` field, and "not configured" is the empty string.
- `async`/`await` and React's deferred `setMessages` updater queue. Each updater is applied at once, in program order, and `HandleSend` runs to completion. So the flag is true only inside `HandleSend`, and a second send arriving mid-stream is not an interleaving here. The guard against it is modelled on values: `Sent` of a state whose flag is set changes nothing.
- The intermediate states of one send are not fields of the object after the call. `Accepted` and `AfterChunks` describe them, and the loop invariant of `ConsumeStream` ties them to the running code.
- `console.error` on failure (line 95) is logging.
- JSX rendering, animation, the scroll-to-bottom effect (lines 47-51), the open/close toggle (lines 38, 183), the Enter key binding (line 162) and the button disabled while a send is outstanding (line 168) are UI. The guard inside `handleSend` covers both the button and the Enter key. Of the rendering, only the typing-indicator condition (line 144) is modelled, as a predicate.
- A JavaScript string is UTF-16 code units; a Dafny `char` is a Unicode scalar value. Every character `trim` removes is a single code unit, so trimming agrees. Lone surrogates are not representable.
- The rest of the repository is static content or presentation and is not part of this model: the radar chart geometry, the contact form's timed status toggle and the navbar listeners (`components/Sections.tsx`, `components/Layout.tsx`), the profile data and types (`constants.ts`, `types.ts`), `App.tsx` and the build configuration.
