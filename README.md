# Public Sector AI Assistant: conversation state in Dafny

This project models the state logic of a browser chat front end. The user types
a question, the question becomes a USER turn in the conversation, and the reply
of a hosted language model is streamed fragment by fragment into a MODEL turn.
Three things are modelled:

- the root component's conversation (`App.tsx`). It holds the list of turns, the
  `isLoading` flag and the chat session. On mount it seeds a welcome turn.
  `handleSendMessage` appends the user's turn, sets the flag, opens the stream,
  appends a `'...'` placeholder and writes the accumulated text over the last
  turn once per fragment. On any failure it appends an apology turn, and it
  always clears the flag. The typing indicator is derived from this state.
- the input box (`components/ChatInput.tsx`). It holds the field's text. Its
  submit handler forwards `input.trim()` only when that text is non-empty and
  nothing is loading, and then clears the field.
- the wiring between the two (`App.tsx:100`): the box receives the
  conversation's loading flag, and its callback is `handleSendMessage`.

Files:

- `types.dfy`: `Role`, `Msg` and `Option`. The source's `./types` module is not
  part of this model; its shape is inferred from how it is used.
- `chat_input.dfy`: module `ChatInputComponent`. It contains ECMAScript's
  whitespace set, `TrimStart`/`TrimEnd`/`Trim` with lemmas about them, and the
  class `ChatInput`.
- `app.dfy`: module `App`. It contains the constants, the `Stream` datatype,
  the specification functions (`Concat`, `ReplaceLast`, `AfterChunks`,
  `Settled`) with lemmas about them, the class `Conversation` with one step
  method per state update, the driver `HandleSendMessage`, and `Submit`.

The chat session (an SDK object) is modelled as the boolean `hasSession`. What
the session does with a message is a parameter of type `Stream`. There are two
cases. In `FailsToOpen`, `sendMessageStream` throws before a stream exists. In
`Yields(fragments, thenFails)`, the stream yields `fragments` in order and then
either ends or throws. A failure after k chunks is therefore
`Yields(first k fragments, true)`.

Two behaviours of the code that are easy to miss:

- `handleSendMessage` (App.tsx:31-63) does not check `isLoading`. The only
  single-flight guard is the submit guard at components/ChatInput.tsx:25.
  `Conversation.BeginSend` likewise has no such check, and `Submit` is where
  the guard takes effect.
- On failure, the apology is always appended (App.tsx:59), never written over
  the placeholder. A mid-stream failure leaves the partial text, or `'...'`,
  visible before the apology.

## Model

| member | source | states |
|---|---|---|
| `ChatInputComponent.IsWhitespace` | components/ChatInput.tsx:25-26 | Membership in `TrimmedChars`, the set `input.trim()` removes: ECMAScript's WhiteSpace code points (tab, vertical tab, form feed, space, no-break space, byte order mark, every space separator) and its LineTerminator code points. Every such code point lies in the Basic Multilingual Plane. |
| `ChatInputComponent.TrimStart` | components/ChatInput.tsx:25-26 | The result is a suffix of the input, everything removed is whitespace, and the result is empty or starts with a non-whitespace character. |
| `ChatInputComponent.TrimEnd` | components/ChatInput.tsx:25-26 | The result is a prefix of the input, everything removed is whitespace, and the result is empty or ends with a non-whitespace character. |
| `ChatInputComponent.Trim` | components/ChatInput.tsx:25-26 | `input.trim()` is never longer than the input, and a non-empty result has no leading or trailing whitespace. |
| `ChatInputComponent.TrimSlice` | components/ChatInput.tsx:26 | The forwarded text is one contiguous slice of the field, and only whitespace is cut off on each side. |
| `ChatInputComponent.TrimIdempotent` | components/ChatInput.tsx:26 | Trimming the forwarded message again leaves it unchanged. |
| `ChatInputComponent.TrimEmptyIffAllWhitespace` | components/ChatInput.tsx:25 | The guard's `input.trim()` is empty exactly when every character of the field is whitespace (both directions). |
| `ChatInputComponent.ChatInput.constructor` | components/ChatInput.tsx:21 | The field starts as the empty string. |
| `ChatInputComponent.ChatInput.OnChange` | components/ChatInput.tsx:37 | Editing sets the field to the new value. |
| `ChatInputComponent.ChatInput.HandleSubmit` | components/ChatInput.tsx:23-29 | A message is forwarded exactly when the trimmed field is non-empty and nothing is loading. It is the trimmed text and a fixed point of trimming, and the field is then empty. Otherwise nothing is forwarded and the field is unchanged. At most one message is forwarded per submit. |
| `App.Concat` | App.tsx:40-45 | The running `modelResponseText` starts as `''` and grows by `+= chunk.text` in arrival order, so it is empty before any chunk and never shorter than the newest chunk. Its prefix property is stated by `ConcatGrowsByExtension`. |
| `App.ConcatAppend` | App.tsx:45 | Accumulating the fragments in two batches yields the two partial texts joined together. |
| `App.ConcatGrowsByExtension` | App.tsx:44-48 | The text shown after i fragments is a prefix of the text after any j >= i, and the rest is exactly fragments i..j-1 in order. |
| `App.ReplaceLast` | App.tsx:46-50 | A chunk update keeps the length and every element except the last, and sets the last to the new turn. On an empty list nothing changes. |
| `App.AfterChunks` | App.tsx:44-51 | k chunk updates keep the length, and after at least one update the last turn is a MODEL turn showing the first k fragments joined in order. |
| `App.AfterChunksShowsConcat` | App.tsx:40-50 | After k chunk updates, the history is the earlier turns unchanged plus one MODEL turn with the first k fragments joined. With zero updates it is unchanged, so the placeholder stays. |
| `App.SettledIsStepwise` | App.tsx:34-59 | The closed-form final history equals the user turn, then the placeholder, then one overwrite of the last turn per fragment, then the apology if anything failed. |
| `App.SendKeepsEarlierTurns` | App.tsx:34-35 | A settled send keeps every earlier turn. It appends exactly one USER turn carrying the message, and every later turn is a MODEL turn. |
| `App.SuccessShowsWholeReply` | App.tsx:39-51 | A stream that completes leaves old + USER(message) + MODEL(all fragments joined in order), or the `'...'` placeholder when there were no fragments. |
| `App.FailureAppendsApology` | App.tsx:53-59 | On failure the apology is appended as the last turn. A failure at open gives old + USER + apology. A mid-stream failure gives old + USER + partial text + apology. |
| `App.ShowsTypingIndicator` | App.tsx:79 | The indicator condition `isLoading && newest turn is USER`. It is shown only while loading, and never when the newest turn is a MODEL turn. It requires a non-empty history while loading, because reading the newest turn of an empty list throws. |
| `App.TypingIndicatorWindow` | App.tsx:79 | The indicator shows right after the user turn is appended while loading. It never shows once the placeholder, any chunk or an appended apology is the newest turn, even with the flag still set, and never when not loading. |
| `App.Conversation.constructor` | App.tsx:10-12 | The first render has an empty history, is not loading and has no session. |
| `App.Conversation.Init` | App.tsx:15-23 | After the mount effect there is a session, and the history is exactly one MODEL turn with the welcome text. The loading flag is unchanged (false after construction). |
| `App.Conversation.BeginSend` | App.tsx:32-36 | Without a session, history and flag are unchanged. Otherwise exactly one USER turn with the message is appended after the unchanged earlier turns, the flag is set, and the typing indicator shows. |
| `App.Conversation.OpenStream` | App.tsx:39-42 | After the stream opens, the `'...'` MODEL placeholder is appended, which hides the typing indicator. |
| `App.Conversation.OnChunk` | App.tsx:46-50 | The history becomes `ReplaceLast` of the old history with a MODEL turn carrying the running text. |
| `App.Conversation.StreamChunks` | App.tsx:40-51 | The running text starts empty and each fragment in turn is added to it and written over the last turn. The history ends as one `ReplaceLast` per fragment (`AfterChunks`), and the flag and session are unchanged. |
| `App.Conversation.OnError` | App.tsx:55-59 | The fixed apology MODEL turn is appended. Nothing is overwritten, and the typing indicator is hidden. |
| `App.Conversation.Finish` | App.tsx:60-62 | The flag is cleared, and the history is unchanged. |
| `App.Conversation.HandleSendMessage` | App.tsx:31-63 | Without a session the call is a no-op. Otherwise the history ends as `Settled(old history, message, stream)` on every outcome, and the flag is false. No flag check is made. |
| `App.Submit` | App.tsx:100 | The trimmed field is sent only when it is non-empty and nothing is loading. The conversation then settles as `Settled` and the field is cleared, even when no session exists and the send does nothing. Otherwise the field and the conversation are unchanged. |

`Conversation.Valid()` (`isLoading ==> |history| > 0`) is kept by every step
method. The typing-indicator condition at App.tsx:79 reads the newest turn,
which would throw on an empty history while loading. `ShowsTypingIndicator`
requires exactly that the history is non-empty while loading, and `Valid()`
shows every reachable state meets this.

## Left out

- services/geminiService.ts: creating the SDK chat (model name, system
  instruction) and the module-level `API_KEY` check. The session is only the
  boolean `hasSession`, which `Init` sets. A failure inside `startChat` is not
  modelled.
- The network and the SDK stream: these become the `Stream` parameter. Each
  `chunk.text` is taken to be a string. What the SDK yields for a chunk
  without text is not modelled.
- components/ChatMessage.tsx: `markdownToHtml` is calls into `marked` and
  `DOMPurify`, whose code is not part of this model. Sanitisation cannot be
  stated without it. The rest of that file is markup chosen by role.
- React scheduling and `async`/`await`: the functional state updaters are
  applied in program order, and `HandleSendMessage` runs a send to completion.
  Interleaving a second send with a stream in progress is possible only
  through the step methods. Its effect on "replace last element" is not
  analysed.
- The scroll-to-bottom effect (App.tsx:25-29), `console.error` (App.tsx:54),
  all JSX and styling, and the `disabled` attributes on the input and button
  (components/ChatInput.tsx:39,44): these are display only. `e.preventDefault()`
  is left out as well.
- Strings are sequences of Unicode scalar values, while JavaScript strings are
  UTF-16 code units. All trimmed characters are in the Basic Multilingual
  Plane, so trimming agrees.
- `Conversation.OnChunk`: on an empty history the source assigns to index -1.
  That is an ordinary property and not an array element, so the model leaves
  the history unchanged. This case cannot arise after `OpenStream`.
