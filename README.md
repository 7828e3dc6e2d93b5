# Chat session manager and voice-call simulator

This project models the two stateful parts of the dashboard pages in Dafny and proves
properties about them.

- **The chatbot page** (`src/app/dashboard/chatbot/page.tsx`). The session manager owns the
  message list, the server-issued `chatId`, the `sessionId`, the compose box, the attached
  file's name and the `isLoading` flag. The localStorage entry `"chatStorage"` is a field of
  the same object. `Chat.ChatSession` has one method per handler or effect. Sending is split
  into `BeginSend` and `CompleteSend`: `BeginSend` does everything before the network call,
  and `CompleteSend` does everything after it. This makes the state while a reply is awaited
  observable. `HandleSendMessage` runs both steps in sequence.
  - The network call becomes an `Outcome`: either the parsed reply or a failure.
  - `Date.now()` readings and freshly generated session ids become parameters.
  - The persisted form is a JSON value tree (`ChatStore`). Decoding follows the load
    effect's throw points: `JSON.parse` fails, or `.messages.map` is called on something
    that is not an array.
- **The voice-call page** (`src/app/dashboard/page.tsx`). `VoiceCall.CallSimulator` holds
  `callStatus`, `callDuration`, the transcript and `timerRef`. Each timer callback is a
  method that may run once its timer is scheduled. The object counts the callbacks still due
  and the intervals still running. `FormatTime` is the `MM:SS` formatter.
- **`Decimal`** models `Number.prototype.toString()` and `padStart(2, "0")` for non-negative
  integers up to 2^53 - 1 (`Number.MAX_SAFE_INTEGER`), where `toString` writes the exact decimal digits. Both pages use them: message ids from `Date.now()`, and the call clock.

Three behaviours of the code are worth noting, because a reader might expect otherwise:

- The save effect runs while a reply is awaited, so the pending placeholder is written to
  storage. A reload at that moment restores a pending message with no request in flight
  (`Chat.ReloadWhileAwaiting`). After that, the invariant "at most one pending message"
  (`ChatSession.AtMostOnePending`) no longer holds.
- `clearChat` removes the stored entry. The save effect then immediately writes the fresh
  welcome conversation back (`Clear` followed by `Persist`).
- `query` does not look at the HTTP status. Any response whose body parses to an object is
  treated as a reply. A thrown error yields the apology, and so does a body of `null`,
  because reading `result.chatId` then throws; both are the model's `Failed` outcome. A body
  that parses to a number, string or boolean does not throw: it is returned as the reply with
  every field undefined. The model does not cover that case (see "Left out").

The model also shows two properties of the call page as written:

- Hanging up while the call is still connecting does not cancel the connection timeout.
  The call later turns active, and its interval is still running after the reset to idle
  (`VoiceCall.HangUpWhileConnecting`).
- A new call started from that state stores a second interval over the first, so the
  duration keeps counting after hang-up (`VoiceCall.LeakedInterval`).

## Model

| member | source | states |
|---|---|---|
| `Decimal.NatToString` | src/app/dashboard/page.tsx:58-60 | `n.toString()` is a non-empty string of digits. It has one digit exactly when n < 10, and at most two exactly when n < 100 |
| `Decimal.NatToStringValue` | src/app/dashboard/page.tsx:58-60 | reading the digits of `n.toString()` back gives n |
| `Decimal.NatToStringInjective` | src/app/dashboard/chatbot/page.tsx:192 | distinct clock readings give distinct `toString()` ids |
| `Decimal.ZeroPad2` | src/app/dashboard/page.tsx:60 | `padStart(2, "0")` yields length max(2, \|s\|), keeps s as its suffix, adds only zeros in front and keeps the denoted number |
| `ChatStore.EncodeMessage` | src/app/dashboard/chatbot/page.tsx:110-116 | a stored message is an object with the keys id, content, role and timestamp, plus `isPending` exactly when the message is pending |
| `ChatStore.Encode` | src/app/dashboard/chatbot/page.tsx:110-116 | the saved entry is an object with exactly the keys messages, sessionId and chatId; messages is an array with one element per message, and chatId is null exactly when no chat thread is held |
| `ChatStore.DecodeMessage` | src/app/dashboard/chatbot/page.tsx:68-71 | only an object decodes. A decoded message has exactly the stored id, content, role name and timestamp, and is pending exactly when the stored `isPending` is true |
| `ChatStore.DecodeMessages` | src/app/dashboard/chatbot/page.tsx:68-71 | the array decodes exactly when every stored element decodes, and then each element gives the message in the same position, one per element |
| `ChatStore.Decode` | src/app/dashboard/chatbot/page.tsx:64-79 | a parsed value never reads as absent. It restores only when it is an object whose `messages` field is an array, with one message per element; otherwise it is a parse error. A restore holds exactly the decoded stored messages, the stored `sessionId` string and the stored chatId |
| `ChatStore.Load` | src/app/dashboard/chatbot/page.tsx:61-83 | the outcome is absent exactly when nothing is stored. Unparseable text is a parse error, and a restore needs parseable text |
| `ChatStore.DecodeEncodeMessage` | src/app/dashboard/chatbot/page.tsx:65-71 | a stored message reads back as the same id, content, role, timestamp and pending flag |
| `ChatStore.DecodeEncodeMessages` | src/app/dashboard/chatbot/page.tsx:65-71 | a stored message array reads back as the same list |
| `ChatStore.SaveLoadRoundTrip` | src/app/dashboard/chatbot/page.tsx:109-118 | loading what the save effect wrote restores the same messages, sessionId and chatId |
| `Chat.TrimStart` | src/app/dashboard/chatbot/page.tsx:189 | the result is a suffix of the text that does not start with whitespace, and everything dropped is whitespace |
| `Chat.TrimEnd` | src/app/dashboard/chatbot/page.tsx:189 | the result is a prefix of the text that does not end with whitespace, and everything dropped is whitespace |
| `Chat.Trim` | src/app/dashboard/chatbot/page.tsx:189 | `input.trim()` is no longer than the input and neither starts nor ends with whitespace |
| `Chat.TrimIsMiddle` | src/app/dashboard/chatbot/page.tsx:189 | `input.trim()` is the contiguous slice of the input after its leading whitespace, and what lies before and after that slice is whitespace |
| `Chat.BlankIffAllWhitespace` | src/app/dashboard/chatbot/page.tsx:189 | `!input.trim()` holds exactly when every character of the input is whitespace (`IsBlank`, the test the send methods use) |
| `Chat.Compose` | src/app/dashboard/chatbot/page.tsx:191-201 | the user message text starts with the input; it is exactly the input when no file is attached, and otherwise the input followed by `\n[Attached file: name]` |
| `Chat.PendingId` | src/app/dashboard/chatbot/page.tsx:207 | the placeholder id ends in `-pending`, and what precedes the suffix is a string of digits that reads back as the clock reading |
| `Chat.RequestFor` | src/app/dashboard/chatbot/page.tsx:138-144 | the request carries the question and the current sessionId. It carries a chatId exactly when the held one is non-null and non-empty, and then it is that one |
| `Chat.QueryResult` | src/app/dashboard/chatbot/page.tsx:157-180 | a reply is passed through unchanged. A failure yields the fixed apology, the request's chatId (or ""), an empty message id and the request's sessionId |
| `Chat.ReplyId` | src/app/dashboard/chatbot/page.tsx:237 | the reply keeps a non-empty `chatMessageId`. Otherwise its id is a non-empty string of digits that reads back as the clock reading |
| `Chat.Without` | src/app/dashboard/chatbot/page.tsx:234-235 | filtering keeps only messages of the list, none with the removed id, and never lengthens it |
| `Chat.PendingIdIsNotADateId` | src/app/dashboard/chatbot/page.tsx:192-207 | a placeholder id ("digits-pending") never equals a clock-reading id, so the filter never removes the user message |
| `Chat.WithoutAbsent` | src/app/dashboard/chatbot/page.tsx:234-235 | filtering an id no message carries leaves the list unchanged |
| `Chat.WithoutAppend` | src/app/dashboard/chatbot/page.tsx:234-235 | filtering distributes over concatenation |
| `Chat.PendingCountAppend` | src/app/dashboard/chatbot/page.tsx:204-217 | pending messages of a concatenation add up |
| `Chat.WithoutClearsPending` | src/app/dashboard/chatbot/page.tsx:233-242 | when every pending message carries the placeholder id, none is pending after the filter |
| `Chat.WelcomeNotPending` | src/app/dashboard/chatbot/page.tsx:93-100 | the welcome conversation has no pending message |
| `Chat.TurnReplacesPlaceholder` | src/app/dashboard/chatbot/page.tsx:204-242 | when no earlier message has the placeholder's id, the filter and append turn `prev + [user, placeholder]` into `prev + [user, reply]`: earlier messages are untouched and keep their order |
| `Chat.TurnPendingCount` | src/app/dashboard/chatbot/page.tsx:204-217 | appending the user message and the placeholder adds exactly one pending message |
| `Chat.ChatSession.constructor` | src/app/dashboard/chatbot/page.tsx:49-55 | at mount the list is empty, the input is empty, no file is attached, nothing is loading, chatId is null, sessionId is "", and storage holds what was there |
| `Chat.ChatSession.InitializeChat` | src/app/dashboard/chatbot/page.tsx:86-101 | the list becomes exactly one welcome message and sessionId the fresh id |
| `Chat.ChatSession.Initialize` | src/app/dashboard/chatbot/page.tsx:60-83 | a restorable entry sets messages, chatId and sessionId verbatim. An absent or corrupt entry gives the welcome message and the fresh sessionId, with chatId unchanged. Without a stored placeholder there is at most one pending message afterwards |
| `Chat.ChatSession.Persist` | src/app/dashboard/chatbot/page.tsx:109-118 | a non-empty list is saved, and loading the entry then restores this state. An empty list leaves storage unchanged |
| `Chat.ChatSession.EditInput` | src/app/dashboard/chatbot/page.tsx:373 | the compose box holds the typed text |
| `Chat.ChatSession.AttachFile` | src/app/dashboard/chatbot/page.tsx:249-254 | the chosen file's name becomes the attachment |
| `Chat.ChatSession.BeginSend` | src/app/dashboard/chatbot/page.tsx:186-230 | blank input with no file changes nothing and issues no request. Otherwise the list becomes the old one plus the user message (the input, with `\n[Attached file: name]` when a file is attached) and a pending assistant placeholder with empty content. Input and file are cleared, isLoading is raised, and the request carries the current chatId and sessionId. Exactly one message is added to the pending count, and the one-pending invariant is kept when sending was enabled |
| `Chat.ChatSession.CompleteSend` | src/app/dashboard/chatbot/page.tsx:157-242 | messages with the placeholder id are removed and one non-pending assistant reply is appended. A reply's non-empty chatId and sessionId are adopted; a failure adopts neither. isLoading is lowered, and no message is pending when only the placeholder was |
| `Chat.ChatSession.HandleSendMessage` | src/app/dashboard/chatbot/page.tsx:186-243 | a blank message without a file leaves the list, input, attachment, loading flag, chatId and sessionId unchanged. Otherwise input and attachment are cleared, isLoading ends false, and a reply's non-empty chatId and sessionId are adopted (a failure adopts neither). When the placeholder id is new, the list gains exactly the user message and the reply, and the pending count is unchanged |
| `Chat.ChatSession.Clear` | src/app/dashboard/chatbot/page.tsx:261-265 | storage is removed, the list is one welcome message, sessionId is the fresh id, chatId is null, and nothing is pending |
| `Chat.SaveThenReload` | src/app/dashboard/chatbot/page.tsx:60-118 | a saved non-empty conversation is restored exactly on the next load. An empty one is not saved, so an empty store still gives the welcome conversation |
| `Chat.ReloadWhileAwaiting` | src/app/dashboard/chatbot/page.tsx:109-118 | reloading while a reply is awaited restores one pending message with nothing loading |
| `Chat.FirstReplyExample` | src/app/dashboard/chatbot/page.tsx:186-243 | a first question answered with chatId "c1", sessionId "s1" and message id "m1" ends with that reply, non-pending, as the last message. Both identifiers are adopted and no placeholder remains |
| `Chat.ReplyThenAsk` | src/app/dashboard/chatbot/page.tsx:159-167 | after a reply with a non-empty chatId or sessionId, the next question is sent with that value |
| `VoiceCall.FormatTimeFields` | src/app/dashboard/page.tsx:57-61 | `formatTime(s)` is a minutes field, ":" and a two-digit seconds field. They read back as s / 60 and s % 60 (< 60), with mins * 60 + secs = s. The text has length 5 exactly when s < 6000 |
| `VoiceCall.FormatTimeWidth` | src/app/dashboard/page.tsx:57-61 | `formatTime(s)` is five characters long exactly when s < 6000 |
| `VoiceCall.CallSimulator.constructor` | src/app/dashboard/page.tsx:13-20 | idle, duration 0, empty transcript, no timer and nothing scheduled |
| `VoiceCall.CallSimulator.StartCall` | src/app/dashboard/page.tsx:25-29 | status becomes connecting, duration 0, and one connection timeout is scheduled |
| `VoiceCall.CallSimulator.ConnectionEstablished` | src/app/dashboard/page.tsx:30-41 | status becomes active, exactly one AI greeting is appended, and a new interval is held. Starting from no timer it is the only one |
| `VoiceCall.CallSimulator.Tick` | src/app/dashboard/page.tsx:38-40 | a tick, possible only while an interval runs, adds exactly 1 to the duration |
| `VoiceCall.CallSimulator.EndCall` | src/app/dashboard/page.tsx:44-53 | status becomes ended, the held interval is cleared, and the reset is scheduled. With a single timer, no interval runs afterwards, so the duration no longer changes |
| `VoiceCall.CallSimulator.ResetElapsed` | src/app/dashboard/page.tsx:51-53 | status becomes idle |
| `VoiceCall.CallSimulator.SimulateUserSpeaking` | src/app/dashboard/page.tsx:64-68 | when active, exactly the user question is appended and the answer is scheduled. In any other status the transcript is unchanged |
| `VoiceCall.CallSimulator.AnswerElapsed` | src/app/dashboard/page.tsx:69-77 | exactly the AI answer is appended |
| `VoiceCall.CallSimulator.PressMainButton` | src/app/dashboard/page.tsx:237-245 | from idle or ended it starts a call; otherwise it ends it |
| `VoiceCall.OrdinaryCall` | src/app/dashboard/page.tsx:25-54 | answer, n ticks, hang up: the duration is n, no interval runs, the transcript is the greeting alone, and the reset gives idle |
| `VoiceCall.HangUpWhileConnecting` | src/app/dashboard/page.tsx:25-54 | hanging up while connecting: the connection timeout still makes the call active, and after the reset to idle one interval still runs |
| `VoiceCall.LeakedInterval` | src/app/dashboard/page.tsx:25-54 | in that state a new call leaves one interval running after hang-up, and a tick still advances the duration |

Every `CallSimulator` method other than the constructor also keeps `timerRef`'s interval
among the running ones (`Valid`). Every method that appends to the transcript appends
exactly the entries named and nothing else, so the transcript only grows.

## Left out

- The JSON text layer (`JSON.stringify`/`JSON.parse` of text): a stored entry is either unparseable text or a JSON value tree. An empty stored string counts as unparseable. The source skips parsing for it, and the outcome is the same.
- Timestamps are millisecond counts. The ISO text that `Date` serialises to, and its re-parsing, are not modelled; that text round-trips milliseconds exactly.
- ChatStore.Decode: treats a stored element that is not a well-formed message, a `sessionId` that is not a string, or a `chatId` that is neither a string nor null as a corrupt entry. The source keeps such ill-typed values without throwing. The source also keeps extra fields of stored message objects; the model drops them.
- A stored `isPending: false` and an absent `isPending` are the same value here.
- The `fetch` call to the prediction endpoint. Its result is an `Outcome` parameter. A reply body with missing fields is not modelled, and neither is a body that parses to a number, string or boolean, which `query` returns as a reply whose fields are all undefined.
- `generateId` and `Date.now()`: ids and clock readings are parameters. The model therefore cannot promise that the sessionId after a clear differs from the one before. One clock reading serves both a message's id and its timestamp.
- React's rendering: each handler's updates apply at once. The save effect is `Persist`, which the page runs after every change to messages, chatId or sessionId. `CompleteSend` acts on whatever state it finds, including a state cleared while the reply was awaited: the clear button stays enabled.
- `formatTimestamp` (locale-dependent), `scrollToBottom`, the file-picker click and all rendering.
- The canvas audio visualiser, the resize handler, low-performance detection, transcript auto-scroll, and the mute and audio toggles.
- The unmount cleanup of `timerRef` (src/app/dashboard/page.tsx:146-153): component unmounting is not modelled.
- Timer delays (1 s, 2 s, 3 s): due callbacks may fire in any order. This admits some orders that real timing excludes.
- Numbers above 2^53 - 1: there `Number.prototype.toString()` writes the shortest digits that round-trip, padded with zeros, and from 10^21 it uses exponent notation. Clock readings and call durations are taken to stay below that bound.
- JavaScript strings are UTF-16. Here a string is a sequence of Unicode scalar values; the whitespace set of `trim` is listed in full.
- src/app/page.tsx, src/app/dashboard/layout.tsx and src/app/dashboard/voiceChat/page.tsx: these contain markup and script injection only.
