# Indexing and chat panels of the GranthX dashboard, in Dafny

The GranthX dashboard is a React client for a knowledge-base product. Its only
decision logic lives in two components:

- **Content Indexing panel** (`src/components/Index.js`). It holds a selected
  file, a URL field, a free-text field, an `indexing` busy flag and a
  client-side list of indexed sources, newest first. The list is fed by two
  asynchronous handlers: file upload, and URL-or-text submission.
- **AI Assistant chat panel** (`src/components/ChatBot.js`). It holds the
  popup's open flag, the transcript of user and assistant messages, the query
  being typed and a loading flag.

The model replaces every HTTP call with an explicit `Outcome`. It is either
`Ok(response)` or `Err(error)`, where `error` is the server's optional `error`
field. Each asynchronous handler is split into two pure transitions:

- a `Begin…` step runs the guard, makes the optimistic update and decides the
  request;
- a `Complete…` step receives the outcome.

The request carries what the handler's closure captured when it began: the
file, or the link and text. Interleavings can therefore be written as plain
sequences of steps, such as clearing the chat while a request is in flight.
Two session modules drive the panels with event sequences. They keep the
rendering rules in force: a press reaches its handler only while its button
is enabled. The chat's input, clear and close controls exist only while the
popup is open.

Modules:

- `Outcomes` (`outcomes.dfy`): `Option`, `Outcome`, and `OrElse`, which models
  JavaScript's `value || fallback` on an optional string.
- `Text` (`text.dfy`): `String.prototype.trim` over ECMAScript's WhiteSpace and
  LineTerminator code points. It also holds an ASCII case-insensitive suffix
  test, the one the regular expression `/(\.pdf|\.csv)$/i` performs.
- `Indexing` (`indexing.dfy`): the panel state, the drop, picker and edit
  handlers, the two-phase upload and URL-or-text handlers, and the label rule.
- `IndexingSession` (`indexing_session.dfy`): event traces with the buttons'
  `disabled` guards.
- `Chat` (`chat.dfy`): the chat state, send (begin and complete), clear,
  toggle and close.
- `ChatSession` (`chat_session.dfy`): event traces with the disabled input and
  send button, and the popup's visibility.

Behaviour of the code worth noting:

- The file record's label is the file name only (`Index.js:42`). It does not
  include the size.
- `handleChat` never looks at `loading`. Only one request is in flight at a
  time because the input and the send button are disabled while loading
  (`ChatBot.js:136`, `ChatBot.js:138`). The model states this in
  `ChatSession`, not in `Chat.BeginSend`.
- A response that is the empty string also becomes "No response"
  (`ChatBot.js:33`), as does an absent one.
- The file picker does not check the extension (`Index.js:136`). Its
  `accept=".pdf,.csv"` is only a hint to the browser's dialog, so `Pick`
  takes any file.

## Model

| member | source | states |
|---|---|---|
| Outcomes.OrElse | src/components/Index.js:49 | `x \|\| fallback` gives the server's text when it is a non-empty string and the fallback otherwise (a missing field and `""` are both falsy); with a non-empty fallback the result is never empty |
| Text.SkipLeading | src/components/ChatBot.js:26 | the leading scan stops at or after its start, and never on whitespace unless at the end |
| Text.SkipTrailing | src/components/ChatBot.js:26 | the trailing scan stops within its range, and never just after whitespace unless at its lower bound |
| Text.SkippedLeadingAreTrimmable | src/components/ChatBot.js:26 | every character the leading scan passes over is whitespace |
| Text.SkippedTrailingAreTrimmable | src/components/ChatBot.js:26 | every character the trailing scan passes over is whitespace |
| Text.SkipLeadingStopsAt | src/components/ChatBot.js:26 | the leading scan stops exactly at the first non-whitespace character (or the end) |
| Text.SkipTrailingStopsAt | src/components/ChatBot.js:26 | the trailing scan stops exactly after the last non-whitespace character (or at its lower bound) |
| Text.TrimIsWindow | src/components/ChatBot.js:26 | `trim`'s result is a slice of its input with only whitespace outside it and non-whitespace at both ends of a non-empty result |
| Text.TrimWindowUnique | src/components/ChatBot.js:26 | every slice with only whitespace outside it and non-whitespace at its ends equals `trim`'s result, so this window description is an independent definition of `trim` |
| Text.TrimEmptyIff | src/components/ChatBot.js:25 | `query.trim()` is empty if and only if every character of the query is whitespace |
| Text.TrimIdempotent | src/components/ChatBot.js:26 | trimming an already trimmed string changes nothing |
| Indexing.AllowedFileNameSpelledOut | src/components/Index.js:88 | a dropped name passes the test exactly when it ends in `.` followed by `pdf` or `csv`, each letter in either case |
| Indexing.Drop | src/components/Index.js:83-93 | a drop with no file changes nothing and raises nothing; an allowed name becomes the selection; any other name leaves the selection and raises the "Only .pdf or .csv files are allowed" warning; no request is ever sent |
| Indexing.Pick | src/components/Index.js:136 | the picker's first file, or nothing, becomes the selection without any name test, and the other fields are untouched |
| Indexing.EditLink | src/components/Index.js:169 | typing in the URL field changes the link and nothing else |
| Indexing.EditText | src/components/Index.js:179 | typing in the text area changes the text and nothing else |
| Indexing.Payload | src/components/Index.js:60 | the posted `input` is the link when there is one and otherwise the text, and it is empty only when both are |
| Indexing.BeginUpload | src/components/Index.js:32-34 | with no file, no request is sent, the panel is unchanged and "No file selected" is raised as a warning; with a file, exactly that file is sent and only `indexing` changes (to true) |
| Indexing.CompleteUpload | src/components/Index.js:35-52 | `indexing` ends false in every case; success puts one file record (the sent file's name, `when`) in front of the old list and clears the selection; failure changes nothing else and shows the server's `error` text when it is a non-empty string, "Upload failed" otherwise |
| Indexing.TextLabel | src/components/Index.js:66 | a text label is at most 31 characters, keeps the text's first min(28, length) characters, is the text itself when it has at most 28, and otherwise is 31 long and ends in "..." |
| Indexing.TextLabelIdempotent | src/components/Index.js:66 | applying the label rule to a label gives the same label |
| Indexing.UrlOrTextRecord | src/components/Index.js:63-70 | the record is a link exactly when the link is non-empty, labelled with the link; otherwise it is a text record labelled by the label rule |
| Indexing.BeginUrlOrText | src/components/Index.js:56-58 | with both fields empty, no request is sent, the panel is unchanged and the "Enter a URL or paste some text" warning is raised; otherwise the captured link and text are sent with a non-empty payload and only `indexing` changes |
| Indexing.CompleteUrlOrText | src/components/Index.js:59-79 | `indexing` ends false in every case and the file selection is untouched; success puts the record in front of the old list and clears both fields; failure changes nothing else and shows the server's `error` text when it is a non-empty string, "Indexing failed" otherwise |
| Indexing.Complete | src/components/Index.js:35-79 | completing either kind of request lowers `indexing`; a success adds exactly one record in front of the old list, and a failure leaves the panel otherwise as it was |
| Indexing.UploadSucceeds | src/components/Index.js:32-53 | a full upload with nothing in between yields the old panel with one file record in front, no selection and `indexing` false |
| Indexing.FailureRestoresPanel | src/components/Index.js:32-80 | from an idle panel, a failed request of either kind returns the panel to exactly its state before the handler began |
| Indexing.UrlOrTextSucceeds | src/components/Index.js:55-80 | a full URL-or-text submission with nothing in between yields the old panel with the new record in front, both fields cleared and `indexing` false |
| Indexing.DropDuringUploadIsDiscarded | src/components/Index.js:41-45 | a file dropped while an upload is in flight is cleared when the upload succeeds, and the new record names the file that was sent |
| Indexing.EditDuringSubmitIsDiscarded | src/components/Index.js:63-72 | text typed while a URL-or-text request is in flight is cleared when it succeeds, and the record is labelled from the text captured at the start |
| IndexingSession.Apply | src/components/Index.js:144-189 | one event adds at most one toast and never rewrites earlier ones; sources change only on a successful outcome for a request in flight, by one record in front; a new request starts only from an enabled button |
| IndexingSession.ApplyKeepsConsistent | src/components/Index.js:144-189 | with the buttons' guards, `indexing` is up exactly while a request is in flight, and no press replaces the request in flight |
| IndexingSession.RunKeepsConsistent | src/components/Index.js:144-189 | the busy flag tracks the single request in flight along any event sequence |
| IndexingSession.RunFromStart | src/components/Index.js:7-11 | in every state reachable from a freshly mounted panel, the busy flag is up exactly while a request is in flight |
| IndexingSession.ApplyKeepsTail | src/components/Index.js:41-70 | one event keeps the old source list as the tail of the new one and adds at most one record, and only on a successful outcome |
| IndexingSession.SourcesOnlyGrowAtFront | src/components/Index.js:41-70 | along any event sequence the old source list remains the tail of the new one, which gains at most one record per successful outcome |
| Chat.BeginSend | src/components/ChatBot.js:24-29 | a query that trims to nothing sends nothing and changes nothing; otherwise the request is exactly the non-empty trimmed query, which is appended as a user message after the old transcript, the input is emptied and `loading` is set |
| Chat.PostedQueryIsTrimmed | src/components/ChatBot.js:26-32 | the posted query has no whitespace at either end |
| Chat.Reply | src/components/ChatBot.js:33-40 | the assistant's text is the response when it is a non-empty string, "No response" when it is missing or empty, and the fixed apology for every failure; it is never empty |
| Chat.CompleteSend | src/components/ChatBot.js:31-43 | the reply is appended after the transcript as it now stands, `loading` ends false, and the query and popup are untouched |
| Chat.ClearChat | src/components/ChatBot.js:46-48 | the transcript becomes empty and query, loading and popup state are unchanged |
| Chat.Toggle | src/components/ChatBot.js:55 | the toggle flips `isOpen` and touches nothing else |
| Chat.Close | src/components/ChatBot.js:80 | the close button leaves the popup closed and touches nothing else |
| Chat.EditQuery | src/components/ChatBot.js:134 | typing changes the query and nothing else |
| Chat.SendsIffNotBlank | src/components/ChatBot.js:25 | a request is sent if and only if the query holds a non-whitespace character |
| Chat.SendExchange | src/components/ChatBot.js:24-44 | a full exchange grows the transcript by exactly two, keeps the old transcript as its prefix, and puts the user's trimmed query before the assistant's reply; afterwards `loading` is false and the query empty |
| Chat.ClearDuringSend | src/components/ChatBot.js:24-48 | a clear between send and reply does not cancel the request, and leaves a transcript holding only the assistant's reply |
| Chat.FailureIsAbsorbed | src/components/ChatBot.js:35-40 | two failures with different server messages give the same state, so no state records the error |
| ChatSession.Submit | src/components/ChatBot.js:24-32 | a blank query leaves the session as it is; otherwise the trimmed query joins the requests in flight |
| ChatSession.Apply | src/components/ChatBot.js:53-143 | a new request only starts from send or Enter in an open, idle popup, at most one per event, and every event except clear keeps the old transcript as a prefix |
| ChatSession.EnterActsLikeSend | src/components/ChatBot.js:135-138 | Enter in the input and the send button have the same effect in every state |
| ChatSession.SubmitFromIdle | src/components/ChatBot.js:136-138 | from an idle session a submission keeps the loading flag tied to the one request in flight, and posts one exactly when the send button is enabled |
| ChatSession.ApplyKeepsConsistent | src/components/ChatBot.js:136-138 | with the disabled input and button, at most one request is in flight, `loading` is up exactly while it is, and the transcript then ends with that request's user message unless a clear emptied it |
| ChatSession.RunKeepsConsistent | src/components/ChatBot.js:24-43 | the single-request discipline holds along any event sequence |
| ChatSession.RunFromStart | src/components/ChatBot.js:10-13 | in every state reachable from a freshly mounted popup at most one request is in flight with `loading` up exactly while it is, and without a clear the transcript alternates user and assistant |
| ChatSession.DoubleSubmitSendsOnce | src/components/ChatBot.js:135-138 | pressing send twice, or send then Enter, before the reply posts exactly one request |
| ChatSession.ResolveKeepsAlternating | src/components/ChatBot.js:33-40 | a reply answers the user message that ends the transcript, keeping user/assistant alternation |
| ChatSession.SubmitKeepsAlternating | src/components/ChatBot.js:26-29 | a user message from an idle session lands on an even position |
| ChatSession.ApplyKeepsAlternating | src/components/ChatBot.js:24-44 | every event other than clear keeps the transcript alternating user, assistant, user, … and odd-length exactly while loading |
| ChatSession.RunWithoutClear | src/components/ChatBot.js:27-40 | along any clear-free event sequence the transcript stays alternating and only grows at the end |
| ChatSession.ClearInFlightLeavesLoneReply | src/components/ChatBot.js:34-48 | send, clear, reply leaves a transcript of the assistant's reply alone, nothing in flight and `loading` false |

## Left out

- HTTP (`axios.post` in `Index.js` and `ChatBot.js`): every call is an
  `Outcome` parameter. The request is modelled as its payload (the file, the
  link or text, or the trimmed query); headers, multipart encoding and the
  `REACT_APP_API_BASE` prefix are not.
- Toasts (`Index.js:19-29`): a toast is a `(kind, message)` value. Its DOM node
  and its show and remove timers are not modelled.
- Timestamps: `new Date().toISOString()` becomes the opaque `when` input of a
  completion step.
- Display formatting: the `fileLabel` size in KB (`Index.js:14-17`),
  `toLocaleDateString` and the DOC/WEB/TXT badges (`Index.js:209-219`). The
  file's size is carried but unused.
- Drag-over and drag-leave CSS toggling, scroll-into-view and markdown
  rendering: pure presentation.
- `console.error` logging on failures.
- Asynchrony: each event is handled atomically, in order. React's update
  batching and the overlap of two indexing requests are not modelled; within one mounted
  panel the buttons' guards exclude that overlap (see Mounting below: a
  remounted panel starts idle while an earlier request may still be pending). The handlers themselves do not check
  `indexing` or `loading`, and the two-phase model keeps that.
- Mounting: the indexing panel loses its state when another dashboard tab is
  shown (`Dashboard.js`). The model keeps one panel for the whole session.
- Outcomes.OrElse: treats the server's `error` and `response` fields as
  strings. Other truthy JSON values (numbers, objects) are not modelled.
- Indexing.TextLabel: counts Unicode scalar values, but JavaScript's `length`
  and `slice` count UTF-16 code units. For text with characters outside the
  Basic Multilingual Plane, the cut therefore falls at a different place.
- Whitespace for `trim`: the set is fixed to the Unicode space separators
  listed in `Text.IsTrimmable`. Space separators added by later Unicode
  versions are not included.
- `src/components/Integration.js`: clipboard copying and timer resets only.
- `src/App.js`, `src/index.js`, `src/components/Dashboard.js` and
  `src/components/Analytics.js` are not part of this model. They hold
  authentication gating, start-up configuration, tab routing and static
  markup.
