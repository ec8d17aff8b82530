# SREC chat assistant: a verified model of its core

The system is a chat assistant for Sree Rama Engineering College (SREC). It
has two parts:

- **The Python server** (`app.py`). It keeps a short conversation history
  and builds the message list for the language model. Time questions get a
  system message with the clock. SREC questions get a system message with
  retrieved facts. It streams the model's reply to the browser as
  server-sent-event frames (`data: <json>\n\n`) and records the exchange
  when the reply completes.
- **The browser client** (`frontend/app.js`). It keeps chat sessions in an
  insertion-ordered map, mirrored in local storage when saving is on. It
  reads the streamed reply line by line, commits the reply to the session
  when the `done` frame arrives, and renders the bot's markdown-like text
  as HTML through a pipeline ending in list formatting, then paragraph
  formatting.

The Dafny project models that core. Modules and files:

- `Text` (text.dfy) holds the string primitives both sides rely on:
  - JavaScript `trim`, whose whitespace set and line terminators are
    ECMAScript's;
  - Python `strip` and its `isspace` set;
  - `split` and `join` on a literal separator, and substring search;
  - ASCII lower-casing and decimal rendering.
- `Escape` (escape.dfy) is `escapeHtml`.
- `ListFormat` (lists.dfy) is `formatLists`.
  - It is an imperative method with a loop, proved against a token-level
    specification.
  - The specification is proved balanced: every list opened is closed, and
    lists never nest.
  - It is also proved to keep every line's content, in order.
- `Paragraphs` (paragraphs.dfy) is `formatParagraphs`.
- `Renderer` (renderer.dfy) is `formatBotMessage`. The regular-expression
  stages it does not model are parameters.
- `StreamConsumer` (stream.dfy) is the read loop of `sendStreamingMessage`,
  proved against a reference definition.
- `SessionStore` (store.dfy) is the session map:
  - insertion-ordered keys, `set`, `delete`, `get`;
  - the saved copy and its reload;
  - the updates a send makes.
- `Sessions` (client.dfy) is the class `ChatClient`, whose fields the
  methods update in place. Every method keeps two invariants:
  - the session keys are unique;
  - with saving on, the stored copy equals the sessions.
- `UiHelpers` (helpers.dfy) holds the session age label, the theme cycle,
  the send button, the connectivity test, the export file name and the
  session title.
- `Backend` (backend.dfy) is the server:
  - the class `ChatBot` (history, context messages, the response
    generator);
  - keyword detection, the Q&A documents, the frame encoding and the
    request validation.
- `EndToEnd` (endtoend.dfy) feeds the server's frames to the client. When
  each frame arrives as a chunk of its own and the JSON encoder and parser
  agree:
  - the client commits exactly the reply the server records;
  - after the server's error frame, the client commits nothing.

Behaviour of the code that the model states explicitly:

- The client's decoder does not carry a partial line over to the next
  chunk. A frame split across two chunks is lost (`NoCarryOver`).
- A frame carrying `error` throws inside the per-line `try`, and the line's
  own `catch` swallows it. The error frame therefore ends nothing, and no
  bot turn is added (`SessionGetsServerReply`). A line-buffering decoder
  would keep a partial line for the next chunk, and an error frame could
  end the stream; the code does neither, and the model follows the code.
- When the chat request is rejected or reading its body throws, the
  handler of `sendStreamingMessage` refers to `messageElement`, which is
  declared inside the `try` block and is not in scope in the `catch`. The
  reference throws before the offline notice is shown, so such a send adds
  no bot turn; only a response that is not ok adds the notice. The client
  model follows the code; the corrected behaviour is stated beside it (see
  "Findings").
- The time keyword `ist` matches inside any word, so "List the courses" is
  a time question (`IstInsideWords`, `ListIsTimeQuestion`).
- `formatLists` leaves a code block's body unprotected. Once the code
  header's closing `</div>` line has cleared the code-block flag, numbered
  and bulleted lines inside the code are turned into list items
  (`CodeBodyUnprotected`).
- `createNewSession` with an id already in use replaces that session with
  an empty one (`CreateNewSession`).

## Model

| member | source | states |
|---|---|---|
| Text.Trim | frontend/app.js:342 | JavaScript `trim`: the result neither starts nor ends with ECMAScript whitespace or a line terminator, and is no longer than the input |
| Text.Strip | app.py:262 | Python `strip`: the result neither starts nor ends with a character `isspace` accepts |
| Escape.EscapeChar | frontend/app.js:884-890 | the five special characters become entities beginning with `&`; every other character is kept as it is |
| Escape.EscapeHtml | frontend/app.js:883-892 | the result holds no `<`, `>`, `"` or `'` and is at least as long as the input |
| Escape.UnescapeEscape | frontend/app.js:883-892 | escaping loses nothing: decoding the five entities gives back the original text |
| Escape.EscapeClean | frontend/app.js:883-892 | text without special characters is unchanged |
| Escape.EscapeAmpersands | frontend/app.js:883-892 | every `&` of the output begins one of the five entities |
| Escape.EscapeAppend | frontend/app.js:883-892 | escaping works character by character: it distributes over concatenation |
| ListFormat.UntilTerminator | frontend/app.js:799 | the part a regular-expression `.+` can match: the longest prefix without a line terminator |
| ListFormat.ItemAfterMarker | frontend/app.js:799 | `\s+(.+)` after a marker matches exactly when whitespace follows it; the item text is then non-empty and shorter than the rest |
| ListFormat.NumberedItem | frontend/app.js:799 | a numbered item is found only on a line starting with a digit, and its text is non-empty |
| ListFormat.BulletItem | frontend/app.js:814 | a bullet item is found only on a line starting with `•`, `*` or `-`, and its text is non-empty |
| ListFormat.Classify | frontend/app.js:793-838 | each line yields one content token; it is passed through raw exactly when the code-block flag is set |
| ListFormat.LineTokensAt | frontend/app.js:782-795 | line `i` yields its trimmed text, classified under the code-block flag as it stands after that line |
| ListFormat.CodeBodyUnprotected | frontend/app.js:786-790 | after a line that closes a `<div>` and opens no code block, later lines that do neither are classified as ordinary text, not passed through |
| ListFormat.PushItem | frontend/app.js:799-825 | a list item closes the other kind of list, opens its own kind if needed, then adds the `<li>` line |
| ListFormat.PushPlain | frontend/app.js:827-839 | an ordinary line closes any open list, then is added unchanged |
| ListFormat.CloseLists | frontend/app.js:841-843 | at the end, any list still open is closed |
| ListFormat.FormatLine | frontend/app.js:782-839 | one pass of the loop: the code-block flag, the list flags and the output advance as the token specification says |
| ListFormat.FormatLists | frontend/app.js:775-846 | the loop computes exactly the token specification of the lines, rendered and joined by line breaks |
| ListFormat.ListsBalanced | frontend/app.js:775-846 | the output's list tags are balanced: every `<ol>` or `<ul>` opened is closed, and lists never nest |
| ListFormat.ListContent | frontend/app.js:775-846 | with the list tags removed, the output is one content token per input line, in order |
| Paragraphs.BreakLines | frontend/app.js:877 | the result holds no line break |
| Paragraphs.BreakLinesSplit | frontend/app.js:877 | replacing each `\n` with `<br>` is splitting at `\n` and joining with `<br>` |
| Paragraphs.ParagraphCases | frontend/app.js:867-880 | a chunk vanishes exactly when it is all whitespace; a chunk that starts with `<` or contains `<li>` or `<h` is only trimmed; any other chunk becomes one paragraph |
| Paragraphs.FormatParagraphs | frontend/app.js:863-881 | definition: split at blank lines, format each chunk, join; its contract is in `FormatParagraphsSingle`, `FormatParagraphsCons` and `FormatParagraphsTidy` |
| Paragraphs.FormatParagraphsSingle | frontend/app.js:863-881 | text without a blank line is formatted as one chunk |
| Paragraphs.FormatParagraphsCons | frontend/app.js:863-881 | text before its first blank line is formatted as a chunk, followed by the formatting of the rest |
| Paragraphs.FormatParagraphsTidy | frontend/app.js:863-881 | the output holds no blank line and neither starts nor ends with a line break |
| Renderer.FormatBotMessage | frontend/app.js:606-637 | an empty reply renders as nothing; whatever the regular-expression stages do, the output holds no blank line and neither starts nor ends with a line break |
| Renderer.PlainPipeline | frontend/app.js:606-637 | for any stages, when none of them finds anything to rewrite in the text it receives, rendering is paragraph formatting of the list formatting of the trimmed text |
| Renderer.BlankMessage | frontend/app.js:606-637 | for any stages that leave the empty text empty, as regular-expression replacements do, a reply made only of whitespace renders as nothing |
| Renderer.FormattedListsEmpty | frontend/app.js:775-846 | (example) list formatting of the empty text is empty |
| StreamConsumer.ReadStream | frontend/app.js:408-437 | the loop's accumulated text and its outcome are the fold of the frame rule over every line of every chunk, stopping at the first `done` |
| StreamConsumer.StreamReference | frontend/app.js:408-437 | reference definition: the read state is the concatenated content of the accepted lines up to the first `done`, with `done` seen exactly when some accepted line carries it |
| StreamConsumer.AllLinesFold | frontend/app.js:412-415 | reading chunk by chunk equals reading the lines of all chunks in order |
| StreamConsumer.StreamStateRest | frontend/app.js:428-431 | nothing read after `done` changes the state |
| StreamConsumer.NoCarryOver | frontend/app.js:412-416 | a whole frame in one chunk commits its content; the same frame cut across two chunks is lost |
| SessionStore.Find | frontend/app.js:306 | finds the first entry with the key, or reports that none has it |
| SessionStore.LookupMissing | frontend/app.js:306 | a key is absent exactly when no entry carries it, exactly when `get` yields nothing |
| SessionStore.KeysIn | frontend/app.js:306 | `has` is membership in the key list |
| SessionStore.SetEntryKeys | frontend/app.js:291 | `set` keeps the keys unique; a new key goes to the end, and an existing key keeps its place |
| SessionStore.SetEntryLookup | frontend/app.js:291 | after `set`, the key maps to the new session and every other key is unchanged |
| SessionStore.LookupAt | frontend/app.js:312 | with unique keys, each entry's key finds that entry's session |
| SessionStore.RemoveKey | frontend/app.js:1215 | `delete` keeps exactly the entries with other keys |
| SessionStore.RemoveKeyUnique | frontend/app.js:1215 | `delete` keeps the keys unique |
| SessionStore.RemoveKeyLookup | frontend/app.js:1215 | after `delete`, the key is gone and every other key is unchanged |
| SessionStore.RemoveKeySize | frontend/app.js:1215 | `delete` removes one entry when the key is present and changes nothing otherwise |
| SessionStore.RemoveKeyFirst | frontend/app.js:1217-1219 | after deleting from two or more sessions, the first key left is the second one if the first was deleted, else the first one |
| SessionStore.LoadAllUnique | frontend/app.js:1296-1302 | loading saved sessions keeps the keys unique |
| SessionStore.SaveLoadRoundTrip | frontend/app.js:1289-1318 | loading what was saved into an empty map gives back the same sessions in the same order |
| SessionStore.Initialized | frontend/app.js:271-276 | after start-up there is always at least one session |
| SessionStore.AppendTurnsEffect | frontend/app.js:987-998 | adding turns changes only the current session, which gains them at the end; with no current session, nothing changes |
| SessionStore.TitleRuleEffect | frontend/app.js:352-357 | the title rule changes only the title of the current session, and only when it holds just one turn and is still called `New Chat` |
| SessionStore.SendEffect | frontend/app.js:342-374 | a send changes only the current session: its user turn, possibly its title, then the bot's turns |
| Sessions.ChatClient.constructor | frontend/app.js:21-27 | no sessions, none current, not typing, connected |
| Sessions.ChatClient.SaveSessionsToStorage | frontend/app.js:1309-1318 | with saving on, the stored copy becomes the sessions; with saving off, nothing is written |
| Sessions.ChatClient.LoadSessionsFromStorage | frontend/app.js:1289-1307 | the saved sessions are `set` into the map one by one when saving is on and the stored copy parses; otherwise nothing changes |
| Sessions.ChatClient.CreateSession | frontend/app.js:283-294 | an empty session with the given id and title is `set` into the map and saved |
| Sessions.ChatClient.CreateNewSession | frontend/app.js:296-303 | a `New Chat` session keyed by the clock is created and made current |
| Sessions.ChatClient.SwitchToSession | frontend/app.js:305-328 | an unknown id changes nothing; a known id becomes current and the sessions are saved |
| Sessions.ChatClient.InitializeSessions | frontend/app.js:271-281 | after start-up there is at least one session, the first one is current, and the stored copy matches the sessions |
| Sessions.ChatClient.AddMessageToSession | frontend/app.js:987-998 | the turn is appended to the current session only, and saved; with no current session, nothing changes |
| Sessions.ChatClient.DeleteSession | frontend/app.js:1209-1225 | the last session cannot be deleted; otherwise the session goes, and if it was current the first remaining one becomes current |
| Sessions.ChatClient.UpdateSessionTitle | frontend/app.js:1241-1253 | only the named session's title changes, and the sessions are saved when it exists |
| Sessions.ChatClient.CheckConnection | frontend/app.js:1340-1355 | connected exactly when the status request answered `ok`, with `status` not `error` and `connected` not `false` |
| Sessions.ChatClient.ShowOfflineMessage | frontend/app.js:376-381 | the offline notice becomes a bot turn of the current session |
| Sessions.BotTurns | frontend/app.js:383-445 | a streaming send adds at most one turn, a bot turn, and adds one exactly when the response is not ok or a `done` frame commits the text |
| Sessions.ConnectedAfter | frontend/app.js:393-440 | the connection flag stays set exactly when it was set and the request did not fail |
| Sessions.FailedSendTurns | frontend/app.js:383-445 | as written, a failed send leaves the current session with the user's turn and, only for a response that is not ok, the offline notice: a rejected request or a failed read adds no bot turn |
| Sessions.IntendedSendTurns | frontend/app.js:438-444 | with the handler corrected, every failed send leaves the user's turn followed by exactly one offline notice, and other sends add the same turns as the code |
| Sessions.ChatClient.SendStreamingMessage | frontend/app.js:383-445 | every failure clears the connection flag; a response that is not ok adds the offline notice; a rejected request or a failed read adds no bot turn and throws to the caller; a `done` frame adds the streamed text as a bot turn; a stream ending without `done` adds nothing |
| Sessions.ChatClient.RecordUserMessage | frontend/app.js:348-357 | the message becomes a user turn of the current session, then the title rule applies |
| Sessions.ChatClient.SendAccepted | frontend/app.js:346-368 | the sessions end as a send prescribes, not typing, with the connection flag the probe and the reply leave; it throws exactly when the streaming send does |
| Sessions.ChatClient.HandleSendMessage | frontend/app.js:342-374 | blank input or a reply in progress changes nothing; otherwise the trimmed message is sent, and a throw of the send is caught with the state as the send left it |
| UiHelpers.SessionAge | frontend/app.js:1185-1193 | the age bucket counts the whole minutes, hours or days elapsed; under a minute, or in the future, it is `now` |
| UiHelpers.FormatSessionTime | frontend/app.js:1185-1193 | definition: the label of `SessionAge`'s bucket; its contract is in `SessionAge` and `FormatSessionTimeReadBack` |
| UiHelpers.FormatSessionTimeReadBack | frontend/app.js:1185-1193 | the label names its bucket: reading it back gives the bucket |
| UiHelpers.IndexOf | frontend/app.js:1010 | the first position holding the value, or -1 when none does |
| UiHelpers.NextTheme | frontend/app.js:1008-1015 | the next theme is always one of `dark`, `light`, `auto` |
| UiHelpers.ThemeTable | frontend/app.js:1008-1015 | `dark` goes to `light`, `light` to `auto`, and `auto` to `dark` |
| UiHelpers.ThemeCycle | frontend/app.js:1008-1015 | an unknown theme goes to `dark`; a known one changes, and three clicks bring it back |
| UiHelpers.ProbeConnected | frontend/app.js:1340-1355 | definition: the status request answered, `ok`, `status` not `error`, `connected` not `false`; used by the contract of `CheckConnection` |
| UiHelpers.SendButtonDisabled | frontend/app.js:1128-1133 | the button is disabled exactly when the send handler would refuse, or when offline; an enabled button means the handler goes ahead |
| UiHelpers.ExportFilename | frontend/app.js:1393 | one file character per title character (ASCII letters lowered, digits kept, anything else `_`), then `_chat.json` |
| UiHelpers.ExportStemIdempotent | frontend/app.js:1393 | sanitizing a sanitized name changes nothing |
| UiHelpers.GenerateSessionTitle | frontend/app.js:1234-1239 | definition: the first four space-separated pieces, then `...`; its contract is `TitleShape` |
| UiHelpers.TitleShape | frontend/app.js:1234-1239 | a message of at most four space-separated pieces is its own title; a longer one is cut just before its fourth space, then `...` is added |
| Backend.Kept | app.py:183-185 | only the most recent 20 entries (twice `max_history`) are kept, as a suffix of the full history |
| Backend.KeptEndsWith | app.py:172-185 | after adding, the new entry is the last one, the length is between 1 and 20, and nothing is dropped below the cap |
| Backend.ChatBot.constructor | app.py:166-170 | the history starts empty |
| Backend.ChatBot.AddToHistory | app.py:172-185 | the history becomes the kept suffix of the old history plus the new entry |
| Backend.AnyKeyword | app.py:125 | true exactly when some keyword occurs in the text |
| Backend.KeywordHit | app.py:125 | any occurrence of any keyword is a hit |
| Backend.LowerLower | app.py:124 | lower-casing twice is lower-casing once |
| Backend.IsTimeQuestion | app.py:191-193 | definition: a time keyword occurs in the lower-cased message; its contracts are `KeywordTestsIgnoreCase` and `IstInsideWords` |
| Backend.IsSrecQuestion | app.py:122-125 | definition: an SREC keyword occurs in the lower-cased query; its contract is `KeywordTestsIgnoreCase` |
| Backend.KeywordTestsIgnoreCase | app.py:122-125 | both keyword tests ignore case; an SREC question is one whose lower-cased text contains an SREC keyword |
| Backend.IstInsideWords | app.py:192-193 | any message containing `ist` in any case, even inside a word, is a time question |
| Backend.ListIsTimeQuestion | app.py:192-193 | (example) "List" is a time question |
| Backend.ChatBot.GetContextMessages | app.py:187-227 | a time question gets the clock message and itself only; an SREC question with retrieved context gets that context, the history and itself; any other message gets the history and itself |
| Backend.DocLayout | app.py:65 | (layout) the document is `Q: `, the question, `\nA: `, the answer |
| Backend.DocTextRoundTrip | app.py:65 | a question without a line break is read back with its answer from the document |
| Backend.MakeDocsFromQa | app.py:59-69 | one document and one metadata record per pair, in order, the record numbered by position |
| Backend.FirstDone | app.py:289-291 | the position of the first chunk marked `done`, or the end |
| Backend.ContentRepliesShape | app.py:289-296 | every content frame carries non-empty content and is not marked `done` |
| Backend.Replies | app.py:269-312 | definition: the content frames, then the completion frame or the error frame; its contracts are `ContentRepliesShape` and `RepliesShape` |
| Backend.RepliesShape | app.py:289-312 | content frames come first; the last frame alone is marked `done`, and it is the empty completion frame on success and the error frame on failure |
| Backend.FrameShape | app.py:296 | (layout) every frame is `data: `, the JSON text, then a blank line |
| Backend.ValidateChat | app.py:258-265 | definition of the checks, for object, string, list, number and unparsable bodies; its contract is `ValidateChatCases` |
| Backend.ValidateChatCases | app.py:258-325 | only an object whose message is a string can be accepted; the answer is 500 `Internal server error` exactly when reading the request raises; otherwise a rejection is 400; no body or no `message` gives `Message is required`; a string message is accepted exactly when it has a non-whitespace character, else `Message cannot be empty`; an accepted message is non-empty and has no surrounding whitespace |
| Backend.ChatBot.GenerateResponse | app.py:269-312 | the frames are the content frames then `done`, or the error frame; on success the history gains the user turn then the whole reply; on failure it is unchanged |
| EndToEnd.FrameLines | app.py:296 | a frame splits at line breaks into its data line and two empty lines |
| EndToEnd.FrameStep | frontend/app.js:415-431 | one frame read as a chunk has the effect of its JSON object |
| EndToEnd.WireView | frontend/app.js:408-437 | frames sent one per chunk are read as their objects in order |
| EndToEnd.ContentView | app.py:289-296 | the content frames leave the client holding the whole reply text, not yet committed |
| EndToEnd.ReplyReachesClient | app.py:289-312 | the client ends holding the text the server streamed, committed exactly when the reply completes |
| EndToEnd.SessionGetsServerReply | frontend/app.js:419-431 | on success the client adds a bot turn with the text the server records; after the error frame it adds no bot turn, not even the offline notice |

## Left out

- The DOM and the UI are not modelled: rendering, scrolling, toasts, the typing indicator, focus and the sidebar. The session list keeps only what the DOM does not.
- Dates are not modelled. `createdAt`, `updatedAt`, message timestamps and `Date.now()` become a `now` parameter where an id needs them.
- `formatSessionTime` receives `now - date` in milliseconds as its argument.
- The server's clock (`get_ist_time`, `get_ist_date`, the time-helper module) is a `Stamp` parameter.
- JSON encoding and parsing are parameters: the client's `JSON.parse` is `parse`, the server's `json.dumps` is `dumps`. `EndToEnd.WireAgrees` states what the end-to-end lemmas assume of them.
- The local-storage text is modelled as a parsed value or `Corrupt`. The JSON object's key order is taken to be insertion order; JavaScript puts integer-like keys first.
- `TextDecoder` is not modelled: chunks are already strings, so a multi-byte character split across chunks is not.
- Strings are sequences of code points, not UTF-16 units. The export file name therefore differs from the browser's only for characters outside the Basic Multilingual Plane, which the browser turns into two underscores.
- Python's `lower()` is modelled on ASCII letters only.
- The regular-expression stages of `formatBotMessage` are parameters of `Renderer.FormatBotMessage`: `formatCodeBlocks`, the headings, bold text, `formatLinks` and inline code. Their own rewriting is not modelled.
- The language model is a parameter: its reply is a sequence of chunks, and `fails` stands for an exception raised while streaming. The Ollama client, FAISS, `embed_texts`, `build_faiss`, `query_rag` and data ingestion are not modelled. Retrieval is the optional context string `rag`.
- The order of the two requests is fixed. The connection probe is started without being awaited, and its answer is taken to arrive before the reply is handled.
- `isTyping` is cleared once the response has arrived, before its body is read, as `hideTypingIndicator` does.
- Backend.ValidateChat: a list body is reduced to whether one of its items is the string `message`, and a body not sent as JSON is taken as unparsable, which recent Flask versions raise on (older ones return `None`, a missing body).
- The non-streaming path (`sendSimpleMessage`, `/chat/simple`) is not modelled.
- The other routes (`/health`, `/clear`, `/status`) are not modelled.
- Settings, drafts, search, `clearAllData` and the keyboard shortcuts are not modelled.
- The server's test script is not modelled.
- Concurrency is not modelled: server requests sharing the `ChatBot` history, and overlapping sends in the browser.
- Sessions.ChatClient.HandleSendMessage: states the stored copy only through the invariant "with saving on, the stored copy equals the sessions" and "unchanged when saving is off", not write by write.
- Sessions.ChatClient.SendStreamingMessage: states the stored copy only through the same invariant and "unchanged when saving is off".
- Sessions.ChatClient.RecordUserMessage: states the stored copy only through the same invariant and "unchanged when saving is off".
- Sessions.ChatClient.SendAccepted: states the stored copy only through the same invariant and "unchanged when saving is off".

## Findings

| source | as written | input that shows it | evidently intended | confidence | as-written member | corrected member |
|---|---|---|---|---|---|---|
| frontend/app.js:403-443 | `messageElement` is declared with `let` inside the `try` block, so the `catch` cannot see it; `if (messageElement)` throws a ReferenceError before `showOfflineMessage()` | the chat request is rejected (the server is down), or `reader.read()` rejects mid-stream | the `catch` removes the half-built bot bubble and shows the offline notice, which becomes a bot turn | not executed | Sessions.FailedSendTurns | Sessions.IntendedSendTurns |
