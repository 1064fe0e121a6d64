# AI Factory bot: session state, tool dispatch and reply chunking

This project models the core of the AI Factory Telegram bot (`index.js`).
The bot has a small per-user state machine:

- A user picks a tool in the web-app menu. The `web_app_data` handler records in
  `userStates` which tool the user's next text is for, and asks for that text.
- The user then sends text. The `text` handler takes that entry and deletes it.
  It picks the tool's fixed system prompt, asks the chat-completion backend and
  relays the answer. An answer longer than 4000 UTF-16 code units is split into
  4000-unit pieces. A "run another query" message follows the answer.

Modules:

- `Wrappers`: `Option` and map lookup.
- `Chunking`: strings as sequences of UTF-16 code units. Also the split that
  `text.match(/.{1,4000}/gs)` performs and its laws: concatenation round-trip,
  piece bounds, ceil(L/4000) pieces, the slice each piece is, and uniqueness.
- `Menu`: the four tool kinds and the parsed web-app payload. Also the
  dispatch chain and the prompt `switch`.
- `Session`: the `userStates` object as a class with `SetPending` and
  `TakePending`.
- `Turns`: each handler run as the ordered list of its effects. An effect is a
  store write, a store delete, a reply, or the backend request. `Apply` gives
  the store those effects leave; `Sent` gives the replies, in order.
- `Handlers`: a `Bot` class whose two methods perform those effects step by
  step, with a `for` loop over the pieces. Its invariant is that the store
  always equals `Apply(map[], trace)`.

The completion backend is the parameter `complete: Request -> BackendResult`.
`BackendResult` is `Ok(text)` or `Err`. `JSON.parse` is the input `Payload`.
It is one of three things: a parse failure, the value `null`, or the `action`
and `tool` properties of any other JSON value, each present only when it holds
a string. A number, string, boolean or array document has neither property, so
it becomes `Fields(None, None)`. Reading `.action` of `null` throws, so `null`
takes the catch path just like a parse failure. Message texts and prompt texts are opaque
constructors: distinct constructors stand for distinct texts.

Three behaviours of index.js worth noting:

- A payload that does not parse gets the generic error reply (index.js:81-84),
  not the "choose from menu" reply.
- For business idea, business model and cases, the entry is written after the
  two replies. Only market analysis writes it first (index.js:51-77).
- When the backend fails, the acknowledgment has already been sent
  (index.js:101), so the user gets it and then one failure message.

## Model

| member | source | states |
|---|---|---|
| `Chunking.ChunksConcat` | index.js:151-155 | joining the pieces sent in order gives back the response exactly |
| `Chunking.ChunksShape` | index.js:152 | every piece is non-empty and at most 4000 code units, and every piece but the last is exactly 4000 |
| `Chunking.ChunksCount` | index.js:152 | a text of length L gives ceil(L/4000) pieces |
| `Chunking.ChunkAt` | index.js:152 | piece i is the slice from 4000·i up to 4000·(i+1) or the end of the text |
| `Chunking.ChunksUnique` | index.js:152 | any split with that shape that joins back to the text is the split the regex produces |
| `Chunking.ResponseMessagesLaw` | index.js:151-158 | a response of at most 4000 units is sent as exactly one message equal to it; a longer one as at least two pieces with the law above; either way the messages join back to the response |
| `Chunking.SurrogatePairCanBeSplit` | index.js:152 | without the `u` flag the split can end one message in the first half of a surrogate pair and start the next with the second half |
| `Menu.DispatchMenuPayload` | index.js:49-77 | each tool's menu payload (`openGPT` + `marketAnalysisBtn`, `businessIdea`, `businessModel`, `cases`) selects that tool |
| `Menu.DispatchChosenNamesAction` | index.js:49-77 | only a parsed object whose action names the tool selects it, and market analysis also needs tool `marketAnalysisBtn` |
| `Menu.DispatchIgnoresTool` | index.js:57-77 | business idea, business model and cases are selected whatever `tool` holds |
| `Menu.OpenGptNeedsMarketTool` | index.js:49-79 | `openGPT` with any other tool, or none, is not in the menu |
| `Menu.DispatchFailsOnlyOnParse` | index.js:45-84 | exactly a parse failure or `null` reaches the catch branch |
| `Menu.ToolPromptsDistinct` | index.js:106-118 | the four tools have four distinct prompts, none of them the default consultant prompt |
| `Menu.PromptDefault` | index.js:106-121 | a `waitingFor` value gets the consultant prompt exactly when it is none of the four stored strings |
| `Session.SessionStore.constructor` | index.js:30 | the store starts empty |
| `Session.SessionStore.SetPending` | index.js:51-53 | the user's entry becomes the new tool, replacing any old one; other users' entries are unchanged |
| `Session.SessionStore.TakePending` | index.js:90-99 | returns the user's entry or None, and the entry is gone afterwards; with no entry the store is unchanged |
| `Turns.ApplyIsLastPending` | index.js:51-99 | after any sequence of handler effects, a user's pending tool is the one of their last write, or none if a delete came last |
| `Turns.WebAppSelects` | index.js:49-77 | a selected tool sets the entry, replacing any old one, with other users untouched; exactly two replies go out, label then instruction; the write comes first for market analysis and third for the others |
| `Turns.WebAppRejects` | index.js:78-84 | an unknown payload sends only "choose from menu", and a parse failure only the generic error; neither changes the store |
| `Turns.TextIgnoredWithoutEntry` | index.js:89-93 | text from a user with no entry has no effects: no reply, no request, no store change |
| `Turns.TextConsumesEntry` | index.js:96-101 | with an entry, the first effect deletes it before any reply, nothing later touches the store, and only that user's entry is gone |
| `Turns.SecondTextIgnored` | index.js:90-99 | a second text right after the first is ignored |
| `Turns.TextAsksWithToolPrompt` | index.js:104-137 | the backend is asked exactly once, as the third effect, with the pending tool's prompt and the user's text; with no entry it is not asked |
| `Turns.TextReplies` | index.js:101-171 | on success: acknowledgment, the response messages in order, then the restart offer; on failure: acknowledgment and one failure message; the restart button appears exactly on success, and only on the last reply |
| `Turns.AfterBackendUntouched` | index.js:148-171 | nothing after the backend call touches the store |
| `Turns.SendAllFacts` | index.js:153-155 | the piece loop sends every piece once, in order, and only sends |
| `Turns.BusinessIdeaScenario` | index.js:57-171 | select business idea, then text, then a 9000-unit answer: label and instruction, the entry set, the idea prompt sent with the text, then acknowledgment, three pieces in order, the restart offer, and no entry left behind |
| `Handlers.Bot.constructor` | index.js:27-30 | a bot with an empty store and no effects yet |
| `Handlers.Bot.OnWebAppData` | index.js:44-85 | performs exactly the effects of `WebAppTurn` in their order, and keeps the store equal to what the trace implies |
| `Handlers.Bot.OnText` | index.js:88-173 | performs exactly the effects of `TextTurn` in their order, sending the pieces in a loop, and keeps the store equal to what the trace implies |

## Left out

- The Express app, CORS, the `/health` route and `app.listen` (index.js:7-9, 196-204): HTTP plumbing with no logic.
- The environment checks, `process.exit`, the bot launch and the signal handlers (index.js:12-24, 206-219): process bootstrap.
- The `/start` and `inline_query` handlers (index.js:33-41, 176-193): fixed replies with fixed markup.
- The axios request to the completion API (index.js:124-148): it is a network call. The model has the abstract `Request` (system prompt, user text) and `BackendResult`. It leaves out the model name, `max_tokens`, headers and response-shape parsing. A response without text content counts as `Err`.
- `JSON.parse` itself: the model takes its outcome as the `Payload` input. It assumes `ctx.webAppData.data` (index.js:47) is the raw JSON string the web app sent. The Telegraf version in use is not part of this model. If its `webAppData` getter wraps the data in an object instead, `JSON.parse` always throws, and every payload is the model's `ParseFailure` case.
- Message, label and prompt texts, inline keyboards and web-app URLs: each is an opaque constructor. Only the restart offer carries a button (`HasRestartButton`).
- Replies are assumed to succeed. In the source, a `ctx.reply` that throws inside a `try` goes to its `catch`. The model leaves out that path and other transport errors. One example: Telegram rejects an empty message. So an empty backend answer would really produce the failure message, not an empty reply.
- The text handler's input is a text that reaches it. `/start` is answered by the start handler (index.js:33-41), which is registered first and does not pass the update on. So `/start` neither consumes nor replaces a pending entry, and the next plain text still uses the old tool. The model has no start handler.
- Replies go to the chat the update came from. The model addresses each one by the sender's id, which is the same thing in a private chat.
- `userStates` is a JavaScript object, so its keys are strings. The model uses integer user ids; numeric ids convert to string keys one-to-one.
- Concurrent turns for the same user (the `await` points at index.js:101, 124 and 154): every handler runs to completion. So the model does not show that a menu selection can land while a text turn waits on the backend.
- `console.log` and `console.error` logging.
