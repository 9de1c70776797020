# RIO shop chatbot: conversation-session and HTTP-decision model

The RIO shop assistant answers customer questions by handing each message to a
retrieval-augmented chat engine from an external framework. The repository's own logic
is thin. This Dafny project models that logic and proves properties of it:

- **Short history.** After every exchange the engine's chat log is cut to its last eight
  entries. The user and assistant messages among them are kept, in log order, as bare
  content strings. There are two copies of this projection. The web backend's copy
  (`ChatbotEngine._wrapper_chat_history`) drops every falsy content, so both `None` and
  `""` go. The command-line copy (`RioChatbot.wrapper_chat_history`) drops only `None`.
  Both are loops appending to a list. They are modelled as loops proved equal to one
  specification function, `History.Project`, with a `Policy` argument that tells the two
  copies apart.
- **The engine objects.** The web backend's `ChatbotEngine` and the command line's
  `RioChatbot` are classes. The framework's chat engine and its memory buffer are small
  classes too (module `Session`). One call to the framework is a function (`Backend`) from the chat
  log before the call and the message to a `Turn`: the answer or the exception text,
  plus the chat log the call left behind. Resetting replaces the
  chat engine with a new one over a new, empty memory. The index, the persist directory,
  the top-k of 5 and the system prompt stay as they were.
- **Start-up.** The API key is checked first: an absent or empty `GOOGLE_API_KEY` is
  refused. If building the engine fails for any reason, the web module keeps running
  with no engine.
- **HTTP handlers.** `/`, `/chat` and `/reset` are pure decision functions from
  (engine ready?, request, engine outcome) to a status and a body. `Api.ServeChat` and
  `Api.ServeReset` connect these functions to the engine object. They show that the chat
  log is untouched when a request is refused.
- **Command line.** The read-answer loop sends every stripped input line until a line is
  "exit" or "quit" in any letter case, or input ends. An exception from the engine is not
  caught and ends the loop.

Files: `outcomes.dfy` (Option/Result/Outcome), `text.dfy` (Python's `str.strip()`, ASCII
lower-casing), `history.dfy` (messages, projection, last-eight window), `session.dfy`
(framework objects), `chatbot_engine.dfy`, `rio_bot.dfy`, `api.dfy`.

Behaviour of the code that a reader might expect to be different:
- A missing or `null` `message` field never reaches the `/chat` handler. The request
  model declares `message: str`, so request parsing rejects the body first (status 422).
  The 400 answer covers only empty and whitespace-only strings.
- A failed chat call does not roll back anything. The log after a failed call is
  whatever the framework left (`Turn.log`). The model keeps that log.
- A failed reset leaves the previous chat engine, and its log, in place. The new engine
  is assigned only after it has been built.
- The eight-entry window is cut from the engine's whole chat log, every role included,
  and only then filtered. It counts log entries, not user/assistant messages.

## Model

| member | source | states |
|---|---|---|
| `History.Keeps` | backend/chatbot_engine.py:83 | The filter of the projection loops (also app/rio_bot.py:60): a kept message is a user or assistant message with content. Under the falsy-dropping policy that content is not empty. Under the `None`-dropping policy every user or assistant message with content is kept. |
| `History.Project` | backend/chatbot_engine.py:79-85 | The projection returns at most one text per log message. With the falsy-dropping policy, no returned text is empty. |
| `History.KeptPositions` | backend/chatbot_engine.py:82-83 | The positions of the messages the filter keeps: strictly ascending, each one kept, and no kept message missing. |
| `History.ProjectFollowsKeptPositions` | backend/chatbot_engine.py:82-84 | The k-th returned text is the content of the k-th kept message. The output therefore follows log order, one entry per kept message. |
| `History.ProjectContents` | backend/chatbot_engine.py:83-84 | The returned texts are exactly the contents of the user/assistant messages the policy keeps. Other roles, such as system, never contribute. |
| `History.ProjectAppend` | backend/chatbot_engine.py:82-84 | Projecting a concatenation projects each part: the filter looks at each message on its own. |
| `History.SliceFrom` | backend/chatbot_engine.py:98 | Python's `s[start:]`: always a suffix. For `-8` its length is min(8, len). |
| `History.ShortHistory` | backend/chatbot_engine.py:96-98 | The returned history has at most 8 entries and never more than the log. |
| `History.ShortHistoryContents` | backend/chatbot_engine.py:97-98 | The returned texts are exactly the kept contents among the last eight log entries. |
| `History.ShortHistoryIsSuffix` | backend/chatbot_engine.py:97-98 | The slice is taken before the filter. Projecting the whole log gives the projection of the entries before the window followed by the short history. |
| `History.ShortHistoryOfShortLog` | backend/chatbot_engine.py:98 | A log of 8 or fewer entries is projected whole. |
| `History.SliceBeforeFilter` | backend/chatbot_engine.py:97-98 | A concrete log of 9 entries whose only user message lies just outside the window gives an empty short history. Filtering first would have returned that message. |
| `History.NothingKept` | backend/chatbot_engine.py:83 | A log without user/assistant messages that the policy keeps projects to nothing. |
| `History.OneExchangeShown` | backend/chatbot_engine.py:97-98 | A log of one non-empty question and its non-empty answer shows exactly those two texts, in that order. |
| `History.DropFalsyRemovesEmpty` | app/rio_bot.py:58-62 | The two copies agree except on empty texts. The backend copy returns the command-line copy's result with the empty strings removed. |
| `History.EmptyContentDistinguishesCopies` | app/rio_bot.py:60 | A user message with content `""` is shown by the command-line copy and hidden by the backend copy. |
| `Text.TrimStartIsSuffix` | backend/app.py:60 | What the left half of `strip()` keeps is a suffix of the message, never longer than it. |
| `Text.TrimEndIsPrefix` | backend/app.py:60 | What the right half of `strip()` keeps is a prefix of its input, never longer than it. |
| `Text.TrimStartDropsLongestSpacePrefix` | backend/app.py:60 | The left half of `strip()`: it drops a prefix made only of whitespace, and the rest does not start with whitespace. |
| `Text.TrimEndDropsLongestSpaceSuffix` | backend/app.py:60 | The right half of `strip()`: it drops a suffix made only of whitespace, and the rest does not end with whitespace. |
| `Text.StripEmptyIffAllSpace` | backend/app.py:60 | `message.strip()` is empty if and only if every character is whitespace. |
| `Text.StripIdempotent` | app/rio_bot.py:85 | Stripping an already stripped input line changes nothing. |
| `Session.MemoryBuffer.constructor` | backend/chatbot_engine.py:70 | A new memory buffer has a 1024-token limit and an empty log. |
| `Session.ChatEngine.constructor` | backend/chatbot_engine.py:72-77 | The chat engine records its index, memory, top-k and system prompt. |
| `Session.ChatEngine.Chat` | backend/chatbot_engine.py:94 | The foreign call on the message as given: the memory ends up holding the log the backend left for the previous log and that message, and the answer or the exception is passed on unchanged. |
| `Session.ExchangePassesAnswer` | app/rio_bot.py:70-75 | An exchange succeeds exactly when the backend answered. It then returns the backend's answer unchanged and at most 8 history texts. A failure carries the backend's error text. |
| `BackendEngine.SetupLlm` | backend/chatbot_engine.py:44-55 | Fails, with the GOOGLE_API_KEY message, exactly when the key is absent or empty. Otherwise it configures `models/gemini-2.5-flash` with that key. |
| `BackendEngine.ChatbotEngine.constructor` | backend/chatbot_engine.py:36-42 | A successful construction keeps the persist directory, the LLM settings and the index. Its chat engine is configured (top-k 5, persona prompt, 1024-token memory) over a new, empty memory. |
| `BackendEngine.ChatbotEngine.Create` | backend/chatbot_engine.py:36-48 | Construction fails exactly when the key check or one of the foreign steps fails. A key error wins. On success the engine is new and configured, holds the loaded index and the LLM settings `_setup_llm` built from the checked key (`models/gemini-2.5-flash`), and its log is empty. |
| `BackendEngine.ChatbotEngine.WrapperChatHistory` | backend/chatbot_engine.py:79-85 | The loop returns exactly `Project(DropFalsy, messages)`. |
| `BackendEngine.ChatbotEngine.Chat` | backend/chatbot_engine.py:87-100 | The backend is called on the previous log and the message. The memory then holds the log it left, and the result is its answer plus the falsy-dropping short history of that log, or its exception. |
| `BackendEngine.ChatbotEngine.ResetChat` | backend/chatbot_engine.py:102-104 | If the rebuild succeeds, the engine is new over a new, empty memory. Top-k, prompt and index are unchanged either way. If the rebuild raises, the old engine and its log stay. |
| `RioBot.RioChatbot.constructor` | app/rio_bot.py:33-50 | The bot's memory is new and empty. The chat engine uses that same memory and is configured like the backend's. |
| `RioBot.RioChatbot.WrapperChatHistory` | app/rio_bot.py:52-62 | A static method, so it reads no instance state. The loop returns exactly `Project(DropNone, messages)`. |
| `RioBot.RioChatbot.Converse` | app/rio_bot.py:64-75 | The backend is called on the previous log and the message. The memory then holds the log it left, and the result is its answer unchanged plus the `None`-dropping short history, or its exception. |
| `RioBot.Requests` | app/rio_bot.py:83-92 | The messages the CLI sends when no call fails: never more than there are input lines. |
| `RioBot.RequestsStopAtFirstExit` | app/rio_bot.py:83-92 | The CLI sends the stripped lines in order. It stops exactly at the first line whose stripped, lower-cased form is "exit" or "quit", or at the end of input. |
| `RioBot.RequestsPrefix` | app/rio_bot.py:83-92 | Any run of stripped, non-exit lines sent in order is a prefix of the requests. |
| `RioBot.RequestsUnique` | app/rio_bot.py:83-92 | A run that sent stripped, non-exit lines in order and stopped at an exit line or at the end of input sent exactly the requests. |
| `RioBot.IsExitCommand` | app/rio_bot.py:89 | `user_input.lower() in {"exit", "quit"}`: holds exactly when the input has four characters which, lower-cased, spell "exit" or "quit". |
| `Text.LowerEqualsPerChar` | app/rio_bot.py:89 | The exit test `user_input.lower() == word` holds exactly when the input has the word's length and each character, lower-cased, is the word's character at that position. |
| `RioBot.ReplaysStep` | app/rio_bot.py:92-93 | Sending one more message extends a run by the log the backend leaves, and by the backend's answer when it answers. |
| `RioBot.ExitCommandExamples` | app/rio_bot.py:89-90 | "EXIT", "Quit" and "exit" stop the loop. "exit now", "" and "qui" do not. |
| `RioBot.RunCli` | app/rio_bot.py:79-93 | Without an exception, the lines sent are exactly `Requests(lines)`, each answered. On an exception, a non-empty prefix was sent and the last message has no answer. Each printed answer is the backend's answer to its message, given the log the previous calls left. The crash text is the backend's exception for the last message. The memory ends holding the log the last call left. |
| `Api.Root` | backend/app.py:39-46 | Always 200 with status "ok". `chatbot_ready` is true exactly when the engine exists. |
| `Api.IsBlankMessage` | backend/app.py:60 | `not request.message or not request.message.strip()`: holds exactly when every character of the message is whitespace, the empty message included. |
| `Api.HandleChat` | backend/app.py:49-73 | 503 exactly when the engine is missing, whatever the message, with detail "Chatbot engine is not initialized". 400 exactly when the engine exists and the message is empty or only whitespace, with detail "Message cannot be empty". 500 exactly when the call raises, with detail "Error processing chat: " plus the error. Otherwise 200 with the answer and history passed through. |
| `Api.RejectedChatIgnoresEngine` | backend/app.py:54-64 | On 503 and 400 the engine's outcome makes no difference: the engine is not consulted. |
| `Api.WhitespaceMessageRefused` | backend/app.py:60-64 | A message made only of whitespace gets 400 "Message cannot be empty", whatever the engine would have answered. |
| `Api.HandleReset` | backend/app.py:76-92 | 503 exactly when the engine is missing, with detail "Chatbot engine is not initialized". 500 with "Error resetting chat: " plus the error exactly when the reset raised. Otherwise 200 with status "ok". |
| `Api.Startup` | backend/app.py:20-27 | The engine is built from `PERSIST_DIR`, default "../db": it holds that directory, the index loaded from it and the LLM settings of the checked key. It is absent exactly when construction fails, and the process continues. |
| `Api.ServeChat` | backend/app.py:49-73 | Without an engine, 503. With one, the response is `HandleChat` of the engine's own `chat` result for the request's message as received, unstripped, and the previous log. A 400 leaves the chat log untouched; on every other status, the log is what the backend left. |
| `Api.ServeReset` | backend/app.py:76-92 | The response is `HandleReset` of the engine's reset outcome. After a 200 the chat engine and its memory are new, the log is empty and the engine is still configured. After a 500 the old chat engine and its log stay in place. |

## Left out

- The framework itself: loading the index from storage, embedding, retrieval and top-k
  ranking, and Gemini generation. They are foreign calls. A call is a function of the
  previous log and the message, giving a `Turn`: an answer or exception text, plus the
  chat log the call left.
- The memory buffer's 1024-token eviction. The limit is recorded but never applied: it
  depends on a tokenizer that is not part of this model. The log after a call is
  whatever the backend reports.
- The Gemini client construction that follows the key check, the embedding-model
  setup, the index load and the chat-engine build during construction. Each can raise.
  They are folded into one outcome (`load`), checked after the API key.
- The language-model temperature (0.1) and the text of the persona prompt. The prompt
  is an opaque constant.
- app/settings.py: it only reads environment variables and calls foreign constructors,
  so it is not part of this model. For the same reason the `RioChatbot` constructor takes
  the already loaded index, and its `PERSIST_DIR` default is not modelled.
- FastAPI routing, CORS, request parsing (a missing `message` gets 422 there) and
  uvicorn start-up.
- The framework-global settings: `_setup_llm` and `_setup_embeddings` assign the
  framework's global `Settings.llm` and `Settings.embed_model`. The model keeps the LLM
  settings as a field of the engine (`ChatbotEngine.llm`) instead, and does not model the
  embedding settings. It does not capture that a second engine overwrites the first's
  global settings.
- The start-up messages printed on success or failure of construction (backend/app.py
  lines 24 and 26).
- Console input and output of the command line. Input lines are a sequence, and end of
  input or an interrupt is the end of that sequence. Printing is not modelled.
- Concurrency: the handlers are modelled one request at a time.
- `Text.LowerChar` lowers ASCII letters only. For the "exit"/"quit" test this is exact:
  the only other character that lowers to a single ASCII letter is the Kelvin sign
  (U+212A, to `k`), and neither word contains a `k`. `Text.IsSpace` is the set of
  characters that `str.strip()` removes.
