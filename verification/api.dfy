/** The HTTP layer of the web backend: the process-wide engine built once at
    start-up (or absent if that failed), and the three handlers as decisions
    from the engine's readiness, the request and the engine's outcome to a
    response. */
module Api {
  import opened Outcomes
  import opened Text
  import opened History
  import opened Session
  import opened BackendEngine

  /** The JSON bodies the handlers return with status 200. */
  datatype Body =
    | Health(status: string, message: string, chatbotReady: bool)
    | ChatAnswer(answer: string, history: seq<string>)
    | ResetDone(status: string, message: string)

  /** A handler's result: a 200 body, or an `HTTPException` with its status
      code and detail. */
  datatype Response = Ok(body: Body) | HttpError(code: nat, detail: string) {
    function Status(): nat {
      if Ok? then 200 else code
    }
  }

  const NotInitialized: string := "Chatbot engine is not initialized"
  const EmptyMessage: string := "Message cannot be empty"
  const ChatErrorPrefix: string := "Error processing chat: "
  const ResetErrorPrefix: string := "Error resetting chat: "
  const DefaultPersistDir: string := "../db"

  /** `GET /`: always 200 with status "ok"; `chatbot_ready` tells whether the
      engine exists. */
  function Root(ready: bool): (r: Response)
    ensures r.Ok? && r.body.Health? && r.body.status == "ok"
    ensures r.body.chatbotReady <==> ready
  {
    Ok(Health("ok", "RIO Shop Chatbot API is running", ready))
  }

  /** `not request.message or not request.message.strip()`. */
  predicate IsBlankMessage(message: string)
    ensures IsBlankMessage(message) <==> forall i :: 0 <= i < |message| ==> IsSpace(message[i])
  {
    StripEmptyIffAllSpace(message);
    message == "" || Strip(message) == ""
  }

  /** The checks `POST /chat` makes before calling the engine: readiness
      first, then the message. `None` means the engine is called. */
  function ChatGate(ready: bool, message: string): Option<Response> {
    if !ready then Some(HttpError(503, NotInitialized))
    else if IsBlankMessage(message) then Some(HttpError(400, EmptyMessage))
    else None
  }

  /** The response built from what `chatbot.chat` returned or raised. */
  function ChatOutcome(outcome: Result<(string, seq<string>), string>): Response {
    match outcome
    case Success(reply) => Ok(ChatAnswer(reply.0, reply.1))
    case Failure(error) => HttpError(500, ChatErrorPrefix + error)
  }

  /** `POST /chat`, where `outcome` is what `chatbot.chat(message)` would
      return or raise. 503 exactly when the engine is missing, whatever the
      message; 400 exactly when it exists and the message is empty or only
      whitespace; 500 exactly when the call raises, with the prefixed error
      text; otherwise 200 with the answer and the history as returned. */
  function HandleChat(ready: bool, message: string, outcome: Result<(string, seq<string>), string>): (r: Response)
    ensures r.Status() == 503 <==> !ready
    ensures r.Status() == 503 ==> r.detail == NotInitialized
    ensures r.Status() == 400 <==> ready && IsBlankMessage(message)
    ensures r.Status() == 400 ==> r.detail == EmptyMessage
    ensures r.Status() == 500 <==> ready && !IsBlankMessage(message) && outcome.Failure?
    ensures r.Status() == 500 ==> r.detail == ChatErrorPrefix + outcome.error
    ensures r.Ok? <==> ready && !IsBlankMessage(message) && outcome.Success?
    ensures r.Ok? ==> r.body == ChatAnswer(outcome.value.0, outcome.value.1)
  {
    match ChatGate(ready, message)
    case Some(rejection) => rejection
    case None => ChatOutcome(outcome)
  }

  /** On 503 and 400 the engine's outcome plays no part: the engine is not
      called. */
  lemma RejectedChatIgnoresEngine(ready: bool, message: string, o1: Result<(string, seq<string>), string>,
                                  o2: Result<(string, seq<string>), string>)
    requires !ready || IsBlankMessage(message)
    ensures HandleChat(ready, message, o1) == HandleChat(ready, message, o2)
  {
  }

  /** A message of spaces, tabs and newlines is refused with 400 just like the
      empty one. */
  lemma WhitespaceMessageRefused(message: string, outcome: Result<(string, seq<string>), string>)
    requires forall i :: 0 <= i < |message| ==> IsSpace(message[i])
    ensures HandleChat(true, message, outcome) == HttpError(400, EmptyMessage)
  {
    StripEmptyIffAllSpace(message);
  }

  /** `POST /reset`, where `outcome` is what `chatbot.reset_chat()` did: 503
      exactly when the engine is missing, 500 with the prefixed error text
      exactly when the reset raised, otherwise 200 with status "ok". */
  function HandleReset(ready: bool, outcome: Outcome<string>): (r: Response)
    ensures r.Status() == 503 <==> !ready
    ensures r.Status() == 503 ==> r.detail == NotInitialized
    ensures r.Status() == 500 <==> ready && outcome.Fail?
    ensures r.Status() == 500 ==> r.detail == ResetErrorPrefix + outcome.error
    ensures r.Ok? <==> ready && outcome.Pass?
    ensures r.Ok? ==> r.body.ResetDone? && r.body.status == "ok"
  {
    if !ready then HttpError(503, NotInitialized)
    else match outcome
      case Fail(error) => HttpError(500, ResetErrorPrefix + error)
      case Pass => Ok(ResetDone("ok", "Chat history reset successfully"))
  }

  /** Module start-up: the engine is built from `PERSIST_DIR` (default
      "../db"); any exception leaves it absent instead of stopping the
      process. `load` gives the outcome of the foreign steps for a directory. */
  method Startup(persistDirEnv: Option<string>, apiKey: Option<string>, load: string -> Result<Index, string>)
    returns (chatbot: ChatbotEngine?)
    ensures var dir := if persistDirEnv.Some? then persistDirEnv.value else DefaultPersistDir;
      (chatbot == null <==> SetupLlm(apiKey).Failure? || load(dir).Failure?)
      && (chatbot != null ==> fresh(chatbot) && chatbot.Valid() && chatbot.persistDir == dir
                              && chatbot.index == load(dir).value && chatbot.llm == SetupLlm(apiKey).value
                              && chatbot.chatEngine.ChatHistory() == [])
  {
    var dir := if persistDirEnv.Some? then persistDirEnv.value else DefaultPersistDir;
    var created := ChatbotEngine.Create(dir, apiKey, load(dir));
    chatbot := if created.Success? then created.value else null;
  }

  /** `POST /chat` against the engine itself: the response is `HandleChat` of
      what the engine's `chat` gives for the request's message, passed to the
      backend as received (not stripped), and the log is touched only when the
      engine is called. */
  method ServeChat(chatbot: ChatbotEngine?, message: string, backend: Backend) returns (r: Response)
    requires chatbot != null ==> chatbot.Valid()
    modifies if chatbot != null then {chatbot.chatEngine.memory} else {}
    ensures chatbot == null ==> r == HttpError(503, NotInitialized)
    ensures chatbot != null ==>
      r == HandleChat(true, message, Exchange(DropFalsy, backend(old(chatbot.chatEngine.ChatHistory()), message)))
    ensures chatbot != null && r.Status() != 400 ==>
      chatbot.chatEngine.ChatHistory() == backend(old(chatbot.chatEngine.ChatHistory()), message).log
    ensures chatbot != null && r.Status() == 400 ==>
      chatbot.chatEngine.ChatHistory() == old(chatbot.chatEngine.ChatHistory())
  {
    var gate := ChatGate(chatbot != null, message);
    if gate.Some? {
      return gate.value;
    }
    var outcome := chatbot.Chat(message, backend);
    r := ChatOutcome(outcome);
  }

  /** `POST /reset` against the engine itself. */
  method ServeReset(chatbot: ChatbotEngine?, build: Outcome<string>) returns (r: Response)
    requires chatbot != null ==> chatbot.Valid()
    modifies chatbot
    ensures chatbot != null ==> chatbot.Valid()
    ensures r == HandleReset(chatbot != null, build)
    ensures chatbot != null && r.Ok? ==>
      fresh(chatbot.chatEngine) && fresh(chatbot.chatEngine.memory) && chatbot.chatEngine.ChatHistory() == []
    ensures chatbot != null && r.Status() == 500 ==>
      chatbot.chatEngine == old(chatbot.chatEngine)
      && chatbot.chatEngine.ChatHistory() == old(chatbot.chatEngine.ChatHistory())
  {
    if chatbot == null {
      return HandleReset(false, build);
    }
    var outcome := chatbot.ResetChat(build);
    r := HandleReset(true, outcome);
  }
}
