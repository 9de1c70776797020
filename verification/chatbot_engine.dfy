/** The web backend's conversation engine: it checks the API key, loads the
    index, builds a chat engine with a fresh memory, answers one message at a
    time and can be reset by rebuilding its chat engine. */
module BackendEngine {
  import opened Outcomes
  import opened History
  import opened Session

  /** The generation model the engine asks for. */
  const GeminiModel: string := "models/gemini-2.5-flash"

  /** Text of the error raised when no usable API key is set. */
  const MissingApiKey: string := "GOOGLE_API_KEY not found in environment variables"

  /** The language-model settings installed by `_setup_llm`. */
  datatype LlmConfig = Gemini(apiKey: string, model: string)

  /** `_setup_llm`: an absent or empty `GOOGLE_API_KEY` is refused, any other
      key configures the Gemini model with that key. */
  function SetupLlm(apiKey: Option<string>): (r: Result<LlmConfig, string>)
    ensures r.Failure? <==> apiKey == None || apiKey == Some("")
    ensures r.Failure? ==> r.error == MissingApiKey
    ensures r.Success? ==> r.value.apiKey == apiKey.value && r.value.model == GeminiModel
  {
    match apiKey
    case Some(key) => if key == "" then Failure(MissingApiKey) else Success(Gemini(key, GeminiModel))
    case None => Failure(MissingApiKey)
  }

  class ChatbotEngine {
    const persistDir: string
    const llm: LlmConfig
    const index: Index
    var chatEngine: ChatEngine

    ghost predicate Valid()
      reads this
    {
      Configured(chatEngine, index)
    }

    /** The state a successful `__init__` leaves: the configuration, the loaded
        index, and a chat engine over a new, empty memory. */
    constructor (persistDir: string, llm: LlmConfig, index: Index)
      ensures Valid() && fresh(chatEngine) && fresh(chatEngine.memory)
      ensures this.persistDir == persistDir && this.llm == llm && this.index == index
      ensures chatEngine.ChatHistory() == []
    {
      this.persistDir := persistDir;
      this.llm := llm;
      this.index := index;
      var memory := new MemoryBuffer(MemoryTokenLimit);
      chatEngine := new ChatEngine(index, memory, SimilarityTopK, RioSystemPrompt);
    }

    /** `ChatbotEngine(persist_dir)`: the API key is checked first; `load` is
        the outcome of the foreign steps that follow it (the Gemini client
        construction, embedding setup, index load, chat-engine construction). Construction fails exactly when
        one of them does. */
    static method Create(persistDir: string, apiKey: Option<string>, load: Result<Index, string>)
      returns (r: Result<ChatbotEngine, string>)
      ensures r.Failure? <==> SetupLlm(apiKey).Failure? || load.Failure?
      ensures SetupLlm(apiKey).Failure? ==> r == Failure(MissingApiKey)
      ensures SetupLlm(apiKey).Success? && load.Failure? ==> r == Failure(load.error)
      ensures r.Success? ==>
        fresh(r.value) && fresh(r.value.chatEngine) && fresh(r.value.chatEngine.memory)
        && r.value.Valid() && r.value.persistDir == persistDir && r.value.index == load.value
        && r.value.llm == SetupLlm(apiKey).value
        && r.value.chatEngine.ChatHistory() == []
    {
      var llm := SetupLlm(apiKey);
      if llm.Failure? {
        return Failure(llm.error);
      }
      if load.Failure? {
        return Failure(load.error);
      }
      var engine := new ChatbotEngine(persistDir, llm.value, load.value);
      r := Success(engine);
    }

    /** `_wrapper_chat_history`: the contents of the user and assistant
        messages whose content is truthy, in order. */
    method WrapperChatHistory(messages: seq<Message>) returns (history: seq<string>)
      ensures history == Project(DropFalsy, messages)
    {
      history := [];
      var i := 0;
      while i < |messages|
        invariant 0 <= i <= |messages|
        invariant history == Project(DropFalsy, messages[..i])
      {
        var m := messages[i];
        assert messages[..i + 1][..i] == messages[..i];
        if (m.role == User || m.role == Assistant) && m.content.Some? && m.content.value != "" {
          history := history + [m.content.value];
        }
        i := i + 1;
      }
      assert messages[..i] == messages;
    }

    /** `chat`: one backend call, then the short history of the log it left.
        An exception from the backend propagates. */
    method Chat(message: string, backend: Backend) returns (r: Result<(string, seq<string>), string>)
      requires Valid()
      modifies chatEngine.memory
      ensures Valid()
      ensures chatEngine.ChatHistory() == backend(old(chatEngine.ChatHistory()), message).log
      ensures r == Exchange(DropFalsy, backend(old(chatEngine.ChatHistory()), message))
    {
      var response := chatEngine.Chat(message, backend);
      if response.Failure? {
        return Failure(response.error);
      }
      var fullHistory := chatEngine.ChatHistory();
      var shortHistory := WrapperChatHistory(SliceFrom(fullHistory, -HistoryWindow));
      r := Success((response.value, shortHistory));
    }

    /** `reset_chat`, which reruns `_setup_chat_engine`: a new memory buffer and
        a new chat engine over the same index with the same retrieval breadth
        and prompt. `build` is the outcome of the foreign engine construction;
        when it raises, the assignment never happens and the old engine, with
        its log, stays in place. */
    method ResetChat(build: Outcome<string>) returns (r: Outcome<string>)
      requires Valid()
      modifies this
      ensures Valid() && r == build
      ensures chatEngine.topK == old(chatEngine.topK)
      ensures chatEngine.systemPrompt == old(chatEngine.systemPrompt)
      ensures chatEngine.index == old(chatEngine.index)
      ensures build.Pass? ==> fresh(chatEngine) && fresh(chatEngine.memory) && chatEngine.ChatHistory() == []
      ensures build.Fail? ==> chatEngine == old(chatEngine) && chatEngine.ChatHistory() == old(chatEngine.ChatHistory())
    {
      var memory := new MemoryBuffer(MemoryTokenLimit);
      if build.Fail? {
        return build;
      }
      chatEngine := new ChatEngine(index, memory, SimilarityTopK, RioSystemPrompt);
      r := Pass;
    }
  }
}
