/** The framework objects the two chatbots wire together, seen only through
    what the chatbots use of them: a memory buffer holding the chat log, a
    chat engine bound to an index, a memory, a retrieval breadth and a system
    prompt, and one call to that engine (`Turn`), whose answer or exception
    and whose effect on the log come from outside the model. */
module Session {
  import opened Outcomes
  import opened History

  /** A loaded vector index; its contents are outside the model. */
  datatype Index = Index(id: nat)

  /** Number of documents retrieved per question. */
  const SimilarityTopK: nat := 5

  /** Token budget given to every memory buffer. */
  const MemoryTokenLimit: nat := 1024

  /** The persona instruction given to every chat engine; its wording is not
      part of the model. */
  const RioSystemPrompt: string := "RIO BOT persona instruction"

  /** What one call of the foreign chat engine did: the answer text or the
      text of the exception it raised, and the chat log it left behind. */
  datatype Turn = Turn(answer: Result<string, string>, log: seq<Message>)

  /** The framework's retrieval and generation: what one call does, given the
      chat log before the call and the message as it is passed in. */
  type Backend = (seq<Message>, string) -> Turn

  /** A conversation memory: the chat log, with a token budget that only the
      framework interprets. */
  class MemoryBuffer {
    const tokenLimit: nat
    var messages: seq<Message>

    constructor (tokenLimit: nat)
      ensures this.tokenLimit == tokenLimit && messages == []
    {
      this.tokenLimit := tokenLimit;
      messages := [];
    }
  }

  /** A retrieval-augmented chat engine in "context" mode. */
  class ChatEngine {
    const index: Index
    const memory: MemoryBuffer
    const topK: nat
    const systemPrompt: string

    constructor (index: Index, memory: MemoryBuffer, topK: nat, systemPrompt: string)
      ensures this.index == index && this.memory == memory
      ensures this.topK == topK && this.systemPrompt == systemPrompt
    {
      this.index := index;
      this.memory := memory;
      this.topK := topK;
      this.systemPrompt := systemPrompt;
    }

    /** The engine's `chat_history`: everything its memory holds. */
    function ChatHistory(): seq<Message>
      reads memory
    {
      memory.messages
    }

    /** One `chat` call: the memory ends up holding the log the backend left,
        and the answer or the exception is passed on unchanged. */
    method Chat(message: string, backend: Backend) returns (answer: Result<string, string>)
      modifies memory
      ensures memory.messages == backend(old(memory.messages), message).log
      ensures answer == backend(old(memory.messages), message).answer
    {
      var turn := backend(memory.messages, message);
      memory.messages := turn.log;
      answer := turn.answer;
    }
  }

  /** An engine built the way both chatbots build theirs: over `index`, with a
      memory of 1024 tokens, five retrieved documents and the persona prompt. */
  ghost predicate Configured(engine: ChatEngine, index: Index) {
    engine.index == index && engine.memory.tokenLimit == MemoryTokenLimit
    && engine.topK == SimilarityTopK && engine.systemPrompt == RioSystemPrompt
  }

  /** What `chat`/`converse` returns for one backend call: the answer and the
      short history of the log the call left, or the exception raised. */
  function Exchange(p: Policy, turn: Turn): Result<(string, seq<string>), string> {
    match turn.answer
    case Success(answer) => Success((answer, ShortHistory(p, turn.log)))
    case Failure(error) => Failure(error)
  }

  /** Whatever the backend does, an exchange that returns gives back the
      backend's answer untouched and at most eight history texts. */
  lemma ExchangePassesAnswer(p: Policy, turn: Turn)
    ensures Exchange(p, turn).Success? <==> turn.answer.Success?
    ensures Exchange(p, turn).Success? ==>
      Exchange(p, turn).value.0 == turn.answer.value && |Exchange(p, turn).value.1| <= HistoryWindow
    ensures Exchange(p, turn).Failure? ==> Exchange(p, turn).error == turn.answer.error
  {
  }
}
