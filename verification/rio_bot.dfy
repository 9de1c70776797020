/** The command-line chatbot: the same retrieval chat engine, a projection
    that keeps empty texts, and a read-answer loop that ends on end of input
    or on "exit"/"quit". */
module RioBot {
  import opened Outcomes
  import opened Text
  import opened History
  import opened Session

  class RioChatbot {
    const index: Index
    const memory: MemoryBuffer
    const chatEngine: ChatEngine

    /** The chat engine works on the bot's own memory and is configured as the
        constructor configures it. */
    ghost predicate Valid() {
      chatEngine.memory == memory && Configured(chatEngine, index)
    }

    /** `RioChatbot()` once the index has been loaded: a new, empty memory
        shared with a new chat engine. */
    constructor (index: Index)
      ensures Valid() && fresh(memory) && fresh(chatEngine)
      ensures this.index == index && memory.messages == []
    {
      this.index := index;
      var m := new MemoryBuffer(MemoryTokenLimit);
      memory := m;
      chatEngine := new ChatEngine(index, m, SimilarityTopK, RioSystemPrompt);
    }

    /** `wrapper_chat_history`, a static method: the contents of the user and
        assistant messages whose content is not `None`, in order; empty texts
        are kept. */
    static method WrapperChatHistory(messages: seq<Message>) returns (history: seq<string>)
      ensures history == Project(DropNone, messages)
    {
      history := [];
      var i := 0;
      while i < |messages|
        invariant 0 <= i <= |messages|
        invariant history == Project(DropNone, messages[..i])
      {
        var m := messages[i];
        assert messages[..i + 1][..i] == messages[..i];
        if (m.role == User || m.role == Assistant) && m.content.Some? {
          history := history + [m.content.value];
        }
        i := i + 1;
      }
      assert messages[..i] == messages;
    }

    /** `converse`: one backend call, then the short history of the log it
        left; the answer is the backend's, unchanged. */
    method Converse(message: string, backend: Backend) returns (r: Result<(string, seq<string>), string>)
      requires Valid()
      modifies memory
      ensures memory.messages == backend(old(memory.messages), message).log
      ensures r == Exchange(DropNone, backend(old(memory.messages), message))
    {
      var response := chatEngine.Chat(message, backend);
      if response.Failure? {
        return Failure(response.error);
      }
      var fullHistory := chatEngine.ChatHistory();
      var shortHistory := WrapperChatHistory(SliceFrom(fullHistory, -HistoryWindow));
      r := Success((response.value, shortHistory));
    }
  }

  /** The command line's stop test on an already stripped input line. */
  predicate IsExitCommand(input: string)
    ensures IsExitCommand(input) <==>
              |input| == 4
              && ((forall i :: 0 <= i < 4 ==> LowerChar(input[i]) == "exit"[i])
                  || (forall i :: 0 <= i < 4 ==> LowerChar(input[i]) == "quit"[i]))
  {
    LowerEqualsPerChar(input, "exit");
    LowerEqualsPerChar(input, "quit");
    LowerEquals(input, "exit") || LowerEquals(input, "quit")
  }

  /** The messages the command line sends for the input `lines` when no call
      fails: each line stripped, up to the first exit command or the end of
      input. */
  function Requests(lines: seq<string>): (r: seq<string>)
    ensures |r| <= |lines|
  {
    if lines == [] then []
    else
      var input := Strip(lines[0]);
      if IsExitCommand(input) then [] else [input] + Requests(lines[1..])
  }

  /** The command line sends the stripped lines in order and stops exactly at
      the first line that strips to an exit command, or at the end of input. */
  lemma {:induction false} RequestsStopAtFirstExit(lines: seq<string>)
    ensures var r := Requests(lines);
      (forall k :: 0 <= k < |r| ==> r[k] == Strip(lines[k]) && !IsExitCommand(Strip(lines[k])))
      && (|r| < |lines| ==> IsExitCommand(Strip(lines[|r|])))
  {
    if lines != [] && !IsExitCommand(Strip(lines[0])) {
      var rest := Requests(lines[1..]);
      RequestsStopAtFirstExit(lines[1..]);
      assert Requests(lines) == [Strip(lines[0])] + rest;
      forall k | 1 <= k <= |rest|
        ensures lines[1..][k - 1] == lines[k]
      {
      }
    }
  }

  /** `sent` are the first lines of `lines`, each stripped and none an exit
      command. */
  ghost predicate SentStripped(lines: seq<string>, sent: seq<string>) {
    |sent| <= |lines|
    && forall k :: 0 <= k < |sent| ==> sent[k] == Strip(lines[k]) && !IsExitCommand(sent[k])
  }

  /** Sending the next line, stripped and not an exit command, keeps the run
      in order. */
  lemma SentStrippedStep(lines: seq<string>, sent: seq<string>)
    requires SentStripped(lines, sent) && |sent| < |lines|
    requires !IsExitCommand(Strip(lines[|sent|]))
    ensures SentStripped(lines, sent + [Strip(lines[|sent|])])
  {
  }

  /** Stripped, non-exit lines sent in order are a prefix of the requests. */
  lemma {:induction false} RequestsPrefix(lines: seq<string>, sent: seq<string>)
    requires |sent| <= |lines|
    requires SentStripped(lines, sent)
    ensures |sent| <= |Requests(lines)| && sent == Requests(lines)[..|sent|]
  {
    if sent != [] {
      RequestsPrefix(lines[1..], sent[1..]);
      assert Requests(lines) == [sent[0]] + Requests(lines[1..]);
    }
  }

  /** A run that sent stripped, non-exit lines in order and stopped at an exit
      line or at the end of input sent exactly the requests. */
  lemma RequestsUnique(lines: seq<string>, sent: seq<string>)
    requires |sent| <= |lines|
    requires SentStripped(lines, sent)
    requires |sent| == |lines| || IsExitCommand(Strip(lines[|sent|]))
    ensures sent == Requests(lines)
  {
    RequestsPrefix(lines, sent);
    RequestsStopAtFirstExit(lines);
  }

  /** Exit commands are recognised in any letter case; other words, even ones
      starting with an exit command, are not. */
  lemma ExitCommandExamples()
    ensures IsExitCommand("EXIT") && IsExitCommand("Quit") && IsExitCommand("exit")
    ensures !IsExitCommand("exit now") && !IsExitCommand("") && !IsExitCommand("qui")
  {
    assert !LowerEquals("exit now", "quit");
  }

  /** `sent` were sent in order starting from the chat log `logs[0]`: `logs[k + 1]`
      is the log the backend left after the k-th message, and `answers[k]` is
      the backend's answer to it. */
  ghost predicate Replays(backend: Backend, logs: seq<seq<Message>>,
                          sent: seq<string>, answers: seq<string>)
  {
    |logs| == |sent| + 1 && |answers| <= |sent|
    && (forall k :: 0 <= k < |sent| ==> logs[k + 1] == backend(logs[k], sent[k]).log)
    && (forall k :: 0 <= k < |answers| ==> backend(logs[k], sent[k]).answer == Success(answers[k]))
  }

  /** Sending one more message extends a run by the log the backend leaves,
      and by its answer when it answers. */
  lemma ReplaysStep(backend: Backend, logs: seq<seq<Message>>,
                    sent: seq<string>, answers: seq<string>, message: string)
    requires Replays(backend, logs, sent, answers) && |answers| == |sent|
    ensures var turn := backend(logs[|sent|], message);
      Replays(backend, logs + [turn.log], sent + [message], answers)
      && (turn.answer.Success? ==>
            Replays(backend, logs + [turn.log], sent + [message], answers + [turn.answer.value]))
  {
    var turn := backend(logs[|sent|], message);
    var logs', sent' := logs + [turn.log], sent + [message];
    forall k | 0 <= k < |sent'|
      ensures logs'[k + 1] == backend(logs'[k], sent'[k]).log
    {
      if k < |sent| {
        assert logs'[k + 1] == logs[k + 1] && logs'[k] == logs[k] && sent'[k] == sent[k];
      }
    }
  }

  /** The `__main__` loop. `lines` are the input lines, after which input ends
      (end of file or an interrupt); `backend` gives the outcome of the engine
      call for the current log and message. The loop sends every stripped line
      until an exit command or the end of input and prints the backend's answer
      to each (`answers`); an exception from the backend is not caught and ends
      the program (`crash`). `logs[k]` is the chat log before the k-th message
      was sent. */
  method RunCli(bot: RioChatbot, lines: seq<string>, backend: Backend)
    returns (sent: seq<string>, answers: seq<string>, crash: Option<string>, ghost logs: seq<seq<Message>>)
    requires bot.Valid()
    modifies bot.memory
    ensures crash.None? ==> sent == Requests(lines) && |answers| == |sent|
    ensures crash.Some? ==> 0 < |sent| <= |Requests(lines)| && sent == Requests(lines)[..|sent|]
    ensures crash.Some? ==> |answers| == |sent| - 1
    ensures Replays(backend, logs, sent, answers) && logs[0] == old(bot.memory.messages)
    ensures crash.Some? ==>
      backend(logs[|sent| - 1], sent[|sent| - 1]).answer == Failure(crash.value)
    ensures bot.memory.messages == logs[|sent|]
  {
    sent, answers, crash := [], [], None;
    logs := [bot.memory.messages];
    var i := 0;
    while i < |lines|
      invariant i == |sent| == |answers| <= |lines|
      invariant SentStripped(lines, sent)
      invariant Replays(backend, logs, sent, answers) && logs[0] == old(bot.memory.messages)
      invariant bot.memory.messages == logs[i]
    {
      var userInput := Strip(lines[i]);
      if IsExitCommand(userInput) {
        break;
      }
      ghost var turn := backend(bot.memory.messages, userInput);
      var r := bot.Converse(userInput, backend);
      ExchangePassesAnswer(DropNone, turn);
      ReplaysStep(backend, logs, sent, answers, userInput);
      SentStrippedStep(lines, sent);
      sent := sent + [userInput];
      logs := logs + [turn.log];
      if r.Failure? {
        crash := Some(r.error);
        RequestsPrefix(lines, sent);
        return;
      }
      answers := answers + [r.value.0];
      i := i + 1;
    }
    RequestsUnique(lines, sent);
  }
}
