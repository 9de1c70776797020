/** The chat log the conversation engine keeps, and its projection into the
    short list of texts that the chat endpoint and the command line return:
    the last eight log entries, then only the user and assistant messages
    among them, as their content strings, in log order. */
module History {
  import opened Outcomes

  /** The roles a chat message of the framework can carry. */
  datatype Role = System | Developer | User | Assistant | Function | Tool | Chatbot | Model

  /** A message of the chat log; the content may be `None`. */
  datatype Message = Message(role: Role, content: Option<string>)

  /** The two copies of the projection differ only in which contents they drop:
      the backend copy drops every falsy content (`None` and `""`), the
      command-line copy drops only `None`. */
  datatype Policy = DropFalsy | DropNone

  /** How many of the most recent log entries are looked at. */
  const HistoryWindow: int := 8

  /** The filter of one iteration of the projection loop. */
  predicate Keeps(p: Policy, m: Message)
    ensures Keeps(p, m) ==> (m.role == User || m.role == Assistant) && m.content.Some?
    ensures p == DropFalsy && Keeps(p, m) ==> m.content.value != ""
    ensures p == DropNone && (m.role == User || m.role == Assistant) && m.content.Some? ==> Keeps(p, m)
  {
    (m.role == User || m.role == Assistant) && m.content.Some?
    && (p == DropFalsy ==> m.content.value != "")
  }

  /** The contents of the kept messages of `ms`, in order. */
  function Project(p: Policy, ms: seq<Message>): (r: seq<string>)
    ensures |r| <= |ms|
    ensures p == DropFalsy ==> forall k :: 0 <= k < |r| ==> r[k] != ""
  {
    if ms == [] then []
    else
      var init := Project(p, ms[..|ms| - 1]);
      var m := ms[|ms| - 1];
      if Keeps(p, m) then init + [m.content.value] else init
  }

  /** The positions of the kept messages of `ms`, ascending. */
  function KeptPositions(p: Policy, ms: seq<Message>): (idx: seq<nat>)
    ensures forall k :: 0 <= k < |idx| ==> idx[k] < |ms| && Keeps(p, ms[idx[k]])
    ensures forall k, l :: 0 <= k < l < |idx| ==> idx[k] < idx[l]
    ensures forall j :: 0 <= j < |ms| && Keeps(p, ms[j]) ==> j in idx
  {
    if ms == [] then []
    else
      var init := KeptPositions(p, ms[..|ms| - 1]);
      if Keeps(p, ms[|ms| - 1]) then init + [|ms| - 1] else init
  }

  /** The projection is exactly the contents of the kept messages, one entry
      per kept message, in the order of the log: nothing else is returned and
      no kept message is skipped. */
  lemma {:induction false} ProjectFollowsKeptPositions(p: Policy, ms: seq<Message>)
    ensures |Project(p, ms)| == |KeptPositions(p, ms)|
    ensures forall k :: 0 <= k < |KeptPositions(p, ms)| ==>
              Project(p, ms)[k] == ms[KeptPositions(p, ms)[k]].content.value
  {
    if ms != [] {
      var init := ms[..|ms| - 1];
      ProjectFollowsKeptPositions(p, init);
      var idx := KeptPositions(p, init);
      var last := ms[|ms| - 1];
      forall k | 0 <= k < |idx|
        ensures init[idx[k]] == ms[idx[k]]
      {
      }
      if Keeps(p, last) {
        assert Project(p, ms) == Project(p, init) + [last.content.value];
        assert KeptPositions(p, ms) == idx + [|ms| - 1];
      } else {
        assert Project(p, ms) == Project(p, init);
        assert KeptPositions(p, ms) == idx;
      }
    }
  }

  /** Projecting a concatenation projects each part. */
  lemma {:induction false} ProjectAppend(p: Policy, a: seq<Message>, b: seq<Message>)
    ensures Project(p, a + b) == Project(p, a) + Project(p, b)
  {
    if b != [] {
      var b' := b[..|b| - 1];
      assert (a + b)[..|a + b| - 1] == a + b';
      assert (a + b)[|a + b| - 1] == b[|b| - 1];
      ProjectAppend(p, a, b');
    } else {
      assert a + b == a;
    }
  }

  /** Python `s[start:]`: a negative start counts from the end, and a start
      beyond either end is clamped. */
  function SliceFrom<T>(s: seq<T>, start: int): (r: seq<T>)
    ensures |r| <= |s| && r == s[|s| - |r|..]
    ensures start < 0 ==> |r| == if -start <= |s| then -start else |s|
    ensures 0 <= start ==> |r| == if start <= |s| then |s| - start else 0
  {
    var k := if start < 0 then (if start + |s| < 0 then 0 else start + |s|)
             else (if start > |s| then |s| else start);
    s[k..]
  }

  /** `wrapper(full_history[-8:])`: the projection of the last eight log
      entries. */
  function ShortHistory(p: Policy, log: seq<Message>): (r: seq<string>)
    ensures |r| <= HistoryWindow
    ensures |r| <= |log|
  {
    Project(p, SliceFrom(log, -HistoryWindow))
  }

  /** Where the last-eight window of `log` starts. */
  function WindowStart(log: seq<Message>): nat {
    if |log| <= HistoryWindow then 0 else |log| - HistoryWindow
  }

  /** The contents of the kept messages of `ms`, as a set. */
  function KeptContents(p: Policy, ms: seq<Message>): set<string> {
    set j | 0 <= j < |ms| && Keeps(p, ms[j]) :: ms[j].content.value
  }

  /** The projection returns the content of every kept message and nothing
      else. */
  lemma ProjectContents(p: Policy, ms: seq<Message>)
    ensures (set t | t in Project(p, ms)) == KeptContents(p, ms)
  {
    ProjectFollowsKeptPositions(p, ms);
    var idx := KeptPositions(p, ms);
    var r := Project(p, ms);
    forall t | t in r
      ensures t in KeptContents(p, ms)
    {
      var k :| 0 <= k < |r| && r[k] == t;
      assert Keeps(p, ms[idx[k]]) && ms[idx[k]].content.value == t;
    }
    forall j | 0 <= j < |ms| && Keeps(p, ms[j])
      ensures ms[j].content.value in r
    {
      var k :| 0 <= k < |idx| && idx[k] == j;
      assert r[k] == ms[j].content.value;
    }
  }

  /** The short history returns the content of every user or assistant message
      among the last eight log entries that the policy keeps, and nothing else:
      system and other roles, and the contents the policy drops, never appear
      unless some kept message carries the same text. */
  lemma ShortHistoryContents(p: Policy, log: seq<Message>)
    ensures (set t | t in ShortHistory(p, log)) == KeptContents(p, log[WindowStart(log)..])
  {
    assert SliceFrom(log, -HistoryWindow) == log[WindowStart(log)..];
    ProjectContents(p, log[WindowStart(log)..]);
  }

  /** The slice is taken before the filter: the short history is the tail of
      the projection of the whole log that comes from the last eight entries. */
  lemma ShortHistoryIsSuffix(p: Policy, log: seq<Message>)
    ensures Project(p, log) == Project(p, log[..WindowStart(log)]) + ShortHistory(p, log)
  {
    var s := WindowStart(log);
    assert log == log[..s] + log[s..];
    assert SliceFrom(log, -HistoryWindow) == log[s..];
    ProjectAppend(p, log[..s], log[s..]);
  }

  /** With eight or fewer entries the whole log is projected. */
  lemma ShortHistoryOfShortLog(p: Policy, log: seq<Message>)
    requires |log| <= HistoryWindow
    ensures ShortHistory(p, log) == Project(p, log)
  {
  }

  /** Because the slice comes first, a kept message just outside the window is
      lost even though fewer than eight texts are returned: filtering first and
      then taking the last eight would have returned it. */
  lemma SliceBeforeFilter()
    ensures var log := [Message(User, Some("hi"))] + seq(HistoryWindow, _ => Message(System, Some("ctx")));
      ShortHistory(DropFalsy, log) == [] && SliceFrom(Project(DropFalsy, log), -HistoryWindow) == ["hi"]
  {
    var first := [Message(User, Some("hi"))];
    var rest := seq(HistoryWindow, _ => Message(System, Some("ctx")));
    var log := first + rest;
    assert Project(DropFalsy, first) == ["hi"] by {
      assert first[..0] == [];
    }
    NothingKept(DropFalsy, rest);
    ProjectAppend(DropFalsy, first, rest);
    assert SliceFrom(log, -HistoryWindow) == rest;
  }

  /** A log in which no message is kept projects to nothing. */
  lemma {:induction false} NothingKept(p: Policy, ms: seq<Message>)
    requires forall j :: 0 <= j < |ms| ==> !Keeps(p, ms[j])
    ensures Project(p, ms) == []
  {
    if ms != [] {
      NothingKept(p, ms[..|ms| - 1]);
    }
  }

  /** A log holding one question and its answer, as after a reset and one
      exchange, shows exactly those two texts. */
  lemma OneExchangeShown(question: string, answer: string)
    requires question != "" && answer != ""
    ensures ShortHistory(DropFalsy, [Message(User, Some(question)), Message(Assistant, Some(answer))])
            == [question, answer]
  {
    var log := [Message(User, Some(question)), Message(Assistant, Some(answer))];
    assert SliceFrom(log, -HistoryWindow) == log;
    assert log[..1] == [log[0]] && log[..1][..0] == [];
    assert Project(DropFalsy, log[..1]) == [question];
    assert Project(DropFalsy, log) == [question] + [answer];
  }

  /** The texts of `s` that are not empty, in order. */
  function NonEmpty(s: seq<string>): (r: seq<string>)
    ensures |r| <= |s|
    ensures forall k :: 0 <= k < |r| ==> r[k] != "" && r[k] in s
  {
    if s == [] then []
    else
      var init := NonEmpty(s[..|s| - 1]);
      if s[|s| - 1] == "" then init else init + [s[|s| - 1]]
  }

  /** The two copies agree except on empty contents: the backend copy returns
      what the command-line copy returns with the empty texts removed. */
  lemma {:induction false} DropFalsyRemovesEmpty(ms: seq<Message>)
    ensures Project(DropFalsy, ms) == NonEmpty(Project(DropNone, ms))
  {
    if ms != [] {
      DropFalsyRemovesEmpty(ms[..|ms| - 1]);
    }
  }

  /** An empty user message is shown by the command-line copy and hidden by the
      backend copy. */
  lemma EmptyContentDistinguishesCopies()
    ensures Project(DropNone, [Message(User, Some(""))]) == [""]
    ensures Project(DropFalsy, [Message(User, Some(""))]) == []
  {
  }
}
