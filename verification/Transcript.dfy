/**
  The conversation history: messages, what makes a transcript sendable, and
  the edits that failed turns and provider requests make to it.
 */
module Transcript {
  import opened Wrappers
  import opened Text

  datatype Role = System | User | Assistant | ToolRole

  /** Call arguments: their serialised text and the string members a tool may look up. */
  datatype Json = Json(text: string, strings: map<string, string>)

  datatype ToolCall = ToolCall(id: string, name: string, arguments: Json)

  datatype Message = Message(
    role: Role,
    content: string,
    toolCalls: seq<ToolCall>,
    toolCallId: Option<string>,
    toolName: Option<string>,
    reasoning: Option<string>)

  function SystemMessage(content: string): Message
  {
    Message(System, content, [], None, None, None)
  }

  function UserMessage(content: string): Message
  {
    Message(User, content, [], None, None, None)
  }

  /** Reasoning that is blank is not kept. */
  function AssistantMessage(content: string, calls: seq<ToolCall>, reasoning: Option<string>): Message
  {
    var kept := if reasoning.Some? && Trim(reasoning.value) != [] then reasoning else None;
    Message(Assistant, content, calls, None, None, kept)
  }

  /** A reply keeps its reasoning exactly when some of that is not white space. */
  lemma ReplyMeans(content: string, calls: seq<ToolCall>, reasoning: Option<string>)
    ensures var m := AssistantMessage(content, calls, reasoning);
            && m.role == Assistant && m.content == content && m.toolCalls == calls
            && m.toolCallId == None && m.toolName == None
            && (m.reasoning.Some? <==>
                  reasoning.Some? && exists i :: 0 <= i < |reasoning.value| && reasoning.value[i] !in WHITESPACE)
            && (m.reasoning.Some? ==> m.reasoning == reasoning)
  {
    if reasoning.Some? {
      var before, after := TrimMeans(reasoning.value);
    }
  }

  function ToolResult(call: ToolCall, content: string): Message
  {
    Message(ToolRole, content, [], Some(call.id), Some(call.name), None)
  }

  /** One result per call, all with the same text. */
  function ResultsFor(calls: seq<ToolCall>, content: string): (results: seq<Message>)
    ensures |results| == |calls|
  {
    if calls == [] then [] else [ToolResult(calls[0], content)] + ResultsFor(calls[1..], content)
  }

  predicate Answers(call: ToolCall, message: Message)
  {
    message.role == ToolRole && message.toolCallId == Some(call.id) && message.toolName == Some(call.name)
  }

  // ----- What a provider accepts -----

  /** The tool calls of the assistant message at `i` are followed by exactly their results, in order. */
  predicate AnsweredAt(h: seq<Message>, i: nat)
    requires i < |h|
  {
    var calls := h[i].toolCalls;
    i + |calls| < |h| && forall k :: 0 <= k < |calls| ==> Answers(calls[k], h[i + 1 + k])
  }

  /** The message at `i` is one of the results that follow the assistant message at `j`. */
  predicate ResultOf(h: seq<Message>, i: nat, j: nat)
    requires i < |h|
  {
    j < i <= j + |h[j].toolCalls| && h[j].role == Assistant
  }

  predicate Paired(h: seq<Message>)
  {
    && (forall i :: 0 <= i < |h| && h[i].role == Assistant ==> AnsweredAt(h, i))
    && (forall i :: 0 <= i < |h| && h[i].role == ToolRole ==> exists j :: 0 <= j < i && ResultOf(h, i, j))
  }

  predicate NoAdjacentUsers(h: seq<Message>)
  {
    forall i :: 0 <= i < |h| - 1 ==> !(h[i].role == User && h[i + 1].role == User)
  }

  predicate SystemOnlyFirst(h: seq<Message>)
  {
    forall i :: 0 < i < |h| ==> h[i].role != System
  }

  /** A request a strict OpenAI-compatible endpoint accepts. */
  predicate Sendable(h: seq<Message>)
  {
    SystemOnlyFirst(h) && NoAdjacentUsers(h) && Paired(h)
  }

  // ----- The same as an automaton, which composes over appends -----

  /** `pending` are the calls still to be answered; `afterUser` says the last non-system message is a user's. */
  datatype Scan = Bad | Good(pending: seq<ToolCall>, afterUser: bool)

  const START: Scan := Good([], false)

  function Next(s: Scan, m: Message): Scan
  {
    if s.Bad? then Bad
    else match m.role
      case System => if s.pending == [] then s else Bad
      case User => if s.pending == [] && !s.afterUser then Good([], true) else Bad
      case Assistant => if s.pending == [] then Good(m.toolCalls, false) else Bad
      case ToolRole =>
        if s.pending != [] && Answers(s.pending[0], m) then Good(s.pending[1..], false) else Bad
  }

  function Read(s: Scan, h: seq<Message>): Scan
    decreases |h|
  {
    if h == [] then s else Read(Next(s, h[0]), h[1..])
  }

  /** Every call is answered and no two users are adjacent once records are set aside. */
  predicate WellFormed(h: seq<Message>)
  {
    var s := Read(START, h);
    s.Good? && s.pending == []
  }

  /** A well-formed history a new user message may follow. */
  predicate Ready(h: seq<Message>)
  {
    Read(START, h) == START
  }

  lemma {:induction false} ReadConcat(s: Scan, a: seq<Message>, b: seq<Message>)
    ensures Read(s, a + b) == Read(Read(s, a), b)
    decreases |a|
  {
    if a == [] {
      assert a + b == b;
    } else {
      assert (a + b)[0] == a[0] && (a + b)[1..] == a[1..] + b;
      ReadConcat(Next(s, a[0]), a[1..], b);
    }
  }

  lemma ReadSnoc(s: Scan, h: seq<Message>, m: Message)
    ensures Read(s, h + [m]) == Next(Read(s, h), m)
  {
    ReadConcat(s, h, [m]);
    assert Read(Read(s, h), [m]) == Read(Next(Read(s, h), m), [m][1..]);
  }

  lemma ReadNone(s: Scan)
    ensures Read(s, []) == s
  {
  }

  lemma ReadHead(s: Scan, h: seq<Message>)
    requires h != []
    ensures Read(s, h) == Read(Next(s, h[0]), h[1..])
  {
  }

  lemma {:induction false} ReadBad(h: seq<Message>)
    ensures Read(Bad, h) == Bad
  {
    if h != [] { ReadBad(h[1..]); }
  }

  /** Answering exactly the pending calls clears them. */
  lemma {:induction false} ReadResults(calls: seq<ToolCall>, content: string)
    ensures calls != [] ==> Read(Good(calls, false), ResultsFor(calls, content)) == START
    ensures calls == [] ==> ResultsFor(calls, content) == []
  {
    if |calls| > 0 {
      var results := ResultsFor(calls, content);
      assert results[1..] == ResultsFor(calls[1..], content);
      assert Next(Good(calls, false), results[0]) == Good(calls[1..], false);
      ReadResults(calls[1..], content);
    }
  }

  // ----- The automaton accepts exactly the sendable requests -----

  /** `Sendable` after `s.pending` more results, with `s.afterUser` remembered. */
  ghost predicate SendableFrom(s: Scan, h: seq<Message>)
    requires s.Good?
  {
    var n := |s.pending|;
    && n <= |h|
    && (forall k :: 0 <= k < n ==> Answers(s.pending[k], h[k]))
    && (forall i :: n <= i < |h| ==> h[i].role != System)
    && NoAdjacentUsers(h[n..])
    && Paired(h[n..])
    && (s.afterUser && n == 0 && |h| > 0 ==> h[0].role != User)
  }

  predicate SystemFree(h: seq<Message>)
  {
    forall i :: 0 <= i < |h| ==> h[i].role != System
  }

  /** A transcript splits into its first message, the results that answer it, and a transcript. */
  lemma PairedBlock(h: seq<Message>)
    requires h != [] && h[0].role != System
    ensures Paired(h) <==>
            (h[0].role == User && Paired(h[1..]))
            || (h[0].role == Assistant && AnsweredAt(h, 0) && Paired(h[1 + |h[0].toolCalls|..]))
  {
    if h[0].role == User {
      PairedDrop(h, 1);
    } else if h[0].role == Assistant && AnsweredAt(h, 0) {
      PairedDrop(h, 1 + |h[0].toolCalls|);
    }
  }

  lemma PairedDrop(h: seq<Message>, n: nat)
    requires 0 < n <= |h|
    requires h[0].role == User ==> n == 1
    requires h[0].role == Assistant ==> AnsweredAt(h, 0) && n == 1 + |h[0].toolCalls|
    requires h[0].role == User || h[0].role == Assistant
    ensures Paired(h) <==> Paired(h[n..])
  {
    var t := h[n..];
    forall i | 1 <= i < n
      ensures h[i].role == ToolRole
    {
      assert Answers(h[0].toolCalls[i - 1], h[0 + 1 + (i - 1)]);
    }
    if Paired(h) { PairedSuffix(h, n); }
    if Paired(t) { PairedExtend(h, n); }
  }

  lemma PairedSuffix(h: seq<Message>, n: nat)
    requires 0 < n <= |h| && Paired(h)
    requires forall i :: 1 <= i < n ==> h[i].role == ToolRole
    requires h[0].role == User ==> n == 1
    requires h[0].role == Assistant ==> n == 1 + |h[0].toolCalls|
    requires h[0].role == User || h[0].role == Assistant
    ensures Paired(h[n..])
  {
    var t := h[n..];
    forall i | 0 <= i < |t| && t[i].role == Assistant
      ensures AnsweredAt(t, i)
    {
      assert AnsweredAt(h, n + i);
      forall k | 0 <= k < |t[i].toolCalls|
        ensures Answers(t[i].toolCalls[k], t[i + 1 + k])
      {
        assert h[n + i + 1 + k] == t[i + 1 + k];
        assert Answers(h[n + i].toolCalls[k], h[n + i + 1 + k]);
      }
    }
    forall i | 0 <= i < |t| && t[i].role == ToolRole
      ensures exists j :: 0 <= j < i && ResultOf(t, i, j)
    {
      assert h[n + i].role == ToolRole;
      var j :| 0 <= j < n + i && ResultOf(h, n + i, j);
      assert j >= n;
      assert ResultOf(t, i, j - n);
    }
  }

  lemma PairedExtend(h: seq<Message>, n: nat)
    requires 0 < n <= |h| && Paired(h[n..])
    requires forall i :: 1 <= i < n ==> h[i].role == ToolRole
    requires h[0].role == User ==> n == 1
    requires h[0].role == Assistant ==> AnsweredAt(h, 0) && n == 1 + |h[0].toolCalls|
    requires h[0].role == User || h[0].role == Assistant
    ensures Paired(h)
  {
    var t := h[n..];
    forall i | 0 <= i < |h| && h[i].role == Assistant
      ensures AnsweredAt(h, i)
    {
      if i > 0 {
        assert i >= n;
        assert t[i - n].role == Assistant;
        assert AnsweredAt(t, i - n);
        forall k | 0 <= k < |h[i].toolCalls|
          ensures Answers(h[i].toolCalls[k], h[i + 1 + k])
        {
          assert h[i + 1 + k] == t[i - n + 1 + k] && h[i] == t[i - n];
          assert Answers(t[i - n].toolCalls[k], t[i - n + 1 + k]);
        }
      }
    }
    forall i | 0 <= i < |h| && h[i].role == ToolRole
      ensures exists j :: 0 <= j < i && ResultOf(h, i, j)
    {
      if i < n {
        assert ResultOf(h, i, 0);
      } else {
        assert t[i - n] == h[i] && t[i - n].role == ToolRole;
        var j :| 0 <= j < i - n && ResultOf(t, i - n, j);
        assert t[j] == h[j + n] && ResultOf(h, i, j + n);
      }
    }
  }

  lemma {:induction false} AutomatonSound(s: Scan, h: seq<Message>)
    requires s.Good? && SystemFree(h)
    ensures Read(s, h).Good? && Read(s, h).pending == [] <==> SendableFrom(s, h)
    decreases |h|
  {
    if h == [] {
    } else if s.pending != [] {
      AutomatonResult(s, h);
    } else {
      AutomatonMessage(s, h);
    }
  }

  lemma AutomatonResult(s: Scan, h: seq<Message>)
    requires s.Good? && SystemFree(h) && h != [] && s.pending != []
    ensures Read(s, h).Good? && Read(s, h).pending == [] <==> SendableFrom(s, h)
    decreases |h|, 0
  {
    hide Read, SendableFrom, Answers;
    var rest, next := h[1..], Next(s, h[0]);
    NeverTool(h[0]);
    ReadHead(s, h);
    SendableResult(s, h);
    if next.Good? {
      AutomatonSound(next, rest);
    } else {
      ReadBad(rest);
    }
  }

  /** Only a tool result answers a call. */
  lemma NeverTool(m: Message)
    ensures forall call :: Answers(call, m) ==> m.role == ToolRole
  {
  }

  /** The first result of a transcript with calls pending. */
  lemma SendableResult(s: Scan, h: seq<Message>)
    requires s.Good? && h != [] && s.pending != []
    ensures SendableFrom(s, h) <==> Answers(s.pending[0], h[0]) && SendableFrom(Good(s.pending[1..], false), h[1..])
  {
    hide Answers, Paired, NoAdjacentUsers;
    var n, rest, later := |s.pending|, h[1..], s.pending[1..];
    if n <= |h| {
      assert h[n..] == rest[n - 1..];
      assert forall k :: 0 <= k < n - 1 ==> later[k] == s.pending[k + 1] && rest[k] == h[k + 1];
      assert forall i :: n - 1 <= i < |rest| ==> rest[i] == h[i + 1];
      if Answers(s.pending[0], h[0]) && SendableFrom(Good(later, false), rest) {
        forall k | 0 <= k < n
          ensures Answers(s.pending[k], h[k])
        {
          if k > 0 { assert Answers(later[k - 1], rest[k - 1]); }
        }
        forall i | n <= i < |h|
          ensures h[i].role != System
        {
          assert rest[i - 1].role != System;
        }
      }
    }
  }

  lemma AutomatonMessage(s: Scan, h: seq<Message>)
    requires s.Good? && SystemFree(h) && h != [] && s.pending == []
    ensures Read(s, h).Good? && Read(s, h).pending == [] <==> SendableFrom(s, h)
    decreases |h|, 0
  {
    hide Paired, NoAdjacentUsers, SendableFrom;
    var rest, next := h[1..], Next(s, h[0]);
    if next.Bad? {
      ReadBad(rest);
    } else {
      AutomatonSound(next, rest);
    }
    SendableStep(s, h);
  }

  /** One message of a transcript with nothing pending. */
  lemma SendableStep(s: Scan, h: seq<Message>)
    requires s.Good? && SystemFree(h) && h != [] && s.pending == []
    ensures var next := Next(s, h[0]);
            SendableFrom(s, h) <==> next.Good? && SendableFrom(next, h[1..])
  {
    hide Paired, NoAdjacentUsers;
    var rest, next := h[1..], Next(s, h[0]);
    assert h[0..] == h;
    PairedBlock(h);
    if next.Good? {
      var n := |next.pending|;
      if n <= |rest| {
        assert rest[n..] == h[1 + n..];
        assert forall k :: 0 <= k < n ==> rest[k] == h[1 + k];
        UsersAfterBlock(h, n);
      }
    }
  }

  /** Tool results are no users, so only the two ends of a block matter for adjacency. */
  lemma UsersAfterBlock(h: seq<Message>, n: nat)
    requires h != [] && 1 + n <= |h|
    ensures (forall k :: 1 <= k <= n ==> h[k].role != User) ==>
            (NoAdjacentUsers(h) <==>
             NoAdjacentUsers(h[1 + n..]) && !(n == 0 && h[0].role == User && |h| > 1 && h[1].role == User))
  {
    var t := h[1 + n..];
    assert forall i :: 0 <= i < |t| ==> t[i] == h[1 + n + i];
    if (forall k :: 1 <= k <= n ==> h[k].role != User) && NoAdjacentUsers(t)
       && !(n == 0 && h[0].role == User && |h| > 1 && h[1].role == User) {
      forall i | 0 <= i < |h| - 1
        ensures !(h[i].role == User && h[i + 1].role == User)
      {
        if i > n {
          assert !(t[i - n - 1].role == User && t[i - n - 1 + 1].role == User);
        } else if i == 0 && n > 0 {
          assert h[1].role != User;
        }
      }
    }
  }

  /** `Sendable` is: only the first message is a system one, and the history is well formed. */
  lemma SendableIff(h: seq<Message>)
    ensures Sendable(h) <==> SystemOnlyFirst(h) && WellFormed(h)
  {
    if SystemOnlyFirst(h) {
      if h != [] && h[0].role == System {
        var t := h[1..];
        assert SystemFree(t) by {
          assert forall i :: 0 <= i < |t| ==> t[i] == h[i + 1];
        }
        AutomatonSound(START, t);
        assert t[0..] == t;
        SystemHead(h);
      } else {
        assert SystemFree(h);
        AutomatonSound(START, h);
        assert h[0..] == h;
      }
    }
  }

  lemma SystemHead(h: seq<Message>)
    requires h != [] && h[0].role == System && SystemOnlyFirst(h)
    ensures Paired(h) <==> Paired(h[1..])
    ensures NoAdjacentUsers(h) <==> NoAdjacentUsers(h[1..])
  {
    var t := h[1..];
    assert forall i :: 0 <= i < |t| ==> t[i] == h[i + 1];
    assert NoAdjacentUsers(t) ==> NoAdjacentUsers(h) by {
      if NoAdjacentUsers(t) {
        forall i | 0 <= i < |h| - 1
          ensures !(h[i].role == User && h[i + 1].role == User)
        {
          if i > 0 { assert !(t[i - 1].role == User && t[i].role == User); }
        }
      }
    }
    if Paired(h) {
      forall i | 0 <= i < |t| && t[i].role == Assistant
        ensures AnsweredAt(t, i)
      {
        assert AnsweredAt(h, i + 1);
        forall k | 0 <= k < |t[i].toolCalls|
          ensures Answers(t[i].toolCalls[k], t[i + 1 + k])
        {
          assert Answers(h[i + 1].toolCalls[k], h[i + 1 + 1 + k]);
        }
      }
      forall i | 0 <= i < |t| && t[i].role == ToolRole
        ensures exists j :: 0 <= j < i && ResultOf(t, i, j)
      {
        assert h[i + 1].role == ToolRole;
        var j :| 0 <= j < i + 1 && ResultOf(h, i + 1, j);
        assert ResultOf(t, i, j - 1);
      }
    }
    if Paired(t) {
      forall i | 0 <= i < |h| && h[i].role == Assistant
        ensures AnsweredAt(h, i)
      {
        assert AnsweredAt(t, i - 1);
        forall k | 0 <= k < |h[i].toolCalls|
          ensures Answers(h[i].toolCalls[k], h[i + 1 + k])
        {
          assert Answers(t[i - 1].toolCalls[k], t[i - 1 + 1 + k]);
        }
      }
      forall i | 0 <= i < |h| && h[i].role == ToolRole
        ensures exists j :: 0 <= j < i && ResultOf(h, i, j)
      {
        assert t[i - 1].role == ToolRole;
        var j :| 0 <= j < i - 1 && ResultOf(t, i - 1, j);
        assert ResultOf(h, i, j + 1);
      }
    }
  }
}
