/** Keeping a conversation history within a byte budget. */
module Compaction {
  import opened Wrappers
  import opened Text
  import opened Transcript

  /** The texts that replace elided, truncated and dropped payloads. */
  datatype Markers = Markers(elided: string, truncated: string, dropped: string)

  const MINIMUM_HISTORY_BYTES: nat := 1024

  // ----- Sizes -----

  function CallBytes(calls: seq<ToolCall>): nat
  {
    if calls == [] then 0 else |calls[0].name| + |calls[0].arguments.text| + CallBytes(calls[1..])
  }

  function ReasoningBytes(m: Message): nat
  {
    if m.reasoning.Some? then |m.reasoning.value| else 0
  }

  function MessageBytes(m: Message): nat
  {
    |m.content| + ReasoningBytes(m) + CallBytes(m.toolCalls)
  }

  function HistoryBytes(h: seq<Message>): nat
  {
    if h == [] then 0 else MessageBytes(h[0]) + HistoryBytes(h[1..])
  }

  lemma {:induction false} BytesConcat(a: seq<Message>, b: seq<Message>)
    ensures HistoryBytes(a + b) == HistoryBytes(a) + HistoryBytes(b)
  {
    if a == [] {
      assert a + b == b;
    } else {
      assert (a + b)[0] == a[0] && (a + b)[1..] == a[1..] + b;
      BytesConcat(a[1..], b);
    }
  }

  lemma BytesAround(h: seq<Message>, i: nat)
    requires i < |h|
    ensures HistoryBytes(h) == HistoryBytes(h[..i]) + MessageBytes(h[i]) + HistoryBytes(h[i + 1..])
  {
    assert h[..i] + h[i..] == h;
    BytesConcat(h[..i], h[i..]);
    assert h[i..][0] == h[i] && h[i..][1..] == h[i + 1..];
  }

  /** Replacing one message changes the total by the difference in its size. */
  lemma BytesUpdate(h: seq<Message>, i: nat, m: Message)
    requires i < |h|
    ensures HistoryBytes(h[i := m]) + MessageBytes(h[i]) == HistoryBytes(h) + MessageBytes(m)
  {
    BytesAround(h, i);
    BytesAround(h[i := m], i);
    assert h[i := m][..i] == h[..i] && h[i := m][i + 1..] == h[i + 1..];
  }

  /** All texts of a message that count. */
  function Payload(m: Message): string
  {
    m.content + (if m.reasoning.Some? then m.reasoning.value else []) + CallTexts(m.toolCalls)
  }

  function CallTexts(calls: seq<ToolCall>): string
  {
    if calls == [] then []
    else CallTexts(calls[..|calls| - 1]) + calls[|calls| - 1].name + calls[|calls| - 1].arguments.text
  }

  lemma {:induction false} CallBytesConcat(a: seq<ToolCall>, b: seq<ToolCall>)
    ensures CallBytes(a + b) == CallBytes(a) + CallBytes(b)
  {
    if a == [] {
      assert a + b == b;
    } else {
      assert (a + b)[0] == a[0] && (a + b)[1..] == a[1..] + b;
      CallBytesConcat(a[1..], b);
    }
  }

  lemma {:induction false} CallBytesMean(calls: seq<ToolCall>)
    ensures CallBytes(calls) == |CallTexts(calls)|
    decreases |calls|
  {
    if calls != [] {
      var init, last := calls[..|calls| - 1], calls[|calls| - 1];
      assert calls == init + [last] && [last][1..] == [];
      CallBytesMean(init);
      CallBytesConcat(init, [last]);
    }
  }

  /** A message weighs as much as its content, its reasoning and the names and arguments of its calls. */
  lemma BytesMean(m: Message)
    ensures MessageBytes(m) == |Payload(m)|
  {
    CallBytesMean(m.toolCalls);
  }

  // ----- Elision -----

  /** A history and how many payloads were changed to get it. */
  datatype Edit = Edit(history: seq<Message>, changed: nat)

  function LastIndexOf(h: seq<Message>, role: Role): (index: Option<nat>)
    ensures index.Some? ==> index.value < |h| && h[index.value].role == role
    ensures index.Some? ==> forall i :: index.value < i < |h| ==> h[i].role != role
    ensures index.None? ==> forall i :: 0 <= i < |h| ==> h[i].role != role
  {
    if h == [] then None
    else if h[|h| - 1].role == role then Some(|h| - 1)
    else LastIndexOf(h[..|h| - 1], role)
  }

  predicate Elidable(markers: Markers, h: seq<Message>, i: nat, newest: Option<nat>)
    requires i < |h|
  {
    newest != Some(i) && h[i].role == ToolRole && |h[i].content| > |markers.elided|
  }

  /** Tool results from `i` on but the newest, oldest first, while the history does not fit. */
  function ElideOlder(markers: Markers, h: seq<Message>, i: nat, newest: Option<nat>, maxBytes: nat): Edit
    requires i <= |h|
    decreases |h| - i
  {
    if i == |h| || HistoryBytes(h) <= maxBytes then Edit(h, 0)
    else if !Elidable(markers, h, i, newest) then ElideOlder(markers, h, i + 1, newest, maxBytes)
    else
      var r := ElideOlder(markers, h[i := h[i].(content := markers.elided)], i + 1, newest, maxBytes);
      Edit(r.history, r.changed + 1)
  }

  predicate CharBoundary(s: string, cut: nat)
  {
    cut == 0 || cut == |s| || (cut < |s| && !('\U{80}' <= s[cut] < '\U{C0}'))
  }

  /** A cut is at a boundary unless it is before a byte whose two top bits are 1 and 0. */
  lemma BoundaryMeans(s: string, cut: nat)
    requires cut <= |s|
    ensures CharBoundary(s, cut) <==> (0 < cut < |s| ==> s[cut] as int / 64 != 2)
  {
  }

  /** The last character boundary at or before `cut`. */
  function BoundaryBefore(s: string, cut: nat): (b: nat)
    requires cut <= |s|
    ensures b <= cut && CharBoundary(s, b)
    ensures forall c :: b < c <= cut ==> !CharBoundary(s, c)
  {
    if CharBoundary(s, cut) then cut else BoundaryBefore(s, cut - 1)
  }

  /** What the message at `i` may take up if the rest is kept. */
  function Allowance(h: seq<Message>, i: nat, maxBytes: nat): nat
    requires i < |h|
  {
    var others := HistoryBytes(h[..i]) + HistoryBytes(h[i + 1..]);
    if others >= maxBytes then 0 else maxBytes - others
  }

  function Truncated(markers: Markers, content: string, budget: nat): string
    requires |markers.truncated| < budget < |content|
  {
    content[..BoundaryBefore(content, budget - |markers.truncated|)] + markers.truncated
  }

  predicate Truncatable(markers: Markers, h: seq<Message>, newest: Option<nat>, maxBytes: nat)
    requires newest.Some? ==> newest.value < |h|
  {
    && HistoryBytes(h) > maxBytes
    && newest.Some?
    && |markers.truncated| < Allowance(h, newest.value, maxBytes) < |h[newest.value].content|
  }

  function TruncateNewest(markers: Markers, h: seq<Message>, newest: Option<nat>, maxBytes: nat): Edit
    requires newest.Some? ==> newest.value < |h|
  {
    if !Truncatable(markers, h, newest, maxBytes) then Edit(h, 0)
    else
      var i := newest.value;
      var content := Truncated(markers, h[i].content, Allowance(h, i, maxBytes));
      Edit(h[i := h[i].(content := content)], 1)
  }

  function DropReasoning(h: seq<Message>, i: nat, maxBytes: nat): Edit
    requires i <= |h|
    decreases |h| - i
  {
    if i == |h| || HistoryBytes(h) <= maxBytes then Edit(h, 0)
    else if h[i].reasoning.None? then DropReasoning(h, i + 1, maxBytes)
    else
      var r := DropReasoning(h[i := h[i].(reasoning := None)], i + 1, maxBytes);
      Edit(r.history, r.changed + 1)
  }

  /** A message after elision: only a tool's content and the reasoning may differ. */
  predicate SameShape(a: Message, b: Message)
  {
    && a.role == b.role
    && a.toolCalls == b.toolCalls
    && a.toolCallId == b.toolCallId
    && a.toolName == b.toolName
    && (a.content == b.content || a.role == ToolRole)
    && (b.reasoning == a.reasoning || b.reasoning == None)
  }

  predicate KeepsShape(h: seq<Message>, h': seq<Message>)
  {
    |h| == |h'| && forall i :: 0 <= i < |h| ==> SameShape(h[i], h'[i])
  }

  /** What one editing pass may do: shrink in place, and count what it changed. */
  predicate Shrinks(h: seq<Message>, e: Edit)
  {
    && KeepsShape(h, e.history)
    && HistoryBytes(e.history) <= HistoryBytes(h)
    && (e.changed == 0 <==> e.history == h)
  }

  /** A pass that only shortens texts: anything it changed is smaller. */
  predicate ShrinksStrictly(h: seq<Message>, e: Edit)
  {
    && KeepsShape(h, e.history)
    && (e.changed == 0 ==> e.history == h)
    && (e.changed > 0 ==> HistoryBytes(e.history) < HistoryBytes(h))
  }

  lemma ShapeTransitive(a: seq<Message>, b: seq<Message>, c: seq<Message>)
    requires KeepsShape(a, b) && KeepsShape(b, c)
    ensures KeepsShape(a, c)
  {
    forall i | 0 <= i < |a|
      ensures SameShape(a[i], c[i])
    {
      assert SameShape(a[i], b[i]) && SameShape(b[i], c[i]);
    }
  }

  lemma SameShapeContent(m: Message, content: string)
    requires m.role == ToolRole && |content| < |m.content|
    ensures SameShape(m, m.(content := content)) && MessageBytes(m.(content := content)) < MessageBytes(m)
  {
  }

  lemma UpdateShrinks(h: seq<Message>, i: nat, m: Message)
    requires i < |h| && SameShape(h[i], m) && MessageBytes(m) <= MessageBytes(h[i])
    ensures KeepsShape(h, h[i := m])
    ensures HistoryBytes(h[i := m]) <= HistoryBytes(h)
    ensures MessageBytes(m) < MessageBytes(h[i]) ==> HistoryBytes(h[i := m]) < HistoryBytes(h)
  {
    BytesUpdate(h, i, m);
  }

  lemma {:induction false} ElideOlderShrinks(
    markers: Markers, h: seq<Message>, i: nat, newest: Option<nat>, maxBytes: nat)
    requires i <= |h|
    ensures ShrinksStrictly(h, ElideOlder(markers, h, i, newest, maxBytes))
    decreases |h| - i
  {
    if i < |h| && HistoryBytes(h) > maxBytes {
      if Elidable(markers, h, i, newest) {
        var m := h[i].(content := markers.elided);
        SameShapeContent(h[i], markers.elided);
        UpdateShrinks(h, i, m);
        ElideOlderShrinks(markers, h[i := m], i + 1, newest, maxBytes);
        ShapeTransitive(h, h[i := m], ElideOlder(markers, h[i := m], i + 1, newest, maxBytes).history);
      } else {
        ElideOlderShrinks(markers, h, i + 1, newest, maxBytes);
      }
    }
  }

  /** Elision touches neither the newest result nor what lies before `i`, and skips nothing while over budget. */
  lemma {:induction false} ElideOlderComplete(
    markers: Markers, h: seq<Message>, i: nat, newest: Option<nat>, maxBytes: nat)
    requires i <= |h|
    ensures var e := ElideOlder(markers, h, i, newest, maxBytes).history;
            && |e| == |h|
            && (forall j :: 0 <= j < |h| && (j < i || newest == Some(j)) ==> e[j] == h[j])
            && (HistoryBytes(e) > maxBytes ==> forall j :: i <= j < |h| ==> !Elidable(markers, e, j, newest))
    decreases |h| - i
  {
    if i < |h| && HistoryBytes(h) > maxBytes {
      if Elidable(markers, h, i, newest) {
        ElideOlderComplete(markers, h[i := h[i].(content := markers.elided)], i + 1, newest, maxBytes);
      } else {
        ElideOlderComplete(markers, h, i + 1, newest, maxBytes);
      }
    }
  }

  lemma TruncateNewestShrinks(markers: Markers, h: seq<Message>, newest: Option<nat>, maxBytes: nat)
    requires newest.Some? ==> newest.value < |h| && h[newest.value].role == ToolRole
    ensures var e := TruncateNewest(markers, h, newest, maxBytes);
            && ShrinksStrictly(h, e)
            && (forall j :: 0 <= j < |h| && newest != Some(j) ==> e.history[j] == h[j])
  {
    if Truncatable(markers, h, newest, maxBytes) {
      var i := newest.value;
      var m := h[i].(content := Truncated(markers, h[i].content, Allowance(h, i, maxBytes)));
      SameShapeContent(h[i], m.content);
      UpdateShrinks(h, i, m);
      assert h[i := m][i] == m;
    }
  }

  lemma {:induction false} DropReasoningShrinks(h: seq<Message>, i: nat, maxBytes: nat)
    requires i <= |h|
    ensures Shrinks(h, DropReasoning(h, i, maxBytes))
    decreases |h| - i
  {
    if i < |h| && HistoryBytes(h) > maxBytes {
      if h[i].reasoning.Some? {
        var m := h[i].(reasoning := None);
        assert MessageBytes(m) <= MessageBytes(h[i]);
        UpdateShrinks(h, i, m);
        assert h[i := m][i] == m;
        DropReasoningShrinks(h[i := m], i + 1, maxBytes);
        DropReasoningComplete(h[i := m], i + 1, maxBytes);
        ShapeTransitive(h, h[i := m], DropReasoning(h[i := m], i + 1, maxBytes).history);
      } else {
        DropReasoningShrinks(h, i + 1, maxBytes);
      }
    }
  }

  lemma {:induction false} DropReasoningComplete(h: seq<Message>, i: nat, maxBytes: nat)
    requires i <= |h|
    ensures var e := DropReasoning(h, i, maxBytes).history;
            && |e| == |h|
            && (forall j :: 0 <= j < |h| ==> e[j].content == h[j].content && e[j].role == h[j].role)
            && (forall j :: 0 <= j < i ==> e[j] == h[j])
            && (HistoryBytes(e) > maxBytes ==> forall j :: i <= j < |h| ==> e[j].reasoning == None)
    decreases |h| - i
  {
    if i < |h| && HistoryBytes(h) > maxBytes {
      if h[i].reasoning.Some? {
        DropReasoningComplete(h[i := h[i].(reasoning := None)], i + 1, maxBytes);
      } else {
        DropReasoningComplete(h, i + 1, maxBytes);
      }
    }
  }

  function Elide(markers: Markers, h: seq<Message>, maxBytes: nat): Edit
  {
    var newest := LastIndexOf(h, ToolRole);
    var a := ElideOlder(markers, h, 0, newest, maxBytes);
    ElideOlderComplete(markers, h, 0, newest, maxBytes);
    var b := TruncateNewest(markers, a.history, newest, maxBytes);
    TruncateNewestShrinks(markers, a.history, newest, maxBytes);
    var c := DropReasoning(b.history, 0, maxBytes);
    Edit(c.history, a.changed + b.changed + c.changed)
  }

  /** Nothing is left to elide: no reasoning, and every tool result but the newest at marker size. */
  predicate Exhausted(markers: Markers, h: seq<Message>)
  {
    && (forall i :: 0 <= i < |h| ==> h[i].reasoning == None)
    && (forall i :: 0 <= i < |h| ==> !Elidable(markers, h, i, LastIndexOf(h, ToolRole)))
  }

  lemma SameLastIndex(h: seq<Message>, h': seq<Message>, role: Role)
    requires KeepsShape(h, h')
    ensures LastIndexOf(h', role) == LastIndexOf(h, role)
  {
    var a, b := LastIndexOf(h, role), LastIndexOf(h', role);
    assert a.Some? ==> SameShape(h[a.value], h'[a.value]);
    assert b.Some? ==> SameShape(h[b.value], h'[b.value]);
  }

  /** Elision keeps every message in place, never grows the history, and counts what it changed. */
  lemma ElideShrinks(markers: Markers, h: seq<Message>, maxBytes: nat)
    ensures Shrinks(h, Elide(markers, h, maxBytes))
  {
    var newest := LastIndexOf(h, ToolRole);
    var a := ElideOlder(markers, h, 0, newest, maxBytes);
    ElideOlderShrinks(markers, h, 0, newest, maxBytes);
    ElideOlderComplete(markers, h, 0, newest, maxBytes);
    var b := TruncateNewest(markers, a.history, newest, maxBytes);
    TruncateNewestShrinks(markers, a.history, newest, maxBytes);
    var c := DropReasoning(b.history, 0, maxBytes);
    DropReasoningShrinks(b.history, 0, maxBytes);
    ShapeTransitive(h, a.history, b.history);
    ShapeTransitive(h, b.history, c.history);
  }

  /** Elision stops only when the history fits or nothing is left to elide. */
  lemma ElideFitsOrExhausts(markers: Markers, h: seq<Message>, maxBytes: nat)
    ensures HistoryBytes(Elide(markers, h, maxBytes).history) <= maxBytes
            || Exhausted(markers, Elide(markers, h, maxBytes).history)
  {
    var newest := LastIndexOf(h, ToolRole);
    var a := ElideOlder(markers, h, 0, newest, maxBytes);
    ElideOlderComplete(markers, h, 0, newest, maxBytes);
    var b := TruncateNewest(markers, a.history, newest, maxBytes);
    TruncateNewestShrinks(markers, a.history, newest, maxBytes);
    var c := DropReasoning(b.history, 0, maxBytes);
    DropReasoningShrinks(b.history, 0, maxBytes);
    DropReasoningComplete(b.history, 0, maxBytes);
    ElideShrinks(markers, h, maxBytes);
    SameLastIndex(h, c.history, ToolRole);
    if HistoryBytes(c.history) > maxBytes {
      forall i | 0 <= i < |h|
        ensures !Elidable(markers, c.history, i, newest)
      {
        assert !Elidable(markers, a.history, i, newest);
      }
    }
  }

  // ----- What elision leaves -----

  /** Every tool result longer than the marker, with a later tool result after it, is the marker exactly when
      the history did not yet fit with those before it elided; nothing else differs. */
  predicate OlderElided(markers: Markers, h: seq<Message>, a: seq<Message>, maxBytes: nat)
  {
    |a| == |h| && forall j :: 0 <= j < |h| ==>
      a[j] == if h[j].role == ToolRole && (exists k :: j < k < |h| && h[k].role == ToolRole)
                 && |h[j].content| > |markers.elided| && HistoryBytes(a[..j] + h[j..]) > maxBytes
              then h[j].(content := markers.elided) else h[j]
  }

  lemma {:induction false} ElideOlderFewest(
    markers: Markers, h: seq<Message>, i: nat, newest: Option<nat>, maxBytes: nat)
    requires i <= |h|
    ensures var e := ElideOlder(markers, h, i, newest, maxBytes).history;
            |e| == |h| && forall j :: 0 <= j < |h| ==>
              e[j] == if i <= j && Elidable(markers, h, j, newest) && HistoryBytes(e[..j] + h[j..]) > maxBytes
                      then h[j].(content := markers.elided) else h[j]
    decreases |h| - i
  {
    hide HistoryBytes;
    var e := ElideOlder(markers, h, i, newest, maxBytes).history;
    if i == |h| || HistoryBytes(h) <= maxBytes {
      forall j | 0 <= j < |h|
        ensures HistoryBytes(e[..j] + h[j..]) == HistoryBytes(h)
      {
        assert e[..j] + h[j..] == h;
      }
    } else {
      ElideOlderComplete(markers, h, i, newest, maxBytes);
      var next := if Elidable(markers, h, i, newest) then h[i := h[i].(content := markers.elided)] else h;
      ElideOlderComplete(markers, next, i + 1, newest, maxBytes);
      ElideOlderFewest(markers, next, i + 1, newest, maxBytes);
      assert e == ElideOlder(markers, next, i + 1, newest, maxBytes).history;
      assert e[..i] + h[i..] == h;
      forall j | i < j < |h|
        ensures e[..j] + h[j..] == e[..j] + next[j..]
                && Elidable(markers, h, j, newest) == Elidable(markers, next, j, newest)
      {
        assert h[j..] == next[j..];
      }
    }
  }

  lemma ElideOlderMeans(markers: Markers, h: seq<Message>, maxBytes: nat)
    ensures OlderElided(markers, h, ElideOlder(markers, h, 0, LastIndexOf(h, ToolRole), maxBytes).history, maxBytes)
  {
    hide HistoryBytes, LastIndexOf;
    ElideOlderFewest(markers, h, 0, LastIndexOf(h, ToolRole), maxBytes);
    forall j | 0 <= j < |h| && h[j].role == ToolRole
      ensures LastIndexOf(h, ToolRole) != Some(j) <==> exists k :: j < k < |h| && h[k].role == ToolRole
    {
      NewestIsLast(h, j);
    }
  }

  lemma NewestIsLast(h: seq<Message>, j: nat)
    requires j < |h| && h[j].role == ToolRole
    ensures LastIndexOf(h, ToolRole) != Some(j) <==> exists k :: j < k < |h| && h[k].role == ToolRole
  {
    var newest := LastIndexOf(h, ToolRole);
    if newest != Some(j) { assert newest.value > j; }
  }

  /** What a history weighs with `content` in place of that of the message at `i`. */
  function Weight(h: seq<Message>, i: nat, content: string): nat
    requires i < |h|
  {
    HistoryBytes(h[..i]) + |content| + HistoryBytes(h[i + 1..])
  }

  /** The newest tool result of a history that does not fit is cut, if it is too long and more than the marker
      fits in its place: to the longest beginning that ends at a character boundary and fits with the marker. */
  ghost predicate NewestCut(markers: Markers, a: seq<Message>, b: seq<Message>, maxBytes: nat)
  {
    var newest := LastIndexOf(a, ToolRole);
    if HistoryBytes(a) > maxBytes && newest.Some?
       && Weight(a, newest.value, markers.truncated) < maxBytes < Weight(a, newest.value, a[newest.value].content)
    then exists cut: nat :: CutAt(markers, a, b, maxBytes, newest.value, cut)
    else b == a
  }

  predicate CutAt(markers: Markers, a: seq<Message>, b: seq<Message>, maxBytes: nat, i: nat, cut: nat)
    requires i < |a|
  {
    var text := a[i].content;
    && cut <= |text| && CharBoundary(text, cut)
    && b == a[i := a[i].(content := text[..cut] + markers.truncated)]
    && Weight(a, i, text[..cut] + markers.truncated) <= maxBytes
    && forall c :: cut < c <= |text| && CharBoundary(text, c) ==> Weight(a, i, text[..c] + markers.truncated) > maxBytes
  }

  lemma TruncateNewestMeans(markers: Markers, a: seq<Message>, maxBytes: nat)
    ensures NewestCut(markers, a, TruncateNewest(markers, a, LastIndexOf(a, ToolRole), maxBytes).history, maxBytes)
  {
    hide HistoryBytes, LastIndexOf;
    var newest := LastIndexOf(a, ToolRole);
    var b := TruncateNewest(markers, a, newest, maxBytes).history;
    if newest.Some? && Truncatable(markers, a, newest, maxBytes) {
      var i := newest.value;
      var text, budget := a[i].content, Allowance(a, i, maxBytes);
      assert CutAt(markers, a, b, maxBytes, i, BoundaryBefore(text, budget - |markers.truncated|));
    }
  }

  /** Reasoning goes, oldest first, exactly while the history does not fit. */
  predicate ReasoningDropped(h: seq<Message>, c: seq<Message>, maxBytes: nat)
  {
    |c| == |h| && forall j :: 0 <= j < |h| ==>
      c[j] == if HistoryBytes(c[..j] + h[j..]) > maxBytes then h[j].(reasoning := None) else h[j]
  }

  lemma {:induction false} DropReasoningFewest(h: seq<Message>, i: nat, maxBytes: nat)
    requires i <= |h|
    ensures var e := DropReasoning(h, i, maxBytes).history;
            |e| == |h| && forall j :: 0 <= j < |h| ==>
              e[j] == if i <= j && HistoryBytes(e[..j] + h[j..]) > maxBytes then h[j].(reasoning := None) else h[j]
    decreases |h| - i
  {
    hide HistoryBytes;
    var e := DropReasoning(h, i, maxBytes).history;
    if i == |h| || HistoryBytes(h) <= maxBytes {
      forall j | 0 <= j < |h|
        ensures HistoryBytes(e[..j] + h[j..]) == HistoryBytes(h)
      {
        assert e[..j] + h[j..] == h;
      }
    } else {
      DropReasoningComplete(h, i, maxBytes);
      var next := h[i := h[i].(reasoning := None)];
      assert h[i].reasoning.None? ==> next == h;
      DropReasoningComplete(next, i + 1, maxBytes);
      DropReasoningFewest(next, i + 1, maxBytes);
      assert e == DropReasoning(next, i + 1, maxBytes).history;
      assert e[..i] + h[i..] == h;
      forall j | i < j < |h|
        ensures e[..j] + h[j..] == e[..j] + next[j..]
      {
        assert h[j..] == next[j..];
      }
    }
  }

  lemma DropReasoningMeans(h: seq<Message>, maxBytes: nat)
    ensures ReasoningDropped(h, DropReasoning(h, 0, maxBytes).history, maxBytes)
  {
    hide HistoryBytes;
    DropReasoningFewest(h, 0, maxBytes);
  }

  /** Elision is three passes, each of which does exactly as much as is needed. */
  lemma ElideMeans(markers: Markers, h: seq<Message>, maxBytes: nat) returns (a: seq<Message>, b: seq<Message>)
    ensures OlderElided(markers, h, a, maxBytes) && NewestCut(markers, a, b, maxBytes)
    ensures ReasoningDropped(b, Elide(markers, h, maxBytes).history, maxBytes)
  {
    hide OlderElided, NewestCut, ReasoningDropped;
    var newest := LastIndexOf(h, ToolRole);
    a := ElideOlder(markers, h, 0, newest, maxBytes).history;
    ElideOlderMeans(markers, h, maxBytes);
    ElideOlderShrinks(markers, h, 0, newest, maxBytes);
    SameLastIndex(h, a, ToolRole);
    b := TruncateNewest(markers, a, newest, maxBytes).history;
    TruncateNewestMeans(markers, a, maxBytes);
    DropReasoningMeans(b, maxBytes);
  }

  // ----- Eviction of whole turns -----

  /** A turn starts at each user message. */
  function TurnStarts(h: seq<Message>): (starts: seq<nat>)
    ensures forall k :: 0 <= k < |starts| ==> starts[k] < |h| && h[starts[k]].role == User
    ensures forall k, l :: 0 <= k < l < |starts| ==> starts[k] < starts[l]
  {
    if h == [] then []
    else
      var before := TurnStarts(h[..|h| - 1]);
      if h[|h| - 1].role == User then before + [|h| - 1] else before
  }

  lemma {:induction false} TurnStartsComplete(h: seq<Message>, i: nat)
    requires i < |h| && h[i].role == User
    ensures i in TurnStarts(h)
  {
    if i < |h| - 1 { TurnStartsComplete(h[..|h| - 1], i); }
  }

  /** The messages before the first user message, which are never removed. */
  function PrefixLength(h: seq<Message>): (n: nat)
    ensures n <= |h|
  {
    var starts := TurnStarts(h);
    if starts == [] then |h| else starts[0]
  }

  predicate FitsFrom(h: seq<Message>, turn: nat, maxBytes: nat)
    requires turn < |TurnStarts(h)|
  {
    HistoryBytes(h[..PrefixLength(h)]) + HistoryBytes(h[TurnStarts(h)[turn]..]) <= maxBytes
  }

  /** The earliest turn from `turn` on that can be kept, or the last one. */
  function KeepFrom(h: seq<Message>, turn: nat, maxBytes: nat): (keep: nat)
    requires turn < |TurnStarts(h)|
    ensures turn <= keep < |TurnStarts(h)|
    ensures forall t :: turn <= t < keep ==> !FitsFrom(h, t, maxBytes)
    ensures FitsFrom(h, keep, maxBytes) || keep == |TurnStarts(h)| - 1
    decreases |TurnStarts(h)| - turn
  {
    if FitsFrom(h, turn, maxBytes) || turn == |TurnStarts(h)| - 1 then turn
    else KeepFrom(h, turn + 1, maxBytes)
  }

  function TurnsRemoved(h: seq<Message>, maxBytes: nat): nat
  {
    if |TurnStarts(h)| < 2 then 0 else KeepFrom(h, 0, maxBytes)
  }

  function Evict(h: seq<Message>, maxBytes: nat): seq<Message>
  {
    var removed := TurnsRemoved(h, maxBytes);
    if removed == 0 then h else h[..PrefixLength(h)] + h[TurnStarts(h)[removed]..]
  }

  /** Whole turns go, so what is left starts where a turn did; at most the newest turn is kept on its own. */
  predicate SingleTurn(h: seq<Message>)
  {
    forall i, j :: 0 <= i < |h| && 0 <= j < |h| && h[i].role == User && h[j].role == User ==> i == j
  }

  lemma NoUserOutsideStarts(h: seq<Message>, i: nat)
    requires i < |h| && h[i].role == User
    ensures TurnStarts(h) != [] && PrefixLength(h) <= i <= TurnStarts(h)[|TurnStarts(h)| - 1]
  {
    TurnStartsComplete(h, i);
    var starts := TurnStarts(h);
    var k :| 0 <= k < |starts| && starts[k] == i;
    assert k > 0 ==> starts[0] < starts[k];
    assert k < |starts| - 1 ==> starts[k] < starts[|starts| - 1];
  }

  /** Eviction leaves a history that fits, or a single turn. */
  lemma EvictFitsOrSingle(h: seq<Message>, maxBytes: nat)
    ensures HistoryBytes(Evict(h, maxBytes)) <= maxBytes || SingleTurn(Evict(h, maxBytes))
  {
    hide HistoryBytes, KeepFrom, TurnStarts, SingleTurn;
    var starts, p := TurnStarts(h), PrefixLength(h);
    if |starts| < 2 {
      FewStartsSingle(h);
    } else {
      var keep := KeepFrom(h, 0, maxBytes);
      var cut := starts[keep];
      assert h[..p] + h[p..] == h;
      BytesConcat(h[..p], h[cut..]);
      if keep == |starts| - 1 {
        LastTurnSingle(h);
      }
    }
  }

  lemma FewStartsSingle(h: seq<Message>)
    requires |TurnStarts(h)| < 2
    ensures SingleTurn(h)
  {
    hide TurnStarts;
    forall i, j | 0 <= i < |h| && 0 <= j < |h| && h[i].role == User && h[j].role == User
      ensures i == j
    {
      NoUserOutsideStarts(h, i);
      NoUserOutsideStarts(h, j);
    }
  }

  lemma LastTurnSingle(h: seq<Message>)
    requires TurnStarts(h) != []
    ensures SingleTurn(h[..PrefixLength(h)] + h[TurnStarts(h)[|TurnStarts(h)| - 1]..])
  {
    var p, cut := PrefixLength(h), TurnStarts(h)[|TurnStarts(h)| - 1];
    var e := h[..p] + h[cut..];
    forall i | 0 <= i < |e| && e[i].role == User
      ensures i == p
    {
      NoUserOutsideStarts(h, if i < p then i else cut + (i - p));
    }
  }

  /** Eviction never grows the history, and removes nothing exactly when it changes nothing. */
  lemma EvictShrinks(h: seq<Message>, maxBytes: nat)
    ensures HistoryBytes(Evict(h, maxBytes)) <= HistoryBytes(h)
    ensures TurnsRemoved(h, maxBytes) == 0 <==> Evict(h, maxBytes) == h
  {
    var removed, p := TurnsRemoved(h, maxBytes), PrefixLength(h);
    if removed > 0 {
      var cut := TurnStarts(h)[removed];
      assert h == h[..p] + h[p..cut] + h[cut..];
      BytesConcat(h[..p] + h[p..cut], h[cut..]);
      BytesConcat(h[..p], h[p..cut]);
      BytesConcat(h[..p], h[cut..]);
    }
  }

  // ----- The compactor -----

  datatype Report = Report(
    messagesBefore: nat,
    messagesAfter: nat,
    bytesBefore: nat,
    bytesAfter: nat,
    turnsRemoved: nat)

  datatype Compacted = Compacted(history: seq<Message>, report: Report)

  /** Evict whole turns, then elide payloads. `None` when nothing was changed. */
  function CompactTo(markers: Markers, h: seq<Message>, maxBytes: nat): Option<Compacted>
  {
    var removed := TurnsRemoved(h, maxBytes);
    var e := Elide(markers, Evict(h, maxBytes), maxBytes);
    if HistoryBytes(h) <= maxBytes || (removed == 0 && e.changed == 0) then None
    else Some(Compacted(e.history, Report(|h|, |e.history|, HistoryBytes(h), HistoryBytes(e.history), removed)))
  }

  function HistoryAfter(h: seq<Message>, compacted: Option<Compacted>): seq<Message>
  {
    if compacted.Some? then compacted.value.history else h
  }

  /** The history after a pass fits, or is one turn with nothing left to elide; it never grew; and a
      report is made exactly when something changed. */
  lemma CompactToSound(markers: Markers, h: seq<Message>, maxBytes: nat)
    ensures var c := CompactTo(markers, h, maxBytes);
            var after := HistoryAfter(h, c);
            && (HistoryBytes(after) <= maxBytes || (SingleTurn(after) && Exhausted(markers, after)))
            && HistoryBytes(after) <= HistoryBytes(h)
            && (c.None? <==> after == h)
            && (HistoryBytes(h) <= maxBytes ==> after == h)
  {
    var evicted := Evict(h, maxBytes);
    var e := Elide(markers, evicted, maxBytes);
    EvictShrinks(h, maxBytes);
    EvictFitsOrSingle(h, maxBytes);
    ElideShrinks(markers, evicted, maxBytes);
    ElideFitsOrExhausts(markers, evicted, maxBytes);
    if SingleTurn(evicted) {
      ShapeSingle(evicted, e.history);
    }
    if TurnsRemoved(h, maxBytes) > 0 {
      EvictShorter(h, maxBytes);
    }
  }

  lemma ShapeSingle(h: seq<Message>, h': seq<Message>)
    requires KeepsShape(h, h') && SingleTurn(h)
    ensures SingleTurn(h')
  {
    forall i, j | 0 <= i < |h'| && 0 <= j < |h'| && h'[i].role == User && h'[j].role == User
      ensures i == j
    {
      assert SameShape(h[i], h'[i]) && SameShape(h[j], h'[j]);
    }
  }

  lemma EvictShorter(h: seq<Message>, maxBytes: nat)
    requires TurnsRemoved(h, maxBytes) > 0
    ensures |Evict(h, maxBytes)| < |h|
  {
  }

  /** Eviction removes the fewest oldest turns that suffice, or all but the last if none do. */
  lemma EvictFewest(h: seq<Message>, maxBytes: nat, fewer: nat)
    requires fewer < TurnsRemoved(h, maxBytes)
    ensures var starts := TurnStarts(h);
            HistoryBytes(h[..PrefixLength(h)] + h[starts[fewer]..]) > maxBytes
  {
    assert !FitsFrom(h, fewer, maxBytes);
    BytesConcat(h[..PrefixLength(h)], h[TurnStarts(h)[fewer]..]);
  }

  /** How many turns a history has. */
  function Turns(h: seq<Message>): nat
  {
    if h == [] then 0 else Turns(h[..|h| - 1]) + (if h[|h| - 1].role == User then 1 else 0)
  }

  lemma {:induction false} TurnsCounted(h: seq<Message>)
    ensures Turns(h) == |TurnStarts(h)|
  {
    if h != [] { TurnsCounted(h[..|h| - 1]); }
  }

  lemma {:induction false} TurnsConcat(a: seq<Message>, b: seq<Message>)
    ensures Turns(a + b) == Turns(a) + Turns(b)
    decreases |b|
  {
    if b == [] {
      assert a + b == a;
    } else {
      assert (a + b)[..|a + b| - 1] == a + b[..|b| - 1];
      TurnsConcat(a, b[..|b| - 1]);
    }
  }

  lemma {:induction false} TurnsBefore(h: seq<Message>, k: nat)
    requires k < |TurnStarts(h)|
    ensures Turns(h[..TurnStarts(h)[k]]) == k
    decreases |h|
  {
    var init := h[..|h| - 1];
    if k < |TurnStarts(init)| {
      TurnsBefore(init, k);
      assert init[..TurnStarts(h)[k]] == h[..TurnStarts(h)[k]];
    } else {
      TurnsCounted(init);
    }
  }

  lemma {:induction false} TurnsSame(h: seq<Message>, h': seq<Message>)
    requires KeepsShape(h, h')
    ensures Turns(h') == Turns(h)
    decreases |h|
  {
    if h != [] {
      var n := |h| - 1;
      assert SameShape(h[n], h'[n]);
      assert forall i :: 0 <= i < n ==> SameShape(h[i], h'[i]);
      TurnsSame(h[..n], h'[..n]);
    }
  }

  lemma EvictTurns(h: seq<Message>, maxBytes: nat)
    ensures Turns(h) == Turns(Evict(h, maxBytes)) + TurnsRemoved(h, maxBytes)
  {
    hide KeepFrom, TurnStarts, Turns;
    var removed, p := TurnsRemoved(h, maxBytes), PrefixLength(h);
    if removed > 0 {
      var cut := TurnStarts(h)[removed];
      TurnsBefore(h, 0);
      TurnsBefore(h, removed);
      TurnsConcat(h[..cut], h[cut..]);
      TurnsConcat(h[..p], h[cut..]);
      assert h[..cut] + h[cut..] == h;
    }
  }

  /** A report is true of the history before and after. */
  lemma ReportTrue(markers: Markers, h: seq<Message>, maxBytes: nat)
    requires CompactTo(markers, h, maxBytes).Some?
    ensures var c := CompactTo(markers, h, maxBytes).value;
            && c.report.messagesBefore == |h| && c.report.messagesAfter == |c.history|
            && c.report.bytesBefore == HistoryBytes(h) && c.report.bytesAfter == HistoryBytes(c.history)
            && c.report.turnsRemoved == Turns(h) - Turns(c.history)
  {
    hide Turns, HistoryBytes, Evict, Elide;
    var evicted := Evict(h, maxBytes);
    EvictTurns(h, maxBytes);
    ElideShrinks(markers, evicted, maxBytes);
    TurnsSame(evicted, Elide(markers, evicted, maxBytes).history);
  }

  // ----- Compaction and the transcript -----

  lemma {:induction false} ReadShape(s: Scan, h: seq<Message>, h': seq<Message>)
    requires KeepsShape(h, h')
    ensures Read(s, h') == Read(s, h)
    decreases |h|
  {
    if h != [] {
      assert SameShape(h[0], h'[0]);
      assert Next(s, h[0]) == Next(s, h'[0]);
      assert KeepsShape(h[1..], h'[1..]) by {
        forall i | 0 <= i < |h| - 1
          ensures SameShape(h[1..][i], h'[1..][i])
        {
          assert SameShape(h[i + 1], h'[i + 1]);
        }
      }
      ReadShape(Next(s, h[0]), h[1..], h'[1..]);
    }
  }

  /** Where a turn starts, everything before it is settled. */
  lemma SettledBeforeUser(h: seq<Message>, i: nat)
    requires i < |h| && h[i].role == User && Read(START, h).Good?
    ensures Read(START, h[..i]) == START
    ensures Read(START, h[i..]) == Read(START, h)
  {
    hide Read;
    var before, rest := Read(START, h[..i]), h[i..];
    assert h == h[..i] + rest && rest[0] == h[i];
    ReadConcat(START, h[..i], rest);
    ReadHead(before, rest);
    ReadBad(rest);
    ReadBad(rest[1..]);
    assert before == START;
  }

  lemma ReadEvict(h: seq<Message>, maxBytes: nat)
    requires Read(START, h).Good?
    ensures Read(START, Evict(h, maxBytes)) == Read(START, h)
  {
    var removed, starts, p := TurnsRemoved(h, maxBytes), TurnStarts(h), PrefixLength(h);
    if removed > 0 {
      SettledBeforeUser(h, starts[0]);
      SettledBeforeUser(h, starts[removed]);
      ReadConcat(START, h[..p], h[starts[removed]..]);
    }
  }

  /** Compaction leaves a well-formed transcript reading exactly as before. */
  lemma ReadCompacted(markers: Markers, h: seq<Message>, maxBytes: nat)
    requires Read(START, h).Good?
    ensures Read(START, HistoryAfter(h, CompactTo(markers, h, maxBytes))) == Read(START, h)
  {
    var evicted := Evict(h, maxBytes);
    ReadEvict(h, maxBytes);
    ElideShrinks(markers, evicted, maxBytes);
    ReadShape(START, evicted, Elide(markers, evicted, maxBytes).history);
  }

  /** Every tool payload from `from` on replaced by the marker and all reasoning dropped. */
  function DropPayloads(markers: Markers, h: seq<Message>, from: nat): (h': seq<Message>)
    ensures |h'| == |h|
    ensures forall i :: 0 <= i < |h| ==> h'[i] == if i < from then h[i] else Dropped(markers, h[i])
  {
    seq(|h|, i requires 0 <= i < |h| => if i < from then h[i] else Dropped(markers, h[i]))
  }

  /** How many messages from `from` on dropping changes. */
  function DropCount(markers: Markers, h: seq<Message>, from: nat): nat
    decreases |h|
  {
    if |h| <= from then 0
    else
      var last := h[|h| - 1];
      DropCount(markers, h[..|h| - 1], from) + (if Dropped(markers, last) != last then 1 else 0)
  }

  function Dropped(markers: Markers, m: Message): Message
  {
    m.(reasoning := None, content := if m.role == ToolRole then markers.dropped else m.content)
  }

  /** No payload is left from `from` on: every tool result is the marker and there is no reasoning; everything
      else is as it was. */
  lemma DroppedMeans(markers: Markers, h: seq<Message>, from: nat)
    ensures var d := DropPayloads(markers, h, from);
            && |d| == |h| && (forall i :: 0 <= i < |h| && i < from ==> d[i] == h[i])
            && forall i :: from <= i < |h| ==>
                 && d[i].reasoning == None && SameShape(h[i], d[i])
                 && (h[i].role == ToolRole ==> d[i].content == markers.dropped)
  {
  }

  /** The count is that of the messages that differ. */
  lemma {:induction false} DropCountMeans(markers: Markers, h: seq<Message>, from: nat) returns (at: seq<nat>)
    ensures Increasing(at, |h|) && |at| == DropCount(markers, h, from)
    ensures forall i :: 0 <= i < |h| ==> (i in at <==> DropPayloads(markers, h, from)[i] != h[i])
    decreases |h|
  {
    hide Dropped, DropPayloads;
    if |h| <= from {
      at := [];
    } else {
      var n := |h| - 1;
      var init := DropCountMeans(markers, h[..n], from);
      at := if Dropped(markers, h[n]) != h[n] then init + [n] else init;
      assert n !in init;
      forall i | 0 <= i < n ensures i in at <==> DropPayloads(markers, h, from)[i] != h[i] {
        assert h[..n][i] == h[i] && (i in at <==> i in init);
      }
    }
  }

  lemma ReadDropped(s: Scan, markers: Markers, h: seq<Message>, from: nat)
    ensures KeepsShape(h, DropPayloads(markers, h, from))
    ensures Read(s, DropPayloads(markers, h, from)) == Read(s, h)
  {
    ReadShape(s, h, DropPayloads(markers, h, from));
  }

  /** A byte budget, or none. */
  datatype Compactor = Compactor(budget: Option<nat>, markers: Markers)
  {
    function Compact(h: seq<Message>): Option<Compacted>
    {
      if budget.None? then None else CompactTo(markers, h, budget.value)
    }

    function OverflowBudget(): nat
      requires budget.Some?
    {
      if budget.value / 2 > MINIMUM_HISTORY_BYTES then budget.value / 2 else MINIMUM_HISTORY_BYTES
    }

    /** The deeper pass after a provider rejected a request as too long. */
    function CompactOverflow(h: seq<Message>): Option<Compacted>
    {
      if budget.None? then None else CompactTo(markers, h, OverflowBudget())
    }

    /** The compaction for the next request, on a copy; skipped when the history already fits. */
    function Stage(h: seq<Message>): Option<Compacted>
    {
      if budget.Some? && HistoryBytes(h) <= budget.value then None else Compact(h)
    }
  }

  /** The pass after an overflow aims at half the budget but not below 1024 bytes: it leaves a history that
      meets either as it is, and makes any other meet one of them or leaves one turn with nothing to elide. */
  lemma OverflowDeeper(c: Compactor, h: seq<Message>)
    requires c.budget.Some?
    ensures var after := HistoryAfter(h, c.CompactOverflow(h));
            && (2 * HistoryBytes(h) <= c.budget.value || HistoryBytes(h) <= 1024 ==> after == h)
            && (|| 2 * HistoryBytes(after) <= c.budget.value || HistoryBytes(after) <= 1024
                || (SingleTurn(after) && Exhausted(c.markers, after)))
  {
    CompactToSound(c.markers, h, c.OverflowBudget());
  }

  lemma CompactorKeepsReading(c: Compactor, h: seq<Message>)
    requires Read(START, h).Good?
    ensures Read(START, HistoryAfter(h, c.Compact(h))) == Read(START, h)
    ensures Read(START, HistoryAfter(h, c.Stage(h))) == Read(START, h)
    ensures Read(START, HistoryAfter(h, c.CompactOverflow(h))) == Read(START, h)
  {
    if c.budget.Some? {
      ReadCompacted(c.markers, h, c.budget.value);
      ReadCompacted(c.markers, h, c.OverflowBudget());
    }
  }
}
