/** The in-place passes over a history, with the running byte total they keep. */
module HistoryBuffers {
  import opened Wrappers
  import opened Transcript
  import opened Compaction

  class HistoryBuffer {
    var messages: seq<Message>

    constructor (messages: seq<Message>)
      ensures this.messages == messages
    {
      this.messages := messages;
    }

    /** Elide older tool results, oldest first, while the running total exceeds the budget. */
    method ElideOlderResults(markers: Markers, newest: Option<nat>, maxBytes: nat) returns (total: nat, changed: nat)
      modifies this
      ensures Edit(messages, changed) == ElideOlder(markers, old(messages), 0, newest, maxBytes)
      ensures newest == LastIndexOf(old(messages), ToolRole) ==>
                OlderElided(markers, old(messages), messages, maxBytes)
      ensures total == HistoryBytes(messages)
    {
      hide OlderElided;
      ElideOlderMeans(markers, messages, maxBytes);
      total, changed := HistoryBytes(messages), 0;
      ghost var whole := ElideOlder(markers, messages, 0, newest, maxBytes);
      var i := 0;
      while i < |messages| && total > maxBytes
        invariant i <= |messages|
        invariant total == HistoryBytes(messages)
        invariant var rest := ElideOlder(markers, messages, i, newest, maxBytes);
                  whole == Edit(rest.history, changed + rest.changed)
      {
        if Elidable(markers, messages, i, newest) {
          var m := messages[i].(content := markers.elided);
          BytesAround(messages, i);
          BytesUpdate(messages, i, m);
          total := total - |messages[i].content|;
          total := total + |m.content|;
          messages := messages[i := m];
          changed := changed + 1;
        }
        i := i + 1;
      }
    }

    /** Cut the newest tool result to what the budget leaves for it, at a character boundary. */
    method TruncateNewestResult(markers: Markers, newest: Option<nat>, maxBytes: nat, before: nat)
      returns (total: nat, changed: nat)
      requires newest.Some? ==> newest.value < |messages|
      requires before == HistoryBytes(messages)
      modifies this
      ensures Edit(messages, changed) == TruncateNewest(markers, old(messages), newest, maxBytes)
      ensures newest == LastIndexOf(old(messages), ToolRole) ==>
                NewestCut(markers, old(messages), messages, maxBytes)
      ensures total == HistoryBytes(messages)
    {
      hide NewestCut, HistoryBytes, LastIndexOf;
      TruncateNewestMeans(markers, messages, maxBytes);
      total, changed := before, 0;
      if total > maxBytes && newest.Some? {
        var i := newest.value;
        BytesAround(messages, i);
        var others := total - MessageBytes(messages[i]);
        var budget := if others >= maxBytes then 0 else maxBytes - others;
        var content := messages[i].content;
        if |content| > budget > |markers.truncated| {
          var cut := budget - |markers.truncated|;
          ghost var start := cut;
          while cut > 0 && !CharBoundary(content, cut)
            invariant 0 <= cut <= |content|
            invariant BoundaryBefore(content, cut) == BoundaryBefore(content, start)
          {
            cut := cut - 1;
          }
          var m := messages[i].(content := content[..cut] + markers.truncated);
          BytesUpdate(messages, i, m);
          total := total - |content|;
          total := total + |m.content|;
          messages := messages[i := m];
          changed := 1;
        }
      }
    }

    method DropReasoningReplay(maxBytes: nat, before: nat) returns (total: nat, changed: nat)
      requires before == HistoryBytes(messages)
      modifies this
      ensures Edit(messages, changed) == DropReasoning(old(messages), 0, maxBytes)
      ensures ReasoningDropped(old(messages), messages, maxBytes)
      ensures total == HistoryBytes(messages)
    {
      hide ReasoningDropped;
      DropReasoningMeans(messages, maxBytes);
      total, changed := before, 0;
      ghost var whole := DropReasoning(messages, 0, maxBytes);
      var i := 0;
      while i < |messages| && total > maxBytes
        invariant i <= |messages|
        invariant total == HistoryBytes(messages)
        invariant var rest := DropReasoning(messages, i, maxBytes);
                  whole == Edit(rest.history, changed + rest.changed)
      {
        if messages[i].reasoning.Some? {
          var m := messages[i].(reasoning := None);
          BytesAround(messages, i);
          BytesUpdate(messages, i, m);
          total := total - |messages[i].reasoning.value|;
          messages := messages[i := m];
          changed := changed + 1;
        }
        i := i + 1;
      }
    }

    /** All three passes; returns the number of payloads changed. */
    method ElideOversizedBodies(markers: Markers, maxBytes: nat) returns (changed: nat)
      modifies this
      ensures Edit(messages, changed) == Elide(markers, old(messages), maxBytes)
    {
      if HistoryBytes(messages) <= maxBytes {
        return 0;
      }
      var newest := LastIndexOf(messages, ToolRole);
      ElideOlderComplete(markers, messages, 0, newest, maxBytes);
      var total, elided := ElideOlderResults(markers, newest, maxBytes);
      TruncateNewestShrinks(markers, messages, newest, maxBytes);
      var rest, truncated := TruncateNewestResult(markers, newest, maxBytes, total);
      var left, dropped := DropReasoningReplay(maxBytes, rest);
      changed := elided + truncated + dropped;
    }

    /** Replace every tool payload from `from` on and drop the reasoning there. */
    method DropToolPayloads(markers: Markers, from: nat) returns (changed: nat)
      modifies this
      ensures messages == DropPayloads(markers, old(messages), from)
      ensures changed == DropCount(markers, old(messages), from)
    {
      hide Dropped, DropPayloads;
      changed := 0;
      var i := from;
      while i < |messages|
        invariant from <= i
        invariant |messages| == |old(messages)|
        invariant forall j :: 0 <= j < |messages| ==>
                    messages[j] == if from <= j < i then Dropped(markers, old(messages)[j]) else old(messages)[j]
        invariant i <= |messages| ==> changed == DropCount(markers, old(messages)[..i], from)
        invariant i > |messages| ==> changed == 0 == DropCount(markers, old(messages), from)
      {
        assert old(messages)[..i + 1][..i] == old(messages)[..i];
        if messages[i] != Dropped(markers, messages[i]) {
          changed := changed + 1;
        }
        messages := messages[i := Dropped(markers, messages[i])];
        i := i + 1;
      }
      assert old(messages)[..|old(messages)|] == old(messages);
    }

    /** Where turns start, in one scan. */
    method FindTurnStarts() returns (prefix: nat, starts: seq<nat>)
      ensures prefix == PrefixLength(messages) && starts == TurnStarts(messages)
    {
      starts := [];
      for i := 0 to |messages|
        invariant starts == TurnStarts(messages[..i])
      {
        assert messages[..i + 1][..i] == messages[..i];
        if messages[i].role == User {
          starts := starts + [i];
        }
      }
      assert messages[..|messages|] == messages;
      prefix := if starts == [] then |messages| else starts[0];
    }

    /** Drop the oldest whole turns, then elide, until the history fits. */
    method Compact(markers: Markers, maxBytes: nat) returns (report: Option<Report>)
      modifies this
      ensures var c := CompactTo(markers, old(messages), maxBytes);
              && messages == HistoryAfter(old(messages), c)
              && report == if c.Some? then Some(c.value.report) else None
    {
      ghost var before := messages;
      CompactToSound(markers, before, maxBytes);
      var bytesBefore, messagesBefore := HistoryBytes(messages), |messages|;
      if bytesBefore <= maxBytes {
        return None;
      }
      var prefix, starts := FindTurnStarts();
      var turnsRemoved := 0;
      if |starts| >= 2 {
        var keep := 0;
        while keep < |starts| - 1
              && HistoryBytes(messages[..prefix]) + HistoryBytes(messages[starts[keep]..]) > maxBytes
          invariant keep < |starts|
          invariant KeepFrom(messages, 0, maxBytes) == KeepFrom(messages, keep, maxBytes)
        {
          keep := keep + 1;
        }
        if keep > 0 {
          messages := messages[..prefix] + messages[starts[keep]..];
          turnsRemoved := keep;
        }
      }
      assert messages == Evict(before, maxBytes) && turnsRemoved == TurnsRemoved(before, maxBytes);
      ElideShrinks(markers, messages, maxBytes);
      var elided := ElideOversizedBodies(markers, maxBytes);
      if turnsRemoved == 0 && elided == 0 {
        return None;
      }
      return Some(Report(messagesBefore, |messages|, bytesBefore, HistoryBytes(messages), turnsRemoved));
    }
  }
}
