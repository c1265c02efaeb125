/** Folding scattered `system` records into the leading message of a provider request. */
module Merging {
  import opened Wrappers
  import opened Text
  import opened Transcript

  function NonSystem(h: seq<Message>): seq<Message>
  {
    if h == [] then []
    else if h[0].role == System then NonSystem(h[1..])
    else [h[0]] + NonSystem(h[1..])
  }

  /** The texts of the system messages, in order. */
  function SystemTexts(h: seq<Message>): seq<string>
  {
    if h == [] then []
    else if h[0].role == System then [h[0].content] + SystemTexts(h[1..])
    else SystemTexts(h[1..])
  }

  predicate HasPrefix(h: seq<Message>)
  {
    h != [] && h[0].role == System
  }

  /** Index 0 is the prefix when it is a system message; every other system message is misplaced. */
  function Misplaced(h: seq<Message>): nat
  {
    if HasPrefix(h) then |SystemTexts(h[1..])| else |SystemTexts(h)|
  }

  /** What the provider is sent in place of `h`. */
  function Merged(h: seq<Message>): seq<Message>
  {
    if Misplaced(h) == 0 then h
    else
      var text := Join(SystemTexts(h), "\n\n");
      [if HasPrefix(h) then h[0].(content := text) else SystemMessage(text)] + NonSystem(h)
  }

  lemma {:induction false} NonSystemConcat(a: seq<Message>, b: seq<Message>)
    ensures NonSystem(a + b) == NonSystem(a) + NonSystem(b)
    ensures SystemTexts(a + b) == SystemTexts(a) + SystemTexts(b)
  {
    if a == [] {
      assert a + b == b;
    } else {
      assert (a + b)[0] == a[0] && (a + b)[1..] == a[1..] + b;
      NonSystemConcat(a[1..], b);
    }
  }

  lemma SystemOne(m: Message)
    ensures NonSystem([m]) == if m.role == System then [] else [m]
    ensures SystemTexts([m]) == if m.role == System then [m.content] else []
  {
    assert [m][1..] == [];
  }

  /** What is merged are the contents of exactly the system messages, in order, and what is left are exactly
      the other messages, in order. */
  lemma {:induction false} SystemMeans(h: seq<Message>)
    returns (systems: seq<Message>, at: seq<nat>, others: seq<nat>)
    ensures Selected(h, (m: Message) => m.role == System, systems, at)
    ensures Selected(h, (m: Message) => m.role != System, NonSystem(h), others)
    ensures |SystemTexts(h)| == |systems| && forall k :: 0 <= k < |systems| ==> SystemTexts(h)[k] == systems[k].content
    decreases |h|
  {
    hide Selected, NonSystem, SystemTexts;
    var records, rest := (m: Message) => m.role == System, (m: Message) => m.role != System;
    if h == [] {
      SystemNone();
      SelectedNone(records);
      SelectedNone(rest);
      systems, at, others := [], [], [];
    } else {
      var init, last := h[..|h| - 1], h[|h| - 1];
      systems, at, others := SystemMeans(init);
      assert h == init + [last];
      NonSystemConcat(init, [last]);
      SystemOne(last);
      SelectedMore(init, records, systems, at, last);
      SelectedMore(init, rest, NonSystem(init), others, last);
      assert NonSystem(init) + [] == NonSystem(init) && SystemTexts(init) + [] == SystemTexts(init);
      if last.role == System {
        systems, at := systems + [last], at + [|init|];
      } else {
        others := others + [|init|];
      }
    }
  }

  lemma SystemNone()
    ensures NonSystem([]) == [] && SystemTexts([]) == []
  {
  }

  lemma {:induction false} NonSystemFree(h: seq<Message>)
    ensures SystemFree(NonSystem(h))
    ensures SystemTexts(h) == [] <==> SystemFree(h)
    ensures SystemTexts(h) == [] ==> NonSystem(h) == h
    ensures SystemTexts(NonSystem(h)) == []
  {
    if h != [] {
      NonSystemFree(h[1..]);
      assert h == [h[0]] + h[1..];
      assert SystemFree(h) <==> h[0].role != System && SystemFree(h[1..]);
      if h[0].role != System {
        var rest := NonSystem(h[1..]);
        assert NonSystem(h) == [h[0]] + rest;
        assert ([h[0]] + rest)[1..] == rest;
      }
    }
  }

  /** Setting records aside does not change how a well-formed history reads. */
  lemma {:induction false} ReadNonSystem(s: Scan, h: seq<Message>)
    requires Read(s, h).Good?
    ensures Read(s, NonSystem(h)) == Read(s, h)
    decreases |h|
  {
    if h != [] {
      ReadBad(h[1..]);
      ReadNonSystem(Next(s, h[0]), h[1..]);
      if h[0].role == System {
        assert Next(s, h[0]) == s;
      } else {
        assert NonSystem(h)[1..] == NonSystem(h[1..]);
      }
    }
  }

  lemma MergedShape(h: seq<Message>)
    ensures SystemOnlyFirst(Merged(h))
    ensures NonSystem(Merged(h)) == NonSystem(h)
    ensures Misplaced(Merged(h)) == 0
    ensures Misplaced(h) > 0 ==> SystemTexts(Merged(h)) == [Join(SystemTexts(h), "\n\n")]
  {
    NonSystemFree(h);
    if Misplaced(h) == 0 {
      if HasPrefix(h) {
        NonSystemFree(h[1..]);
        assert forall i :: 0 < i < |h| ==> h[i] == h[1..][i - 1];
      }
    } else {
      var m := Merged(h);
      assert m[1..] == NonSystem(h);
      NonSystemFree(m[1..]);
      assert forall i :: 0 < i < |m| ==> m[i] == m[1..][i - 1];
    }
  }

  /** Merging reads the same from the start of a conversation. */
  lemma ReadMerged(h: seq<Message>)
    requires Read(START, h).Good?
    ensures Read(START, Merged(h)) == Read(START, h)
  {
    if Misplaced(h) > 0 {
      ReadNonSystem(START, h);
      assert Merged(h)[1..] == NonSystem(h);
    }
  }

  /** Every well-formed history is sent as a request a strict endpoint accepts. */
  lemma MergedSendable(h: seq<Message>)
    requires WellFormed(h)
    ensures Sendable(Merged(h))
  {
    MergedShape(h);
    ReadMerged(h);
    SendableIff(Merged(h));
  }

  /** Merging twice is merging once. */
  lemma MergedIdempotent(h: seq<Message>)
    ensures Merged(Merged(h)) == Merged(h)
  {
    MergedShape(h);
  }

  // ----- The loops of `merge_system_messages` -----

  /** The positions of the system messages from `i` on. */
  function SystemIndices(h: seq<Message>, i: nat): (indices: seq<nat>)
    requires i <= |h|
    ensures forall k :: 0 <= k < |indices| ==> i <= indices[k] < |h|
    decreases |h| - i
  {
    if i == |h| then []
    else if h[i].role == System then [i] + SystemIndices(h, i + 1)
    else SystemIndices(h, i + 1)
  }

  function TextsAt(h: seq<Message>, indices: seq<nat>): seq<string>
    requires forall k :: 0 <= k < |indices| ==> indices[k] < |h|
  {
    if indices == [] then [] else [h[indices[0]].content] + TextsAt(h, indices[1..])
  }

  function RemoveAt(h: seq<Message>, i: nat): seq<Message>
  {
    if i < |h| then h[..i] + h[i + 1..] else h
  }

  /** `h` without the messages at `indices`, the last one removed first. */
  function RemoveAll(h: seq<Message>, indices: seq<nat>): seq<Message>
  {
    if indices == [] then h else RemoveAt(RemoveAll(h, indices[1..]), indices[0])
  }

  lemma RemoveAfter(a: seq<Message>, m: Message, b: seq<Message>)
    ensures RemoveAt(a + [m] + b, |a|) == a + b
  {
    var h := a + [m] + b;
    assert h[..|a|] == a && h[|a| + 1..] == b;
  }

  lemma {:induction false} RemoveSystem(h: seq<Message>, i: nat)
    requires i <= |h|
    ensures RemoveAll(h, SystemIndices(h, i)) == h[..i] + NonSystem(h[i..])
    decreases |h| - i
  {
    hide RemoveAt, RemoveAll, SystemIndices, NonSystem;
    NoMoreIndices(h);
    if i == |h| {
      assert h[..i] + [] == h && h[i..] == [];
    } else {
      RemoveSystem(h, i + 1);
      var rest, later := NonSystem(h[i + 1..]), SystemIndices(h, i + 1);
      IndicesHead(h, i);
      if h[i].role == System {
        RemoveAllCons(h, i, later);
        RemoveAfter(h[..i], h[i], rest);
        assert h[..i + 1] == h[..i] + [h[i]];
      } else {
        assert h[..i + 1] + rest == h[..i] + ([h[i]] + rest);
      }
    }
  }

  lemma NoMoreIndices(h: seq<Message>)
    ensures SystemIndices(h, |h|) == [] && RemoveAll(h, []) == h && NonSystem([]) == []
  {
  }

  lemma IndicesHead(h: seq<Message>, i: nat)
    requires i < |h|
    ensures SystemIndices(h, i) == if h[i].role == System then [i] + SystemIndices(h, i + 1)
            else SystemIndices(h, i + 1)
    ensures NonSystem(h[i..]) == if h[i].role == System then NonSystem(h[i + 1..]) else [h[i]] + NonSystem(h[i + 1..])
  {
    assert h[i..][0] == h[i] && h[i..][1..] == h[i + 1..];
  }

  lemma RemoveAllCons(h: seq<Message>, i: nat, rest: seq<nat>)
    ensures RemoveAll(h, [i] + rest) == RemoveAt(RemoveAll(h, rest), i)
  {
    assert ([i] + rest)[1..] == rest;
  }

  lemma {:induction false} SystemTextsAt(h: seq<Message>, i: nat)
    requires i <= |h|
    ensures TextsAt(h, SystemIndices(h, i)) == SystemTexts(h[i..])
    ensures |SystemIndices(h, i)| == |SystemTexts(h[i..])|
    decreases |h| - i
  {
    if i < |h| {
      SystemTextsAt(h, i + 1);
      assert h[i..][1..] == h[i + 1..];
      if h[i].role == System {
        assert SystemIndices(h, i)[1..] == SystemIndices(h, i + 1);
      }
    }
  }

  /** What follows the k-th index are the system messages after it. */
  lemma {:induction false} IndicesAfter(h: seq<Message>, i: nat, k: nat)
    requires i <= |h| && k < |SystemIndices(h, i)|
    ensures SystemIndices(h, i)[k + 1..] == SystemIndices(h, SystemIndices(h, i)[k] + 1)
    decreases |h| - i
  {
    var all, rest := SystemIndices(h, i), SystemIndices(h, i + 1);
    if h[i].role == System {
      if k > 0 {
        IndicesAfter(h, i + 1, k - 1);
        assert all[k + 1..] == rest[k..];
      }
    } else {
      assert all == rest;
      IndicesAfter(h, i + 1, k);
    }
  }

  method CollectIndices(h: seq<Message>, first: nat) returns (indices: seq<nat>)
    requires first <= |h|
    ensures indices == SystemIndices(h, first)
  {
    indices := [];
    for i := first to |h|
      invariant indices + SystemIndices(h, i) == SystemIndices(h, first)
    {
      if h[i].role == System { indices := indices + [i]; }
    }
  }

  method CollectTexts(h: seq<Message>, indices: seq<nat>) returns (texts: seq<string>)
    requires forall k :: 0 <= k < |indices| ==> indices[k] < |h|
    ensures texts == TextsAt(h, indices)
  {
    texts := [];
    assert indices[0..] == indices;
    for k := 0 to |indices|
      invariant texts + TextsAt(h, indices[k..]) == TextsAt(h, indices)
    {
      assert indices[k..][1..] == indices[k + 1..];
      texts := texts + [h[indices[k]].content];
    }
  }

  method RemoveMisplaced(h: seq<Message>, first: nat, misplaced: seq<nat>) returns (history: seq<Message>)
    requires first <= |h| && misplaced == SystemIndices(h, first)
    ensures history == h[..first] + NonSystem(h[first..])
  {
    hide SystemTexts, TextsAt;
    history := h;
    var k := |misplaced|;
    while k > 0
      invariant 0 <= k <= |misplaced|
      invariant history == RemoveAll(h, misplaced[k..])
    {
      k := k - 1;
      IndicesAfter(h, first, k);
      RemoveSystem(h, misplaced[k] + 1);
      assert history == h[..misplaced[k] + 1] + NonSystem(h[misplaced[k] + 1..]);
      history := history[..misplaced[k]] + history[misplaced[k] + 1..];
      assert misplaced[k..][1..] == misplaced[k + 1..];
    }
    RemoveSystem(h, first);
    assert history == RemoveAll(h, misplaced) by { assert misplaced[0..] == misplaced; }
  }

  method MergeSystemMessages(h: seq<Message>) returns (history: seq<Message>, merged: nat)
    ensures history == Merged(h)
    ensures merged == Misplaced(h)
  {
    hide SystemIndices, TextsAt, RemoveAll, Join;
    var first := if HasPrefix(h) then 1 else 0;
    var misplaced := CollectIndices(h, first);
    RemoveSystem(h, first);
    SystemTextsAt(h, first);
    assert h[0..] == h;
    merged := |misplaced|;
    if misplaced == [] { return h, merged; }
    var sections := CollectTexts(h, misplaced);
    history := RemoveMisplaced(h, first, misplaced);
    if HasPrefix(h) {
      history := history[0 := history[0].(content := Join([h[0].content] + sections, "\n\n"))];
    } else {
      history := [SystemMessage(Join(sections, "\n\n"))] + history;
    }
  }
}
