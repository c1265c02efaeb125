/** The request a turn starts with, and when compaction makes it acceptable. */
module Requests {
  import opened Wrappers
  import opened Transcript
  import opened Merging
  import opened Compaction

  /** The history as the next request would carry it. */
  function Staged(c: Compactor, h: seq<Message>): seq<Message>
  {
    HistoryAfter(h, c.Stage(h))
  }

  /** A user message after a user message is refused, whatever records lie between. */
  lemma UserAfterUser(x: seq<Message>, u: Message)
    requires Read(START, x) == Good([], true) && u.role == User
    ensures !Sendable(Merged(x + [u]))
  {
    hide Sendable, Read;
    var h := x + [u];
    ReadSnoc(START, x, u);
    SendableIff(Merged(h));
    if Misplaced(h) > 0 {
      ReadNonSystem(START, x);
      NonSystemConcat(x, [u]);
      assert [u][1..] == [];
      assert NonSystem([u]) == [u];
      ReadSnoc(START, NonSystem(x), u);
      assert Merged(h)[1..] == NonSystem(h);
      ReadHead(START, Merged(h));
    }
  }

  lemma FitsKeepsAll(h: seq<Message>, maxBytes: nat)
    requires HistoryBytes(h) <= maxBytes
    ensures TurnsRemoved(h, maxBytes) == 0
  {
    if |TurnStarts(h)| >= 2 {
      var p := PrefixLength(h);
      assert h == h[..p] + h[p..];
      BytesConcat(h[..p], h[p..]);
      assert FitsFrom(h, 0, maxBytes);
    }
  }

  /** Eviction keeps nothing but the prefix and the newest turn of several. */
  predicate KeepsOnlyNewest(h: seq<Message>, maxBytes: nat)
  {
    |TurnStarts(h)| >= 2 && TurnsRemoved(h, maxBytes) == |TurnStarts(h)| - 1
  }

  /** Compaction for the request keeps nothing but the prefix and the new message's turn. */
  predicate KeepsOnlyNewTurn(c: Compactor, h: seq<Message>)
  {
    c.budget.Some? && KeepsOnlyNewest(h, c.budget.value)
  }

  lemma StagedShape(c: Compactor, h: seq<Message>)
    ensures var evicted := if c.budget.Some? then Evict(h, c.budget.value) else h;
            KeepsShape(evicted, Staged(c, h))
  {
    hide HistoryBytes, Elide, TurnsRemoved;
    if c.budget.Some? {
      var evicted := Evict(h, c.budget.value);
      EvictShrinks(h, c.budget.value);
      ElideShrinks(c.markers, evicted, c.budget.value);
      if HistoryBytes(h) <= c.budget.value {
        FitsKeepsAll(h, c.budget.value);
      }
    }
  }

  lemma StartsSnoc(before: seq<Message>, u: Message)
    requires u.role == User
    ensures TurnStarts(before + [u]) == TurnStarts(before) + [|before|]
  {
    assert (before + [u])[..|before|] == before;
  }

  /** What eviction leaves of a history that ends in a new message. */
  lemma EvictedEndsWith(before: seq<Message>, u: Message, maxBytes: nat) returns (x: seq<Message>)
    requires u.role == User && WellFormed(before)
    ensures Evict(before + [u], maxBytes) == x + [u]
    ensures Read(START, x) == if KeepsOnlyNewest(before + [u], maxBytes) then START else Read(START, before)
  {
    hide KeepFrom, Read, FitsFrom, TurnStarts;
    var h := before + [u];
    StartsSnoc(before, u);
    var starts, earlier, removed := TurnStarts(h), TurnStarts(before), TurnsRemoved(h, maxBytes);
    if removed == 0 {
      x := before;
    } else {
      var p, cut := starts[0], starts[removed];
      assert p == earlier[0] && before[p].role == User;
      x := before[..p] + before[cut..];
      assert h[..p] == before[..p] && h[cut..] == before[cut..] + [u];
      EvictedReading(before, p, cut);
      assert removed < |starts| - 1 ==> cut == earlier[removed];
    }
  }

  lemma EvictedReading(before: seq<Message>, p: nat, cut: nat)
    requires p <= cut <= |before| && p < |before| && before[p].role == User && Read(START, before).Good?
    ensures cut == |before| ==> Read(START, before[..p] + before[cut..]) == START
    ensures cut < |before| && before[cut].role == User ==>
              Read(START, before[..p] + before[cut..]) == Read(START, before)
  {
    hide Read;
    SettledBeforeUser(before, p);
    if cut == |before| {
      assert before[..p] + before[cut..] == before[..p];
    } else if before[cut].role == User {
      SettledBeforeUser(before, cut);
      ReadConcat(START, before[..p], before[cut..]);
    }
  }

  lemma FrontShape(x: seq<Message>, u: Message, staged: seq<Message>)
    requires KeepsShape(x + [u], staged)
    ensures |staged| == |x| + 1 && KeepsShape(x, staged[..|x|]) && SameShape(u, staged[|x|])
    ensures staged == staged[..|x|] + [staged[|x|]]
  {
    assert SameShape((x + [u])[|x|], staged[|x|]);
    forall i | 0 <= i < |x|
      ensures SameShape(x[i], staged[..|x|][i])
    {
      assert SameShape((x + [u])[i], staged[i]);
    }
  }

  /** How a history that ends in a new message reads, given what eviction leaves before that message. */
  lemma EndReading(x: seq<Message>, u: Message, staged: seq<Message>) returns (front: seq<Message>, last: Message)
    requires u.role == User && KeepsShape(x + [u], staged)
    ensures staged == front + [last] && last.role == User && Read(START, front) == Read(START, x)
    ensures Read(START, x) == START ==> Read(START, staged) == Good([], true)
  {
    hide Read, KeepsShape;
    FrontShape(x, u, staged);
    front, last := staged[..|x|], staged[|x|];
    ReadShape(START, x, front);
    ReadSnoc(START, front, last);
  }

  /** A turn may begin: the history is ready, or compaction drops all of it that is not. */
  predicate Fit(c: Compactor, before: seq<Message>, u: Message)
  {
    WellFormed(before) && (Ready(before) || KeepsOnlyNewTurn(c, before + [u]))
  }

  /** The first request of a turn from a well-formed history. */
  lemma FirstStaged(c: Compactor, before: seq<Message>, u: Message)
    requires WellFormed(before) && u.role == User
    ensures Fit(c, before, u) ==> Read(START, Staged(c, before + [u])) == Good([], true)
    ensures !Fit(c, before, u) ==> !Sendable(Merged(Staged(c, before + [u])))
  {
    hide Sendable, Merged, Evict, KeepsOnlyNewest, HistoryBytes, Read, KeepsShape, Staged;
    var h, x := before + [u], before;
    StagedShape(c, h);
    if c.budget.Some? {
      x := EvictedEndsWith(before, u, c.budget.value);
    }
    var front, last := EndReading(x, u, Staged(c, h));
    if !Fit(c, before, u) {
      UserAfterUser(front, last);
    }
  }

  // ----- A first request that overflows -----

  lemma ElideFitting(markers: Markers, h: seq<Message>, maxBytes: nat)
    requires HistoryBytes(h) <= maxBytes
    ensures Elide(markers, h, maxBytes) == Edit(h, 0)
  {
  }

  /** Deeper compaction either keeps only the newest turn or removes whole turns and nothing else. */
  lemma EvictedOrElided(markers: Markers, h: seq<Message>, maxBytes: nat)
    requires !KeepsOnlyNewest(h, maxBytes) && |TurnStarts(h)| >= 2
    ensures HistoryAfter(h, CompactTo(markers, h, maxBytes)) == Evict(h, maxBytes)
  {
    hide HistoryBytes, Elide, TurnStarts;
    var starts, p, keep := TurnStarts(h), PrefixLength(h), KeepFrom(h, 0, maxBytes);
    assert FitsFrom(h, keep, maxBytes);
    BytesConcat(h[..p], h[starts[keep]..]);
    assert keep == 0 ==> h[..p] + h[starts[keep]..] == h;
    assert HistoryBytes(Evict(h, maxBytes)) <= maxBytes;
    ElideFitting(markers, Evict(h, maxBytes), maxBytes);
    EvictShrinks(h, maxBytes);
    if HistoryBytes(h) <= maxBytes { FitsKeepsAll(h, maxBytes); }
  }

  /** No turn before the newest leaves a history that fits. */
  predicate NoneFits(h: seq<Message>, maxBytes: nat)
  {
    forall i :: 0 <= i < |h| - 1 && h[i].role == User ==>
      HistoryBytes(h[..PrefixLength(h)]) + HistoryBytes(h[i..]) > maxBytes
  }

  lemma OnlyNewestIff(h: seq<Message>, maxBytes: nat)
    requires h != [] && h[|h| - 1].role == User && |TurnStarts(h)| >= 2
    ensures KeepsOnlyNewest(h, maxBytes) <==> NoneFits(h, maxBytes)
  {
    hide HistoryBytes;
    var starts, keep := TurnStarts(h), KeepFrom(h, 0, maxBytes);
    var last := |starts| - 1;
    NoUserOutsideStarts(h, |h| - 1);
    assert starts[last] == |h| - 1;
    if keep == last {
      forall i | 0 <= i < |h| - 1 && h[i].role == User
        ensures HistoryBytes(h[..PrefixLength(h)]) + HistoryBytes(h[i..]) > maxBytes
      {
        TurnStartsComplete(h, i);
        var k :| 0 <= k < |starts| && starts[k] == i;
        assert !FitsFrom(h, k, maxBytes);
      }
    } else {
      assert starts[keep] < starts[last] && FitsFrom(h, keep, maxBytes);
    }
  }

  /** What deeper eviction leaves is again compacted to the newest turn alone. */
  lemma EvictedAgain(h: seq<Message>, x: seq<Message>, u: Message, deeper: nat, maxBytes: nat)
    requires h != [] && h[|h| - 1].role == User && |TurnStarts(h)| >= 2
    requires KeepsOnlyNewest(h, maxBytes) && !KeepsOnlyNewest(h, deeper) && Evict(h, deeper) == x + [u]
             && u.role == User
    ensures KeepsOnlyNewest(x + [u], maxBytes)
  {
    hide HistoryBytes, TurnStarts, KeepFrom, FitsFrom;
    var e, p, starts, removed := x + [u], PrefixLength(h), TurnStarts(h), TurnsRemoved(h, deeper);
    OnlyNewestIff(h, maxBytes);
    if removed > 0 {
      var cut := starts[removed];
      assert starts[0] < cut && h[cut].role == User && cut < starts[|starts| - 1];
      assert e == h[..p] + h[cut..] && e[p] == h[cut];
      assert e[|e| - 1] == h[|h| - 1];
      NoUserOutsideStarts(h, |h| - 1);
      EvictedStarts(h, e, p, cut);
      forall i | 0 <= i < |e| - 1 && e[i].role == User
        ensures HistoryBytes(e[..PrefixLength(e)]) + HistoryBytes(e[i..]) > maxBytes
      {
        assert i >= p;
        assert e[i..] == h[cut + (i - p)..] && e[i] == h[cut + (i - p)];
        assert e[..p] == h[..p];
      }
      OnlyNewestIff(e, maxBytes);
    }
  }

  lemma EvictedStarts(h: seq<Message>, e: seq<Message>, p: nat, cut: nat)
    requires p == PrefixLength(h) && p < cut < |h| - 1 && h[cut].role == User && h[|h| - 1].role == User
    requires e == h[..p] + h[cut..]
    ensures PrefixLength(e) == p && |TurnStarts(e)| >= 2
    ensures forall i :: 0 <= i < p ==> e[i].role != User
  {
    hide TurnStarts;
    forall i | 0 <= i < p
      ensures e[i].role != User
    {
      if h[i].role == User { NoUserOutsideStarts(h, i); }
    }
    assert e[p] == h[cut] && e[|e| - 1] == h[|h| - 1];
    NoUserOutsideStarts(e, p);
    NoUserOutsideStarts(e, |e| - 1);
  }

  /** A first request that may be sent may also be sent again after it overflowed. */
  lemma OverflowStaged(c: Compactor, before: seq<Message>, u: Message)
    requires u.role == User && WellFormed(before) && KeepsOnlyNewTurn(c, before + [u])
    ensures var h := before + [u];
            Read(START, Staged(c, HistoryAfter(h, c.CompactOverflow(h)))) == Good([], true)
  {
    hide Evict, KeepsOnlyNewest, HistoryBytes, Read, Elide, CompactTo, TurnStarts;
    var h, deeper := before + [u], c.OverflowBudget();
    var after := HistoryAfter(h, c.CompactOverflow(h));
    var x := EvictedEndsWith(before, u, deeper);
    TwoTurns(h, c.budget.value);
    if KeepsOnlyNewest(h, deeper) {
      OverflowShape(c, h);
      var front, last := EndReading(x, u, after);
      CompactorKeepsReading(c, after);
    } else {
      EvictedOrElided(c.markers, h, deeper);
      EvictedAgain(h, x, u, deeper, c.budget.value);
      FirstStaged(c, x, u);
    }
  }

  lemma TwoTurns(h: seq<Message>, maxBytes: nat)
    requires KeepsOnlyNewest(h, maxBytes)
    ensures |TurnStarts(h)| >= 2
  {
  }

  lemma OverflowShape(c: Compactor, h: seq<Message>)
    requires c.budget.Some?
    ensures KeepsShape(Evict(h, c.OverflowBudget()), HistoryAfter(h, c.CompactOverflow(h)))
  {
    hide HistoryBytes, Elide, TurnsRemoved;
    var deeper := c.OverflowBudget();
    var evicted := Evict(h, deeper);
    EvictShrinks(h, deeper);
    ElideShrinks(c.markers, evicted, deeper);
    if HistoryBytes(h) <= deeper {
      FitsKeepsAll(h, deeper);
    }
  }
}
