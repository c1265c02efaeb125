/** What any number of compactions leaves of a transcript that was never compacted. */
module Retention {
  import opened Wrappers
  import opened Transcript
  import opened Compaction

  /** The first user message is at `p`. */
  predicate FirstUserAt(full: seq<Message>, p: nat)
  {
    p < |full| && full[p].role == User && forall i :: 0 <= i < p ==> full[i].role != User
  }

  /** `h` is the part of `full` before its first turn and all of it from the turn that starts at `cut`,
      message by message; only tool results and reasoning may be shortened. */
  predicate RetainsFrom(full: seq<Message>, p: nat, cut: nat, h: seq<Message>)
  {
    && FirstUserAt(full, p)
    && p <= cut < |full| && full[cut].role == User
    && KeepsShape(full[..p] + full[cut..], h)
  }

  ghost predicate Retains(full: seq<Message>, h: seq<Message>)
  {
    exists p: nat, cut: nat :: RetainsFrom(full, p, cut, h)
  }

  lemma {:induction false} FirstUser(full: seq<Message>, i: nat) returns (p: nat)
    requires i < |full| && full[i].role == User
    ensures p <= i && FirstUserAt(full, p)
  {
    if exists j :: 0 <= j < i && full[j].role == User {
      var j :| 0 <= j < i && full[j].role == User;
      p := FirstUser(full, j);
    } else {
      p := i;
    }
  }

  lemma SameShapeSelf(h: seq<Message>)
    ensures KeepsShape(h, h)
  {
  }

  /** A transcript with a user message retains itself. */
  lemma RetainsSelf(full: seq<Message>, i: nat)
    requires i < |full| && full[i].role == User
    ensures Retains(full, full)
  {
    var p := FirstUser(full, i);
    assert full[..p] + full[p..] == full;
    SameShapeSelf(full);
    assert RetainsFrom(full, p, p, full);
  }

  lemma ShapeConcat(a: seq<Message>, b: seq<Message>, c: seq<Message>, d: seq<Message>)
    requires KeepsShape(a, b) && KeepsShape(c, d)
    ensures KeepsShape(a + c, b + d)
  {
    forall i | 0 <= i < |a + c|
      ensures SameShape((a + c)[i], (b + d)[i])
    {
      if i < |a| { assert SameShape(a[i], b[i]); } else { assert SameShape(c[i - |a|], d[i - |a|]); }
    }
  }

  lemma ShapeSlice(a: seq<Message>, b: seq<Message>, from: nat, to: nat)
    requires KeepsShape(a, b) && from <= to <= |a|
    ensures KeepsShape(a[from..to], b[from..to])
  {
    forall i | 0 <= i < to - from
      ensures SameShape(a[from..to][i], b[from..to][i])
    {
      assert SameShape(a[from + i], b[from + i]);
    }
  }

  /** What is appended to both is retained. */
  lemma RetainsConcat(full: seq<Message>, h: seq<Message>, more: seq<Message>)
    requires Retains(full, h)
    ensures Retains(full + more, h + more)
  {
    var p, cut := RetainedAt(full, h);
    SameShapeSelf(more);
    ShapeConcat(full[..p] + full[cut..], h, more, more);
    assert (full + more)[..p] + (full + more)[cut..] == full[..p] + full[cut..] + more;
    assert RetainsFrom(full + more, p, cut, h + more);
  }

  lemma RetainsShape(full: seq<Message>, h: seq<Message>, h': seq<Message>)
    requires Retains(full, h) && KeepsShape(h, h')
    ensures Retains(full, h')
  {
    var p, cut := RetainedAt(full, h);
    ShapeTransitive(full[..p] + full[cut..], h, h');
    assert RetainsFrom(full, p, cut, h');
  }

  lemma PrefixOfRetained(full: seq<Message>, p: nat, cut: nat, h: seq<Message>)
    requires RetainsFrom(full, p, cut, h)
    ensures p < |h| && TurnStarts(h) != [] && PrefixLength(h) == p
  {
    var g := full[..p] + full[cut..];
    assert g[p] == full[cut] && SameShape(g[p], h[p]);
    forall i | 0 <= i < p
      ensures h[i].role != User
    {
      assert g[i] == full[i] && SameShape(g[i], h[i]);
    }
    NoUserOutsideStarts(h, p);
  }

  /** The newest message is always retained. */
  lemma RetainsLast(full: seq<Message>, h: seq<Message>)
    requires Retains(full, h)
    ensures full != [] && h != [] && SameShape(full[|full| - 1], h[|h| - 1])
  {
    var p, cut := RetainedAt(full, h);
    var g := full[..p] + full[cut..];
    assert g[|g| - 1] == full[|full| - 1] && SameShape(g[|g| - 1], h[|g| - 1]);
  }

  /** Dropping the oldest turns of what is retained drops turns of the transcript. */
  lemma RetainsLater(full: seq<Message>, p: nat, cut: nat, h: seq<Message>, at: nat)
    requires RetainsFrom(full, p, cut, h) && p <= at < |h| && h[at].role == User
    ensures Retains(full, h[..p] + h[at..])
  {
    var g, later := full[..p] + full[cut..], cut + (at - p);
    assert |g| == |h| && g[at] == full[later] && SameShape(g[at], h[at]);
    ShapeSlice(g, h, 0, p);
    ShapeSlice(g, h, at, |h|);
    assert g[0..p] == full[..p] && g[at..|h|] == full[later..];
    assert h[0..p] == h[..p] && h[at..|h|] == h[at..];
    ShapeConcat(full[..p], h[..p], full[later..], h[at..]);
    assert RetainsFrom(full, p, later, h[..p] + h[at..]);
  }

  lemma RetainsEvicted(full: seq<Message>, h: seq<Message>, maxBytes: nat)
    requires Retains(full, h)
    ensures Retains(full, Evict(h, maxBytes))
  {
    hide KeepsShape, Retains;
    var p, cut := RetainedAt(full, h);
    PrefixOfRetained(full, p, cut, h);
    var removed := TurnsRemoved(h, maxBytes);
    if removed > 0 {
      var starts := TurnStarts(h);
      assert starts[0] == p && starts[0] < starts[removed];
      RetainsLater(full, p, cut, h, starts[removed]);
    }
  }

  lemma RetainedAt(full: seq<Message>, h: seq<Message>) returns (p: nat, cut: nat)
    requires Retains(full, h)
    ensures RetainsFrom(full, p, cut, h)
  {
    p, cut :| RetainsFrom(full, p, cut, h);
  }

  lemma RetainsCompactTo(markers: Markers, full: seq<Message>, h: seq<Message>, maxBytes: nat)
    requires Retains(full, h)
    ensures Retains(full, HistoryAfter(h, CompactTo(markers, h, maxBytes)))
  {
    hide Retains, Evict, Elide, HistoryBytes, TurnsRemoved;
    var evicted := Evict(h, maxBytes);
    RetainsEvicted(full, h, maxBytes);
    ElideShrinks(markers, evicted, maxBytes);
    RetainsShape(full, evicted, Elide(markers, evicted, maxBytes).history);
  }

  /** However often and for whatever reason a transcript is compacted, whole turns go and the rest stays. */
  lemma RetainsCompacted(c: Compactor, full: seq<Message>, h: seq<Message>)
    requires Retains(full, h)
    ensures Retains(full, HistoryAfter(h, c.Compact(h)))
    ensures Retains(full, HistoryAfter(h, c.Stage(h)))
    ensures Retains(full, HistoryAfter(h, c.CompactOverflow(h)))
  {
    hide Retains, CompactTo, HistoryBytes;
    if c.budget.Some? {
      RetainsCompactTo(c.markers, full, h, c.budget.value);
      RetainsCompactTo(c.markers, full, h, c.OverflowBudget());
    }
  }

  /** Dropped payloads are still on record. */
  lemma RetainsDropped(full: seq<Message>, markers: Markers, h: seq<Message>, from: nat)
    requires Retains(full, h)
    ensures Retains(full, DropPayloads(markers, h, from))
  {
    hide Retains;
    ReadDropped(START, markers, h, from);
    RetainsShape(full, h, DropPayloads(markers, h, from));
  }
}
