/** Ids for tool calls that are unique within a root turn. */
module CallIdentifiers {
  import opened Wrappers
  import opened Text
  import opened Transcript

  function Base(id: string): string
  {
    if id == [] then "call" else id
  }

  function FirstSuffix(id: string): nat
  {
    if id == [] then 1 else 2
  }

  function Candidate(id: string, suffix: nat): string
  {
    Base(id) + ['~'] + Decimal(suffix)
  }

  lemma CandidateInjective(id: string, m: nat, n: nat)
    requires Candidate(id, m) == Candidate(id, n)
    ensures m == n
  {
    var a, b := Candidate(id, m), Candidate(id, n);
    assert a[|Base(id)| + 1..] == Decimal(m) && b[|Base(id)| + 1..] == Decimal(n);
    DecimalInjective(m, n);
  }

  /** `raw` is the id that `id` becomes when `seen` have been issued: itself if it can be kept,
      and otherwise the candidate with the least unused suffix. */
  ghost predicate Disambiguates(seen: set<string>, id: string, raw: string)
  {
    if id != [] && id !in seen then raw == id
    else exists n: nat :: Least(seen, id, raw, n)
  }

  ghost predicate Least(seen: set<string>, id: string, raw: string, n: nat)
  {
    && n >= FirstSuffix(id)
    && raw == Candidate(id, n)
    && raw !in seen
    && forall k :: FirstSuffix(id) <= k < n ==> Candidate(id, k) in seen
  }

  /** The id a call gets is determined by the ids already issued. */
  lemma DisambiguationUnique(seen: set<string>, id: string, a: string, b: string)
    requires Disambiguates(seen, id, a) && Disambiguates(seen, id, b)
    ensures a == b
  {
    if id == [] || id in seen {
      var m: nat :| Least(seen, id, a, m);
      var n: nat :| Least(seen, id, b, n);
      assert m < n ==> Candidate(id, m) in seen;
      assert n < m ==> Candidate(id, n) in seen;
    }
  }

  /** An id that was issued before gets the least unused number from 2 on, and a call without an id is
      `call` with the least unused number from 1 on. */
  lemma DisambiguatesMeans(seen: set<string>, id: string, raw: string)
    ensures id != "" && id !in seen ==> (Disambiguates(seen, id, raw) <==> raw == id)
    ensures id != "" && id in seen ==>
              (Disambiguates(seen, id, raw) <==>
                 exists n: nat :: n >= 2 && raw == Tagged(id, n) && raw !in seen
                                  && forall k: nat :: 2 <= k < n ==> Tagged(id, k) in seen)
    ensures id == "" ==>
              (Disambiguates(seen, id, raw) <==>
                 exists n: nat :: n >= 1 && raw == Tagged("call", n) && raw !in seen
                                  && forall k: nat :: 1 <= k < n ==> Tagged("call", k) in seen)
  {
    hide Decimal;
    var base, first := if id == "" then "call" else id, if id == "" then 1 else 2;
    forall n: nat
      ensures Candidate(id, n) == Tagged(base, n)
    {
      assert Base(id) == base;
    }
    if (id == "" || id in seen) && Disambiguates(seen, id, raw) {
      var n: nat :| Least(seen, id, raw, n);
      assert n >= first && raw == Tagged(base, n) && forall k: nat :: first <= k < n ==> Tagged(base, k) in seen;
    }
    if id == "" || id in seen {
      if n: nat :| n >= first && raw == Tagged(base, n) && raw !in seen
                   && forall k: nat :: first <= k < n ==> Tagged(base, k) in seen {
        assert Least(seen, id, raw, n);
      }
    }
  }

  function Tagged(id: string, n: nat): string
  {
    id + "~" + Decimal(n)
  }

  function Scoped(scope: Option<string>, raw: string): string
  {
    if scope.Some? then scope.value + ['/'] + raw else raw
  }

  lemma ScopedInjective(scope: Option<string>, a: string, b: string)
    requires Scoped(scope, a) == Scoped(scope, b)
    ensures a == b
  {
    if scope.Some? {
      assert Scoped(scope, a)[|scope.value| + 1..] == a && Scoped(scope, b)[|scope.value| + 1..] == b;
    }
  }

  predicate Distinct(ids: seq<string>)
  {
    forall i, j :: 0 <= i < j < |ids| ==> ids[i] != ids[j]
  }

  function Ids(calls: seq<ToolCall>): (ids: seq<string>)
    ensures |ids| == |calls|
    ensures forall i :: 0 <= i < |calls| ==> ids[i] == calls[i].id
  {
    seq(|calls|, i requires 0 <= i < |calls| => calls[i].id)
  }

  function ScopedAll(scope: Option<string>, raws: seq<string>): (ids: seq<string>)
    ensures |ids| == |raws|
    ensures forall i :: 0 <= i < |raws| ==> ids[i] == Scoped(scope, raws[i])
  {
    seq(|raws|, i requires 0 <= i < |raws| => Scoped(scope, raws[i]))
  }

  ghost predicate InScope(scope: Option<string>, id: string)
  {
    exists raw :: id == Scoped(scope, raw)
  }

  lemma ScopedAllDistinct(scope: Option<string>, raws: seq<string>)
    requires Distinct(raws)
    ensures Distinct(ScopedAll(scope, raws))
  {
    forall i, j | 0 <= i < j < |raws|
      ensures Scoped(scope, raws[i]) != Scoped(scope, raws[j])
    {
      if Scoped(scope, raws[i]) == Scoped(scope, raws[j]) { ScopedInjective(scope, raws[i], raws[j]); }
    }
  }

  /** Each id is the first one kept or the least disambiguation of its original, given those before it. */
  ghost predicate Disambiguated(originals: seq<string>, raws: seq<string>)
  {
    |originals| == |raws| && forall i :: 0 <= i < |raws| ==> Disambiguates(Members(raws[..i]), originals[i], raws[i])
  }

  function Members(ids: seq<string>): set<string>
  {
    set id | id in ids
  }

  lemma DisambiguatedMore(originals: seq<string>, raws: seq<string>, id: string, raw: string)
    requires Disambiguated(originals, raws) && Disambiguates(Members(raws), id, raw)
    ensures Disambiguated(originals + [id], raws + [raw])
  {
    hide Disambiguates, Members;
    var more := raws + [raw];
    assert more[..|raws|] == raws;
    forall i | 0 <= i < |more|
      ensures Disambiguates(Members(more[..i]), (originals + [id])[i], more[i])
    {
      if i < |raws| { assert more[..i] == raws[..i]; }
    }
  }

  /** The ids an agent with that scope issues for calls whose provider ids are `originals`. */
  ghost predicate Renamed(scope: Option<string>, originals: seq<string>, ids: seq<string>)
  {
    exists raws :: Disambiguated(originals, raws) && ids == ScopedAll(scope, raws)
  }

  /** The issued ids are determined by the provider's. */
  lemma RenamedUnique(scope: Option<string>, originals: seq<string>, a: seq<string>, b: seq<string>)
    requires Renamed(scope, originals, a) && Renamed(scope, originals, b)
    ensures a == b
  {
    var x :| Disambiguated(originals, x) && a == ScopedAll(scope, x);
    var y :| Disambiguated(originals, y) && b == ScopedAll(scope, y);
    DisambiguatedUnique(originals, x, y, |x|);
    assert x[..|x|] == x && y[..|x|] == y;
  }

  lemma {:induction false} DisambiguatedUnique(originals: seq<string>, x: seq<string>, y: seq<string>, n: nat)
    requires Disambiguated(originals, x) && Disambiguated(originals, y) && n <= |x|
    ensures x[..n] == y[..n]
  {
    hide Disambiguates, Members;
    if n > 0 {
      DisambiguatedUnique(originals, x, y, n - 1);
      DisambiguationUnique(Members(x[..n - 1]), originals[n - 1], x[n - 1], y[n - 1]);
      assert x[..n] == x[..n - 1] + [x[n - 1]] && y[..n] == y[..n - 1] + [y[n - 1]];
    }
  }

  predicate ScopedCopies(calls: seq<ToolCall>, scoped: seq<ToolCall>)
  {
    |calls| == |scoped| && forall k :: 0 <= k < |calls| ==> scoped[k] == calls[k].(id := scoped[k].id)
  }

  lemma ScopedConcat(a: seq<ToolCall>, b: seq<ToolCall>, c: seq<ToolCall>, d: seq<ToolCall>)
    requires ScopedCopies(a, b) && ScopedCopies(c, d)
    ensures ScopedCopies(a + c, b + d)
  {
  }

  class CallIds {
    const scope: Option<string>
    var seen: set<string>
    /** The unscoped ids issued so far, in order, and the provider ids they were issued for. */
    ghost var raws: seq<string>
    ghost var originals: seq<string>

    ghost predicate Valid()
      reads this
    {
      Distinct(raws) && seen == Members(raws) && Disambiguated(originals, raws)
    }

    /** Every scoped id issued so far, in order. */
    ghost function Issued(): seq<string>
      reads this
    {
      ScopedAll(scope, raws)
    }

    constructor (scope: Option<string>)
      ensures Valid() && this.scope == scope && seen == {} && Issued() == [] && originals == []
    {
      this.scope := scope;
      seen := {};
      raws, originals := [], [];
    }

    /** The least unused suffix; the search ends because `seen` is finite. */
    method UnusedSuffix(id: string) returns (suffix: nat)
      ensures Least(seen, id, Candidate(id, suffix), suffix)
    {
      suffix := FirstSuffix(id);
      ghost var tried := {};
      while Candidate(id, suffix) in seen
        invariant suffix >= FirstSuffix(id) && tried <= seen
        invariant forall k :: FirstSuffix(id) <= k < suffix ==> Candidate(id, k) in seen
        invariant forall k :: suffix <= k ==> Candidate(id, k) !in tried
        decreases seen - tried
      {
        forall k | suffix < k
          ensures Candidate(id, k) != Candidate(id, suffix)
        {
          if Candidate(id, k) == Candidate(id, suffix) { CandidateInjective(id, k, suffix); }
        }
        tried := tried + {Candidate(id, suffix)};
        suffix := suffix + 1;
      }
    }

    /** A copy of `call` carrying its turn-unique scoped id. */
    method Scope(call: ToolCall) returns (scoped: ToolCall, ghost raw: string)
      requires Valid()
      modifies this
      ensures Valid() && Distinct(Issued())
      ensures Disambiguates(old(seen), call.id, raw)
      ensures raw !in old(seen) && seen == old(seen) + {raw}
      ensures scoped == call.(id := Scoped(scope, raw))
      ensures Issued() == old(Issued()) + [scoped.id] && originals == old(originals) + [call.id]
    {
      hide Disambiguated;
      var id := call.id;
      if call.id == [] || call.id in seen {
        var suffix := UnusedSuffix(call.id);
        id := Candidate(call.id, suffix);
      }
      raw := id;
      DisambiguatedMore(originals, raws, call.id, id);
      seen := seen + {id};
      raws, originals := raws + [id], originals + [call.id];
      scoped := call.(id := Scoped(scope, id));
      ScopedAllDistinct(scope, raws);
    }

    /** The scoped copies of one response's calls: their ids are those the provider's give rise to, after
        the ids issued before. */
    method ScopeAll(calls: seq<ToolCall>) returns (scoped: seq<ToolCall>)
      requires Valid()
      modifies this
      ensures Valid() && Distinct(Issued())
      ensures ScopedCopies(calls, scoped)
      ensures Issued() == old(Issued()) + Ids(scoped) && originals == old(originals) + Ids(calls)
      ensures Renamed(scope, originals, Issued())
    {
      hide Disambiguates, Disambiguated;
      scoped := [];
      ScopedAllDistinct(scope, raws);
      assert originals + Ids(calls[..0]) == originals;
      for i := 0 to |calls|
        invariant Valid() && Distinct(Issued())
        invariant ScopedCopies(calls[..i], scoped)
        invariant Issued() == old(Issued()) + Ids(scoped) && originals == old(originals) + Ids(calls[..i])
      {
        var call, raw := Scope(calls[i]);
        assert Ids(scoped + [call]) == Ids(scoped) + [call.id];
        assert Ids(calls[..i + 1]) == Ids(calls[..i]) + [calls[i].id];
        scoped := scoped + [call];
      }
      assert calls[..|calls|] == calls;
    }
  }

  // ----- Agents that share a root turn -----

  /** The scope of the `number`-th subagent started by an agent. */
  function DelegateScope(parent: Option<string>, number: nat): string
  {
    if parent.Some? then parent.value + "/delegate-" + Decimal(number) else "delegate-" + Decimal(number)
  }

  lemma DelegateScopeInjective(parent: Option<string>, m: nat, n: nat)
    requires DelegateScope(parent, m) == DelegateScope(parent, n)
    ensures m == n
  {
    var prefix := if parent.Some? then parent.value + "/delegate-" else "delegate-";
    assert DelegateScope(parent, m)[|prefix|..] == Decimal(m);
    assert DelegateScope(parent, n)[|prefix|..] == Decimal(n);
    DecimalInjective(m, n);
  }

  /** Ids of two subagents of one agent never coincide. */
  lemma SubagentsApart(parent: Option<string>, m: nat, x: string, n: nat, y: string)
    requires m != n
    ensures Scoped(Some(DelegateScope(parent, m)), x) != Scoped(Some(DelegateScope(parent, n)), y)
  {
    var a, b := Scoped(Some(DelegateScope(parent, m)), x), Scoped(Some(DelegateScope(parent, n)), y);
    if a == b {
      var prefix := if parent.Some? then parent.value + "/delegate-" else "delegate-";
      assert a[|prefix|..] == Decimal(m) + ['/'] + x;
      assert b[|prefix|..] == Decimal(n) + ['/'] + y;
      TagsAgree(Decimal(m), x, Decimal(n), y, '/');
      DecimalInjective(m, n);
    }
  }

  /** The id starts like the ids of some subagent of an agent with that scope. */
  ghost predicate LooksDelegated(scope: Option<string>, id: string)
  {
    exists number: nat :: StartsWith(id, DelegateScope(scope, number) + ['/'])
  }

  lemma InScopeIff(tag: string, id: string)
    ensures InScope(Some(tag), id) <==> StartsWith(id, tag + ['/'])
  {
    var start := tag + ['/'];
    if StartsWith(id, start) {
      assert id == start + id[|start|..];
      assert id == Scoped(Some(tag), id[|start|..]);
    }
  }

  /** An id belongs to some subagent exactly when it looks delegated; the subagent's own id is what follows. */
  lemma LooksDelegatedIff(scope: Option<string>, id: string)
    ensures LooksDelegated(scope, id) <==> exists number: nat :: InScope(Some(DelegateScope(scope, number)), id)
  {
    hide InScope, StartsWith, DelegateScope;
    forall number: nat
      ensures InScope(Some(DelegateScope(scope, number)), id) <==> StartsWith(id, DelegateScope(scope, number) + ['/'])
    {
      InScopeIff(DelegateScope(scope, number), id);
    }
  }

  /** A provider id `delegate-1/x` that the root passes through unchanged is the id of the first
      subagent's call `x`: scopes alone do not keep every pair of agents apart. */
  lemma RootIdCanCollide()
    ensures var id := "delegate-1/x";
            && Disambiguates({}, id, id)
            && Disambiguates({}, "x", "x")
            && Scoped(None, id) == Scoped(Some(DelegateScope(None, 1)), "x")
  {
    assert Decimal(1) == "1";
    assert Scoped(Some("delegate-1"), "x") == "delegate-1/x";
  }
}
