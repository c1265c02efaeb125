/** What a path glob means: for every pattern as a language, and against the documented meaning of `**`. */
module Globs {
  import opened Text
  import opened Sensitive

  // ----- Every pattern: a string for each token -----

  /** The matcher reads a pattern as a list of these. */
  datatype Token =
    | Below
    | Between
    | Directories
    | Everything
    | Stretch
    | One
    | Byte(value: char)

  function Tokens(p: string): seq<Token>
  {
    if p == [] then []
    else if p == "/**" then [Below]
    else if "/**/" <= p then [Between] + Tokens(p[4..])
    else if "**/" <= p then [Directories] + Tokens(p[3..])
    else if p == "**" then [Everything]
    else if p[0] == '*' then [Stretch] + Tokens(p[1..])
    else if p[0] == '?' then [One] + Tokens(p[1..])
    else [Byte(p[0])] + Tokens(p[1..])
  }

  /** The strings a token stands for. */
  predicate Fits(token: Token, s: string)
  {
    match token
    case Below => s == [] || s[0] == '/'
    case Between => s != [] && s[0] == '/' && s[|s| - 1] == '/'
    case Directories => s == [] || s[|s| - 1] == '/'
    case Everything => true
    case Stretch => NoSlash(s)
    case One => |s| == 1 && s[0] != '/'
    case Byte(c) => s == [c]
  }

  function Concat(fills: seq<string>): string
  {
    if fills == [] then [] else fills[0] + Concat(fills[1..])
  }

  predicate AllFit(tokens: seq<Token>, fills: seq<string>)
  {
    |fills| == |tokens| && forall i :: 0 <= i < |tokens| ==> Fits(tokens[i], fills[i])
  }

  /** Some string for each token, put together, is the text. */
  ghost predicate Spells(tokens: seq<Token>, t: string)
  {
    exists fills :: AllFit(tokens, fills) && Concat(fills) == t
  }

  ghost predicate SpellsAfter(token: Token, rest: seq<Token>, t: string, i: nat)
  {
    i <= |t| && Fits(token, t[..i]) && Spells(rest, t[i..])
  }

  lemma SpellsNone(t: string)
    ensures Spells([], t) <==> t == []
  {
    if t == [] { assert AllFit([], []) && Concat([]) == t; }
  }

  lemma SpellsFront(token: Token, rest: seq<Token>, t: string) returns (i: nat)
    requires Spells([token] + rest, t)
    ensures SpellsAfter(token, rest, t, i)
  {
    var tokens := [token] + rest;
    var fills :| AllFit(tokens, fills) && Concat(fills) == t;
    i := |fills[0]|;
    assert t[..i] == fills[0] && t[i..] == Concat(fills[1..]);
    assert AllFit(rest, fills[1..]) by {
      assert forall k :: 0 <= k < |rest| ==> rest[k] == tokens[k + 1] && fills[1..][k] == fills[k + 1];
    }
  }

  lemma SpellsBack(token: Token, rest: seq<Token>, t: string, i: nat)
    requires SpellsAfter(token, rest, t, i)
    ensures Spells([token] + rest, t)
  {
    var fills :| AllFit(rest, fills) && Concat(fills) == t[i..];
    var all := [t[..i]] + fills;
    assert all[1..] == fills && t == t[..i] + t[i..];
    assert AllFit([token] + rest, all);
    assert Concat(all) == t;
  }

  /** The recursive matcher accepts exactly the texts its tokens can be filled in to. */
  lemma {:induction false} GlobMeans(p: string, t: string)
    ensures Glob(p, t) <==> Spells(Tokens(p), t)
    decreases |p|
  {
    hide Spells, Fits;
    SpellsNone(t);
    if p != [] {
      GlobMeansThere(p, t);
      GlobMeansBack(p, t);
    }
  }

  /** What is left of a pattern after its first token. */
  function Rest(p: string): (rest: string)
    requires p != []
    ensures |rest| < |p|
  {
    if p == "/**" || p == "**" then []
    else if "/**/" <= p then p[4..]
    else if "**/" <= p then p[3..]
    else p[1..]
  }

  lemma TokensSplit(p: string)
    requires p != []
    ensures Tokens(p) != [] && Tokens(p) == [Tokens(p)[0]] + Tokens(Rest(p))
  {
  }

  lemma GlobMeansThere(p: string, t: string)
    requires p != []
    ensures Glob(p, t) ==> Spells(Tokens(p), t)
    decreases |p|, 0
  {
    hide Spells;
    if Glob(p, t) {
      TokensSplit(p);
      var i := GlobFront(p, t);
      GlobMeans(Rest(p), t[i..]);
      SpellsBack(Tokens(p)[0], Tokens(Rest(p)), t, i);
    }
  }

  /** A matching text starts with a string for the first token, and the rest matches the rest. */
  lemma GlobFront(p: string, t: string) returns (i: nat)
    requires p != [] && Glob(p, t)
    ensures i <= |t| && Fits(Tokens(p)[0], t[..i]) && Glob(Rest(p), t[i..])
  {
    if p == "/**" || p == "**" {
      i := |t|;
      assert t[..i] == t && t[i..] == [];
    } else if "/**/" <= p {
      i := DirectoriesFront(p[4..], t[1..]);
      assert t[1..][i..] == t[i + 1..];
      assert i > 0 ==> t[..i + 1][i] == t[1..][..i][i - 1];
      i := i + 1;
    } else if "**/" <= p {
      i := DirectoriesFront(p[3..], t);
    } else if p[0] == '*' {
      i :| 0 <= i <= |t| && NoSlash(t[..i]) && Glob(p[1..], t[i..]);
    } else {
      i := 1;
    }
  }

  lemma DirectoriesFront(p: string, t: string) returns (i: nat)
    requires Glob(p, t) || Deeper(p, t)
    ensures i <= |t| && Fits(Directories, t[..i]) && Glob(p, t[i..])
  {
    hide Glob;
    if Glob(p, t) {
      i := 0;
      assert t[0..] == t;
    } else {
      var k :| 0 <= k < |t| && t[k] == '/' && Glob(p, t[k + 1..]);
      i := k + 1;
      assert t[..i][i - 1] == '/';
    }
  }

  lemma GlobMeansBack(p: string, t: string)
    requires p != []
    ensures Spells(Tokens(p), t) ==> Glob(p, t)
    decreases |p|, 0
  {
    hide Spells;
    if Spells(Tokens(p), t) {
      TokensSplit(p);
      var i := SpellsFront(Tokens(p)[0], Tokens(Rest(p)), t);
      GlobMeans(Rest(p), t[i..]);
      GlobFromFront(p, t, i);
    }
  }

  lemma GlobFromFront(p: string, t: string, i: nat)
    requires p != [] && i <= |t| && Fits(Tokens(p)[0], t[..i]) && Glob(Rest(p), t[i..])
    ensures Glob(p, t)
  {
    if p == "/**" || p == "**" {
      assert t[..i] == t;
    } else if "/**/" <= p {
      assert t[0] == '/';
      if i > 1 {
        var u := t[1..];
        assert u[i - 2] == t[..i][i - 1] && u[i - 2 + 1..] == t[i..];
      }
    } else if "**/" <= p {
      assert t[0..] == t;
      if i > 0 {
        assert t[i - 1] == t[..i][i - 1] && t[i - 1 + 1..] == t[i..];
      }
    }
  }

  // ----- The documented meaning of `**` -----

  /** As documented: `**` stands for any number of segments, zero included, wherever it is written. */
  predicate Documented(ps: seq<string>, ts: seq<string>)
    decreases |ps|
  {
    if ps == [] then ts == []
    else if ps[0] == "**" then exists k :: 0 <= k <= |ts| && Documented(ps[1..], ts[k..])
    else ts != [] && SegmentMatches(ps[0], ts[0]) && Documented(ps[1..], ts[1..])
  }

  predicate AllStars(ps: seq<string>)
  {
    forall i :: 0 <= i < |ps| ==> ps[i] == "**"
  }

  /** An ordinary segment and, after the last of them, two or more `**`. */
  predicate Piled(ps: seq<string>)
  {
    var n := |ps|;
    n >= 3 && ps[n - 1] == "**" && ps[n - 2] == "**" && !AllStars(ps)
  }

  lemma {:induction false} DocumentedNothing(ps: seq<string>)
    ensures Documented(ps, []) <==> AllStars(ps)
    decreases |ps|
  {
    if ps != [] {
      var none: seq<string> := [];
      assert none[0..] == none;
      DocumentedNothing(ps[1..]);
      StarsCons(ps);
    }
  }

  lemma StarsCons(ps: seq<string>)
    requires ps != []
    ensures AllStars(ps) <==> ps[0] == "**" && AllStars(ps[1..])
  {
    if ps[0] == "**" && AllStars(ps[1..]) {
      forall i | 0 <= i < |ps|
        ensures ps[i] == "**"
      {
        if i > 0 { assert ps[1..][i - 1] == "**"; }
      }
    }
  }

  lemma PiledCons(ps: seq<string>)
    requires ps != []
    ensures Piled(ps[1..]) ==> Piled(ps)
    ensures ps[0] != "**" && |ps| >= 3 && AllStars(ps[1..]) ==> Piled(ps)
    ensures Piled(ps) && !AllStars(ps[1..]) ==> Piled(ps[1..])
  {
    StarsCons(ps);
    var tail := ps[1..];
    if |ps| >= 3 {
      assert tail[|tail| - 1] == ps[|ps| - 1] && tail[|tail| - 2] == ps[|ps| - 2];
    }
    if Piled(ps) && !AllStars(tail) && |ps| == 3 {
      assert tail == [ps[1], ps[2]];
    }
  }

  lemma {:induction false} StarsMatchAll(ps: seq<string>, ts: seq<string>)
    requires ps != [] && ts != [] && AllStars(ps)
    ensures PathMatches(ps, ts)
    decreases |ps|
  {
    if |ps| > 1 {
      StarsMatchAll(ps[1..], ts);
      assert ts[0..] == ts;
    }
  }

  /** Segment lists: the code's meaning is the documented one for patterns that are not piled. */
  lemma {:induction false} MeaningsAgree(ps: seq<string>, ts: seq<string>)
    requires ps != [] && ts != [] && !Piled(ps)
    ensures PathMatches(ps, ts) <==> Documented(ps, ts)
    decreases |ps|
  {
    if ps[0] == "**" {
      StarAgrees(ps, ts);
    } else {
      OrdinaryAgrees(ps, ts);
    }
  }

  lemma DocumentedStar(ts: seq<string>)
    ensures Documented(["**"], ts)
  {
    assert ["**"][1..] == [] && ts[|ts|..] == [];
    assert Documented(["**"][1..], ts[|ts|..]);
  }

  lemma OrdinaryAgrees(ps: seq<string>, ts: seq<string>)
    requires ps != [] && ts != [] && !Piled(ps) && ps[0] != "**"
    ensures PathMatches(ps, ts) <==> Documented(ps, ts)
    decreases |ps|, 0
  {
    hide Piled, SegmentMatches;
    var rest, later := ps[1..], ts[1..];
    PiledCons(ps);
    assert RestMatches(rest, later) <==> Documented(rest, later) by {
      if rest == ["**"] {
        DocumentedStar(later);
      } else if rest != [] {
        DocumentedNothing(rest);
        if later != [] { MeaningsAgree(rest, later); }
      }
    }
  }

  lemma StarAgrees(ps: seq<string>, ts: seq<string>)
    requires ps != [] && ts != [] && !Piled(ps) && ps[0] == "**"
    ensures PathMatches(ps, ts) <==> Documented(ps, ts)
    decreases |ps|, 0
  {
    PiledCons(ps);
    var rest := ps[1..];
    if rest == [] {
      assert ts[|ts|..] == [] && Documented(rest, ts[|ts|..]);
    } else {
      forall k | 0 <= k < |ts|
        ensures PathMatches(rest, ts[k..]) <==> Documented(rest, ts[k..])
      {
        MeaningsAgree(rest, ts[k..]);
      }
      DocumentedNothing(rest);
      assert ts[|ts|..] == [];
      if AllStars(rest) {
        StarsMatchAll(rest, ts[0..]);
      }
    }
  }

  /** The ordinary segments of a pattern: as a path, they match it as documented. */
  function Ordinary(ps: seq<string>): seq<string>
  {
    if ps == [] then []
    else if ps[0] == "**" then Ordinary(ps[1..])
    else [ps[0]] + Ordinary(ps[1..])
  }

  lemma {:induction false} SegmentMatchesItself(s: string)
    ensures SegmentMatches(s, s)
  {
    if s != [] { SegmentMatchesItself(s[1..]); }
  }

  lemma {:induction false} OrdinaryDocumented(ps: seq<string>)
    ensures Documented(ps, Ordinary(ps))
    decreases |ps|
  {
    if ps != [] {
      OrdinaryDocumented(ps[1..]);
      var ts := Ordinary(ps);
      if ps[0] == "**" {
        assert ts[0..] == ts;
      } else {
        SegmentMatchesItself(ps[0]);
        assert ts[1..] == Ordinary(ps[1..]);
      }
    }
  }

  /** A piled pattern asks for one segment more than its ordinary ones. */
  lemma {:induction false} PiledNeedsMore(ps: seq<string>, ts: seq<string>)
    requires ts != [] && Piled(ps) && PathMatches(ps, ts)
    ensures |ts| > |Ordinary(ps)|
    decreases |ps|
  {
    PiledCons(ps);
    StarsCons(ps);
    if ps[0] == "**" {
      var k :| 0 <= k < |ts| && PathMatches(ps[1..], ts[k..]);
      PiledNeedsMore(ps[1..], ts[k..]);
    } else {
      assert ps[1..] != ["**"];
      if AllStars(ps[1..]) {
        NoneOrdinary(ps[1..]);
      } else {
        PiledNeedsMore(ps[1..], ts[1..]);
      }
    }
  }

  lemma {:induction false} NoneOrdinary(ps: seq<string>)
    requires AllStars(ps)
    ensures Ordinary(ps) == []
  {
    if ps != [] { NoneOrdinary(ps[1..]); }
  }

  lemma {:induction false} OrdinaryIsPath(ps: seq<string>)
    requires !AllStars(ps) && forall i :: 0 <= i < |ps| ==> NoSlash(ps[i])
    ensures Ordinary(ps) != [] && forall i :: 0 <= i < |Ordinary(ps)| ==> NoSlash(Ordinary(ps)[i])
  {
    StarsCons(ps);
    assert forall i :: 0 <= i < |ps[1..]| ==> ps[1..][i] == ps[i + 1];
    if AllStars(ps[1..]) {
      NoneOrdinary(ps[1..]);
    } else {
      OrdinaryIsPath(ps[1..]);
    }
  }

  lemma {:induction false} SegmentsOfPath(ts: seq<string>)
    requires ts != [] && forall i :: 0 <= i < |ts| ==> NoSlash(ts[i])
    ensures Segments(Join(ts, "/")) == ts
  {
    SplitFree(ts[0], {'/'});
    if |ts| > 1 {
      assert forall i :: 0 <= i < |ts[1..]| ==> ts[1..][i] == ts[i + 1];
      SegmentsOfPath(ts[1..]);
      assert "/" == ['/'];
      SegmentsConcat(ts[0], Join(ts[1..], "/"));
    }
  }

  /** A piled pattern and its ordinary segments as a path: matched as documented, not by the code. */
  lemma PiledDiffers(p: string) returns (t: string)
    requires WholeStars(Segments(p)) && Piled(Segments(p))
    ensures Documented(Segments(p), Segments(t)) && !Glob(p, t)
  {
    var ps := Segments(p);
    SegmentsHaveNoSlash(p);
    OrdinaryIsPath(ps);
    t := Join(Ordinary(ps), "/");
    SegmentsOfPath(Ordinary(ps));
    OrdinaryDocumented(ps);
    GlobStart(p, t);
    if PathMatches(ps, Ordinary(ps)) { PiledNeedsMore(ps, Ordinary(ps)); }
  }

  ghost predicate AsDocumented(p: string)
  {
    forall t :: Glob(p, t) <==> Documented(Segments(p), Segments(t))
  }

  /** A pattern that writes `**` only as whole segments means what is documented, on every path, if and
      only if it does not pile two or more `**` after its last ordinary segment. */
  lemma AsDocumentedIff(p: string)
    requires WholeStars(Segments(p))
    ensures AsDocumented(p) <==> !Piled(Segments(p))
  {
    hide Documented, Glob, Piled;
    if Piled(Segments(p)) {
      var t := PiledDiffers(p);
    } else {
      forall t
        ensures Glob(p, t) <==> Documented(Segments(p), Segments(t))
      {
        GlobStart(p, t);
        MeaningsAgree(Segments(p), Segments(t));
      }
    }
  }
}
