/** Path globs, and the patterns that mark a path as sensitive. */
module Sensitive {
  import opened Wrappers
  import opened Text

  // ----- The matcher -----

  /** Some later segment of `t` onwards matches. */
  predicate Deeper(p: string, t: string)
    decreases |p|, 1
  {
    exists i :: 0 <= i < |t| && t[i] == '/' && Glob(p, t[i + 1..])
  }

  predicate NoSlash(t: string)
  {
    forall i :: 0 <= i < |t| ==> t[i] != '/'
  }

  /** `*` is within a segment, `**` across segments, `?` one byte other than `/`. */
  predicate Glob(p: string, t: string)
    decreases |p|, 0
  {
    if p == [] then t == []
    else if p == "/**" then t == [] || t[0] == '/'
    else if "/**/" <= p then t != [] && t[0] == '/' && (Glob(p[4..], t[1..]) || Deeper(p[4..], t[1..]))
    else if "**/" <= p then Glob(p[3..], t) || Deeper(p[3..], t)
    else if p == "**" then true
    else if p[0] == '*' then exists i :: 0 <= i <= |t| && NoSlash(t[..i]) && Glob(p[1..], t[i..])
    else if p[0] == '?' then t != [] && t[0] != '/' && Glob(p[1..], t[1..])
    else t != [] && t[0] == p[0] && Glob(p[1..], t[1..])
  }

  /** The matcher with its index loops. */
  method GlobMatch(p: string, t: string) returns (matched: bool)
    ensures matched <==> Glob(p, t)
    decreases |p|, 0
  {
    if p == [] {
      return t == [];
    } else if p == "/**" {
      return t == [] || t[0] == '/';
    } else if "/**/" <= p {
      if t == [] || t[0] != '/' {
        return false;
      }
      matched := AnySegment(p[4..], t[1..]);
    } else if "**/" <= p {
      matched := AnySegment(p[3..], t);
    } else if p == "**" {
      return true;
    } else if p[0] == '*' {
      matched := StarLoop(p[1..], t);
    } else if p[0] == '?' {
      if t == [] || t[0] == '/' {
        return false;
      }
      matched := GlobMatch(p[1..], t[1..]);
    } else {
      if t == [] || t[0] != p[0] {
        return false;
      }
      matched := GlobMatch(p[1..], t[1..]);
    }
  }

  method AnySegment(p: string, t: string) returns (matched: bool)
    ensures matched <==> Glob(p, t) || Deeper(p, t)
    decreases |p|, 1
  {
    matched := GlobMatch(p, t);
    var i := 0;
    while !matched && i < |t|
      invariant 0 <= i <= |t|
      invariant matched ==> Glob(p, t) || Deeper(p, t)
      invariant !matched ==> !Glob(p, t) && forall k :: 0 <= k < i ==> !(t[k] == '/' && Glob(p, t[k + 1..]))
    {
      if t[i] == '/' {
        matched := GlobMatch(p, t[i + 1..]);
      }
      i := i + 1;
    }
  }

  method StarLoop(p: string, t: string) returns (matched: bool)
    ensures matched <==> exists i :: 0 <= i <= |t| && NoSlash(t[..i]) && Glob(p, t[i..])
    decreases |p|, 1
  {
    var i := 0;
    while true
      invariant 0 <= i <= |t| && NoSlash(t[..i])
      invariant forall k :: 0 <= k < i ==> !Glob(p, t[k..])
      decreases |t| - i
    {
      matched := GlobMatch(p, t[i..]);
      if matched {
        return;
      }
      if i == |t| || t[i] == '/' {
        assert forall k :: i < k <= |t| ==> t[..k][i] == '/';
        return false;
      }
      i := i + 1;
    }
  }

  // ----- Meaning, segment by segment -----

  function Segments(s: string): seq<string>
  {
    Split(s, {'/'})
  }

  /** One segment: `*` any run, `?` any one byte. */
  predicate SegmentMatches(p: string, t: string)
    decreases |p|
  {
    if p == [] then t == []
    else if p[0] == '*' then exists i :: 0 <= i <= |t| && SegmentMatches(p[1..], t[i..])
    else t != [] && (p[0] == '?' || p[0] == t[0]) && SegmentMatches(p[1..], t[1..])
  }

  /** Whole paths: a `**` segment stands for any number of segments. */
  predicate PathMatches(ps: seq<string>, ts: seq<string>)
    requires ps != [] && ts != []
    decreases |ps|, 0
  {
    if ps[0] == "**" then
      |ps| == 1 || exists k :: 0 <= k < |ts| && PathMatches(ps[1..], ts[k..])
    else SegmentMatches(ps[0], ts[0]) && RestMatches(ps[1..], ts[1..])
  }

  /** What may follow a matched segment; a final `**` also stands for nothing. */
  predicate RestMatches(ps: seq<string>, ts: seq<string>)
    decreases |ps|, 1
  {
    if ps == [] then ts == []
    else if ps == ["**"] then true
    else ts != [] && PathMatches(ps, ts)
  }

  predicate HasDoubleStar(s: string)
  {
    exists i :: 0 <= i < |s| - 1 && s[i] == '*' && s[i + 1] == '*'
  }

  /** `**` is written only as a whole segment. */
  predicate WholeStars(ps: seq<string>)
  {
    forall i :: 0 <= i < |ps| ==> ps[i] == "**" || !HasDoubleStar(ps[i])
  }

  /** The rest of a segment and the segments after it. */
  predicate Inside(ps: seq<string>)
    requires ps != []
  {
    !HasDoubleStar(ps[0]) && WholeStars(ps[1..])
  }

  lemma SegmentsHead(s: string)
    ensures s == [] ==> Segments(s) == [[]]
    ensures s != [] ==> |Segments(s[1..])| >= 1
    ensures s != [] && s[0] == '/' ==> Segments(s) == [[]] + Segments(s[1..])
    ensures s != [] && s[0] != '/' ==>
            var rest := Segments(s[1..]);
            Segments(s) == [[s[0]] + rest[0]] + rest[1..]
  {
  }

  lemma {:induction false} SegmentsHaveNoSlash(path: string)
    ensures forall i :: 0 <= i < |Segments(path)| ==> NoSlash(Segments(path)[i]) && '/' !in Segments(path)[i]
  {
    if path != [] {
      SegmentsHaveNoSlash(path[1..]);
      var rest := Segments(path[1..]);
      if path[0] == '/' {
        assert forall i :: 1 <= i < |Segments(path)| ==> Segments(path)[i] == rest[i - 1];
      } else {
        assert forall i :: 1 <= i < |Segments(path)| ==> Segments(path)[i] == rest[i];
        assert Segments(path)[0] == [path[0]] + rest[0];
      }
    }
  }

  lemma NoSlashCons(t: string, i: nat)
    requires 0 < i <= |t|
    ensures NoSlash(t[..i]) <==> t[0] != '/' && NoSlash(t[1..][..i - 1])
  {
    var a, b := t[..i], t[1..][..i - 1];
    assert a == [t[0]] + b;
    assert forall k :: 0 <= k < |b| ==> b[k] == a[k + 1];
  }

  /** Inside the first segment, dropping bytes drops them from it alone. */
  lemma {:induction false} SegmentsDrop(t: string, i: nat)
    requires i <= |t|
    ensures NoSlash(t[..i]) <==> i <= |Segments(t)[0]|
    ensures NoSlash(t[..i]) ==> Segments(t[i..]) == [Segments(t)[0][i..]] + Segments(t)[1..]
  {
    if i == 0 {
      assert t[0..] == t;
      assert Segments(t) == [Segments(t)[0]] + Segments(t)[1..];
    } else {
      NoSlashCons(t, i);
      SegmentsHead(t);
      SegmentsDrop(t[1..], i - 1);
      assert t[1..][i - 1..] == t[i..];
      if t[0] != '/' {
        var head := Segments(t[1..])[0];
        assert Segments(t)[0] == [t[0]] + head;
        if NoSlash(t[..i]) { assert ([t[0]] + head)[i..] == head[i - 1..]; }
      }
    }
  }

  /** What follows a `/` are later segments, and every later segment follows one. */
  lemma {:induction false} SegmentsAfterSlash(t: string, i: nat) returns (k: nat)
    requires i < |t| && t[i] == '/'
    ensures 1 <= k < |Segments(t)| && Segments(t[i + 1..]) == Segments(t)[k..]
  {
    hide Segments;
    SegmentsHead(t);
    SegmentsSome(t[1..]);
    if i == 0 {
      k := 1;
    } else {
      var k' := SegmentsAfterSlash(t[1..], i - 1);
      assert t[1..][i - 1 + 1..] == t[i + 1..];
      if t[0] == '/' {
        k := k' + 1;
        assert Segments(t)[k..] == Segments(t[1..])[k'..];
      } else {
        k := k';
        assert Segments(t)[k..] == Segments(t[1..])[k..];
      }
    }
  }

  lemma SegmentsSome(t: string)
    ensures |Segments(t)| >= 1
  {
  }

  lemma {:induction false} SlashBeforeSegment(t: string, k: nat) returns (i: nat)
    requires 1 <= k < |Segments(t)|
    ensures i < |t| && t[i] == '/' && Segments(t[i + 1..]) == Segments(t)[k..]
    decreases |t|
  {
    hide Segments;
    SegmentsHead(t);
    SegmentsSome(t[1..]);
    if t[0] == '/' {
      if k == 1 {
        i := 0;
      } else {
        var i' := SlashBeforeSegment(t[1..], k - 1);
        i := i' + 1;
        assert t[1..][i' + 1..] == t[i + 1..];
        assert Segments(t)[k..] == Segments(t[1..])[k - 1..];
      }
    } else {
      var i' := SlashBeforeSegment(t[1..], k);
      i := i' + 1;
      assert t[1..][i' + 1..] == t[i + 1..];
      assert Segments(t)[k..] == Segments(t[1..])[k..];
    }
  }

  lemma {:induction false} GlobInside(p: string, t: string)
    requires Inside(Segments(p))
    ensures Glob(p, t) <==>
            SegmentMatches(Segments(p)[0], Segments(t)[0]) && RestMatches(Segments(p)[1..], Segments(t)[1..])
    decreases |p|, 3
  {
    SegmentsHead(p);
    SegmentsHead(t);
    if p == [] {
    } else if p[0] == '/' {
      GlobSlash(p, t);
    } else if p[0] == '*' {
      GlobStar(p, t);
    } else if t != [] && t[0] != '/' {
      InsideTail(p);
      GlobInside(p[1..], t[1..]);
    }
  }

  lemma InsideTail(p: string)
    requires p != [] && p[0] != '/' && Inside(Segments(p))
    ensures Inside(Segments(p[1..]))
    ensures Segments(p) == [[p[0]] + Segments(p[1..])[0]] + Segments(p[1..])[1..]
    ensures !("**/" <= p) && p != "**"
  {
    var head, tail := Segments(p)[0], Segments(p[1..])[0];
    assert head == [p[0]] + tail;
    forall i | 0 <= i < |tail| - 1
      ensures !(tail[i] == '*' && tail[i + 1] == '*')
    {
      assert tail[i] == head[i + 1] && tail[i + 1] == head[i + 1 + 1];
    }
    SegmentsHead(p[1..]);
    assert |p| > 1 && p[1] != '/' ==> head[0] == p[0] && head[0 + 1] == p[1];
  }

  lemma GlobStar(p: string, t: string)
    requires p != [] && p[0] == '*' && Inside(Segments(p))
    ensures Glob(p, t) <==>
            SegmentMatches(Segments(p)[0], Segments(t)[0]) && RestMatches(Segments(p)[1..], Segments(t)[1..])
    decreases |p|, 2
  {
    InsideTail(p);
    var ps, ts, x := Segments(p), Segments(t), Segments(p[1..])[0];
    assert ps[0][1..] == x;
    forall i | 0 <= i <= |t|
      ensures NoSlash(t[..i]) && Glob(p[1..], t[i..]) <==>
              i <= |ts[0]| && SegmentMatches(x, ts[0][i..]) && RestMatches(ps[1..], ts[1..])
    {
      SegmentsDrop(t, i);
      GlobInside(p[1..], t[i..]);
    }
    HeadLength(t);
  }

  lemma {:induction false} HeadLength(t: string)
    ensures |Segments(t)[0]| <= |t|
  {
    if t != [] { HeadLength(t[1..]); }
  }

  lemma GlobSlash(p: string, t: string)
    requires p != [] && p[0] == '/' && Inside(Segments(p))
    ensures Glob(p, t) <==>
            SegmentMatches(Segments(p)[0], Segments(t)[0]) && RestMatches(Segments(p)[1..], Segments(t)[1..])
    decreases |p|, 2
  {
    SegmentsHead(p);
    SegmentsHead(t);
    var q := p[1..];
    assert Segments(p)[1..] == Segments(q);
    if t != [] && t[0] == '/' {
      assert Segments(t)[1..] == Segments(t[1..]);
    }
    if q == "**" {
      OnlyStars();
    } else if "**/" <= q {
      AcrossSegments(q);
      StarsTail(q);
      assert p[4..] == q[3..] && Segments(q)[1..] == Segments(q[3..]);
      if t != [] && t[0] == '/' {
        GlobAcross(q[3..], t[1..]);
      }
    } else {
      NotWholeStar(q);
      if t != [] && t[0] == '/' {
        GlobInside(q, t[1..]);
      }
    }
  }

  lemma AcrossSegments(q: string)
    requires "**/" <= q
    ensures Segments(q) == ["**"] + Segments(q[3..])
  {
    assert q[1..][1..] == q[2..] && q[2..][1..] == q[3..];
    SegmentsHead(q);
    SegmentsHead(q[1..]);
    SegmentsHead(q[2..]);
    assert Segments(q[2..]) == [[]] + Segments(q[3..]);
    assert ['*'] + [] == "*" && ['*'] + "*" == "**";
    assert Segments(q[1..]) == ["*"] + Segments(q[3..]);
  }

  /** A first segment `**` is spelled `**` at the end or `**` and a slash. */
  lemma StarSegment(q: string)
    ensures Segments(q)[0] == "**" ==> q == "**" || "**/" <= q
  {
    SegmentsHead(q);
    if |q| > 1 && q[0] != '/' {
      SegmentsHead(q[1..]);
      if q[1] != '/' {
        assert q[1..][1..] == q[2..];
        SegmentsHead(q[2..]);
        assert Segments(q)[0] == [q[0]] + ([q[1]] + Segments(q[2..])[0]);
        if Segments(q)[0] == "**" {
          assert |Segments(q[2..])[0]| == 0;
          assert q[..2] == "**" && q == q[..2] + q[2..];
        }
      }
    }
  }

  lemma NotWholeStar(q: string)
    requires WholeStars(Segments(q)) && q != "**" && !("**/" <= q)
    ensures Segments(q)[0] != "**" && Inside(Segments(q))
  {
    StarSegment(q);
    assert forall i :: 0 <= i < |Segments(q)[1..]| ==> Segments(q)[1..][i] == Segments(q)[i + 1];
  }

  lemma OnlyStars()
    ensures Segments("**") == ["**"]
  {
    SplitFree("**", {'/'});
  }

  /** `**` and a slash: any number of segments, then the rest. */
  lemma GlobAcross(p: string, t: string)
    requires WholeStars(Segments(p))
    ensures Glob(p, t) || Deeper(p, t)
            <==> exists k :: 0 <= k < |Segments(t)| && PathMatches(Segments(p), Segments(t)[k..])
    decreases |p|, 4, 2
  {
    if Glob(p, t) || Deeper(p, t) { GlobAcrossThere(p, t); }
    if k :| 0 <= k < |Segments(t)| && PathMatches(Segments(p), Segments(t)[k..]) { GlobAcrossBack(p, t, k); }
  }

  lemma GlobAcrossThere(p: string, t: string)
    requires WholeStars(Segments(p)) && (Glob(p, t) || Deeper(p, t))
    ensures exists k :: 0 <= k < |Segments(t)| && PathMatches(Segments(p), Segments(t)[k..])
    decreases |p|, 4, 1
  {
    if Glob(p, t) {
      GlobStart(p, t);
      assert Segments(t)[0..] == Segments(t);
    } else {
      var i :| 0 <= i < |t| && t[i] == '/' && Glob(p, t[i + 1..]);
      var k := SegmentsAfterSlash(t, i);
      GlobStart(p, t[i + 1..]);
    }
  }

  lemma GlobAcrossBack(p: string, t: string, k: nat)
    requires WholeStars(Segments(p))
    requires k < |Segments(t)| && PathMatches(Segments(p), Segments(t)[k..])
    ensures Glob(p, t) || Deeper(p, t)
    decreases |p|, 4, 1
  {
    if k == 0 {
      assert Segments(t)[0..] == Segments(t);
      GlobStart(p, t);
    } else {
      var i := SlashBeforeSegment(t, k);
      GlobStart(p, t[i + 1..]);
    }
  }

  /** For every pattern that writes `**` only as a whole segment, the byte matcher decides the
      segment-by-segment meaning. */
  lemma GlobStart(p: string, t: string)
    requires WholeStars(Segments(p))
    ensures Glob(p, t) <==> PathMatches(Segments(p), Segments(t))
    decreases |p|, 4, 0
  {
    if p == "**" {
      OnlyStars();
    } else if "**/" <= p {
      AcrossSegments(p);
      assert Segments(p)[1..] == Segments(p[3..]);
      StarsTail(p);
      GlobAcross(p[3..], t);
    } else {
      NotWholeStar(p);
      GlobInside(p, t);
    }
  }

  lemma StarsTail(q: string)
    requires "**/" <= q && WholeStars(Segments(q))
    ensures WholeStars(Segments(q[3..]))
  {
    AcrossSegments(q);
    assert forall i :: 0 <= i < |Segments(q[3..])| ==> Segments(q[3..])[i] == Segments(q)[i + 1];
  }

  // ----- Patterns without `**` -----

  lemma {:induction false} SegmentsKeepStars(p: string)
    requires !HasDoubleStar(p)
    ensures forall i :: 0 <= i < |Segments(p)| ==> !HasDoubleStar(Segments(p)[i])
  {
    SegmentsHead(p);
    if p != [] {
      assert forall i :: 0 <= i < |p[1..]| ==> p[1..][i] == p[i + 1];
      SegmentsKeepStars(p[1..]);
      SegmentsHead(p[1..]);
      var rest := Segments(p[1..]);
      if p[0] == '/' {
        assert forall i :: 1 <= i < |Segments(p)| ==> Segments(p)[i] == rest[i - 1];
      } else {
        var head := [p[0]] + rest[0];
        forall i | 0 <= i < |head| - 1
          ensures !(head[i] == '*' && head[i + 1] == '*')
        {
          if i == 0 { assert head[1] == p[1]; } else { assert head[i] == rest[0][i - 1] && head[i + 1] == rest[0][i]; }
        }
        assert forall i :: 1 <= i < |Segments(p)| ==> Segments(p)[i] == rest[i];
      }
    }
  }

  lemma {:induction false} PlainPathMatches(ps: seq<string>, ts: seq<string>)
    requires ps != [] && ts != []
    requires forall i :: 0 <= i < |ps| ==> !HasDoubleStar(ps[i])
    ensures PathMatches(ps, ts) <==>
            |ps| == |ts| && forall i :: 0 <= i < |ps| ==> SegmentMatches(ps[i], ts[i])
    decreases |ps|
  {
    assert HasDoubleStar("**") by { assert "**"[0] == '*' && "**"[0 + 1] == '*'; }
    assert ps[0] != "**";
    if |ps| > 1 {
      assert ps[1] != "**";
      if |ts| > 1 {
        PlainPathMatches(ps[1..], ts[1..]);
        assert forall i :: 1 <= i < |ps| && i < |ts| ==> ps[i] == ps[1..][i - 1] && ts[i] == ts[1..][i - 1];
        assert forall i :: 0 <= i < |ps| - 1 && i < |ts| - 1 ==> ps[1..][i] == ps[i + 1] && ts[1..][i] == ts[i + 1];
      }
    }
  }

  /** Without `**`, a glob matches only texts with as many segments, one by one. */
  lemma GlobSegmentwise(p: string, t: string)
    requires !HasDoubleStar(p)
    ensures Glob(p, t) <==>
            && |Segments(p)| == |Segments(t)|
            && forall i :: 0 <= i < |Segments(p)| ==> SegmentMatches(Segments(p)[i], Segments(t)[i])
  {
    SegmentsKeepStars(p);
    GlobStart(p, t);
    PlainPathMatches(Segments(p), Segments(t));
  }

  /** A plain byte of a pattern stands for itself. */
  lemma GlobByte(c: char, p: string, t: string)
    requires c != '/' && c != '*' && c != '?'
    ensures Glob([c] + p, [c] + t) <==> Glob(p, t)
  {
    assert ([c] + p)[1..] == p && ([c] + t)[1..] == t;
  }

  lemma NothingBelow()
    ensures Glob("/**", []) && !Glob("/**/**", [])
  {
  }

  lemma OneBelow()
    ensures Glob("/**/**", "/b")
  {
    var p, t := "/**/**", "/b";
    assert "/**/" <= p && p[4..] == "**" && t[1..] == "b";
    assert Glob("**", "b");
  }

  /** Two final `**` segments ask for one segment more than a single one. */
  lemma DoubledTail()
    ensures Glob("a/**", "a") && !Glob("a/**/**", "a") && Glob("a/**/**", "a/b")
  {
    hide Glob;
    NothingBelow();
    OneBelow();
    GlobByte('a', "/**", []);
    GlobByte('a', "/**/**", []);
    GlobByte('a', "/**/**", "/b");
    assert "a/**" == ['a'] + "/**" && "a/**/**" == ['a'] + "/**/**";
    assert "a" == ['a'] + [] && "a/b" == ['a'] + "/b";
  }

  // ----- Sensitive paths -----

  function StripAll(s: string, prefix: string): string
    requires prefix != []
    decreases |s|
  {
    if prefix <= s then StripAll(s[|prefix|..], prefix) else s
  }

  /** A configured pattern as it is kept. */
  function Normalised(pattern: string): string
  {
    StripAll(Trim(pattern), "./")
  }

  function NewPatterns(patterns: seq<string>): seq<string>
  {
    if patterns == [] then []
    else
      var rest := NewPatterns(patterns[1..]);
      if Normalised(patterns[0]) == [] then rest else [Normalised(patterns[0])] + rest
  }

  function FileName(path: string): string
  {
    Segments(path)[|Segments(path)| - 1]
  }

  predicate PatternMatches(pattern: string, path: string)
  {
    if StartsWith(pattern, "/") then Glob(pattern[1..], path)
    else if '/' in pattern then Glob("**/" + pattern, path)
    else Glob(pattern, FileName(path))
  }

  predicate Matches(patterns: seq<string>, path: string)
  {
    var relative := StripAll(StripAll(path, "./"), "/");
    exists i :: 0 <= i < |patterns| && PatternMatches(patterns[i], relative)
  }

  lemma {:induction false} SegmentsConcat(a: string, b: string)
    ensures Segments(a + ['/'] + b) == Segments(a) + Segments(b)
  {
    SegmentsHead(a);
    SegmentsHead(a + ['/'] + b);
    if a == [] {
      assert (a + ['/'] + b)[1..] == b;
    } else {
      assert (a + ['/'] + b)[1..] == a[1..] + ['/'] + b;
      SegmentsConcat(a[1..], b);
    }
  }

  lemma LeadingStars(pattern: string, path: string)
    ensures Glob("**/" + pattern, path) <==> Glob(pattern, path) || Deeper(pattern, path)
  {
    var p := "**/" + pattern;
    assert p[3..] == pattern && p[0] == '*' && |p| >= 3;
    assert "**/" <= p && !("/**/" <= p) && p != "/**";
  }

  /** No wildcards. */
  predicate Literal(pattern: string)
  {
    '*' !in pattern && '?' !in pattern
  }

  lemma {:induction false} GlobLiteral(p: string, t: string)
    requires Literal(p)
    ensures Glob(p, t) <==> t == p
  {
    if p != [] {
      assert p[0] in p;
      assert |p| > 1 ==> p[1] in p;
      assert forall c :: c in p[1..] ==> c in p;
      if t != [] {
        GlobLiteral(p[1..], t[1..]);
        assert p == [p[0]] + p[1..] && t == [t[0]] + t[1..];
      }
    }
  }

  /** The path is `tail` or ends in it below a directory. */
  predicate EndsInPath(path: string, tail: string)
  {
    path == tail || EndsWith(path, "/" + tail)
  }

  /** The file name is what follows the last slash. */
  lemma {:induction false} FileNameMeans(path: string)
    ensures '/' !in FileName(path) && EndsInPath(path, FileName(path))
  {
    SegmentsHaveNoSlash(path);
    SegmentsHead(path);
    if path != [] {
      var rest := Segments(path[1..]);
      FileNameMeans(path[1..]);
      var name := FileName(path[1..]);
      if path[0] == '/' {
        assert FileName(path) == name;
        if path[1..] == name {
          assert path[|path| - |"/" + name|..] == "/" + name;
        } else {
          TailOf(path, "/" + name);
        }
      } else if |rest| > 1 {
        assert FileName(path) == name;
        if path[1..] == name { OneSegment(name); } else { TailOf(path, "/" + name); }
      } else {
        assert Segments(path) == [[path[0]] + rest[0]];
        if path[1..] == name {
          assert path == [path[0]] + name;
        } else {
          ManySegments(path[1..], name);
        }
      }
    }
  }

  lemma TailOf(path: string, tail: string)
    requires path != [] && EndsWith(path[1..], tail)
    ensures EndsWith(path, tail)
  {
    assert path[|path| - |tail|..] == path[1..][|path| - 1 - |tail|..];
  }

  lemma OneSegment(name: string)
    requires '/' !in name
    ensures Segments(name) == [name]
  {
    SplitFree(name, {'/'});
  }

  lemma ManySegments(path: string, name: string)
    requires EndsWith(path, "/" + name)
    ensures |Segments(path)| > 1
  {
    var dir := path[..|path| - |name| - 1];
    assert path == dir + ['/'] + name;
    SegmentsConcat(dir, name);
  }

  /** What a pattern without wildcards matches: with a leading slash exactly the path after it; otherwise the
      path itself and everything that ends in it below some directory. */
  lemma LiteralPattern(pattern: string, path: string)
    requires Literal(pattern)
    ensures StartsWith(pattern, "/") ==> (PatternMatches(pattern, path) <==> path == pattern[1..])
    ensures !StartsWith(pattern, "/") ==> (PatternMatches(pattern, path) <==> EndsInPath(path, pattern))
  {
    hide Glob, Deeper, FileName;
    if StartsWith(pattern, "/") {
      assert forall c :: c in pattern[1..] ==> c in pattern;
      GlobLiteral(pattern[1..], path);
    } else if '/' in pattern {
      LeadingStars(pattern, path);
      GlobLiteral(pattern, path);
      DeeperLiteral(pattern, path);
    } else {
      GlobLiteral(pattern, FileName(path));
      FileNameMeans(path);
      if EndsWith(path, "/" + pattern) { TailIsFileName(path, pattern); }
      if path == pattern { OneSegment(path); NameOfOne(path); }
    }
  }

  lemma NameOfOne(path: string)
    requires Segments(path) == [path]
    ensures FileName(path) == path
  {
  }

  lemma DeeperLiteral(p: string, t: string)
    requires Literal(p)
    ensures Deeper(p, t) <==> EndsWith(t, "/" + p)
  {
    hide Glob;
    if Deeper(p, t) {
      var i :| 0 <= i < |t| && t[i] == '/' && Glob(p, t[i + 1..]);
      GlobLiteral(p, t[i + 1..]);
      assert t[i..] == "/" + p;
    }
    if EndsWith(t, "/" + p) {
      var i := |t| - |p| - 1;
      assert t[i..][0] == '/' && t[i..][1..] == t[i + 1..];
      GlobLiteral(p, t[i + 1..]);
    }
  }

  lemma TailIsFileName(path: string, name: string)
    requires EndsWith(path, "/" + name) && '/' !in name
    ensures FileName(path) == name
  {
    var dir := path[..|path| - |name| - 1];
    assert path == dir + ['/'] + name;
    SegmentsConcat(dir, name);
    OneSegment(name);
  }

  function Repeated(s: string, n: nat): string
  {
    if n == 0 then [] else s + Repeated(s, n - 1)
  }

  /** All copies of the prefix are taken from the front, and nothing else. */
  lemma {:induction false} StripAllMeans(s: string, prefix: string) returns (n: nat)
    requires prefix != []
    ensures s == Repeated(prefix, n) + StripAll(s, prefix) && !StartsWith(StripAll(s, prefix), prefix)
    decreases |s|
  {
    n := 0;
    if prefix <= s {
      var rest := StripAll(s[|prefix|..], prefix);
      var m := StripAllMeans(s[|prefix|..], prefix);
      n := m + 1;
      calc {
        s;
        prefix + s[|prefix|..];
        prefix + (Repeated(prefix, m) + rest);
        (prefix + Repeated(prefix, m)) + rest;
        Repeated(prefix, n) + rest;
      }
    }
  }

  /** The configured pattern says something, and what it says matches. */
  predicate Counts(pattern: string, relative: string)
  {
    var kept := StripAll(Trim(pattern), "./");
    kept != [] && PatternMatches(kept, relative)
  }

  /** A configured pattern counts after white space around it and `./` before it are taken away, and not at all
      when nothing is left; the path is matched from its first name on. */
  lemma {:induction false} NewPatternsMean(patterns: seq<string>, path: string)
    ensures Matches(NewPatterns(patterns), path)
            <==> exists i :: 0 <= i < |patterns| && Counts(patterns[i], StripAll(StripAll(path, "./"), "/"))
  {
    hide PatternMatches, StripAll;
    if patterns != [] {
      NewPatternsMean(patterns[1..], path);
      var kept, rest, relative := Normalised(patterns[0]), NewPatterns(patterns[1..]),
          StripAll(StripAll(path, "./"), "/");
      var all := NewPatterns(patterns);
      if kept != [] {
        assert all == [kept] + rest;
        if i :| 0 <= i < |all| && PatternMatches(all[i], relative) {
          if i > 0 { assert all[i] == rest[i - 1]; }
        }
        if i :| 0 <= i < |rest| && PatternMatches(rest[i], relative) { assert all[i + 1] == rest[i]; }
        if PatternMatches(kept, relative) { assert all[0] == kept; }
      }
      if j :| 0 <= j < |patterns| && Counts(patterns[j], relative) {
        if j > 0 { assert patterns[j] == patterns[1..][j - 1]; }
      }
      if j :| 0 <= j < |patterns[1..]| && Counts(patterns[1..][j], relative) {
        assert patterns[1..][j] == patterns[j + 1];
      }
    }
  }

  lemma DeeperUnder(pattern: string, ancestors: string, path: string)
    requires Glob(pattern, path) || Deeper(pattern, path)
    ensures Deeper(pattern, ancestors + ['/'] + path)
  {
    var deep := ancestors + ['/'] + path;
    if Glob(pattern, path) {
      assert deep[|ancestors|] == '/' && deep[|ancestors| + 1..] == path;
    } else {
      var i :| 0 <= i < |path| && path[i] == '/' && Glob(pattern, path[i + 1..]);
      var j := |ancestors| + 1 + i;
      assert deep[j] == '/' && deep[j + 1..] == path[i + 1..];
    }
  }

  /** A pattern that is not anchored matches at any depth. */
  lemma PatternUnderAncestors(pattern: string, ancestors: string, path: string)
    requires !StartsWith(pattern, "/") && PatternMatches(pattern, path)
    ensures PatternMatches(pattern, ancestors + ['/'] + path)
  {
    if '/' in pattern {
      LeadingStars(pattern, path);
      DeeperUnder(pattern, ancestors, path);
      LeadingStars(pattern, ancestors + ['/'] + path);
    } else {
      SegmentsConcat(ancestors, path);
    }
  }

  predicate Relative(path: string)
  {
    !StartsWith(path, "./") && !StartsWith(path, "/")
  }

  /** A sensitive path stays sensitive wherever its tree is kept. */
  lemma MatchesUnderAncestors(patterns: seq<string>, ancestors: string, path: string)
    requires Relative(path) && Relative(ancestors + ['/'] + path)
    requires forall i :: 0 <= i < |patterns| ==> !StartsWith(patterns[i], "/")
    requires Matches(patterns, path)
    ensures Matches(patterns, ancestors + ['/'] + path)
  {
    var i :| 0 <= i < |patterns| && PatternMatches(patterns[i], path);
    PatternUnderAncestors(patterns[i], ancestors, path);
  }
}
