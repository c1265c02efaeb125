/** Failure wrappers shared by every module. */
module Wrappers {
  datatype Option<+T> = None | Some(value: T)

  datatype Result<+T, +E> = Ok(value: T) | Err(error: E)
}

/**
  Text as the program sees it: the UTF-8 bytes of a string, one `char` per
  byte, so that lengths, separators and `?` count bytes as the source does.
 */
module Text {
  /** The pieces of `s` between separators; n separators give n + 1 pieces. */
  function Split(s: string, separators: set<char>): (pieces: seq<string>)
    ensures |pieces| >= 1
  {
    if s == [] then [[]]
    else
      var rest := Split(s[1..], separators);
      if s[0] in separators then [[]] + rest
      else [[s[0]] + rest[0]] + rest[1..]
  }

  /** The pieces put together again with `separator` between them. */
  function Join(pieces: seq<string>, separator: string): string
  {
    if pieces == [] then []
    else if |pieces| == 1 then pieces[0]
    else pieces[0] + separator + Join(pieces[1..], separator)
  }

  predicate Contains(s: string, characters: set<char>)
  {
    exists i :: 0 <= i < |s| && s[i] in characters
  }

  predicate StartsWith(s: string, prefix: string)
  {
    prefix <= s
  }

  predicate EndsWith(s: string, suffix: string)
  {
    |suffix| <= |s| && s[|s| - |suffix|..] == suffix
  }

  const WHITESPACE: set<char> := {' ', '\t', '\n', '\r', '\U{0B}', '\U{0C}'}

  function TrimStart(s: string): string
  {
    if s != [] && s[0] in WHITESPACE then TrimStart(s[1..]) else s
  }

  function TrimEnd(s: string): string
  {
    if s != [] && s[|s| - 1] in WHITESPACE then TrimEnd(s[..|s| - 1]) else s
  }

  function Trim(s: string): string
  {
    TrimEnd(TrimStart(s))
  }

  function Digit(d: nat): (c: char)
    requires d < 10
    ensures '0' <= c <= '9'
    ensures c as int - '0' as int == d
  {
    '0' + d as char
  }

  /** Decimal notation without leading zeros. */
  function Decimal(n: nat): (s: string)
    ensures s != []
    ensures forall i :: 0 <= i < |s| ==> '0' <= s[i] <= '9'
  {
    if n < 10 then [Digit(n)] else Decimal(n / 10) + [Digit(n % 10)]
  }

  function Value(s: string): nat
    requires forall i :: 0 <= i < |s| ==> '0' <= s[i] <= '9'
  {
    if s == [] then 0 else 10 * Value(s[..|s| - 1]) + (s[|s| - 1] as int - '0' as int)
  }

  lemma {:induction false} DecimalRoundTrip(n: nat)
    ensures Value(Decimal(n)) == n
  {
    if n >= 10 {
      DecimalRoundTrip(n / 10);
      var s := Decimal(n);
      assert s[..|s| - 1] == Decimal(n / 10);
    } else {
      assert Decimal(n)[..0] == [];
    }
  }

  /** Two numbers are written alike only when they are equal. */
  lemma DecimalInjective(m: nat, n: nat)
    requires Decimal(m) == Decimal(n)
    ensures m == n
  {
    DecimalRoundTrip(m);
    DecimalRoundTrip(n);
  }

  lemma {:induction false} JoinSplit(s: string, separator: char)
    ensures Join(Split(s, {separator}), [separator]) == s
  {
    if s != [] {
      JoinSplit(s[1..], separator);
      var rest := Split(s[1..], {separator});
      if s[0] != separator {
        var pieces := Split(s, {separator});
        assert pieces[1..] == rest[1..];
        assert pieces == [[s[0]] + rest[0]] + rest[1..];
      } else {
        assert Split(s, {separator})[1..] == rest;
      }
    }
  }

  lemma {:induction false} SplitFree(s: string, separators: set<char>)
    requires !Contains(s, separators)
    ensures Split(s, separators) == [s]
  {
    if s != [] {
      assert s[0] !in separators;
      forall i | 0 <= i < |s[1..]|
        ensures s[1..][i] !in separators
      {
        assert s[1..][i] == s[i + 1];
      }
      SplitFree(s[1..], separators);
      assert [s[0]] + s[1..] == s;
    }
  }

  /** Splitting at more characters changes nothing when none of them occurs. */
  lemma {:induction false} SplitIgnoresAbsent(s: string, separators: set<char>, absent: set<char>)
    requires !Contains(s, absent)
    ensures Split(s, separators + absent) == Split(s, separators)
  {
    if s != [] {
      assert s[0] !in absent;
      forall i | 0 <= i < |s[1..]|
        ensures s[1..][i] !in absent
      {
        assert s[1..][i] == s[i + 1];
      }
      SplitIgnoresAbsent(s[1..], separators, absent);
    }
  }

  /** The pieces with the separators that stood between them. */
  function Spelled(pieces: seq<string>, between: string): string
    requires |pieces| == |between| + 1
  {
    if between == [] then pieces[0] else pieces[0] + [between[0]] + Spelled(pieces[1..], between[1..])
  }

  /** The pieces are the maximal runs without a separator: together with the separators between them they
      spell the text, and none of them contains a separator. */
  lemma {:induction false} SplitMeans(s: string, separators: set<char>) returns (between: string)
    ensures |Split(s, separators)| == |between| + 1 && Spelled(Split(s, separators), between) == s
    ensures forall i :: 0 <= i < |between| ==> between[i] in separators
    ensures forall piece :: piece in Split(s, separators) ==> !Contains(piece, separators)
  {
    var pieces := Split(s, separators);
    if s == [] {
      between := [];
    } else {
      var rest := Split(s[1..], separators);
      var later := SplitMeans(s[1..], separators);
      if s[0] in separators {
        between := [s[0]] + later;
        assert pieces[1..] == rest && between[1..] == later;
      } else {
        between := later;
        var first := [s[0]] + rest[0];
        assert pieces[0] == first && pieces[1..] == rest[1..];
        assert !Contains(rest[0], separators);
        assert forall i :: 1 <= i < |first| ==> first[i] == rest[0][i - 1];
      }
    }
  }

  /** Positions below `n`, in order and none twice. */
  predicate Increasing(at: seq<nat>, n: nat)
  {
    && (forall k :: 0 <= k < |at| ==> at[k] < n)
    && (forall k, l :: 0 <= k < l < |at| ==> at[k] < at[l])
  }

  /** `at` are the positions in `whole` of the elements of `part`, which are those that satisfy `wanted`. */
  ghost predicate Selected<T(!new)>(whole: seq<T>, wanted: T -> bool, part: seq<T>, at: seq<nat>)
  {
    && Increasing(at, |whole|) && |part| == |at|
    && (forall k :: 0 <= k < |at| ==> part[k] == whole[at[k]])
    && (forall i :: 0 <= i < |whole| ==> (i in at <==> wanted(whole[i])))
  }

  lemma SelectedNone<T(!new)>(wanted: T -> bool)
    ensures Selected([], wanted, [], [])
  {
  }

  lemma SelectedMore<T(!new)>(whole: seq<T>, wanted: T -> bool, part: seq<T>, at: seq<nat>, x: T)
    requires Selected(whole, wanted, part, at)
    ensures wanted(x) ==> Selected(whole + [x], wanted, part + [x], at + [|whole|])
    ensures !wanted(x) ==> Selected(whole + [x], wanted, part, at)
  {
    var more := at + [|whole|];
    assert forall i: nat :: i in more <==> i in at || i == |whole|;
  }

  // ----- White space and numbers -----

  /** Trimming takes away exactly the white space at both ends. */
  lemma {:induction false} TrimMeans(s: string) returns (before: string, after: string)
    ensures s == before + Trim(s) + after
    ensures forall c :: c in before + after ==> c in WHITESPACE
    ensures Trim(s) != [] ==> Trim(s)[0] !in WHITESPACE && Trim(s)[|Trim(s)| - 1] !in WHITESPACE
    ensures Trim(s) == [] <==> forall i :: 0 <= i < |s| ==> s[i] in WHITESPACE
  {
    before := TrimStartMeans(s);
    after := TrimEndMeans(TrimStart(s));
    var t := TrimStart(s);
    assert t == Trim(s) + after && s == before + t;
    if Trim(s) == [] {
      forall i | 0 <= i < |s|
        ensures s[i] in WHITESPACE
      {
        assert s[i] in before + after;
      }
    } else {
      assert t[0] == Trim(s)[0];
      assert s[|before|] == t[0];
    }
  }

  lemma {:induction false} TrimStartMeans(s: string) returns (before: string)
    ensures s == before + TrimStart(s) && forall c :: c in before ==> c in WHITESPACE
    ensures TrimStart(s) != [] ==> TrimStart(s)[0] !in WHITESPACE
  {
    before := [];
    if s != [] && s[0] in WHITESPACE {
      var later := TrimStartMeans(s[1..]);
      before := [s[0]] + later;
    }
  }

  lemma {:induction false} TrimEndMeans(s: string) returns (after: string)
    ensures s == TrimEnd(s) + after && forall c :: c in after ==> c in WHITESPACE
    ensures TrimEnd(s) != [] ==> TrimEnd(s)[|TrimEnd(s)| - 1] !in WHITESPACE
  {
    after := [];
    if s != [] && s[|s| - 1] in WHITESPACE {
      var earlier := TrimEndMeans(s[..|s| - 1]);
      after := earlier + [s[|s| - 1]];
    }
  }

  /** There is no leading zero. */
  lemma {:induction false} DecimalCanonical(n: nat)
    ensures n > 0 ==> Decimal(n)[0] != '0'
    ensures n == 0 ==> Decimal(n) == "0"
  {
    if n >= 10 { DecimalCanonical(n / 10); }
  }

  /** Text up to the first separator determines it: two tagged texts are equal only with equal tags. */
  lemma {:induction false} TagsAgree(a: string, x: string, b: string, y: string, separator: char)
    requires separator !in a && separator !in b
    requires a + [separator] + x == b + [separator] + y
    ensures a == b && x == y
  {
    var left, right := a + [separator] + x, b + [separator] + y;
    assert forall k :: 0 <= k < |a| ==> left[k] == a[k];
    assert forall k :: 0 <= k < |b| ==> right[k] == b[k];
    assert left[|a|] == separator && right[|b|] == separator;
    assert a == left[..|a|] && b == right[..|b|];
    assert x == left[|a| + 1..] && y == right[|b| + 1..];
  }
}
