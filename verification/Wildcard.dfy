/** `*` patterns over words: a greedy matcher and what it means to match. */
module Wildcards {
  import opened Wrappers
  import opened Text

  // ----- Meaning: some string for each `*` makes the pattern equal the text -----

  /** Each part preceded by its fill. */
  function Interleave(parts: seq<string>, fills: seq<string>): string
    requires |parts| == |fills|
  {
    if parts == [] then [] else fills[0] + parts[0] + Interleave(parts[1..], fills[1..])
  }

  /** `text` is the parts in order, with any strings before each. */
  ghost predicate Covers(parts: seq<string>, text: string)
  {
    exists fills :: |fills| == |parts| && Interleave(parts, fills) == text
  }

  ghost predicate Means(pattern: string, text: string)
  {
    var parts := Split(pattern, {'*'});
    exists fills :: |fills| == |parts| - 1 && parts[0] + Interleave(parts[1..], fills) == text
  }

  // ----- The greedy matcher -----

  predicate OccursAt(text: string, part: string, i: nat)
  {
    i + |part| <= |text| && text[i..i + |part|] == part
  }

  /** The leftmost occurrence of `part` at or after `i`. */
  function FindFrom(text: string, part: string, i: nat): (index: Option<nat>)
    ensures index.Some? ==> i <= index.value && OccursAt(text, part, index.value)
    ensures index.Some? ==> forall k :: i <= k < index.value ==> !OccursAt(text, part, k)
    ensures index.None? ==> forall k :: i <= k ==> !OccursAt(text, part, k)
    decreases |text| - i
  {
    if OccursAt(text, part, i) then Some(i)
    else if i >= |text| then None
    else FindFrom(text, part, i + 1)
  }

  /** Take each part but the last at its leftmost place; the last one must end the text. */
  predicate Greedy(parts: seq<string>, text: string)
    requires parts != []
  {
    if |parts| == 1 then EndsWith(text, parts[0])
    else
      var index := FindFrom(text, parts[0], 0);
      index.Some? && Greedy(parts[1..], text[index.value + |parts[0]|..])
  }

  predicate Wildcard(pattern: string, text: string)
  {
    var parts := Split(pattern, {'*'});
    if |parts| == 1 then pattern == text
    else StartsWith(text, parts[0]) && Greedy(parts[1..], text[|parts[0]|..])
  }

  lemma CoversStep(parts: seq<string>, text: string, fill: string)
    requires parts != []
    requires Covers(parts, text)
    ensures Covers(parts, fill + text)
  {
    var fills :| |fills| == |parts| && Interleave(parts, fills) == text;
    var wider := [fill + fills[0]] + fills[1..];
    assert wider[1..] == fills[1..];
    assert Interleave(parts, wider) == (fill + fills[0]) + parts[0] + Interleave(parts[1..], fills[1..]);
    assert Interleave(parts, wider) == fill + text;
  }

  /** Taking a part at its leftmost place loses no match. */
  lemma LeftmostSuffices(parts: seq<string>, text: string, index: nat)
    requires |parts| > 1
    requires OccursAt(text, parts[0], index)
    requires forall k :: 0 <= k < index ==> !OccursAt(text, parts[0], k)
    ensures Covers(parts, text) <==> Covers(parts[1..], text[index + |parts[0]|..])
  {
    if Covers(parts, text) { LeftmostForth(parts, text, index); }
    if Covers(parts[1..], text[index + |parts[0]|..]) { LeftmostBack(parts, text, index); }
  }

  lemma LeftmostForth(parts: seq<string>, text: string, index: nat)
    requires |parts| > 1 && Covers(parts, text)
    requires OccursAt(text, parts[0], index)
    requires forall k :: 0 <= k < index ==> !OccursAt(text, parts[0], k)
    ensures Covers(parts[1..], text[index + |parts[0]|..])
  {
    var fills :| |fills| == |parts| && Interleave(parts, fills) == text;
    var at, rest := |fills[0]|, Interleave(parts[1..], fills[1..]);
    Occurrence(fills[0], parts[0], rest);
    var skipped := text[index + |parts[0]|..at + |parts[0]|];
    assert text[index + |parts[0]|..] == skipped + rest;
    assert Covers(parts[1..], rest);
    CoversStep(parts[1..], rest, skipped);
  }

  lemma Occurrence(before: string, part: string, after: string)
    ensures var text := before + part + after;
            OccursAt(text, part, |before|) && text[|before| + |part|..] == after
  {
  }

  lemma InterleaveCons(parts: seq<string>, fill: string, fills: seq<string>)
    requires parts != [] && |fills| == |parts| - 1
    ensures Interleave(parts, [fill] + fills) == fill + parts[0] + Interleave(parts[1..], fills)
  {
    assert ([fill] + fills)[1..] == fills;
  }

  lemma LeftmostBack(parts: seq<string>, text: string, index: nat)
    requires |parts| > 1 && OccursAt(text, parts[0], index)
    requires Covers(parts[1..], text[index + |parts[0]|..])
    ensures Covers(parts, text)
  {
    hide Interleave;
    var next := index + |parts[0]|;
    var fills :| |fills| == |parts[1..]| && Interleave(parts[1..], fills) == text[next..];
    InterleaveCons(parts, text[..index], fills);
    assert text[..index] + parts[0] + text[next..] == text;
    assert |[text[..index]] + fills| == |parts|;
  }

  lemma InterleaveOne(part: string, fills: seq<string>)
    requires |fills| == 1
    ensures Interleave([part], fills) == fills[0] + part
  {
    assert [part][1..] == [] && fills[1..] == [];
    assert fills[0] + part + [] == fills[0] + part;
  }

  lemma LastPart(part: string, text: string)
    ensures Covers([part], text) <==> EndsWith(text, part)
  {
    hide Interleave;
    if Covers([part], text) {
      var fills :| |fills| == |[part]| && Interleave([part], fills) == text;
      InterleaveOne(part, fills);
    }
    if EndsWith(text, part) {
      var fills := [text[..|text| - |part|]];
      InterleaveOne(part, fills);
      assert fills[0] + part == text;
    }
  }

  lemma {:induction false} GreedyMeansCovers(parts: seq<string>, text: string)
    requires parts != []
    ensures Greedy(parts, text) <==> Covers(parts, text)
    decreases |parts|
  {
    hide Covers;
    if |parts| == 1 {
      assert parts == [parts[0]];
      LastPart(parts[0], text);
    } else {
      var index := FindFrom(text, parts[0], 0);
      if index.Some? {
        LeftmostSuffices(parts, text, index.value);
        GreedyMeansCovers(parts[1..], text[index.value + |parts[0]|..]);
      } else {
        NoPlaceNoCover(parts, text);
      }
    }
  }

  lemma NoPlaceNoCover(parts: seq<string>, text: string)
    requires parts != []
    requires forall k :: 0 <= k ==> !OccursAt(text, parts[0], k)
    ensures !Covers(parts, text)
  {
    forall fills | |fills| == |parts|
      ensures Interleave(parts, fills) != text
    {
      var whole := Interleave(parts, fills);
      assert OccursAt(whole, parts[0], |fills[0]|);
    }
  }

  lemma NothingToCover(text: string)
    ensures Covers([], text) <==> text == []
  {
    assert Interleave([], []) == [];
  }

  /** A pattern means its first part and then a text the other parts cover. */
  lemma MeansFirst(pattern: string, text: string)
    ensures var parts := Split(pattern, {'*'});
            Means(pattern, text) <==> StartsWith(text, parts[0]) && Covers(parts[1..], text[|parts[0]|..])
  {
    hide Interleave;
    var parts := Split(pattern, {'*'});
    if fills :| |fills| == |parts| - 1 && parts[0] + Interleave(parts[1..], fills) == text {
      assert text[|parts[0]|..] == Interleave(parts[1..], fills);
    }
    if StartsWith(text, parts[0]) && Covers(parts[1..], text[|parts[0]|..]) {
      var rest := text[|parts[0]|..];
      var fills :| |fills| == |parts[1..]| && Interleave(parts[1..], fills) == rest;
      assert parts[0] + rest == text;
    }
  }

  /** The greedy matcher accepts exactly the texts the pattern can be filled in to. */
  lemma WildcardMeans(pattern: string, text: string)
    ensures Wildcard(pattern, text) <==> Means(pattern, text)
  {
    hide Means, Covers, Greedy;
    var parts := Split(pattern, {'*'});
    JoinSplit(pattern, '*');
    MeansFirst(pattern, text);
    if |parts| == 1 {
      if StartsWith(text, parts[0]) {
        NothingToCover(text[|parts[0]|..]);
        assert text == parts[0] + text[|parts[0]|..];
      }
    } else if StartsWith(text, parts[0]) {
      GreedyMeansCovers(parts[1..], text[|parts[0]|..]);
    }
  }

  /** The matcher as a loop that shortens what is left of the text. */
  method MatchParts(parts: seq<string>, text: string) returns (matched: bool)
    requires parts != []
    ensures matched <==> Greedy(parts, text)
  {
    var remaining, k := text, 0;
    assert parts[0..] == parts;
    while k < |parts| - 1
      invariant 0 <= k < |parts|
      invariant Greedy(parts, text) <==> Greedy(parts[k..], remaining)
    {
      assert parts[k..][0] == parts[k] && parts[k..][1..] == parts[k + 1..];
      var index := FindFrom(remaining, parts[k], 0);
      if index.None? {
        return false;
      }
      remaining := remaining[index.value + |parts[k]|..];
      k := k + 1;
    }
    return EndsWith(remaining, parts[k]);
  }

  method MatchWildcard(pattern: string, text: string) returns (matched: bool)
    ensures matched <==> Wildcard(pattern, text)
    ensures matched <==> Means(pattern, text)
  {
    hide Means;
    WildcardMeans(pattern, text);
    var parts := Split(pattern, {'*'});
    if |parts| == 1 {
      return pattern == text;
    }
    if !StartsWith(text, parts[0]) {
      return false;
    }
    matched := MatchParts(parts[1..], text[|parts[0]|..]);
  }

  // ----- Word lists -----

  /** Word for word. */
  predicate Each(pattern: seq<string>, words: seq<string>)
    requires |pattern| <= |words|
  {
    forall i :: 0 <= i < |pattern| ==> Wildcard(pattern[i], words[i])
  }

  /** A final pattern word of exactly `*` matches any number of remaining words. */
  predicate WordsMatch(pattern: seq<string>, words: seq<string>)
  {
    if pattern != [] && pattern[|pattern| - 1] == "*" then
      var init := pattern[..|pattern| - 1];
      |words| >= |init| && Each(init, words)
    else |pattern| == |words| && Each(pattern, words)
  }

  /** A word list matches when a fill for every `*` in every word, and a count for the final `*`, exist. */
  ghost predicate WordsMean(pattern: seq<string>, words: seq<string>)
  {
    if pattern != [] && pattern[|pattern| - 1] == "*" then
      MeansAndMore(pattern[..|pattern| - 1], words)
    else ExactlyMeans(pattern, words, 0)
  }

  ghost predicate MeansAndMore(pattern: seq<string>, words: seq<string>)
  {
    exists rest: nat :: ExactlyMeans(pattern, words, rest)
  }

  ghost predicate ExactlyMeans(pattern: seq<string>, words: seq<string>, rest: nat)
  {
    |words| == |pattern| + rest && forall i :: 0 <= i < |pattern| ==> Means(pattern[i], words[i])
  }

  lemma WordsMatchMeans(pattern: seq<string>, words: seq<string>)
    ensures WordsMatch(pattern, words) <==> WordsMean(pattern, words)
  {
    forall p: string, w: string
      ensures Wildcard(p, w) <==> Means(p, w)
    {
      WildcardMeans(p, w);
    }
    if pattern != [] && pattern[|pattern| - 1] == "*" && WordsMatch(pattern, words) {
      assert ExactlyMeans(pattern[..|pattern| - 1], words, |words| - (|pattern| - 1));
    }
  }

  method MatchEach(pattern: seq<string>, words: seq<string>) returns (matched: bool)
    requires |pattern| <= |words|
    ensures matched <==> Each(pattern, words)
  {
    for i := 0 to |pattern|
      invariant forall k :: 0 <= k < i ==> Wildcard(pattern[k], words[k])
    {
      var word := MatchWildcard(pattern[i], words[i]);
      if !word {
        return false;
      }
    }
    return true;
  }

  method MatchWords(pattern: seq<string>, words: seq<string>) returns (matched: bool)
    ensures matched <==> WordsMatch(pattern, words)
  {
    if pattern != [] && pattern[|pattern| - 1] == "*" {
      var init := pattern[..|pattern| - 1];
      if |words| < |init| {
        return false;
      }
      matched := MatchEach(init, words);
    } else {
      if |words| != |pattern| {
        return false;
      }
      matched := MatchEach(pattern, words);
    }
  }
}
