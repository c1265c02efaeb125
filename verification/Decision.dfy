/** What an approval policy decides, line by line, from the entries of its lists; and what entries match. */
module Decisions {
  import opened Wrappers
  import opened Text
  import opened Wildcards
  import opened ApprovalPolicies
  import Sensitive

  // ----- Reading commands -----

  const SEPARATING: string := "|;&<>\n\r"
  const EXPANDING: string := "`$(){}"

  lemma SpecialCharacters(c: char)
    ensures c in SEPARATING <==> c in SEPARATORS
    ensures c in EXPANDING <==> c in EXPANSIONS
  {
    var s, e := SEPARATING, EXPANDING;
    assert s[0] == '|' && s[1] == ';' && s[2] == '&' && s[3] == '<' && s[4] == '>' && s[5] == '\n' && s[6] == '\r';
    assert e[0] == '`' && e[1] == '$' && e[2] == '(' && e[3] == ')' && e[4] == '{' && e[5] == '}';
  }

  /** The command contains no character of `special`. */
  predicate FreeOf(command: string, special: string)
  {
    forall c :: c in command ==> c !in special
  }

  lemma FreeMeans(command: string)
    ensures FreeOf(command, SEPARATING) <==> !Contains(command, SEPARATORS)
    ensures FreeOf(command, EXPANDING) <==> !Contains(command, EXPANSIONS)
    ensures FreeOf(command, SEPARATING + EXPANDING) <==> !Contains(command, SEPARATORS + EXPANSIONS)
    ensures FreeOf(command, SEPARATING + EXPANDING) <==> FreeOf(command, SEPARATING) && FreeOf(command, EXPANDING)
  {
    forall c
      ensures c in SEPARATING <==> c in SEPARATORS
      ensures c in EXPANDING <==> c in EXPANSIONS
    {
      SpecialCharacters(c);
    }
    if Contains(command, SEPARATORS) {
      var i :| 0 <= i < |command| && command[i] in SEPARATORS;
      assert command[i] in command;
    }
    if Contains(command, EXPANSIONS) {
      var i :| 0 <= i < |command| && command[i] in EXPANSIONS;
      assert command[i] in command;
    }
    if Contains(command, SEPARATORS + EXPANSIONS) {
      var i :| 0 <= i < |command| && command[i] in SEPARATORS + EXPANSIONS;
      assert command[i] in command;
    }
  }

  /** The pieces of a command between the characters of `special`, none of which contains one. */
  predicate PiecesOf(command: string, special: string, pieces: seq<string>, between: string)
  {
    && |pieces| == |between| + 1 && Spelled(pieces, between) == command
    && (forall i :: 0 <= i < |between| ==> between[i] in special)
    && forall i :: 0 <= i < |pieces| ==> FreeOf(pieces[i], special)
  }

  lemma PiecesBetween(command: string) returns (between: string)
    ensures PiecesOf(command, SEPARATING + EXPANDING, Split(command, SEPARATORS + EXPANSIONS), between)
  {
    var pieces := Split(command, SEPARATORS + EXPANSIONS);
    between := SplitMeans(command, SEPARATORS + EXPANSIONS);
    forall i | 0 <= i < |between|
      ensures between[i] in SEPARATING + EXPANDING
    {
      SpecialCharacters(between[i]);
    }
    forall i | 0 <= i < |pieces|
      ensures FreeOf(pieces[i], SEPARATING + EXPANDING)
    {
      FreeMeans(pieces[i]);
    }
  }

  lemma PiecesSeparated(command: string) returns (between: string)
    ensures PiecesOf(command, SEPARATING, Split(command, SEPARATORS), between)
  {
    var pieces := Split(command, SEPARATORS);
    between := SplitMeans(command, SEPARATORS);
    forall i | 0 <= i < |between|
      ensures between[i] in SEPARATING
    {
      SpecialCharacters(between[i]);
    }
    forall i | 0 <= i < |pieces|
      ensures FreeOf(pieces[i], SEPARATING)
    {
      FreeMeans(pieces[i]);
    }
  }

  /** The piece reads as at least one word. */
  predicate Reads(split: Splitter, piece: string)
  {
    split(piece).Some? && split(piece).value != []
  }

  lemma {:induction false} ReadPiecesConcat(split: Splitter, a: seq<string>, b: seq<string>)
    ensures ReadPieces(split, a + b) == ReadPieces(split, a) + ReadPieces(split, b)
  {
    if a == [] {
      assert a + b == b;
    } else {
      assert (a + b)[0] == a[0] && (a + b)[1..] == a[1..] + b;
      ReadPiecesConcat(split, a[1..], b);
    }
  }

  lemma {:induction false} ReadPiecesSelected(split: Splitter, pieces: seq<string>)
    returns (read: seq<string>, at: seq<nat>)
    ensures Selected(pieces, piece => Reads(split, piece), read, at)
    ensures |ReadPieces(split, pieces)| == |read|
    ensures forall k :: 0 <= k < |read| ==> split(read[k]) == Some(ReadPieces(split, pieces)[k])
    decreases |pieces|
  {
    hide Selected, ReadPieces;
    var wanted := piece => Reads(split, piece);
    if pieces == [] {
      NothingRead(split);
      SelectedNone(wanted);
      read, at := [], [];
    } else {
      var init, last := pieces[..|pieces| - 1], pieces[|pieces| - 1];
      read, at := ReadPiecesSelected(split, init);
      assert pieces == init + [last];
      ReadPiecesConcat(split, init, [last]);
      OneRead(split, last);
      SelectedMore(init, wanted, read, at, last);
      if Reads(split, last) {
        read, at := read + [last], at + [|init|];
      } else {
        assert ReadPieces(split, init) + [] == ReadPieces(split, init);
      }
    }
  }

  lemma NothingRead(split: Splitter)
    ensures ReadPieces(split, []) == []
  {
  }

  lemma OneRead(split: Splitter, piece: string)
    ensures ReadPieces(split, [piece]) == if Reads(split, piece) then [split(piece).value] else []
  {
    assert [piece][1..] == [];
  }

  /** The parts of a command are, in order, the words of exactly those of its pieces between separating and
      expanding characters that read as words. */
  lemma PartsMean(split: Splitter, command: string)
    returns (pieces: seq<string>, between: string, read: seq<string>, at: seq<nat>)
    ensures PiecesOf(command, SEPARATING + EXPANDING, pieces, between)
    ensures Selected(pieces, piece => split(piece).Some? && split(piece).value != [], read, at)
    ensures |CommandParts(split, command)| == |read|
    ensures forall k :: 0 <= k < |read| ==> split(read[k]) == Some(CommandParts(split, command)[k])
  {
    pieces := Split(command, SEPARATORS + EXPANSIONS);
    between := PiecesBetween(command);
    read, at := ReadPiecesSelected(split, pieces);
  }

  /** No character with a meaning to the shell is plain. */
  lemma PlainWordsAreLiteral(word: string, c: char)
    requires PlainCommandWord(word) && c in word
    ensures c !in SEPARATING && c !in EXPANDING && c !in " \t\"'\\*?[]~=!#%^"
  {
    SpecialCharacters(c);
    var i :| 0 <= i < |word| && word[i] == c;
    assert PlainCharacter(word[i]);
  }

  /** The piece reads as words, the first of which is plain, or as none. */
  predicate ReadsAsWritten(split: Splitter, piece: string)
  {
    split(piece).Some? && (split(piece).value != [] ==> PlainCommandWord(split(piece).value[0]))
  }

  lemma {:induction false} CheckPiecesIff(split: Splitter, pieces: seq<string>)
    ensures CheckPieces(split, pieces).Some? <==> forall i :: 0 <= i < |pieces| ==> ReadsAsWritten(split, pieces[i])
  {
    if pieces != [] {
      CheckPiecesIff(split, pieces[1..]);
      assert forall i :: 1 <= i < |pieces| ==> pieces[i] == pieces[1..][i - 1];
      assert forall i :: 0 <= i < |pieces| - 1 ==> pieces[1..][i] == pieces[i + 1];
    }
  }

  /** A command can be checked exactly when nothing in it expands and every piece of it between separators reads
      as written. */
  lemma CheckedIff(split: Splitter, command: string) returns (pieces: seq<string>, between: string)
    ensures PiecesOf(command, SEPARATING, pieces, between)
    ensures CheckedParts(split, command).Some?
            <==> FreeOf(command, EXPANDING) && forall i :: 0 <= i < |pieces| ==> ReadsAsWritten(split, pieces[i])
  {
    pieces := Split(command, SEPARATORS);
    between := PiecesSeparated(command);
    FreeMeans(command);
    CheckPiecesIff(split, pieces);
  }

  /** A simple command is one without separators whose only part can be checked. */
  lemma SimpleIff(split: Splitter, command: string, words: seq<string>)
    ensures SimpleCommand(split, command) == Some(words)
            <==> FreeOf(command, SEPARATING) && CheckedParts(split, command) == Some([words])
  {
    FreeMeans(command);
    if !Contains(command, SEPARATORS) {
      SplitFree(command, SEPARATORS);
      assert [command][1..] == [];
      assert CheckPieces(split, []) == Some([]);
      OneChecked(split, command);
    }
  }

  lemma OneChecked(split: Splitter, piece: string)
    ensures CheckPieces(split, [piece])
            == if !ReadsAsWritten(split, piece) then None
               else if split(piece).value == [] then Some([]) else Some([split(piece).value])
  {
    var rest := [piece][1..];
    assert rest == [] && CheckPieces(split, rest) == Some([]);
    var words := split(piece);
    if words.Some? { assert [words.value] + [] == [words.value]; }
  }

  // ----- What entries match -----

  /** A shell entry allows exactly the commands that are one simple command the pattern means. */
  lemma ShellAllowsMeans(words: seq<string>, split: Splitter, call: CallFacts)
    ensures ShellRule(words).Allows(split, call)
            <==> call.tool == RUN_SHELL && call.command.Some?
                 && FreeOf(call.command.value, SEPARATING + EXPANDING) && Reads(split, call.command.value)
                 && PlainCommandWord(split(call.command.value).value[0])
                 && WordsMean(words, split(call.command.value).value)
  {
    hide WordsMatch, WordsMean, FreeOf, Contains, PlainCommandWord;
    var rule := ShellRule(words);
    assert rule.Tool() == RUN_SHELL;
    if call.tool == RUN_SHELL && call.command.Some? {
      var command := call.command.value;
      FreeMeans(command);
      var simple := SimpleCommand(split, command);
      assert rule.Allows(split, call) <==> simple.Some? && WordsMatch(words, simple.value);
      assert simple == if FreeOf(command, SEPARATING + EXPANDING) && Reads(split, command)
                          && PlainCommandWord(split(command).value[0]) then split(command) else None;
      if simple.Some? { WordsMatchMeans(words, simple.value); }
    } else {
      assert !rule.Allows(split, call);
    }
  }

  /** A shell entry denies exactly the commands with some piece, between separating and expanding characters,
      whose words the pattern means. */
  lemma ShellDeniesMeans(words: seq<string>, split: Splitter, call: CallFacts)
    returns (pieces: seq<string>, between: string)
    ensures call.command.Some? ==> PiecesOf(call.command.value, SEPARATING + EXPANDING, pieces, between)
    ensures ShellRule(words).Denies(split, call)
            <==> call.tool == RUN_SHELL && call.command.Some?
                 && exists i :: 0 <= i < |pieces| && Reads(split, pieces[i]) && WordsMean(words, split(pieces[i]).value)
  {
    hide WordsMatch, WordsMean, Selected, PiecesOf, CommandParts;
    pieces, between := [], [];
    if call.command.Some? {
      var read, at;
      pieces, between, read, at := PartsMean(split, call.command.value);
      SelectedElements(split, pieces, read, at);
      SomeMeans(words, split, pieces, read, CommandParts(split, call.command.value));
    }
  }

  lemma SomeMeans(words: seq<string>, split: Splitter, pieces: seq<string>, read: seq<string>, parts: seq<seq<string>>)
    requires |parts| == |read| && forall k :: 0 <= k < |read| ==> split(read[k]) == Some(parts[k])
    requires forall i :: 0 <= i < |pieces| && Reads(split, pieces[i]) ==> pieces[i] in read
    requires forall k :: 0 <= k < |read| ==> read[k] in pieces && Reads(split, read[k])
    ensures (exists k :: 0 <= k < |parts| && WordsMatch(words, parts[k]))
            <==> exists i :: 0 <= i < |pieces| && Reads(split, pieces[i]) && WordsMean(words, split(pieces[i]).value)
  {
    hide WordsMatch, WordsMean;
    if k :| 0 <= k < |parts| && WordsMatch(words, parts[k]) {
      WordsMatchMeans(words, parts[k]);
      var i :| 0 <= i < |pieces| && pieces[i] == read[k];
      assert Reads(split, pieces[i]);
    }
    if i :| 0 <= i < |pieces| && Reads(split, pieces[i]) && WordsMean(words, split(pieces[i]).value) {
      var k :| 0 <= k < |read| && read[k] == pieces[i];
      WordsMatchMeans(words, parts[k]);
    }
  }

  lemma SelectedElements(split: Splitter, pieces: seq<string>, read: seq<string>, at: seq<nat>)
    requires Selected(pieces, piece => split(piece).Some? && split(piece).value != [], read, at)
    ensures forall i :: 0 <= i < |pieces| && Reads(split, pieces[i]) ==> pieces[i] in read
    ensures forall k :: 0 <= k < |read| ==> read[k] in pieces && Reads(split, read[k])
  {
    var wanted := piece => split(piece).Some? && split(piece).value != [];
    forall i | 0 <= i < |pieces| && Reads(split, pieces[i])
      ensures pieces[i] in read
    {
      assert wanted(pieces[i]) && i in at;
      var k :| 0 <= k < |at| && at[k] == i;
      assert read[k] == pieces[i];
    }
    forall k | 0 <= k < |read|
      ensures read[k] in pieces && Reads(split, read[k])
    {
      var i := at[k];
      assert i in at && read[k] == pieces[i] && wanted(pieces[i]);
    }
  }

  /** An entry that names a tool matches all its calls; one that also names a path pattern, those that opened an
      object whose path the pattern, as it is kept, matches. */
  lemma EntriesMean(tool: string, pattern: string, split: Splitter, call: CallFacts)
    ensures ToolRule(tool).Allows(split, call) <==> call.tool == tool
    ensures ToolRule(tool).Denies(split, call) <==> call.tool == tool
    ensures PathRule(tool, pattern).Allows(split, call) == PathRule(tool, pattern).Denies(split, call)
    ensures PathRule(tool, pattern).Allows(split, call)
            <==> call.tool == tool && call.path.Some?
                 && Sensitive.Counts(pattern, Sensitive.StripAll(Sensitive.StripAll(call.path.value, "./"), "/"))
  {
    hide Sensitive.Counts, Sensitive.Matches, Sensitive.StripAll, Sensitive.NewPatterns;
    if call.path.Some? {
      var one, path := [pattern], call.path.value;
      var relative := Sensitive.StripAll(Sensitive.StripAll(path, "./"), "/");
      Sensitive.NewPatternsMean(one, path);
      assert one[0] == pattern;
      assert Sensitive.Matches(Sensitive.NewPatterns(one), path) <==> Sensitive.Counts(pattern, relative);
    }
  }

  /** The tool an entry is about. */
  function About(rule: Rule): string
  {
    match rule case ToolRule(name) => name case ShellRule(_) => RUN_SHELL case PathRule(tool, _) => tool
  }

  /** An entry is covered by itself, and by one that names its whole tool, and by nothing else. */
  lemma CoveredMeans(rule: Rule, other: Rule)
    ensures rule.CoveredBy(other) <==> rule == other || other == ToolRule(About(rule))
  {
  }

  // ----- The table -----

  function ByMode(mode: Mode, off: Decision, ask: Decision, auto: Decision): Decision
  {
    match mode case Off => off case Ask => ask case Auto => auto
  }

  /** The first entry that allows the call names a path. */
  ghost predicate FirstNamesPath(rules: seq<Rule>, split: Splitter, call: CallFacts)
  {
    exists i :: 0 <= i < |rules| && FirstAt(rules, split, call, i) && rules[i].PathRule?
  }

  predicate FirstAt(rules: seq<Rule>, split: Splitter, call: CallFacts, i: nat)
    requires i < |rules|
  {
    rules[i].Allows(split, call) && forall k :: 0 <= k < i ==> !rules[k].Allows(split, call)
  }

  /** `line` is what the table says of the call: its lines in order, each for what no line before it took. */
  ghost predicate SaysTheTable(
    policy: Policy, split: Splitter, call: CallFacts, mode: Mode, base: bool, line: Decision)
  {
    var denied := exists i :: 0 <= i < |policy.denied| && policy.denied[i].Denies(split, call);
    var always := exists i :: 0 <= i < |policy.alwaysAllowed| && policy.alwaysAllowed[i].Allows(split, call);
    var listed := policy.allowed.Some?
                  && exists i :: 0 <= i < |policy.allowed.value| && policy.allowed.value[i].Allows(split, call);
    var exempt := !call.sensitive || (base && FirstNamesPath(policy.alwaysAllowed, split, call));
    && (denied ==> line == Deny)
    && (!denied && !always && !listed && policy.allowed.Some? ==> line == Deny)
    && (!denied && always && exempt ==> line == ByMode(mode, Deny, Run, Run))
    && (!denied && always && !exempt ==> line == ByMode(mode, Deny, Prompt, Run))
    && (!denied && !always && listed ==> line == ByMode(mode, Deny, Prompt, Run))
    && (!denied && !always && policy.allowed.None? && !base ==> line == Run)
    && (!denied && !always && policy.allowed.None? && base ==>
          line == if call.gated then ByMode(mode, Deny, Prompt, Run) else Run)
  }

  lemma FirstLater(rules: seq<Rule>, split: Splitter, call: CallFacts)
    requires rules != [] && !rules[0].Allows(split, call)
    ensures FirstNamesPath(rules, split, call) <==> FirstNamesPath(rules[1..], split, call)
  {
    hide Rule.Allows;
    var rest := rules[1..];
    assert forall k :: 1 <= k < |rules| ==> rules[k] == rest[k - 1];
    if FirstNamesPath(rules, split, call) {
      var j :| 0 <= j < |rules| && FirstAt(rules, split, call, j) && rules[j].PathRule?;
      forall k | 0 <= k < j - 1
        ensures !rest[k].Allows(split, call)
      {
        assert rest[k] == rules[k + 1];
      }
      assert FirstAt(rest, split, call, j - 1);
    }
    if FirstNamesPath(rest, split, call) {
      var j :| 0 <= j < |rest| && FirstAt(rest, split, call, j) && rest[j].PathRule?;
      assert FirstAt(rules, split, call, j + 1);
    }
  }

  lemma {:induction false} FirstAllowingIsFirst(rules: seq<Rule>, split: Splitter, call: CallFacts)
    requires AnyAllows(rules, split, call)
    ensures FirstAllowing(rules, split, call).value.PathRule? <==> FirstNamesPath(rules, split, call)
  {
    hide Rule.Allows;
    if rules[0].Allows(split, call) {
      assert FirstAt(rules, split, call, 0);
    } else {
      var i :| 0 <= i < |rules| && rules[i].Allows(split, call);
      assert rules[1..][i - 1] == rules[i];
      FirstAllowingIsFirst(rules[1..], split, call);
      FirstLater(rules, split, call);
    }
  }

  /** Shell commands are denied by pattern, and this one is not there, expands, or has a piece that does not read
      as written. */
  ghost predicate Unreadable(policy: Policy, split: Splitter, call: CallFacts)
  {
    && call.tool == RUN_SHELL && (exists i :: 0 <= i < |policy.denied| && policy.denied[i].ShellRule?)
    && (call.command.None? || !FreeOf(call.command.value, EXPANDING)
        || exists pieces, between, i :: 0 <= i < |pieces| && PiecesOf(call.command.value, SEPARATING, pieces, between)
             && !ReadsAsWritten(split, pieces[i]))
  }

  /** There is one piece exactly when the text has no special character. */
  lemma OnePiece(command: string, special: string, pieces: seq<string>, between: string)
    requires PiecesOf(command, special, pieces, between)
    ensures between == [] <==> FreeOf(command, special)
  {
    FirstPiece(pieces, between);
    if between != [] {
      assert between[0] in special && command[|pieces[0]|] == between[0];
      assert between[0] in command;
    }
  }

  /** Pieces are determined by the text and the characters between them. */
  lemma {:induction false} PiecesUnique(
    command: string, special: string, a: seq<string>, x: string, b: seq<string>, y: string)
    requires PiecesOf(command, special, a, x) && PiecesOf(command, special, b, y)
    ensures a == b
    decreases |a|
  {
    hide FreeOf, Spelled;
    OnePiece(command, special, a, x);
    OnePiece(command, special, b, y);
    FirstPiece(a, x);
    FirstPiece(b, y);
    if x != [] {
      var rest, other := Spelled(a[1..], x[1..]), Spelled(b[1..], y[1..]);
      FirstSpecial(command, special, a[0], x[0], rest, b[0], y[0], other);
      assert forall i :: 0 <= i < |a| - 1 ==> a[1..][i] == a[i + 1];
      assert forall i :: 0 <= i < |b| - 1 ==> b[1..][i] == b[i + 1];
      PiecesUnique(rest, special, a[1..], x[1..], b[1..], y[1..]);
      assert a == [a[0]] + a[1..] && b == [b[0]] + b[1..];
    }
  }

  lemma FirstPiece(pieces: seq<string>, between: string)
    requires |pieces| == |between| + 1
    ensures Spelled(pieces, between)
            == if between == [] then pieces[0] else pieces[0] + [between[0]] + Spelled(pieces[1..], between[1..])
  {
  }

  lemma SpecialInside(a: string, x: char, rest: string, b: string, tail: string)
    ensures a + [x] + rest == b + tail && |a| < |b| ==> x in b
  {
    var command := a + [x] + rest;
    assert command[|a|] == x;
    if command == b + tail && |a| < |b| {
      assert b[|a|] == command[|a|];
    }
  }

  lemma FirstSpecial(
    command: string, special: string, a: string, x: char, rest: string, b: string, y: char, other: string)
    requires command == a + [x] + rest == b + [y] + other
    requires x in special && y in special && FreeOf(a, special) && FreeOf(b, special)
    ensures a == b && x == y && rest == other
  {
    SpecialInside(a, x, rest, b, [y] + other);
    SpecialInside(b, y, other, a, [x] + rest);
    assert a + ([x] + rest) == a + [x] + rest && b + ([y] + other) == b + [y] + other;
    assert |a| == |b|;
    assert command[|a|] == x && command[|b|] == y;
    assert a == command[..|a|] && b == command[..|b|];
    assert rest == command[|a| + 1..] && other == command[|b| + 1..];
  }

  lemma UnreadableIff(policy: Policy, split: Splitter, call: CallFacts)
    ensures Unreadable(policy, split, call) <==> policy.Uncheckable(split, call)
  {
    hide PiecesOf, ReadsAsWritten, CheckedParts;
    if call.command.Some? {
      var command := call.command.value;
      var pieces, between := CheckedIff(split, command);
      if others, x, i :| 0 <= i < |others| && PiecesOf(command, SEPARATING, others, x)
                         && !ReadsAsWritten(split, others[i]) {
        PiecesUnique(command, SEPARATING, others, x, pieces, between);
      }
      var unlike := exists i :: 0 <= i < |pieces| && PiecesOf(command, SEPARATING, pieces, between)
                                && !ReadsAsWritten(split, pieces[i]);
      assert CheckedParts(split, command).None? <==> !FreeOf(command, EXPANDING) || unlike;
    }
  }

  /** A policy decides what its table says, but a command that cannot be read is at most prompted in `ask` and
      denied otherwise. */
  lemma DecisionMeans(policy: Policy, split: Splitter, call: CallFacts, mode: Mode, base: bool)
    returns (line: Decision)
    ensures SaysTheTable(policy, split, call, mode, base, line)
    ensures policy.Decide(split, call, mode, base)
            == if !Unreadable(policy, split, call) then line
               else if mode == Ask && line != Deny then Prompt else Deny
  {
    hide Unreadable, Policy.Uncheckable, Rule.Allows, Rule.Denies, FirstNamesPath;
    line := policy.ByRules(split, call, mode, base);
    UnreadableIff(policy, split, call);
    if AnyAllows(policy.alwaysAllowed, split, call) { FirstAllowingIsFirst(policy.alwaysAllowed, split, call); }
  }

  /** The table determines its line. */
  lemma TableUnique(
    policy: Policy, split: Splitter, call: CallFacts, mode: Mode, base: bool, a: Decision, b: Decision)
    requires SaysTheTable(policy, split, call, mode, base, a) && SaysTheTable(policy, split, call, mode, base, b)
    ensures a == b
  {
    hide Rule.Allows, Rule.Denies, FirstNamesPath;
  }

  /** Host and overlay together: denied if either denies, run only if both run. */
  lemma CombinedMeans(rules: ApprovalRules, split: Splitter, call: CallFacts, mode: Mode)
    ensures var host := rules.base.Decide(split, call, mode, true);
            var client := if rules.overlay.Some? then rules.overlay.value.Decide(split, call, mode, false) else Run;
            && (rules.Decide(split, call, mode) == Deny <==> host == Deny || client == Deny)
            && (rules.Decide(split, call, mode) == Run <==> host == Run && client == Run)
  {
    hide Policy.Decide;
  }
}
