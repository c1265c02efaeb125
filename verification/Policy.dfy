/** Approval policies: which tool calls run, which need a human decision, and which are refused. */
module ApprovalPolicies {
  import opened Wrappers
  import opened Text
  import opened Wildcards
  import Sensitive

  /** POSIX word splitting, which fails on unbalanced quotes. Not part of this model: any function will do. */
  type Splitter = string -> Option<seq<string>>

  datatype Mode = Off | Ask | Auto

  /** Ordered from strictest. */
  datatype Decision = Deny | Prompt | Run

  function Rank(d: Decision): nat
  {
    match d case Deny => 0 case Prompt => 1 case Run => 2
  }

  predicate AtMost(a: Decision, b: Decision)
  {
    Rank(a) <= Rank(b)
  }

  function Stricter(a: Decision, b: Decision): Decision
  {
    if AtMost(a, b) then a else b
  }

  datatype CallFacts = CallFacts(
    tool: string,
    command: Option<string>,
    path: Option<string>,
    gated: bool,
    sensitive: bool)

  const RUN_SHELL: string := "run_shell"

  const SEPARATORS: set<char> := {'|', ';', '&', '<', '>', '\n', '\r'}
  const EXPANSIONS: set<char> := {'`', '$', '(', ')', '{', '}'}

  // ----- Reading a shell command -----

  predicate PlainCharacter(c: char)
  {
    || 'a' <= c <= 'z' || 'A' <= c <= 'Z' || '0' <= c <= '9'
    || c in {'_', '-', '.', '/', '+', ':', '@', ','}
  }

  /** A command name or path the shell runs as written. */
  predicate PlainCommandWord(word: string)
  {
    word != [] && forall i :: 0 <= i < |word| ==> PlainCharacter(word[i])
  }

  /** The words of `command` if it is one simple command whose command word is plain. */
  function SimpleCommand(split: Splitter, command: string): Option<seq<string>>
  {
    if Contains(command, SEPARATORS) || Contains(command, EXPANSIONS) then None
    else
      var words := split(command);
      if words.Some? && words.value != [] && PlainCommandWord(words.value[0]) then words else None
  }

  /** The words of the pieces that can be read; the others are skipped. */
  function ReadPieces(split: Splitter, pieces: seq<string>): seq<seq<string>>
  {
    if pieces == [] then []
    else
      var words, rest := split(pieces[0]), ReadPieces(split, pieces[1..]);
      if words.Some? && words.value != [] then [words.value] + rest else rest
  }

  function CommandParts(split: Splitter, command: string): seq<seq<string>>
  {
    ReadPieces(split, Split(command, SEPARATORS + EXPANSIONS))
  }

  /** The words of the pieces if every one of them is a simple command read as written. */
  function CheckPieces(split: Splitter, pieces: seq<string>): Option<seq<seq<string>>>
  {
    if pieces == [] then Some([])
    else
      var words, rest := split(pieces[0]), CheckPieces(split, pieces[1..]);
      if words.None? || rest.None? then None
      else if words.value == [] then rest
      else if PlainCommandWord(words.value[0]) then Some([words.value] + rest.value)
      else None
  }

  function CheckedParts(split: Splitter, command: string): Option<seq<seq<string>>>
  {
    if Contains(command, EXPANSIONS) then None else CheckPieces(split, Split(command, SEPARATORS))
  }

  function Prepend<T>(done: seq<T>, rest: Option<seq<T>>): Option<seq<T>>
  {
    if rest.None? then None else Some(done + rest.value)
  }

  /** `checked_parts` as a loop that stops at the first piece it cannot read. */
  method CheckParts(split: Splitter, command: string) returns (checked: Option<seq<seq<string>>>)
    ensures checked == CheckedParts(split, command)
  {
    if Contains(command, EXPANSIONS) {
      return None;
    }
    var pieces, parts: seq<seq<string>> := Split(command, SEPARATORS), [];
    assert pieces[0..] == pieces;
    PrependUnits(CheckPieces(split, pieces));
    for i := 0 to |pieces|
      invariant CheckPieces(split, pieces) == Prepend(parts, CheckPieces(split, pieces[i..]))
    {
      PrependMore(parts, split(pieces[i]), CheckPieces(split, pieces[i + 1..]));
      assert pieces[i..][0] == pieces[i] && pieces[i..][1..] == pieces[i + 1..];
      var words := split(pieces[i]);
      if words.None? || (words.value != [] && !PlainCommandWord(words.value[0])) {
        return None;
      }
      if words.value != [] {
        parts := parts + [words.value];
      }
    }
    assert parts + [] == parts;
    return Some(parts);
  }

  lemma PrependUnits<T>(rest: Option<seq<T>>)
    ensures Prepend([], rest) == rest
  {
    if rest.Some? { assert [] + rest.value == rest.value; }
  }

  lemma PrependMore<T>(done: seq<T>, next: Option<T>, rest: Option<seq<T>>)
    ensures next.Some? && rest.Some? ==> done + ([next.value] + rest.value) == (done + [next.value]) + rest.value
  {
  }

  lemma {:induction false} CheckedPiecesAreRead(split: Splitter, pieces: seq<string>)
    requires CheckPieces(split, pieces).Some?
    ensures ReadPieces(split, pieces) == CheckPieces(split, pieces).value
    ensures forall i :: 0 <= i < |pieces| ==> split(pieces[i]).Some?
  {
    if pieces != [] {
      CheckedPiecesAreRead(split, pieces[1..]);
      assert forall i :: 1 <= i < |pieces| ==> pieces[i] == pieces[1..][i - 1];
    }
  }

  /** Where a command can be checked, the best-effort reading is the exact one. */
  lemma PartsAgree(split: Splitter, command: string)
    requires CheckedParts(split, command).Some?
    ensures CommandParts(split, command) == CheckedParts(split, command).value
  {
    SplitIgnoresAbsent(command, SEPARATORS, EXPANSIONS);
    CheckedPiecesAreRead(split, Split(command, SEPARATORS));
  }

  lemma NoneOfEither(s: string, a: set<char>, b: set<char>)
    requires !Contains(s, a) && !Contains(s, b)
    ensures !Contains(s, a + b)
  {
  }

  /** A simple command is its own only part. */
  lemma SimpleIsOnlyPart(split: Splitter, command: string)
    requires SimpleCommand(split, command).Some?
    ensures CommandParts(split, command) == [SimpleCommand(split, command).value]
  {
    NoneOfEither(command, SEPARATORS, EXPANSIONS);
    SplitFree(command, SEPARATORS + EXPANSIONS);
    assert [command][1..] == [];
    assert ReadPieces(split, [command][1..]) == [];
  }

  // ----- Rules -----

  datatype Rule = ToolRule(name: string) | ShellRule(words: seq<string>) | PathRule(tool: string, pattern: string)
  {
    function Tool(): string
    {
      match this
      case ToolRule(name) => name
      case PathRule(tool, _) => tool
      case ShellRule(_) => RUN_SHELL
    }

    predicate Allows(split: Splitter, call: CallFacts)
    {
      && Tool() == call.tool
      && match this
         case ToolRule(_) => true
         case ShellRule(words) =>
           && call.command.Some?
           && var simple := SimpleCommand(split, call.command.value);
              simple.Some? && WordsMatch(words, simple.value)
         case PathRule(_, pattern) =>
           call.path.Some? && Sensitive.Matches(Sensitive.NewPatterns([pattern]), call.path.value)
    }

    /** Shell patterns are also checked against each part of a compound command. */
    predicate Denies(split: Splitter, call: CallFacts)
    {
      if ShellRule? then
        && Tool() == call.tool
        && call.command.Some?
        && var parts := CommandParts(split, call.command.value);
           exists i :: 0 <= i < |parts| && WordsMatch(words, parts[i])
      else Allows(split, call)
    }

    predicate CoveredBy(other: Rule)
    {
      this == other || (other.ToolRule? && other.name == Tool())
    }
  }

  lemma AllowsImpliesDenies(rule: Rule, split: Splitter, call: CallFacts)
    requires rule.Allows(split, call)
    ensures rule.Denies(split, call)
  {
    if rule.ShellRule? {
      var command := call.command.value;
      SimpleIsOnlyPart(split, command);
      assert CommandParts(split, command)[0] == SimpleCommand(split, command).value;
    }
  }

  /** A denial that covers an allow entry denies every call the entry allows. */
  lemma CoveredIsDenied(rule: Rule, denial: Rule, split: Splitter, call: CallFacts)
    requires rule.CoveredBy(denial) && rule.Allows(split, call)
    ensures denial.Denies(split, call)
  {
    if rule == denial { AllowsImpliesDenies(rule, split, call); }
  }

  // ----- Policies -----

  predicate AnyAllows(rules: seq<Rule>, split: Splitter, call: CallFacts)
  {
    exists i :: 0 <= i < |rules| && rules[i].Allows(split, call)
  }

  predicate AnyDenies(rules: seq<Rule>, split: Splitter, call: CallFacts)
  {
    exists i :: 0 <= i < |rules| && rules[i].Denies(split, call)
  }

  /** The first rule that allows the call. */
  function FirstAllowing(rules: seq<Rule>, split: Splitter, call: CallFacts): (found: Option<Rule>)
    ensures found.Some? <==> AnyAllows(rules, split, call)
    ensures found.Some? ==> found.value in rules && found.value.Allows(split, call)
  {
    if rules == [] then None
    else if rules[0].Allows(split, call) then Some(rules[0])
    else
      assert forall i :: 1 <= i < |rules| ==> rules[i] == rules[1..][i - 1];
      FirstAllowing(rules[1..], split, call)
  }

  function DefaultDecision(call: CallFacts, mode: Mode): Decision
  {
    if !call.gated then Run
    else match mode case Off => Deny case Ask => Prompt case Auto => Run
  }

  /** The decision from the lists a call matches: the first line that applies. */
  function Table(
    denied: bool, exclusive: bool, always: Option<Rule>, listed: bool,
    call: CallFacts, mode: Mode, base: bool): Decision
  {
    if denied then Deny
    else if exclusive && always.None? && !listed then Deny
    else if always.Some? || listed then
      if mode == Off then Deny
      else
        var needsPrompt := always.None? || (call.sensitive && !(base && always.value.PathRule?));
        if needsPrompt && mode == Ask then Prompt else Run
    else if !base then Run
    else DefaultDecision(call, mode)
  }

  datatype Policy = Policy(alwaysAllowed: seq<Rule>, allowed: Option<seq<Rule>>, denied: seq<Rule>)
  {
    predicate DeniesShellByPattern()
    {
      exists i :: 0 <= i < |denied| && denied[i].ShellRule?
    }

    /** Shell commands are denied by pattern, and this one cannot be checked against the patterns. */
    predicate Uncheckable(split: Splitter, call: CallFacts)
    {
      && call.tool == RUN_SHELL
      && DeniesShellByPattern()
      && (call.command.None? || CheckedParts(split, call.command.value).None?)
    }

    function ByRules(split: Splitter, call: CallFacts, mode: Mode, base: bool): Decision
    {
      var always := FirstAllowing(alwaysAllowed, split, call);
      var listed := allowed.Some? && FirstAllowing(allowed.value, split, call).Some?;
      Table(AnyDenies(denied, split, call), allowed.Some?, always, listed, call, mode, base)
    }

    function Decide(split: Splitter, call: CallFacts, mode: Mode, base: bool): Decision
    {
      var decision := ByRules(split, call, mode, base);
      if Uncheckable(split, call) then Stricter(decision, if mode == Ask then Prompt else Deny) else decision
    }
  }

  datatype ApprovalRules = ApprovalRules(base: Policy, overlay: Option<Policy>)
  {
    function Decide(split: Splitter, call: CallFacts, mode: Mode): Decision
    {
      var decision := base.Decide(split, call, mode, true);
      if overlay.Some? then Stricter(decision, overlay.value.Decide(split, call, mode, false)) else decision
    }
  }

  // ----- Denial completeness -----

  /** The command is read in full and no part of it matches a denial. */
  predicate ReadAndClear(policy: Policy, split: Splitter, call: CallFacts)
  {
    && call.command.Some?
    && var parts := CheckedParts(split, call.command.value);
       && parts.Some?
       && forall i, j :: 0 <= i < |policy.denied| && 0 <= j < |parts.value| && policy.denied[i].ShellRule? ==>
            !WordsMatch(policy.denied[i].words, parts.value[j])
  }

  lemma PolicyRunsOnlyWhatItCanRead(policy: Policy, split: Splitter, call: CallFacts, mode: Mode, base: bool)
    requires call.tool == RUN_SHELL && policy.DeniesShellByPattern()
    requires policy.Decide(split, call, mode, base) == Run
    ensures ReadAndClear(policy, split, call)
  {
    PartsAgree(split, call.command.value);
    var parts := CheckedParts(split, call.command.value).value;
    forall i, j | 0 <= i < |policy.denied| && 0 <= j < |parts| && policy.denied[i].ShellRule?
      ensures !WordsMatch(policy.denied[i].words, parts[j])
    {
      assert !policy.denied[i].Denies(split, call);
    }
  }

  /** Chaining and quoting cannot get around a denial, in the host's policy or in an overlay. */
  lemma RunsOnlyWhatItCanRead(rules: ApprovalRules, split: Splitter, call: CallFacts, mode: Mode)
    requires call.tool == RUN_SHELL && rules.Decide(split, call, mode) == Run
    ensures rules.base.DeniesShellByPattern() ==> ReadAndClear(rules.base, split, call)
    ensures rules.overlay.Some? && rules.overlay.value.DeniesShellByPattern() ==>
              ReadAndClear(rules.overlay.value, split, call)
  {
    if rules.base.DeniesShellByPattern() {
      PolicyRunsOnlyWhatItCanRead(rules.base, split, call, mode, true);
    }
    if rules.overlay.Some? && rules.overlay.value.DeniesShellByPattern() {
      PolicyRunsOnlyWhatItCanRead(rules.overlay.value, split, call, mode, false);
    }
  }

  // ----- Policy algebra -----

  function InsertAt<T>(s: seq<T>, i: nat, x: T): seq<T>
    requires i <= |s|
  {
    s[..i] + [x] + s[i..]
  }

  function RemoveAt<T>(s: seq<T>, i: nat): seq<T>
    requires i < |s|
  {
    s[..i] + s[i + 1..]
  }

  /** Where the elements of `s` are after an insertion. */
  lemma Inserted<T>(s: seq<T>, i: nat, x: T, k: nat)
    requires i <= |s| && k < |s|
    ensures var at := if k < i then k else k + 1;
            at < |InsertAt(s, i, x)| && InsertAt(s, i, x)[at] == s[k]
  {
  }

  lemma InsertedStillDenies(denied: seq<Rule>, i: nat, denial: Rule, split: Splitter, call: CallFacts)
    requires i <= |denied| && AnyDenies(denied, split, call)
    ensures AnyDenies(InsertAt(denied, i, denial), split, call)
  {
    var k :| 0 <= k < |denied| && denied[k].Denies(split, call);
    Inserted(denied, i, denial, k);
  }

  lemma InsertedStillUncheckable(policy: Policy, i: nat, denial: Rule, split: Splitter, call: CallFacts)
    requires i <= |policy.denied| && policy.Uncheckable(split, call)
    ensures policy.(denied := InsertAt(policy.denied, i, denial)).Uncheckable(split, call)
  {
    var k :| 0 <= k < |policy.denied| && policy.denied[k].ShellRule?;
    Inserted(policy.denied, i, denial, k);
  }

  /** One more denial never loosens a decision. */
  lemma DenialNeverLoosens(
    policy: Policy, i: nat, denial: Rule, split: Splitter, call: CallFacts, mode: Mode, base: bool)
    requires i <= |policy.denied|
    ensures var more := policy.(denied := InsertAt(policy.denied, i, denial));
            AtMost(more.Decide(split, call, mode, base), policy.Decide(split, call, mode, base))
  {
    if AnyDenies(policy.denied, split, call) { InsertedStillDenies(policy.denied, i, denial, split, call); }
    if policy.Uncheckable(split, call) { InsertedStillUncheckable(policy, i, denial, split, call); }
  }

  /** An overlay can only restrict, and a denial added to it restricts further. */
  lemma OverlayNeverLoosens(
    base: Policy, overlay: Policy, i: nat, denial: Rule, split: Splitter, call: CallFacts, mode: Mode)
    requires i <= |overlay.denied|
    ensures var alone := ApprovalRules(base, None).Decide(split, call, mode);
            var with := ApprovalRules(base, Some(overlay)).Decide(split, call, mode);
            var more := overlay.(denied := InsertAt(overlay.denied, i, denial));
            AtMost(ApprovalRules(base, Some(more)).Decide(split, call, mode), with) && AtMost(with, alone)
  {
    DenialNeverLoosens(overlay, i, denial, split, call, mode, false);
  }

  lemma {:induction false} RemoveUnused(rules: seq<Rule>, i: nat, split: Splitter, call: CallFacts)
    requires i < |rules| && !rules[i].Allows(split, call)
    ensures FirstAllowing(RemoveAt(rules, i), split, call) == FirstAllowing(rules, split, call)
  {
    if i == 0 {
      assert RemoveAt(rules, 0) == rules[1..];
    } else {
      assert RemoveAt(rules, i)[0] == rules[0];
      assert RemoveAt(rules, i)[1..] == RemoveAt(rules[1..], i - 1);
      RemoveUnused(rules[1..], i - 1, split, call);
    }
  }

  predicate Overridden(policy: Policy, rule: Rule)
  {
    exists i :: 0 <= i < |policy.denied| && rule.CoveredBy(policy.denied[i])
  }

  lemma OverriddenNeverDecides(policy: Policy, rule: Rule, split: Splitter, call: CallFacts)
    requires Overridden(policy, rule) && rule.Allows(split, call)
    ensures AnyDenies(policy.denied, split, call)
  {
    var i :| 0 <= i < |policy.denied| && rule.CoveredBy(policy.denied[i]);
    CoveredIsDenied(rule, policy.denied[i], split, call);
  }

  /** An `always_allowed` entry with a warning can be removed without changing any decision. */
  lemma WarnedAlwaysAllowedHasNoEffect(policy: Policy, i: nat, split: Splitter, call: CallFacts, mode: Mode, base: bool)
    requires i < |policy.alwaysAllowed| && Overridden(policy, policy.alwaysAllowed[i])
    ensures var less := policy.(alwaysAllowed := RemoveAt(policy.alwaysAllowed, i));
            less.Decide(split, call, mode, base) == policy.Decide(split, call, mode, base)
  {
    hide AnyDenies, FirstAllowing;
    var rule := policy.alwaysAllowed[i];
    if rule.Allows(split, call) {
      OverriddenNeverDecides(policy, rule, split, call);
    } else {
      RemoveUnused(policy.alwaysAllowed, i, split, call);
    }
  }

  /** Likewise for an `allowed` entry: the list stays, even when it becomes empty. */
  lemma WarnedAllowedHasNoEffect(policy: Policy, i: nat, split: Splitter, call: CallFacts, mode: Mode, base: bool)
    requires policy.allowed.Some? && i < |policy.allowed.value| && Overridden(policy, policy.allowed.value[i])
    ensures var less := policy.(allowed := Some(RemoveAt(policy.allowed.value, i)));
            less.Decide(split, call, mode, base) == policy.Decide(split, call, mode, base)
  {
    hide AnyDenies, FirstAllowing;
    var rule := policy.allowed.value[i];
    if rule.Allows(split, call) {
      OverriddenNeverDecides(policy, rule, split, call);
    } else {
      RemoveUnused(policy.allowed.value, i, split, call);
    }
  }

  // ----- Warnings -----

  /** The first denial that covers `rule`. */
  predicate FirstCover(denied: seq<Rule>, rule: Rule, denial: nat)
  {
    && denial < |denied|
    && rule.CoveredBy(denied[denial])
    && forall k :: 0 <= k < denial ==> !rule.CoveredBy(denied[k])
  }

  method FindCover(denied: seq<Rule>, rule: Rule) returns (found: Option<nat>)
    ensures found.Some? ==> FirstCover(denied, rule, found.value)
    ensures found.None? ==> forall k :: 0 <= k < |denied| ==> !rule.CoveredBy(denied[k])
  {
    for i := 0 to |denied|
      invariant forall k :: 0 <= k < i ==> !rule.CoveredBy(denied[k])
    {
      if rule.CoveredBy(denied[i]) {
        return Some(i);
      }
    }
    return None;
  }

  /** One warning for each overridden entry of one list, naming the denial that overrides it. */
  method OverriddenEntries(rules: seq<Rule>, denied: seq<Rule>) returns (found: seq<(nat, nat)>)
    ensures forall w :: w in found ==> w.0 < |rules| && FirstCover(denied, rules[w.0], w.1)
    ensures forall i :: 0 <= i < |rules| && (exists k :: 0 <= k < |denied| && rules[i].CoveredBy(denied[k])) ==>
              exists w :: w in found && w.0 == i
    ensures forall a, b :: 0 <= a < b < |found| ==> found[a].0 < found[b].0
  {
    found := [];
    for i := 0 to |rules|
      invariant forall w :: w in found ==> w.0 < i && FirstCover(denied, rules[w.0], w.1)
      invariant forall j :: 0 <= j < i && (exists k :: 0 <= k < |denied| && rules[j].CoveredBy(denied[k])) ==>
                  exists w :: w in found && w.0 == j
      invariant forall a, b :: 0 <= a < b < |found| ==> found[a].0 < found[b].0
    {
      var cover := FindCover(denied, rules[i]);
      if cover.Some? {
        ghost var before := found;
        found := found + [(i, cover.value)];
        assert (i, cover.value) in found;
        assert forall w :: w in before ==> w in found;
      }
    }
  }

  predicate Names(found: seq<(nat, nat)>, entry: nat)
  {
    exists w :: w in found && w.0 == entry
  }

  /** `parse` warns about exactly the allow entries that a denial overrides. */
  method ParseWarnings(policy: Policy) returns (always: seq<(nat, nat)>, listed: seq<(nat, nat)>)
    ensures forall i: nat :: i < |policy.alwaysAllowed| ==>
              (Names(always, i) <==> Overridden(policy, policy.alwaysAllowed[i]))
    ensures policy.allowed.Some? ==> forall i: nat :: i < |policy.allowed.value| ==>
              (Names(listed, i) <==> Overridden(policy, policy.allowed.value[i]))
    ensures policy.allowed.None? ==> listed == []
  {
    always := OverriddenEntries(policy.alwaysAllowed, policy.denied);
    listed := [];
    if policy.allowed.Some? {
      listed := OverriddenEntries(policy.allowed.value, policy.denied);
    }
  }

  // ----- Modes -----

  /** Only `ask` prompts. */
  lemma PromptsOnlyInAsk(rules: ApprovalRules, split: Splitter, call: CallFacts, mode: Mode)
    requires rules.Decide(split, call, mode) == Prompt
    ensures mode == Ask
  {
  }

  /** A more permissive mode decides at least as permissively, except that a command a denial cannot
      be checked against is prompted in `ask` and denied in `auto`. */
  lemma ModesOrdered(policy: Policy, split: Splitter, call: CallFacts, base: bool)
    ensures AtMost(policy.Decide(split, call, Off, base), policy.Decide(split, call, Ask, base))
    ensures AtMost(policy.Decide(split, call, Ask, base), policy.Decide(split, call, Auto, base))
            <==> !(policy.Uncheckable(split, call) && policy.ByRules(split, call, Ask, base) != Deny)
  {
  }

  predicate EitherUncheckable(rules: ApprovalRules, split: Splitter, call: CallFacts)
  {
    rules.base.Uncheckable(split, call) || (rules.overlay.Some? && rules.overlay.value.Uncheckable(split, call))
  }

  /** The same for the decision that counts, host and overlay combined: `auto` is stricter than `ask`
      exactly for calls that one of them cannot check and that `ask` does not deny. */
  lemma RulesOrdered(rules: ApprovalRules, split: Splitter, call: CallFacts)
    ensures AtMost(rules.Decide(split, call, Off), rules.Decide(split, call, Ask))
    ensures AtMost(rules.Decide(split, call, Ask), rules.Decide(split, call, Auto))
            <==> !(EitherUncheckable(rules, split, call) && rules.Decide(split, call, Ask) != Deny)
  {
    ModesOrdered(rules.base, split, call, true);
    if rules.overlay.Some? {
      ModesOrdered(rules.overlay.value, split, call, false);
    }
  }

  /** A lone expansion is prompted in `ask` and denied in `auto` once some shell pattern is denied. */
  lemma ModesCanInvert(split: Splitter)
    requires split([]) == Some([])
    ensures var policy := Policy([], None, [ShellRule(["rm", "*"])]);
            var call := CallFacts(RUN_SHELL, Some("$"), None, true, false);
            policy.Decide(split, call, Ask, true) == Prompt && policy.Decide(split, call, Auto, true) == Deny
  {
    var policy := Policy([], None, [ShellRule(["rm", "*"])]);
    var call := CallFacts(RUN_SHELL, Some("$"), None, true, false);
    assert "$"[0] in EXPANSIONS && Contains("$", EXPANSIONS);
    assert policy.denied[0].ShellRule? && policy.Uncheckable(split, call);
    assert "$"[1..] == [];
    var stops := SEPARATORS + EXPANSIONS;
    var pieces := Split("$", stops);
    assert "$"[0] in stops && Split("$"[1..], stops) == [[]];
    assert pieces[0] == [] && pieces[1..] == [[]] && pieces[1..][1..] == [];
    assert ReadPieces(split, pieces[1..]) == [];
    assert CommandParts(split, "$") == [];
  }
}
