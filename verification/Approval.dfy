/** Which calls run, asked or unasked, and what is granted to subagents: in every run in order, by any agent. */
module Approvals {
  import opened Wrappers
  import opened Text
  import opened Wildcards
  import opened Transcript
  import opened ApprovalPolicies
  import opened Decisions
  import opened Tools
  import opened Traces
  import opened Orders
  import Compaction

  /** The shell, and reading an object that is sensitive. */
  predicate NeedsApproval(tool: Tool, preparation: Preparation)
  {
    tool == RunShell || (preparation.Opened? && preparation.sensitive)
  }

  /** What the rules are told: the tool's name, a shell call's command, an opened object's path, and whether the
      call needs an approval, and does because of the path. */
  function Seen(call: ToolCall, tool: Tool, preparation: Preparation): CallFacts
  {
    var strings := call.arguments.strings;
    CallFacts(
      call.name,
      if tool == RunShell && "command" in strings then Some(strings["command"]) else None,
      if preparation.Opened? then Some(preparation.path) else None,
      NeedsApproval(tool, preparation),
      preparation.Opened? && preparation.sensitive)
  }

  /** The policy decides about the call's own command and the opened object's own path. */
  lemma RulesSee(law: Law, call: ToolCall, tool: Tool, preparation: Preparation)
    requires PreparedFor(tool, preparation)
    ensures PolicyDecision(law, call, tool, preparation)
            == law.rules.Decide(law.split, Seen(call, tool, preparation), law.mode)
  {
    assert Facts(call, tool, preparation) == Seen(call, tool, preparation);
  }

  const NOTHING: Policy := Policy([], None, [])

  /** No entry anywhere. */
  predicate Bare(rules: ApprovalRules)
  {
    rules.base == NOTHING && (rules.overlay == None || rules.overlay == Some(NOTHING))
  }

  /** Without entries the mode decides about calls that need an approval, and all others run. */
  lemma WithoutEntries(law: Law, call: ToolCall, tool: Tool, preparation: Preparation)
    requires Bare(law.rules) && PreparedFor(tool, preparation)
    ensures PolicyDecision(law, call, tool, preparation)
            == if NeedsApproval(tool, preparation) then ByMode(law.mode, Deny, Prompt, Run) else Run
  {
    RulesSee(law, call, tool, preparation);
    var call' := Seen(call, tool, preparation);
    NothingDecides(law.split, call', law.mode, true);
    NothingDecides(law.split, call', law.mode, false);
  }

  lemma NothingDecides(split: Splitter, call: CallFacts, mode: Mode, base: bool)
    ensures NOTHING.Decide(split, call, mode, base)
            == if base && call.gated then ByMode(mode, Deny, Prompt, Run) else Run
  {
    var line := DecisionMeans(NOTHING, split, call, mode, base);
    assert !Unreadable(NOTHING, split, call);
  }

  // ----- Before a dispatch -----

  /** The five or three actions before a dispatch at `k`, after its charge. */
  predicate ApprovedAt(t: seq<Action>, k: nat, asked: bool)
    requires k < |t| && t[k].Dispatch?
  {
    var d, n := t[k], if asked then 5 else 3;
    && k > n && t[k - n - 1].Charge? && t[k - n - 1].path == d.path && t[k - n - 1].call == d.call
    && t[k - n] == Decide(d.path, d.call, d.tool, d.preparation, if asked then Prompt else Run)
    && (asked ==>
          && t[k - 4].Emit? && t[k - 4].path == d.path && t[k - 4].event.ApprovalRequested?
          && t[k - 4].event.call == d.call && t[k - 4].event.reason == AskReason(d.tool, d.preparation)
          && t[k - 3] == AskUser(d.path, d.call, Approve))
    && t[k - 2] == Emit(d.path, ToolDecision(d.call.id, Approve))
    && t[k - 1] == Check(d.path, false)
  }

  /** Every dispatch comes after its charge and the policy's decision to run it, or to prompt and the person's
      approval; the observer is told, and the flag is found clear last. */
  lemma DispatchApproved(t: seq<Action>, law: Law, k: nat) returns (asked: bool)
    requires Orderly(t, law) && k < |t| && t[k].Dispatch?
    ensures ApprovedAt(t, k, asked)
    ensures var d := t[k];
            && PolicyDecision(law, d.call, d.tool, d.preparation) == (if asked then Prompt else Run)
            && PreparedFor(d.tool, d.preparation)
            && d.tool in d.tools && d.tools <= law.tools && Name(d.tool) == d.call.name
  {
    hide Orderly, StartsAt, PolicyDecision, PreparedFor;
    var d := t[k];
    var m, e := DispatchedAfter(t, law, k);
    var f, tools := DecidedAt(t, law, k - m);
    SameCourse(t, law, d.path, d.call, k - m, e, f);
    var ev := Evaluated(law, d.path, d.call, e);
    PartAt(t, k - m, ev);
    asked := PolicyDecision(law, d.call, d.tool, d.preparation) == Prompt;
    assert m == if asked then 5 else 3;
    assert ev[0] == t[k - m + 0] && ev[1] == t[k - m + 1] && ev[2] == t[k - m + 2];
    if asked { assert ev[3] == t[k - m + 3] && ev[4] == t[k - m + 4]; }
  }

  /** The person is asked exactly about calls the policy prompts for, and so only in mode `ask`. */
  lemma AskedWhenPrompted(t: seq<Action>, law: Law, k: nat)
    requires Orderly(t, law) && k < |t| && t[k].AskUser?
    ensures k >= 2 && law.mode == Ask && t[k - 2].Decide? && t[k - 1].Emit? && t[k - 1].event.ApprovalRequested?
    ensures var d := t[k - 2];
            && d == Decide(t[k].path, t[k].call, d.tool, d.preparation, Prompt)
            && PolicyDecision(law, d.call, d.tool, d.preparation) == Prompt && PreparedFor(d.tool, d.preparation)
  {
    hide Orderly, StartsAt, Evaluated, PreparedFor, Follows;
    var b, w := Company(t, law, k);
    assert w[0] == t[k - 2 + 0] && w[1] == t[k - 2 + 1];
    var e, tools := DecidedAt(t, law, k - 2);
    DecidedBy(t, law, k - 2, e);
    PromptsOnlyInAsk(law.rules, law.split, Facts(t[k].call, e.tool, e.preparation), law.mode);
  }

  lemma DecidedBy(t: seq<Action>, law: Law, k: nat, e: Course)
    requires k < |t| && t[k].Decide? && StartsAt(t, k, Evaluated(law, t[k].path, t[k].call, e))
    ensures t[k] == Decide(t[k].path, t[k].call, e.tool, e.preparation,
                           PolicyDecision(law, t[k].call, e.tool, e.preparation))
  {
    hide PolicyDecision;
    var ev := Evaluated(law, t[k].path, t[k].call, e);
    PartAt(t, k, ev);
    assert ev[0] == t[k + 0];
  }

  /** Without entries: what needs an approval is never dispatched in `off`, only after the person approved it in
      `ask`, and unasked in `auto`; nobody is asked about anything else. */
  lemma GatedDispatches(t: seq<Action>, law: Law, k: nat)
    requires Orderly(t, law) && Bare(law.rules) && k < |t| && t[k].Dispatch?
    ensures NeedsApproval(t[k].tool, t[k].preparation) ==> law.mode != Off
    ensures NeedsApproval(t[k].tool, t[k].preparation) && law.mode == Ask ==>
              k > 5 && t[k - 3] == AskUser(t[k].path, t[k].call, Approve)
    ensures !NeedsApproval(t[k].tool, t[k].preparation) || law.mode == Auto ==>
              k > 3 && t[k - 3] == Decide(t[k].path, t[k].call, t[k].tool, t[k].preparation, Run)
  {
    hide Orderly, PolicyDecision, PreparedFor, NeedsApproval;
    var asked := DispatchApproved(t, law, k);
    WithoutEntries(law, t[k].call, t[k].tool, t[k].preparation);
  }

  /** Nor is anyone asked about a call that needs none, whether it is dispatched then or not. */
  lemma AskedWhenNeeded(t: seq<Action>, law: Law, k: nat)
    requires Orderly(t, law) && Bare(law.rules) && k < |t| && t[k].AskUser?
    ensures law.mode == Ask && k >= 2 && t[k - 2].Decide? && NeedsApproval(t[k - 2].tool, t[k - 2].preparation)
  {
    hide Orderly, PolicyDecision, PreparedFor, NeedsApproval;
    AskedWhenPrompted(t, law, k);
    WithoutEntries(law, t[k].call, t[k - 2].tool, t[k - 2].preparation);
  }

  // ----- Denials -----

  /** The rule is a denial of the host's policy or of the overlay. */
  predicate IsDenial(rules: ApprovalRules, rule: Rule)
  {
    rule in rules.base.denied || (rules.overlay.Some? && rule in rules.overlay.value.denied)
  }

  lemma DeniedDecides(rules: ApprovalRules, rule: Rule, split: Splitter, call: CallFacts, mode: Mode)
    requires IsDenial(rules, rule) && rule.Denies(split, call)
    ensures rules.Decide(split, call, mode) == Deny
  {
    hide Rule.Denies, Policy.Uncheckable;
    if rule in rules.base.denied {
      var i :| 0 <= i < |rules.base.denied| && rules.base.denied[i] == rule;
      assert AnyDenies(rules.base.denied, split, call);
    } else {
      var i :| 0 <= i < |rules.overlay.value.denied| && rules.overlay.value.denied[i] == rule;
      assert AnyDenies(rules.overlay.value.denied, split, call);
    }
  }

  /** A call that a denial matches is never dispatched, in any mode, whatever the person says. */
  lemma DeniedNeverDispatched(t: seq<Action>, law: Law, k: nat, rule: Rule)
    requires Orderly(t, law) && k < |t| && t[k].Dispatch? && IsDenial(law.rules, rule)
    ensures !rule.Denies(law.split, Seen(t[k].call, t[k].tool, t[k].preparation))
  {
    hide Orderly, PolicyDecision, PreparedFor, Rule.Denies, IsDenial, Seen;
    var d := t[k];
    var asked := DispatchApproved(t, law, k);
    RulesSee(law, d.call, d.tool, d.preparation);
    if rule.Denies(law.split, Seen(d.call, d.tool, d.preparation)) {
      DeniedDecides(law.rules, rule, law.split, Seen(d.call, d.tool, d.preparation), law.mode);
    }
  }

  /** Of a dispatched shell command, no piece between separating and expanding characters reads as words that a
      denied pattern means; and unless the person was asked, all of it was read as written. */
  lemma DeniedCommandNeverRuns(t: seq<Action>, law: Law, k: nat, words: seq<string>)
    returns (pieces: seq<string>, between: string, parts: seq<string>, separators: string)
    requires Orderly(t, law) && k < |t| && t[k].Dispatch? && t[k].tool == RunShell
    requires IsDenial(law.rules, ShellRule(words)) && "command" in t[k].call.arguments.strings
    ensures var command := t[k].call.arguments.strings["command"];
            && PiecesOf(command, SEPARATING + EXPANDING, pieces, between)
            && (forall i :: 0 <= i < |pieces| && Reads(law.split, pieces[i]) ==>
                  !WordsMean(words, law.split(pieces[i]).value))
            && PiecesOf(command, SEPARATING, parts, separators)
            && (ApprovedAt(t, k, false) ==>
                  FreeOf(command, EXPANDING) && forall i :: 0 <= i < |parts| ==> ReadsAsWritten(law.split, parts[i]))
  {
    hide Orderly, PolicyDecision, PreparedFor, ApprovedAt, WordsMean, PiecesOf, ReadsAsWritten, FreeOf, CheckedParts;
    var d := t[k];
    var call, command := Seen(d.call, d.tool, d.preparation), d.call.arguments.strings["command"];
    var asked := DispatchApproved(t, law, k);
    DeniedNeverDispatched(t, law, k, ShellRule(words));
    pieces, between := ShellDeniesMeans(words, law.split, call);
    parts, separators := CheckedIff(law.split, command);
    RulesSee(law, d.call, d.tool, d.preparation);
    if ApprovedAt(t, k, false) {
      NotBoth(t, k, asked);
      UnattendedIsRead(law.rules, words, law.split, call, law.mode);
    }
  }

  lemma NotBoth(t: seq<Action>, k: nat, asked: bool)
    requires k < |t| && t[k].Dispatch? && ApprovedAt(t, k, asked) && ApprovedAt(t, k, false)
    ensures !asked
  {
  }

  lemma UnattendedIsRead(rules: ApprovalRules, words: seq<string>, split: Splitter, call: CallFacts, mode: Mode)
    requires call.tool == RUN_SHELL && call.command.Some?
    requires rules.Decide(split, call, mode) == Run && IsDenial(rules, ShellRule(words))
    ensures CheckedParts(split, call.command.value).Some?
  {
    hide CheckedParts, ApprovalRules.Decide;
    RunsOnlyWhatItCanRead(rules, split, call, mode);
    var rule := ShellRule(words);
    if rule in rules.base.denied {
      var i :| 0 <= i < |rules.base.denied| && rules.base.denied[i] == rule;
      assert rules.base.DeniesShellByPattern();
    } else {
      var i :| 0 <= i < |rules.overlay.value.denied| && rules.overlay.value.denied[i] == rule;
      assert rules.overlay.value.DeniesShellByPattern();
    }
  }

  // ----- After a decision -----

  /** What the observer is told right after a decision, and what the flag says then. */
  predicate ToldAndChecked(t: seq<Action>, k: nat, call: ToolCall, decision: Approval)
  {
    && k + 1 < |t| && t[k].path == t[k + 1].path && t[k] == Emit(t[k].path, ToolDecision(call.id, decision))
    && t[k + 1].Check?
  }

  /** The result is reported at `k` and the flag looked at after it. */
  predicate ReportedAt(t: seq<Action>, k: nat, path: seq<string>, call: ToolCall, result: string)
  {
    && k + 1 < |t| && t[k] == Emit(path, ToolResulted(call.id, call.name, result))
    && t[k + 1].Check? && t[k + 1].path == path
  }

  /** A denied call is not asked about and not dispatched: unless the flag is set, its denial is its result, in
      the policy's name except where the mode alone denies what needs an approval. */
  lemma DeniedIsReported(t: seq<Action>, law: Law, k: nat)
    requires Orderly(t, law) && k < |t| && t[k].Decide? && t[k].decision == Deny
    ensures ToldAndChecked(t, k + 1, t[k].call, Refuse) && t[k + 1].path == t[k].path
    ensures !t[k + 2].cancelled ==>
              ReportedAt(t, k + 3, t[k].path, t[k].call,
                         if law.mode == Off && NeedsApproval(t[k].tool, t[k].preparation) then law.texts.deniedByUser
                         else law.texts.deniedByPolicy)
  {
    hide Orderly, StartsAt, WorkForm;
    var d := t[k];
    var e, tools := DecidedAt(t, law, k);
    DecidedBy(t, law, k, e);
    var w := Decided(law, d.path, d.call, tools, e) + e.rest;
    PartAt(t, k, w);
    assert w[1] == t[k + 1] && w[2] == t[k + 2];
    if !e.cancelled {
      assert w[3] == e.rest[0] == t[k + 3] && w[4] == e.rest[1] == t[k + 4];
    }
  }

  /** A call the policy runs is not asked about; unless the flag is set, it is dispatched. */
  lemma RunIsDispatched(t: seq<Action>, law: Law, k: nat)
    requires Orderly(t, law) && k < |t| && t[k].Decide? && t[k].decision == Run
    ensures ToldAndChecked(t, k + 1, t[k].call, Approve) && t[k + 1].path == t[k].path
    ensures !t[k + 2].cancelled ==>
              && k + 3 < |t| && t[k + 3].Dispatch? && t[k + 3].path == t[k].path && t[k + 3].call == t[k].call
              && t[k + 3].tool == t[k].tool && t[k + 3].preparation == t[k].preparation
  {
    hide Orderly, StartsAt, WorkForm;
    var d := t[k];
    var e, tools := DecidedAt(t, law, k);
    DecidedBy(t, law, k, e);
    var w := Decided(law, d.path, d.call, tools, e) + e.rest;
    PartAt(t, k, w);
    assert w[1] == t[k + 1] && w[2] == t[k + 2];
    if !e.cancelled { assert w[3] == t[k + 3]; }
  }

  /** After a prompt the observer is told the person's answer; a refused call is not dispatched and the denial
      is in the person's name. */
  lemma PromptIsCarriedOut(t: seq<Action>, law: Law, k: nat)
    requires Orderly(t, law) && k < |t| && t[k].Decide? && t[k].decision == Prompt
    ensures k + 4 < |t| && t[k + 2].AskUser? && t[k + 2].path == t[k].path && t[k + 2].call == t[k].call
    ensures ToldAndChecked(t, k + 3, t[k].call, t[k + 2].answer) && t[k + 3].path == t[k].path
    ensures t[k + 2].answer == Refuse && !t[k + 4].cancelled ==>
              ReportedAt(t, k + 5, t[k].path, t[k].call, law.texts.deniedByUser)
    ensures t[k + 2].answer == Approve && !t[k + 4].cancelled ==> k + 5 < |t| && t[k + 5].Dispatch?
    ensures t[k + 2].answer == AbortTurn && !t[k + 4].cancelled ==> GivesUpFrom(t, k + 5, t[k].path)
  {
    hide Orderly, StartsAt, WorkForm;
    var d := t[k];
    var e, tools := DecidedAt(t, law, k);
    DecidedBy(t, law, k, e);
    var w := Decided(law, d.path, d.call, tools, e) + e.rest;
    PartAt(t, k, w);
    assert w[1] == t[k + 1] && w[2] == t[k + 2] && w[3] == t[k + 3] && w[4] == t[k + 4];
    assert e.answer == t[k + 2].answer && e.cancelled == t[k + 4].cancelled;
    var ev := Evaluated(law, d.path, d.call, e);
    assert |ev| == 5;
    if !e.cancelled {
      match e.answer
      case Approve => assert w[5] == t[k + 5];
      case Refuse => assert w[5] == e.rest[0] == t[k + 5] && w[6] == e.rest[1] == t[k + 6];
      case AbortTurn =>
        assert w == ev + e.rest;
        forall i | 0 <= i < |e.rest|
          ensures e.rest[i] == t[k + 5 + i]
        {
          assert e.rest[i] == w[5 + i] == t[k + (5 + i)];
        }
        PartIf(t, k + 5, e.rest);
        assert StartsAt(t, k + 5, e.rest) && GivesUp(d.path, e.rest);
    }
  }

  /** From there on the agent skips the calls it did not reach and ends its turn. */
  ghost predicate GivesUpFrom(t: seq<Action>, k: nat, path: seq<string>)
  {
    exists part: seq<Action> :: StartsAt(t, k, part) && GivesUp(path, part)
  }

  // ----- Results -----

  /** A dispatched call other than a delegation runs next, and right after it its result is reported: the message
      of a preparation that failed, or else the output, cut if it is longer than 65536 bytes, or the error whole. */
  lemma OrdinaryResult(t: seq<Action>, law: Law, k: nat) returns (output: Result<string, string>, result: string)
    requires Orderly(t, law) && k < |t| && t[k].Dispatch? && t[k].tool != DelegateTask
    ensures k + 1 < |t| && t[k + 1] == Ran(t[k].path, output)
    ensures ReportedAt(t, k + 2, t[k].path, t[k].call, result)
    ensures t[k].preparation.Failed? ==> result == t[k].preparation.message
    ensures !t[k].preparation.Failed? && output.Err? ==> result == "tool error: " + output.error
    ensures !t[k].preparation.Failed? && output.Ok? && |output.value| <= 65536 ==> result == output.value
    ensures !t[k].preparation.Failed? && output.Ok? && |output.value| > 65536 ==>
              exists cut: nat :: cut <= 65536 && CutTo(output.value, cut, result)
  {
    hide Orderly, StartsAt, Truncate;
    var work, aborted;
    work, result, aborted := DispatchedIsReported(t, law, k);
    PartAt(t, k + 1, work);
    output := work[0].output;
    assert work[0] == t[k + 1 + 0];
    if output.Ok? {
      var cut := TruncateMeans(output.value);
      assert |output.value| > 65536 ==> CutTo(output.value, cut, Truncate(output.value));
    }
  }

  /** The longest beginning of at most 65536 bytes that ends at a character boundary, and a note. */
  predicate CutTo(output: string, cut: nat, result: string)
    requires |output| > 65536
  {
    && cut <= 65536 && Compaction.CharBoundary(output, cut)
    && (forall c :: cut < c <= 65536 ==> !Compaction.CharBoundary(output, c))
    && result == output[..cut] + "\n[tool output truncated]"
  }

  /** The agent said this last. */
  predicate SaidLast(spoken: seq<Line>, i: nat)
  {
    i < |spoken| && spoken[i].role == Assistant && forall k :: i < k < |spoken| ==> spoken[k].role != Assistant
  }

  /** What a subagent that completed returns is what it said last, without the white space around it, or a fixed
      text when that is blank or it said nothing. */
  lemma AnswerMeans(name: string, message: Option<string>, spoken: seq<Line>, i: nat)
    returns (before: string, after: string)
    requires SaidLast(spoken, i)
    ensures forall c :: c in before + after ==> c in WHITESPACE
    ensures var answer := Told(name, "completed", message, spoken);
            if forall k :: 0 <= k < |spoken[i].content| ==> spoken[i].content[k] in WHITESPACE then
              answer == "(the subagent finished without a final answer)"
            else
              && spoken[i].content == before + answer + after && answer != []
              && answer[0] !in WHITESPACE && answer[|answer| - 1] !in WHITESPACE
  {
    hide Trim;
    LastWordsMean(spoken, i);
    before, after := TrimMeans(spoken[i].content);
  }

  lemma {:induction false} LastWordsMean(spoken: seq<Line>, i: nat)
    requires SaidLast(spoken, i)
    ensures LastWords(spoken) == spoken[i].content
    decreases |spoken|
  {
    if i < |spoken| - 1 { LastWordsMean(spoken[..|spoken| - 1], i); }
  }

  /** What a subagent that did not complete returns names it and says how it ended. */
  lemma EndMeans(name: string, detail: string, spoken: seq<Line>)
    ensures Told(name, "aborted", None, spoken) == "subagent " + name + " stopped: the user aborted its turn"
    ensures Told(name, "budget_exhausted", Some(detail), spoken) == "subagent " + name + " stopped: " + detail
    ensures Told(name, "cancelled", None, spoken) == "subagent " + name + " was cancelled"
    ensures Told(name, "failed", Some(detail), spoken) == "subagent " + name + " failed: " + detail
  {
  }

  // ----- What subagents are granted -----

  /** A subagent is started only by a delegation dispatched right before, with the task the call names, which is
      not blank, and with tools of the parent: the two that read, or, if the call says `inherit`, all but
      delegation. */
  lemma StartedIsGranted(t: seq<Action>, law: Law, k: nat)
    requires Orderly(t, law) && k < |t| && t[k].Emit? && t[k].event.SubagentStarted?
    ensures k > 0 && t[k - 1].Dispatch? && t[k - 1].path == t[k].path && t[k - 1].tool == DelegateTask
    ensures var strings, parent := t[k - 1].call.arguments.strings, t[k - 1].tools;
            var task, granted := t[k].event.task, t[k].event.tools;
            && "task" in strings && task == strings["task"] && (exists i :: 0 <= i < |task| && task[i] !in WHITESPACE)
            && ("tools" !in strings || strings["tools"] == "read_only" ==>
                granted == parent * {ReadFile, ListDirectory})
            && ("tools" in strings && strings["tools"] != "read_only" ==>
                  strings["tools"] == "inherit" && granted == parent - {DelegateTask})
            && (RunShell in granted <==> "tools" in strings && strings["tools"] == "inherit" && RunShell in parent)
            && DelegateTask !in granted
  {
    hide Orderly, StartsAt;
    var b, w := Company(t, law, k);
    assert w[0] == t[k - 1 + 0];
  }

  /** A dispatched delegation starts its subagent next when that is granted, and yields the text for a bad
      delegation when it is not. */
  lemma DelegationStarts(t: seq<Action>, law: Law, k: nat)
    requires Orderly(t, law) && k < |t| && t[k].Dispatch? && t[k].tool == DelegateTask
    ensures k + 1 < |t| && t[k + 1].Emit? && t[k + 1].path == t[k].path
    ensures forall task, granted :: Grants(t[k].call, t[k].tools, task, granted) ==>
              t[k + 1].event.SubagentStarted? && t[k + 1].event.task == task && t[k + 1].event.tools == granted
    ensures (forall task, granted :: !Grants(t[k].call, t[k].tools, task, granted)) ==>
              t[k + 1].event == ToolResulted(t[k].call.id, t[k].call.name, law.texts.badDelegation)
  {
    hide Orderly, StartsAt, Grants, RequestedTools, TaskOf, ChildTools, EndForm, Told, Tallied, Truncate, Carries;
    var d := t[k];
    var work, result, aborted := DispatchedIsReported(t, law, k);
    PartAt(t, k + 1, work);
    if work != [] { assert work[0] == t[k + 1 + 0]; }
    forall task, granted
      ensures Grants(d.call, d.tools, task, granted)
              <==> RequestedTools(d.call).Some? && task == TaskOf(d.call)
                   && granted == ChildTools(RequestedTools(d.call).value, d.tools)
    {
      GrantsIff(d.call, d.tools, task, granted);
    }
    if RequestedTools(d.call).Some? {
      assert Grants(d.call, d.tools, TaskOf(d.call), ChildTools(RequestedTools(d.call).value, d.tools));
    }
  }
}
