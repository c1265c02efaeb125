/** Two scripted runs: one whose next turn begins with a request that is refused, and one in which two
    agents announce the same id. */
module Scenarios {
  import opened Wrappers
  import opened Text
  import opened Transcript
  import opened Merging
  import opened Compaction
  import opened Retention
  import opened Requests
  import opened ApprovalPolicies
  import opened Tools
  import opened CallIdentifiers
  import opened Traces
  import opened Orders
  import opened Worlds
  import opened Agents
  import opened Turns
  import opened Engine
  import opened Sessions

  // ----- A session that gets stranded -----

  /** A provider that first asks for one call and then says nothing more; nobody cancels or denies, and no
      time runs out. */
  function SilentScript(call: ToolCall): Script
  {
    var ask := Response([], [call], None, false);
    var nothing := Response([], [], None, false);
    Script(
      m => if m <= 1 then Responded(ask) else Responded(nothing),
      m => [],
      m => false,
      m => false,
      m => Approve,
      m => Other,
      m => Ok("done"),
      m => false)
  }

  /** Two requests per turn, and room for more nudges than that. */
  const TIGHT: Limits := Limits(2, 5, 5, 2)

  const SHELL_CALL: ToolCall := ToolCall("c", RUN_SHELL, Json([], map[]))

  /** A policy without rules or compaction that lets the shell run. */
  function OpenPolicy(split: Splitter, markers: Markers, texts: Texts): TurnPolicy
  {
    TurnPolicy(Auto, ApprovalRules(Policy([], None, []), None), split, Compactor(None, markers), {RunShell}, None,
               texts)
  }

  lemma OpenPolicyRuns(split: Splitter, markers: Markers, texts: Texts)
    ensures var agent := Agent(OpenPolicy(split, markers, texts), []);
            WouldRun(agent, TIGHT, SHELL_CALL) && !Delegates(agent) && Smooth(SilentScript(SHELL_CALL))
  {
    var agent := Agent(OpenPolicy(split, markers, texts), []);
    assert Get({RunShell}, RUN_SHELL) == Some(RunShell);
    forall id, preparation
      ensures PolicyDecision(LawOf(agent, TIGHT), SHELL_CALL.(id := id), RunShell, preparation) != Deny
    {
      var call := SHELL_CALL.(id := id);
      var facts := Facts(call, RunShell, preparation);
      var policy := agent.policy.rules.base;
      assert !policy.DeniesShellByPattern() && !AnyDenies(policy.denied, split, facts);
      assert policy.Decide(split, facts, Auto, true) == Run;
    }
  }

  /** The first round: the call is made and runs. */
  lemma FirstRound(agent: Agent, a: Moment, b: Moment, flow: Flow, end: nat)
    requires agent.policy.compactor.budget.None? && !Delegates(agent) && WouldRun(agent, TIGHT, SHELL_CALL)
    requires Smooth(SilentScript(SHELL_CALL)) && RoundStep(agent, TIGHT, SilentScript(SHELL_CALL), a, b, flow)
    requires a.clock == 0 && a.requests == 0 && a.calls == 0 && a.trace == [] && a.turn.autoContinues == 0
    requires agent.path == [] && Truthful(b.trace, SilentScript(SHELL_CALL), TIGHT, end)
    requires Read(START, a.turn.history) == Good([], true)
    ensures flow == GoOn && b.requests == 1 && b.clock >= 1 && b.turn.observed && b.turn.autoContinues == 0
    ensures Ready(b.turn.history)
  {
    hide Read, Settles, WouldRun, AssistantMessage, Truthful, Caused;
    var script := SilentScript(SHELL_CALL);
    var response := script.provider(1).response;
    assert response.toolCalls == [SHELL_CALL];
    assert RunsFirst(agent, TIGHT, script, SHELL_CALL);
    StopsForNothing(agent, script, a, b, flow, end);
    var reply := AssistantMessage(response.content, response.toolCalls, response.reasoning);
    ReplyReads(a.turn.history, response, true);
    ReadSettled(a.turn.history + [reply], b.turn.history, response.toolCalls);
  }

  lemma StopsForNothing(agent: Agent, script: Script, a: Moment, b: Moment, flow: Flow, end: nat)
    requires script == SilentScript(SHELL_CALL) && Smooth(script) && RoundStep(agent, TIGHT, script, a, b, flow)
    requires a.clock == 0 && a.requests == 0 && a.calls == 0 && a.trace == [] && !Delegates(agent)
    requires agent.path == [] && Truthful(b.trace, script, TIGHT, end)
    ensures flow == GoOn && b.requests == 1
  {
    hide Read, Settles, WouldRun, AssistantMessage, RunsFirst, Staged, Truthful, Caused, Charged;
    assert b.trace[|a.trace|..] == b.trace;
    SmoothlyCaused(flow, b.trace, script, TIGHT, end);
  }

  lemma ReplyReads(history: seq<Message>, response: Response, awaiting: bool)
    requires Read(START, history) == Good([], awaiting)
    ensures Read(START, history + [AssistantMessage(response.content, response.toolCalls, response.reasoning)])
            == Good(response.toolCalls, false)
  {
    hide Read, Trim;
    ReadSnoc(START, history, AssistantMessage(response.content, response.toolCalls, response.reasoning));
  }

  /** The second round: nothing is said, and the turn is nudged on. */
  lemma SecondRound(agent: Agent, a: Moment, b: Moment, flow: Flow)
    requires agent.policy.compactor.budget.None? && !Delegates(agent)
    requires RoundStep(agent, TIGHT, SilentScript(SHELL_CALL), a, b, flow)
    requires a.requests == 1 && a.clock >= 1 && a.turn.observed && a.turn.autoContinues == 0 && Ready(a.turn.history)
    ensures flow == GoOn && b.requests == 2 && b.turn.observed && Read(START, b.turn.history) == Good([], true)
  {
    hide Read, Settles, AssistantMessage, Caused;
    var script := SilentScript(SHELL_CALL);
    var response := script.provider(a.clock + 1).response;
    assert response.toolCalls == [] && Trim(response.content) == [];
    ReplyReads(a.turn.history, response, false);
    var reply, nudge := AssistantMessage(response.content, response.toolCalls, response.reasoning),
        UserMessage(agent.policy.texts.emptyResponse);
    ReadSnoc(START, a.turn.history + [reply], nudge);
  }

  /** The third round: there are no requests left, and the record follows the unanswered nudge. */
  lemma ThirdRound(agent: Agent, a: Moment, b: Moment, flow: Flow)
    requires RoundStep(agent, TIGHT, SilentScript(SHELL_CALL), a, b, flow)
    requires a.requests == 2 && a.turn.observed && Read(START, a.turn.history) == Good([], true)
    ensures flow == FailedTurn(Exhausted(ProviderRequests)) && Read(START, b.turn.history) == Good([], true)
  {
    hide Read, Caused;
    ReadSnoc(START, a.turn.history, SystemMessage(agent.policy.texts.record));
  }

  /** Each round goes on from the trace of the one before. */
  lemma {:induction false} TracesGrow(
    agent: Agent, limits: Limits, script: Script, rounds: seq<Moment>, flow: Flow, i: nat)
    requires i < |rounds| && Played(agent, limits, script, rounds, flow)
    ensures rounds[i].trace <= rounds[|rounds| - 1].trace
    decreases |rounds| - i
  {
    if i + 1 < |rounds| {
      TracesGrow(agent, limits, script, rounds, flow, i + 1);
      TraceGrows(agent, limits, script, rounds[i], rounds[i + 1], if i == |rounds| - 2 then flow else GoOn);
      PrefixThrough(rounds[i].trace, rounds[i + 1].trace, rounds[|rounds| - 1].trace);
    }
  }

  lemma TraceGrows(agent: Agent, limits: Limits, script: Script, a: Moment, b: Moment, flow: Flow)
    requires RoundStep(agent, limits, script, a, b, flow)
    ensures a.trace <= b.trace
  {
    hide OutcomeStep, Caused;
  }

  lemma PrefixThrough(a: seq<Action>, b: seq<Action>, c: seq<Action>)
    requires a <= b <= c
    ensures a <= c
  {
    assert c[..|a|] == b[..|a|];
  }

  lemma TruthfulPrefix(a: seq<Action>, b: seq<Action>, script: Script, limits: Limits, clock: nat)
    requires a <= b && Truthful(b, script, limits, clock)
    ensures Truthful(a, script, limits, clock)
  {
    hide TrueAfter;
    forall k | 0 <= k < |a|
      ensures TrueAfter(a[..k], a[k], script, limits, clock)
    {
      assert a[..k] == b[..k];
      assert TrueAfter(b[..k], b[k], script, limits, clock);
    }
  }

  /** Every turn played so from a ready history is stranded. */
  lemma StrandedRun(agent: Agent, before: seq<Message>, message: string, rounds: seq<Moment>, flow: Flow, end: nat)
    requires agent.policy.compactor.budget.None? && !Delegates(agent) && WouldRun(agent, TIGHT, SHELL_CALL)
    requires Smooth(SilentScript(SHELL_CALL)) && Ready(before) && flow != GoOn
    requires |rounds| >= 2 && rounds[0] == Moment(FirstTurn(before, message), 0, 0, 0, []) && agent.path == []
    requires Truthful(rounds[|rounds| - 1].trace, SilentScript(SHELL_CALL), TIGHT, end)
    requires Played(agent, TIGHT, SilentScript(SHELL_CALL), rounds, flow)
    ensures flow == FailedTurn(Exhausted(ProviderRequests))
    ensures Read(START, rounds[|rounds| - 1].turn.history) == Good([], true)
  {
    hide RoundStep, WouldRun, Smooth, Read, Truthful;
    ReadSnoc(START, before, UserMessage(message));
    var n := |rounds|;
    TracesGrow(agent, TIGHT, SilentScript(SHELL_CALL), rounds, flow, 1);
    TruthfulPrefix(rounds[1].trace, rounds[n - 1].trace, SilentScript(SHELL_CALL), TIGHT, end);
    FirstRound(agent, rounds[0], rounds[1], if 0 == n - 2 then flow else GoOn, end);
    SecondRound(agent, rounds[1], rounds[1 + 1], if 1 == n - 2 then flow else GoOn);
    ThirdRound(agent, rounds[2], rounds[2 + 1], if 2 == n - 2 then flow else GoOn);
  }

  /** The adjacent-users case as a run: from any ready history, a turn that runs a tool, is nudged and runs
      out of requests is followed by a turn whose first request is not sendable. */
  method StrandedSession(
    before: seq<Message>, split: Splitter, markers: Markers, texts: Texts, first: string, second: string)
    returns (history: seq<Message>, records: seq<TurnRecord>)
    requires Ready(before)
    ensures |records| == 2 && records[0].before == before && records[0].IsStranded()
    ensures records[1].before == records[0].after
    ensures var t := records[1].actions; |t| > 1 && t[1].Send? && !Sendable(t[1].messages)
  {
    hide *;
    var policy := OpenPolicy(split, markers, texts);
    var input, next := TurnInput(policy, TIGHT, SilentScript(SHELL_CALL), first),
        TurnInput(policy, TIGHT, SilentScript(SHELL_CALL), second);
    var middle, stranded := RunRootTurn(before, input);
    var rest;
    history, rest := RunRootTurn(middle, next);
    StrandsNext(before, policy, split, markers, texts, first, second, stranded, rest);
    records := [stranded, rest];
  }

  lemma StrandsNext(
    before: seq<Message>, policy: TurnPolicy, split: Splitter, markers: Markers, texts: Texts, first: string,
    second: string, stranded: TurnRecord, rest: TurnRecord)
    requires Ready(before) && policy == OpenPolicy(split, markers, texts)
    requires stranded.before == before && stranded.Honours(TurnInput(policy, TIGHT, SilentScript(SHELL_CALL), first))
    requires rest.before == stranded.after && rest.Honours(TurnInput(policy, TIGHT, SilentScript(SHELL_CALL), second))
    ensures stranded.IsStranded()
    ensures |rest.actions| > 1 && rest.actions[1].Send? && !Sendable(rest.actions[1].messages)
  {
    hide Proper, Played, Caused, AgentKept, Tallied, Ended, Sendable, Read, Smooth, WouldRun, Staged, Merged, Truthful;
    var agent := Agent(policy, []);
    OpenPolicyRuns(split, markers, texts);
    var rounds := HonouredBy(stranded, TurnInput(policy, TIGHT, SilentScript(SHELL_CALL), first));
    var full := rounds[|rounds| - 1].turn.full;
    EndedSendable(agent, before, first, full, stranded.after, stranded.flow, Tallied(FRESH, stranded.actions, []));
    StrandedRun(agent, before, first, rounds, stranded.flow, rounds[|rounds| - 1].clock);
    AfterTurn(agent, before, first, full, stranded.after, stranded.flow, stranded.actions);
    var later := HonouredBy(rest, TurnInput(policy, TIGHT, SilentScript(SHELL_CALL), second));
    FirstRequestSendable(agent, rest.before, second);
  }
}
