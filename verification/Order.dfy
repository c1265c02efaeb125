/** The order of a turn's actions: what must surround each step, whichever agent takes it. */
module Orders {
  import opened Wrappers
  import opened Text
  import opened Transcript
  import opened ApprovalPolicies
  import opened Tools
  import opened CallIdentifiers
  import opened Traces

  datatype TurnError = Exhausted(limit: Exhaustion) | TurnCancelled | ContextOverflow | ProviderError(message: string)

  /** How a turn, or one pass of its loop, ends. */
  datatype Flow = GoOn | Completed | Aborted | FailedTurn(error: TurnError)

  /** The fixed texts the engine writes into transcripts. */
  datatype Texts = Texts(
    record: string,
    overflowRecord: string,
    cancelled: string,
    notRun: string,
    overLimit: string,
    exhausted: string,
    unavailable: string,
    aborted: string,
    deniedByPolicy: string,
    deniedByUser: string,
    emptyResponse: string,
    announcedStep: string,
    badDelegation: string,
    subagentPrompt: string,
    describe: TurnError -> string)

  /** What an agent may do: its policy, its tools, the per-response limit, and the texts it answers with. */
  datatype Law = Law(rules: ApprovalRules, mode: Mode, split: Splitter, tools: ToolSet, perResponse: nat, texts: Texts)

  /** The decision the policy makes about `call` and the object opened for it. */
  function PolicyDecision(law: Law, call: ToolCall, tool: Tool, preparation: Preparation): Decision
  {
    law.rules.Decide(law.split, Facts(call, tool, preparation), law.mode)
  }

  /** The approval a policy decision and, for a prompt, the user's answer amount to. */
  function ApprovalFor(decision: Decision, answer: Approval): Approval
  {
    match decision
    case Run => Approve
    case Deny => Refuse
    case Prompt => answer
  }

  /** The result of a call that is not approved: a denial the mode alone would not have made is the policy's. */
  function DenialText(law: Law, call: ToolCall, tool: Tool, preparation: Preparation): string
  {
    var facts := Facts(call, tool, preparation);
    if PolicyDecision(law, call, tool, preparation) == Deny && DefaultDecision(facts, law.mode) != Deny
    then law.texts.deniedByPolicy else law.texts.deniedByUser
  }

  /** What a tool yields: a failed preparation is its result, output is bounded, an error is reported whole. */
  function ResultText(preparation: Preparation, output: Result<string, string>): string
  {
    if preparation.Failed? then preparation.message
    else match output
      case Ok(text) => Truncate(text)
      case Err(error) => "tool error: " + error
  }

  // ----- Pieces of a run -----

  /** Why a call is shown to the person: it runs a command, or reads a sensitive object, or the policy lists it. */
  function AskReason(tool: Tool, preparation: Preparation): GateReason
  {
    if tool == RunShell then ShellExecution
    else if preparation.Opened? && preparation.sensitive then SensitivePath
    else PolicyListed
  }

  /** The actions between charging a call and looking at the cancellation flag. */
  function Evaluation(
    path: seq<string>, call: ToolCall, tool: Tool, preparation: Preparation, decision: Decision,
    answer: Approval): seq<Action>
  {
    var decided := Decide(path, call, tool, preparation, decision);
    var told := Emit(path, ToolDecision(call.id, ApprovalFor(decision, answer)));
    if decision == Prompt then
      [decided, Emit(path, ApprovalRequested(call, AskReason(tool, preparation))), AskUser(path, call, answer), told]
    else [decided, told]
  }

  function Refusal(path: seq<string>, call: ToolCall, result: string): seq<Action>
  {
    [Emit(path, ToolDecision(call.id, Refuse)), Emit(path, ToolResulted(call.id, call.name, result))]
  }

  function Refusals(path: seq<string>, calls: seq<ToolCall>, result: string): seq<Action>
  {
    if calls == [] then []
    else Refusals(path, calls[..|calls| - 1], result) + Refusal(path, calls[|calls| - 1], result)
  }

  function Skips(path: seq<string>, calls: seq<ToolCall>): (skips: seq<Action>)
    ensures |skips| == |calls|
    ensures forall i :: 0 <= i < |calls| ==> skips[i] == Emit(path, ToolSkipped(calls[i].id, calls[i].name))
  {
    seq(|calls|, i requires 0 <= i < |calls| => Emit(path, ToolSkipped(calls[i].id, calls[i].name)))
  }

  function Announcements(path: seq<string>, calls: seq<ToolCall>): (events: seq<Action>)
    ensures |events| == |calls|
    ensures forall i :: 0 <= i < |calls| ==> events[i] == Emit(path, ToolRequested(calls[i]))
  {
    seq(|calls|, i requires 0 <= i < |calls| => Emit(path, ToolRequested(calls[i])))
  }

  /** The turn is given up: the calls not reached are skipped. */
  function Abandon(path: seq<string>, calls: seq<ToolCall>): seq<Action>
  {
    Skips(path, calls) + [Emit(path, TurnAborted)]
  }

  // ----- Delegations -----

  /** The tools a delegation asks for, or `None` when it cannot be granted at all. */
  function RequestedTools(call: ToolCall): Option<ToolSet>
  {
    var task, asked := StringArgument(call, "task"), StringArgument(call, "tools");
    if task.None? || Trim(task.value) == [] then None
    else if asked == None || asked == Some("read_only") then Some(READ_ONLY)
    else if asked == Some("inherit") then Some(ALL_TOOLS)
    else None
  }

  function TaskOf(call: ToolCall): string
  {
    var task := StringArgument(call, "task");
    if task.Some? then task.value else []
  }

  /** The last thing an agent said. */
  function LastWords(spoken: seq<Line>): string
  {
    if spoken == [] then []
    else if spoken[|spoken| - 1].role == Assistant then spoken[|spoken| - 1].content
    else LastWords(spoken[..|spoken| - 1])
  }

  /** What a parent is told as the result of a subagent that ended so and said that. */
  function Told(name: string, outcome: string, message: Option<string>, spoken: seq<Line>): string
  {
    var detail := if message.Some? then message.value else [];
    var answer := Trim(LastWords(spoken));
    if outcome == "aborted" then "subagent " + name + " stopped: the user aborted its turn"
    else if outcome == "budget_exhausted" then "subagent " + name + " stopped: " + detail
    else if outcome == "cancelled" then "subagent " + name + " was cancelled"
    else if outcome == "failed" then "subagent " + name + " failed: " + detail
    else if answer == [] then "(the subagent finished without a final answer)"
    else answer
  }

  // ----- Why a turn stops -----

  /** The action accounts for a turn of the agent at `path` ending so. */
  predicate CauseOf(flow: Flow, a: Action, path: seq<string>)
  {
    match flow
    case GoOn => true
    case Completed => a.Receive? && a.path == path && a.outcome.Responded? && a.outcome.response.toolCalls == []
    case Aborted => AbortAsked(a, path)
    case FailedTurn(error) =>
      match error
      case TurnCancelled => a == Check(path, true) || a == Receive(path, Interrupted)
      case ContextOverflow => a == Receive(path, Overflowed)
      case ProviderError(message) => a == Receive(path, Broken(message))
      case Exhausted(limit) => a == Exhaust(path, limit) || (limit == WallTime && a == Receive(path, TimedOut))
  }

  /** Something in the run accounts for the turn ending so. */
  predicate Caused(flow: Flow, t: seq<Action>, path: seq<string>)
  {
    flow.GoOn? || exists k :: 0 <= k < |t| && CauseOf(flow, t[k], path)
  }

  // ----- The work of a call -----

  /** What a delegation grants its subagent: a task that is not blank, and of the parent's tools the two that
      read, or all but delegation when the call says so. */
  predicate Grants(call: ToolCall, parent: ToolSet, task: string, granted: ToolSet)
  {
    var strings := call.arguments.strings;
    && "task" in strings && strings["task"] == task && (exists i :: 0 <= i < |task| && task[i] !in WHITESPACE)
    && ("tools" in strings ==> strings["tools"] == "read_only" || strings["tools"] == "inherit")
    && granted == if "tools" in strings && strings["tools"] == "inherit" then parent - {DelegateTask}
                  else parent * {ReadFile, ListDirectory}
  }

  /** Exactly these delegations are granted, and so. */
  lemma GrantsIff(call: ToolCall, parent: ToolSet, task: string, granted: ToolSet)
    ensures Grants(call, parent, task, granted)
            <==> RequestedTools(call).Some? && task == TaskOf(call)
                 && granted == ChildTools(RequestedTools(call).value, parent)
  {
    var strings := call.arguments.strings;
    if "task" in strings {
      var before, after := TrimMeans(strings["task"]);
    }
    assert parent * ALL_TOOLS == parent by {
      forall tool: Tool | tool in parent
        ensures tool in ALL_TOOLS
      {
        match tool case ReadFile => case ListDirectory => case RunShell => case DelegateTask =>
      }
    }
    assert READ_ONLY * parent - {DelegateTask} == parent * {ReadFile, ListDirectory};
    assert ALL_TOOLS * parent - {DelegateTask} == parent - {DelegateTask};
  }

  /** How a subagent's turn that ended so is reported: whether the flag was looked at then and found set tells a
      cancelled one from one that failed. */
  predicate ReportedAs(texts: Texts, flow: Flow, look: Option<bool>, outcome: string, message: Option<string>)
  {
    match flow
    case GoOn => false
    case Completed => outcome == "completed" && message == None && look == None
    case Aborted => outcome == "aborted" && message == None && look == None
    case FailedTurn(error) =>
      if error.Exhausted? then outcome == "budget_exhausted" && message == Some(texts.describe(error)) && look == None
      else if look == Some(true) then outcome == "cancelled" && message == None
      else outcome == "failed" && message == Some(texts.describe(error)) && look == Some(false)
  }

  /** The look at the flag, if any, right before the last action. */
  function LookBefore(work: seq<Action>, path: seq<string>): Option<bool>
  {
    if |work| >= 2 && work[|work| - 2].Look? && work[|work| - 2].path == path then Some(work[|work| - 2].cancelled)
    else None
  }

  /** Something the subagent did or was told accounts for the outcome reported. */
  ghost predicate EndForm(
    texts: Texts, path: seq<string>, child: seq<string>, work: seq<Action>, outcome: string, message: Option<string>)
  {
    exists flow: Flow :: Caused(flow, work, child) && ReportedAs(texts, flow, LookBefore(work, path), outcome, message)
  }

  /** The work of a delegation. One that is not granted does nothing. One that is granted announces its
      subagent with the tools it gets; only the subagent acts, with those tools, beginning with a request or
      an exhausted budget; its end is reported, and the result is told from how it ended and what it said. */
  ghost predicate DelegationForm(
    law: Law, path: seq<string>, call: ToolCall, tools: ToolSet, work: seq<Action>, result: string, aborted: bool)
  {
    var requested := RequestedTools(call);
    if requested.None? then work == [] && !aborted && result == law.texts.badDelegation
    else
      && |work| >= 3 && work[0].Emit? && work[0].event.SubagentStarted?
      && var name, granted := work[0].event.agent, ChildTools(requested.value, tools);
         var child, n := path + [name], |work| - 1;
         && work[0] == Emit(path, SubagentStarted(name, TaskOf(call), granted))
         && work[1].path == child && (work[1].Reserve? || work[1].Exhaust?)
         && (forall k :: 0 < k < n ==>
               (work[k].path == child && Carries(work[k], granted))
                 || (k == n - 1 && work[k].Look? && work[k].path == path))
         && FinishedAt(work[n], path, name)
         && var finished := work[n].event;
            && (aborted <==> finished.outcome == "aborted")
            && EndForm(law.texts, path, child, work, finished.outcome, finished.message)
            && result == Truncate(Told(name, finished.outcome, finished.message,
                                       Tallied(FRESH, work, child).own.spoken))
  }

  /** What a dispatched call does and yields. */
  ghost predicate WorkForm(
    law: Law, path: seq<string>, call: ToolCall, tool: Tool, preparation: Preparation, tools: ToolSet,
    work: seq<Action>, result: string, aborted: bool)
  {
    if tool == DelegateTask then DelegationForm(law, path, call, tools, work, result, aborted)
    else
      && |work| == 1 && work[0].Ran? && work[0].path == path
      && result == ResultText(preparation, work[0].output) && !aborted
  }

  // ----- The course of one call -----

  /** How a charged call went: what it was decided about, what was asked and answered, whether the flag was
      found set, the work it did, its result, and what was reported after it. */
  datatype Course = Course(
    tool: Tool,
    preparation: Preparation,
    answer: Approval,
    cancelled: bool,
    work: seq<Action>,
    result: string,
    aborted: bool,
    rest: seq<Action>)

  function ApprovalOf(law: Law, call: ToolCall, e: Course): Approval
  {
    ApprovalFor(PolicyDecision(law, call, e.tool, e.preparation), e.answer)
  }

  predicate Runs(law: Law, call: ToolCall, e: Course)
  {
    !e.cancelled && ApprovalOf(law, call, e) == Approve
  }

  /** The evaluation of a call and the look at the flag after it. */
  function Evaluated(law: Law, path: seq<string>, call: ToolCall, e: Course): seq<Action>
  {
    var decision := PolicyDecision(law, call, e.tool, e.preparation);
    Evaluation(path, call, e.tool, e.preparation, decision, e.answer) + [Check(path, e.cancelled)]
  }

  /** A charged call from its decision to the end of its work. */
  function Decided(law: Law, path: seq<string>, call: ToolCall, tools: ToolSet, e: Course): seq<Action>
  {
    if Runs(law, call, e) then
      Evaluated(law, path, call, e) + [Dispatch(path, call, e.tool, e.preparation, tools)] + e.work
    else Evaluated(law, path, call, e)
  }

  /** The result is reported, and then the turn is given up or the flag is looked at again. */
  predicate Concludes(path: seq<string>, call: ToolCall, e: Course)
  {
    && |e.rest| > 0 && e.rest[0] == Emit(path, ToolResulted(call.id, call.name, e.result))
    && if e.aborted then GivesUp(path, e.rest[1..])
       else |e.rest| == 2 && e.rest[1].Check? && e.rest[1].path == path
  }

  predicate GivesUp(path: seq<string>, rest: seq<Action>)
  {
    && |rest| > 0 && rest[|rest| - 1] == Emit(path, TurnAborted)
    && forall i :: 0 <= i < |rest| - 1 ==> rest[i].Emit? && rest[i].path == path && rest[i].event.ToolSkipped?
  }

  /** What the decision and the flag lead to. */
  ghost predicate Follows(law: Law, path: seq<string>, call: ToolCall, tools: ToolSet, e: Course)
  {
    if e.cancelled then e.rest == []
    else match ApprovalOf(law, call, e)
      case AbortTurn => GivesUp(path, e.rest)
      case Refuse => e.result == DenialText(law, call, e.tool, e.preparation) && !e.aborted && Concludes(path, call, e)
      case Approve =>
        && WorkForm(law, path, call, e.tool, e.preparation, tools, e.work, e.result, e.aborted)
        && Concludes(path, call, e)
  }

  /** Read-only tools are decided about after they were opened; the others have nothing to open. */
  predicate PreparedFor(tool: Tool, preparation: Preparation)
  {
    preparation.Other? <==> tool !in READ_ONLY
  }

  // ----- The law of each step -----

  /** The steps that need company. */
  predicate Anchor(a: Action)
  {
    match a
    case Reserve(_) => true
    case Receive(_, outcome) => outcome.Responded?
    case Charge(_, _, _, _) => true
    case Decide(_, _, _, _, _) => true
    case AskUser(_, _, _) => true
    case Dispatch(_, _, _, _, _) => true
    case Emit(_, event) => event.TurnAborted? || event.SubagentStarted?
    case _ => false
  }

  /** A reserved request is sent, with tools the agent has, and then received. */
  predicate ReserveForm(w: seq<Action>, law: Law)
  {
    && |w| == 3 && w[1].Send? && w[2].Receive?
    && w[1].path == w[0].path && w[2].path == w[0].path && w[1].tools <= law.tools
  }

  /** A response is reported and each of its calls announced, in order; if it has any, the flag is checked,
      and, when that is clear, the first of them is charged unless the budget is used up. */
  predicate ReceiveForm(w: seq<Action>, law: Law)
    requires w != [] && w[0].Receive? && w[0].outcome.Responded?
  {
    var path, r := w[0].path, w[0].outcome.response;
    exists c | 0 <= c <= 1 :: AnnounceForm(w, path, r, c, law.perResponse)
  }

  predicate AnnounceForm(w: seq<Action>, path: seq<string>, r: Response, c: nat, perResponse: nat)
  {
    var n := |r.toolCalls|;
    var check := 2 + c + n;
    && |w| >= check + (if n == 0 then 0 else 1)
    && (c == 1 ==> w[1].Emit? && w[1].path == path && w[1].event.HistoryCompacted?)
    && w[1 + c] == Emit(path, AgentResponse(r.content, n, false))
    && (forall i :: 0 <= i < n ==> Announces(w[2 + c + i], path, r.toolCalls[i]))
    && (n > 0 ==> Announces(w[2 + c], path, r.toolCalls[0])
                  && TurnsToCalls(w[check..], path, w[2 + c].event.call, 0, perResponse))
  }

  /** The flag is checked, and, when it is clear, the call is charged if it is within the limit and the
      budget is not used up. */
  predicate TurnsToCalls(t: seq<Action>, path: seq<string>, call: ToolCall, index: nat, perResponse: nat)
  {
    && t != [] && t[0].Check? && t[0].path == path
    && (!t[0].cancelled && index < perResponse ==>
          && |t| >= 2 && t[1].path == path
          && (t[1].Exhaust? || (t[1].Charge? && t[1].call == call && t[1].index == index)))
  }

  /** The call is announced under some id. */
  predicate Announces(a: Action, path: seq<string>, call: ToolCall)
  {
    a.Emit? && a.path == path && a.event.ToolRequested? && a.event.call == call.(id := a.event.call.id)
  }

  /** A call is charged right after the flag was found clear, within the limit; then it is decided about,
      unless its tool is not the agent's, which is its result. */
  predicate ChargeForm(w: seq<Action>, law: Law)
    requires |w| > 1 && w[1].Charge?
  {
    var path, call, tool := w[1].path, w[1].call, Get(w[1].tools, w[1].call.name);
    && w[0] == Check(path, false) && w[1].index < law.perResponse && w[1].tools <= law.tools
    && if tool.None? then w == [w[0], w[1]] + Refusal(path, call, law.texts.unavailable)
       else |w| == 3 && w[2].Decide? && w[2].path == path && w[2].call == call && w[2].tool == tool.value
  }

  /** A decision is the policy's and is carried out. */
  ghost predicate DecideForm(w: seq<Action>, law: Law)
    requires w != [] && w[0].Decide?
  {
    exists e: Course, tools: ToolSet :: DecideFormBy(w, law, e, tools)
  }

  ghost predicate DecideFormBy(w: seq<Action>, law: Law, e: Course, tools: ToolSet)
    requires w != [] && w[0].Decide?
  {
    var path, call := w[0].path, w[0].call;
    && PreparedFor(e.tool, e.preparation)
    && w == Decided(law, path, call, tools, e) + e.rest
    && Follows(law, path, call, tools, e)
  }

  /** A dispatch comes after a charge, an approval and a look at the flag that found it clear. */
  ghost predicate DispatchForm(w: seq<Action>, b: nat, law: Law)
    requires b < |w| && w[b].Dispatch?
  {
    exists e: Course, index: nat :: DispatchFormBy(w, b, law, e, index)
  }

  predicate DispatchFormBy(w: seq<Action>, b: nat, law: Law, e: Course, index: nat)
    requires b < |w| && w[b].Dispatch?
  {
    var d := w[b];
    && d.tool == e.tool && d.preparation == e.preparation && Runs(law, d.call, e)
    && index < law.perResponse && d.tools <= law.tools && d.tool in d.tools && Name(d.tool) == d.call.name
    && w == [Charge(d.path, d.call, index, d.tools)] + Evaluated(law, d.path, d.call, e) + [d] && b == |w| - 1
  }

  /** The user is asked only about a call that the policy just decided to prompt for. */
  predicate AskForm(w: seq<Action>)
  {
    && |w| == 3 && w[2].AskUser? && w[0].Decide? && w[1].Emit? && w[1].event.ApprovalRequested?
    && w[0].path == w[2].path && w[1].path == w[2].path
    && w[0].call == w[2].call && w[1].event.call == w[2].call && w[0].decision == Prompt
    && w[1].event.reason == AskReason(w[0].tool, w[0].preparation)
  }

  /** A subagent is started only by a delegation that was just dispatched, with what that grants. */
  predicate StartForm(w: seq<Action>)
  {
    && |w| == 2 && w[1].Emit? && w[1].event.SubagentStarted? && w[0].Dispatch? && w[0].path == w[1].path
    && w[0].tool == DelegateTask && Grants(w[0].call, w[0].tools, w[1].event.task, w[1].event.tools)
  }

  /** The user was asked about a call of the agent or of its subagent and gave the turn up. */
  predicate AbortAsked(a: Action, path: seq<string>)
  {
    a.AskUser? && a.answer == AbortTurn && path <= a.path
  }

  predicate AbortForm(w: seq<Action>, b: nat)
    requires b < |w|
  {
    b == |w| - 1 && exists j :: 0 <= j < b && AbortAsked(w[j], w[b].path)
  }

  ghost predicate Form(w: seq<Action>, b: nat, law: Law)
    requires b < |w|
  {
    match w[b]
    case Reserve(_) => b == 0 && ReserveForm(w, law)
    case Receive(_, outcome) => outcome.Responded? ==> b == 0 && ReceiveForm(w, law)
    case Charge(_, _, _, _) => b == 1 && ChargeForm(w, law)
    case Decide(_, _, _, _, _) => b == 0 && DecideForm(w, law)
    case AskUser(_, _, _) => b == 2 && AskForm(w)
    case Dispatch(_, _, _, _, _) => DispatchForm(w, b, law)
    case Emit(_, event) => (event.TurnAborted? ==> AbortForm(w, b))
      && (event.SubagentStarted? ==> b == 1 && StartForm(w))
    case _ => true
  }

  predicate StartsAt(t: seq<Action>, k: nat, w: seq<Action>)
  {
    k + |w| <= |t| && t[k..k + |w|] == w
  }

  /** The step at `k` is in the company it needs. */
  ghost predicate LawAt(t: seq<Action>, k: nat, law: Law)
  {
    exists b: nat, w: seq<Action> :: LawBy(t, k, law, b, w)
  }

  ghost predicate LawBy(t: seq<Action>, k: nat, law: Law, b: nat, w: seq<Action>)
  {
    b <= k && b < |w| && StartsAt(t, k - b, w) && Form(w, b, law)
  }

  /** Every step is in the company it needs. */
  ghost predicate Orderly(t: seq<Action>, law: Law)
  {
    forall k :: 0 <= k < |t| ==> LawAt(t, k, law)
  }

  // ----- Composition -----

  lemma StartsShift(a: seq<Action>, b: seq<Action>, c: seq<Action>, k: nat, w: seq<Action>)
    requires StartsAt(b, k, w)
    ensures StartsAt(a + b + c, |a| + k, w)
  {
    var t := a + b + c;
    assert t[|a|..|a| + |b|] == b;
    assert t[|a| + k..|a| + k + |w|] == b[k..k + |w|];
  }

  lemma LawShift(a: seq<Action>, b: seq<Action>, c: seq<Action>, k: nat, law: Law)
    requires LawAt(b, k, law)
    ensures LawAt(a + b + c, |a| + k, law)
  {
    hide Form, StartsAt;
    var n: nat, w: seq<Action> :| LawBy(b, k, law, n, w);
    StartsShift(a, b, c, k - n, w);
    assert LawBy(a + b + c, |a| + k, law, n, w);
  }

  lemma OrderlyAt(t: seq<Action>, k: nat, law: Law)
    requires Orderly(t, law) && k < |t|
    ensures LawAt(t, k, law)
  {
  }

  lemma OrderlyIf(t: seq<Action>, law: Law)
    requires forall k :: 0 <= k < |t| ==> LawAt(t, k, law)
    ensures Orderly(t, law)
  {
  }

  lemma OrderlyConcat(a: seq<Action>, b: seq<Action>, law: Law)
    requires Orderly(a, law) && Orderly(b, law)
    ensures Orderly(a + b, law)
  {
    hide LawAt;
    var t := a + b;
    assert [] + a + b == t && a + b + [] == t;
    forall k | 0 <= k < |t|
      ensures LawAt(t, k, law)
    {
      if k < |a| {
        LawShift([], a, b, k, law);
      } else {
        LawShift(a, b, [], k - |a|, law);
      }
    }
  }

  lemma PlainLaw(t: seq<Action>, k: nat, law: Law)
    requires k < |t| && !Anchor(t[k])
    ensures LawAt(t, k, law)
  {
    assert t[k..k + 1] == [t[k]];
    assert LawBy(t, k, law, 0, [t[k]]);
  }

  /** No step needs company. */
  predicate Plain(t: seq<Action>)
  {
    forall k :: 0 <= k < |t| ==> !Anchor(t[k])
  }

  lemma PlainOrderly(t: seq<Action>, law: Law)
    requires Plain(t)
    ensures Orderly(t, law)
  {
    hide LawAt;
    forall k | 0 <= k < |t|
      ensures LawAt(t, k, law)
    {
      PlainLaw(t, k, law);
    }
  }

  lemma FormForParent(w: seq<Action>, b: nat, child: Law, parent: Law)
    requires b < |w| && Form(w, b, child) && child.tools <= parent.tools && child == parent.(tools := child.tools)
    ensures Form(w, b, parent)
  {
    match w[b]
    case Decide(_, _, _, _, _) =>
      var e: Course, tools: ToolSet :| DecideFormBy(w, child, e, tools);
      DecideForParent(w, child, parent, e, tools);
    case Dispatch(_, _, _, _, _) =>
      var e: Course, index: nat :| DispatchFormBy(w, b, child, e, index);
      assert DispatchFormBy(w, b, parent, e, index);
    case _ =>
  }

  lemma DecideForParent(w: seq<Action>, child: Law, parent: Law, e: Course, tools: ToolSet)
    requires w != [] && w[0].Decide? && DecideFormBy(w, child, e, tools) && child == parent.(tools := child.tools)
    ensures DecideFormBy(w, parent, e, tools)
  {
    hide DelegationForm, Concludes, GivesUp, Evaluation;
    if e.tool == DelegateTask && Runs(child, w[0].call, e) {
      DelegationForParent(child, parent, w[0].path, w[0].call, tools, e);
    }
  }

  lemma DelegationForParent(child: Law, parent: Law, path: seq<string>, call: ToolCall, tools: ToolSet, e: Course)
    requires child == parent.(tools := child.tools)
    ensures DelegationForm(child, path, call, tools, e.work, e.result, e.aborted)
            == DelegationForm(parent, path, call, tools, e.work, e.result, e.aborted)
  {
    hide Tallied, Told, Truncate, RequestedTools;
  }

  /** What is in order for a subagent is in order for its parent. */
  lemma OrderlyForParent(t: seq<Action>, child: Law, parent: Law)
    requires Orderly(t, child) && child.tools <= parent.tools && child == parent.(tools := child.tools)
    ensures Orderly(t, parent)
  {
    hide Form, StartsAt;
    forall k | 0 <= k < |t|
      ensures LawAt(t, k, parent)
    {
      assert LawAt(t, k, child);
      var b: nat, w: seq<Action> :| LawBy(t, k, child, b, w);
      FormForParent(w, b, child, parent);
      assert LawBy(t, k, parent, b, w);
    }
  }

  // ----- What order says of a step -----

  /** The company of a step. */
  lemma Company(t: seq<Action>, law: Law, k: nat) returns (b: nat, w: seq<Action>)
    requires Orderly(t, law) && k < |t|
    ensures b <= k && b < |w| && w[b] == t[k] && Form(w, b, law) && StartsAt(t, k - b, w)
    ensures forall i :: 0 <= i < |w| ==> w[i] == t[k - b + i]
  {
    hide Form;
    assert LawAt(t, k, law);
    b, w :| LawBy(t, k, law, b, w);
    PartAt(t, k - b, w);
  }

  lemma PartAt(t: seq<Action>, k: nat, w: seq<Action>)
    requires StartsAt(t, k, w)
    ensures k + |w| <= |t| && forall i :: 0 <= i < |w| ==> w[i] == t[k + i]
  {
    forall i | 0 <= i < |w|
      ensures w[i] == t[k + i]
    {
      assert t[k..k + |w|][i] == t[k + i];
    }
  }

  lemma PartIf(t: seq<Action>, k: nat, w: seq<Action>)
    requires k + |w| <= |t| && forall i :: 0 <= i < |w| ==> w[i] == t[k + i]
    ensures StartsAt(t, k, w)
  {
    assert t[k..k + |w|] == w;
  }

  /** Every response is reported and its calls announced, in order; then the flag is looked at, and the first
      call is charged unless the flag is set or the budget is used up. */
  lemma ReceivedIsAnnounced(t: seq<Action>, law: Law, k: nat) returns (w: seq<Action>, c: nat)
    requires Orderly(t, law) && k < |t| && t[k].Receive? && t[k].outcome.Responded?
    ensures w != [] && w[0] == t[k] && StartsAt(t, k, w)
    ensures c <= 1 && AnnounceForm(w, t[k].path, t[k].outcome.response, c, law.perResponse)
  {
    hide AnnounceForm, Orderly, StartsAt;
    var b: nat;
    b, w := Company(t, law, k);
    c :| 0 <= c <= 1 && AnnounceForm(w, t[k].path, t[k].outcome.response, c, law.perResponse);
  }

  /** Every charge follows a look at the flag that found it clear and is within the per-response limit; the
      call is then decided about, or, when its tool is not the agent's, refused as unavailable. */
  lemma ChargedIsDecided(t: seq<Action>, law: Law, k: nat)
    requires Orderly(t, law) && k < |t| && t[k].Charge?
    ensures k > 0 && t[k - 1] == Check(t[k].path, false) && t[k].index < law.perResponse && t[k].tools <= law.tools
    ensures var path, call, tool := t[k].path, t[k].call, Get(t[k].tools, t[k].call.name);
            if tool.None? then StartsAt(t, k + 1, Refusal(path, call, law.texts.unavailable))
            else k + 1 < |t| && t[k + 1].Decide? && t[k + 1].path == path && t[k + 1].call == call
                 && t[k + 1].tool == tool.value
  {
    hide Get, Orderly, StartsAt;
    var b, w := Company(t, law, k);
    StartsWithin(t, k - b, w);
    assert w[0] == t[k - 1 + 0];
    if Get(t[k].tools, t[k].call.name).None? {
      var refusal := Refusal(t[k].path, t[k].call, law.texts.unavailable);
      assert w == [w[0], w[1]] + refusal;
      assert refusal[0] == w[2] == t[k - 1 + 2] && refusal[1] == w[3] == t[k - 1 + 3];
      PartIf(t, k + 1, refusal);
    } else {
      assert w[2] == t[k - 1 + 2];
    }
  }

  lemma StartsWithin(t: seq<Action>, k: nat, w: seq<Action>)
    requires StartsAt(t, k, w)
    ensures k + |w| <= |t|
  {
  }

  /** A call that was dispatched at `k` did this work with this result, which is reported next; unless the
      user gave the turn up in a subagent, the flag is looked at after that. */
  ghost predicate ReportedBy(t: seq<Action>, law: Law, k: nat, work: seq<Action>, result: string, aborted: bool)
    requires k < |t| && t[k].Dispatch?
  {
    var d, n := t[k], k + 1 + |work|;
    && WorkForm(law, d.path, d.call, d.tool, d.preparation, d.tools, work, result, aborted)
    && StartsAt(t, k + 1, work) && n < |t|
    && t[n] == Emit(d.path, ToolResulted(d.call.id, d.call.name, result))
    && (!aborted ==> n + 1 < |t| && t[n + 1].Check? && t[n + 1].path == d.path)
  }

  /** Every dispatched call does its work, and what that yields is the result reported for the call. */
  lemma DispatchedIsReported(t: seq<Action>, law: Law, k: nat)
    returns (work: seq<Action>, result: string, aborted: bool)
    requires Orderly(t, law) && k < |t| && t[k].Dispatch?
    ensures ReportedBy(t, law, k, work, result, aborted)
  {
    hide Evaluated, WorkForm, Runs, PreparedFor, Orderly, Follows, StartsAt;
    var d := t[k];
    var m, e := DispatchedAfter(t, law, k);
    var ev := Evaluated(law, d.path, d.call, e);
    var f, tools := DecidedAt(t, law, k - m);
    SameCourse(t, law, d.path, d.call, k - m, e, f);
    var w := Decided(law, d.path, d.call, tools, f) + f.rest;
    PartAt(t, k - m, w);
    work, result, aborted := f.work, f.result, f.aborted;
    assert w == ev + [Dispatch(d.path, d.call, f.tool, f.preparation, tools)] + work + f.rest;
    assert w[m] == t[k - m + m];
    FollowsWork(law, d.path, d.call, tools, f);
    forall i | 0 <= i < |work|
      ensures work[i] == t[k + 1 + i]
    {
      assert work[i] == w[m + 1 + i] == t[k - m + (m + 1 + i)];
    }
    PartIf(t, k + 1, work);
    assert f.rest[0] == w[m + 1 + |work|] == t[k - m + (m + 1 + |work|)];
    if !aborted { assert f.rest[1] == w[m + 2 + |work|] == t[k - m + (m + 2 + |work|)]; }
  }

  lemma FollowsWork(law: Law, path: seq<string>, call: ToolCall, tools: ToolSet, e: Course)
    requires Follows(law, path, call, tools, e) && Runs(law, call, e)
    ensures WorkForm(law, path, call, e.tool, e.preparation, tools, e.work, e.result, e.aborted)
    ensures |e.rest| > 0 && e.rest[0] == Emit(path, ToolResulted(call.id, call.name, e.result))
    ensures !e.aborted ==> |e.rest| == 2 && e.rest[1].Check? && e.rest[1].path == path
  {
    hide WorkForm, PolicyDecision, DenialText;
  }

  /** The evaluation that led to a dispatch: the policy's decision, the question and the approval if it
      prompts, the telling of it, and a look at the flag that found it clear. */
  lemma DispatchedAfter(t: seq<Action>, law: Law, k: nat) returns (m: nat, e: Course)
    requires Orderly(t, law) && k < |t| && t[k].Dispatch?
    ensures var d := t[k];
            && m <= k && m == |Evaluated(law, d.path, d.call, e)| >= 3
            && StartsAt(t, k - m, Evaluated(law, d.path, d.call, e))
            && Runs(law, d.call, e) && e.tool == d.tool && e.preparation == d.preparation
            && t[k - m].Decide? && t[k - m].path == d.path && t[k - m].call == d.call
            && m < k && t[k - m - 1].Charge? && t[k - m - 1].path == d.path && t[k - m - 1].call == d.call
            && d.tools <= law.tools && d.tool in d.tools && Name(d.tool) == d.call.name
  {
    hide Evaluated, Runs, Orderly, StartsAt;
    var b, w := Company(t, law, k);
    StartsWithin(t, k - b, w);
    var index: nat;
    e, index :| DispatchFormBy(w, b, law, e, index);
    var d := t[k];
    var ev := Evaluated(law, d.path, d.call, e);
    m := |ev|;
    EvaluationOpens(law, d.path, d.call, e);
    assert w == [Charge(d.path, d.call, index, d.tools)] + ev + [d] && b == m + 1;
    forall i | 0 <= i < m
      ensures ev[i] == t[k - m + i]
    {
      assert ev[i] == w[1 + i] == t[k - b + (1 + i)];
    }
    PartIf(t, k - m, ev);
    assert ev[0] == t[k - m + 0];
    assert w[0] == t[k - b + 0];
  }

  lemma EvaluationOpens(law: Law, path: seq<string>, call: ToolCall, e: Course)
    ensures var t := Evaluated(law, path, call, e);
            |t| >= 3 && t[0].Decide? && t[0].path == path && t[0].call == call
  {
    hide PolicyDecision;
  }

  /** How a decision was carried out. */
  lemma DecidedAt(t: seq<Action>, law: Law, k: nat) returns (e: Course, tools: ToolSet)
    requires Orderly(t, law) && k < |t| && t[k].Decide?
    ensures var d := t[k];
            && StartsAt(t, k, Decided(law, d.path, d.call, tools, e) + e.rest)
            && Follows(law, d.path, d.call, tools, e) && PreparedFor(e.tool, e.preparation)
            && StartsAt(t, k, Evaluated(law, d.path, d.call, e))
  {
    hide Evaluated, Follows, Orderly, StartsAt, PolicyDecision, PreparedFor, Runs;
    var b, w := Company(t, law, k);
    StartsWithin(t, k - b, w);
    e, tools :| DecideFormBy(w, law, e, tools);
    var ev := Evaluated(law, w[0].path, w[0].call, e);
    forall i | 0 <= i < |ev|
      ensures ev[i] == t[k + i]
    {
      assert ev[i] == w[i] == t[k - b + i];
    }
    PartIf(t, k, ev);
  }

  /** Two accounts of the decision at one place agree. */
  lemma SameCourse(t: seq<Action>, law: Law, path: seq<string>, call: ToolCall, k: nat, e: Course, f: Course)
    requires StartsAt(t, k, Evaluated(law, path, call, e)) && Runs(law, call, e)
    requires StartsAt(t, k, Evaluated(law, path, call, f))
    ensures Evaluated(law, path, call, f) == Evaluated(law, path, call, e) && Runs(law, call, f)
    ensures f.tool == e.tool && f.preparation == e.preparation
  {
    hide PolicyDecision;
    var x, y := Evaluated(law, path, call, e), Evaluated(law, path, call, f);
    assert t[k] == x[0] == y[0];
    assert |x| == |y|;
    assert x[|x| - 1] == y[|x| - 1];
    if |x| == 5 { assert x[2] == y[2]; }
  }
}
