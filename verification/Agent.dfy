/** Agents: what one is, what its run must be like, and how a call is evaluated or delegated. */
module Agents {
  import opened Wrappers
  import opened Text
  import opened Transcript
  import opened Compaction
  import opened ApprovalPolicies
  import opened Tools
  import opened CallIdentifiers
  import opened Traces
  import opened Orders

  datatype TurnPolicy = TurnPolicy(
    mode: Mode,
    rules: ApprovalRules,
    split: Splitter,
    compactor: Compactor,
    tools: ToolSet,
    scope: Option<string>,
    texts: Texts)

  /** An agent: its policy and where it sits below the root. */
  datatype Agent = Agent(policy: TurnPolicy, path: seq<string>)

  function LawOf(agent: Agent, limits: Limits): Law
  {
    var p := agent.policy;
    Law(p.rules, p.mode, p.split, p.tools, limits.toolCallsPerResponse, p.texts)
  }

  predicate Delegates(agent: Agent)
  {
    DelegateTask in agent.policy.tools
  }

  // ----- What every piece of a turn guarantees -----

  /** `t` was done in order by the agent or its subagents, each with its own tools and promises. */
  ghost predicate Proper(t: seq<Action>, agent: Agent, limits: Limits)
  {
    && Orderly(t, LawOf(agent, limits))
    && Within(t, agent.path, Delegates(agent))
    && Offers(t, agent.path, agent.policy.tools)
    && Families(t, agent.path, limits)
  }

  lemma ProperConcat(a: seq<Action>, b: seq<Action>, agent: Agent, limits: Limits)
    requires Proper(a, agent, limits) && Proper(b, agent, limits)
    ensures Proper(a + b, agent, limits)
  {
    hide Orderly, Families, Carries;
    OrderlyConcat(a, b, LawOf(agent, limits));
    FamiliesConcat(a, b, agent.path, limits);
  }

  /** Actions of one agent that need no company, name no tools and involve no subagent. */
  predicate Quiet(t: seq<Action>, path: seq<string>)
  {
    forall k :: 0 <= k < |t| ==> QuietAction(t[k]) && t[k].path == path
  }

  predicate QuietAction(a: Action)
  {
    !Anchor(a) && !a.Send? && (a.Emit? ==> !a.event.SubagentStarted? && !a.event.SubagentFinished?)
  }

  lemma QuietConcat(a: seq<Action>, b: seq<Action>, path: seq<string>)
    requires Quiet(a, path) && Quiet(b, path)
    ensures Quiet(a + b, path)
  {
    hide QuietAction;
  }

  lemma QuietOne(a: Action, path: seq<string>)
    requires QuietAction(a) && a.path == path
    ensures Quiet([a], path)
  {
  }

  lemma ProperQuiet(t: seq<Action>, agent: Agent, limits: Limits)
    requires Quiet(t, agent.path)
    ensures Proper(t, agent, limits)
  {
    hide Orderly, Families;
    PlainOrderly(t, LawOf(agent, limits));
    AloneFamilies(t, agent.path, limits);
  }

  lemma ProperNone(agent: Agent, limits: Limits)
    ensures Proper([], agent, limits)
  {
    ProperQuiet([], agent, limits);
  }

  /** In order but for the start of a subagent, which needs the dispatch before it. */
  ghost predicate Continues(t: seq<Action>, law: Law)
  {
    forall k :: 0 <= k < |t| ==> LawAt(t, k, law) || (k == 0 && t[0].Emit? && t[0].event.SubagentStarted?)
  }

  /** What a dispatched call does, without its dispatch. */
  ghost predicate ProperWork(t: seq<Action>, agent: Agent, limits: Limits)
  {
    && Continues(t, LawOf(agent, limits))
    && Within(t, agent.path, Delegates(agent))
    && Offers(t, agent.path, agent.policy.tools)
    && Families(t, agent.path, limits)
  }

  lemma ProperIsWork(t: seq<Action>, agent: Agent, limits: Limits)
    requires Proper(t, agent, limits)
    ensures ProperWork(t, agent, limits)
  {
    hide LawAt, Within, Offers, Families;
  }

  lemma NoWork(agent: Agent, limits: Limits)
    ensures ProperWork([], agent, limits)
  {
    ProperNone(agent, limits);
    ProperIsWork([], agent, limits);
  }

  /** What follows the start of a subagent continues it. */
  lemma StartContinues(started: Action, rest: seq<Action>, law: Law)
    requires started.Emit? && started.event.SubagentStarted? && Orderly(rest, law)
    ensures Continues([started] + rest, law)
  {
    hide LawAt;
    var t := [started] + rest;
    assert t + [] == t;
    forall k | 1 <= k < |t|
      ensures LawAt(t, k, law)
    {
      LawShift([started], rest, [], k - 1, law);
    }
  }

  /** An agent that cannot delegate acts alone. */
  lemma ProperWithin(t: seq<Action>, agent: Agent, limits: Limits)
    requires Proper(t, agent, limits) && !Delegates(agent)
    ensures Within(t, agent.path, false) && Offers(t, agent.path, agent.policy.tools)
  {
  }

  /** Between two tallies of one agent only requests, charges, closings, dispatches, subagents and results have
      changed. */
  predicate Steady(y: Tally, z: Tally)
  {
    && z.own == y.own.(charged := z.own.charged, closed := z.own.closed, dispatched := z.own.dispatched,
                       kids := z.own.kids, spoken := z.own.spoken)
    && (y.sendable ==> z.sendable)
  }

  lemma SteadySame(y: Tally)
    ensures Steady(y, y)
  {
  }

  // ----- Why a turn stops -----

  lemma CausedConcat(flow: Flow, a: seq<Action>, b: seq<Action>, path: seq<string>)
    requires Caused(flow, a, path) || Caused(flow, b, path)
    ensures Caused(flow, a + b, path)
  {
    hide CauseOf;
    if !flow.GoOn? {
      if Caused(flow, a, path) {
        var k :| 0 <= k < |a| && CauseOf(flow, a[k], path);
        assert (a + b)[k] == a[k];
      } else {
        var k :| 0 <= k < |b| && CauseOf(flow, b[k], path);
        assert (a + b)[|a| + k] == b[k];
      }
    }
  }

  lemma CausedBy(flow: Flow, t: seq<Action>, k: nat, path: seq<string>)
    requires k < |t| && CauseOf(flow, t[k], path)
    ensures Caused(flow, t, path)
  {
  }

  // ----- Evaluating one call -----

  /** Read-only tools are opened before they are decided about; other tools have nothing to open. */
  function Prepare(tool: Tool, answer: Preparation): (preparation: Preparation)
    ensures PreparedFor(tool, preparation)
  {
    if tool !in READ_ONLY then Other
    else if answer.Other? then Failed([])
    else answer
  }

  /** What became of one call within the per-response limit. */
  datatype CallStep =
    | OutOfBudget(limit: Exhaustion)
    | Unavailable
    | CancelledBefore
    | UserAborted
    | Answered(result: string, subagentAborted: bool)

  /** What the outcome of a call means for the turn, before its result is reported. */
  function FlowOf(step: CallStep): Flow
  {
    match step
    case OutOfBudget(limit) => FailedTurn(Exhausted(limit))
    case Unavailable => GoOn
    case CancelledBefore => FailedTurn(TurnCancelled)
    case UserAborted => Aborted
    case Answered(_, subagentAborted) => if subagentAborted then Aborted else GoOn
  }

  /** What the decision about a call, the flag after it and its work make of it. */
  ghost predicate StepForm(law: Law, path: seq<string>, call: ToolCall, tools: ToolSet, step: CallStep, e: Course)
  {
    if e.cancelled then step == CancelledBefore
    else match ApprovalOf(law, call, e)
      case AbortTurn => step == UserAborted
      case Refuse => step == Answered(DenialText(law, call, e.tool, e.preparation), false)
      case Approve =>
        && step == Answered(e.result, e.aborted)
        && WorkForm(law, path, call, e.tool, e.preparation, tools, e.work, e.result, e.aborted)
  }

  /** The actions of a call from its charge on, up to its result. */
  ghost predicate CallForm(
    law: Law, path: seq<string>, tools: ToolSet, call: ToolCall, index: nat, step: CallStep, t: seq<Action>, e: Course)
  {
    match step
    case OutOfBudget(limit) => t == [Exhaust(path, limit)] && limit != ProviderRequests
    case Unavailable => t == [Charge(path, call, index, tools)] && Get(tools, call.name).None?
    case _ =>
      && Get(tools, call.name) == Some(e.tool) && PreparedFor(e.tool, e.preparation)
      && t == [Charge(path, call, index, tools)] + Decided(law, path, call, tools, e)
      && StepForm(law, path, call, tools, step, e)
  }

  /** What is reported of an evaluated call: its result, and then the turn is given up or the flag is checked
      again, which skips the calls not reached when it is set. */
  predicate ConcludedBy(path: seq<string>, calls: seq<ToolCall>, result: string, aborted: bool, t: seq<Action>)
    requires calls != []
  {
    && |t| > 1 && t[0] == Emit(path, ToolResulted(calls[0].id, calls[0].name, result))
    && if aborted then t[1..] == Abandon(path, calls[1..])
       else t[1].Check? && t[1].path == path && t[2..] == if t[1].cancelled then Skips(path, calls[1..]) else []
  }

  /** What is reported of the calls from one on, given what became of it. */
  predicate ResolvedBy(path: seq<string>, texts: Texts, calls: seq<ToolCall>, step: CallStep, t: seq<Action>)
    requires calls != []
  {
    match step
    case OutOfBudget(_) => t == Refusals(path, calls, texts.exhausted)
    case Unavailable => t == Refusal(path, calls[0], texts.unavailable)
    case CancelledBefore => t == []
    case UserAborted => t == Abandon(path, calls[1..])
    case Answered(result, aborted) => ConcludedBy(path, calls, result, aborted, t)
  }

  lemma TalliedEvaluation(
    y: Tally, path: seq<string>, call: ToolCall, tool: Tool, preparation: Preparation, decision: Decision,
    answer: Approval)
    ensures var z := Tallied(y, Evaluation(path, call, tool, preparation, decision, answer), path);
            z == if ApprovalFor(decision, answer) == AbortTurn
              then y.(own := y.own.(closed := y.own.closed + [call.id]))
                 else y
  {
    hide Tallied, Sendable;
    var decided := Decide(path, call, tool, preparation, decision);
    var told := Emit(path, ToolDecision(call.id, ApprovalFor(decision, answer)));
    TalliedOne(y, decided, path);
    if decision == Prompt {
      var shown, asked := Emit(path, ApprovalRequested(call, AskReason(tool, preparation))),
          AskUser(path, call, answer);
      TalliedSnoc(y, [decided], shown, path);
      TalliedSnoc(y, [decided] + [shown], asked, path);
      TalliedSnoc(y, [decided] + [shown] + [asked], told, path);
      assert [decided] + [shown] + [asked] + [told] == [decided, shown, asked, told];
    } else {
      TalliedSnoc(y, [decided], told, path);
      assert [decided] + [told] == [decided, told];
    }
  }

  /** The tally after a call was decided about and the flag looked at. */
  lemma TalliedEvaluated(y: Tally, law: Law, path: seq<string>, call: ToolCall, e: Course)
    ensures var z := Tallied(y, Evaluated(law, path, call, e), path);
            z == y.(own := y.own.(
                      closed := if ApprovalOf(law, call, e) == AbortTurn then y.own.closed + [call.id]
                        else y.own.closed,
                      cancelled := y.own.cancelled || e.cancelled))
  {
    hide Tallied, PolicyDecision, Evaluation;
    var decision := PolicyDecision(law, call, e.tool, e.preparation);
    TalliedEvaluation(y, path, call, e.tool, e.preparation, decision, e.answer);
    TalliedSnoc(y, Evaluation(path, call, e.tool, e.preparation, decision, e.answer),
                Check(path, e.cancelled), path);
  }

  lemma EvaluatedParts(law: Law, path: seq<string>, call: ToolCall, e: Course)
    ensures var t := Evaluated(law, path, call, e);
            && |t| >= 3 && t[0] == Decide(path, call, e.tool, e.preparation,
                                          PolicyDecision(law, call, e.tool, e.preparation))
            && t[|t| - 1] == Check(path, e.cancelled)
            && (forall k :: 1 <= k < |t| ==>
                  t[k].path == path && (QuietAction(t[k]) || (k == 2 && t[2].AskUser? && AskForm(t[..3]))))
            && (ApprovalOf(law, call, e) == AbortTurn ==> t[2] == AskUser(path, call, AbortTurn))
  {
    hide PolicyDecision;
  }

  // ----- A call in order -----

  /** How the course of a call goes on. */
  function Rest(step: CallStep, b: seq<Action>): seq<Action>
  {
    match step
    case UserAborted => b
    case Answered(_, aborted) => if aborted || |b| < 2 then b else b[..2]
    case _ => []
  }

  /** The whole call, from the check before it. */
  function WholeCall(path: seq<string>, a: seq<Action>, b: seq<Action>): seq<Action>
  {
    [Check(path, false)] + a + b
  }

  lemma {:induction false} RefusalsQuiet(path: seq<string>, calls: seq<ToolCall>, result: string)
    ensures Quiet(Refusals(path, calls, result), path)
  {
    if calls != [] {
      RefusalsQuiet(path, calls[..|calls| - 1], result);
      QuietConcat(Refusals(path, calls[..|calls| - 1], result), Refusal(path, calls[|calls| - 1], result), path);
    }
  }

  /** The end of a call: all quiet, but for an abort. */
  lemma ResolvedParts(path: seq<string>, texts: Texts, calls: seq<ToolCall>, step: CallStep, b: seq<Action>)
    requires calls != [] && ResolvedBy(path, texts, calls, step, b)
    ensures forall k :: 0 <= k < |b| ==>
              b[k].path == path && (QuietAction(b[k]) || (k == |b| - 1 && b[k] == Emit(path, TurnAborted)))
    ensures (step.UserAborted? || (step.Answered? && step.subagentAborted)) ==>
              GivesUp(path, if step.UserAborted? then b else b[1..])
    ensures !(step.UserAborted? || (step.Answered? && step.subagentAborted)) ==> Quiet(b, path)
  {
    hide QuietAction, Skips;
    match step
    case OutOfBudget(_) => RefusalsQuiet(path, calls, texts.exhausted);
    case Unavailable => RefusalQuiet(path, calls[0], texts.unavailable);
    case CancelledBefore =>
    case UserAborted => AbandonParts(path, calls[1..]);
    case Answered(result, aborted) =>
      ReportQuiet(path, calls[0], result);
      if aborted {
        AbandonParts(path, calls[1..]);
        assert forall k :: 1 <= k < |b| ==> b[k] == b[1..][k - 1];
      } else {
        CheckQuiet(path, b[1].cancelled);
        SkipsQuiet(path, calls[1..]);
        assert forall k :: 2 <= k < |b| ==> b[k] == b[2..][k - 2];
      }
  }

  lemma RefusalQuiet(path: seq<string>, call: ToolCall, result: string)
    ensures Quiet(Refusal(path, call, result), path)
  {
  }

  lemma ReportQuiet(path: seq<string>, call: ToolCall, result: string)
    ensures QuietAction(Emit(path, ToolResulted(call.id, call.name, result)))
  {
  }

  lemma CheckQuiet(path: seq<string>, cancelled: bool)
    ensures QuietAction(Check(path, cancelled))
  {
  }

  lemma SkipsQuiet(path: seq<string>, calls: seq<ToolCall>)
    ensures Quiet(Skips(path, calls), path)
  {
  }

  lemma AbandonParts(path: seq<string>, calls: seq<ToolCall>)
    ensures var b := Abandon(path, calls);
            && GivesUp(path, b)
            && forall k :: 0 <= k < |b| ==>
                 b[k].path == path && (QuietAction(b[k]) || (k == |b| - 1 && b[k] == Emit(path, TurnAborted)))
  {
    hide QuietAction;
    SkipsQuiet(path, calls);
    var b, skips := Abandon(path, calls), Skips(path, calls);
    assert forall k :: 0 <= k < |skips| ==> b[k] == skips[k];
  }

  /** A charged call and its end in order: the course it took. */
  function CourseOf(step: CallStep, e: Course, b: seq<Action>): Course
  {
    e.(rest := Rest(step, b),
       result := if step.Answered? then step.result else e.result,
       aborted := if step.Answered? then step.subagentAborted else false)
  }

  lemma CourseFollows(
    law: Law, path: seq<string>, tools: ToolSet, calls: seq<ToolCall>, step: CallStep, e: Course, b: seq<Action>)
    requires calls != [] && StepForm(law, path, calls[0], tools, step, e) && ResolvedBy(path, law.texts, calls, step, b)
    ensures Follows(law, path, calls[0], tools, CourseOf(step, e, b))
    ensures Decided(law, path, calls[0], tools, CourseOf(step, e, b)) == Decided(law, path, calls[0], tools, e)
    ensures Rest(step, b) <= b
  {
    hide PolicyDecision, WorkForm, Evaluation, DenialText;
    ResolvedParts(path, law.texts, calls, step, b);
    if step.Answered? && !step.subagentAborted {
      assert b[..2][0] == b[0] && b[..2][1] == b[1];
    }
  }

  lemma DecideInOrder(
    law: Law, path: seq<string>, tools: ToolSet, calls: seq<ToolCall>, step: CallStep, e: Course, t: seq<Action>,
    b: seq<Action>)
    requires calls != [] && StepForm(law, path, calls[0], tools, step, e) && ResolvedBy(path, law.texts, calls, step, b)
    requires PreparedFor(e.tool, e.preparation) && |t| >= 2 && t[2..] == Decided(law, path, calls[0], tools, e) + b
    ensures LawAt(t, 2, law)
  {
    hide Decided, Follows, ResolvedBy, StepForm, PreparedFor;
    var c := CourseOf(step, e, b);
    var w := Decided(law, path, calls[0], tools, c) + c.rest;
    CourseFollows(law, path, tools, calls, step, e, b);
    DecidedStarts(law, path, calls[0], tools, c);
    assert DecideFormBy(w, law, c, tools);
    assert t[2..2 + |w|] == w by {
      assert (Decided(law, path, calls[0], tools, e) + b)[..|w|] == w;
      assert t[2..2 + |w|] == t[2..][..|w|];
    }
    assert LawBy(t, 2, law, 0, w);
  }

  lemma DecidedStarts(law: Law, path: seq<string>, call: ToolCall, tools: ToolSet, e: Course)
    ensures var t := Decided(law, path, call, tools, e);
            && |t| >= 3 && t[0] == Decide(path, call, e.tool, e.preparation,
                                          PolicyDecision(law, call, e.tool, e.preparation))
  {
    hide PolicyDecision, Evaluated;
    EvaluatedParts(law, path, call, e);
  }

  lemma ChargeInOrder(law: Law, t: seq<Action>, w: seq<Action>)
    requires |w| > 1 && w[1].Charge? && ChargeForm(w, law) && w <= t
    ensures LawAt(t, 1, law)
  {
    hide ChargeForm;
    assert t[0..0 + |w|] == w;
    assert LawBy(t, 1, law, 1, w);
  }

  lemma DispatchInOrder(
    law: Law, path: seq<string>, tools: ToolSet, call: ToolCall, index: nat, e: Course, t: seq<Action>,
    after: seq<Action>)
    requires Runs(law, call, e) && Get(tools, call.name) == Some(e.tool) && tools <= law.tools
             && index < law.perResponse
    requires var d := Dispatch(path, call, e.tool, e.preparation, tools);
             t == [Check(path, false)] + ([Charge(path, call, index, tools)] + Evaluated(law, path, call, e) + [d])
               + after
    ensures LawAt(t, 2 + |Evaluated(law, path, call, e)|, law)
  {
    hide Evaluated, Runs;
    var d := Dispatch(path, call, e.tool, e.preparation, tools);
    var w := [Charge(path, call, index, tools)] + Evaluated(law, path, call, e) + [d];
    assert w[|w| - 1] == d && DispatchFormBy(w, |w| - 1, law, e, index);
    assert t[1..1 + |w|] == w;
    assert LawBy(t, 1 + |w| - 1, law, |w| - 1, w);
  }

  lemma AbortInOrder(law: Law, t: seq<Action>, j: nat)
    requires j < |t| - 1 && t[|t| - 1].Emit? && t[|t| - 1].event.TurnAborted? && AbortAsked(t[j], t[|t| - 1].path)
    ensures LawAt(t, |t| - 1, law)
  {
    assert t[0..0 + |t|] == t;
    assert AbortForm(t, |t| - 1);
    assert LawBy(t, |t| - 1, law, |t| - 1, t);
  }

  /** A call that was not decided about. */
  lemma UndecidedOrderly(
    law: Law, path: seq<string>, tools: ToolSet, calls: seq<ToolCall>, index: nat, step: CallStep, e: Course,
    a: seq<Action>, b: seq<Action>)
    requires calls != [] && CallForm(law, path, tools, calls[0], index, step, a, e)
    requires ResolvedBy(path, law.texts, calls, step, b) && (step.OutOfBudget? || step.Unavailable?)
    requires tools <= law.tools && index < law.perResponse
    ensures Orderly(WholeCall(path, a, b), law)
  {
    hide LawAt, Get, Refusals;
    var t := WholeCall(path, a, b);
    ResolvedParts(path, law.texts, calls, step, b);
    if step.Unavailable? {
      assert t == [Check(path, false), a[0]] + Refusal(path, calls[0], law.texts.unavailable);
      ChargeInOrder(law, t, t);
    }
    forall k | 0 <= k < |t|
      ensures LawAt(t, k, law)
    {
      if k != 1 || step.OutOfBudget? {
        if k >= 2 { assert t[k] == b[k - 2]; }
        PlainLaw(t, k, law);
      }
    }
  }

  /** The check, the charge and the evaluation, up to the look at the flag. */
  function Opening(law: Law, path: seq<string>, tools: ToolSet, call: ToolCall, index: nat, e: Course): seq<Action>
  {
    [Check(path, false), Charge(path, call, index, tools)] + Evaluated(law, path, call, e)
  }

  lemma OpeningInOrder(
    law: Law, path: seq<string>, tools: ToolSet, calls: seq<ToolCall>, index: nat, step: CallStep, e: Course,
    t: seq<Action>, b: seq<Action>, k: nat)
    requires calls != [] && StepForm(law, path, calls[0], tools, step, e) && ResolvedBy(path, law.texts, calls, step, b)
    requires PreparedFor(e.tool, e.preparation) && Get(tools, calls[0].name) == Some(e.tool)
    requires tools <= law.tools && index < law.perResponse
    requires Opening(law, path, tools, calls[0], index, e) <= t
    requires t[2..] == Decided(law, path, calls[0], tools, e) + b
    requires k < |Opening(law, path, tools, calls[0], index, e)|
    ensures LawAt(t, k, law)
  {
    hide LawAt, PolicyDecision, ApprovalOf, Get, Evaluated, ResolvedBy, PreparedFor, StepForm, Decided, AskForm;
    var opening, ev := Opening(law, path, tools, calls[0], index, e), Evaluated(law, path, calls[0], e);
    EvaluatedParts(law, path, calls[0], e);
    assert opening[2..] == ev;
    assert t[k] == opening[k];
    if k == 1 {
      ChargeInOrder(law, t, [opening[0], opening[1], opening[2]]);
    } else if k == 2 {
      DecideInOrder(law, path, tools, calls, step, e, t, b);
    } else if k > 2 && ev[k - 2].AskUser? {
      assert opening[2..5] == ev[..3] && t[2..5] == opening[2..5];
      AskInOrder(law, t);
    } else {
      if k > 2 { assert opening[k] == ev[k - 2]; }
      PlainLaw(t, k, law);
    }
  }

  lemma AskInOrder(law: Law, t: seq<Action>)
    requires |t| >= 5 && AskForm(t[2..5])
    ensures LawAt(t, 4, law)
  {
    assert LawBy(t, 4, law, 2, t[2..5]);
  }

  /** The end of a call, after the user was asked if the turn is given up. */
  lemma EndInOrder(
    law: Law, path: seq<string>, calls: seq<ToolCall>, step: CallStep, t: seq<Action>, m: nat, b: seq<Action>, j: nat,
    k: nat)
    requires calls != [] && ResolvedBy(path, law.texts, calls, step, b)
    requires m <= |t| && t[m..] == b && m <= k < |t|
    requires step.UserAborted? || (step.Answered? && step.subagentAborted) ==> j < m && AbortAsked(t[j], path)
    ensures LawAt(t, k, law)
  {
    hide LawAt, ResolvedBy;
    ResolvedParts(path, law.texts, calls, step, b);
    assert t[k] == b[k - m];
    if Anchor(t[k]) {
      AbortInOrder(law, t, j);
    } else {
      PlainLaw(t, k, law);
    }
  }

  /** A call that was decided about and not dispatched. */
  lemma NotRunOrderly(
    law: Law, path: seq<string>, tools: ToolSet, calls: seq<ToolCall>, index: nat, step: CallStep, e: Course,
    a: seq<Action>, b: seq<Action>)
    requires calls != [] && CallForm(law, path, tools, calls[0], index, step, a, e)
    requires ResolvedBy(path, law.texts, calls, step, b) && !step.OutOfBudget? && !step.Unavailable?
    requires tools <= law.tools && index < law.perResponse && !Runs(law, calls[0], e)
    ensures Orderly(WholeCall(path, a, b), law)
  {
    hide LawAt, Get, Evaluated, ResolvedBy, ApprovalOf, PreparedFor, StepForm;
    var t, opening := WholeCall(path, a, b), Opening(law, path, tools, calls[0], index, e);
    var ev := Evaluated(law, path, calls[0], e);
    assert t == opening + b && t[2..] == ev + b && t[|opening|..] == b;
    EvaluatedParts(law, path, calls[0], e);
    assert t[4] == ev[2];
    NotRunStep(law, path, calls[0], tools, step, e);
    forall k | 0 <= k < |t|
      ensures LawAt(t, k, law)
    {
      if k < |opening| {
        OpeningInOrder(law, path, tools, calls, index, step, e, t, b, k);
      } else {
        EndInOrder(law, path, calls, step, t, |opening|, b, 4, k);
      }
    }
  }

  lemma NotRunStep(law: Law, path: seq<string>, call: ToolCall, tools: ToolSet, step: CallStep, e: Course)
    requires StepForm(law, path, call, tools, step, e) && !Runs(law, call, e)
    ensures step.UserAborted? ==> ApprovalOf(law, call, e) == AbortTurn
    ensures step.Answered? ==> !step.subagentAborted
  {
    hide PolicyDecision, WorkForm;
  }

  /** A call that was dispatched, around the work it did. */
  lemma RunOrderly(
    law: Law, path: seq<string>, tools: ToolSet, calls: seq<ToolCall>, index: nat, step: CallStep, e: Course,
    a: seq<Action>, b: seq<Action>)
    requires calls != [] && CallForm(law, path, tools, calls[0], index, step, a, e)
    requires ResolvedBy(path, law.texts, calls, step, b) && !step.OutOfBudget? && !step.Unavailable?
    requires tools <= law.tools && index < law.perResponse && Runs(law, calls[0], e)
    requires Continues(e.work, law)
    requires e.aborted ==> exists j :: 0 <= j < |e.work| && AbortAsked(e.work[j], path)
    ensures Orderly(WholeCall(path, a, b), law)
  {
    hide *;
    var t, call := WholeCall(path, a, b), calls[0];
    var opening := Opening(law, path, tools, call, index, e);
    var pre := opening + [Dispatch(path, call, e.tool, e.preparation, tools)];
    CallParts(law, path, call, tools, index, step, a, e);
    RunStep(law, path, call, tools, step, e);
    RunShape(law, path, call, tools, index, a, e, b);
    DispatchInOrder(law, path, tools, call, index, e, t, e.work + b);
    var asked := 0;
    if e.aborted {
      var j :| 0 <= j < |e.work| && AbortAsked(e.work[j], path);
      asked := |pre| + j;
      assert t[asked] == e.work[j];
    }
    forall k | 0 <= k < |t|
      ensures LawAt(t, k, law)
    {
      if k < |opening| {
        OpeningInOrder(law, path, tools, calls, index, step, e, t, b, k);
      } else if |pre| <= k < |pre| + |e.work| {
        WorkInOrder(law, path, call, tools, e, pre, b, k);
      } else if k >= |pre| + |e.work| {
        EndInOrder(law, path, calls, step, t, |pre| + |e.work|, b, asked, k);
      }
    }
    OrderlyIf(t, law);
  }

  lemma CallParts(
    law: Law, path: seq<string>, call: ToolCall, tools: ToolSet, index: nat, step: CallStep, a: seq<Action>, e: Course)
    requires CallForm(law, path, tools, call, index, step, a, e) && !step.OutOfBudget? && !step.Unavailable?
    ensures Get(tools, call.name) == Some(e.tool) && PreparedFor(e.tool, e.preparation)
    ensures a == [Charge(path, call, index, tools)] + Decided(law, path, call, tools, e)
    ensures StepForm(law, path, call, tools, step, e)
  {
    hide Decided, StepForm, PreparedFor, Get;
  }

  /** How the whole of a dispatched call divides. */
  lemma RunShape(
    law: Law, path: seq<string>, call: ToolCall, tools: ToolSet, index: nat, a: seq<Action>, e: Course, b: seq<Action>)
    requires a == [Charge(path, call, index, tools)] + Decided(law, path, call, tools, e) && Runs(law, call, e)
    ensures var t, ev := WholeCall(path, a, b), Evaluated(law, path, call, e);
            var d, opening := Dispatch(path, call, e.tool, e.preparation, tools),
                Opening(law, path, tools, call, index, e);
            && t == opening + [d] + e.work + b && t[|opening| + 1 + |e.work|..] == b
            && t == [Check(path, false)] + ([Charge(path, call, index, tools)] + ev + [d]) + (e.work + b)
            && t[2..] == Decided(law, path, call, tools, e) + b && opening <= t && |opening| == 2 + |ev|
  {
    hide Evaluated, Runs;
  }

  lemma RunStep(law: Law, path: seq<string>, call: ToolCall, tools: ToolSet, step: CallStep, e: Course)
    requires StepForm(law, path, call, tools, step, e) && Runs(law, call, e)
    ensures step == Answered(e.result, e.aborted)
    ensures WorkForm(law, path, call, e.tool, e.preparation, tools, e.work, e.result, e.aborted)
  {
    hide PolicyDecision, WorkForm;
  }

  lemma WorkInOrder(
    law: Law, path: seq<string>, call: ToolCall, tools: ToolSet, e: Course, pre: seq<Action>, b: seq<Action>, k: nat)
    requires WorkForm(law, path, call, e.tool, e.preparation, tools, e.work, e.result, e.aborted)
    requires Continues(e.work, law) && |pre| <= k < |pre| + |e.work|
    requires pre != [] && pre[|pre| - 1] == Dispatch(path, call, e.tool, e.preparation, tools)
    ensures LawAt(pre + e.work + b, k, law)
  {
    hide WorkForm, LawAt;
    if LawAt(e.work, k - |pre|, law) {
      LawShift(pre, e.work, b, k - |pre|, law);
    } else {
      StartInOrder(law, path, call, tools, e, pre + e.work + b, |pre|);
    }
  }

  /** A subagent starts right after the dispatch that grants it. */
  lemma StartInOrder(
    law: Law, path: seq<string>, call: ToolCall, tools: ToolSet, e: Course, t: seq<Action>, k: nat)
    requires WorkForm(law, path, call, e.tool, e.preparation, tools, e.work, e.result, e.aborted)
    requires e.work != [] && e.work[0].Emit? && e.work[0].event.SubagentStarted?
    requires 0 < k < |t| && t[k] == e.work[0] && t[k - 1] == Dispatch(path, call, e.tool, e.preparation, tools)
    ensures LawAt(t, k, law)
  {
    hide RequestedTools, TaskOf, ChildTools, Grants, EndForm, Told, Tallied, Truncate, Carries;
    var w := [t[k - 1], t[k]];
    GrantsIff(call, tools, t[k].event.task, t[k].event.tools);
    assert StartForm(w);
    assert t[k - 1..k + 1] == w;
    assert LawBy(t, k, law, 1, w);
  }

  /** A whole call, from the check before it to its end, is proper. */
  lemma CallProper(
    agent: Agent, limits: Limits, calls: seq<ToolCall>, index: nat, step: CallStep, e: Course, a: seq<Action>,
    b: seq<Action>)
    requires calls != [] && index < limits.toolCallsPerResponse
    requires CallForm(LawOf(agent, limits), agent.path, agent.policy.tools, calls[0], index, step, a, e)
    requires ResolvedBy(agent.path, agent.policy.texts, calls, step, b)
    requires ProperWork(e.work, agent, limits)
    requires e.aborted ==> exists j :: 0 <= j < |e.work| && AbortAsked(e.work[j], agent.path)
    ensures Proper(WholeCall(agent.path, a, b), agent, limits)
  {
    hide Orderly, Evaluated, ResolvedBy, Families, LawOf, ApprovalOf, WorkForm, Get, PreparedFor, CallForm, Carries,
         QuietAction;
    var law, path, tools := LawOf(agent, limits), agent.path, agent.policy.tools;
    LawFacts(agent, limits);
    EndAlone(path, law.texts, calls, step, b, tools);
    if step.OutOfBudget? || step.Unavailable? {
      UndecidedOrderly(law, path, tools, calls, index, step, e, a, b);
      UndecidedAlone(law, path, tools, calls[0], index, step, a, e);
      AloneFamilies([], path, limits);
      assert WholeCall(path, a, b) == [Check(path, false)] + a + [] + b;
      AroundWork(agent, limits, [Check(path, false)] + a, [], b);
    } else {
      OpeningAlone(law, path, tools, calls[0], index, e);
      CallShape(law, path, tools, calls[0], index, step, a, e);
      var opening := Opening(law, path, tools, calls[0], index, e);
      if Runs(law, calls[0], e) {
        RunOrderly(law, path, tools, calls, index, step, e, a, b);
        var pre := opening + [Dispatch(path, calls[0], e.tool, e.preparation, tools)];
        assert WholeCall(path, a, b) == pre + e.work + b;
        AroundWork(agent, limits, pre, e.work, b);
      } else {
        NotRunOrderly(law, path, tools, calls, index, step, e, a, b);
        assert WholeCall(path, a, b) == opening + [] + b;
        AloneFamilies([], path, limits);
        AroundWork(agent, limits, opening, [], b);
      }
    }
  }

  lemma CallShape(
    law: Law, path: seq<string>, tools: ToolSet, call: ToolCall, index: nat, step: CallStep, t: seq<Action>, e: Course)
    requires CallForm(law, path, tools, call, index, step, t, e) && !step.OutOfBudget? && !step.Unavailable?
    ensures var dispatch := Dispatch(path, call, e.tool, e.preparation, tools);
            [Check(path, false)] + t
            == Opening(law, path, tools, call, index, e) + (if Runs(law, call, e) then [dispatch] + e.work else [])
  {
    hide Evaluated, WorkForm, ApprovalOf, PreparedFor, Get, DenialText;
  }

  lemma OpeningAlone(law: Law, path: seq<string>, tools: ToolSet, call: ToolCall, index: nat, e: Course)
    ensures var t := Opening(law, path, tools, call, index, e);
            var d := Dispatch(path, call, e.tool, e.preparation, tools);
            && Alone(t, path) && Offers(t, path, tools) && Alone(t + [d], path) && Offers(t + [d], path, tools)
  {
    hide Evaluated;
    var t, ev := Opening(law, path, tools, call, index, e), Evaluated(law, path, call, e);
    EvaluatedParts(law, path, call, e);
    assert forall k :: 2 <= k < |t| ==> t[k] == ev[k - 2];
  }

  lemma UndecidedAlone(
    law: Law, path: seq<string>, tools: ToolSet, call: ToolCall, index: nat, step: CallStep, t: seq<Action>, e: Course)
    requires CallForm(law, path, tools, call, index, step, t, e) && (step.OutOfBudget? || step.Unavailable?)
    ensures Alone([Check(path, false)] + t, path) && Offers([Check(path, false)] + t, path, tools)
  {
  }

  lemma EndAlone(path: seq<string>, texts: Texts, calls: seq<ToolCall>, step: CallStep, b: seq<Action>, tools: ToolSet)
    requires calls != [] && ResolvedBy(path, texts, calls, step, b)
    ensures Alone(b, path) && Offers(b, path, tools)
  {
    hide ResolvedBy;
    ResolvedParts(path, texts, calls, step, b);
  }

  lemma LawFacts(agent: Agent, limits: Limits)
    ensures var law := LawOf(agent, limits);
            law.tools == agent.policy.tools && law.perResponse == limits.toolCallsPerResponse
              && law.texts == agent.policy.texts
  {
  }

  /** Own actions before and after some work leave to it what it says about tools and subagents. */
  lemma AroundWork(agent: Agent, limits: Limits, pre: seq<Action>, work: seq<Action>, post: seq<Action>)
    requires Within(work, agent.path, Delegates(agent)) && Offers(work, agent.path, agent.policy.tools)
    requires Families(work, agent.path, limits)
    requires Alone(pre, agent.path) && Alone(post, agent.path)
    requires Offers(pre, agent.path, agent.policy.tools) && Offers(post, agent.path, agent.policy.tools)
    ensures var t := pre + work + post;
            && Within(t, agent.path, Delegates(agent)) && Offers(t, agent.path, agent.policy.tools)
            && Families(t, agent.path, limits)
  {
    hide Families, Carries, Delegates;
    AloneFamilies(pre, agent.path, limits);
    AloneFamilies(post, agent.path, limits);
    FamiliesConcat(pre, work, agent.path, limits);
    FamiliesConcat(pre + work, post, agent.path, limits);
  }

  // ----- Delegations -----

  datatype Delegation = Delegation(outcome: string, message: Option<string>, result: string)

  /** What a finished subagent reports to its parent. */
  function Conclude(
    name: string, describe: TurnError -> string, history: seq<Message>, flow: Flow, cancelled: bool): Delegation
  {
    match flow
    case Aborted => Delegation("aborted", None, "subagent " + name + " stopped: the user aborted its turn")
    case FailedTurn(error) =>
      if error.Exhausted? then
        Delegation("budget_exhausted", Some(describe(error)), "subagent " + name + " stopped: " + describe(error))
      else if cancelled then Delegation("cancelled", None, "subagent " + name + " was cancelled")
      else Delegation("failed", Some(describe(error)), "subagent " + name + " failed: " + describe(error))
    case _ =>
      var last := LastIndexOf(history, Assistant);
      var answer := if last.Some? then Trim(history[last.value].content) else [];
      Delegation("completed", None, if answer == [] then "(the subagent finished without a final answer)" else answer)
  }

  /** The history ends in the last thing the agent said. */
  predicate FinalReply(history: seq<Message>, y: Own)
  {
    && history != [] && y.spoken != []
    && history[|history| - 1].role == Assistant && y.spoken[|y.spoken| - 1].role == Assistant
    && history[|history| - 1].content == y.spoken[|y.spoken| - 1].content
  }

  /** The result is told from the outcome and the agent's own words. */
  lemma ConcludeTold(
    name: string, describe: TurnError -> string, history: seq<Message>, flow: Flow, cancelled: bool, y: Own)
    requires flow.Completed? ==> FinalReply(history, y)
    requires !flow.GoOn?
    ensures var c := Conclude(name, describe, history, flow, cancelled);
            && c.result == Told(name, c.outcome, c.message, y.spoken)
            && (c.outcome == "aborted" <==> flow.Aborted?) && (c.outcome == "completed" <==> flow.Completed?)
  {
    hide Trim;
    if flow.Completed? {
      var last := LastIndexOf(history, Assistant);
      assert last == Some(|history| - 1);
    }
  }

  /** The subagent a delegation starts. */
  function Child(agent: Agent, requested: ToolSet, number: nat): Agent
  {
    var name := DelegateScope(agent.policy.scope, number);
    Agent(agent.policy.(tools := ChildTools(requested, agent.policy.tools), scope := Some(name)), agent.path + [name])
  }

  /** The child of a delegation, as its parent's run needs to know it. */
  lemma ChildFacts(agent: Agent, requested: ToolSet, number: nat)
    ensures var child, name := Child(agent, requested, number), DelegateScope(agent.policy.scope, number);
            && !Delegates(child) && child.policy.tools == ChildTools(requested, agent.policy.tools)
            && child.policy.tools <= agent.policy.tools
            && child.policy == agent.policy.(tools := child.policy.tools, scope := Some(name))
            && child.path == agent.path + [name] && child.path[|agent.path|] == name && child.path != agent.path
  {
    hide DelegateScope;
  }

  /** A nested run between the events that announce and report it. */
  function Around(started: Action, inner: seq<Action>, looks: seq<Action>, finished: Action): seq<Action>
  {
    [started] + inner + (looks + [finished])
  }

  /** A nested run, between events of its parent, is part of the parent's run. */
  lemma DelegationProper(
    agent: Agent, child: Agent, name: string, limits: Limits, started: Action, inner: seq<Action>, looks: seq<Action>,
    finished: Action)
    requires Delegates(agent) && !Delegates(child)
    requires child.policy.tools <= agent.policy.tools
    requires child.policy == agent.policy.(tools := child.policy.tools, scope := Some(name))
    requires child.path == agent.path + [name]
    requires Proper(inner, child, limits)
    requires started.Emit? && started.path == agent.path && started.event.SubagentStarted?
             && started.event.agent == name
    requires FinishedAt(finished, agent.path, name)
    requires looks == [] || (|looks| == 1 && looks[0].Look? && looks[0].path == agent.path)
    requires AgentKept(Tallied(FRESH, inner, child.path).own, Some(name), limits)
    requires OutcomeTold(finished.event.outcome, Tallied(FRESH, inner, child.path).own, limits)
    ensures ProperWork(Around(started, inner, looks, finished), agent, limits)
    ensures Tallied(FRESH, Around(started, inner, looks, finished), child.path).own
            == Tallied(FRESH, inner, child.path).own
  {
    hide Orderly, Continues, Families, Tallied, AgentKept, OutcomeTold, Carries;
    var law, last := LawOf(agent, limits), looks + [finished];
    OrderlyForParent(inner, LawOf(child, limits), law);
    DelegationFamilies(agent.path, name, started, inner, looks, finished, limits);
    PlainOrderly(last, law);
    OrderlyConcat(inner, last, law);
    StartContinues(started, inner + last, law);
    assert [started] + (inner + last) == Around(started, inner, looks, finished);
    NoTools(started, agent.policy.tools);
    NoTools(finished, agent.policy.tools);
    if looks != [] { NoTools(looks[0], agent.policy.tools); }
  }

  lemma NoTools(a: Action, tools: ToolSet)
    requires a.Emit? || a.Look?
    ensures Carries(a, tools)
  {
  }

  /** To the parent's tally it is requests, charges and one subagent started. */
  lemma DelegationTallied(
    y: Tally, path: seq<string>, childPath: seq<string>, started: Action, inner: seq<Action>, looks: seq<Action>,
    finished: Action)
    requires path != childPath && Within(inner, childPath, false) && Tallied(FRESH, inner, childPath).sendable
    requires started.Emit? && started.path == path && started.event.SubagentStarted?
    requires finished.Emit? && finished.path == path && finished.event.SubagentFinished?
    requires looks == [] || (|looks| == 1 && looks[0].Look? && looks[0].path == path)
    ensures var z, inside := Tallied(y, Around(started, inner, looks, finished), path),
            Tallied(FRESH, inner, childPath);
            var kids := y.own.kids;
            && z.sends == y.sends + inside.sends && z.charges == y.charges + inside.charges
            && z.own == y.own.(kids := kids.(numbers := kids.numbers + [kids.delegated],
                                             started := kids.started + [started.event.agent]))
            && Steady(y, z)
  {
    hide Tallied, Within, Sendable;
    TalliedOne(y, started, path);
    var begun := Count(y, started, path);
    TalliedFromOutside(begun, FRESH, inner, path, childPath);
    TalliedConcat(y, [started], inner, path);
    var z := Tallied(y, [started] + inner, path);
    TalliedNone(z, path);
    if looks != [] {
      TalliedOne(z, looks[0], path);
      assert looks == [looks[0]];
    }
    TalliedSnoc(z, looks, finished, path);
    TalliedConcat(y, [started] + inner, looks + [finished], path);
  }

  /** The outcome reported is that of the nested run. */
  lemma DelegationEnded(
    agent: Agent, child: Agent, name: string, history: seq<Message>, flow: Flow, cancelled: bool, started: Action,
    inner: seq<Action>, looks: seq<Action>, finished: Action)
    requires inner != [] && Within(inner, child.path, false) && child.path != agent.path
    requires !flow.GoOn? && Caused(flow, inner, child.path)
    requires looks == if flow.FailedTurn? && !flow.error.Exhausted? then [Look(agent.path, cancelled)] else []
    ensures var c := Conclude(name, agent.policy.texts.describe, history, flow, cancelled);
            EndForm(agent.policy.texts, agent.path, child.path, Around(started, inner, looks, finished),
                    c.outcome, c.message)
  {
    hide CauseOf, Trim, LastIndexOf;
    var work := Around(started, inner, looks, finished);
    var k :| 0 <= k < |inner| && CauseOf(flow, inner[k], child.path);
    assert work[1 + k] == inner[k];
    CausedBy(flow, work, 1 + k, child.path);
    if looks == [] {
      assert work[|work| - 2] == inner[|inner| - 1];
    } else {
      assert work[|work| - 2] == looks[0];
    }
  }

  /** The nested run and its result are what a delegation's work must be. */
  lemma DelegationFormed(
    agent: Agent, child: Agent, limits: Limits, call: ToolCall, requested: ToolSet, name: string, started: Action,
    inner: seq<Action>, looks: seq<Action>, finished: Action, report: Delegation, aborted: bool)
    requires RequestedTools(call) == Some(requested) && child.path == agent.path + [name]
    requires child.policy.tools == ChildTools(requested, agent.policy.tools)
    requires started == Emit(agent.path, SubagentStarted(name, TaskOf(call), child.policy.tools))
    requires finished == Emit(agent.path, SubagentFinished(name, report.outcome, report.message))
    requires Within(inner, child.path, false) && Offers(inner, child.path, child.policy.tools)
    requires inner != [] && (inner[0].Reserve? || inner[0].Exhaust?)
    requires looks == [] || (|looks| == 1 && looks[0].Look? && looks[0].path == agent.path)
    requires var spoken := Tallied(FRESH, Around(started, inner, looks, finished), child.path).own.spoken;
             report.result == Told(name, report.outcome, report.message, spoken)
    requires aborted <==> report.outcome == "aborted"
    requires EndForm(agent.policy.texts, agent.path, child.path, Around(started, inner, looks, finished),
                     report.outcome, report.message)
    ensures DelegationForm(LawOf(agent, limits), agent.path, call, agent.policy.tools,
                           Around(started, inner, looks, finished), Truncate(report.result), aborted)
  {
    hide Tallied, Told, Truncate, RequestedTools, TaskOf, Carries, EndForm;
    var work := Around(started, inner, looks, finished);
    assert work[0] == started && work[1] == inner[0] && work[|work| - 1] == finished;
    forall k | 0 < k < |work| - 1
      ensures (work[k].path == child.path && Carries(work[k], child.policy.tools))
              || (k == |work| - 2 && work[k].Look? && work[k].path == agent.path)
    {
      if k <= |inner| { assert work[k] == inner[k - 1]; } else { assert work[k] == looks[0]; }
    }
  }
}
