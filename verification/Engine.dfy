/** One agent turn: the provider loop, the tool loop and nested subagent turns. */
module Engine {
  import opened Wrappers
  import opened Text
  import opened Transcript
  import opened Merging
  import opened Compaction
  import opened Retention
  import opened Requests
  import opened ApprovalPolicies
  import opened Tools
  import opened CallIdentifiers
  import opened Traces
  import opened Orders
  import opened Worlds
  import opened Agents
  import opened Turns

  // ----- Emitting one event per call -----

  method EmitRequested(w: World, path: seq<string>, calls: seq<ToolCall>, ghost y: Tally)
    returns (ghost t: seq<Action>)
    requires w.Valid()
    modifies w`trace
    ensures w.Valid() && w.trace == old(w.trace) + t && t == Announcements(path, calls)
    ensures var asked := y.own.asked;
            Tallied(y, t, path) == y.(own := y.own.(asked := asked.(
              announced := asked.announced + calls, requested := asked.requested + Ids(calls))))
  {
    hide Tallied, World.Valid;
    t := [];
    TalliedNone(y, path);
    ghost var asked := y.own.asked;
    assert asked.requested + Ids(calls[..0]) == asked.requested && asked.announced + calls[..0] == asked.announced;
    for i := 0 to |calls|
      invariant w.Valid() && w.trace == old(w.trace) + t && t == Announcements(path, calls[..i])
      invariant Tallied(y, t, path) == y.(own := y.own.(asked := asked.(
                  announced := asked.announced + calls[..i], requested := asked.requested + Ids(calls[..i]))))
    {
      var action := Emit(path, ToolRequested(calls[i]));
      w.Log(action);
      TalliedSnoc(y, t, action, path);
      t := t + [action];
      assert calls[..i + 1] == calls[..i] + [calls[i]];
      assert Ids(calls[..i + 1]) == Ids(calls[..i]) + [calls[i].id];
    }
    assert calls[..|calls|] == calls;
  }

  method EmitSkipped(w: World, path: seq<string>, calls: seq<ToolCall>, ghost y: Tally) returns (ghost t: seq<Action>)
    requires w.Valid()
    modifies w`trace
    ensures w.Valid() && w.trace == old(w.trace) + t && t == Skips(path, calls)
    ensures Tallied(y, t, path) == y.(own := y.own.(closed := y.own.closed + Ids(calls)))
  {
    hide Tallied, World.Valid;
    t := [];
    TalliedNone(y, path);
    assert y.own.closed + Ids(calls[..0]) == y.own.closed;
    for i := 0 to |calls|
      invariant w.Valid() && w.trace == old(w.trace) + t && t == Skips(path, calls[..i])
      invariant Tallied(y, t, path) == y.(own := y.own.(closed := y.own.closed + Ids(calls[..i])))
    {
      var action := Emit(path, ToolSkipped(calls[i].id, calls[i].name));
      w.Log(action);
      TalliedSnoc(y, t, action, path);
      t := t + [action];
      assert Ids(calls[..i + 1]) == Ids(calls[..i]) + [calls[i].id];
    }
    assert calls[..|calls|] == calls;
  }

  /** Stop a turn the user aborted: the calls not reached are skipped. */
  method EmitAborted(w: World, path: seq<string>, rest: seq<ToolCall>, ghost y: Tally) returns (ghost t: seq<Action>)
    requires w.Valid()
    modifies w`trace
    ensures w.Valid() && w.trace == old(w.trace) + t && t == Abandon(path, rest)
    ensures Tallied(y, t, path) == y.(own := y.own.(closed := y.own.closed + Ids(rest), aborts := y.own.aborts + 1))
  {
    hide Tallied, World.Valid;
    t := EmitSkipped(w, path, rest, y);
    w.Log(Emit(path, TurnAborted));
    TalliedSnoc(y, t, Emit(path, TurnAborted), path);
    t := t + [Emit(path, TurnAborted)];
  }

  /** Answer a call without evaluating it. */
  method RefuseCall(
    w: World, path: seq<string>, history: seq<Message>, call: ToolCall, scoped: ToolCall, result: string,
    ghost y: Tally)
    returns (history': seq<Message>, ghost t: seq<Action>)
    requires w.Valid() && scoped == call.(id := scoped.id)
    modifies w`trace
    ensures w.Valid() && w.trace == old(w.trace) + t && t == Refusal(path, scoped, result)
    ensures Tallied(y, t, path)
            == y.(own := y.own.(closed := y.own.closed + [scoped.id],
                                spoken := y.own.spoken + [Line(ToolRole, result, 0)]))
    ensures history' == history + [ToolResult(call, result)]
  {
    hide Tallied, World.Valid;
    var decision := Emit(path, ToolDecision(scoped.id, Refuse));
    var answer := Emit(path, ToolResulted(scoped.id, call.name, result));
    w.Log(decision);
    w.Log(answer);
    history' := history + [ToolResult(call, result)];
    TalliedOne(y, decision, path);
    TalliedSnoc(y, [decision], answer, path);
    t := [decision] + [answer];
  }

  method RefuseAll(
    w: World, path: seq<string>, history: seq<Message>, calls: seq<ToolCall>, scoped: seq<ToolCall>, result: string,
    ghost y: Tally)
    returns (history': seq<Message>, ghost t: seq<Action>)
    requires w.Valid() && ScopedCopies(calls, scoped)
    modifies w`trace
    ensures w.Valid() && w.trace == old(w.trace) + t && t == Refusals(path, scoped, result)
    ensures Tallied(y, t, path) == Refused(y, calls, scoped, result)
    ensures history' == history + ResultsFor(calls, result)
  {
    hide Tallied, ResultsFor, Lines, World.Valid, Refused, Refusals, Refusal;
    history', t := history, [];
    TalliedNone(y, path);
    NoStubs(path, calls, scoped, result, y);
    for i := 0 to |calls|
      invariant w.Valid() && w.trace == old(w.trace) + t && t == Refusals(path, scoped[..i], result)
      invariant Tallied(y, t, path) == Refused(y, calls[..i], scoped[..i], result)
      invariant history' == history + ResultsFor(calls[..i], result)
    {
      ghost var more;
      OneMoreStub(path, calls, scoped, result, i, y);
      history', more := RefuseCall(w, path, history', calls[i], scoped[i], result, Tallied(y, t, path));
      TalliedConcat(y, t, more, path);
      t := t + more;
    }
    assert scoped[..|scoped|] == scoped && calls[..|calls|] == calls;
  }

  function Refused(y: Tally, calls: seq<ToolCall>, scoped: seq<ToolCall>, result: string): Tally
  {
    y.(own := y.own.(closed := y.own.closed + Ids(scoped), spoken := y.own.spoken + Lines(ResultsFor(calls, result))))
  }

  lemma NoStubs(path: seq<string>, calls: seq<ToolCall>, scoped: seq<ToolCall>, result: string, y: Tally)
    ensures Refused(y, calls[..0], scoped[..0], result) == y && ResultsFor(calls[..0], result) == []
    ensures Refusals(path, scoped[..0], result) == []
  {
    assert y.own.closed + Ids([]) == y.own.closed && y.own.spoken + Lines([]) == y.own.spoken;
  }

  lemma OneMoreStub(path: seq<string>, calls: seq<ToolCall>, scoped: seq<ToolCall>, result: string, i: nat, y: Tally)
    requires i < |calls| == |scoped|
    ensures ResultsFor(calls[..i + 1], result) == ResultsFor(calls[..i], result) + [ToolResult(calls[i], result)]
    ensures Refusals(path, scoped[..i + 1], result)
            == Refusals(path, scoped[..i], result) + Refusal(path, scoped[i], result)
    ensures var z := Refused(y, calls[..i], scoped[..i], result);
            Refused(y, calls[..i + 1], scoped[..i + 1], result)
            == z.(own := z.own.(closed := z.own.closed + [scoped[i].id],
                                spoken := z.own.spoken + [Line(ToolRole, result, 0)]))
  {
    ResultsSnoc(calls[..i], calls[i], result);
    assert calls[..i + 1] == calls[..i] + [calls[i]];
    assert scoped[..i + 1][..i] == scoped[..i];
    assert Ids(scoped[..i + 1]) == Ids(scoped[..i]) + [scoped[i].id];
    LinesConcat(ResultsFor(calls[..i], result), [ToolResult(calls[i], result)]);
  }

  lemma {:induction false} ResultsSnoc(calls: seq<ToolCall>, call: ToolCall, result: string)
    ensures ResultsFor(calls + [call], result) == ResultsFor(calls, result) + [ToolResult(call, result)]
  {
    if calls == [] {
      assert [] + [call] == [call] && [call][1..] == [];
    } else {
      assert (calls + [call])[1..] == calls[1..] + [call];
      ResultsSnoc(calls[1..], call, result);
    }
  }

  // ----- One call: charge, look up, prepare, decide, ask, check, run -----

  /** Decide about a call and tell the observer; the flag is looked at afterwards. */
  method Evaluate(w: World, agent: Agent, scoped: ToolCall, tool: Tool, preparation: Preparation)
    returns (approval: Approval, denial: string, ghost answer: Approval)
    requires w.Valid()
    modifies w`clock, w`trace
    ensures w.Valid()
    ensures var law := LawOf(agent, w.limits);
            var decision := PolicyDecision(law, scoped, tool, preparation);
            && approval == ApprovalFor(decision, answer) && denial == DenialText(law, scoped, tool, preparation)
            && w.trace == old(w.trace) + Evaluation(agent.path, scoped, tool, preparation, decision, answer)
            && (decision == Prompt ==> answer == w.script.approval(old(w.clock)) && w.clock == old(w.clock) + 1)
            && (decision != Prompt ==> w.clock == old(w.clock))
  {
    hide World.Valid, Facts;
    var policy, path := agent.policy, agent.path;
    var facts := Facts(scoped, tool, preparation);
    var decision := policy.rules.Decide(policy.split, facts, policy.mode);
    var byPolicy := decision == Deny && DefaultDecision(facts, policy.mode) != Deny;
    denial := if byPolicy then policy.texts.deniedByPolicy else policy.texts.deniedByUser;
    w.Log(Decide(path, scoped, tool, preparation, decision));
    var gate := Gate(tool, preparation);
    var why := if gate.Some? then gate.value else PolicyListed;
    var said := Refuse;
    if decision == Prompt {
      said := w.RequestApproval(path, scoped, why);
    }
    approval := ApprovalFor(decision, said);
    w.Log(Emit(path, ToolDecision(scoped.id, approval)));
    answer := said;
  }

  /** The tally of a call up to its result. */
  predicate CallTallied(
    scope: Option<string>, step: CallStep, id: string, y: Tally, z: Tally, observed': bool, delegations': nat)
  {
    && Steady(y, z.(own := z.own.(cancelled := y.own.cancelled)))
    && z.own.dispatched == observed' && (y.own.dispatched ==> observed')
    && ClosedBy(step, id, y.own, z.own)
    && Numbering(scope, z.own, delegations')
  }

  method HandleCall(
    w: World, agent: Agent, call: ToolCall, scoped: ToolCall, index: nat, observed: bool, delegations: nat,
    ghost y: Tally)
    returns (step: CallStep, observed': bool, delegations': nat, ghost t: seq<Action>, ghost e: Course)
    requires w.Valid() && index < w.limits.toolCallsPerResponse
    requires scoped == call.(id := scoped.id) && y.own.dispatched == observed && !y.own.cancelled
    requires Numbering(agent.policy.scope, y.own, delegations)
    modifies w
    ensures w.Valid() && w.trace == old(w.trace) + t
    ensures CallForm(LawOf(agent, w.limits), agent.path, agent.policy.tools, scoped, index, step, t, e)
    ensures ProperWork(e.work, agent, w.limits) && (e.aborted ==> Caused(Aborted, e.work, agent.path))
    ensures var z := Tallied(y, t, agent.path);
            && CallTallied(agent.policy.scope, step, scoped.id, y, z, observed', delegations')
            && w.requests - old(w.requests) == z.sends - y.sends
            && w.calls - old(w.calls) == z.charges - y.charges
    ensures Caused(FlowOf(step), t, agent.path)
    ensures w.clock >= old(w.clock) && w.requests >= old(w.requests) && w.calls >= old(w.calls)
    ensures !Delegates(agent) ==> w.requests == old(w.requests) && w.calls <= old(w.calls) + 1
    ensures !step.OutOfBudget? && Smooth(w.script) && WouldRun(agent, w.limits, call) ==> observed'
    decreases if Delegates(agent) then 1 else 0, 4
  {
    hide Proper, ProperWork, Tallied, Numbered, Smooth, WouldRun, Caused, World.Valid, Get, CallTallied,
         DecidedTallied, Decided, StepForm, PreparedFor, LawOf;
    observed', delegations', e := observed, delegations, NO_COURSE;
    NoWork(agent, w.limits);
    ghost var law := LawOf(agent, w.limits);
    var tools := agent.policy.tools;
    var exhausted := w.ChargeCall(agent.path, scoped, index, tools);
    if exhausted.Some? {
      t := [Exhaust(agent.path, exhausted.value)];
      step := OutOfBudget(exhausted.value);
      ExhaustTallied(agent, y, scoped.id, exhausted.value, delegations);
      return;
    }
    ghost var charge := Charge(agent.path, scoped, index, tools);
    t := [charge];
    ChargeTallied(agent, y, scoped, index, delegations);
    var tool := Get(agent.policy.tools, call.name);
    if tool.None? {
      step := Unavailable;
      NoTool(agent, w.limits, call, t);
      return;
    }
    ghost var charged, more := Tallied(y, t, agent.path), [];
    step, observed', delegations', more, e :=
      DecideAndRun(w, agent, call, scoped, tool.value, observed, delegations, charged);
    TalliedConcat(y, t, more, agent.path);
    CausedConcat(FlowOf(step), t, more, agent.path);
    ChargedThrough(agent, step, y, scoped.id, charged, Tallied(y, t + more, agent.path), observed', delegations');
    t := t + more;
    assert w.trace == old(w.trace) + t;
  }

  const NO_COURSE: Course := Course(ReadFile, Other, Refuse, false, [], [], false, [])

  lemma ExhaustTallied(agent: Agent, y: Tally, id: string, limit: Exhaustion, delegations: nat)
    requires Numbering(agent.policy.scope, y.own, delegations)
    ensures var t := [Exhaust(agent.path, limit)];
            && Tallied(y, t, agent.path) == y && Caused(FlowOf(OutOfBudget(limit)), t, agent.path)
            && CallTallied(agent.policy.scope, OutOfBudget(limit), id, y, y, y.own.dispatched, delegations)
  {
    hide Tallied;
    TalliedOne(y, Exhaust(agent.path, limit), agent.path);
    CausedBy(FlowOf(OutOfBudget(limit)), [Exhaust(agent.path, limit)], 0, agent.path);
  }

  lemma ChargeTallied(agent: Agent, y: Tally, call: ToolCall, index: nat, delegations: nat)
    requires Numbering(agent.policy.scope, y.own, delegations)
    ensures var z := Tallied(y, [Charge(agent.path, call, index, agent.policy.tools)], agent.path);
            && z == y.(charges := y.charges + 1, own := y.own.(charged := y.own.charged + [call.id]))
            && Numbering(agent.policy.scope, z.own, delegations)
            && CallTallied(agent.policy.scope, Unavailable, call.id, y, z, y.own.dispatched, delegations)
  {
    hide Tallied;
    TalliedOne(y, Charge(agent.path, call, index, agent.policy.tools), agent.path);
  }

  /** The charge and what follows it together. */
  lemma ChargedThrough(
    agent: Agent, step: CallStep, y: Tally, id: string, z: Tally, end: Tally, observed': bool, delegations': nat)
    requires z == y.(charges := y.charges + 1, own := y.own.(charged := y.own.charged + [id]))
    requires !step.OutOfBudget? && DecidedTallied(agent.policy.scope, step, id, z, end, observed', delegations')
    ensures CallTallied(agent.policy.scope, step, id, y, end, observed', delegations')
  {
  }

  lemma NoTool(agent: Agent, limits: Limits, call: ToolCall, t: seq<Action>)
    requires Get(agent.policy.tools, call.name).None?
    ensures !WouldRun(agent, limits, call) && Caused(FlowOf(Unavailable), t, agent.path)
  {
  }

  /** The tally of a charged call up to its result. */
  predicate DecidedTallied(
    scope: Option<string>, step: CallStep, id: string, y: Tally, z: Tally, observed': bool, delegations': nat)
  {
    && Steady(y, z.(own := z.own.(cancelled := y.own.cancelled)))
    && z.own.dispatched == observed' && (y.own.dispatched ==> observed')
    && ClosedBy(step, id, y.own.(charged := []), z.own.(charged := [id])) && z.own.charged == y.own.charged
    && Numbering(scope, z.own, delegations')
  }

  /** Prepare, decide and perhaps run a charged call. */
  method DecideAndRun(
    w: World, agent: Agent, call: ToolCall, scoped: ToolCall, tool: Tool, observed: bool, delegations: nat,
    ghost y: Tally)
    returns (step: CallStep, observed': bool, delegations': nat, ghost t: seq<Action>, ghost e: Course)
    requires w.Valid() && scoped == call.(id := scoped.id) && y.own.dispatched == observed && !y.own.cancelled
    requires Numbering(agent.policy.scope, y.own, delegations)
    requires Get(agent.policy.tools, call.name) == Some(tool)
    modifies w
    ensures w.Valid() && w.trace == old(w.trace) + t
    ensures var law := LawOf(agent, w.limits);
            && t == Decided(law, agent.path, scoped, agent.policy.tools, e) && e.tool == tool
               && PreparedFor(tool, e.preparation)
            && StepForm(law, agent.path, scoped, agent.policy.tools, step, e)
    ensures !step.OutOfBudget? && !step.Unavailable?
    ensures ProperWork(e.work, agent, w.limits) && (e.aborted ==> Caused(Aborted, e.work, agent.path))
    ensures var z := Tallied(y, t, agent.path);
            && DecidedTallied(agent.policy.scope, step, scoped.id, y, z, observed', delegations')
            && w.requests - old(w.requests) == z.sends - y.sends
            && w.calls - old(w.calls) == z.charges - y.charges
    ensures Caused(FlowOf(step), t, agent.path)
    ensures w.clock >= old(w.clock) && w.requests >= old(w.requests) && w.calls >= old(w.calls)
    ensures !Delegates(agent) ==> w.requests == old(w.requests) && w.calls == old(w.calls)
    ensures Smooth(w.script) && WouldRun(agent, w.limits, call) ==> observed'
    decreases if Delegates(agent) then 1 else 0, 3
  {
    hide Proper, ProperWork, Tallied, PolicyDecision, Numbered, Prepare, LawOf, Smooth, WouldRun, Caused, Steady,
         World.Valid, WorkForm, DenialText, DecidedTallied, PreparedFor, Evaluation;
    var path := agent.path;
    observed', delegations' := observed, delegations;
    ghost var law := LawOf(agent, w.limits);
    NoWork(agent, w.limits);
    var now := w.Tick();
    var preparation := Prepare(tool, w.script.prepared(now));
    ghost var asked := w.clock;
    var approval, denial, answer := Evaluate(w, agent, scoped, tool, preparation);
    ghost var looked := w.clock;
    var cancelled := w.IsCancelled(path);
    e := Course(tool, preparation, answer, cancelled, [], [], false, []);
    ghost var evaluated := Evaluated(law, path, scoped, e);
    assert w.trace == old(w.trace) + evaluated;
    if cancelled || approval != Approve {
      step := if cancelled then CancelledBefore
              else if approval == AbortTurn then UserAborted
              else Answered(denial, false);
      t := evaluated;
      NotRunTallied(agent, law, scoped, e, step, y, delegations);
      NotRunSmooth(agent, w.limits, w.script, call, scoped, e, asked, looked);
      return;
    }
    RunTallied(law, path, scoped, e, y);
    ghost var more, work;
    var result, aborted;
    result, aborted, delegations', more, work := DispatchAndRun(w, agent, scoped, tool, preparation, delegations, y);
    step, observed' := Answered(result, aborted), true;
    ghost var done := e.(work := work, result := result, aborted := aborted);
    assert Evaluated(law, path, scoped, done) == evaluated;
    t := evaluated + more;
    assert t == Decided(law, path, scoped, agent.policy.tools, done);
    TalliedConcat(y, evaluated, more, path);
    CausedConcat(FlowOf(step), evaluated, more, path);
    e := done;
    assert w.trace == old(w.trace) + t;
  }

  /** What is told about an evaluated call that is not dispatched. */
  lemma NotRunTallied(agent: Agent, law: Law, call: ToolCall, e: Course, step: CallStep, y: Tally, delegations: nat)
    requires !Runs(law, call, e) && Numbering(agent.policy.scope, y.own, delegations) && !y.own.cancelled
    requires if e.cancelled then step == CancelledBefore
             else if ApprovalOf(law, call, e) == AbortTurn then step == UserAborted
             else step.Answered? && !step.subagentAborted
    ensures var z := Tallied(y, Evaluated(law, agent.path, call, e), agent.path);
            && z.sends == y.sends && z.charges == y.charges
            && DecidedTallied(agent.policy.scope, step, call.id, y, z, y.own.dispatched, delegations)
    ensures Caused(FlowOf(step), Evaluated(law, agent.path, call, e), agent.path)
  {
    hide Tallied, Evaluated, PolicyDecision;
    TalliedEvaluated(y, law, agent.path, call, e);
    EvaluatedParts(law, agent.path, call, e);
    var t := Evaluated(law, agent.path, call, e);
    if e.cancelled {
      CausedBy(FlowOf(step), t, |t| - 1, agent.path);
    } else if step.UserAborted? {
      CausedBy(FlowOf(step), t, 2, agent.path);
    }
  }

  /** The evaluation of a call that will be dispatched adds nothing to the tally. */
  lemma RunTallied(law: Law, path: seq<string>, call: ToolCall, e: Course, y: Tally)
    requires Runs(law, call, e)
    ensures Tallied(y, Evaluated(law, path, call, e), path) == y
  {
    hide Tallied, Evaluated, PolicyDecision;
    TalliedEvaluated(y, law, path, call, e);
  }

  /** In a smooth world only a denial keeps an evaluated call from running. */
  lemma NotRunSmooth(
    agent: Agent, limits: Limits, script: Script, call: ToolCall, scoped: ToolCall, e: Course, asked: nat, looked: nat)
    requires scoped == call.(id := scoped.id) && Get(agent.policy.tools, call.name) == Some(e.tool)
    requires !Runs(LawOf(agent, limits), scoped, e) && e.cancelled == script.cancelled(looked)
    requires var decision := PolicyDecision(LawOf(agent, limits), scoped, e.tool, e.preparation);
             decision == Prompt ==> e.answer == script.approval(asked)
    ensures !(Smooth(script) && WouldRun(agent, limits, call))
  {
    hide PolicyDecision, LawOf;
    assert WouldRun(agent, limits, call) ==>
        PolicyDecision(LawOf(agent, limits), call.(id := scoped.id), e.tool, e.preparation) != Deny;
  }

  /** Dispatch a call that may run. */
  method DispatchAndRun(
    w: World, agent: Agent, scoped: ToolCall, tool: Tool, preparation: Preparation, delegations: nat, ghost y: Tally)
    returns (result: string, aborted: bool, delegations': nat, ghost t: seq<Action>, ghost work: seq<Action>)
    requires w.Valid() && tool in agent.policy.tools && Numbering(agent.policy.scope, y.own, delegations)
    requires !y.own.cancelled
    modifies w
    ensures w.Valid() && w.trace == old(w.trace) + t
    ensures t == [Dispatch(agent.path, scoped, tool, preparation, agent.policy.tools)] + work
    ensures WorkForm(LawOf(agent, w.limits), agent.path, scoped, tool, preparation, agent.policy.tools, work, result,
                     aborted)
    ensures ProperWork(work, agent, w.limits) && (aborted ==> Caused(Aborted, work, agent.path))
    ensures Caused(FlowOf(Answered(result, aborted)), t, agent.path)
    ensures var z := Tallied(y, t, agent.path);
            && DecidedTallied(agent.policy.scope, Answered(result, aborted), scoped.id, y, z, true, delegations')
            && w.requests - old(w.requests) == z.sends - y.sends
            && w.calls - old(w.calls) == z.charges - y.charges
    ensures w.clock >= old(w.clock) && w.requests >= old(w.requests) && w.calls >= old(w.calls)
    ensures !Delegates(agent) ==> w.requests == old(w.requests) && w.calls == old(w.calls)
    decreases if Delegates(agent) then 1 else 0, 2
  {
    hide Proper, ProperWork, Tallied, Caused, World.Valid, WorkForm, LawOf, Numbered;
    var dispatch := Dispatch(agent.path, scoped, tool, preparation, agent.policy.tools);
    w.Log(dispatch);
    TalliedOne(y, dispatch, agent.path);
    ghost var z := Tallied(y, [dispatch], agent.path);
    delegations' := if tool == DelegateTask then delegations + 1 else delegations;
    DispatchNumbered(agent.policy.scope, y.own.kids, z.own.kids, tool);
    result, aborted, work := Execute(w, agent, scoped, tool, preparation, delegations', z);
    t := [dispatch] + work;
    TalliedConcat(y, [dispatch], work, agent.path);
    if aborted {
      CausedConcat(Aborted, [dispatch], work, agent.path);
    } else {
      NothingCaused(t, agent.path);
    }
    assert w.trace == old(w.trace) + t;
  }

  lemma NothingCaused(t: seq<Action>, path: seq<string>)
    ensures Caused(GoOn, t, path)
  {
  }

  /** A dispatched delegation has a number of its own. */
  predicate Unused(kids: Kids)
  {
    forall i :: 0 <= i < |kids.numbers| ==> kids.numbers[i] < kids.delegated
  }

  lemma DispatchNumbered(scope: Option<string>, before: Kids, kids: Kids, tool: Tool)
    requires Numbered(scope, before)
    requires kids == before.(delegated := before.delegated + (if tool == DelegateTask then 1 else 0))
    ensures Numbered(scope, kids) && (tool == DelegateTask ==> Unused(kids))
  {
    hide DelegateScope;
  }

  /** What running a dispatched call may do to the tally: requests, charges and a subagent. */
  predicate WorkTallied(scope: Option<string>, y: Tally, z: Tally, delegations: nat)
  {
    Steady(y, z) && z.own == y.own.(kids := z.own.kids) && Numbering(scope, z.own, delegations)
  }

  /** Run a dispatched call: a subagent turn, or an opaque tool. */
  method Execute(
    w: World, agent: Agent, call: ToolCall, tool: Tool, preparation: Preparation, delegations: nat, ghost y: Tally)
    returns (result: string, aborted: bool, ghost t: seq<Action>)
    requires w.Valid() && tool in agent.policy.tools
    requires Numbering(agent.policy.scope, y.own, delegations) && (tool == DelegateTask ==> Unused(y.own.kids))
    modifies w
    ensures w.Valid() && w.trace == old(w.trace) + t && ProperWork(t, agent, w.limits)
    ensures WorkForm(LawOf(agent, w.limits), agent.path, call, tool, preparation, agent.policy.tools, t, result,
                     aborted)
    ensures aborted ==> Caused(Aborted, t, agent.path)
    ensures var z := Tallied(y, t, agent.path);
            && WorkTallied(agent.policy.scope, y, z, delegations)
            && w.requests - old(w.requests) == z.sends - y.sends
            && w.calls - old(w.calls) == z.charges - y.charges
    ensures w.clock >= old(w.clock) && w.requests >= old(w.requests) && w.calls >= old(w.calls)
    ensures !Delegates(agent) ==> w.requests == old(w.requests) && w.calls == old(w.calls)
    decreases if Delegates(agent) then 1 else 0, 1
  {
    hide Proper, ProperWork, Tallied, Numbered, World.Valid, DelegationForm, LawOf, Unused, Caused;
    if tool == DelegateTask {
      result, aborted, t := RunDelegation(w, agent, call, delegations, y);
    } else {
      var output := w.RunTool(agent.path);
      t := [Ran(agent.path, output)];
      result, aborted := ResultText(preparation, output), false;
      TalliedOne(y, t[0], agent.path);
      SteadySame(y);
      QuietOne(t[0], agent.path);
      ProperQuiet(t, agent, w.limits);
      ProperIsWork(t, agent, w.limits);
    }
  }

  lemma PromptIsReady(text: string)
    ensures Ready([SystemMessage(text)])
  {
    assert [SystemMessage(text)][1..] == [];
  }

  lemma ReadyFits(c: Compactor, before: seq<Message>, u: Message)
    requires Ready(before)
    ensures Fit(c, before, u)
  {
    hide KeepsOnlyNewTurn;
  }

  /** A delegated task as a nested turn with the parent's budget, observer and policy, and fewer tools. */
  method RunDelegation(w: World, agent: Agent, call: ToolCall, number: nat, ghost y: Tally)
    returns (result: string, aborted: bool, ghost t: seq<Action>)
    requires w.Valid() && Delegates(agent) && Numbering(agent.policy.scope, y.own, number) && Unused(y.own.kids)
    modifies w
    ensures w.Valid() && w.trace == old(w.trace) + t && ProperWork(t, agent, w.limits)
    ensures DelegationForm(LawOf(agent, w.limits), agent.path, call, agent.policy.tools, t, result, aborted)
    ensures aborted ==> Caused(Aborted, t, agent.path)
    ensures var z := Tallied(y, t, agent.path);
            && WorkTallied(agent.policy.scope, y, z, number)
            && w.requests - old(w.requests) == z.sends - y.sends
            && w.calls - old(w.calls) == z.charges - y.charges
    ensures w.clock >= old(w.clock) && w.requests >= old(w.requests) && w.calls >= old(w.calls)
    decreases if Delegates(agent) then 1 else 0, 0, 1
  {
    hide *;
    NoWork(agent, w.limits);
    TalliedNone(y, agent.path);
    var requested := RequestedTools(call);
    if requested.None? {
      NotGranted(agent, w.limits, call, y, number);
      return agent.policy.texts.badDelegation, false, [];
    }
    result, aborted, t := RunChild(w, agent, call, requested.value, number, y);
  }

  lemma NotGranted(agent: Agent, limits: Limits, call: ToolCall, y: Tally, number: nat)
    requires RequestedTools(call).None? && Numbering(agent.policy.scope, y.own, number)
    ensures DelegationForm(LawOf(agent, limits), agent.path, call, agent.policy.tools, [],
                           agent.policy.texts.badDelegation, false)
    ensures WorkTallied(agent.policy.scope, y, y, number)
  {
  }

  /** What is told about a finished subagent is true. */
  lemma OutcomeTrue(
    child: Agent, name: string, before: seq<Message>, message: string, full: seq<Message>, history: seq<Message>,
    flow: Flow, cancelled: bool, describe: TurnError -> string, limits: Limits, y: Tally)
    requires Ended(child, before, message, full, history, flow, y) && (flow.Completed? ==> OnTime(limits, y.own))
    ensures var c := Conclude(name, describe, history, flow, cancelled);
            && OutcomeTold(c.outcome, y.own, limits) && c.result == Told(name, c.outcome, c.message, y.own.spoken)
            && (c.outcome == "aborted" <==> flow.Aborted?)
  {
    hide Ended, Conclude, Told, FinalReply, Due;
    EndedSendable(child, before, message, full, history, flow, y);
    ConcludeTold(name, describe, history, flow, cancelled, y.own);
  }

  /** Run the subagent of a granted delegation between the events that announce and report it. */
  method RunChild(w: World, agent: Agent, call: ToolCall, requested: ToolSet, number: nat, ghost y: Tally)
    returns (result: string, aborted: bool, ghost t: seq<Action>)
    requires w.Valid() && Delegates(agent) && Numbering(agent.policy.scope, y.own, number) && Unused(y.own.kids)
    requires RequestedTools(call) == Some(requested)
    modifies w
    ensures w.Valid() && w.trace == old(w.trace) + t && ProperWork(t, agent, w.limits)
    ensures DelegationForm(LawOf(agent, w.limits), agent.path, call, agent.policy.tools, t, result, aborted)
    ensures aborted ==> Caused(Aborted, t, agent.path)
    ensures var z := Tallied(y, t, agent.path);
            && WorkTallied(agent.policy.scope, y, z, number)
            && w.requests - old(w.requests) == z.sends - y.sends
            && w.calls - old(w.calls) == z.charges - y.charges
    ensures w.clock >= old(w.clock) && w.requests >= old(w.requests) && w.calls >= old(w.calls)
    decreases if Delegates(agent) then 1 else 0, 0, 0
  {
    hide Proper, ProperWork, Within, Offers, Tallied, RequestedTools, TaskOf, DelegateScope, Conclude, Ended,
         AgentKept, Played, Truncate, Child, Caused, OutcomeTold, Told, Fit, DelegationForm, FirstActions, Numbered,
         World.Valid, Steady, Ready, OnTime;
    var path, prompt := agent.path, SystemMessage(agent.policy.texts.subagentPrompt);
    ChildFacts(agent, requested, number);
    var child := Child(agent, requested, number);
    var name, message := child.path[|path|], TaskOf(call);
    var started := Emit(path, SubagentStarted(name, message, child.policy.tools));
    w.Log(started);
    ghost var inner, rounds;
    var history, flow;
    history, flow, inner, rounds := RunTurn(w, child, [prompt], message);
    ghost var full := rounds[|rounds| - 1].turn.full;
    ghost var inside := Tallied(FRESH, inner, child.path);
    PromptIsReady(agent.policy.texts.subagentPrompt);
    ReadyFits(child.policy.compactor, [prompt], UserMessage(message));
    EndedSendable(child, [prompt], message, full, history, flow, inside);
    ProperWithin(inner, child, w.limits);
    ActsFirst(child, [prompt] + [UserMessage(message)], w.script, w.limits, old(w.clock), old(w.requests), inner);
    assert w.trace == old(w.trace) + ([started] + inner);
    var report, cancelled, looks, finished := ReportDelegation(w, agent, name, history, flow);
    t := Around(started, inner, looks, finished);
    assert w.trace == old(w.trace) + t;
    OutcomeTrue(child, name, [prompt], message, full, history, flow, cancelled, agent.policy.texts.describe,
                w.limits, inside);
    DelegationProper(agent, child, name, w.limits, started, inner, looks, finished);
    DelegationTallied(y, path, child.path, started, inner, looks, finished);
    ChildTallied(agent.policy.scope, y, Tallied(y, t, path), name, number);
    DelegationEnded(agent, child, name, history, flow, cancelled, started, inner, looks, finished);
    DelegationFormed(agent, child, w.limits, call, requested, name, started, inner, looks, finished, report,
                     flow.Aborted?);
    result, aborted := Truncate(report.result), flow.Aborted?;
    ChildAborted(flow, path, child.path, started, inner, looks, finished);
  }

  lemma ChildTallied(scope: Option<string>, y: Tally, z: Tally, name: string, number: nat)
    requires Numbering(scope, y.own, number) && Unused(y.own.kids) && name == DelegateScope(scope, number)
             && Steady(y, z)
    requires var kids := y.own.kids;
             z.own == y.own.(kids := kids.(numbers := kids.numbers + [kids.delegated],
                                           started := kids.started + [name]))
    ensures WorkTallied(scope, y, z, number)
  {
    hide DelegateScope;
    NumberedNext(scope, y.own.kids);
  }

  lemma ChildAborted(
    flow: Flow, path: seq<string>, childPath: seq<string>, started: Action, inner: seq<Action>, looks: seq<Action>,
    finished: Action)
    requires Caused(flow, inner, childPath) && path <= childPath
    ensures flow.Aborted? ==> Caused(Aborted, Around(started, inner, looks, finished), path)
  {
    if flow.Aborted? {
      var k :| 0 <= k < |inner| && CauseOf(flow, inner[k], childPath);
      assert Around(started, inner, looks, finished)[1 + k] == inner[k];
      CausedBy(Aborted, Around(started, inner, looks, finished), 1 + k, path);
    }
  }

  /** Tell the observer how a subagent ended. */
  method ReportDelegation(w: World, agent: Agent, name: string, history: seq<Message>, flow: Flow)
    returns (report: Delegation, cancelled: bool, ghost looks: seq<Action>, ghost finished: Action)
    requires w.Valid()
    modifies w`clock, w`trace
    ensures w.Valid() && w.trace == old(w.trace) + (looks + [finished])
    ensures looks == if flow.FailedTurn? && !flow.error.Exhausted? then [Look(agent.path, cancelled)] else []
    ensures report == Conclude(name, agent.policy.texts.describe, history, flow, cancelled)
    ensures finished == Emit(agent.path, SubagentFinished(name, report.outcome, report.message))
    ensures w.clock >= old(w.clock)
  {
    hide Conclude, World.Valid;
    cancelled, looks := false, [];
    if flow.FailedTurn? && !flow.error.Exhausted? {
      cancelled := w.WasCancelled(agent.path);
      looks := [Look(agent.path, cancelled)];
    }
    report := Conclude(name, agent.policy.texts.describe, history, flow, cancelled);
    w.Log(Emit(agent.path, SubagentFinished(name, report.outcome, report.message)));
    finished := Emit(agent.path, SubagentFinished(name, report.outcome, report.message));
  }

  // ----- The tool loop -----

  /** Report the result of an evaluated call and see whether the turn goes on. */
  method ConcludeCall(
    w: World, agent: Agent, history: seq<Message>, rollback: seq<Message>, observed: bool, calls: seq<ToolCall>,
    scoped: seq<ToolCall>, result: string, subagentAborted: bool, ghost y: Tally)
    returns (flow: Flow, history': seq<Message>, ghost t: seq<Action>)
    requires w.Valid() && calls != [] && ScopedCopies(calls, scoped) && y.own.dispatched == observed && !y.own.cancelled
    modifies w`clock, w`trace
    ensures w.Valid() && w.trace == old(w.trace) + t && ConcludedBy(agent.path, scoped, result, subagentAborted, t)
    ensures var z := Tallied(y, t, agent.path);
            && Handled(flow, history, history', rollback, observed, calls, Ids(scoped), y, z)
            && z == y.(own := y.own.(closed := z.own.closed, aborts := z.own.aborts, spoken := z.own.spoken,
                                     cancelled := z.own.cancelled))
    ensures if subagentAborted then flow == Aborted
            else flow == if t[1].cancelled then FailedTurn(TurnCancelled) else GoOn
    ensures flow.GoOn? ==> history' == history + [ToolResult(calls[0], result)]
    ensures w.clock >= old(w.clock)
  {
    hide Tallied, Handled, FailedHistory, ResultsFor, World.Valid, Skips, Abandon, ConcludedBy;
    var path, texts := agent.path, agent.policy.texts;
    var told := Emit(path, ToolResulted(scoped[0].id, calls[0].name, result));
    w.Log(told);
    history' := history + [ToolResult(calls[0], result)];
    t := [told];
    TalliedOne(y, told, path);
    ghost var z, more := Tallied(y, t, path), [];
    ghost var ids := Ids(scoped);
    assert ids[0] == scoped[0].id && ids[1..] == Ids(scoped[1..]);
    assert z == y.(own := AfterResult(y.own, ids[0], result));
    if subagentAborted {
      more := EmitAborted(w, path, scoped[1..], z);
      TalliedConcat(y, t, more, path);
      t := t + more;
      AbandonedAs(path, scoped, result, more);
      AbortedAfter(history, rollback, calls, ids, result, texts.aborted, texts.record, y);
      history' := history' + ResultsFor(calls[1..], texts.aborted);
      return Aborted, history', t;
    }
    var cancelled := w.IsCancelled(path);
    TalliedSnoc(y, t, Check(path, cancelled), path);
    t := t + [Check(path, cancelled)];
    assert w.trace == old(w.trace) + t;
    if cancelled {
      more := EmitSkipped(w, path, scoped[1..], Tallied(y, t, path));
      TalliedConcat(y, t, more, path);
      t := t + more;
      CheckedAs(path, scoped, result, true, more);
      CancelledAfter(history, rollback, calls, ids, result, texts.cancelled, texts.record, y);
      history' := history' + ResultsFor(calls[1..], texts.cancelled);
      return FailedTurn(TurnCancelled), FailedHistory(history', rollback, observed, texts.record), t;
    }
    SteadySame(y);
    HandledGoOn(history, rollback, observed, calls, ids, result, y, y);
    CheckedAs(path, scoped, result, false, []);
    assert t + [] == t;
    flow := GoOn;
  }

  /** The agent's tally after a result was reported. */
  function AfterResult(y: Own, id: string, result: string): Own
  {
    y.(closed := y.closed + [id], spoken := y.spoken + [Line(ToolRole, result, 0)])
  }

  lemma AbortedAfter(
    history: seq<Message>, rollback: seq<Message>, calls: seq<ToolCall>, ids: seq<string>, result: string,
    content: string, record: string, y: Tally)
    requires calls != [] && |ids| == |calls|
    ensures var z := AfterResult(y.own, ids[0], result);
            var history' := history + [ToolResult(calls[0], result)] + ResultsFor(calls[1..], content);
            Handled(Aborted, history, history', rollback, y.own.dispatched, calls, ids, y,
                    y.(own := z.(closed := z.closed + ids[1..], aborts := y.own.aborts + 1)))
  {
    hide Settles, Handled, Said, ResultsFor, Lines;
    var z, said := y.(own := AfterResult(y.own, ids[0], result)), [ToolResult(calls[0], result)];
    assert Lines(said) == [Line(ToolRole, result, 0)];
    SettledAfter(history, calls, result, content, record);
    ToldStubs(history, said, calls[1..], content, record, y, z);
    HandledAborted(history, history + said + ResultsFor(calls[1..], content), rollback, y.own.dispatched, calls, ids,
                   y, z);
  }

  lemma CancelledAfter(
    history: seq<Message>, rollback: seq<Message>, calls: seq<ToolCall>, ids: seq<string>, result: string,
    content: string, record: string, y: Tally)
    requires calls != [] && |ids| == |calls|
    ensures var z := AfterResult(y.own, ids[0], result);
            var history' := history + [ToolResult(calls[0], result)] + ResultsFor(calls[1..], content);
            Handled(FailedTurn(TurnCancelled), history, FailedHistory(history', rollback, y.own.dispatched, record),
                    rollback,
                    y.own.dispatched, calls, ids, y, y.(own := z.(closed := z.closed + ids[1..], cancelled := true)))
  {
    hide Settles, Handled, Said, ResultsFor, Lines, FailedHistory;
    var z, said := y.(own := AfterResult(y.own, ids[0], result)), [ToolResult(calls[0], result)];
    var end := z.(own := z.own.(closed := z.own.closed + ids[1..], cancelled := true));
    assert Lines(said) == [Line(ToolRole, result, 0)];
    SettledAfter(history, calls, result, content, record);
    ToldStubs(history, said, calls[1..], content, record, y, end);
    assert y.own.closed + [ids[0]] + ids[1..] == y.own.closed + ids;
    HandledFailed(TurnCancelled, history, history + said + ResultsFor(calls[1..], content), rollback,
                  y.own.dispatched, record,
                  calls, ids, y, z, end);
  }

  lemma AbandonedAs(path: seq<string>, calls: seq<ToolCall>, result: string, more: seq<Action>)
    requires calls != [] && more == Abandon(path, calls[1..])
    ensures ConcludedBy(path, calls, result, true,
                        [Emit(path, ToolResulted(calls[0].id, calls[0].name, result))] + more)
  {
    hide Skips;
    assert ([Emit(path, ToolResulted(calls[0].id, calls[0].name, result))] + more)[1..] == more;
  }

  lemma CheckedAs(path: seq<string>, calls: seq<ToolCall>, result: string, cancelled: bool, more: seq<Action>)
    requires calls != [] && more == if cancelled then Skips(path, calls[1..]) else []
    ensures var t := [Emit(path, ToolResulted(calls[0].id, calls[0].name, result))] + [Check(path, cancelled)] + more;
            ConcludedBy(path, calls, result, false, t) && t[1] == Check(path, cancelled)
  {
    hide Skips;
    var t := [Emit(path, ToolResulted(calls[0].id, calls[0].name, result))] + [Check(path, cancelled)] + more;
    assert t[2..] == more;
  }

  /** Handle the first of `calls`, the `index`-th of its response. */
  method NextCall(
    w: World, agent: Agent, history: seq<Message>, rollback: seq<Message>, observed: bool, delegations: nat,
    calls: seq<ToolCall>, scoped: seq<ToolCall>, index: nat, ghost y: Tally)
    returns (flow: Flow, history': seq<Message>, observed': bool, delegations': nat, ghost t: seq<Action>)
    requires w.Valid() && calls != [] && ScopedCopies(calls, scoped) && y.own.dispatched == observed
    requires Numbering(agent.policy.scope, y.own, delegations) && !y.own.cancelled
    modifies w
    ensures w.Valid() && w.trace == old(w.trace) + t && Proper(t, agent, w.limits)
    ensures t != [] && TurnsToCalls(t, agent.path, scoped[0], index, w.limits.toolCallsPerResponse)
    ensures t[0].cancelled ==> t == [t[0]] && flow == FailedTurn(TurnCancelled)
    ensures !t[0].cancelled && index >= w.limits.toolCallsPerResponse ==>
              flow == GoOn && t == [t[0]] + Refusal(agent.path, scoped[0], agent.policy.texts.overLimit)
    ensures var z := Tallied(y, t, agent.path);
            && Handled(flow, history, history', rollback, observed', calls, Ids(scoped), y, z)
            && ChargedBy(flow, Ids(scoped), index, w.limits.toolCallsPerResponse, y.own, z.own)
            && Numbering(agent.policy.scope, z.own, delegations')
            && w.requests - old(w.requests) == z.sends - y.sends
            && w.calls - old(w.calls) == z.charges - y.charges
    ensures flow.Aborted? ==> t[|t| - 1] == Emit(agent.path, TurnAborted)
    ensures Caused(flow, t, agent.path)
    ensures w.clock >= old(w.clock) && w.requests >= old(w.requests) && w.calls >= old(w.calls)
    ensures !Delegates(agent) ==> w.requests == old(w.requests) && w.calls <= old(w.calls) + 1
    ensures flow.GoOn? && index < w.limits.toolCallsPerResponse && RunsFirst(agent, w.limits, w.script, calls[0]) ==>
              observed'
    ensures observed ==> observed'
    decreases if Delegates(agent) then 1 else 0, 6
  {
    hide Proper, Tallied, Settles, Handled, FailedHistory, ResultsFor, Numbered, Said, RunsFirst, Lines, Caused,
         Steady, World.Valid, Quiet;
    var path, texts := agent.path, agent.policy.texts;
    observed', delegations' := observed, delegations;
    var cancelled := w.IsCancelled(path);
    t := [Check(path, cancelled)];
    QuietOne(t[0], path);
    ghost var ids, z := Ids(scoped), Tallied(y, t, path);
    CheckTallied(y, cancelled, agent, delegations);
    if cancelled {
      ProperQuiet(t, agent, w.limits);
      CausedBy(FailedTurn(TurnCancelled), t, 0, path);
      StoppedBy(history, calls, texts.cancelled, texts.record, y, z);
      history' := history + ResultsFor(calls, texts.cancelled);
      HandledFailed(TurnCancelled, history, history', rollback, observed, texts.record, calls, ids, y, z, z);
      return FailedTurn(TurnCancelled), FailedHistory(history', rollback, observed, texts.record), observed,
             delegations, t;
    }
    ghost var more;
    if index >= w.limits.toolCallsPerResponse {
      history', more := RefuseCall(w, path, history, calls[0], scoped[0], texts.overLimit, y);
      TalliedConcat(y, t, more, path);
      RefusalQuiet(path, scoped[0], texts.overLimit);
      QuietConcat(t, more, path);
      t := t + more;
      ProperQuiet(t, agent, w.limits);
      NothingCaused(t, path);
      assert w.trace == old(w.trace) + t;
      HandledGoOn(history, rollback, observed, calls, ids, texts.overLimit, y, y);
      return GoOn, history', observed, delegations, t;
    }
    flow, history', observed', delegations', more :=
      EvaluatedCall(w, agent, history, rollback, observed, delegations, calls, scoped, index, y);
    CausedConcat(flow, t, more, path);
    TalliedConcat(y, t, more, path);
    t := t + more;
    assert w.trace == old(w.trace) + t;
  }

  lemma CheckTallied(y: Tally, cancelled: bool, agent: Agent, delegations: nat)
    requires !y.own.cancelled && Numbering(agent.policy.scope, y.own, delegations)
    ensures var z := Tallied(y, [Check(agent.path, cancelled)], agent.path);
            && z == y.(own := y.own.(cancelled := cancelled))
               && Steady(y, z.(own := z.own.(cancelled := y.own.cancelled)))
            && Numbering(agent.policy.scope, z.own, delegations) && Steady(y, y) && (!cancelled ==> z == y)
  {
    hide Tallied;
    TalliedOne(y, Check(agent.path, cancelled), agent.path);
  }

  /** Stubs for all calls settle them; nothing is said about them. */
  lemma StoppedBy(history: seq<Message>, calls: seq<ToolCall>, content: string, record: string, y: Tally, z: Tally)
    requires calls != [] && z.own.spoken == y.own.spoken
    ensures var stopped := history + ResultsFor(calls, content);
            && Settles(history, stopped, calls) && Said(history, stopped, y, z)
            && Settles(history, stopped + [SystemMessage(record)], calls)
            && Said(history, stopped + [SystemMessage(record)], y, z)
  {
    hide Settles, Said, ResultsFor;
    SettledBy(history, calls, content, record);
    ToldStubs(history, [], calls, content, record, y, z);
    assert history + [] == history && y.own.spoken + Lines([]) == y.own.spoken;
  }

  /** A call within the per-response limit, from its charge to its answer. */
  method EvaluatedCall(
    w: World, agent: Agent, history: seq<Message>, rollback: seq<Message>, observed: bool, delegations: nat,
    calls: seq<ToolCall>, scoped: seq<ToolCall>, index: nat, ghost y: Tally)
    returns (flow: Flow, history': seq<Message>, observed': bool, delegations': nat, ghost t: seq<Action>)
    requires w.Valid() && calls != [] && ScopedCopies(calls, scoped) && y.own.dispatched == observed
    requires Numbering(agent.policy.scope, y.own, delegations) && !y.own.cancelled
    requires index < w.limits.toolCallsPerResponse
    modifies w
    ensures w.Valid() && w.trace == old(w.trace) + t && Proper([Check(agent.path, false)] + t, agent, w.limits)
    ensures t != [] && t[0].path == agent.path
            && (t[0].Exhaust? || (t[0].Charge? && t[0].call == scoped[0] && t[0].index == index))
    ensures var z := Tallied(y, t, agent.path);
            && Handled(flow, history, history', rollback, observed', calls, Ids(scoped), y, z)
            && ChargedBy(flow, Ids(scoped), index, w.limits.toolCallsPerResponse, y.own, z.own)
            && Numbering(agent.policy.scope, z.own, delegations')
            && w.requests - old(w.requests) == z.sends - y.sends
            && w.calls - old(w.calls) == z.charges - y.charges
    ensures flow.Aborted? ==> t != [] && t[|t| - 1] == Emit(agent.path, TurnAborted)
    ensures Caused(flow, t, agent.path)
    ensures w.clock >= old(w.clock) && w.requests >= old(w.requests) && w.calls >= old(w.calls)
    ensures !Delegates(agent) ==> w.requests == old(w.requests) && w.calls <= old(w.calls) + 1
    ensures flow.GoOn? && RunsFirst(agent, w.limits, w.script, calls[0]) ==> observed'
    ensures observed ==> observed'
    decreases if Delegates(agent) then 1 else 0, 5
  {
    hide Proper, ProperWork, Tallied, Handled, Smooth, WouldRun, Caused, World.Valid, CallForm, ResolvedBy, Steady,
         Numbered, AbortAsked, LawOf;
    var step;
    ghost var a, e;
    step, observed', delegations', a, e := HandleCall(w, agent, calls[0], scoped[0], index, observed, delegations, y);
    ghost var z, b := Tallied(y, a, agent.path), [];
    CallLimits(LawOf(agent, w.limits), agent.path, agent.policy.tools, scoped[0], index, step, a, e);
    flow, history', b := ResolveStep(w, agent, step, history, rollback, observed', calls, scoped, y, z);
    ResolveCaused(step, flow, agent.path, a, b);
    AbortedAsked(e.work, agent.path, e.aborted);
    CallProper(agent, w.limits, scoped, index, step, e, a, b);
    TalliedConcat(y, a, b, agent.path);
    t := a + b;
    assert [Check(agent.path, false)] + t == WholeCall(agent.path, a, b);
    assert w.trace == old(w.trace) + t;
  }

  lemma CallLimits(
    law: Law, path: seq<string>, tools: ToolSet, call: ToolCall, index: nat, step: CallStep, t: seq<Action>, e: Course)
    requires CallForm(law, path, tools, call, index, step, t, e)
    ensures step.OutOfBudget? ==> step.limit != ProviderRequests
    ensures t != [] && t[0].path == path
            && (t[0].Exhaust? || (t[0].Charge? && t[0].call == call && t[0].index == index))
  {
    hide Decided, StepForm, PreparedFor, Get;
  }

  lemma AbortedAsked(work: seq<Action>, path: seq<string>, aborted: bool)
    requires aborted ==> Caused(Aborted, work, path)
    ensures aborted ==> exists j :: 0 <= j < |work| && AbortAsked(work[j], path)
  {
  }

  lemma ResolveCaused(step: CallStep, flow: Flow, path: seq<string>, a: seq<Action>, b: seq<Action>)
    requires Caused(FlowOf(step), a, path) && (flow == FlowOf(step) || Caused(flow, b, path))
    ensures Caused(flow, a + b, path)
  {
    hide Caused;
    CausedConcat(flow, a, b, path);
  }

  /** What a call's outcome does to the transcript, and what is reported about it. */
  method ResolveStep(
    w: World, agent: Agent, step: CallStep, history: seq<Message>, rollback: seq<Message>, observed: bool,
    calls: seq<ToolCall>, scoped: seq<ToolCall>, ghost y: Tally, ghost z: Tally)
    returns (flow: Flow, history': seq<Message>, ghost t: seq<Action>)
    requires w.Valid() && calls != [] && ScopedCopies(calls, scoped) && !y.own.cancelled
    requires Steady(y, z.(own := z.own.(cancelled := y.own.cancelled)))
    requires z.own.dispatched == observed && (y.own.dispatched ==> observed)
             && ClosedBy(step, scoped[0].id, y.own, z.own)
    requires step.OutOfBudget? ==> step.limit != ProviderRequests
    modifies w`clock, w`trace
    ensures w.Valid() && w.trace == old(w.trace) + t && ResolvedBy(agent.path, agent.policy.texts, scoped, step, t)
    ensures var end := Tallied(z, t, agent.path);
            && Handled(flow, history, history', rollback, observed, calls, Ids(scoped), y, end)
            && end.sends == z.sends && end.charges == z.charges && end.own.kids == z.own.kids
            && end.own.charged == z.own.charged
    ensures step.OutOfBudget? ==> !flow.GoOn?
    ensures flow == FlowOf(step) || (step.Answered? && Caused(flow, t, agent.path))
    ensures flow.Aborted? ==> t != [] && t[|t| - 1] == Emit(agent.path, TurnAborted)
    ensures w.clock >= old(w.clock)
  {
    hide Tallied, Settles, Handled, FailedHistory, ResultsFor, Answers, Steady, Said, Lines, Caused, World.Valid,
         Refusals, Refusal, ConcludedBy, Skips;
    var path, texts := agent.path, agent.policy.texts;
    ghost var ids := Ids(scoped);
    t := [];
    TalliedNone(z, path);
    assert ids[0] == scoped[0].id && ids[1..] == Ids(scoped[1..]);
    NotCancelled(y, z);
    match step
    case OutOfBudget(limit) =>
      history', t := RefuseAll(w, path, history, calls, scoped, texts.exhausted, z);
      RefusedBy(history, calls, texts.exhausted, texts.record, y, Tallied(z, t, path));
      HandledFailed(Exhausted(limit), history, history', rollback, observed, texts.record, calls, ids, y, z,
                    Tallied(z, t, path));
      flow, history' := FailedTurn(Exhausted(limit)), FailedHistory(history', rollback, observed, texts.record);
    case Unavailable =>
      history', t := RefuseCall(w, path, history, calls[0], scoped[0], texts.unavailable, z);
      HandledGoOn(history, rollback, observed, calls, ids, texts.unavailable, y, z);
      flow := GoOn;
    case CancelledBefore =>
      StoppedBy(history, calls, texts.notRun, texts.record, y, z);
      assert y.own.closed + [ids[0]] <= y.own.closed + ids;
      history' := history + ResultsFor(calls, texts.notRun);
      HandledFailed(TurnCancelled, history, history', rollback, observed, texts.record, calls, ids, y, z, z);
      flow, history' := FailedTurn(TurnCancelled), FailedHistory(history', rollback, observed, texts.record);
    case UserAborted =>
      StoppedBy(history, calls, texts.aborted, texts.record, y, z);
      history' := history + ResultsFor(calls, texts.aborted);
      t := EmitAborted(w, path, scoped[1..], z);
      HandledAborted(history, history', rollback, observed, calls, ids, y, z);
      flow := Aborted;
    case Answered(result, subagentAborted) =>
      flow, history', t := ConcludeCall(w, agent, history, rollback, observed, calls, scoped, result,
                                        subagentAborted, z);
      ConcludedCaused(path, scoped, result, subagentAborted, t, flow);
      HandledThrough(flow, history, history', rollback, observed, calls, ids, y, z, Tallied(z, t, path));
  }

  lemma NotCancelled(y: Tally, z: Tally)
    requires Steady(y, z.(own := z.own.(cancelled := y.own.cancelled)))
    ensures z.own.cancelled == y.own.cancelled ==> Steady(y, z)
  {
  }

  lemma ConcludedCaused(
    path: seq<string>, calls: seq<ToolCall>, result: string, aborted: bool, t: seq<Action>, flow: Flow)
    requires calls != [] && ConcludedBy(path, calls, result, aborted, t)
    requires !aborted ==> flow == if t[1].cancelled then FailedTurn(TurnCancelled) else GoOn
    ensures !aborted ==> Caused(flow, t, path)
    ensures aborted ==> t != [] && t[|t| - 1] == Emit(path, TurnAborted)
  {
    if aborted {
      assert t[|t| - 1] == t[1..][|t| - 2];
    } else if t[1].cancelled {
      CausedBy(flow, t, 1, path);
    }
  }

  lemma RefusedBy(history: seq<Message>, calls: seq<ToolCall>, content: string, record: string, y: Tally, z: Tally)
    requires calls != [] && z.own.spoken == y.own.spoken + Lines(ResultsFor(calls, content))
    ensures var refused := history + ResultsFor(calls, content) + [SystemMessage(record)];
            Settles(history, refused, calls) && Said(history, refused, y, z)
  {
    hide Settles, Said, ResultsFor;
    SettledBy(history, calls, content, record);
    StubsSilent(calls, content);
    ToldStubs(history, ResultsFor(calls, content), [], content, record, y, z);
    ReadResults([], content);
    assert history + ResultsFor(calls, content) + [] == history + ResultsFor(calls, content);
  }

  /** The tool loop over one response. */
  method RunTools(
    w: World, agent: Agent, history: seq<Message>, rollback: seq<Message>, observed: bool, delegations: nat,
    calls: seq<ToolCall>, scoped: seq<ToolCall>, ghost y: Tally)
    returns (flow: Flow, history': seq<Message>, observed': bool, delegations': nat, ghost t: seq<Action>)
    requires w.Valid() && calls != [] && ScopedCopies(calls, scoped) && y.own.dispatched == observed
    requires Numbering(agent.policy.scope, y.own, delegations) && !y.own.cancelled
    modifies w
    ensures w.Valid() && w.trace == old(w.trace) + t && Proper(t, agent, w.limits)
    ensures t != [] && TurnsToCalls(t, agent.path, scoped[0], 0, w.limits.toolCallsPerResponse)
    ensures var z := Tallied(y, t, agent.path);
            && AllHandled(flow, history, history', rollback, observed', calls, Ids(scoped), y, z)
            && AllCharged(flow, Ids(scoped), w.limits.toolCallsPerResponse, y.own, z.own)
            && Numbering(agent.policy.scope, z.own, delegations')
            && w.requests - old(w.requests) == z.sends - y.sends
            && w.calls - old(w.calls) == z.charges - y.charges
    ensures flow.Aborted? ==> t[|t| - 1] == Emit(agent.path, TurnAborted)
    ensures Caused(flow, t, agent.path)
    ensures w.clock >= old(w.clock) && w.requests >= old(w.requests) && w.calls >= old(w.calls)
    ensures !Delegates(agent) ==> w.requests == old(w.requests) && w.calls <= old(w.calls) + |calls|
    ensures observed ==> observed'
    ensures flow.GoOn? && RunsFirst(agent, w.limits, w.script, calls[0]) ==> observed'
    decreases if Delegates(agent) then 1 else 0, 7
  {
    hide *;
    ScopedTail(calls, scoped, 0);
    history', observed', delegations', t := history, observed, delegations, [];
    ProperNone(agent, w.limits);
    TalliedNone(y, agent.path);
    NoneHandled(history, observed, calls, Ids(scoped), y, agent.path);
    ghost var per, ids := w.limits.toolCallsPerResponse, Ids(scoped);
    assert y.own.charged + ids[..Min(0, per)] == y.own.charged;
    for i := 0 to |calls|
      invariant w.Valid() && w.trace == old(w.trace) + t && Proper(t, agent, w.limits)
      invariant PartlyHandled(history, history', observed', calls, ids, i, y, Tallied(y, t, agent.path))
      invariant var z := Tallied(y, t, agent.path).own;
                z.dispatched == observed' && !z.cancelled && z.charged == y.own.charged + ids[..Min(i, per)]
      invariant Numbering(agent.policy.scope, Tallied(y, t, agent.path).own, delegations')
      invariant w.requests - old(w.requests) == Tallied(y, t, agent.path).sends - y.sends
      invariant w.calls - old(w.calls) == Tallied(y, t, agent.path).charges - y.charges
      invariant w.clock >= old(w.clock) && w.requests >= old(w.requests) && w.calls >= old(w.calls)
      invariant !Delegates(agent) ==> w.requests == old(w.requests) && w.calls <= old(w.calls) + i
      invariant (observed ==> observed') && (i > 0 && RunsFirst(agent, w.limits, w.script, calls[0]) ==> observed')
      invariant if i == 0 then t == [] else t != [] && TurnsToCalls(t, agent.path, scoped[0], 0, per)
    {
      ghost var z, middle, seen, more := Tallied(y, t, agent.path), history', observed', [];
      ScopedTail(calls, scoped, i);
      FirstWithin(agent, w.limits, w.script, calls[0]);
      flow, history', observed', delegations', more :=
        NextCall(w, agent, history', rollback, observed', delegations', calls[i..], scoped[i..], i, z);
      TalliedConcat(y, t, more, agent.path);
      ProperConcat(t, more, agent, w.limits);
      CausedConcat(flow, t, more, agent.path);
      StillTurns(t, more, agent.path, scoped[0], per);
      EndsWith(flow, agent.path, t, more);
      TraceExtends(old(w.trace), t, more);
      t := t + more;
      ghost var end := Tallied(y, t, agent.path);
      OneMoreCharged(ids, i, per, flow, y.own, z.own, end.own);
      if flow.GoOn? {
        OneMoreHandled(history, middle, history', rollback, seen, observed', calls, ids, i, y, z, end);
        StillClear(middle, history', rollback, observed', calls[i..], ids[i..], z, end);
      } else {
        RestHandled(flow, history, middle, history', rollback, seen, observed', calls, ids, i, y, z, end);
        return;
      }
    }
    flow := GoOn;
    NothingCaused(t, agent.path);
    AllDone(history, history', rollback, observed', calls, ids, y, Tallied(y, t, agent.path));
    AllChargedDone(ids, per, y.own, Tallied(y, t, agent.path).own);
  }

  lemma TraceExtends(before: seq<Action>, t: seq<Action>, more: seq<Action>)
    ensures before + t + more == before + (t + more)
  {
  }

  lemma FirstWithin(agent: Agent, limits: Limits, script: Script, call: ToolCall)
    ensures RunsFirst(agent, limits, script, call) ==> 0 < limits.toolCallsPerResponse
  {
  }

  lemma ScopedTail(calls: seq<ToolCall>, scoped: seq<ToolCall>, i: nat)
    requires ScopedCopies(calls, scoped) && i <= |calls|
    ensures |calls| == |scoped| && ScopedCopies(calls[i..], scoped[i..]) && Ids(scoped[i..]) == Ids(scoped)[i..]
    ensures i == 0 && calls != [] ==> calls[i..][0] == calls[0] && scoped[i..][0] == scoped[0]
  {
  }

  lemma StillTurns(t: seq<Action>, more: seq<Action>, path: seq<string>, call: ToolCall, perResponse: nat)
    requires more != []
    ensures TurnsToCalls(t, path, call, 0, perResponse) ==> TurnsToCalls(t + more, path, call, 0, perResponse)
    ensures t == [] ==> t + more == more
  {
  }

  lemma StillClear(
    history: seq<Message>, history': seq<Message>, rollback: seq<Message>, observed': bool, calls: seq<ToolCall>,
    ids: seq<string>, y: Tally, z: Tally)
    requires calls != [] && |ids| == |calls| && Handled(GoOn, history, history', rollback, observed', calls, ids, y, z)
    ensures z.own.cancelled == y.own.cancelled
  {
  }

  lemma AllChargedDone(ids: seq<string>, per: nat, y: Own, z: Own)
    requires z.charged == y.charged + ids[..Min(|ids|, per)]
    ensures AllCharged(GoOn, ids, per, y, z)
  {
  }

  // ----- The turn -----

  method EmitPartial(w: World, path: seq<string>, streamed: string, ghost y: Tally) returns (ghost t: seq<Action>)
    requires w.Valid()
    modifies w`trace
    ensures w.Valid() && w.trace == old(w.trace) + t && Quiet(t, path) && Tallied(y, t, path) == y
    ensures t == if streamed == [] then [] else [Emit(path, AgentResponse(streamed, 0, true))]
  {
    hide World.Valid;
    t := [];
    if streamed != [] {
      w.Log(Emit(path, AgentResponse(streamed, 0, true)));
      t := [Emit(path, AgentResponse(streamed, 0, true))];
      TalliedOne(y, t[0], path);
    }
  }

  /** The event of a compaction, if there was one. */
  function CompactionEvents(path: seq<string>, compacted: Option<Compacted>): seq<Action>
  {
    if compacted.None? then [] else [Emit(path, HistoryCompacted(compacted.value.report))]
  }

  method EmitCompaction(w: World, path: seq<string>, compacted: Option<Compacted>, ghost y: Tally)
    returns (ghost t: seq<Action>)
    requires w.Valid()
    modifies w`trace
    ensures w.Valid() && w.trace == old(w.trace) + t && Quiet(t, path) && Tallied(y, t, path) == y
    ensures t == CompactionEvents(path, compacted)
  {
    hide World.Valid;
    t := [];
    if compacted.Some? {
      w.Log(Emit(path, HistoryCompacted(compacted.value.report)));
      t := [Emit(path, HistoryCompacted(compacted.value.report))];
      TalliedOne(y, t[0], path);
    }
  }

  lemma HeardQuiet(y: Tally, path: seq<string>, outcome: ProviderOutcome)
    requires !outcome.Responded?
    ensures Quiet([Receive(path, outcome)], path)
    ensures Tallied(y, [Receive(path, outcome)], path)
            == if outcome.Interrupted? then y.(own := y.own.(cancelled := true)) else y
  {
    hide Tallied;
    TalliedOne(y, Receive(path, outcome), path);
  }

  /** The provider says the prompt is too long for the first time in this turn. */
  method OnOverflow(w: World, agent: Agent, s: Turn, ghost before: seq<Message>, ghost message: string, ghost y: Tally)
    returns (s': Turn, flow: Flow, ghost t: seq<Action>)
    requires w.Valid() && w.clock > 0 && w.script.provider(w.clock - 1) == Overflowed
    requires Kept(agent, before, message, s, y) && !s.overflowUsed
    modifies w`trace
    ensures w.Valid() && w.trace == old(w.trace) + t && Quiet(t, agent.path) && Tallied(y, t, agent.path) == y
    ensures t != [] && t[0] == Receive(agent.path, Overflowed)
    ensures flow.GoOn? ==> Kept(agent, before, message, s', y)
    ensures !flow.GoOn? ==> Ended(agent, before, message, s'.full, s'.history, flow, y)
    ensures OverflowStep(agent, s, s', flow) && s'.observed == s.observed
  {
    hide Kept, Ended, Tallied, CompactTo, HistoryBytes, World.Valid, Quiet;
    var compactor, texts := agent.policy.compactor, agent.policy.texts;
    w.Hear(agent.path, Overflowed);
    HeardQuiet(y, agent.path, Overflowed);
    var shrunk := compactor.CompactOverflow(s.history);
    ghost var more := EmitCompaction(w, agent.path, shrunk, y);
    t := [Receive(agent.path, Overflowed)] + more;
    QuietConcat([Receive(agent.path, Overflowed)], more, agent.path);
    TalliedConcat(y, [Receive(agent.path, Overflowed)], more, agent.path);
    if shrunk.Some? {
      RetryKept(agent, before, message, s, y);
      var rollback := HistoryAfter(s.rollback, compactor.CompactOverflow(s.rollback));
      return s.(overflowUsed := true, history := shrunk.value.history, rollback := rollback), GoOn, t;
    }
    flow := FailedTurn(ContextOverflow);
    if s.observed {
      var start := NewestUser(s.history);
      DropEnded(agent, before, message, s, y, start, texts.record);
      var dropped := DropPayloads(compactor.markers, s.history, start);
      s' := s.(history := FailedHistory(dropped, s.rollback, s.observed, texts.record),
               full := s.full + [SystemMessage(texts.record)]);
    } else {
      RecordKept(agent, before, message, s, y, texts.overflowRecord);
      s' := s.(history := s.rollback + [SystemMessage(texts.overflowRecord)]);
    }
  }

  /** Whether a response that ends without a call looks unfinished, and which nudge to send. */
  method ContinueReason(w: World, texts: Texts, response: Response) returns (prompt: Option<string>)
    requires w.Valid()
    modifies w`clock
    ensures w.Valid() && prompt == Nudge(texts, w.script, response, old(w.clock))
    ensures w.clock >= old(w.clock)
  {
    hide World.Valid;
    if response.toolCalls != [] || response.cutOff {
      return None;
    }
    if Trim(response.content) == [] {
      return Some(texts.emptyResponse);
    }
    var now := w.Tick();
    return if w.script.announces(now) then Some(texts.announcedStep) else None;
  }

  /** A response without calls: the turn is nudged on, or it is complete. */
  method Finish(
    w: World, agent: Agent, s: Turn, history: seq<Message>, prompt: Option<string>, ghost full: seq<Message>,
    ghost before: seq<Message>, ghost message: string, ghost y: Tally)
    returns (s': Turn, flow: Flow, ghost t: seq<Action>)
    requires w.Valid() && Accepted(agent, before, message, s, full, history, [], [], y)
    requires s.autoContinues <= w.limits.autoContinues && y.own.nudges == s.autoContinues
    modifies w`trace
    ensures w.Valid() && w.trace == old(w.trace) + t && Quiet(t, agent.path)
    ensures var z := Tallied(y, t, agent.path);
            && z == y.(own := y.own.(nudges := z.own.nudges, awaiting := z.own.awaiting, spoken := z.own.spoken))
            && z.own.nudges <= w.limits.autoContinues
            && (OnTime(w.limits, y.own) ==> OnTime(w.limits, z.own))
            && (flow.GoOn? ==> Kept(agent, before, message, s', z))
            && (!flow.GoOn? ==> Ended(agent, before, message, s'.full, s'.history, flow, z))
    ensures SameSnapshot(s, s') && FinishStep(agent, w.limits, s, history, prompt, s', flow)
  {
    hide Tallied, CompactTo, HistoryBytes, Accepted, Kept, Ended, World.Valid, Due;
    var path := agent.path;
    if prompt.Some? && s.autoContinues < w.limits.autoContinues {
      var nudge := Emit(path, AutoContinued(prompt.value));
      w.Log(nudge);
      t := [nudge];
      QuietOne(nudge, path);
      TalliedOne(y, nudge, path);
      NudgeKept(agent, before, message, s, full, history, y, prompt.value);
      DueSame(y.own.spoken, [Line(User, prompt.value, 0)], y.own.asked.requested, w.limits.toolCallsPerResponse);
      s' := s.(history := history + [UserMessage(prompt.value)], full := full + [UserMessage(prompt.value)],
               autoContinues := s.autoContinues + 1);
      flow := GoOn;
    } else {
      var compacted := agent.policy.compactor.Compact(history);
      t := EmitCompaction(w, path, compacted, y);
      CompleteEnded(agent, before, message, s, full, history, y);
      s' := s.(history := HistoryAfter(history, compacted), full := full);
      flow := Completed;
    }
  }

  /** The ids an agent issued are those of its tally. */
  ghost predicate Tracks(ids: CallIds, y: Own)
    reads ids
  {
    && ids.Valid() && y.asked.requested == ids.Issued() && Ids(y.asked.received) == ids.originals
    && ScopedCopies(y.asked.received, y.asked.announced) && Ids(y.asked.announced) == y.asked.requested
    && Distinct(y.asked.requested)
  }

  /** What a pass of the loop leaves of the calls charged. */
  predicate Charges(limits: Limits, flow: Flow, y: Own)
  {
    if flow.GoOn? || flow.Completed? then OnTime(limits, y) else InTime(limits, y)
  }

  /** The provider accepted the request: commit its compaction and act on the response. */
  method OnResponse(
    w: World, agent: Agent, ids: CallIds, s: Turn, staged: Option<Compacted>, response: Response,
    ghost before: seq<Message>, ghost message: string, ghost y: Tally)
    returns (s': Turn, flow: Flow, ghost t: seq<Action>)
    requires w.Valid() && w.clock > 0 && w.script.provider(w.clock - 1) == Responded(response)
    requires Tracks(ids, y.own) && Kept(agent, before, message, s, y) && OnTime(w.limits, y.own)
    requires staged == agent.policy.compactor.Stage(s.history) && s.autoContinues <= w.limits.autoContinues
    modifies w, ids
    ensures w.Valid() && w.trace == old(w.trace) + t && Proper(t, agent, w.limits)
    ensures t != [] && t[0] == Receive(agent.path, Responded(response))
    ensures var z := Tallied(y, t, agent.path);
            && w.requests - old(w.requests) == z.sends - y.sends
            && w.calls - old(w.calls) == z.charges - y.charges
            && Tracks(ids, z.own) && z.own.nudges <= w.limits.autoContinues && Charges(w.limits, flow, z.own)
            && (flow.GoOn? ==> Kept(agent, before, message, s', z))
            && (!flow.GoOn? ==> Ended(agent, before, message, s'.full, s'.history, flow, z))
            && z.own.dispatched == s'.observed
    ensures flow.Aborted? ==> t[|t| - 1] == Emit(agent.path, TurnAborted)
    ensures ResponseStep(agent, w.limits, w.script, s, response, old(w.clock), s', flow)
    ensures s.observed ==> s'.observed
    ensures Caused(flow, t, agent.path)
    ensures w.clock >= old(w.clock) && w.requests >= old(w.requests) && w.calls >= old(w.calls)
    ensures !Delegates(agent) ==> w.requests == old(w.requests) && w.calls <= old(w.calls) + |response.toolCalls|
    decreases if Delegates(agent) then 1 else 0, 9
  {
    hide Proper, Quiet, Tallied, Kept, Ended, Accepted, Distinct, Numbered, AssistantMessage, ScopedCopies, Trim,
         CallsStep, FinishStep, CompactTo, HistoryBytes, Caused, Nudge, World.Valid, CallIds.Valid, Tracks, Due,
         AnnouncedAs, Charges;
    var scoped, history;
    history, scoped, t := Announce(w, agent, ids, s, staged, response, y);
    ghost var accepted, more := Tallied(y, t, agent.path), [];
    ghost var full := s.full + [AssistantMessage(response.content, response.toolCalls, response.reasoning)];
    AcceptKept(agent, before, message, s, response, scoped, y);
    KeptCounts(agent, before, message, s, y);
    ScopedLength(response.toolCalls, scoped);
    ResponseDue(w.limits, y, response, scoped);
    var prompt := ContinueReason(w, agent.policy.texts, response);
    s', flow, more := Act(w, agent, s, history, response.toolCalls, scoped, prompt, full, before, message, accepted);
    ResponseCaused(flow, agent.path, response, staged, scoped, t, more);
    ResponseProper(agent, w.limits, response, staged, scoped, t, more);
    TalliedConcat(y, t, more, agent.path);
    SameAsked(ids, accepted.own, Tallied(y, t + more, agent.path).own);
    HeardFirst(agent.path, response, staged, scoped, t, more);
    t := t + more;
    assert w.trace == old(w.trace) + t;
  }

  lemma ScopedLength(calls: seq<ToolCall>, scoped: seq<ToolCall>)
    requires ScopedCopies(calls, scoped)
    ensures |calls| == |scoped|
  {
  }

  lemma SameAsked(ids: CallIds, y: Own, z: Own)
    requires Tracks(ids, y) && z.asked == y.asked
    ensures Tracks(ids, z)
  {
  }

  /** How a response is announced. */
  predicate AnnouncedAs(
    path: seq<string>, response: Response, staged: Option<Compacted>, scoped: seq<ToolCall>, t: seq<Action>)
  {
    && ScopedCopies(response.toolCalls, scoped)
    && t == [Receive(path, Responded(response))] + CompactionEvents(path, staged)
            + [Emit(path, AgentResponse(response.content, |response.toolCalls|, false))] + Announcements(path, scoped)
  }

  lemma HeardFirst(
    path: seq<string>, response: Response, staged: Option<Compacted>, scoped: seq<ToolCall>, t: seq<Action>,
    more: seq<Action>)
    requires AnnouncedAs(path, response, staged, scoped, t)
    ensures t + more != [] && (t + more)[0] == Receive(path, Responded(response))
  {
  }

  /** An announced response and what follows it are in order. */
  lemma ResponseProper(
    agent: Agent, limits: Limits, response: Response, staged: Option<Compacted>, scoped: seq<ToolCall>,
    t: seq<Action>, more: seq<Action>)
    requires AnnouncedAs(agent.path, response, staged, scoped, t) && |scoped| == |response.toolCalls|
    requires Proper(more, agent, limits)
    requires response.toolCalls != [] ==> TurnsToCalls(more, agent.path, scoped[0], 0, limits.toolCallsPerResponse)
    ensures Proper(t + more, agent, limits)
  {
    hide Orderly, Families, Carries, LawAt;
    var path, law, all := agent.path, LawOf(agent, limits), t + more;
    AnnouncedAlone(path, response, staged, scoped, t, agent.policy.tools);
    AroundWork(agent, limits, t, more, []);
    assert t + more + [] == all;
    AnnouncedInOrder(path, response, staged, scoped, t, more, law);
    assert forall k :: 0 <= k < |all| ==> LawAt(all, k, law) by {
      forall k | 0 <= k < |all|
        ensures LawAt(all, k, law)
      {
        if k >= |t| {
          OrderlyAt(more, k - |t|, law);
          LawShift(t, more, [], k - |t|, law);
        } else if k > 0 {
          PlainLaw(all, k, law);
        }
      }
    }
    OrderlyIf(all, law);
  }

  lemma AnnouncedAlone(
    path: seq<string>, response: Response, staged: Option<Compacted>, scoped: seq<ToolCall>, t: seq<Action>,
    tools: ToolSet)
    requires AnnouncedAs(path, response, staged, scoped, t)
    ensures Alone(t, path) && Offers(t, path, tools) && t != [] && forall k :: 1 <= k < |t| ==> !Anchor(t[k])
  {
    var head := [Receive(path, Responded(response))] + CompactionEvents(path, staged)
                + [Emit(path, AgentResponse(response.content, |response.toolCalls|, false))];
    assert forall k :: |head| <= k < |t| ==> t[k] == Announcements(path, scoped)[k - |head|];
  }

  /** Where each announcement stands. */
  lemma AnnouncedParts(
    path: seq<string>, response: Response, staged: Option<Compacted>, scoped: seq<ToolCall>, t: seq<Action>)
    requires AnnouncedAs(path, response, staged, scoped, t) && |scoped| == |response.toolCalls|
    ensures var n, c := |response.toolCalls|, if staged.None? then 0 else 1;
            && |t| == 2 + c + n && t[0] == Receive(path, Responded(response))
            && (c == 1 ==> t[1].Emit? && t[1].path == path && t[1].event.HistoryCompacted?)
            && t[1 + c] == Emit(path, AgentResponse(response.content, n, false))
            && forall i :: 0 <= i < n ==> t[2 + c + i] == Emit(path, ToolRequested(scoped[i]))
  {
    hide ScopedCopies;
    var n, c := |response.toolCalls|, if staged.None? then 0 else 1;
    var head := [Receive(path, Responded(response))] + CompactionEvents(path, staged)
                + [Emit(path, AgentResponse(response.content, n, false))];
    assert |head| == 2 + c && head[1 + c] == Emit(path, AgentResponse(response.content, n, false));
    forall i | 0 <= i < n
      ensures t[2 + c + i] == Emit(path, ToolRequested(scoped[i]))
    {
      assert t[2 + c + i] == Announcements(path, scoped)[i];
    }
  }

  lemma AnnouncedInOrder(
    path: seq<string>, response: Response, staged: Option<Compacted>, scoped: seq<ToolCall>, t: seq<Action>,
    more: seq<Action>, law: Law)
    requires AnnouncedAs(path, response, staged, scoped, t) && |scoped| == |response.toolCalls|
    requires response.toolCalls != [] ==> TurnsToCalls(more, path, scoped[0], 0, law.perResponse)
    ensures LawAt(t + more, 0, law)
  {
    hide TurnsToCalls, AnnouncedAs;
    var n, c, w := |response.toolCalls|, if staged.None? then 0 else 1, t + more;
    AnnouncedParts(path, response, staged, scoped, t);
    AnnouncedCopies(path, response, staged, scoped, t);
    forall i | 0 <= i < n
      ensures Announces(w[2 + c + i], path, response.toolCalls[i])
    {
      assert w[2 + c + i] == t[2 + c + i];
    }
    assert w[|t|..] == more;
    if n > 0 {
      TurnsSome(more, path, scoped[0], law.perResponse);
      assert w[2 + c] == w[2 + c + 0] == t[2 + c + 0];
    }
    assert w[1 + c] == t[1 + c] && (c == 1 ==> w[1] == t[1]);
    assert AnnounceForm(w, path, response, c, law.perResponse);
    ReceiveInOrder(w, c, law);
  }

  lemma ReceiveInOrder(w: seq<Action>, c: nat, law: Law)
    requires w != [] && w[0].Receive? && w[0].outcome.Responded? && c <= 1
    requires AnnounceForm(w, w[0].path, w[0].outcome.response, c, law.perResponse)
    ensures LawAt(w, 0, law)
  {
    hide AnnounceForm;
    assert ReceiveForm(w, law);
    assert w[0..0 + |w|] == w;
    assert LawBy(w, 0, law, 0, w);
  }

  lemma AnnouncedCopies(
    path: seq<string>, response: Response, staged: Option<Compacted>, scoped: seq<ToolCall>, t: seq<Action>)
    requires AnnouncedAs(path, response, staged, scoped, t)
    ensures ScopedCopies(response.toolCalls, scoped)
  {
  }

  lemma TurnsSome(t: seq<Action>, path: seq<string>, call: ToolCall, perResponse: nat)
    requires TurnsToCalls(t, path, call, 0, perResponse)
    ensures t != []
  {
  }

  lemma ResponseCaused(
    flow: Flow, path: seq<string>, response: Response, staged: Option<Compacted>, scoped: seq<ToolCall>,
    t: seq<Action>, more: seq<Action>)
    requires AnnouncedAs(path, response, staged, scoped, t)
    requires if flow.Completed? then response.toolCalls == [] else Caused(flow, more, path)
    ensures Caused(flow, t + more, path)
  {
    if flow.Completed? {
      assert (t + more)[0] == Receive(path, Responded(response));
      CausedBy(flow, t + more, 0, path);
    } else {
      CausedConcat(flow, t, more, path);
    }
  }

  /** Run the calls of an accepted response, or finish when it has none. */
  method Act(
    w: World, agent: Agent, s: Turn, history: seq<Message>, calls: seq<ToolCall>, scoped: seq<ToolCall>,
    prompt: Option<string>, ghost full: seq<Message>, ghost before: seq<Message>, ghost message: string,
    ghost y: Tally)
    returns (s': Turn, flow: Flow, ghost t: seq<Action>)
    requires w.Valid() && ScopedCopies(calls, scoped)
    requires Accepted(agent, before, message, s, full, history, calls, Ids(scoped), y)
    requires var per := w.limits.toolCallsPerResponse;
             Due(y.own.spoken, y.own.asked.requested, per) == y.own.charged + Ids(scoped)[..Min(|scoped|, per)]
    requires s.autoContinues <= w.limits.autoContinues
    modifies w
    ensures w.Valid() && w.trace == old(w.trace) + t && Proper(t, agent, w.limits)
    ensures calls != [] ==> TurnsToCalls(t, agent.path, scoped[0], 0, w.limits.toolCallsPerResponse)
    ensures var z := Tallied(y, t, agent.path);
            && w.requests - old(w.requests) == z.sends - y.sends
            && w.calls - old(w.calls) == z.charges - y.charges
            && z.own.asked == y.own.asked && z.own.nudges <= w.limits.autoContinues && Charges(w.limits, flow, z.own)
            && (flow.GoOn? ==> Kept(agent, before, message, s', z))
            && (!flow.GoOn? ==> Ended(agent, before, message, s'.full, s'.history, flow, z))
            && z.own.dispatched == s'.observed
    ensures flow.Aborted? ==> t != [] && t[|t| - 1] == Emit(agent.path, TurnAborted)
    ensures SameSnapshot(s, s') && (s.observed ==> s'.observed)
    ensures if calls != [] then CallsStep(agent, w.limits, w.script, s, history, calls, s', flow)
            else FinishStep(agent, w.limits, s, history, prompt, s', flow)
    ensures if flow.Completed? then calls == [] else Caused(flow, t, agent.path)
    ensures w.clock >= old(w.clock) && w.requests >= old(w.requests) && w.calls >= old(w.calls)
    ensures !Delegates(agent) ==> w.requests == old(w.requests) && w.calls <= old(w.calls) + |calls|
    decreases if Delegates(agent) then 1 else 0, 8
  {
    hide Proper, Tallied, Kept, Ended, Accepted, AllHandled, AllCharged, Numbered, Caused, RunsFirst, Settles,
         HistoryBytes, CompactTo, World.Valid, Quiet, Due;
    AcceptedCounts(agent, before, message, s, full, history, calls, Ids(scoped), y);
    if calls == [] {
      assert Ids(scoped) == [] && y.own.charged + Ids(scoped)[..0] == y.own.charged;
      s', flow, t := Finish(w, agent, s, history, prompt, full, before, message, y);
      ProperQuiet(t, agent, w.limits);
      NothingCaused(t, agent.path);
    } else {
      var history', observed', delegations';
      flow, history', observed', delegations', t :=
        RunTools(w, agent, history, s.rollback, s.observed, s.delegations, calls, scoped, y);
      ghost var z := Tallied(y, t, agent.path);
      ToolsKept(agent, before, message, s, full, history, calls, Ids(scoped), y, flow, history', observed',
                delegations', z);
      HandledCounts(w.limits, flow, history, history', s.rollback, observed', calls, Ids(scoped), y, z);
      s' := s.(history := history', observed := observed', delegations := delegations',
               full := FullAfter(full, history, history'));
    }
  }

  lemma HandledCounts(
    limits: Limits, flow: Flow, history: seq<Message>, history': seq<Message>, rollback: seq<Message>,
    observed': bool, calls: seq<ToolCall>, ids: seq<string>, y: Tally, z: Tally)
    requires AllHandled(flow, history, history', rollback, observed', calls, ids, y, z) && |ids| == |calls|
    requires AllCharged(flow, ids, limits.toolCallsPerResponse, y.own, z.own)
    requires var per := limits.toolCallsPerResponse;
             Due(y.own.spoken, y.own.asked.requested, per) == y.own.charged + ids[..Min(|ids|, per)]
    ensures z.own.asked == y.own.asked && z.own.nudges == y.own.nudges && ToolFlow(flow)
    ensures z.own.dispatched == observed' && (flow.GoOn? ==> Settles(history, history', calls))
    ensures Charges(limits, flow, z.own)
  {
    hide Settles, Due, Said;
    ToolsCharged(limits, flow, ids, y.own, z.own);
  }

  /** Record the response and what it asks for, under turn-unique ids. */
  method Announce(
    w: World, agent: Agent, ids: CallIds, s: Turn, staged: Option<Compacted>, response: Response, ghost y: Tally)
    returns (history: seq<Message>, scoped: seq<ToolCall>, ghost t: seq<Action>)
    requires w.Valid() && w.clock > 0 && w.script.provider(w.clock - 1) == Responded(response)
    requires Tracks(ids, y.own)
    modifies w`trace, ids
    ensures w.Valid() && w.trace == old(w.trace) + t && AnnouncedAs(agent.path, response, staged, scoped, t)
    ensures ScopedCopies(response.toolCalls, scoped)
    ensures Tallied(y, t, agent.path) == AfterResponse(y, response, scoped)
    ensures Tracks(ids, AfterResponse(y, response, scoped).own)
    ensures history == HistoryAfter(s.history, staged)
                       + [AssistantMessage(response.content, response.toolCalls, response.reasoning)]
  {
    hide Tallied, World.Valid, CompactionEvents, AssistantMessage;
    var path := agent.path;
    w.Hear(path, Responded(response));
    ghost var heard := Receive(path, Responded(response));
    TalliedOne(y, heard, path);
    t := [heard];
    ghost var more := EmitCompaction(w, path, staged, Tallied(y, t, path));
    TalliedConcat(y, t, more, path);
    t := t + more;
    var said := Emit(path, AgentResponse(response.content, |response.toolCalls|, false));
    w.Log(said);
    TalliedSnoc(y, t, said, path);
    t := t + [said];
    assert w.trace == old(w.trace) + t;
    scoped := ids.ScopeAll(response.toolCalls);
    more := EmitRequested(w, path, scoped, Tallied(y, t, path));
    TalliedConcat(y, t, more, path);
    t := t + more;
    assert w.trace == old(w.trace) + t;
    AskedMore(y.own.asked, response.toolCalls, scoped);
    history := HistoryAfter(s.history, staged)
               + [AssistantMessage(response.content, response.toolCalls, response.reasoning)];
  }

  lemma AskedMore(asked: Asked, calls: seq<ToolCall>, scoped: seq<ToolCall>)
    requires ScopedCopies(asked.received, asked.announced) && ScopedCopies(calls, scoped)
    requires Ids(asked.announced) == asked.requested
    ensures ScopedCopies(asked.received + calls, asked.announced + scoped)
    ensures Ids(asked.received + calls) == Ids(asked.received) + Ids(calls)
    ensures Ids(asked.announced + scoped) == asked.requested + Ids(scoped)
  {
    ScopedConcat(asked.received, asked.announced, calls, scoped);
  }

  /** The request sent for a history: compacted if need be, with its records merged. */
  function RequestFor(agent: Agent, history: seq<Message>): Action
  {
    Send(agent.path, Merged(Staged(agent.policy.compactor, history)), agent.policy.tools)
  }

  /** How a round begins: with an exhausted budget, or with a request for the history and its outcome. */
  predicate FirstActions(
    agent: Agent, history: seq<Message>, script: Script, limits: Limits, clock: nat, requests: nat, t: seq<Action>)
  {
    if script.expired(clock) then t == [Exhaust(agent.path, WallTime)]
    else if requests == limits.providerRequests then t == [Exhaust(agent.path, ProviderRequests)]
    else
      && |t| >= 3 && t[0] == Reserve(agent.path) && t[1] == RequestFor(agent, history)
      && t[2] == Receive(agent.path, script.provider(clock + 1))
  }

  lemma ActsFirst(
    agent: Agent, history: seq<Message>, script: Script, limits: Limits, clock: nat, requests: nat, t: seq<Action>)
    requires FirstActions(agent, history, script, limits, clock, requests, t)
    ensures t != [] && (t[0].Reserve? || t[0].Exhaust?)
  {
  }

  lemma RequestIsSend(agent: Agent, history: seq<Message>)
    ensures var send := RequestFor(agent, history);
            && send.Send? && send.path == agent.path && send.tools == agent.policy.tools
            && send == Send(agent.path, Merged(Staged(agent.policy.compactor, history)), agent.policy.tools)
  {
  }

  /** Send the request for a history. */
  method SendRequest(w: World, agent: Agent, history: seq<Message>)
    returns (staged: Option<Compacted>, outcome: ProviderOutcome, streamed: string)
    requires w.Valid()
    modifies w`clock, w`trace
    ensures w.Valid() && staged == agent.policy.compactor.Stage(history)
    ensures w.trace == old(w.trace) + [RequestFor(agent, history)]
    ensures w.clock == old(w.clock) + 1
    ensures outcome == w.script.provider(old(w.clock)) && streamed == w.script.streamed(old(w.clock))
  {
    hide Merged, CompactTo, HistoryBytes, World.Valid;
    staged := agent.policy.compactor.Stage(history);
    var messages, merged := MergeSystemMessages(HistoryAfter(history, staged));
    outcome, streamed := w.Ask(agent.path, messages, agent.policy.tools);
  }

  /** A reserved and sent request and what follows it are in order. */
  lemma RequestProper(agent: Agent, limits: Limits, send: Action, more: seq<Action>)
    requires send.Send? && send.path == agent.path && send.tools == agent.policy.tools
    requires Proper(more, agent, limits) && more != [] && more[0].Receive? && more[0].path == agent.path
    ensures Proper([Reserve(agent.path), send] + more, agent, limits)
  {
    hide Orderly, Families, LawAt;
    var law, pre := LawOf(agent, limits), [Reserve(agent.path), send];
    var all, w := pre + more, pre + [more[0]];
    AroundWork(agent, limits, pre, more, []);
    assert pre + more + [] == all;
    RequestInOrder(all, w, law);
    PlainLaw(all, 1, law);
    forall k | 0 <= k < |all|
      ensures LawAt(all, k, law)
    {
      if k >= 2 {
        OrderlyAt(more, k - 2, law);
        LawShift(pre, more, [], k - 2, law);
      }
    }
    OrderlyIf(all, law);
  }

  lemma RequestInOrder(t: seq<Action>, w: seq<Action>, law: Law)
    requires |w| == 3 && w <= t && w[0].Reserve? && ReserveForm(w, law)
    ensures LawAt(t, 0, law)
  {
    assert t[0..0 + |w|] == w;
    assert LawBy(t, 0, law, 0, w);
  }

  /** One pass of the provider loop. */
  method Round(
    w: World, agent: Agent, ids: CallIds, s: Turn, ghost before: seq<Message>, ghost message: string, ghost y: Tally)
    returns (s': Turn, flow: Flow, ghost t: seq<Action>)
    requires w.Valid() && Tracks(ids, y.own) && Kept(agent, before, message, s, y) && OnTime(w.limits, y.own)
    requires y.own.nudges <= w.limits.autoContinues
    modifies w, ids
    ensures w.Valid() && w.trace == old(w.trace) + t && Proper(t, agent, w.limits)
    ensures var z := Tallied(y, t, agent.path);
            && w.requests - old(w.requests) == z.sends - y.sends
            && w.calls - old(w.calls) == z.charges - y.charges
            && Tracks(ids, z.own) && z.own.nudges <= w.limits.autoContinues && Charges(w.limits, flow, z.own)
            && (flow.GoOn? ==> Kept(agent, before, message, s', z))
            && (!flow.GoOn? ==> Ended(agent, before, message, s'.full, s'.history, flow, z))
            && z.own.dispatched == s'.observed
    ensures flow.Aborted? ==> t != [] && t[|t| - 1] == Emit(agent.path, TurnAborted)
    ensures FirstActions(agent, s.history, w.script, w.limits, old(w.clock), old(w.requests), t)
    ensures t != [] && (flow.GoOn? ==> w.requests > old(w.requests) && |t| >= 3)
    ensures Caused(flow, t, agent.path)
    ensures w.clock >= old(w.clock) && w.requests >= old(w.requests) && w.calls >= old(w.calls)
    ensures RoundStep(agent, w.limits, w.script, Moment(s, old(w.clock), old(w.requests), old(w.calls), old(w.trace)),
                      Moment(s', w.clock, w.requests, w.calls, w.trace), flow)
    decreases if Delegates(agent) then 1 else 0, 11
  {
    hide *;
    var record := agent.policy.texts.record;
    w.Bounded();
    KeptCounts(agent, before, message, s, y);
    var exhausted := w.ChargeRequest(agent.path);
    if exhausted.Some? {
      t := [Exhaust(agent.path, exhausted.value)];
      RefusedProper(agent, w.limits, exhausted.value, y);
      RefusedFirst(agent, s.history, w.script, w.limits, old(w.clock), old(w.requests), exhausted.value);
      FailKept(agent, before, message, s, y, Exhausted(exhausted.value), record);
      StillInTime(w.limits, Exhausted(exhausted.value), y.own);
      s' := s.(history := FailedHistory(s.history, s.rollback, s.observed, record),
               full := s.full + [SystemMessage(record)]);
      flow := FailedTurn(Exhausted(exhausted.value));
      assert w.trace == old(w.trace) + t;
      w.Bounded();
      RefusedRound(agent, w.limits, w.script, s, s', exhausted.value, old(w.clock), w.requests, w.calls,
                   old(w.trace), t);
      return;
    }
    var staged, outcome, streamed := SendRequest(w, agent, s.history);
    ghost var send := RequestFor(agent, s.history);
    t := [Reserve(agent.path), send];
    RequestIsSend(agent, s.history);
    SendKept(agent, before, message, s, y, send);
    assert w.trace == old(w.trace) + t;
    ghost var sent, more := Tallied(y, t, agent.path), [];
    SameAsked(ids, y.own, sent.own);
    s', flow, more := React(w, agent, ids, s, staged, outcome, streamed, before, message, sent);
    RequestProper(agent, w.limits, send, more);
    CausedConcat(flow, t, more, agent.path);
    TalliedConcat(y, t, more, agent.path);
    AnsweredFirst(agent, s.history, w.script, w.limits, old(w.clock), old(w.requests), send, more);
    EndsWith(flow, agent.path, t, more);
    t := t + more;
    assert w.trace == old(w.trace) + t;
    w.Bounded();
    AnsweredRound(agent, w.limits, w.script, Moment(s, old(w.clock), old(w.requests), old(w.calls), old(w.trace)),
                  Moment(s', w.clock, w.requests, w.calls, w.trace), flow, t);
  }

  lemma RefusedFirst(
    agent: Agent, history: seq<Message>, script: Script, limits: Limits, clock: nat, requests: nat, limit: Exhaustion)
    requires script.expired(clock) || requests == limits.providerRequests
    requires limit == if script.expired(clock) then WallTime else ProviderRequests
    ensures FirstActions(agent, history, script, limits, clock, requests, [Exhaust(agent.path, limit)])
  {
  }

  lemma AnsweredFirst(
    agent: Agent, history: seq<Message>, script: Script, limits: Limits, clock: nat, requests: nat, send: Action,
    more: seq<Action>)
    requires !script.expired(clock) && requests != limits.providerRequests && send == RequestFor(agent, history)
    requires more != [] && more[0] == Receive(agent.path, script.provider(clock + 1))
    ensures var t := [Reserve(agent.path), send] + more;
            FirstActions(agent, history, script, limits, clock, requests, t) && |t| >= 3
  {
    hide RequestFor;
  }

  /** What ends a turn is at the end of it. */
  lemma EndsWith(flow: Flow, path: seq<string>, t: seq<Action>, more: seq<Action>)
    requires more != [] && (flow.Aborted? ==> more[|more| - 1] == Emit(path, TurnAborted))
    ensures flow.Aborted? ==> (t + more)[|t + more| - 1] == Emit(path, TurnAborted)
  {
  }

  lemma StillInTime(limits: Limits, error: TurnError, y: Own)
    requires OnTime(limits, y)
    ensures InTime(limits, y) && Charges(limits, FailedTurn(error), y)
  {
  }

  lemma RefusedProper(agent: Agent, limits: Limits, limit: Exhaustion, y: Tally)
    ensures var t := [Exhaust(agent.path, limit)];
            && Proper(t, agent, limits) && Tallied(y, t, agent.path) == y
            && Caused(FailedTurn(Exhausted(limit)), t, agent.path)
  {
    hide Proper, Tallied;
    var t := [Exhaust(agent.path, limit)];
    QuietOne(t[0], agent.path);
    ProperQuiet(t, agent, limits);
    TalliedOne(y, t[0], agent.path);
    CausedBy(FailedTurn(Exhausted(limit)), t, 0, agent.path);
  }

  lemma RefusedRound(
    agent: Agent, limits: Limits, script: Script, s: Turn, s': Turn, limit: Exhaustion, now: nat, requests: nat,
    calls: nat, before: seq<Action>, t: seq<Action>)
    requires limit == if script.expired(now) then WallTime else ProviderRequests
    requires limit == ProviderRequests ==> requests == limits.providerRequests
    requires s'.history == FailedHistory(s.history, s.rollback, s.observed, agent.policy.texts.record)
    requires s'.observed == s.observed && Caused(FailedTurn(Exhausted(limit)), t, agent.path)
    requires calls == Charged(before + t)
    ensures RoundStep(agent, limits, script, Moment(s, now, requests, calls, before),
                      Moment(s', now + 1, requests, calls, before + t), FailedTurn(Exhausted(limit)))
  {
    hide Caused, FailedHistory;
    assert (before + t)[|before|..] == t;
  }

  lemma AnsweredRound(
    agent: Agent, limits: Limits, script: Script, a: Moment, b: Moment, flow: Flow, t: seq<Action>)
    requires !script.expired(a.clock) && a.requests < limits.providerRequests
    requires b.clock >= a.clock + 2 && b.requests >= a.requests + 1 && b.trace == a.trace + t
             && b.calls == Charged(b.trace)
    requires Caused(flow, t, agent.path) && (a.turn.observed ==> b.turn.observed)
    requires OutcomeStep(agent, limits, script, a.turn, script.provider(a.clock + 1), a.clock + 2, b.turn, flow)
    requires var outcome := script.provider(a.clock + 1);
             !Delegates(agent) ==>
               && b.requests == a.requests + 1
               && b.calls <= a.calls + (if outcome.Responded? then |outcome.response.toolCalls| else 0)
    ensures RoundStep(agent, limits, script, a, b, flow)
  {
    hide Caused, OutcomeStep;
    assert b.trace[|a.trace|..] == t;
  }

  /** The error of a request that was not answered and is not retried. */
  function ErrorOf(outcome: ProviderOutcome): TurnError
  {
    match outcome
    case Interrupted => TurnCancelled
    case TimedOut => Exhausted(WallTime)
    case Broken(m) => ProviderError(m)
    case _ => ContextOverflow
  }

  lemma AnsweredStep(
    agent: Agent, limits: Limits, script: Script, s: Turn, outcome: ProviderOutcome, now: nat, s': Turn, flow: Flow)
    requires outcome.Responded? || (outcome.Overflowed? && !s.overflowUsed)
    requires if outcome.Responded? then ResponseStep(agent, limits, script, s, outcome.response, now, s', flow)
             else OverflowStep(agent, s, s', flow)
    ensures OutcomeStep(agent, limits, script, s, outcome, now, s', flow)
  {
    hide ResponseStep, OverflowStep;
  }

  lemma FailedStep(
    agent: Agent, limits: Limits, script: Script, s: Turn, outcome: ProviderOutcome, now: nat, s': Turn,
    t: seq<Action>)
    requires !outcome.Responded? && (outcome.Overflowed? ==> s.overflowUsed)
    requires s'.history == FailedHistory(s.history, s.rollback, s.observed, agent.policy.texts.record)
    requires t != [] && t[0] == Receive(agent.path, outcome)
    ensures OutcomeStep(agent, limits, script, s, outcome, now, s', FailedTurn(ErrorOf(outcome)))
    ensures Caused(FailedTurn(ErrorOf(outcome)), t, agent.path)
    ensures outcome.Interrupted? ==> ErrorOf(outcome) == TurnCancelled
  {
    hide FailedHistory;
    CausedBy(FailedTurn(ErrorOf(outcome)), t, 0, agent.path);
  }

  /** What the provider's outcome leads to. */
  method React(
    w: World, agent: Agent, ids: CallIds, s: Turn, staged: Option<Compacted>, outcome: ProviderOutcome,
    streamed: string, ghost before: seq<Message>, ghost message: string, ghost y: Tally)
    returns (s': Turn, flow: Flow, ghost t: seq<Action>)
    requires w.Valid() && Tracks(ids, y.own) && Kept(agent, before, message, s, y) && OnTime(w.limits, y.own)
    requires y.own.nudges <= w.limits.autoContinues
    requires staged == agent.policy.compactor.Stage(s.history)
    requires w.clock > 0 && outcome == w.script.provider(w.clock - 1)
    modifies w, ids
    ensures w.Valid() && w.trace == old(w.trace) + t && Proper(t, agent, w.limits)
    ensures t != [] && t[0] == Receive(agent.path, outcome)
    ensures var z := Tallied(y, t, agent.path);
            && w.requests - old(w.requests) == z.sends - y.sends
            && w.calls - old(w.calls) == z.charges - y.charges
            && Tracks(ids, z.own) && z.own.nudges <= w.limits.autoContinues && Charges(w.limits, flow, z.own)
            && (flow.GoOn? ==> Kept(agent, before, message, s', z))
            && (!flow.GoOn? ==> Ended(agent, before, message, s'.full, s'.history, flow, z))
            && z.own.dispatched == s'.observed
    ensures flow.Aborted? ==> t[|t| - 1] == Emit(agent.path, TurnAborted)
    ensures OutcomeStep(agent, w.limits, w.script, s, outcome, old(w.clock), s', flow) && (s.observed ==> s'.observed)
    ensures Caused(flow, t, agent.path)
    ensures w.clock >= old(w.clock) && w.requests >= old(w.requests) && w.calls >= old(w.calls)
    ensures !Delegates(agent) ==>
              && w.requests == old(w.requests)
              && w.calls <= old(w.calls) + (if outcome.Responded? then |outcome.response.toolCalls| else 0)
    decreases if Delegates(agent) then 1 else 0, 10
  {
    hide *;
    KeptCounts(agent, before, message, s, y);
    if outcome.Responded? {
      s', flow, t := OnResponse(w, agent, ids, s, staged, outcome.response, before, message, y);
      AnsweredStep(agent, w.limits, w.script, s, outcome, old(w.clock), s', flow);
      return;
    }
    if outcome.Overflowed? && !s.overflowUsed {
      s', flow, t := OnOverflow(w, agent, s, before, message, y);
      OverflowCaused(agent, s, s', flow, t, w.limits, y.own);
      AnsweredStep(agent, w.limits, w.script, s, outcome, old(w.clock), s', flow);
      SameAsked(ids, y.own, y.own);
      ProperQuiet(t, agent, w.limits);
      return;
    }
    w.Hear(agent.path, outcome);
    HeardQuiet(y, agent.path, outcome);
    t := [Receive(agent.path, outcome)];
    ghost var z := Tallied(y, t, agent.path);
    if !outcome.Interrupted? {
      ghost var more := EmitPartial(w, agent.path, streamed, z);
      QuietConcat(t, more, agent.path);
      TalliedConcat(y, t, more, agent.path);
      t := t + more;
    }
    ProperQuiet(t, agent, w.limits);
    var error := ErrorOf(outcome);
    var record := agent.policy.texts.record;
    FailKept(agent, before, message, s, y, error, record);
    StillInTime(w.limits, error, y.own);
    s' := s.(history := FailedHistory(s.history, s.rollback, s.observed, record),
             full := s.full + [SystemMessage(record)]);
    flow := FailedTurn(error);
    FailedStep(agent, w.limits, w.script, s, outcome, old(w.clock), s', t);
    EndedCancelled(agent, before, message, s'.full, s'.history, flow, y, z);
    SameAsked(ids, y.own, z.own);
    StillCharged(w.limits, flow, y.own, z.own);
  }

  lemma StillCharged(limits: Limits, flow: Flow, y: Own, z: Own)
    requires Charges(limits, flow, y) && z == y.(cancelled := z.cancelled)
    ensures Charges(limits, flow, z)
  {
    hide Due;
  }

  lemma OverflowCaused(agent: Agent, s: Turn, s': Turn, flow: Flow, t: seq<Action>, limits: Limits, y: Own)
    requires OverflowStep(agent, s, s', flow) && t != [] && t[0] == Receive(agent.path, Overflowed) && OnTime(limits, y)
    ensures Caused(flow, t, agent.path) && !flow.Aborted? && Charges(limits, flow, y)
  {
    hide CompactTo, HistoryBytes, DropPayloads, Due;
    if !flow.GoOn? { CausedBy(flow, t, 0, agent.path); }
  }

  /** Run one turn. */
  method RunTurn(w: World, agent: Agent, before: seq<Message>, message: string)
    returns (history: seq<Message>, flow: Flow, ghost t: seq<Action>, ghost rounds: seq<Moment>)
    requires w.Valid()
    modifies w
    ensures w.Valid() && w.trace == old(w.trace) + t && Proper(t, agent, w.limits)
    ensures |rounds| >= 2
    ensures var y := Tallied(FRESH, t, agent.path);
            && w.requests - old(w.requests) == y.sends && w.calls - old(w.calls) == y.charges
            && Ended(agent, before, message, rounds[|rounds| - 1].turn.full, history, flow, y)
            && AgentKept(y.own, agent.policy.scope, w.limits)
            && (flow.Completed? ==> OnTime(w.limits, y.own))
            && y.own.dispatched == rounds[|rounds| - 1].turn.observed
    ensures flow.Aborted? ==> t != [] && t[|t| - 1] == Emit(agent.path, TurnAborted)
    ensures t != [] && Caused(flow, t, agent.path)
    ensures FirstActions(agent, before + [UserMessage(message)], w.script, w.limits, old(w.clock), old(w.requests), t)
    ensures w.clock >= old(w.clock) && w.requests >= old(w.requests) && w.calls >= old(w.calls)
    ensures Played(agent, w.limits, w.script, rounds, flow)
    ensures rounds[0] == Moment(FirstTurn(before, message), old(w.clock), old(w.requests), old(w.calls), old(w.trace))
    ensures rounds[|rounds| - 1] == Moment(rounds[|rounds| - 1].turn, w.clock, w.requests, w.calls, w.trace)
    ensures rounds[|rounds| - 1].turn.history == history
    decreases if Delegates(agent) then 1 else 0, 12
  {
    hide *;
    var ids := new CallIds(agent.policy.scope);
    var s := FirstTurn(before, message);
    flow, t, rounds := GoOn, [], [Moment(s, w.clock, w.requests, w.calls, w.trace)];
    ProperNone(agent, w.limits);
    TalliedNone(FRESH, agent.path);
    StartKept(agent, before, message);
    FreshStart(before, message);
    NotPlayed(agent, w.limits, w.script, rounds[0]);
    NothingAsked(ids, w.limits);
    NothingCaused([], agent.path);
    while flow.GoOn?
      invariant w.Valid() && fresh(ids) && ids.scope == agent.policy.scope
      invariant w.trace == old(w.trace) + t && Proper(t, agent, w.limits)
      invariant var y := Tallied(FRESH, t, agent.path);
                && w.requests - old(w.requests) == y.sends && w.calls - old(w.calls) == y.charges
                && Tracks(ids, y.own) && y.own.nudges <= w.limits.autoContinues && Charges(w.limits, flow, y.own)
                && (flow.GoOn? ==> Kept(agent, before, message, s, y))
                && (!flow.GoOn? ==> Ended(agent, before, message, s.full, s.history, flow, y))
                && y.own.dispatched == s.observed
      invariant flow.Aborted? ==> t != [] && t[|t| - 1] == Emit(agent.path, TurnAborted)
      invariant |rounds| == 1 ==> flow.GoOn? && s == FirstTurn(before, message) && t == []
                                  && w.clock == old(w.clock) && w.requests == old(w.requests)
      invariant |rounds| > 1 ==>
                  FirstActions(agent, before + [UserMessage(message)], w.script, w.limits, old(w.clock),
                               old(w.requests), t)
      invariant |rounds| > 1 ==> t != [] && (flow.GoOn? ==> |t| >= 3)
      invariant w.clock >= old(w.clock) && w.requests >= old(w.requests) && w.calls >= old(w.calls)
      invariant Caused(flow, t, agent.path)
      invariant rounds != []
      invariant rounds[0] == Moment(FirstTurn(before, message), old(w.clock), old(w.requests), old(w.calls),
                                    old(w.trace))
      invariant rounds[|rounds| - 1] == Moment(s, w.clock, w.requests, w.calls, w.trace)
      invariant Played(agent, w.limits, w.script, rounds, flow)
      decreases w.limits.providerRequests - w.requests, if flow.GoOn? then 1 else 0
    {
      w.Bounded();
      ghost var more := [];
      ghost var y, now := Tallied(FRESH, t, agent.path), rounds[|rounds| - 1];
      GoingOnTime(w.limits, y.own);
      s, flow, more := Round(w, agent, ids, s, before, message, y);
      w.Bounded();
      ghost var next := Moment(s, w.clock, w.requests, w.calls, w.trace);
      PlayedMore(agent, w.limits, w.script, rounds, next, flow);
      if t == [] {
        assert t + more == more;
      } else {
        BeginsSo(agent, before + [UserMessage(message)], w.script, w.limits, old(w.clock), old(w.requests), t, more);
      }
      CausedConcat(flow, t, more, agent.path);
      rounds := rounds + [next];
      TalliedConcat(FRESH, t, more, agent.path);
      ProperConcat(t, more, agent, w.limits);
      t := t + more;
      assert w.trace == old(w.trace) + t;
    }
    history := s.history;
    ghost var y := Tallied(FRESH, t, agent.path);
    EndedSendable(agent, before, message, s.full, history, flow, y);
    TurnKept(ids, agent.policy.scope, w.limits, flow, y.own);
  }

  lemma FreshStart(before: seq<Message>, message: string)
    ensures FRESH.sends == 0 && FRESH.charges == 0 && FRESH.own.nudges == 0
    ensures FRESH.own.dispatched == FirstTurn(before, message).observed
    ensures FirstTurn(before, message).history == before + [UserMessage(message)]
  {
  }

  lemma GoingOnTime(limits: Limits, y: Own)
    requires Charges(limits, GoOn, y)
    ensures OnTime(limits, y)
  {
  }

  lemma NothingAsked(ids: CallIds, limits: Limits)
    requires ids.Valid() && ids.Issued() == [] && ids.originals == []
    ensures Tracks(ids, FRESH.own) && Charges(limits, GoOn, FRESH.own)
  {
    assert Ids([]) == [];
  }

  /** Later rounds do not change how a turn begins. */
  lemma BeginsSo(
    agent: Agent, history: seq<Message>, script: Script, limits: Limits, clock: nat, requests: nat, t: seq<Action>,
    more: seq<Action>)
    requires |t| >= 3 && FirstActions(agent, history, script, limits, clock, requests, t)
    ensures FirstActions(agent, history, script, limits, clock, requests, t + more)
  {
    hide RequestFor;
  }

  /** What the agent's own tally amounts to. */
  lemma TurnKept(ids: CallIds, scope: Option<string>, limits: Limits, flow: Flow, y: Own)
    requires Tracks(ids, y) && ids.scope == scope && Charges(limits, flow, y)
    requires y.closed <= y.asked.requested && y.aborts <= 1 && Numbered(scope, y.kids)
             && y.nudges <= limits.autoContinues
    ensures AgentKept(y, scope, limits) && (flow.Completed? ==> OnTime(limits, y))
  {
    hide Due, Disambiguated, Numbered, ScopedCopies;
    assert Renamed(scope, ids.originals, ids.Issued());
  }

  lemma NotPlayed(agent: Agent, limits: Limits, script: Script, first: Moment)
    ensures Played(agent, limits, script, [first], GoOn)
  {
  }
}
