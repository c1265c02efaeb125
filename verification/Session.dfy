/** Sequences of turns over one transcript, and what holds of every turn and every agent in them. */
module Sessions {
  import opened Wrappers
  import opened Text
  import opened Transcript
  import opened Merging
  import opened Compaction
  import opened Retention
  import opened Requests
  import opened ApprovalPolicies
  import opened Tools
  import opened CallIdentifiers
  import opened Traces
  import opened Orders
  import opened Worlds
  import opened Agents
  import opened Turns
  import opened Engine

  predicate AllSendable(t: seq<Action>)
  {
    forall k :: 0 <= k < |t| && t[k].Send? ==> Sendable(t[k].messages)
  }

  /** A turn that failed after tool activity while a nudge was still unanswered: its last conversation
      message is the nudge, so the next turn's message follows a user message. */
  predicate Stranded(flow: Flow, y: Tally)
  {
    flow.FailedTurn? && y.own.dispatched && y.own.awaiting
  }

  datatype TurnInput = TurnInput(policy: TurnPolicy, limits: Limits, script: Script, message: string)

  /** One turn of a session: the transcript before and after it, how it ended and what was done. */
  datatype TurnRecord = TurnRecord(before: seq<Message>, flow: Flow, actions: seq<Action>, after: seq<Message>)
  {
    predicate IsStranded()
    {
      Stranded(flow, Tallied(FRESH, actions, []))
    }

    /** What one turn promises, for the input it was given. */
    ghost predicate Honours(input: TurnInput)
    {
      exists rounds :: HonoursBy(input, rounds)
    }

    ghost predicate HonoursBy(input: TurnInput, rounds: seq<Moment>)
    {
      && |rounds| >= 2
      && var agent, y, end := Agent(input.policy, []), Tallied(FRESH, actions, []), rounds[|rounds| - 1];
         && Ended(agent, before, input.message, end.turn.full, after, flow, y)
         && Proper(actions, agent, input.limits)
         && AgentKept(y.own, input.policy.scope, input.limits)
         && (flow.Completed? ==> OnTime(input.limits, y.own))
         && Truthful(actions, input.script, input.limits, end.clock)
         && Reserved(actions) == y.sends <= input.limits.providerRequests
         && Charged(actions) == y.charges <= input.limits.toolCalls
         && FirstActions(agent, before + [UserMessage(input.message)], input.script, input.limits, 0, 0, actions)
         && (flow.Aborted? ==> actions != [] && actions[|actions| - 1] == Emit([], TurnAborted))
         && Caused(flow, actions, [])
         && Played(agent, input.limits, input.script, rounds, flow)
         && rounds[0] == Moment(FirstTurn(before, input.message), 0, 0, 0, [])
         && end == Moment(end.turn, end.clock, y.sends, y.charges, actions)
         && end.turn.history == after && end.turn.observed == y.own.dispatched
    }
  }

  lemma HonouredBy(record: TurnRecord, input: TurnInput) returns (rounds: seq<Moment>)
    requires record.Honours(input)
    ensures record.HonoursBy(input, rounds)
  {
    rounds :| record.HonoursBy(input, rounds);
  }

  /** Each turn starts from the transcript the one before it left. */
  predicate Chained(before: seq<Message>, records: seq<TurnRecord>, after: seq<Message>)
  {
    if records == [] then after == before
    else
      var last := records[|records| - 1];
      last.after == after && Chained(before, records[..|records| - 1], last.before)
  }

  predicate NoneStranded(records: seq<TurnRecord>)
  {
    forall k :: 0 <= k < |records| ==> !records[k].IsStranded()
  }

  ghost predicate AllHonour(inputs: seq<TurnInput>, records: seq<TurnRecord>)
  {
    |records| == |inputs| && forall k :: 0 <= k < |records| ==> records[k].Honours(inputs[k])
  }

  /** One root turn, with a budget of its own. */
  method RunRootTurn(before: seq<Message>, input: TurnInput) returns (history: seq<Message>, record: TurnRecord)
    ensures record.before == before && record.after == history && record.Honours(input)
  {
    hide Tallied, Proper, Ended, AgentKept, FirstActions, Played, Caused, FirstTurn, OnTime, World.Valid, Truthful,
         Reserved, Charged;
    var w := new World(input.limits, input.script);
    var flow;
    ghost var t, rounds;
    history, flow, t, rounds := RunTurn(w, Agent(input.policy, []), before, input.message);
    record := TurnRecord(before, flow, w.trace, history);
    w.Bounded();
    assert w.trace == [] + t == t;
    assert record.HonoursBy(input, rounds);
  }

  lemma OneMoreTurn(before: seq<Message>, inputs: seq<TurnInput>, i: nat, records: seq<TurnRecord>, record: TurnRecord)
    requires i < |inputs| && Chained(before, records, record.before) && AllHonour(inputs[..i], records)
             && record.Honours(inputs[i])
    ensures Chained(before, records + [record], record.after) && AllHonour(inputs[..i + 1], records + [record])
  {
    hide TurnRecord.Honours;
    assert (records + [record])[..i] == records;
  }

  /** Turns one after another on one history, each with its own policy, limits and oracles. */
  method RunSession(before: seq<Message>, inputs: seq<TurnInput>)
    returns (history: seq<Message>, records: seq<TurnRecord>)
    ensures Chained(before, records, history) && AllHonour(inputs, records)
  {
    hide TurnRecord.Honours;
    history, records := before, [];
    for i := 0 to |inputs|
      invariant Chained(before, records, history) && AllHonour(inputs[..i], records)
    {
      var record;
      history, record := RunRootTurn(history, inputs[i]);
      OneMoreTurn(before, inputs, i, records, record);
      records := records + [record];
    }
    assert inputs[..|inputs|] == inputs;
  }

  // ----- Why turns end -----

  /** A turn fails as cancelled exactly when its agent found the flag set or had its request interrupted. It
      is aborted exactly when it says so, and then only after the person asked about a call of the agent or
      of a subagent gave the turn up. A limit it failed on was reached. */
  lemma WhyItEnded(record: TurnRecord, input: TurnInput)
    requires record.Honours(input)
    ensures record.flow == FailedTurn(TurnCancelled)
            <==> exists k :: 0 <= k < |record.actions| && LearnsOfCancel(record.actions[k], [])
    ensures record.flow == Aborted
            <==> exists k :: 0 <= k < |record.actions| && record.actions[k] == Emit([], TurnAborted)
    ensures record.flow == Aborted ==> exists k :: 0 <= k < |record.actions| && AbortAsked(record.actions[k], [])
    ensures record.flow == FailedTurn(Exhausted(ProviderRequests)) ==>
              Reserved(record.actions) == input.limits.providerRequests
    ensures record.flow == FailedTurn(Exhausted(ToolCalls)) ==> Charged(record.actions) == input.limits.toolCalls
  {
    hide Proper, Played, AgentKept, Tallied, Ended, FirstActions, Truthful, Reserved, Charged;
    var rounds := HonouredBy(record, input);
    var t, end := record.actions, rounds[|rounds| - 1];
    EndedCauses(Agent(input.policy, []), record.before, input.message, end.turn.full, record.after, record.flow, t);
    CancelledMeans(FRESH, t, []);
    AbortsMean(FRESH, t, []);
    var k :| 0 <= k < |t| && CauseOf(record.flow, t[k], []);
    assert record.flow == FailedTurn(TurnCancelled) ==> LearnsOfCancel(t[k], []);
    LimitReached(t, k, input.script, input.limits, end.clock);
  }

  lemma EndedCauses(
    agent: Agent, before: seq<Message>, message: string, full: seq<Message>, after: seq<Message>, flow: Flow,
    t: seq<Action>)
    requires Ended(agent, before, message, full, after, flow, Tallied(FRESH, t, []))
    ensures var y := Tallied(FRESH, t, []).own;
            && !flow.GoOn? && (y.cancelled ==> flow == FailedTurn(TurnCancelled))
            && y.aborts == (if flow.Aborted? then 1 else 0)
  {
    hide Tallied, Fit, Recounts, Reports, Retains, Numbered, Ready, WellFormed;
  }

  /** A limit reported as reached was used up. */
  lemma LimitReached(t: seq<Action>, k: nat, script: Script, limits: Limits, clock: nat)
    requires k < |t| && Truthful(t, script, limits, clock)
    requires Reserved(t) <= limits.providerRequests && Charged(t) <= limits.toolCalls
    ensures t[k].Exhaust? && t[k].limit == ProviderRequests ==> Reserved(t) == limits.providerRequests
    ensures t[k].Exhaust? && t[k].limit == ToolCalls ==> Charged(t) == limits.toolCalls
  {
    hide Reserved, Charged;
    assert TrueAfter(t[..k], t[k], script, limits, clock);
    CountedUpTo(t, k);
  }

  /** A turn nobody cancels, denies or delays, with a provider that always responds, completes unless it
      uses up a budget. */
  lemma SmoothTurn(record: TurnRecord, input: TurnInput)
    requires record.Honours(input) && Smooth(input.script) && forall m: nat :: input.script.provider(m).Responded?
    ensures var y := Tallied(FRESH, record.actions, []);
            || record.flow == Completed
            || (record.flow == FailedTurn(Exhausted(ProviderRequests)) && y.sends == input.limits.providerRequests)
            || (record.flow == FailedTurn(Exhausted(ToolCalls)) && y.charges == input.limits.toolCalls)
  {
    hide Proper, Played, AgentKept, Tallied, Ended, FirstActions, Truthful, Reserved, Charged, Smooth;
    var rounds := HonouredBy(record, input);
    var t, end := record.actions, rounds[|rounds| - 1];
    EndedCauses(Agent(input.policy, []), record.before, input.message, end.turn.full, record.after, record.flow, t);
    SmoothlyCaused(record.flow, t, input.script, input.limits, end.clock);
    WhyItEnded(record, input);
  }

  /** A turn completes only on a response without calls, and on one that says nothing, and was not cut off, only
      when all nudges are used up; likewise on one that announces another step. */
  lemma CompletedWhenDone(record: TurnRecord, input: TurnInput) returns (rounds: seq<Moment>, response: Response)
    requires record.Honours(input) && record.flow == Completed
    ensures record.HonoursBy(input, rounds)
    ensures var last := rounds[|rounds| - 2];
            && input.script.provider(last.clock + 1) == Responded(response) && response.toolCalls == []
            && ((forall i :: 0 <= i < |response.content| ==> response.content[i] in WHITESPACE) && !response.cutOff ==>
                  last.turn.autoContinues >= input.limits.autoContinues)
            && (input.script.announces(last.clock + 2) && !response.cutOff ==>
                  last.turn.autoContinues >= input.limits.autoContinues)
  {
    hide Proper, Tallied, Ended, AgentKept, FirstActions, Truthful, Caused, Reserved, Charged, OnTime, RoundStep;
    rounds := HonouredBy(record, input);
    var n := |rounds| - 2;
    response := CompletedRound(Agent(input.policy, []), input.limits, input.script, rounds[n], rounds[n + 1]);
  }

  lemma CompletedRound(agent: Agent, limits: Limits, script: Script, a: Moment, b: Moment) returns (response: Response)
    requires RoundStep(agent, limits, script, a, b, Completed)
    ensures script.provider(a.clock + 1) == Responded(response) && response.toolCalls == []
    ensures (forall i :: 0 <= i < |response.content| ==> response.content[i] in WHITESPACE) && !response.cutOff ==>
              a.turn.autoContinues >= limits.autoContinues
    ensures script.announces(a.clock + 2) && !response.cutOff ==> a.turn.autoContinues >= limits.autoContinues
  {
    hide Caused, Staged, AssistantMessage, Settles, RunsFirst, HistoryAfter, CompactTo, FailedHistory;
    response := script.provider(a.clock + 1).response;
    var before, after := TrimMeans(response.content);
  }

  /** In a smooth world with a provider that always responds, only a limit makes a turn fail. */
  lemma SmoothlyCaused(flow: Flow, t: seq<Action>, script: Script, limits: Limits, clock: nat)
    requires Caused(flow, t, []) && Truthful(t, script, limits, clock)
    requires Smooth(script) && forall m: nat :: script.provider(m).Responded?
    ensures flow.GoOn? || flow.Completed? || flow == FailedTurn(Exhausted(ProviderRequests))
            || flow == FailedTurn(Exhausted(ToolCalls))
    ensures flow == FailedTurn(Exhausted(ToolCalls)) ==> Charged(t) >= limits.toolCalls
  {
    hide Reserved, Charged;
    if !flow.GoOn? {
      var k :| 0 <= k < |t| && CauseOf(flow, t[k], []);
      assert TrueAfter(t[..k], t[k], script, limits, clock);
      CountedUpTo(t, k);
    }
  }

  // ----- Requests -----

  /** One turn: its requests are sendable when it may begin, and from a ready history it leaves a ready
      history exactly when it is not stranded; a turn that did something to a history it may begin from
      repairs it under the same condition. */
  lemma AfterTurn(
    agent: Agent, before: seq<Message>, message: string, full: seq<Message>, after: seq<Message>, flow: Flow,
    t: seq<Action>)
    requires Ended(agent, before, message, full, after, flow, Tallied(FRESH, t, agent.path))
    ensures var y, fit := Tallied(FRESH, t, agent.path), Fit(agent.policy.compactor, before, UserMessage(message));
            && (fit ==> AllSendable(t))
            && (Ready(before) || (fit && (!flow.FailedTurn? || y.own.dispatched)) ==>
                (Ready(after) <==> !Stranded(flow, y)))
  {
    hide Recounts, Retains, Reports, Numbered, KeepsOnlyNewTurn, Read;
    SendableMeans(FRESH, t, agent.path);
    if Ready(before) {
      ReadyFits(agent.policy.compactor, before, UserMessage(message));
    }
  }

  /** From a well-formed history, the first request of a turn is sendable exactly when the turn may begin. */
  lemma FirstRequestSendable(agent: Agent, before: seq<Message>, message: string)
    requires WellFormed(before)
    ensures Sendable(RequestFor(agent, before + [UserMessage(message)]).messages)
            <==> Fit(agent.policy.compactor, before, UserMessage(message))
  {
    hide Sendable, Fit, Staged, Read, WellFormed;
    var c, u := agent.policy.compactor, UserMessage(message);
    FirstStaged(c, before, u);
    if Fit(c, before, u) {
      GoodIsWellFormed(Staged(c, before + [u]));
      MergedSendable(Staged(c, before + [u]));
    }
  }

  lemma GoodIsWellFormed(h: seq<Message>)
    requires Read(START, h) == Good([], true)
    ensures WellFormed(h)
  {
  }

  /** From a well-formed history, all requests of a turn that sends any are sendable if and only if the
      history is ready or compaction keeps only the new turn. */
  lemma TurnSendableIff(record: TurnRecord, input: TurnInput)
    requires record.Honours(input) && WellFormed(record.before)
    requires exists k :: 0 <= k < |record.actions| && record.actions[k].Send?
    ensures AllSendable(record.actions) <==> Fit(input.policy.compactor, record.before, UserMessage(input.message))
  {
    hide Proper, Played, Caused, AgentKept, Tallied, Ended, Sendable, Fit, Staged, WellFormed;
    var rounds := HonouredBy(record, input);
    var agent := Agent(input.policy, []);
    FirstRequestSendable(agent, record.before, input.message);
    AfterTurn(agent, record.before, input.message, rounds[|rounds| - 1].turn.full, record.after, record.flow,
              record.actions);
  }

  /** Over a whole session from a ready history: as long as no earlier turn was stranded, every request
      of a turn is sendable, and the turn starts from a ready history. */
  lemma {:induction false} SessionSendable(
    before: seq<Message>, inputs: seq<TurnInput>, records: seq<TurnRecord>, after: seq<Message>)
    requires Ready(before) && Chained(before, records, after) && AllHonour(inputs, records)
    ensures NoneStranded(records) ==> Ready(after)
    ensures forall k :: 0 <= k < |records| && NoneStranded(records[..k]) ==>
              Ready(records[k].before) && AllSendable(records[k].actions)
    decreases |records|
  {
    hide TurnRecord.Honours, TurnRecord.IsStranded, AllSendable, Ready;
    if records != [] {
      var n := |records| - 1;
      var last, init := records[n], records[..n];
      assert forall k :: 0 <= k <= n ==> init[..k] == records[..k];
      SessionSendable(before, inputs[..n], init, last.before);
      TurnFromReady(last, inputs[n]);
    }
  }

  lemma TurnFromReady(record: TurnRecord, input: TurnInput)
    requires record.Honours(input)
    ensures Ready(record.before) ==> AllSendable(record.actions) && (Ready(record.after) <==> !record.IsStranded())
  {
    hide Ended, Tallied, Proper, AllSendable, Ready, Played, Caused, AgentKept, Fit;
    var rounds := HonouredBy(record, input);
    var agent := Agent(input.policy, []);
    AfterTurn(agent, record.before, input.message, rounds[|rounds| - 1].turn.full, record.after, record.flow,
              record.actions);
    if Ready(record.before) {
      ReadyFits(agent.policy.compactor, record.before, UserMessage(input.message));
    }
  }

  /** With no compactor in any turn, a session only ever adds to the transcript it started from. */
  lemma {:induction false} SessionKeeps(
    before: seq<Message>, inputs: seq<TurnInput>, records: seq<TurnRecord>, after: seq<Message>)
    requires Chained(before, records, after) && AllHonour(inputs, records)
    requires forall k :: 0 <= k < |inputs| ==> inputs[k].policy.compactor.budget.None?
    ensures before <= after
    decreases |records|
  {
    if records != [] {
      var n := |records| - 1;
      SessionKeeps(before, inputs[..n], records[..n], records[n].before);
      var rounds := HonouredBy(records[n], inputs[n]);
      TurnKeeps(Agent(inputs[n].policy, []), records[n].before, inputs[n].message, rounds[|rounds| - 1].turn.full,
                records[n].after, records[n].flow, Tallied(FRESH, records[n].actions, []));
    }
  }

  lemma TurnKeeps(
    agent: Agent, before: seq<Message>, message: string, full: seq<Message>, after: seq<Message>, flow: Flow,
    y: Tally)
    requires Ended(agent, before, message, full, after, flow, y) && agent.policy.compactor.budget.None?
    ensures before <= after
  {
    hide Lines, CallsIn, Retains, Numbered, Read;
    assert before <= before + [UserMessage(message)];
  }

  // ----- Every agent of a turn -----

  /** What a turn says of its agents. */
  lemma HonouredAgents(record: TurnRecord, input: TurnInput, rounds: seq<Moment>)
    requires record.HonoursBy(input, rounds)
    ensures AgentKept(Tallied(FRESH, record.actions, []).own, input.policy.scope, input.limits)
    ensures AllBelong(record.actions, []) && Distinct(Started(record.actions, []))
    ensures forall name :: name in Started(record.actions, []) ==> ChildKept(record.actions, [], name, input.limits)
  {
    hide Ended, Tallied, Played, Caused, AgentKept, Orderly, Within, Offers, Started, Distinct, FirstActions,
         Truthful, AllBelong, ChildKept, OnTime;
    StartedDistinct(Agent(input.policy, []), record, input, rounds);
  }

  /** Whatever path an action of a turn has, it is the root's or a subagent's that the root started, and the
      agent at that path kept its promises. */
  lemma EveryAgentKept(record: TurnRecord, input: TurnInput, k: nat)
    requires record.Honours(input) && k < |record.actions|
    ensures var q := record.actions[k].path;
            AgentKept(Tallied(FRESH, record.actions, q).own, if q == [] then input.policy.scope else Some(q[0]),
                      input.limits)
  {
    hide TurnRecord.HonoursBy, Tallied, AgentKept, Started, Distinct, OutcomeTold;
    var rounds := HonouredBy(record, input);
    HonouredAgents(record, input, rounds);
    var q := record.actions[k].path;
    assert Belongs(record.actions[k], [], Started(record.actions, []));
    if q != [] {
      assert q == [] + [q[0]] && ChildKept(record.actions, [], q[0], input.limits);
    }
  }

  /** What the root is told about a subagent is what the subagent did. */
  lemma SubagentOutcome(record: TurnRecord, input: TurnInput, k: nat)
    requires record.Honours(input) && k < |record.actions|
    requires record.actions[k].Emit? && record.actions[k].path == [] && record.actions[k].event.SubagentFinished?
    ensures var event := record.actions[k].event;
            && event.agent in Started(record.actions, [])
            && OutcomeTold(event.outcome, Tallied(FRESH, record.actions, [event.agent]).own, input.limits)
  {
    hide TurnRecord.HonoursBy, Tallied, AgentKept, Started, Distinct, OutcomeTold;
    var rounds := HonouredBy(record, input);
    HonouredAgents(record, input, rounds);
    var name := record.actions[k].event.agent;
    assert Belongs(record.actions[k], [], Started(record.actions, []));
    assert [] + [name] == [name] && ChildKept(record.actions, [], name, input.limits);
    assert FinishedAt(record.actions[k], [], name);
  }

  lemma StartedDistinct(agent: Agent, record: TurnRecord, input: TurnInput, rounds: seq<Moment>)
    requires record.HonoursBy(input, rounds) && agent == Agent(input.policy, [])
    ensures var kids := Tallied(FRESH, record.actions, []).own.kids;
            && Numbered(input.policy.scope, kids) && kids.started == Started(record.actions, [])
            && Distinct(kids.started)
  {
    hide Tallied, Played, Caused, Orderly, Within, Started, Ended, Numbered, Proper, Truthful, Due, Renamed,
         FirstActions;
    TalliedStarted(FRESH, record.actions, []);
    NumberedDistinct(input.policy.scope, Tallied(FRESH, record.actions, []).own.kids);
    assert [] + Started(record.actions, []) == Started(record.actions, []);
  }

  // ----- Results -----

  lemma CountSpoken(y: Tally, a: Action, path: seq<string>)
    ensures y.own.spoken <= Count(y, a, path).own.spoken
    ensures a.Emit? && a.path == path && a.event.ToolResulted? ==>
              Line(ToolRole, a.event.result, 0) in Count(y, a, path).own.spoken
  {
    hide Sendable;
  }

  /** A result an agent reported is among what it said. */
  lemma {:induction false} ResultSpoken(t: seq<Action>, path: seq<string>, k: nat)
    requires k < |t| && t[k].Emit? && t[k].path == path && t[k].event.ToolResulted?
    ensures Line(ToolRole, t[k].event.result, 0) in Tallied(FRESH, t, path).own.spoken
    decreases |t|
  {
    hide Count;
    var init, last := t[..|t| - 1], t[|t| - 1];
    CountSpoken(Tallied(FRESH, init, path), last, path);
    if k < |init| { ResultSpoken(init, path, k); }
  }

  lemma EndedTells(
    agent: Agent, before: seq<Message>, message: string, full: seq<Message>, after: seq<Message>, flow: Flow, y: Tally,
    result: string) returns (i: nat)
    requires Ended(agent, before, message, full, after, flow, y) && !flow.FailedTurn?
    requires agent.policy.compactor.budget.None? && Line(ToolRole, result, 0) in y.own.spoken
    ensures |before| < i < |after| && after[i].role == ToolRole && after[i].content == result
  {
    hide Fit, CallsIn, Retains, Numbered, Read;
    var part := full[|before| + 1..];
    var j :| 0 <= j < |y.own.spoken| && y.own.spoken[j] == Line(ToolRole, result, 0);
    assert Lines(part)[j] == y.own.spoken[j] == LineOf(part[j]);
    i := |before| + 1 + j;
  }

  /** In a turn that did not fail and compacted nothing, what a call the root dispatched yielded is reported
      as its result, and that result is in the transcript after the turn's message. */
  lemma ResultReachesTranscript(record: TurnRecord, input: TurnInput, k: nat)
    returns (work: seq<Action>, result: string, aborted: bool, i: nat)
    requires record.Honours(input) && !record.flow.FailedTurn? && input.policy.compactor.budget.None?
    requires k < |record.actions| && record.actions[k].Dispatch? && record.actions[k].path == []
    ensures ReportedBy(record.actions, LawOf(Agent(input.policy, []), input.limits), k, work, result, aborted)
    ensures |record.before| < i < |record.after|
    ensures record.after[i].role == ToolRole && record.after[i].content == result
  {
    hide Ended, Tallied, Played, Caused, AgentKept, Orderly, Within, Families, Offers, Truthful, FirstActions, WorkForm;
    var rounds := HonouredBy(record, input);
    var agent, t := Agent(input.policy, []), record.actions;
    work, result, aborted := DispatchedIsReported(t, LawOf(agent, input.limits), k);
    ResultSpoken(t, [], k + 1 + |work|);
    i := EndedTells(agent, record.before, input.message, rounds[|rounds| - 1].turn.full, record.after, record.flow,
                    Tallied(FRESH, t, []), result);
  }

  // ----- Ids -----

  predicate IsAnnouncement(a: Action)
  {
    a.Emit? && a.event.ToolRequested?
  }

  /** No id is announced twice, by whichever agents. */
  predicate IdsApart(t: seq<Action>)
  {
    forall i, j :: 0 <= i < j < |t| && IsAnnouncement(t[i]) && IsAnnouncement(t[j]) ==>
             t[i].event.call.id != t[j].event.call.id
  }

  lemma {:induction false} RequestedGrows(t: seq<Action>, path: seq<string>, k: nat)
    requires k <= |t|
    ensures Tallied(FRESH, t[..k], path).own.asked.requested <= Tallied(FRESH, t, path).own.asked.requested
    decreases |t|
  {
    hide Tallied, Count;
    if k == |t| {
      assert t[..k] == t;
    } else {
      var init, last := t[..|t| - 1], t[|t| - 1];
      assert init[..k] == t[..k] && t == init + [last];
      RequestedGrows(init, path, k);
      TalliedSnoc(FRESH, init, last, path);
      CountGrows(Tallied(FRESH, init, path), last, path);
    }
  }

  lemma CountGrows(y: Tally, a: Action, path: seq<string>)
    ensures y.own.asked.requested <= Count(y, a, path).own.asked.requested
  {
    hide Sendable;
  }

  /** Where an announced id stands among the ids its agent announced. */
  lemma RequestedAt(t: seq<Action>, path: seq<string>, k: nat) returns (n: nat)
    requires k < |t| && IsAnnouncement(t[k]) && t[k].path == path
    ensures n == |Tallied(FRESH, t[..k], path).own.asked.requested|
    ensures |Tallied(FRESH, t[..k + 1], path).own.asked.requested| == n + 1
    ensures n < |Tallied(FRESH, t, path).own.asked.requested|
            && Tallied(FRESH, t, path).own.asked.requested[n] == t[k].event.call.id
  {
    hide Tallied;
    assert t[..k + 1] == t[..k] + [t[k]];
    TalliedSnoc(FRESH, t[..k], t[k], path);
    n := |Tallied(FRESH, t[..k], path).own.asked.requested|;
    RequestedGrows(t, path, k + 1);
    var longer := Tallied(FRESH, t[..k + 1], path).own.asked.requested;
    assert longer[n] == t[k].event.call.id;
  }

  lemma SamePathApart(t: seq<Action>, path: seq<string>, i: nat, j: nat)
    requires i < j < |t| && IsAnnouncement(t[i]) && IsAnnouncement(t[j]) && t[i].path == path && t[j].path == path
    requires Distinct(Tallied(FRESH, t, path).own.asked.requested)
    ensures t[i].event.call.id != t[j].event.call.id
  {
    hide Tallied;
    var m := RequestedAt(t, path, i);
    var n := RequestedAt(t, path, j);
    RequestedGrows(t[..j], path, i + 1);
    assert t[..j][..i + 1] == t[..i + 1];
  }

  /** An id announced at a path is under the scope of the agent there. */
  lemma AnnouncedInScope(t: seq<Action>, path: seq<string>, scope: Option<string>, limits: Limits, k: nat)
    requires k < |t| && IsAnnouncement(t[k]) && t[k].path == path
             && AgentKept(Tallied(FRESH, t, path).own, scope, limits)
    ensures InScope(scope, t[k].event.call.id)
  {
    hide Tallied, Distinct, Due, Numbered, ScopedCopies, Disambiguated;
    var n := RequestedAt(t, path, k);
    var asked := Tallied(FRESH, t, path).own.asked;
    var raws :| Disambiguated(Ids(asked.received), raws) && asked.requested == ScopedAll(scope, raws);
    assert t[k].event.call.id == Scoped(scope, raws[n]);
  }

  lemma ScopesApart(parent: Option<string>, kids: Kids, a: string, b: string, id: string)
    requires Numbered(parent, kids) && a in kids.started && b in kids.started && a != b && InScope(Some(a), id)
    ensures !InScope(Some(b), id)
  {
    hide DelegateScope;
    var i :| 0 <= i < |kids.started| && kids.started[i] == a;
    var j :| 0 <= j < |kids.started| && kids.started[j] == b;
    var raw :| id == Scoped(Some(a), raw);
    forall other
      ensures id != Scoped(Some(b), other)
    {
      SubagentsApart(parent, kids.numbers[i], raw, kids.numbers[j], other);
    }
  }

  lemma DelegatedLooksIt(parent: Option<string>, kids: Kids, a: string, id: string)
    requires Numbered(parent, kids) && a in kids.started && InScope(Some(a), id)
    ensures LooksDelegated(parent, id)
  {
    hide DelegateScope, InScope;
    var i :| 0 <= i < |kids.started| && kids.started[i] == a;
    assert InScope(Some(DelegateScope(parent, kids.numbers[i])), id);
    LooksDelegatedIff(parent, id);
  }

  predicate RootAnnounces(a: Action)
  {
    IsAnnouncement(a) && a.path == []
  }

  predicate ChildAnnounces(a: Action)
  {
    IsAnnouncement(a) && a.path != []
  }

  /** No subagent announces an id that the root announces. */
  predicate RootApart(t: seq<Action>)
  {
    forall i, j :: 0 <= i < |t| && 0 <= j < |t| && RootAnnounces(t[i]) && ChildAnnounces(t[j]) ==>
      t[i].event.call.id != t[j].event.call.id
  }

  /** In every root turn, the ids announced by the root and all its subagents are pairwise distinct if and
      only if no id of the root is also one of a subagent. */
  lemma TurnIdsApartIff(record: TurnRecord, input: TurnInput)
    requires record.Honours(input)
    ensures IdsApart(record.actions) <==> RootApart(record.actions)
  {
    hide TurnRecord.Honours;
    var t := record.actions;
    if IdsApart(t) {
      forall i, j | 0 <= i < |t| && 0 <= j < |t| && RootAnnounces(t[i]) && ChildAnnounces(t[j])
        ensures t[i].event.call.id != t[j].event.call.id
      {
        assert i < j || j < i;
      }
    }
    if RootApart(t) {
      forall i, j | 0 <= i < j < |t| && IsAnnouncement(t[i]) && IsAnnouncement(t[j])
        ensures t[i].event.call.id != t[j].event.call.id
      {
        if t[i].path == [] <==> t[j].path == [] {
          PairApart(record, input, i, j);
        } else {
          assert RootAnnounces(t[i]) || RootAnnounces(t[j]);
        }
      }
    }
  }

  /** They are whenever no id that the root announces looks delegated. */
  lemma TurnIdsApart(record: TurnRecord, input: TurnInput)
    requires record.Honours(input)
    requires forall k :: 0 <= k < |record.actions| && RootAnnounces(record.actions[k]) ==>
               !LooksDelegated(input.policy.scope, record.actions[k].event.call.id)
    ensures IdsApart(record.actions)
  {
    hide TurnRecord.Honours, LooksDelegated, IdsApart;
    var t := record.actions;
    forall i, j | 0 <= i < |t| && 0 <= j < |t| && RootAnnounces(t[i]) && ChildAnnounces(t[j])
      ensures t[i].event.call.id != t[j].event.call.id
    {
      ChildLooksDelegated(record, input, j);
    }
    TurnIdsApartIff(record, input);
  }

  lemma ChildLooksDelegated(record: TurnRecord, input: TurnInput, j: nat)
    requires record.Honours(input) && j < |record.actions| && ChildAnnounces(record.actions[j])
    ensures LooksDelegated(input.policy.scope, record.actions[j].event.call.id)
  {
    hide TurnRecord.Honours, LooksDelegated, Tallied, AgentKept, InScope, Numbered;
    var t, q := record.actions, record.actions[j].path;
    EveryAgentKept(record, input, j);
    var kids := AgentsNamed(record, input, j, j);
    AnnouncedInScope(t, q, Some(q[0]), input.limits, j);
    DelegatedLooksIt(input.policy.scope, kids, q[0], t[j].event.call.id);
  }

  /** Two ids of one agent, or of two subagents, differ. */
  lemma PairApart(record: TurnRecord, input: TurnInput, i: nat, j: nat)
    requires record.Honours(input)
    requires i < j < |record.actions| && IsAnnouncement(record.actions[i]) && IsAnnouncement(record.actions[j])
    requires record.actions[i].path == [] <==> record.actions[j].path == []
    ensures record.actions[i].event.call.id != record.actions[j].event.call.id
  {
    hide TurnRecord.Honours, Tallied, InScope, Numbered, Distinct, Renamed, Due, ScopedCopies;
    var t := record.actions;
    var p, q, a := t[i].path, t[j].path, t[i].event.call.id;
    EveryAgentKept(record, input, i);
    if p == q {
      SamePathApart(t, p, i, j);
    } else {
      EveryAgentKept(record, input, j);
      var kids := AgentsNamed(record, input, i, j);
      AnnouncedInScope(t, p, Some(p[0]), input.limits, i);
      AnnouncedInScope(t, q, Some(q[0]), input.limits, j);
      ScopesApart(input.policy.scope, kids, p[0], q[0], a);
    }
  }

  lemma AgentsNamed(record: TurnRecord, input: TurnInput, i: nat, j: nat) returns (kids: Kids)
    requires record.Honours(input) && i < |record.actions| && j < |record.actions|
    ensures Numbered(input.policy.scope, kids) && kids == Tallied(FRESH, record.actions, []).own.kids
    ensures var p, q := record.actions[i].path, record.actions[j].path;
            && (p != [] ==> |p| == 1 && p[0] in kids.started) && (q != [] ==> |q| == 1 && q[0] in kids.started)
            && (p != q && p != [] && q != [] ==> p[0] != q[0])
  {
    hide TurnRecord.HonoursBy, Started, Numbered, Distinct, Tallied;
    var rounds := HonouredBy(record, input);
    StartedDistinct(Agent(input.policy, []), record, input, rounds);
    kids := Tallied(FRESH, record.actions, []).own.kids;
    NamedAgent(record, input, rounds, i);
    NamedAgent(record, input, rounds, j);
    var p, q := record.actions[i].path, record.actions[j].path;
    assert p != [] && q != [] && p[0] == q[0] ==> p == q;
  }

  lemma NamedAgent(record: TurnRecord, input: TurnInput, rounds: seq<Moment>, k: nat)
    requires record.HonoursBy(input, rounds) && k < |record.actions|
    ensures var p := record.actions[k].path;
            p != [] ==> |p| == 1 && p[0] in Started(record.actions, [])
  {
    hide Ended, Tallied, Played, Caused, AgentKept, Orderly, Within, Started, Distinct, ChildKept, Truthful,
         FirstActions;
    assert Belongs(record.actions[k], [], Started(record.actions, []));
  }
}
