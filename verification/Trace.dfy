/** What a turn does, as a sequence of actions, and what can be counted in such a sequence. */
module Traces {
  import opened Wrappers
  import opened Transcript
  import opened Compaction
  import opened ApprovalPolicies
  import opened Tools
  import opened CallIdentifiers

  datatype Limits = Limits(providerRequests: nat, toolCalls: nat, toolCallsPerResponse: nat, autoContinues: nat)

  datatype Exhaustion = ProviderRequests | ToolCalls | WallTime

  datatype Approval = Approve | Refuse | AbortTurn

  datatype Response = Response(content: string, toolCalls: seq<ToolCall>, reasoning: Option<string>, cutOff: bool)

  /** How a provider request ends. */
  datatype ProviderOutcome =
    | Responded(response: Response)
    | Overflowed
    | Broken(message: string)
    | Interrupted
    | TimedOut

  datatype Event =
    | AgentResponse(content: string, toolCallCount: nat, partial: bool)
    | AutoContinued(prompt: string)
    | ToolRequested(call: ToolCall)
    | ApprovalRequested(call: ToolCall, reason: GateReason)
    | ToolDecision(callId: string, decision: Approval)
    | ToolSkipped(callId: string, name: string)
    | ToolResulted(callId: string, name: string, result: string)
    | TurnAborted
    | HistoryCompacted(report: Report)
    | SubagentStarted(agent: string, task: string, tools: ToolSet)
    | SubagentFinished(agent: string, outcome: string, message: Option<string>)

  /** `path` names the agent: the subagents from the root down to the one that acts. Events go to the
      observer; the other actions are what the engine does and what it is answered: a request is reserved,
      sent and received, a limit is reached, a call is charged, decided, asked about, dispatched and has run,
      and the cancellation flag is checked, or looked at to report about a subagent. */
  datatype Action =
    | Emit(path: seq<string>, event: Event)
    | Reserve(path: seq<string>)
    | Send(path: seq<string>, messages: seq<Message>, tools: ToolSet)
    | Receive(path: seq<string>, outcome: ProviderOutcome)
    | Exhaust(path: seq<string>, limit: Exhaustion)
    | Charge(path: seq<string>, call: ToolCall, index: nat, tools: ToolSet)
    | Decide(path: seq<string>, call: ToolCall, tool: Tool, preparation: Preparation, decision: Decision)
    | AskUser(path: seq<string>, call: ToolCall, answer: Approval)
    | Check(path: seq<string>, cancelled: bool)
    | Dispatch(path: seq<string>, call: ToolCall, tool: Tool, preparation: Preparation, tools: ToolSet)
    | Ran(path: seq<string>, output: Result<string, string>)
    | Look(path: seq<string>, cancelled: bool)

  /** Every action is the agent's own or, when it may delegate, a direct subagent's. */
  predicate Within(t: seq<Action>, path: seq<string>, delegates: bool)
  {
    forall k :: 0 <= k < |t| ==> OwnOrChild(t[k].path, path, delegates)
  }

  predicate OwnOrChild(actor: seq<string>, path: seq<string>, delegates: bool)
  {
    actor == path || (delegates && |actor| == |path| + 1 && path <= actor)
  }

  /** An action that names tools names these. */
  predicate Carries(a: Action, tools: ToolSet)
  {
    match a
    case Send(_, _, offered) => offered == tools
    case Charge(_, _, _, offered) => offered == tools
    case Dispatch(_, _, _, _, offered) => offered == tools
    case _ => true
  }

  /** The agent at `path` offers, charges and dispatches with these tools and no others. */
  predicate Offers(t: seq<Action>, path: seq<string>, tools: ToolSet)
  {
    forall k :: 0 <= k < |t| && t[k].path == path ==> Carries(t[k], tools)
  }

  // ----- Tallies -----

  /** One message as an observer hears of it. */
  datatype Line = Line(role: Role, content: string, calls: nat)

  /** The calls an agent received from the provider, those it announced, and the ids of these. */
  datatype Asked = Asked(received: seq<ToolCall>, announced: seq<ToolCall>, requested: seq<string>)

  /** How many delegations an agent dispatched, and of each subagent it started in one, the number of that
      delegation and its name. */
  datatype Kids = Kids(delegated: nat, numbers: seq<nat>, started: seq<string>)

  /** What one agent did itself: what it was asked for, the ids it charged and closed, nudges, whether the
      newest message is waiting for a response, whether it dispatched, whether it learned of a cancellation,
      aborts, its subagents, and what was said. */
  datatype Own = Own(
    asked: Asked,
    charged: seq<string>,
    closed: seq<string>,
    nudges: nat,
    awaiting: bool,
    dispatched: bool,
    cancelled: bool,
    aborts: nat,
    kids: Kids,
    spoken: seq<Line>)

  /** What a run adds up to: provider requests and charged calls of the whole tree, whether every request was
      sendable, and what one agent did itself. */
  datatype Tally = Tally(sends: nat, charges: nat, sendable: bool, own: Own)

  const NO_CALLS: Asked := Asked([], [], [])

  const NO_KIDS: Kids := Kids(0, [], [])

  const FRESH: Tally := Tally(0, 0, true, Own(NO_CALLS, [], [], 0, true, false, false, 0, NO_KIDS, []))

  function CountEvent(y: Own, event: Event): Own
  {
    match event
    case ToolRequested(call) =>
      y.(asked := y.asked.(announced := y.asked.announced + [call], requested := y.asked.requested + [call.id]))
    case ToolResulted(id, _, result) => y.(closed := y.closed + [id], spoken := y.spoken + [Line(ToolRole, result, 0)])
    case ToolSkipped(id, _) => y.(closed := y.closed + [id])
    case ToolDecision(id, decision) => if decision == AbortTurn then y.(closed := y.closed + [id]) else y
    case AgentResponse(content, calls, partial) =>
      if partial then y else y.(awaiting := false, spoken := y.spoken + [Line(Assistant, content, calls)])
    case AutoContinued(prompt) =>
      y.(awaiting := true, nudges := y.nudges + 1, spoken := y.spoken + [Line(User, prompt, 0)])
    case TurnAborted => y.(aborts := y.aborts + 1)
    case SubagentStarted(agent, _, _) =>
      y.(kids := y.kids.(numbers := y.kids.numbers + [y.kids.delegated], started := y.kids.started + [agent]))
    case _ => y
  }

  function CountOwn(y: Own, a: Action): Own
  {
    match a
    case Emit(_, event) => CountEvent(y, event)
    case Receive(_, outcome) =>
      if outcome.Responded? then y.(asked := y.asked.(received := y.asked.received + outcome.response.toolCalls))
      else if outcome.Interrupted? then y.(cancelled := true)
      else y
    case Charge(_, call, _, _) => y.(charged := y.charged + [call.id])
    case Dispatch(_, _, tool, _, _) =>
      var delegated := y.kids.delegated + (if tool == DelegateTask then 1 else 0);
      y.(dispatched := true, kids := y.kids.(delegated := delegated))
    case Check(_, cancelled) => if cancelled then y.(cancelled := true) else y
    case _ => y
  }

  function CountAll(y: Tally, a: Action): Tally
  {
    match a
    case Reserve(_) => y.(sends := y.sends + 1)
    case Send(_, messages, _) => y.(sendable := y.sendable && Sendable(messages))
    case Charge(_, _, _, _) => y.(charges := y.charges + 1)
    case _ => y
  }

  function Count(y: Tally, a: Action, path: seq<string>): Tally
  {
    var z := CountAll(y, a);
    if a.path == path then z.(own := CountOwn(y.own, a)) else z
  }

  function Tallied(y: Tally, t: seq<Action>, path: seq<string>): Tally
    decreases |t|
  {
    if t == [] then y else Count(Tallied(y, t[..|t| - 1], path), t[|t| - 1], path)
  }

  lemma TalliedNone(y: Tally, path: seq<string>)
    ensures Tallied(y, [], path) == y
  {
  }

  lemma TalliedOne(y: Tally, a: Action, path: seq<string>)
    ensures Tallied(y, [a], path) == Count(y, a, path)
  {
    assert [a][..0] == [];
  }

  lemma TalliedSnoc(y: Tally, t: seq<Action>, a: Action, path: seq<string>)
    ensures Tallied(y, t + [a], path) == Count(Tallied(y, t, path), a, path)
  {
    assert (t + [a])[..|t|] == t;
  }

  lemma {:induction false} TalliedConcat(y: Tally, a: seq<Action>, b: seq<Action>, path: seq<string>)
    ensures Tallied(y, a + b, path) == Tallied(Tallied(y, a, path), b, path)
    decreases |b|
  {
    hide Count;
    if b == [] {
      assert a + b == a;
    } else {
      var init := b[..|b| - 1];
      TalliedConcat(y, a, init, path);
      assert a + b == (a + init) + [b[|b| - 1]];
      TalliedSnoc(y, a + init, b[|b| - 1], path);
    }
  }

  /** How an agent's tally and that of a subagent it does not act for compare. */
  predicate SeenFromOutside(y: Tally, child: Tally, outside: Tally, inside: Tally)
  {
    && outside.own == y.own
    && outside.sends - y.sends == inside.sends - child.sends
    && outside.charges - y.charges == inside.charges - child.charges
    && (y.sendable && inside.sendable ==> outside.sendable)
  }

  lemma CountFromOutside(
    y: Tally, child: Tally, outside: Tally, inside: Tally, a: Action, path: seq<string>, inner: seq<string>)
    requires path != inner && a.path == inner && SeenFromOutside(y, child, outside, inside)
    ensures SeenFromOutside(y, child, Count(outside, a, path), Count(inside, a, inner))
  {
    hide Sendable, CountOwn;
  }

  /** To its parent, a subagent's run is only requests and charges. */
  lemma {:induction false} TalliedFromOutside(
    y: Tally, child: Tally, t: seq<Action>, path: seq<string>, inner: seq<string>)
    requires path != inner && Within(t, inner, false)
    ensures SeenFromOutside(y, child, Tallied(y, t, path), Tallied(child, t, inner))
    decreases |t|
  {
    hide Count;
    if t != [] {
      var init, last := t[..|t| - 1], t[|t| - 1];
      TalliedFromOutside(y, child, init, path, inner);
      CountFromOutside(y, child, Tallied(y, init, path), Tallied(child, init, inner), last, path, inner);
    }
  }

  /** `sendable` says that every request sent was. */
  lemma {:induction false} SendableMeans(y: Tally, t: seq<Action>, path: seq<string>)
    ensures Tallied(y, t, path).sendable <==>
            y.sendable && forall k :: 0 <= k < |t| && t[k].Send? ==> Sendable(t[k].messages)
    decreases |t|
  {
    hide CountOwn;
    if t != [] {
      var init, last := t[..|t| - 1], t[|t| - 1];
      SendableMeans(y, init, path);
      assert forall k :: 0 <= k < |init| ==> init[k] == t[k];
    }
  }

  /** The agent found the flag set, or its request was interrupted. */
  predicate LearnsOfCancel(a: Action, path: seq<string>)
  {
    a == Check(path, true) || a == Receive(path, Interrupted)
  }

  lemma CountCancelled(y: Tally, a: Action, path: seq<string>)
    ensures Count(y, a, path).own.cancelled == (y.own.cancelled || LearnsOfCancel(a, path))
  {
    hide Sendable;
  }

  /** `cancelled` says that the agent learned of a cancellation. */
  lemma {:induction false} CancelledMeans(y: Tally, t: seq<Action>, path: seq<string>)
    ensures Tallied(y, t, path).own.cancelled
            <==> y.own.cancelled || exists k :: 0 <= k < |t| && LearnsOfCancel(t[k], path)
    decreases |t|
  {
    hide Count, LearnsOfCancel;
    if t != [] {
      var init, last := t[..|t| - 1], t[|t| - 1];
      CancelledMeans(y, init, path);
      CountCancelled(Tallied(y, init, path), last, path);
      assert forall k :: 0 <= k < |init| ==> init[k] == t[k];
    }
  }

  lemma CountAborts(y: Tally, a: Action, path: seq<string>)
    ensures Count(y, a, path).own.aborts == y.own.aborts + (if a == Emit(path, TurnAborted) then 1 else 0)
  {
    hide Sendable;
  }

  /** An agent's aborts are those it reported. */
  lemma {:induction false} AbortsMean(y: Tally, t: seq<Action>, path: seq<string>)
    ensures Tallied(y, t, path).own.aborts >= y.own.aborts
    ensures Tallied(y, t, path).own.aborts > y.own.aborts
            <==> exists k :: 0 <= k < |t| && t[k] == Emit(path, TurnAborted)
    decreases |t|
  {
    hide Count;
    if t != [] {
      var init, last := t[..|t| - 1], t[|t| - 1];
      AbortsMean(y, init, path);
      CountAborts(Tallied(y, init, path), last, path);
      assert forall k :: 0 <= k < |init| ==> init[k] == t[k];
    }
  }

  // ----- Calls that are due to be charged -----

  function Min(a: nat, b: nat): (m: nat)
    ensures m <= a && m <= b
  {
    if a <= b then a else b
  }

  /** Of the ids announced with the responses among `lines`, the first `perResponse` of each response. */
  function Due(lines: seq<Line>, ids: seq<string>, perResponse: nat): seq<string>
  {
    if lines == [] then []
    else
      var n := Min(lines[|lines| - 1].calls, |ids|);
      var earlier, own := ids[..|ids| - n], ids[|ids| - n..];
      Due(lines[..|lines| - 1], earlier, perResponse) + own[..Min(n, perResponse)]
  }

  /** A response with its calls makes the first of them due. */
  lemma DueMore(lines: seq<Line>, ids: seq<string>, line: Line, own: seq<string>, perResponse: nat)
    requires line.calls == |own|
    ensures Due(lines + [line], ids + own, perResponse) == Due(lines, ids, perResponse) + own[..Min(|own|, perResponse)]
  {
    assert (lines + [line])[..|lines|] == lines;
    assert (ids + own)[..|ids|] == ids && (ids + own)[|ids|..] == own;
  }

  /** Lines without calls make nothing due. */
  lemma {:induction false} DueSame(lines: seq<Line>, more: seq<Line>, ids: seq<string>, perResponse: nat)
    requires forall i :: 0 <= i < |more| ==> more[i].calls == 0
    ensures Due(lines + more, ids, perResponse) == Due(lines, ids, perResponse)
    decreases |more|
  {
    hide Due;
    if more == [] {
      assert lines + more == lines;
    } else {
      var init, last := more[..|more| - 1], more[|more| - 1];
      DueSame(lines, init, ids, perResponse);
      assert lines + more == (lines + init) + [last] && ids + [] == ids;
      DueMore(lines + init, ids, last, [], perResponse);
    }
  }

  // ----- What a run says about each agent -----

  /** Two tallies agree on what one agent did itself. */
  predicate SameOwn(y: Tally, z: Tally)
  {
    z.own == y.own
  }

  predicate Absent(t: seq<Action>, path: seq<string>)
  {
    forall k :: 0 <= k < |t| ==> t[k].path != path
  }

  lemma {:induction false} OwnWhenAbsent(y: Tally, t: seq<Action>, path: seq<string>)
    requires Absent(t, path)
    ensures SameOwn(y, Tallied(y, t, path))
    decreases |t|
  {
    hide Sendable, CountOwn;
    if t != [] {
      var init := t[..|t| - 1];
      assert forall k :: 0 <= k < |init| ==> init[k] == t[k];
      OwnWhenAbsent(y, init, path);
    }
  }

  lemma {:induction false} OwnFromAnywhere(y: Tally, z: Tally, t: seq<Action>, path: seq<string>)
    requires SameOwn(y, z)
    ensures SameOwn(Tallied(y, t, path), Tallied(z, t, path))
    decreases |t|
  {
    hide Sendable, CountOwn;
    if t != [] { OwnFromAnywhere(y, z, t[..|t| - 1], path); }
  }

  /** An agent that is absent from one half of a run did all it did in the other. */
  lemma OwnOfHalf(a: seq<Action>, b: seq<Action>, path: seq<string>)
    ensures Absent(b, path) ==> SameOwn(Tallied(FRESH, a, path), Tallied(FRESH, a + b, path))
    ensures Absent(a, path) ==> SameOwn(Tallied(FRESH, b, path), Tallied(FRESH, a + b, path))
  {
    hide Tallied, SameOwn, Absent;
    TalliedConcat(FRESH, a, b, path);
    if Absent(b, path) { OwnWhenAbsent(Tallied(FRESH, a, path), b, path); }
    if Absent(a, path) {
      OwnWhenAbsent(FRESH, a, path);
      OwnFromAnywhere(FRESH, Tallied(FRESH, a, path), b, path);
    }
  }

  /** The subagents an agent starts in a run, in order. */
  function Started(t: seq<Action>, path: seq<string>): seq<string>
  {
    if t == [] then []
    else
      var before, a := Started(t[..|t| - 1], path), t[|t| - 1];
      if a.Emit? && a.path == path && a.event.SubagentStarted? then before + [a.event.agent] else before
  }

  lemma StartedSnoc(t: seq<Action>, a: Action, path: seq<string>)
    ensures Started(t + [a], path)
            == if a.Emit? && a.path == path && a.event.SubagentStarted? then Started(t, path) + [a.event.agent]
               else Started(t, path)
  {
    assert (t + [a])[..|t|] == t;
  }

  lemma {:induction false} StartedConcat(a: seq<Action>, b: seq<Action>, path: seq<string>)
    ensures Started(a + b, path) == Started(a, path) + Started(b, path)
    decreases |b|
  {
    hide Started;
    NoneStarted([], path);
    if b == [] {
      assert a + b == a;
    } else {
      var init, last := b[..|b| - 1], b[|b| - 1];
      StartedConcat(a, init, path);
      assert a + b == (a + init) + [last] && b == init + [last];
      StartedSnoc(a + init, last, path);
      StartedSnoc(init, last, path);
    }
  }

  lemma {:induction false} TalliedStarted(y: Tally, t: seq<Action>, path: seq<string>)
    ensures Tallied(y, t, path).own.kids.started == y.own.kids.started + Started(t, path)
    decreases |t|
  {
    hide Count;
    if t != [] {
      TalliedStarted(y, t[..|t| - 1], path);
      CountStarted(Tallied(y, t[..|t| - 1], path), t[|t| - 1], path);
    }
  }

  lemma CountStarted(y: Tally, a: Action, path: seq<string>)
    ensures Count(y, a, path).own.kids.started
            == if a.Emit? && a.path == path && a.event.SubagentStarted? then y.own.kids.started + [a.event.agent]
               else y.own.kids.started
  {
    hide Sendable;
  }

  /** Every subagent is named after the delegation that started it, and no delegation starts two. */
  predicate Numbered(scope: Option<string>, kids: Kids)
  {
    && |kids.numbers| == |kids.started|
    && (forall i :: 0 <= i < |kids.numbers| ==> kids.numbers[i] <= kids.delegated)
    && (forall i, j :: 0 <= i < j < |kids.numbers| ==> kids.numbers[i] < kids.numbers[j])
    && (forall i :: 0 <= i < |kids.started| ==> kids.started[i] == DelegateScope(scope, kids.numbers[i]))
  }

  /** A delegation not yet used gives a subagent a name of its own. */
  lemma NumberedNext(scope: Option<string>, kids: Kids)
    requires Numbered(scope, kids)
    requires forall i :: 0 <= i < |kids.numbers| ==> kids.numbers[i] < kids.delegated
    ensures Numbered(scope, kids.(numbers := kids.numbers + [kids.delegated],
                                  started := kids.started + [DelegateScope(scope, kids.delegated)]))
  {
    hide DelegateScope;
  }

  lemma NumberedDistinct(scope: Option<string>, kids: Kids)
    requires Numbered(scope, kids)
    ensures Distinct(kids.started)
  {
    hide DelegateScope;
    forall i, j | 0 <= i < j < |kids.started|
      ensures kids.started[i] != kids.started[j]
    {
      if kids.started[i] == kids.started[j] {
        DelegateScopeInjective(scope, kids.numbers[i], kids.numbers[j]);
      }
    }
  }

  /** What every agent promises about its own events, however its turn ends: the ids it announces are those
      its scope and the provider's ids give, none twice; they are closed in the order announced, none twice;
      calls are charged in the order announced, those within the per-response limit and no others; nudges
      stay within the limit; there is at most one abort; and its subagents are numbered. */
  ghost predicate AgentKept(y: Own, scope: Option<string>, limits: Limits)
  {
    && Distinct(y.asked.requested) && Renamed(scope, Ids(y.asked.received), y.asked.requested)
    && ScopedCopies(y.asked.received, y.asked.announced) && Ids(y.asked.announced) == y.asked.requested
    && y.closed <= y.asked.requested
    && y.charged <= Due(y.spoken, y.asked.requested, limits.toolCallsPerResponse)
    && y.nudges <= limits.autoContinues && y.aborts <= 1
    && Numbered(scope, y.kids)
  }

  predicate FinishedAt(a: Action, path: seq<string>, name: string)
  {
    a.Emit? && a.path == path && a.event.SubagentFinished? && a.event.agent == name
  }

  /** The outcome told to the parent is true: a subagent that did not fail closed every id, and one that
      completed charged every call that was due. */
  predicate OutcomeTold(outcome: string, y: Own, limits: Limits)
  {
    && (outcome == "completed" || outcome == "aborted" ==> y.closed == y.asked.requested)
    && (outcome == "completed" ==> y.charged == Due(y.spoken, y.asked.requested, limits.toolCallsPerResponse))
    && (outcome == "aborted" <==> y.aborts == 1)
  }

  ghost predicate ChildKept(t: seq<Action>, path: seq<string>, name: string, limits: Limits)
  {
    var y := Tallied(FRESH, t, path + [name]).own;
    && AgentKept(y, Some(name), limits)
    && forall k :: 0 <= k < |t| && FinishedAt(t[k], path, name) ==> OutcomeTold(t[k].event.outcome, y, limits)
  }

  /** An action of the agent itself or of one of the named subagents. */
  predicate Belongs(a: Action, path: seq<string>, names: seq<string>)
  {
    if a.path == path then a.Emit? && a.event.SubagentFinished? ==> a.event.agent in names
    else |a.path| == |path| + 1 && path <= a.path && a.path[|path|] in names
  }

  predicate AllBelong(t: seq<Action>, path: seq<string>)
  {
    forall k :: 0 <= k < |t| ==> Belongs(t[k], path, Started(t, path))
  }

  /** Every action is accounted for, and, when names are not used twice, every subagent kept its promises. */
  ghost predicate Families(t: seq<Action>, path: seq<string>, limits: Limits)
  {
    && AllBelong(t, path)
    && (Distinct(Started(t, path)) ==>
          forall name :: name in Started(t, path) ==> ChildKept(t, path, name, limits))
  }

  lemma AllBelongConcat(a: seq<Action>, b: seq<Action>, path: seq<string>)
    requires AllBelong(a, path) && AllBelong(b, path)
    ensures AllBelong(a + b, path)
  {
    hide Started;
    StartedConcat(a, b, path);
    forall k | 0 <= k < |a + b|
      ensures Belongs((a + b)[k], path, Started(a + b, path))
    {
      if k < |a| {
        assert Belongs(a[k], path, Started(a, path));
      } else {
        assert Belongs(b[k - |a|], path, Started(b, path));
      }
    }
  }

  /** A name that was not started in a run does nothing in it. */
  lemma NotStartedAbsent(t: seq<Action>, path: seq<string>, name: string)
    requires AllBelong(t, path) && name !in Started(t, path)
    ensures Absent(t, path + [name])
    ensures forall k :: 0 <= k < |t| ==> !FinishedAt(t[k], path, name)
  {
    hide Started;
    forall k | 0 <= k < |t|
      ensures t[k].path != path + [name] && !FinishedAt(t[k], path, name)
    {
      assert Belongs(t[k], path, Started(t, path));
    }
  }

  lemma ChildKeptConcat(a: seq<Action>, b: seq<Action>, path: seq<string>, name: string, limits: Limits)
    requires AllBelong(a, path) && AllBelong(b, path)
    requires if name in Started(a, path) then name !in Started(b, path) && ChildKept(a, path, name, limits)
             else name in Started(b, path) && ChildKept(b, path, name, limits)
    ensures ChildKept(a + b, path, name, limits)
  {
    hide Tallied, Started, AllBelong, AgentKept, Absent, Due;
    var t, here := a + b, name in Started(a, path);
    var part := if here then a else b;
    NotStartedAbsent(if here then b else a, path, name);
    OwnOfHalf(a, b, path + [name]);
    var y := Tallied(FRESH, part, path + [name]).own;
    assert Tallied(FRESH, t, path + [name]).own == y;
    forall k | 0 <= k < |t| && FinishedAt(t[k], path, name)
      ensures OutcomeTold(t[k].event.outcome, y, limits)
    {
      assert if here then k < |a| && t[k] == a[k] else k >= |a| && t[k] == b[k - |a|];
    }
  }

  lemma DistinctHalves(a: seq<string>, b: seq<string>)
    requires Distinct(a + b)
    ensures Distinct(a) && Distinct(b)
    ensures forall x :: x in a ==> x !in b
  {
    assert forall i :: 0 <= i < |a| ==> (a + b)[i] == a[i];
    assert forall i :: 0 <= i < |b| ==> (a + b)[|a| + i] == b[i];
  }

  lemma FamiliesConcat(a: seq<Action>, b: seq<Action>, path: seq<string>, limits: Limits)
    requires Families(a, path, limits) && Families(b, path, limits)
    ensures Families(a + b, path, limits)
  {
    hide Started, AllBelong, ChildKept, Distinct;
    AllBelongConcat(a, b, path);
    StartedConcat(a, b, path);
    if Distinct(Started(a + b, path)) {
      DistinctHalves(Started(a, path), Started(b, path));
      forall name | name in Started(a + b, path)
        ensures ChildKept(a + b, path, name, limits)
      {
        ChildKeptConcat(a, b, path, name, limits);
      }
    }
  }

  /** Actions of one agent that involve no subagent. */
  predicate Alone(t: seq<Action>, path: seq<string>)
  {
    forall k :: 0 <= k < |t| ==>
      t[k].path == path && (t[k].Emit? ==> !t[k].event.SubagentStarted? && !t[k].event.SubagentFinished?)
  }

  predicate StartsNone(t: seq<Action>, path: seq<string>)
  {
    forall k :: 0 <= k < |t| && t[k].path == path && t[k].Emit? ==> !t[k].event.SubagentStarted?
  }

  lemma {:induction false} NoneStarted(t: seq<Action>, path: seq<string>)
    requires StartsNone(t, path)
    ensures Started(t, path) == []
  {
    if t != [] {
      assert forall k :: 0 <= k < |t| - 1 ==> t[..|t| - 1][k] == t[k];
      NoneStarted(t[..|t| - 1], path);
    }
  }

  lemma AloneFamilies(t: seq<Action>, path: seq<string>, limits: Limits)
    requires Alone(t, path)
    ensures Families(t, path, limits)
  {
    hide ChildKept, Started;
    NoneStarted(t, path);
  }

  /** A subagent's run between the events that announce and report it. */
  lemma DelegationFamilies(
    path: seq<string>, name: string, started: Action, inner: seq<Action>, looks: seq<Action>, finished: Action,
    limits: Limits)
    requires started.Emit? && started.path == path && started.event.SubagentStarted? && started.event.agent == name
    requires FinishedAt(finished, path, name)
    requires looks == [] || (|looks| == 1 && looks[0].Look? && looks[0].path == path)
    requires Within(inner, path + [name], false)
    requires AgentKept(Tallied(FRESH, inner, path + [name]).own, Some(name), limits)
    requires OutcomeTold(finished.event.outcome, Tallied(FRESH, inner, path + [name]).own, limits)
    ensures Families([started] + inner + (looks + [finished]), path, limits)
    ensures SameOwn(Tallied(FRESH, inner, path + [name]),
                    Tallied(FRESH, [started] + inner + (looks + [finished]), path + [name]))
  {
    hide Tallied, AgentKept, Started, Distinct, Due;
    var child, last := path + [name], looks + [finished];
    var t := [started] + inner + last;
    DelegationStarted(path, started, inner, last);
    assert Absent([started], child) && Absent(last, child);
    OwnOfHalf([started], inner, child);
    OwnOfHalf([started] + inner, last, child);
    forall k | 0 <= k < |t|
      ensures Belongs(t[k], path, [name]) && (FinishedAt(t[k], path, name) ==> t[k] == finished)
    {
      if 0 < k <= |inner| { assert t[k] == inner[k - 1]; }
    }
    assert ChildKept(t, path, name, limits);
  }

  lemma DelegationStarted(path: seq<string>, started: Action, inner: seq<Action>, last: seq<Action>)
    requires started.Emit? && started.path == path && started.event.SubagentStarted?
    requires StartsNone(inner, path) && StartsNone(last, path)
    ensures Started([started] + inner + last, path) == [started.event.agent]
  {
    assert [] + [started] == [started];
    StartedSnoc([], started, path);
    NoneStarted(inner, path);
    NoneStarted(last, path);
    StartedConcat([started], inner, path);
    StartedConcat([started] + inner, last, path);
  }
}
