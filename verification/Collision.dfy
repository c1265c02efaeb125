/** A scripted turn in which the root and its subagent announce the same id. */
module Collisions {
  import opened Wrappers
  import opened Text
  import opened Transcript
  import opened Compaction
  import opened ApprovalPolicies
  import opened Tools
  import opened CallIdentifiers
  import opened Traces
  import opened Orders
  import opened Worlds
  import opened Agents
  import opened Turns
  import opened Engine
  import opened Sessions

  const TASK_CALL: ToolCall := ToolCall("d", "delegate_task", Json([], map["task" := "go"]))
  const ROOT_CALL: ToolCall := ToolCall("delegate-1/x", RUN_SHELL, Json([], map[]))
  const CHILD_CALL: ToolCall := ToolCall("x", RUN_SHELL, Json([], map[]))

  /** A delegation, and two calls whose ids differ by the scope of the first subagent. */
  const REPLY: Response := Response([], [TASK_CALL, ROOT_CALL, CHILD_CALL], None, false)

  /** A provider that answers everyone alike; nobody cancels or denies, and no time runs out. */
  function RepeatingScript(): Script
  {
    Script(
      m => Responded(REPLY),
      m => [],
      m => false,
      m => false,
      m => Approve,
      m => Other,
      m => Ok("done"),
      m => false)
  }

  /** More than one request and one call. */
  const ROOMY: Limits := Limits(9, 9, 9, 0)

  /** A policy without rules or compaction that lets the agent delegate. */
  function DelegatingPolicy(split: Splitter, markers: Markers, texts: Texts): TurnPolicy
  {
    TurnPolicy(Auto, ApprovalRules(Policy([], None, []), None), split, Compactor(None, markers),
               {RunShell, DelegateTask}, None, texts)
  }

  function CollidingInput(split: Splitter, markers: Markers, texts: Texts, message: string): TurnInput
  {
    TurnInput(DelegatingPolicy(split, markers, texts), ROOMY, RepeatingScript(), message)
  }

  // ----- What such a world tells -----

  /** The run is true to the script and has not used up what it may. */
  ghost predicate Roomy(t: seq<Action>, clock: nat)
  {
    Truthful(t, RepeatingScript(), ROOMY, clock)
  }

  lemma Hears(t: seq<Action>, clock: nat, k: nat)
    requires Roomy(t, clock) && k < |t|
    ensures t[k].Receive? ==> t[k].outcome == Responded(REPLY)
    ensures t[k].Check? ==> !t[k].cancelled
    ensures t[k].Exhaust? ==> Reserved(t[..k]) == 9 || Charged(t[..k]) == 9
  {
    hide Reserved, Charged;
    assert TrueAfter(t[..k], t[k], RepeatingScript(), ROOMY, clock);
  }

  /** Actions that use no budget and start no subagent. */
  predicate Idle(a: Action)
  {
    !a.Reserve? && !a.Charge? && !a.Dispatch? && !(a.Emit? && a.event.SubagentStarted?)
  }

  lemma {:induction false} IdleKeeps(t: seq<Action>, i: nat, j: nat)
    requires i <= j <= |t| && forall k :: i <= k < j ==> Idle(t[k])
    ensures Reserved(t[..j]) == Reserved(t[..i]) && Charged(t[..j]) == Charged(t[..i])
    ensures Tallied(FRESH, t[..j], []).own.kids == Tallied(FRESH, t[..i], []).own.kids
  {
    hide Tallied, Count, Reserved, Charged;
    if i < j {
      IdleKeeps(t, i, j - 1);
      assert t[..j] == t[..j - 1] + [t[j - 1]];
      CountedMore(t[..j - 1], t[j - 1]);
      TalliedSnoc(FRESH, t[..j - 1], t[j - 1], []);
      CountKids(Tallied(FRESH, t[..j - 1], []), t[j - 1]);
    }
  }

  lemma CountKids(y: Tally, a: Action)
    ensures Idle(a) ==> Count(y, a, []).own.kids == y.own.kids
    ensures y.own.kids.numbers <= Count(y, a, []).own.kids.numbers
    ensures y.own.kids.started <= Count(y, a, []).own.kids.started
  {
    hide Sendable;
  }

  lemma {:induction false} KidsGrow(t: seq<Action>, k: nat)
    requires k <= |t|
    ensures Tallied(FRESH, t[..k], []).own.kids.numbers <= Tallied(FRESH, t, []).own.kids.numbers
    ensures Tallied(FRESH, t[..k], []).own.kids.started <= Tallied(FRESH, t, []).own.kids.started
    decreases |t|
  {
    hide Tallied, Count;
    if k == |t| {
      assert t[..k] == t;
    } else {
      var init, last := t[..|t| - 1], t[|t| - 1];
      assert init[..k] == t[..k] && t == init + [last];
      KidsGrow(init, k);
      TalliedSnoc(FRESH, init, last, []);
      CountKids(Tallied(FRESH, init, []), last);
    }
  }

  // ----- What every agent asks for -----

  /** Every agent that hears the provider asks for the same calls first. */
  lemma {:induction false} ReceivedFirst(t: seq<Action>, path: seq<string>)
    requires forall k :: 0 <= k < |t| && t[k].Receive? ==> t[k].outcome == Responded(REPLY)
    ensures var received := Tallied(FRESH, t, path).own.asked.received;
            && (received == [] || REPLY.toolCalls <= received)
            && ((exists k :: 0 <= k < |t| && t[k].Receive? && t[k].path == path) ==> received != [])
    decreases |t|
  {
    hide Count;
    if t != [] {
      var init, last := t[..|t| - 1], t[|t| - 1];
      assert forall k :: 0 <= k < |init| ==> init[k] == t[k];
      ReceivedFirst(init, path);
      CountReceived(Tallied(FRESH, init, path), last, path);
    }
  }

  lemma CountReceived(y: Tally, a: Action, path: seq<string>)
    ensures Count(y, a, path).own.asked.received
            == if a.Receive? && a.path == path && a.outcome.Responded? then
                 y.own.asked.received + a.outcome.response.toolCalls
               else y.own.asked.received
  {
    hide Sendable;
  }

  /** The ids these calls get: none of them has to be changed. */
  lemma FirstIds(scope: Option<string>, received: seq<ToolCall>, requested: seq<string>)
    requires REPLY.toolCalls <= received && Renamed(scope, Ids(received), requested)
    ensures |requested| >= 3 && requested[1] == Scoped(scope, "delegate-1/x") && requested[2] == Scoped(scope, "x")
  {
    hide Scoped;
    var ids := Ids(received);
    var raws :| Disambiguated(ids, raws) && requested == ScopedAll(scope, raws);
    assert received[0] == TASK_CALL && received[1] == ROOT_CALL && received[2] == CHILD_CALL;
    assert raws[..0] == [] && Disambiguates(Members(raws[..0]), ids[0], raws[0]);
    assert raws[..1] == ["d"] && Disambiguates(Members(raws[..1]), ids[1], raws[1]);
    assert raws[..2] == ["d", "delegate-1/x"] && Disambiguates(Members(raws[..2]), ids[2], raws[2]);
  }

  /** Every id an agent issued was announced. */
  lemma {:induction false} IssuedIsAnnounced(t: seq<Action>, path: seq<string>, n: nat) returns (k: nat)
    requires n < |Tallied(FRESH, t, path).own.asked.requested|
    ensures k < |t| && IsAnnouncement(t[k]) && t[k].path == path
    ensures t[k].event.call.id == Tallied(FRESH, t, path).own.asked.requested[n]
    decreases |t|
  {
    hide Count;
    var init, last := t[..|t| - 1], t[|t| - 1];
    var y := Tallied(FRESH, init, path);
    CountRequested(y, last, path);
    if n < |y.own.asked.requested| {
      k := IssuedIsAnnounced(init, path, n);
    } else {
      k := |t| - 1;
    }
  }

  lemma CountRequested(y: Tally, a: Action, path: seq<string>)
    ensures Count(y, a, path).own.asked.requested
            == if IsAnnouncement(a) && a.path == path then y.own.asked.requested + [a.event.call.id]
               else y.own.asked.requested
  {
    hide Sendable;
  }

  // ----- How the turn goes -----

  /** The first request is answered, announced, and its first call charged. */
  lemma FirstCharged(t: seq<Action>, law: Law, clock: nat) returns (p: nat)
    requires Orderly(t, law) && Roomy(t, clock) && law.perResponse == 9
    requires |t| >= 3 && t[0] == Reserve([]) && t[1].Send? && t[2] == Receive([], Responded(REPLY))
    ensures 2 < p < |t| && t[p].Charge? && t[p].path == [] && t[p].call == TASK_CALL.(id := t[p].call.id)
    ensures forall k :: 1 <= k < p ==> Idle(t[k])
  {
    hide *;
    var w, c := ReceivedIsAnnounced(t, law, 2);
    PartAt(t, 2, w);
    Announced(w, c);
    assert t[2 + (5 + c)] == w[5 + c];
    Hears(t, clock, 7 + c);
    p := 8 + c;
    assert t[2 + (6 + c)] == w[6 + c];
    SentIsIdle(t[1]);
    forall k | 1 <= k < p
      ensures Idle(t[k])
    {
      if k >= 2 { assert t[2 + (k - 2)] == w[k - 2]; }
    }
    Hears(t, clock, p);
    IdleKeeps(t, 1, p);
    CountOne(t);
  }

  lemma SentIsIdle(a: Action)
    requires a.Send?
    ensures Idle(a)
  {
  }

  /** The announcement of the reply, up to its first charge. */
  lemma Announced(w: seq<Action>, c: nat)
    requires w != [] && w[0] == Receive([], Responded(REPLY)) && c <= 1 && AnnounceForm(w, [], REPLY, c, 9)
    ensures |w| > 5 + c && w[5 + c].Check? && forall i :: 0 <= i < 6 + c ==> Idle(w[i])
    ensures !w[5 + c].cancelled ==>
              && |w| > 6 + c && w[6 + c].path == []
              && (w[6 + c].Exhaust? || (w[6 + c].Charge? && w[6 + c].call == TASK_CALL.(id := w[6 + c].call.id)))
  {
    hide TurnsToCalls, Idle;
    assert |REPLY.toolCalls| == 3 && REPLY.toolCalls[0] == TASK_CALL;
    assert Announces(w[2 + c + 0], [], REPLY.toolCalls[0]) && Announces(w[2 + c + 1], [], REPLY.toolCalls[1]);
    assert Announces(w[2 + c + 2], [], REPLY.toolCalls[2]);
    TurnsToFirst(w, 5 + c, w[2 + c].event.call);
    EmitsIdle(w, c);
  }

  lemma TurnsToFirst(w: seq<Action>, k: nat, call: ToolCall)
    requires k < |w| && TurnsToCalls(w[k..], [], call, 0, 9)
    ensures w[k].Check? && w[k].path == []
    ensures !w[k].cancelled ==>
              && |w| > k + 1 && w[k + 1].path == []
              && (w[k + 1].Exhaust? || (w[k + 1].Charge? && w[k + 1].call == call))
  {
    var rest := w[k..];
    assert rest[0] == w[k];
    if !rest[0].cancelled {
      assert rest[1] == w[k + 1];
    }
  }

  lemma EmitsIdle(w: seq<Action>, c: nat)
    requires c <= 1 && |w| > 5 + c && w[0].Receive? && w[5 + c].Check?
    requires c == 1 ==> w[1].Emit? && w[1].event.HistoryCompacted?
    requires w[1 + c].Emit? && w[1 + c].event.AgentResponse?
    requires forall i :: 2 + c <= i < 5 + c ==> w[i].Emit? && w[i].event.ToolRequested?
    ensures forall i :: 0 <= i < 6 + c ==> Idle(w[i])
  {
  }

  lemma CountOne(t: seq<Action>)
    requires t != [] && t[0].Reserve?
    ensures Reserved(t[..1]) == 1 && Charged(t[..1]) == 0
  {
    assert t[..1] == [t[0]] && [t[0]][..0] == [];
  }

  /** Nothing keeps a delegation from running under an open policy. */
  lemma OpenPolicyDelegates(
    split: Splitter, markers: Markers, texts: Texts, call: ToolCall, preparation: Preparation)
    requires preparation.Other?
    ensures var law := LawOf(Agent(DelegatingPolicy(split, markers, texts), []), ROOMY);
            PolicyDecision(law, call.(name := "delegate_task"), DelegateTask, preparation) == Run
  {
    var facts := Facts(call.(name := "delegate_task"), DelegateTask, preparation);
    var policy := DelegatingPolicy(split, markers, texts).rules.base;
    assert !policy.DeniesShellByPattern() && !AnyDenies(policy.denied, split, facts);
    assert policy.Decide(split, facts, Auto, true) == Run;
  }

  /** The charged delegation is approved and dispatched, and its subagent begins. */
  lemma FirstDelegated(
    t: seq<Action>, split: Splitter, markers: Markers, texts: Texts, clock: nat, p: nat) returns (name: string)
    requires Orderly(t, LawOf(Agent(DelegatingPolicy(split, markers, texts), []), ROOMY)) && Roomy(t, clock)
    requires p < |t| && t[p].Charge? && t[p].path == [] && t[p].call == TASK_CALL.(id := t[p].call.id)
    requires t[p].tools == {RunShell, DelegateTask}
    ensures |t| > p + 6 && Idle(t[p + 1]) && Idle(t[p + 2]) && Idle(t[p + 3])
    ensures t[p + 4].Dispatch? && t[p + 4].path == [] && t[p + 4].tool == DelegateTask
    ensures Begins(t, p + 5, name)
  {
    hide Roomy, LawOf, PolicyDecision, Orderly, Follows, Decided, Idle, Begins, Evaluated, PreparedFor;
    var law, call := LawOf(Agent(DelegatingPolicy(split, markers, texts), []), ROOMY), t[p].call;
    ChargedIsDecided(t, law, p);
    assert Get(t[p].tools, call.name) == Some(DelegateTask);
    var e, tools := DecidedAt(t, law, p + 1);
    DelegationOpens(law, call, tools, e);
    PreparedForDelegation(e);
    OpenPolicyDelegates(split, markers, texts, call, e.preparation);
    assert call.(name := "delegate_task") == call;
    var w := Decided(law, [], call, tools, e) + e.rest;
    PartAt(t, p + 1, w);
    assert w[0] == t[p + 1] && w[2] == t[p + 3];
    Hears(t, clock, p + 3);
    name := DelegationRuns(law, call, tools, e);
    BeginsAt(t, p + 1, w, 4, name);
    assert w[1] == t[p + 2] && w[3] == t[p + 4];
  }

  /** A subagent is announced at `k` and then takes its first step. */
  predicate Begins(t: seq<Action>, k: nat, name: string)
  {
    && |t| > k + 1
    && t[k].Emit? && t[k].path == [] && t[k].event.SubagentStarted? && t[k].event.agent == name
    && t[k + 1].path == [name] && (t[k + 1].Reserve? || t[k + 1].Exhaust?)
  }

  lemma BeginsAt(t: seq<Action>, k: nat, w: seq<Action>, i: nat, name: string)
    requires StartsAt(t, k, w) && Begins(w, i, name)
    ensures Begins(t, k + i, name)
  {
    PartAt(t, k, w);
    assert t[k + i] == w[i] && t[k + (i + 1)] == w[i + 1];
  }

  lemma PreparedForDelegation(e: Course)
    requires PreparedFor(e.tool, e.preparation) && e.tool == DelegateTask
    ensures e.preparation.Other?
  {
  }

  /** A decided call begins with its decision; when that is to run it, the flag is looked at third. */
  lemma DelegationOpens(law: Law, call: ToolCall, tools: ToolSet, e: Course)
    ensures var w, decision := Decided(law, [], call, tools, e) + e.rest,
            PolicyDecision(law, call, e.tool, e.preparation);
            && |w| >= 3 && w[0] == Decide([], call, e.tool, e.preparation, decision)
            && (decision == Run ==> w[2] == Check([], e.cancelled))
  {
    hide PolicyDecision;
  }

  lemma DelegationRuns(law: Law, call: ToolCall, tools: ToolSet, e: Course) returns (name: string)
    requires Follows(law, [], call, tools, e) && call == TASK_CALL.(id := call.id) && e.tool == DelegateTask
    requires PolicyDecision(law, call, e.tool, e.preparation) == Run && !e.cancelled
    ensures var w := Decided(law, [], call, tools, e) + e.rest;
            && |w| > 3 && Idle(w[0]) && Idle(w[1]) && Idle(w[2])
            && w[3] == Dispatch([], call, e.tool, e.preparation, tools) && Begins(w, 4, name)
  {
    hide PolicyDecision, Concludes, Tallied, Told, Truncate, Carries;
    var w := Decided(law, [], call, tools, e) + e.rest;
    assert RequestedTools(call).Some? by {
      assert Trim("go") == "go";
    }
    assert |Evaluated(law, [], call, e)| == 3;
    assert w[4] == e.work[0] && w[5] == e.work[1];
    name := e.work[0].event.agent;
    assert [] + [name] == [name];
  }

  /** The first subagent of an agent without a scope, and when it begins. */
  lemma FirstChild(t: seq<Action>, clock: nat, p: nat, name: string, kids: Kids)
    requires Roomy(t, clock) && 2 < p && |t| > p + 6 && t[0].Reserve?
    requires forall k :: 1 <= k < p ==> Idle(t[k])
    requires t[p].Charge? && Idle(t[p + 1]) && Idle(t[p + 2]) && Idle(t[p + 3])
    requires t[p + 4].Dispatch? && t[p + 4].path == [] && t[p + 4].tool == DelegateTask && Begins(t, p + 5, name)
    requires kids == Tallied(FRESH, t, []).own.kids && Numbered(None, kids)
    ensures name == "delegate-1" && t[p + 6].Reserve? && t[p + 6].path == [name]
  {
    hide Roomy, Tallied, Reserved, Charged, Count, DelegateScope, Idle, Numbered;
    Spent(t, p);
    Hears(t, clock, p + 6);
    CountDelegation(Tallied(FRESH, t[..p + 4], []), t[p + 4]);
    CountDelegation(Tallied(FRESH, t[..p + 5], []), t[p + 5]);
    Next(t, p + 4);
    Next(t, p + 5);
    KidsGrow(t, p + 6);
    FirstNumbered(kids, Tallied(FRESH, t[..p + 6], []).own.kids, name);
  }

  /** What was used before the delegation is dispatched: one request and one call, and no subagent. */
  lemma Spent(t: seq<Action>, p: nat)
    requires 2 < p && |t| > p + 4 && t[0].Reserve? && forall k :: 1 <= k < p ==> Idle(t[k])
    requires t[p].Charge? && Idle(t[p + 1]) && Idle(t[p + 2]) && Idle(t[p + 3])
    ensures Reserved(t[..p + 4]) == 1 && Charged(t[..p + 4]) == 1
    ensures Tallied(FRESH, t[..p + 4], []).own.kids == NO_KIDS
  {
    hide Tallied, Reserved, Charged, Count, Idle;
    CountOne(t);
    KidsOfOne(t);
    IdleKeeps(t, 1, p);
    Next(t, p);
    CountDelegation(Tallied(FRESH, t[..p], []), t[p]);
    IdleKeeps(t, p + 1, p + 4);
  }

  lemma FirstNumbered(kids: Kids, begun: Kids, name: string)
    requires Numbered(None, kids) && begun == Kids(1, [1], [name])
    requires begun.numbers <= kids.numbers && begun.started <= kids.started
    ensures name == "delegate-1"
  {
    hide DelegateScope;
    assert kids.numbers[0] == begun.numbers[0] && kids.started[0] == begun.started[0];
    FirstScope();
  }

  lemma CountDelegation(y: Tally, a: Action)
    ensures var kids := y.own.kids;
            && (a.Charge? ==> Count(y, a, []).own.kids == kids)
            && (a.Dispatch? && a.path == [] && a.tool == DelegateTask ==>
                  Count(y, a, []).own.kids == kids.(delegated := kids.delegated + 1))
            && (a.Emit? && a.path == [] && a.event.SubagentStarted? ==>
                  Count(y, a, []).own.kids == kids.(numbers := kids.numbers + [kids.delegated],
                                                    started := kids.started + [a.event.agent]))
  {
    hide Sendable;
  }

  lemma Next(t: seq<Action>, k: nat)
    requires k < |t|
    ensures Reserved(t[..k + 1]) == Reserved(t[..k]) + (if t[k].Reserve? then 1 else 0)
    ensures Charged(t[..k + 1]) == Charged(t[..k]) + (if t[k].Charge? then 1 else 0)
    ensures Tallied(FRESH, t[..k + 1], []) == Count(Tallied(FRESH, t[..k], []), t[k], [])
  {
    hide Reserved, Charged, Tallied;
    assert t[..k + 1] == t[..k] + [t[k]];
    CountedMore(t[..k], t[k]);
    TalliedSnoc(FRESH, t[..k], t[k], []);
  }

  lemma KidsOfOne(t: seq<Action>)
    requires t != [] && t[0].Reserve?
    ensures Tallied(FRESH, t[..1], []).own.kids == NO_KIDS
  {
    hide Tallied;
    assert t[..1] == [t[0]];
    TalliedOne(FRESH, t[0], []);
  }

  lemma FirstScope()
    ensures DelegateScope(None, 1) == "delegate-1"
  {
    assert Decimal(1) == "1";
  }

  /** A reserved request is received. */
  lemma ReservedIsReceived(t: seq<Action>, law: Law, k: nat)
    requires Orderly(t, law) && k < |t| && t[k].Reserve?
    ensures k + 2 < |t| && t[k + 2].Receive? && t[k + 2].path == t[k].path
  {
    assert LawAt(t, k, law);
    var b: nat, w: seq<Action> :| LawBy(t, k, law, b, w);
    assert w[b] == t[k] && t[k + 2] == w[2];
  }

  // ----- The collision -----

  /** The root and its first subagent announce the same id. */
  predicate Collides(t: seq<Action>)
  {
    exists i, j ::
      && 0 <= i < |t| && 0 <= j < |t| && IsAnnouncement(t[i]) && IsAnnouncement(t[j])
      && t[i].path == [] && t[j].path == ["delegate-1"]
      && t[i].event.call.id == "delegate-1/x" == t[j].event.call.id
  }

  lemma NotApart(t: seq<Action>)
    requires Collides(t)
    ensures !IdsApart(t)
  {
  }

  /** An agent that heard the reply announced these ids. */
  lemma AnnouncedFirst(t: seq<Action>, clock: nat, path: seq<string>, scope: Option<string>, limits: Limits, k: nat)
    returns (i: nat, j: nat)
    requires Roomy(t, clock) && k < |t| && t[k].Receive? && t[k].path == path
    requires AgentKept(Tallied(FRESH, t, path).own, scope, limits)
    ensures i < |t| && IsAnnouncement(t[i]) && t[i].path == path && t[i].event.call.id == Scoped(scope, "delegate-1/x")
    ensures j < |t| && IsAnnouncement(t[j]) && t[j].path == path && t[j].event.call.id == Scoped(scope, "x")
  {
    hide Roomy, Tallied, Numbered, Due, ScopedCopies, Renamed;
    forall m | 0 <= m < |t| && t[m].Receive?
      ensures t[m].outcome == Responded(REPLY)
    {
      Hears(t, clock, m);
    }
    ReceivedFirst(t, path);
    var asked := Tallied(FRESH, t, path).own.asked;
    FirstIds(scope, asked.received, asked.requested);
    i := IssuedIsAnnounced(t, path, 1);
    j := IssuedIsAnnounced(t, path, 2);
  }

  /** Every turn that honours this input has a collision: scopes alone do not keep agents apart. */
  lemma CollidingRun(record: TurnRecord, split: Splitter, markers: Markers, texts: Texts, message: string)
    requires record.Honours(CollidingInput(split, markers, texts, message))
    ensures Collides(record.actions)
  {
    hide Ended, Tallied, Played, Caused, AgentKept, Orderly, Within, Families, Roomy, LawOf, Numbered, RequestFor,
         Truthful, Reserved, Charged, OnTime, Idle, Begins, Distinct;
    var input := CollidingInput(split, markers, texts, message);
    var rounds := HonouredBy(record, input);
    var t, agent, clock := record.actions, Agent(input.policy, []), rounds[|rounds| - 1].clock;
    LawFacts(agent, ROOMY);
    RequestIsSend(agent, record.before + [UserMessage(message)]);
    assert Roomy(t, clock) by { RoomyIf(t, clock); }
    var p := FirstCharged(t, LawOf(agent, ROOMY), clock);
    assert Carries(t[p], agent.policy.tools);
    var name := FirstDelegated(t, split, markers, texts, clock, p);
    StartedDistinct(agent, record, input, rounds);
    FirstChild(t, clock, p, name, Tallied(FRESH, t, []).own.kids);
    ReservedIsReceived(t, LawOf(agent, ROOMY), p + 6);
    EveryAgentKept(record, input, 2);
    EveryAgentKept(record, input, p + 8);
    var i, _ := AnnouncedFirst(t, clock, [], None, ROOMY, 2);
    var _, j := AnnouncedFirst(t, clock, [name], Some(name), ROOMY, p + 8);
    RootIdCanCollide();
    FirstScope();
  }

  lemma RoomyIf(t: seq<Action>, clock: nat)
    requires Truthful(t, RepeatingScript(), ROOMY, clock)
    ensures Roomy(t, clock)
  {
  }

  /** Such a turn exists, after any transcript: one in which no two of its announced ids need be distinct. */
  method CollidingTurn(before: seq<Message>, split: Splitter, markers: Markers, texts: Texts, message: string)
    returns (history: seq<Message>, record: TurnRecord)
    ensures record.before == before && record.after == history
    ensures record.Honours(CollidingInput(split, markers, texts, message))
    ensures Collides(record.actions) && !IdsApart(record.actions)
  {
    hide *;
    history, record := RunRootTurn(before, CollidingInput(split, markers, texts, message));
    CollidingRun(record, split, markers, texts, message);
    NotApart(record.actions);
  }
}
