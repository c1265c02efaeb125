/** The state of a turn, what each step keeps of it, and what a finished turn leaves. */
module Turns {
  import opened Wrappers
  import opened Text
  import opened Transcript
  import opened Merging
  import opened Compaction
  import opened Retention
  import opened Requests
  import opened ApprovalPolicies
  import opened Tools
  import opened CallIdentifiers
  import opened Traces
  import opened Orders
  import opened Worlds
  import opened Agents

  // ----- A world that does not get in the way -----

  /** Nothing outside gets in the way. */
  ghost predicate Smooth(script: Script)
  {
    forall m: nat :: !script.cancelled(m) && !script.expired(m) && script.approval(m) == Approve
  }

  /** The agent has the tool and its policy never denies the call outright. */
  ghost predicate WouldRun(agent: Agent, limits: Limits, call: ToolCall)
  {
    var tool := Get(agent.policy.tools, call.name);
    tool.Some? && forall id, preparation ::
      PolicyDecision(LawOf(agent, limits), call.(id := id), tool.value, preparation) != Deny
  }

  /** What handling a call up to its result does to the tally. */
  predicate ClosedBy(step: CallStep, id: string, y: Own, z: Own)
  {
    && z.spoken == y.spoken
    && z.charged == (if step.OutOfBudget? then y.charged else y.charged + [id])
    && z.cancelled == (y.cancelled || step.CancelledBefore?)
    && match step
       case UserAborted => z.closed == y.closed + [id]
       case CancelledBefore => z.closed == y.closed || z.closed == y.closed + [id]
       case _ => z.closed == y.closed
  }

  // ----- What is said and what is in the transcript -----

  function LineOf(m: Message): Line
  {
    Line(m.role, m.content, |m.toolCalls|)
  }

  function Lines(h: seq<Message>): (lines: seq<Line>)
    ensures |lines| == |h|
    ensures forall i :: 0 <= i < |h| ==> lines[i] == LineOf(h[i])
  {
    seq(|h|, i requires 0 <= i < |h| => LineOf(h[i]))
  }

  lemma LinesConcat(a: seq<Message>, b: seq<Message>)
    ensures Lines(a + b) == Lines(a) + Lines(b)
  {
  }

  /** The calls the messages ask for, in order. */
  function CallsIn(h: seq<Message>): seq<ToolCall>
  {
    if h == [] then [] else CallsIn(h[..|h| - 1]) + h[|h| - 1].toolCalls
  }

  lemma CallsInSnoc(h: seq<Message>, m: Message)
    ensures CallsIn(h + [m]) == CallsIn(h) + m.toolCalls
  {
    assert (h + [m])[..|h|] == h;
  }

  predicate NoCalls(h: seq<Message>)
  {
    forall i :: 0 <= i < |h| ==> h[i].toolCalls == []
  }

  lemma {:induction false} CallsInSame(h: seq<Message>, more: seq<Message>)
    requires NoCalls(more)
    ensures CallsIn(h + more) == CallsIn(h)
    decreases |more|
  {
    if more == [] {
      assert h + more == h;
    } else {
      var init := more[..|more| - 1];
      CallsInSame(h, init);
      assert h + more == (h + init) + [more[|more| - 1]];
      CallsInSnoc(h + init, more[|more| - 1]);
    }
  }

  lemma {:induction false} StubsSilent(calls: seq<ToolCall>, content: string)
    ensures NoCalls(ResultsFor(calls, content))
  {
    if calls != [] { StubsSilent(calls[1..], content); }
  }

  /** The turn's part of `full` is what was said, and asks for what was announced. */
  predicate Reports(before: seq<Message>, message: string, full: seq<Message>, y: Tally)
  {
    && before + [UserMessage(message)] <= full
    && Lines(full[|before| + 1..]) == y.own.spoken
    && CallsIn(full[|before| + 1..]) == y.own.asked.received
  }

  /** The same, perhaps with stubs for calls not answered and a record after it. */
  predicate Recounts(before: seq<Message>, message: string, full: seq<Message>, y: Tally)
  {
    && before + [UserMessage(message)] <= full
    && y.own.spoken <= Lines(full[|before| + 1..])
    && CallsIn(full[|before| + 1..]) == y.own.asked.received
  }

  predicate RecordEnds(h: seq<Message>)
  {
    h != [] && h[|h| - 1].role == System
  }

  // ----- The tool loop -----

  /** The history a failed turn leaves. */
  function FailedHistory(history: seq<Message>, rollback: seq<Message>, observed: bool, record: string): seq<Message>
  {
    if observed then history + [SystemMessage(record)] else rollback
  }

  /** `history'` continues `history` by answering exactly the pending calls, and perhaps records. */
  predicate Settles(history: seq<Message>, history': seq<Message>, pending: seq<ToolCall>)
  {
    history <= history' && Read(Good(pending, false), history'[|history|..]) == START
  }

  lemma SettledBy(history: seq<Message>, pending: seq<ToolCall>, content: string, record: string)
    requires pending != []
    ensures Settles(history, history + ResultsFor(pending, content), pending)
    ensures Settles(history, history + ResultsFor(pending, content) + [SystemMessage(record)], pending)
  {
    hide Read, ResultsFor;
    var results := ResultsFor(pending, content);
    ReadResults(pending, content);
    assert (history + results)[|history|..] == results;
    var whole := history + results + [SystemMessage(record)];
    assert whole[|history|..] == results + [SystemMessage(record)];
    ReadSnoc(Good(pending, false), results, SystemMessage(record));
  }

  /** Answer one call, then settle the rest. */
  lemma SettledAfter(history: seq<Message>, pending: seq<ToolCall>, result: string, content: string, record: string)
    requires pending != []
    ensures var answered := history + [ToolResult(pending[0], result)];
            && Settles(history, answered + ResultsFor(pending[1..], content), pending)
            && Settles(history, answered + ResultsFor(pending[1..], content) + [SystemMessage(record)], pending)
  {
    hide Read, ResultsFor;
    var m, rest := ToolResult(pending[0], result), ResultsFor(pending[1..], content);
    var answered := history + [m];
    ReadResults(pending[1..], content);
    assert (answered + rest)[|history|..] == [m] + rest;
    assert ([m] + rest)[1..] == rest;
    ReadHead(Good(pending, false), [m] + rest);
    ReadNone(START);
    assert Read(Good(pending, false), [m] + rest) == START;
    var whole := answered + rest + [SystemMessage(record)];
    assert whole[|history|..] == ([m] + rest) + [SystemMessage(record)];
    ReadSnoc(Good(pending, false), [m] + rest, SystemMessage(record));
  }

  lemma ReadSettled(history: seq<Message>, history': seq<Message>, pending: seq<ToolCall>)
    requires Settles(history, history', pending) && Read(START, history) == Good(pending, false)
    ensures Ready(history')
  {
    hide Read;
    assert history' == history + history'[|history|..];
    ReadConcat(START, history, history'[|history|..]);
  }

  /** What was said since `y` is the beginning of what was appended, and no call was. */
  predicate Said(history: seq<Message>, history': seq<Message>, y: Tally, z: Tally)
  {
    && history <= history'
    && y.own.spoken <= z.own.spoken <= y.own.spoken + Lines(history'[|history|..])
    && NoCalls(history'[|history|..])
  }

  lemma ToldBy(history: seq<Message>, more: seq<Message>, y: Tally, z: Tally)
    requires NoCalls(more) && y.own.spoken <= z.own.spoken <= y.own.spoken + Lines(more)
    ensures Said(history, history + more, y, z)
  {
    assert (history + more)[|history|..] == more;
  }

  /** Stubs and a record may follow what was said. */
  lemma ToldStubs(
    history: seq<Message>, said: seq<Message>, calls: seq<ToolCall>, content: string, record: string, y: Tally,
    z: Tally)
    requires NoCalls(said) && z.own.spoken == y.own.spoken + Lines(said)
    ensures Said(history, history + said + ResultsFor(calls, content), y, z)
    ensures Said(history, history + said + ResultsFor(calls, content) + [SystemMessage(record)], y, z)
  {
    hide ResultsFor;
    var stubs, end := ResultsFor(calls, content), [SystemMessage(record)];
    StubsSilent(calls, content);
    LinesConcat(said, stubs);
    LinesConcat(said + stubs, end);
    ToldBy(history, said + stubs, y, z);
    ToldBy(history, said + stubs + end, y, z);
    assert history + said + stubs == history + (said + stubs);
    assert history + said + stubs + end == history + (said + stubs + end);
  }

  /** Nothing was said that asks for calls. */
  predicate Silent(y: Own, z: Own)
  {
    y.spoken <= z.spoken && forall i :: |y.spoken| <= i < |z.spoken| ==> z.spoken[i].calls == 0
  }

  lemma SaidSilently(history: seq<Message>, history': seq<Message>, y: Tally, z: Tally)
    requires Said(history, history', y, z)
    ensures Silent(y.own, z.own)
  {
    var part := history'[|history|..];
    var all := y.own.spoken + Lines(part);
    forall i | |y.own.spoken| <= i < |z.own.spoken|
      ensures z.own.spoken[i].calls == 0
    {
      assert z.own.spoken[i] == all[i] == Lines(part)[i - |y.own.spoken|];
    }
  }

  /** The ways handling calls may end: only the flag, time and the limit on calls make it fail. */
  predicate ToolFlow(flow: Flow)
  {
    match flow
    case Completed => false
    case FailedTurn(error) => error == TurnCancelled || error == Exhausted(WallTime) || error == Exhausted(ToolCalls)
    case _ => true
  }

  /** What handling the calls from one on may do to the transcript and the tally. */
  predicate Handled(
    flow: Flow, history: seq<Message>, history': seq<Message>, rollback: seq<Message>, observed': bool,
    calls: seq<ToolCall>, ids: seq<string>, y: Tally, z: Tally)
    requires calls != [] && |ids| == |calls|
  {
    && z.own.aborts == (if flow.Aborted? then y.own.aborts + 1 else y.own.aborts)
    && Steady(y, z.(own := z.own.(aborts := y.own.aborts, cancelled := y.own.cancelled)))
    && (z.own.cancelled == y.own.cancelled || flow == FailedTurn(TurnCancelled))
    && ToolFlow(flow) && Silent(y.own, z.own)
    && z.own.dispatched == observed'
    && (y.own.dispatched ==> observed')
    && y.own.closed <= z.own.closed <= y.own.closed + ids
    && match flow
       case GoOn =>
         && history <= history' && |history'| == |history| + 1
         && Answers(calls[0], history'[|history|]) && history'[|history|].toolCalls == []
         && z.own.closed == y.own.closed + [ids[0]] && z.own.spoken == y.own.spoken + [LineOf(history'[|history|])]
       case Completed => false
       case Aborted => Settles(history, history', calls) && Said(history, history', y, z)
         && z.own.closed == y.own.closed + ids
       case FailedTurn(_) =>
         if observed' then Settles(history, history', calls) && Said(history, history', y, z) && RecordEnds(history')
         else history' == rollback
  }

  lemma HandledGoOn(
    history: seq<Message>, rollback: seq<Message>, observed: bool, calls: seq<ToolCall>, ids: seq<string>,
    result: string, y: Tally, z: Tally)
    requires calls != [] && |ids| == |calls| && (y.own.dispatched ==> observed)
    requires Steady(y, z) && z.own.dispatched == observed && z.own.closed == y.own.closed
             && z.own.spoken == y.own.spoken
    ensures Handled(GoOn, history, history + [ToolResult(calls[0], result)], rollback, observed, calls, ids, y,
                    z.(own := z.own.(closed := z.own.closed + [ids[0]],
                                     spoken := z.own.spoken + [Line(ToolRole, result, 0)])))
  {
    assert y.own.closed + [ids[0]] <= y.own.closed + ids;
  }

  lemma HandledAborted(
    history: seq<Message>, history': seq<Message>, rollback: seq<Message>, observed: bool, calls: seq<ToolCall>,
    ids: seq<string>, y: Tally, z: Tally)
    requires calls != [] && |ids| == |calls| && (y.own.dispatched ==> observed)
    requires Settles(history, history', calls) && Said(history, history', y, z)
    requires Steady(y, z) && z.own.dispatched == observed && z.own.closed == y.own.closed + [ids[0]]
    ensures Handled(Aborted, history, history', rollback, observed, calls, ids, y,
                    z.(own := z.own.(closed := z.own.closed + ids[1..], aborts := z.own.aborts + 1)))
  {
    hide Settles, Lines, NoCalls;
    SaidSilently(history, history', y, z);
    assert y.own.closed + ids == y.own.closed + [ids[0]] + ids[1..];
  }

  lemma HandledFailed(
    error: TurnError, history: seq<Message>, history': seq<Message>, rollback: seq<Message>, observed: bool,
    record: string, calls: seq<ToolCall>, ids: seq<string>, y: Tally, z: Tally, end: Tally)
    requires calls != [] && |ids| == |calls| && (y.own.dispatched ==> observed)
    requires Settles(history, history' + [SystemMessage(record)], calls)
    requires Said(history, history' + [SystemMessage(record)], y, end)
    requires Steady(y, z.(own := z.own.(cancelled := y.own.cancelled))) && z.own.dispatched == observed
    requires end == z.(own := z.own.(closed := end.own.closed, spoken := end.own.spoken,
                                     cancelled := end.own.cancelled))
    requires y.own.closed <= end.own.closed <= y.own.closed + ids && ToolFlow(FailedTurn(error))
    requires end.own.cancelled == y.own.cancelled || error == TurnCancelled
    ensures Handled(FailedTurn(error), history, FailedHistory(history', rollback, observed, record), rollback,
                    observed, calls, ids, y, end)
  {
    hide Settles, Said;
    SaidSilently(history, history' + [SystemMessage(record)], y, end);
  }

  lemma HandledThrough(
    flow: Flow, history: seq<Message>, history': seq<Message>, rollback: seq<Message>, observed: bool,
    calls: seq<ToolCall>, ids: seq<string>, y: Tally, z: Tally, end: Tally)
    requires calls != [] && |ids| == |calls|
    requires Steady(y, z) && z.own.closed == y.own.closed && z.own.spoken == y.own.spoken
             && z.own.dispatched == observed && (y.own.dispatched ==> observed)
    requires Handled(flow, history, history', rollback, observed, calls, ids, z, end)
    ensures Handled(flow, history, history', rollback, observed, calls, ids, y, end)
  {
    hide Settles, Lines, NoCalls;
  }

  /** Handling all calls of a response: on success every one is answered and closed, in order. */
  predicate AllHandled(
    flow: Flow, history: seq<Message>, history': seq<Message>, rollback: seq<Message>, observed': bool,
    calls: seq<ToolCall>, ids: seq<string>, y: Tally, z: Tally)
  {
    && z.own.aborts == (if flow.Aborted? then y.own.aborts + 1 else y.own.aborts)
    && Steady(y, z.(own := z.own.(aborts := y.own.aborts, cancelled := y.own.cancelled)))
    && (z.own.cancelled == y.own.cancelled || flow == FailedTurn(TurnCancelled))
    && ToolFlow(flow) && Silent(y.own, z.own)
    && z.own.dispatched == observed'
    && (y.own.dispatched ==> observed')
    && y.own.closed <= z.own.closed <= y.own.closed + ids
    && match flow
       case Completed => false
       case FailedTurn(_) =>
         if observed' then Settles(history, history', calls) && Said(history, history', y, z) && RecordEnds(history')
         else history' == rollback
       case _ =>
         && Settles(history, history', calls) && Said(history, history', y, z) && z.own.closed == y.own.closed + ids
         && (flow.GoOn? ==> z.own.spoken == y.own.spoken + Lines(history'[|history|..]))
  }

  /** `done` of the calls are answered in `middle`. */
  predicate PartlyHandled(
    history: seq<Message>, middle: seq<Message>, observed: bool, calls: seq<ToolCall>, ids: seq<string>, done: nat,
    y: Tally, z: Tally)
    requires done <= |calls| == |ids|
  {
    && history <= middle
    && Read(Good(calls, false), middle[|history|..]) == Good(calls[done..], false)
    && Steady(y, z) && z.own.dispatched == observed && (y.own.dispatched ==> observed)
    && z.own.closed == y.own.closed + ids[..done]
    && z.own.spoken == y.own.spoken + Lines(middle[|history|..]) && NoCalls(middle[|history|..])
  }

  lemma NoneHandled(
    history: seq<Message>, observed: bool, calls: seq<ToolCall>, ids: seq<string>, y: Tally, path: seq<string>)
    requires |calls| == |ids| && y.own.dispatched == observed
    ensures PartlyHandled(history, history, observed, calls, ids, 0, y, Tallied(y, [], path))
  {
    assert history[|history|..] == [] && calls[0..] == calls && y.own.closed + ids[..0] == y.own.closed;
    assert y.own.spoken + Lines([]) == y.own.spoken;
  }

  lemma OneMoreHandled(
    history: seq<Message>, middle: seq<Message>, next: seq<Message>, rollback: seq<Message>, observed: bool,
    observed': bool, calls: seq<ToolCall>, ids: seq<string>, done: nat, y: Tally, z: Tally, end: Tally)
    requires done < |calls| == |ids| && PartlyHandled(history, middle, observed, calls, ids, done, y, z)
    requires Handled(GoOn, middle, next, rollback, observed', calls[done..], ids[done..], z, end)
    ensures PartlyHandled(history, next, observed', calls, ids, done + 1, y, end) && end.own.dispatched == observed'
  {
    hide Read;
    var part, m := middle[|history|..], next[|middle|];
    assert next == middle + [m];
    assert next[|history|..] == part + [m];
    ReadSnoc(Good(calls, false), part, m);
    LinesConcat(part, [m]);
    assert Lines([m]) == [LineOf(m)];
    assert calls[done..][0] == calls[done] && calls[done..][1..] == calls[done + 1..];
    assert ids[..done + 1] == ids[..done] + [ids[done..][0]];
    assert end.own.closed == y.own.closed + ids[..done + 1];
  }

  lemma RestHandled(
    flow: Flow, history: seq<Message>, middle: seq<Message>, end': seq<Message>, rollback: seq<Message>,
    observed: bool, observed': bool, calls: seq<ToolCall>, ids: seq<string>, done: nat, y: Tally, z: Tally,
    end: Tally)
    requires done < |calls| == |ids| && PartlyHandled(history, middle, observed, calls, ids, done, y, z)
    requires !flow.GoOn? && Handled(flow, middle, end', rollback, observed', calls[done..], ids[done..], z, end)
    ensures AllHandled(flow, history, end', rollback, observed', calls, ids, y, end)
  {
    hide Read, Lines, NoCalls;
    PartlySilent(history, middle, y, z);
    assert ids == ids[..done] + ids[done..];
    assert y.own.closed + ids == z.own.closed + ids[done..];
    if flow.Aborted? || observed' {
      RestTold(history, middle, end', y, z, end);
      assert end'[|history|..] == middle[|history|..] + end'[|middle|..];
      ReadConcat(Good(calls, false), middle[|history|..], end'[|middle|..]);
    }
  }

  lemma PartlySilent(history: seq<Message>, middle: seq<Message>, y: Tally, z: Tally)
    requires history <= middle && z.own.spoken == y.own.spoken + Lines(middle[|history|..])
             && NoCalls(middle[|history|..])
    ensures Silent(y.own, z.own)
  {
    SaidSilently(history, middle, y, z);
  }

  lemma SaidInBetween(a: seq<Line>, p: seq<Line>, c: seq<Line>, q: seq<Line>)
    requires a + p <= c <= a + p + q
    ensures a <= c <= a + (p + q)
  {
    assert a + (p + q) == a + p + q;
    assert a == (a + p)[..|a|] == c[..|a|];
  }

  lemma RestTold(history: seq<Message>, middle: seq<Message>, end': seq<Message>, y: Tally, z: Tally, end: Tally)
    requires history <= middle && z.own.spoken == y.own.spoken + Lines(middle[|history|..])
             && NoCalls(middle[|history|..])
    requires Said(middle, end', z, end)
    ensures Said(history, end', y, end)
  {
    hide Lines;
    var part, rest := middle[|history|..], end'[|middle|..];
    assert end'[|history|..] == part + rest;
    LinesConcat(part, rest);
    SaidInBetween(y.own.spoken, Lines(part), end.own.spoken, Lines(rest));
  }

  lemma AllDone(
    history: seq<Message>, history': seq<Message>, rollback: seq<Message>, observed: bool, calls: seq<ToolCall>,
    ids: seq<string>, y: Tally, z: Tally)
    requires |calls| == |ids| && PartlyHandled(history, history', observed, calls, ids, |calls|, y, z)
    ensures AllHandled(GoOn, history, history', rollback, observed, calls, ids, y, z)
  {
    hide Read;
    assert calls[|calls|..] == [] && ids[..|ids|] == ids;
  }

  // ----- Calls charged -----

  /** Handling the first of the calls with these ids charges it if it is within the limit. */
  predicate ChargedBy(flow: Flow, ids: seq<string>, index: nat, perResponse: nat, y: Own, z: Own)
    requires ids != []
  {
    && (z.charged == y.charged || (index < perResponse && z.charged == y.charged + [ids[0]]))
    && (flow.GoOn? && index < perResponse ==> z.charged == y.charged + [ids[0]])
  }

  /** Handling all calls of a response charges those within the limit, in order, as far as it gets. */
  predicate AllCharged(flow: Flow, ids: seq<string>, perResponse: nat, y: Own, z: Own)
  {
    && y.charged <= z.charged <= y.charged + ids[..Min(|ids|, perResponse)]
    && (flow.GoOn? ==> z.charged == y.charged + ids[..Min(|ids|, perResponse)])
  }

  lemma OneMoreCharged(ids: seq<string>, done: nat, perResponse: nat, flow: Flow, y: Own, z: Own, end: Own)
    requires done < |ids| && z.charged == y.charged + ids[..Min(done, perResponse)]
    requires ChargedBy(flow, ids[done..], done, perResponse, z, end)
    ensures if flow.GoOn? then end.charged == y.charged + ids[..Min(done + 1, perResponse)]
            else AllCharged(flow, ids, perResponse, y, end)
  {
    if done < perResponse {
      assert ids[..done + 1] == ids[..done] + [ids[done..][0]];
      assert y.charged + ids[..done + 1] == y.charged + ids[..done] + [ids[done]];
    }
    var all := ids[..Min(|ids|, perResponse)];
    assert ids[..Min(done, perResponse)] <= all && ids[..Min(done + 1, perResponse)] <= all;
  }

  /** Every call within the limit was charged, in order. */
  predicate OnTime(limits: Limits, y: Own)
  {
    y.charged == Due(y.spoken, y.asked.requested, limits.toolCallsPerResponse)
  }

  /** Calls were charged in order, those within the limit and no others. */
  predicate InTime(limits: Limits, y: Own)
  {
    y.charged <= Due(y.spoken, y.asked.requested, limits.toolCallsPerResponse)
  }

  lemma ResponseDue(limits: Limits, y: Tally, response: Response, scoped: seq<ToolCall>)
    requires OnTime(limits, y.own) && |scoped| == |response.toolCalls|
    ensures var z, n := AfterResponse(y, response, scoped).own, Min(|scoped|, limits.toolCallsPerResponse);
            Due(z.spoken, z.asked.requested, limits.toolCallsPerResponse) == z.charged + Ids(scoped)[..n]
  {
    hide Due;
    DueMore(y.own.spoken, y.own.asked.requested, Line(Assistant, response.content, |response.toolCalls|), Ids(scoped),
            limits.toolCallsPerResponse);
  }

  /** After the tool loop the calls that were due have been charged, or the turn ends. */
  lemma ToolsCharged(
    limits: Limits, flow: Flow, ids: seq<string>, y: Own, z: Own)
    requires var n := Min(|ids|, limits.toolCallsPerResponse);
             Due(y.spoken, y.asked.requested, limits.toolCallsPerResponse) == y.charged + ids[..n]
    requires AllCharged(flow, ids, limits.toolCallsPerResponse, y, z) && z.asked == y.asked
    requires Silent(y, z)
    ensures InTime(limits, z) && (flow.GoOn? ==> OnTime(limits, z))
  {
    var more := z.spoken[|y.spoken|..];
    assert z.spoken == y.spoken + more;
    assert forall i :: 0 <= i < |more| ==> more[i] == z.spoken[|y.spoken| + i];
    DueSame(y.spoken, more, y.asked.requested, limits.toolCallsPerResponse);
  }

  // ----- The turn -----

  /** The variables of the provider loop. `full` is the transcript as it would be if nothing had ever been
      compacted or dropped since the turn began. */
  datatype Turn = Turn(
    history: seq<Message>,
    rollback: seq<Message>,
    observed: bool,
    delegations: nat,
    autoContinues: nat,
    overflowUsed: bool,
    ghost full: seq<Message>)

  function FirstTurn(before: seq<Message>, message: string): Turn
  {
    var history := before + [UserMessage(message)];
    Turn(history, before, false, 0, 0, false, history)
  }

  /** How the transcript reads while the turn may still send requests. */
  ghost predicate Reading(c: Compactor, before: seq<Message>, message: string, s: Turn, y: Tally)
  {
    var fit := Fit(c, before, UserMessage(message));
    && (Ready(before) ==> Ready(s.rollback))
    && (fit ==> y.sendable && Read(START, Staged(c, s.history)) == Good([], y.own.awaiting))
    && (fit && (Ready(before) || y.own.spoken != []) ==> Read(START, s.history) == Good([], y.own.awaiting))
  }

  /** What of the turn is in the transcript. */
  ghost predicate Recorded(
    c: Compactor, before: seq<Message>, message: string, full: seq<Message>, history: seq<Message>, y: Tally)
  {
    && Reports(before, message, full, y)
    && Retains(full, history)
    && (c.budget.None? ==> history == full)
  }

  /** What holds at the top of the provider loop of a turn that began with `before` and `message`. */
  ghost predicate Kept(agent: Agent, before: seq<Message>, message: string, s: Turn, y: Tally)
  {
    var c := agent.policy.compactor;
    && s.observed == y.own.dispatched && (y.own.dispatched ==> y.own.spoken != []) && !y.own.cancelled
    && y.own.closed == y.own.asked.requested && y.own.aborts == 0 && y.own.nudges == s.autoContinues
    && Numbering(agent.policy.scope, y.own, s.delegations)
    && Snapshot(c, before, s)
    && (y.own.spoken == [] && !s.overflowUsed ==> s.history == before + [UserMessage(message)])
    && Recorded(c, before, message, s.full, s.history, y)
    && Reading(c, before, message, s, y)
  }

  lemma KeptCounts(agent: Agent, before: seq<Message>, message: string, s: Turn, y: Tally)
    requires Kept(agent, before, message, s, y)
    ensures s.observed == y.own.dispatched && y.own.nudges == s.autoContinues
    ensures Numbering(agent.policy.scope, y.own, s.delegations)
  {
  }

  /** Only an overflow changes the rollback copy. */
  predicate SameSnapshot(s: Turn, s': Turn)
  {
    s'.rollback == s.rollback && s'.overflowUsed == s.overflowUsed
  }

  /** The rollback copy is the history before the turn, shrunk once if a request overflowed. */
  predicate Snapshot(c: Compactor, before: seq<Message>, s: Turn)
  {
    s.rollback == before || (s.overflowUsed && s.rollback == HistoryAfter(before, c.CompactOverflow(before)))
  }

  /** The transcript as it was, or shrunk as an overflow shrinks it, or with one record added. */
  predicate RolledBack(c: Compactor, before: seq<Message>, after: seq<Message>)
  {
    || after == before
    || after == HistoryAfter(before, c.CompactOverflow(before))
    || (|after| == |before| + 1 && before <= after && after[|before|] == SystemMessage(after[|before|].content))
  }

  /** Subagents are numbered, and this many delegations were dispatched. */
  predicate Numbering(scope: Option<string>, y: Own, count: nat)
  {
    Numbered(scope, y.kids) && y.kids.delegated == count
  }

  /** What a finished turn leaves behind. `full` is everything the turn was, from before it began; `after` is
      what compaction left of that. */
  ghost predicate Ended(
    agent: Agent, before: seq<Message>, message: string, full: seq<Message>, after: seq<Message>, flow: Flow, y: Tally)
  {
    var c, u := agent.policy.compactor, UserMessage(message);
    && (Fit(c, before, u) ==> y.sendable)
    && Numbered(agent.policy.scope, y.own.kids)
    && (y.own.cancelled ==> flow == FailedTurn(TurnCancelled))
    && y.own.closed <= y.own.asked.requested
    && y.own.aborts == (if flow.Aborted? then 1 else 0)
    && match flow
       case GoOn => false
       case FailedTurn(_) =>
         && (!y.own.dispatched ==> RolledBack(c, before, after))
         && (y.own.dispatched ==>
             Recounts(before, message, full, y) && Retains(full, after) && RecordEnds(full) && RecordEnds(after))
         && (Ready(before) || (Fit(c, before, u) && y.own.dispatched) ==>
               WellFormed(after) && (Ready(after) <==> !(y.own.dispatched && y.own.awaiting)))
         && (c.budget.None? ==> before <= after && (y.own.dispatched ==> before + [u] <= after))
       case _ =>
         && y.own.closed == y.own.asked.requested
         && (Fit(c, before, u) ==> Ready(after))
         && Recounts(before, message, full, y) && Retains(full, after) && (c.budget.None? ==> after == full)
         && (flow.Completed? ==> Reports(before, message, full, y) && FinalReply(after, y.own))
  }

  lemma RetainsRecord(full: seq<Message>, h: seq<Message>, record: string)
    requires Retains(full, h)
    ensures Retains(full + [SystemMessage(record)], h + [SystemMessage(record)])
    ensures RecordEnds(full + [SystemMessage(record)]) && RecordEnds(h + [SystemMessage(record)])
  {
    RetainsConcat(full, h, [SystemMessage(record)]);
  }

  lemma RecountsRecord(before: seq<Message>, message: string, full: seq<Message>, y: Tally, record: string)
    requires Reports(before, message, full, y)
    ensures Recounts(before, message, full + [SystemMessage(record)], y)
  {
    hide Lines, CallsIn;
    var end := [SystemMessage(record)];
    PartAfter(before, message, full, end);
    CallsInSame(full[|before| + 1..], end);
  }

  /** Failing keeps completed tool effects on record and otherwise undoes the turn. */
  lemma FailKept(
    agent: Agent, before: seq<Message>, message: string, s: Turn, y: Tally, error: TurnError, record: string)
    requires Kept(agent, before, message, s, y)
    ensures Ended(agent, before, message, s.full + [SystemMessage(record)],
                  FailedHistory(s.history, s.rollback, s.observed, record), FailedTurn(error), y)
  {
    hide Read, Retains, Reports, Recounts, Numbered, CompactTo, HistoryBytes, Staged, KeepsOnlyNewTurn;
    ReadSnoc(START, s.history, SystemMessage(record));
    RetainsRecord(s.full, s.history, record);
    RecountsRecord(before, message, s.full, y, record);
    if agent.policy.compactor.budget.None? {
      ReportsExtends(before, message, s.full, y);
    }
  }

  lemma ReportsExtends(before: seq<Message>, message: string, full: seq<Message>, y: Tally)
    requires Reports(before, message, full, y)
    ensures before <= full && before + [UserMessage(message)] <= full
  {
    assert before <= before + [UserMessage(message)];
  }

  /** Every request of a turn that may begin is sendable. */
  lemma SendKept(agent: Agent, before: seq<Message>, message: string, s: Turn, y: Tally, send: Action)
    requires Kept(agent, before, message, s, y)
    requires send == Send(agent.path, Merged(Staged(agent.policy.compactor, s.history)), agent.policy.tools)
    ensures var z := Tallied(y, [Reserve(agent.path), send], agent.path);
            && Kept(agent, before, message, s, z)
            && z == y.(sends := y.sends + 1, sendable := z.sendable)
  {
    hide Sendable, Merged, Numbered, Snapshot, Staged, Read, Retains, Lines, CallsIn, KeepsOnlyNewTurn, Tallied;
    TalliedOne(y, Reserve(agent.path), agent.path);
    TalliedSnoc(y, [Reserve(agent.path)], send, agent.path);
    assert [Reserve(agent.path)] + [send] == [Reserve(agent.path), send];
    if Fit(agent.policy.compactor, before, UserMessage(message)) {
      MergedSendable(Staged(agent.policy.compactor, s.history));
    }
  }

  /** A turn that ran tools and cannot be shrunk is kept on record with its payloads dropped. */
  lemma DropEnded(agent: Agent, before: seq<Message>, message: string, s: Turn, y: Tally, start: nat, record: string)
    requires Kept(agent, before, message, s, y) && s.observed
    requires var last := LastIndexOf(s.history, User);
             start == if last.Some? then last.value else 0
    ensures Ended(agent, before, message, s.full + [SystemMessage(record)],
                  FailedHistory(DropPayloads(agent.policy.compactor.markers, s.history, start), s.rollback,
                                s.observed, record),
                  FailedTurn(ContextOverflow), y)
  {
    hide Numbered, Snapshot, Read, Retains, Reports, Recounts, CompactTo, HistoryBytes, Staged, KeepsOnlyNewTurn,
         DropPayloads;
    var markers := agent.policy.compactor.markers;
    var dropped := DropPayloads(markers, s.history, start);
    ReadDropped(START, markers, s.history, start);
    ReadSnoc(START, dropped, SystemMessage(record));
    RetainsDropped(s.full, markers, s.history, start);
    RetainsRecord(s.full, dropped, record);
    RecountsRecord(before, message, s.full, y, record);
    if agent.policy.compactor.budget.None? {
      ReportsExtends(before, message, s.full, y);
      DropsNothingBefore(before, message, markers, s.history, start);
    }
  }

  lemma DropsNothingBefore(before: seq<Message>, message: string, markers: Markers, history: seq<Message>, start: nat)
    requires before + [UserMessage(message)] <= history
    requires var last := LastIndexOf(history, User);
             start == if last.Some? then last.value else 0
    ensures before + [UserMessage(message)] <= DropPayloads(markers, history, start)
  {
    var kept, dropped := before + [UserMessage(message)], DropPayloads(markers, history, start);
    assert history[|before|] == kept[|before|] == UserMessage(message);
    assert start >= |before|;
    assert Dropped(markers, UserMessage(message)) == UserMessage(message);
    assert forall i :: 0 <= i < |kept| ==> history[i] == kept[i];
    assert forall i :: 0 <= i < |kept| ==> dropped[i] == kept[i];
  }

  /** A rejected request is retried once with both the history and its snapshot shrunk. */
  lemma RetryKept(agent: Agent, before: seq<Message>, message: string, s: Turn, y: Tally)
    requires Kept(agent, before, message, s, y) && !s.overflowUsed
    requires agent.policy.compactor.CompactOverflow(s.history).Some?
    ensures var c := agent.policy.compactor;
            Kept(agent, before, message,
                 s.(overflowUsed := true,
                    history := HistoryAfter(s.history, c.CompactOverflow(s.history)),
                    rollback := HistoryAfter(s.rollback, c.CompactOverflow(s.rollback))), y)
  {
    hide CompactTo, HistoryBytes, Numbered, Retains, Reports, Read, KeepsOnlyNewTurn;
    var c, u := agent.policy.compactor, UserMessage(message);
    var shrunk := HistoryAfter(s.history, c.CompactOverflow(s.history));
    RetainsCompacted(c, s.full, s.history);
    if Ready(before) {
      CompactorKeepsReading(c, s.rollback);
    }
    if Fit(c, before, u) {
      if Ready(before) || y.own.spoken != [] {
        CompactorKeepsReading(c, s.history);
        CompactorKeepsReading(c, shrunk);
      } else {
        FirstStaged(c, before, u);
        OverflowStaged(c, before, u);
      }
    }
  }

  /** A rolled-back turn may leave one record. */
  lemma RecordKept(agent: Agent, before: seq<Message>, message: string, s: Turn, y: Tally, record: string)
    requires Kept(agent, before, message, s, y) && !s.overflowUsed && !s.observed
    ensures Ended(agent, before, message, s.full, s.rollback + [SystemMessage(record)], FailedTurn(ContextOverflow), y)
  {
    hide Read, Retains, Reports, Recounts, Numbered, CompactTo, HistoryBytes, Staged, KeepsOnlyNewTurn;
    ReadSnoc(START, s.rollback, SystemMessage(record));
  }

  /** After a response was accepted into `history`, its calls are pending and their ids not yet closed. */
  ghost predicate Accepted(
    agent: Agent, before: seq<Message>, message: string, s: Turn, full: seq<Message>, history: seq<Message>,
    calls: seq<ToolCall>, ids: seq<string>, y: Tally)
  {
    var c := agent.policy.compactor;
    && s.observed == y.own.dispatched && !y.own.awaiting && !y.own.cancelled && FinalReply(history, y.own)
    && y.own.asked.requested == y.own.closed + ids && y.own.aborts == 0 && y.own.nudges == s.autoContinues
    && Numbering(agent.policy.scope, y.own, s.delegations)
    && Snapshot(c, before, s)
    && Recorded(c, before, message, full, history, y)
    && (Ready(before) ==> Ready(s.rollback))
    && (Fit(c, before, UserMessage(message)) ==> y.sendable && Read(START, history) == Good(calls, false))
  }

  lemma AcceptedCounts(
    agent: Agent, before: seq<Message>, message: string, s: Turn, full: seq<Message>, history: seq<Message>,
    calls: seq<ToolCall>, ids: seq<string>, y: Tally)
    requires Accepted(agent, before, message, s, full, history, calls, ids, y)
    ensures s.observed == y.own.dispatched && y.own.nudges == s.autoContinues && !y.own.cancelled
    ensures Numbering(agent.policy.scope, y.own, s.delegations)
  {
  }

  /** The tally after a response and what it asks for have been announced. */
  function AfterResponse(y: Tally, response: Response, scoped: seq<ToolCall>): Tally
  {
    var asked := y.own.asked;
    y.(own := y.own.(
         awaiting := false,
         asked := Asked(asked.received + response.toolCalls, asked.announced + scoped, asked.requested + Ids(scoped)),
         spoken := y.own.spoken + [Line(Assistant, response.content, |response.toolCalls|)]))
  }

  lemma PartAfter(before: seq<Message>, message: string, full: seq<Message>, more: seq<Message>)
    requires before + [UserMessage(message)] <= full
    ensures before + [UserMessage(message)] <= full + more
    ensures (full + more)[|before| + 1..] == full[|before| + 1..] + more
    ensures Lines((full + more)[|before| + 1..]) == Lines(full[|before| + 1..]) + Lines(more)
  {
    hide Lines;
    LinesConcat(full[|before| + 1..], more);
  }

  lemma ReportsReply(
    before: seq<Message>, message: string, full: seq<Message>, response: Response, scoped: seq<ToolCall>, y: Tally)
    requires Reports(before, message, full, y)
    ensures Reports(before, message,
                    full + [AssistantMessage(response.content, response.toolCalls, response.reasoning)],
                    AfterResponse(y, response, scoped))
  {
    hide Trim, Lines, CallsIn;
    var reply := AssistantMessage(response.content, response.toolCalls, response.reasoning);
    var part := full[|before| + 1..];
    PartAfter(before, message, full, [reply]);
    assert Lines([reply]) == [LineOf(reply)];
    CallsInSnoc(part, reply);
  }

  lemma AcceptKept(
    agent: Agent, before: seq<Message>, message: string, s: Turn, response: Response, scoped: seq<ToolCall>, y: Tally)
    requires Kept(agent, before, message, s, y)
    ensures var reply := AssistantMessage(response.content, response.toolCalls, response.reasoning);
            Accepted(agent, before, message, s, s.full + [reply], Staged(agent.policy.compactor, s.history) + [reply],
                     response.toolCalls, Ids(scoped), AfterResponse(y, response, scoped))
  {
    hide CompactTo, HistoryBytes, Trim, Numbered, Snapshot, Retains, Reports, Read, KeepsOnlyNewTurn;
    var c := agent.policy.compactor;
    var staged := Staged(c, s.history);
    var reply := AssistantMessage(response.content, response.toolCalls, response.reasoning);
    ReportsReply(before, message, s.full, response, scoped, y);
    RetainsCompacted(c, s.full, s.history);
    RetainsConcat(s.full, staged, [reply]);
    ReadSnoc(START, staged, reply);
  }

  /** What the tool loop appends is part of the turn, whatever was compacted before. */
  function FullAfter(full: seq<Message>, history: seq<Message>, history': seq<Message>): seq<Message>
  {
    if history <= history' then full + history'[|history|..] else full
  }

  lemma ToolsReported(
    before: seq<Message>, message: string, full: seq<Message>, history: seq<Message>, history': seq<Message>,
    y: Tally, z: Tally)
    requires Reports(before, message, full, y) && Said(history, history', y, z) && z.own.asked == y.own.asked
    ensures Recounts(before, message, FullAfter(full, history, history'), z)
    ensures z.own.spoken == y.own.spoken + Lines(history'[|history|..]) ==>
              Reports(before, message, FullAfter(full, history, history'), z)
  {
    hide Lines, CallsIn, NoCalls;
    var part, more := full[|before| + 1..], history'[|history|..];
    PartAfter(before, message, full, more);
    CallsInSame(part, more);
  }

  lemma ToolsRetained(full: seq<Message>, history: seq<Message>, history': seq<Message>)
    requires Retains(full, history) && history <= history'
    ensures Retains(FullAfter(full, history, history'), history')
    ensures history == full ==> FullAfter(full, history, history') == history'
    ensures RecordEnds(history') && |history| < |history'| ==> RecordEnds(FullAfter(full, history, history'))
  {
    hide Retains;
    RetainsConcat(full, history, history'[|history|..]);
    assert history' == history + history'[|history|..];
  }

  /** The tool loop leaves the provider loop's invariant, or ends the turn. */
  lemma ToolsKept(
    agent: Agent, before: seq<Message>, message: string, s: Turn, full: seq<Message>, history: seq<Message>,
    calls: seq<ToolCall>, ids: seq<string>, y: Tally, flow: Flow, history': seq<Message>, observed': bool,
    delegations': nat, z: Tally)
    requires Accepted(agent, before, message, s, full, history, calls, ids, y) && calls != []
    requires AllHandled(flow, history, history', s.rollback, observed', calls, ids, y, z)
    requires Numbering(agent.policy.scope, z.own, delegations')
    ensures flow.GoOn? ==>
              Kept(agent, before, message,
                   s.(history := history', observed := observed', delegations := delegations',
                      full := FullAfter(full, history, history')), z)
    ensures !flow.GoOn? ==> Ended(agent, before, message, FullAfter(full, history, history'), history', flow, z)
  {
    hide Read, Retains, Reports, Recounts, Numbered, Said, FullAfter, Settles, RecordEnds, KeepsOnlyNewTurn,
         CompactTo, HistoryBytes;
    var c, u := agent.policy.compactor, UserMessage(message);
    if !flow.FailedTurn? || observed' {
      SettledMore(history, history', calls);
      ToolsReported(before, message, full, history, history', y, z);
      ToolsRetained(full, history, history');
      if c.budget.None? {
        ReportsExtends(before, message, full, y);
      }
      if Fit(c, before, u) {
        ReadSettled(history, history', calls);
        CompactorKeepsReading(c, history');
        ReadGood(history');
      }
    } else if Ready(before) {
      ReadGood(s.rollback);
    }
    ToldGrows(history, history', y, z);
  }

  lemma ToldGrows(history: seq<Message>, history': seq<Message>, y: Tally, z: Tally)
    ensures Said(history, history', y, z) && y.own.spoken != [] ==> z.own.spoken != []
  {
  }

  lemma SettledMore(history: seq<Message>, history': seq<Message>, pending: seq<ToolCall>)
    requires Settles(history, history', pending) && pending != []
    ensures history <= history' && |history| < |history'|
  {
    var more := history'[|history|..];
    ReadNone(Good(pending, false));
    assert more != [];
  }

  lemma ReadGood(h: seq<Message>)
    ensures Ready(h) ==> WellFormed(h)
  {
  }

  lemma NudgeKept(
    agent: Agent, before: seq<Message>, message: string, s: Turn, full: seq<Message>, history: seq<Message>, y: Tally,
    prompt: string)
    requires Accepted(agent, before, message, s, full, history, [], [], y)
    ensures Kept(agent, before, message,
                 s.(history := history + [UserMessage(prompt)], full := full + [UserMessage(prompt)],
                    autoContinues := s.autoContinues + 1),
                 y.(own := y.own.(awaiting := true, nudges := y.own.nudges + 1,
                                  spoken := y.own.spoken + [Line(User, prompt, 0)])))
  {
    hide Read, Retains, Numbered, KeepsOnlyNewTurn, CompactTo, HistoryBytes, Staged, Lines, CallsIn;
    var c, nudge := agent.policy.compactor, UserMessage(prompt);
    ReadSnoc(START, history, nudge);
    RetainsConcat(full, history, [nudge]);
    PartAfter(before, message, full, [nudge]);
    assert Lines([nudge]) == [LineOf(nudge)];
    CallsInSnoc(full[|before| + 1..], nudge);
    if Fit(c, before, UserMessage(message)) {
      StagedReads(c, history + [nudge]);
    }
  }

  lemma StagedReads(c: Compactor, h: seq<Message>)
    requires Read(START, h).Good?
    ensures Read(START, Staged(c, h)) == Read(START, h)
  {
    CompactorKeepsReading(c, h);
  }

  lemma CompleteEnded(
    agent: Agent, before: seq<Message>, message: string, s: Turn, full: seq<Message>, history: seq<Message>, y: Tally)
    requires Accepted(agent, before, message, s, full, history, [], [], y)
    ensures var c := agent.policy.compactor;
            Ended(agent, before, message, full, HistoryAfter(history, c.Compact(history)), Completed, y)
  {
    hide Read, Retains, Numbered, KeepsOnlyNewTurn, CompactTo, HistoryBytes, Staged, Lines, CallsIn;
    var c := agent.policy.compactor;
    RetainsCompacted(c, full, history);
    RetainsLast(full, history);
    RetainsLast(full, HistoryAfter(history, c.Compact(history)));
    if Fit(c, before, UserMessage(message)) {
      CompactorKeepsReading(c, history);
    }
  }

  lemma StartKept(agent: Agent, before: seq<Message>, message: string)
    ensures Kept(agent, before, message, FirstTurn(before, message), FRESH)
  {
    hide Read, Retains, KeepsOnlyNewTurn, Staged;
    var c, u := agent.policy.compactor, UserMessage(message);
    var history := before + [u];
    ReadSnoc(START, before, u);
    RetainsSelf(history, |before|);
    assert history[|before| + 1..] == [];
    if Fit(c, before, u) {
      FirstStaged(c, before, u);
    }
  }

  lemma EndedSendable(
    agent: Agent, before: seq<Message>, message: string, full: seq<Message>, after: seq<Message>, flow: Flow, y: Tally)
    requires Ended(agent, before, message, full, after, flow, y)
    ensures Fit(agent.policy.compactor, before, UserMessage(message)) ==> y.sendable
    ensures y.own.closed <= y.own.asked.requested && y.own.aborts <= 1 && !flow.GoOn?
    ensures Numbered(agent.policy.scope, y.own.kids)
    ensures flow.Completed? || flow.Aborted? ==> y.own.closed == y.own.asked.requested
    ensures y.own.aborts == (if flow.Aborted? then 1 else 0)
    ensures flow.Completed? ==> FinalReply(after, y.own)
  {
  }

  /** A turn that failed for being cancelled may have learned so from its interrupted request. */
  lemma EndedCancelled(
    agent: Agent, before: seq<Message>, message: string, full: seq<Message>, after: seq<Message>, flow: Flow,
    y: Tally, z: Tally)
    requires Ended(agent, before, message, full, after, flow, y)
    requires z == y || (flow == FailedTurn(TurnCancelled) && z == y.(own := y.own.(cancelled := true)))
    ensures Ended(agent, before, message, full, after, flow, z)
  {
    hide Fit, Lines, CallsIn, Retains, Numbered, Read;
  }

  // ----- The rounds of a turn -----

  /** A turn at the top of its loop. */
  datatype Moment = Moment(ghost turn: Turn, clock: nat, requests: nat, calls: nat, trace: seq<Action>)

  /** Which nudge a response that ends without a call gets, if any. */
  function Nudge(texts: Texts, script: Script, response: Response, now: nat): Option<string>
  {
    if response.toolCalls != [] || response.cutOff then None
    else if Trim(response.content) == [] then Some(texts.emptyResponse)
    else if script.announces(now) then Some(texts.announcedStep)
    else None
  }

  /** What a response leads to. */
  ghost predicate ResponseStep(
    agent: Agent, limits: Limits, script: Script, s: Turn, response: Response, now: nat, s': Turn, flow: Flow)
  {
    var c := agent.policy.compactor;
    var accepted := Staged(c, s.history) + [AssistantMessage(response.content, response.toolCalls, response.reasoning)];
    var nudge := Nudge(agent.policy.texts, script, response, now);
    && SameSnapshot(s, s')
    && if response.toolCalls != [] then CallsStep(agent, limits, script, s, accepted, response.toolCalls, s', flow)
       else FinishStep(agent, limits, s, accepted, nudge, s', flow)
  }

  /** What a response without calls leads to. */
  predicate FinishStep(
    agent: Agent, limits: Limits, s: Turn, accepted: seq<Message>, nudge: Option<string>, s': Turn, flow: Flow)
  {
    && s'.observed == s.observed
    && if nudge.Some? && s.autoContinues < limits.autoContinues then
         && flow == GoOn && s'.autoContinues == s.autoContinues + 1
         && s'.history == accepted + [UserMessage(nudge.value)]
       else flow == Completed && s'.history == HistoryAfter(accepted, agent.policy.compactor.Compact(accepted))
  }

  /** What a response with calls leads to. */
  ghost predicate CallsStep(
    agent: Agent, limits: Limits, script: Script, s: Turn, accepted: seq<Message>, calls: seq<ToolCall>, s': Turn,
    flow: Flow)
  {
    && ToolFlow(flow)
    && s'.autoContinues == s.autoContinues
    && (s.observed ==> s'.observed)
    && (flow == GoOn ==> Settles(accepted, s'.history, calls))
    && (flow == GoOn && calls != [] && RunsFirst(agent, limits, script, calls[0]) ==> s'.observed)
  }

  /** Nothing keeps the first call of a response from running. */
  ghost predicate RunsFirst(agent: Agent, limits: Limits, script: Script, call: ToolCall)
  {
    Smooth(script) && 0 < limits.toolCallsPerResponse && WouldRun(agent, limits, call)
  }

  predicate FailedAs(agent: Agent, s: Turn, s': Turn)
  {
    s'.history == FailedHistory(s.history, s.rollback, s.observed, agent.policy.texts.record)
  }

  /** What the provider's outcome leads to. */
  ghost predicate OutcomeStep(
    agent: Agent, limits: Limits, script: Script, s: Turn, outcome: ProviderOutcome, now: nat, s': Turn, flow: Flow)
  {
    match outcome
    case Responded(response) => ResponseStep(agent, limits, script, s, response, now, s', flow)
    case Overflowed =>
      if s.overflowUsed then flow == FailedTurn(ContextOverflow) && FailedAs(agent, s, s')
      else OverflowStep(agent, s, s', flow)
    case Broken(m) => flow == FailedTurn(ProviderError(m)) && FailedAs(agent, s, s')
    case Interrupted => flow == FailedTurn(TurnCancelled) && FailedAs(agent, s, s')
    case TimedOut => flow == FailedTurn(Exhausted(WallTime)) && FailedAs(agent, s, s')
  }

  /** A first overflow: retry with a history that can be shrunk, and fail with one that cannot. */
  ghost predicate OverflowStep(agent: Agent, s: Turn, s': Turn, flow: Flow)
  {
    var c := agent.policy.compactor;
    var shrunk := c.CompactOverflow(s.history);
    if shrunk.Some? then
      && flow == GoOn && s'.overflowUsed && s'.observed == s.observed && s'.autoContinues == s.autoContinues
      && s'.history == shrunk.value.history && s'.rollback == HistoryAfter(s.rollback, c.CompactOverflow(s.rollback))
    else
      && flow == FailedTurn(ContextOverflow)
      && s'.history == if s.observed
         then DropPayloads(c.markers, s.history, NewestUser(s.history)) + [SystemMessage(agent.policy.texts.record)]
                       else s.rollback + [SystemMessage(agent.policy.texts.overflowRecord)]
  }

  function NewestUser(history: seq<Message>): nat
  {
    var last := LastIndexOf(history, User);
    if last.Some? then last.value else 0
  }

  /** One round: the budget is asked, then the provider, at exactly these moments. */
  ghost predicate RoundStep(agent: Agent, limits: Limits, script: Script, a: Moment, b: Moment, flow: Flow)
  {
    && a.clock < b.clock && a.requests <= b.requests && a.trace <= b.trace && b.calls == Charged(b.trace)
    && Caused(flow, b.trace[|a.trace|..], agent.path) && (a.turn.observed ==> b.turn.observed)
    && if script.expired(a.clock) then flow == FailedTurn(Exhausted(WallTime)) && FailedAs(agent, a.turn, b.turn)
       else if a.requests == limits.providerRequests then
         flow == FailedTurn(Exhausted(ProviderRequests)) && FailedAs(agent, a.turn, b.turn)
       else
         var outcome := script.provider(a.clock + 1);
         && a.requests < b.requests
         && OutcomeStep(agent, limits, script, a.turn, outcome, a.clock + 2, b.turn, flow)
         && (!Delegates(agent) ==>
               && b.requests == a.requests + 1
               && b.calls <= a.calls + (if outcome.Responded? then |outcome.response.toolCalls| else 0))
  }

  /** A whole turn, round by round; all rounds but the last went on. */
  ghost predicate Played(agent: Agent, limits: Limits, script: Script, path: seq<Moment>, flow: Flow)
  {
    forall i :: 0 <= i < |path| - 1 ==>
      RoundStep(agent, limits, script, path[i], path[i + 1], if i == |path| - 2 then flow else GoOn)
  }

  lemma PlayedMore(agent: Agent, limits: Limits, script: Script, path: seq<Moment>, next: Moment, flow: Flow)
    requires path != [] && Played(agent, limits, script, path, GoOn)
    requires RoundStep(agent, limits, script, path[|path| - 1], next, flow)
    ensures Played(agent, limits, script, path + [next], flow)
  {
    hide RoundStep;
    var longer := path + [next];
    forall i | 0 <= i < |longer| - 1
      ensures RoundStep(agent, limits, script, longer[i], longer[i + 1], if i == |longer| - 2 then flow else GoOn)
    {
      if i < |path| - 1 {
        assert RoundStep(agent, limits, script, path[i], path[i + 1], if i == |path| - 2 then GoOn else GoOn);
      }
    }
  }
}
