/** Everything a turn shares with the outside: the budget, the observer and the oracles. */
module Worlds {
  import opened Wrappers
  import opened Transcript
  import opened Tools
  import opened Traces

  /** What the outside answers, by the moment it is asked: the provider and the text it streamed, the
      clock, the cancellation flag, the person approving, opening an object, running a tool, and
      whether a text announces another step. */
  datatype Script = Script(
    provider: nat -> ProviderOutcome,
    streamed: nat -> string,
    expired: nat -> bool,
    cancelled: nat -> bool,
    approval: nat -> Approval,
    prepared: nat -> Preparation,
    output: nat -> Result<string, string>,
    announces: nat -> bool)

  function Reserved(t: seq<Action>): nat
  {
    if t == [] then 0 else Reserved(t[..|t| - 1]) + (if t[|t| - 1].Reserve? then 1 else 0)
  }

  function Charged(t: seq<Action>): nat
  {
    if t == [] then 0 else Charged(t[..|t| - 1]) + (if t[|t| - 1].Charge? then 1 else 0)
  }

  lemma CountedMore(t: seq<Action>, a: Action)
    ensures Reserved(t + [a]) == Reserved(t) + (if a.Reserve? then 1 else 0)
    ensures Charged(t + [a]) == Charged(t) + (if a.Charge? then 1 else 0)
  {
    assert (t + [a])[..|t|] == t;
  }

  lemma {:induction false} CountedUpTo(t: seq<Action>, k: nat)
    requires k <= |t|
    ensures Reserved(t[..k]) <= Reserved(t) && Charged(t[..k]) <= Charged(t)
    decreases |t|
  {
    hide Reserved, Charged;
    if k == |t| {
      assert t[..k] == t;
    } else {
      var init := t[..|t| - 1];
      CountedUpTo(init, k);
      assert init[..k] == t[..k] && init + [t[|t| - 1]] == t;
      CountedMore(init, t[|t| - 1]);
    }
  }

  /** The action after `before`, if it records an answer, records one that was given by then; and a limit is
      reached only when that much was used. */
  ghost predicate TrueAfter(before: seq<Action>, a: Action, script: Script, limits: Limits, clock: nat)
  {
    match a
    case Check(_, cancelled) => exists m: nat :: m < clock && script.cancelled(m) == cancelled
    case Look(_, cancelled) => exists m: nat :: m < clock && script.cancelled(m) == cancelled
    case AskUser(_, _, answer) => exists m: nat :: m < clock && script.approval(m) == answer
    case Receive(_, outcome) => exists m: nat :: m < clock && script.provider(m) == outcome
    case Ran(_, output) => exists m: nat :: m < clock && script.output(m) == output
    case Exhaust(_, limit) => (
      match limit
      case WallTime => exists m: nat :: m < clock && script.expired(m)
      case ProviderRequests => Reserved(before) == limits.providerRequests
      case ToolCalls => Charged(before) == limits.toolCalls)
    case _ => true
  }

  /** Every answer in the run was given by the outside. */
  ghost predicate Truthful(t: seq<Action>, script: Script, limits: Limits, clock: nat)
  {
    forall k :: 0 <= k < |t| ==> TrueAfter(t[..k], t[k], script, limits, clock)
  }

  lemma TruthfulMore(t: seq<Action>, a: Action, script: Script, limits: Limits, clock: nat, later: nat)
    requires Truthful(t, script, limits, clock) && clock <= later && TrueAfter(t, a, script, limits, later)
    ensures Truthful(t + [a], script, limits, later)
  {
    var more := t + [a];
    forall k | 0 <= k < |more|
      ensures TrueAfter(more[..k], more[k], script, limits, later)
    {
      assert more[..k] == t[..k];
      if k < |t| {
        assert TrueAfter(t[..k], t[k], script, limits, clock);
      } else {
        assert t[..k] == t;
      }
    }
  }

  /** An action that records neither an answer nor a use of the budget. */
  predicate Free(a: Action)
  {
    a.Emit? || a.Send? || a.Decide? || a.Dispatch?
  }

  class World {
    const limits: Limits
    const script: Script
    var clock: nat
    var requests: nat
    var calls: nat
    var trace: seq<Action>

    ghost predicate Valid()
      reads this
    {
      && requests == Reserved(trace) <= limits.providerRequests
      && calls == Charged(trace) <= limits.toolCalls
      && Truthful(trace, script, limits, clock)
    }

    constructor (limits: Limits, script: Script)
      ensures Valid() && this.limits == limits && this.script == script
      ensures clock == 0 && requests == 0 && calls == 0 && trace == []
    {
      this.limits, this.script := limits, script;
      clock, requests, calls, trace := 0, 0, 0, [];
    }

    lemma Bounded()
      requires Valid()
      ensures requests == Reserved(trace) <= limits.providerRequests && calls == Charged(trace) <= limits.toolCalls
      ensures Truthful(trace, script, limits, clock)
    {
    }

    method Log(action: Action)
      requires Valid() && Free(action)
      modifies this`trace
      ensures Valid() && trace == old(trace) + [action]
    {
      hide Truthful, Reserved, Charged;
      CountedMore(trace, action);
      TruthfulMore(trace, action, script, limits, clock, clock);
      trace := trace + [action];
    }

    method Tick() returns (now: nat)
      requires Valid()
      modifies this`clock
      ensures Valid() && now == old(clock) && clock == now + 1
    {
      now := clock;
      clock := clock + 1;
    }

    /** Reserve one provider request, or report the limit that prevents it. */
    method ChargeRequest(path: seq<string>) returns (exhausted: Option<Exhaustion>)
      requires Valid()
      modifies this`clock, this`requests, this`trace
      ensures Valid() && clock == old(clock) + 1
      ensures exhausted == if script.expired(old(clock)) then Some(WallTime)
                           else if old(requests) == limits.providerRequests then Some(ProviderRequests)
                           else None
      ensures requests == old(requests) + (if exhausted.None? then 1 else 0)
      ensures trace == old(trace) + [if exhausted.None? then Reserve(path) else Exhaust(path, exhausted.value)]
    {
      hide Truthful, Reserved, Charged;
      var now := Tick();
      exhausted := None;
      if script.expired(now) {
        exhausted := Some(WallTime);
      } else if requests >= limits.providerRequests {
        exhausted := Some(ProviderRequests);
      } else {
        requests := requests + 1;
      }
      var action := if exhausted.None? then Reserve(path) else Exhaust(path, exhausted.value);
      assert TrueAfter(trace, action, script, limits, clock);
      CountedMore(trace, action);
      TruthfulMore(trace, action, script, limits, clock, clock);
      trace := trace + [action];
    }

    /** Reserve one tool call for `call`, the `index`-th of its response, by an agent with these tools. */
    method ChargeCall(path: seq<string>, call: ToolCall, index: nat, tools: ToolSet)
      returns (exhausted: Option<Exhaustion>)
      requires Valid()
      modifies this`clock, this`calls, this`trace
      ensures Valid() && clock == old(clock) + 1
      ensures exhausted == if script.expired(old(clock)) then Some(WallTime)
                           else if old(calls) == limits.toolCalls then Some(ToolCalls)
                           else None
      ensures calls == old(calls) + (if exhausted.None? then 1 else 0)
      ensures trace == old(trace)
                       + [if exhausted.None? then Charge(path, call, index, tools) else Exhaust(path, exhausted.value)]
    {
      hide Truthful, Reserved, Charged;
      var now := Tick();
      exhausted := None;
      if script.expired(now) {
        exhausted := Some(WallTime);
      } else if calls >= limits.toolCalls {
        exhausted := Some(ToolCalls);
      } else {
        calls := calls + 1;
      }
      var action := if exhausted.None? then Charge(path, call, index, tools) else Exhaust(path, exhausted.value);
      assert TrueAfter(trace, action, script, limits, clock);
      CountedMore(trace, action);
      TruthfulMore(trace, action, script, limits, clock, clock);
      trace := trace + [action];
    }

    method IsCancelled(path: seq<string>) returns (cancelled: bool)
      requires Valid()
      modifies this`clock, this`trace
      ensures Valid() && trace == old(trace) + [Check(path, cancelled)]
      ensures clock == old(clock) + 1 && cancelled == script.cancelled(old(clock))
    {
      hide Truthful, Reserved, Charged;
      var now := Tick();
      cancelled := script.cancelled(now);
      CountedMore(trace, Check(path, cancelled));
      TruthfulMore(trace, Check(path, cancelled), script, limits, clock, clock);
      trace := trace + [Check(path, cancelled)];
    }

    /** Look at the flag to tell a cancelled subagent from a failed one. */
    method WasCancelled(path: seq<string>) returns (cancelled: bool)
      requires Valid()
      modifies this`clock, this`trace
      ensures Valid() && trace == old(trace) + [Look(path, cancelled)]
      ensures clock == old(clock) + 1 && cancelled == script.cancelled(old(clock))
    {
      hide Truthful, Reserved, Charged;
      var now := Tick();
      cancelled := script.cancelled(now);
      CountedMore(trace, Look(path, cancelled));
      TruthfulMore(trace, Look(path, cancelled), script, limits, clock, clock);
      trace := trace + [Look(path, cancelled)];
    }

    /** Ask the person attached to the root turn. */
    method RequestApproval(path: seq<string>, call: ToolCall, reason: GateReason) returns (answer: Approval)
      requires Valid()
      modifies this`clock, this`trace
      ensures Valid()
      ensures trace == old(trace) + [Emit(path, ApprovalRequested(call, reason)), AskUser(path, call, answer)]
      ensures clock == old(clock) + 1 && answer == script.approval(old(clock))
    {
      hide Truthful, Reserved, Charged;
      Log(Emit(path, ApprovalRequested(call, reason)));
      var now := Tick();
      answer := script.approval(now);
      CountedMore(trace, AskUser(path, call, answer));
      TruthfulMore(trace, AskUser(path, call, answer), script, limits, clock, clock);
      trace := trace + [AskUser(path, call, answer)];
    }

    /** Send one request; the streamed text matters only when it fails. */
    method Ask(path: seq<string>, messages: seq<Message>, tools: ToolSet)
      returns (outcome: ProviderOutcome, streamed: string)
      requires Valid()
      modifies this`clock, this`trace
      ensures Valid() && trace == old(trace) + [Send(path, messages, tools)] && clock == old(clock) + 1
      ensures outcome == script.provider(old(clock)) && streamed == script.streamed(old(clock))
    {
      Log(Send(path, messages, tools));
      var now := Tick();
      outcome, streamed := script.provider(now), script.streamed(now);
    }

    /** Take note of how the request ended. */
    method Hear(path: seq<string>, outcome: ProviderOutcome)
      requires Valid() && clock > 0 && outcome == script.provider(clock - 1)
      modifies this`trace
      ensures Valid() && trace == old(trace) + [Receive(path, outcome)]
    {
      hide Truthful, Reserved, Charged;
      CountedMore(trace, Receive(path, outcome));
      TruthfulMore(trace, Receive(path, outcome), script, limits, clock, clock);
      trace := trace + [Receive(path, outcome)];
    }

    method RunTool(path: seq<string>) returns (output: Result<string, string>)
      requires Valid()
      modifies this`clock, this`trace
      ensures Valid() && trace == old(trace) + [Ran(path, output)]
      ensures clock == old(clock) + 1 && output == script.output(old(clock))
    {
      hide Truthful, Reserved, Charged;
      var now := Tick();
      output := script.output(now);
      CountedMore(trace, Ran(path, output));
      TruthfulMore(trace, Ran(path, output), script, limits, clock, clock);
      trace := trace + [Ran(path, output)];
    }
  }
}
