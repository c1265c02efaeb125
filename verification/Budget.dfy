/** Limits, and the compare-exchange counter that agents sharing a budget draw from. */
module Budgets {
  // ----- Limits -----

  datatype TurnLimits = TurnLimits(
    providerRequests: nat,
    toolCalls: nat,
    toolCallsPerResponse: nat,
    wallTime: nat,
    shellTimeout: nat,
    autoContinues: nat)

  const MAX_LIMIT_SECONDS: nat := 30 * 24 * 60 * 60

  function Min(a: nat, b: nat): nat
  {
    if a <= b then a else b
  }

  predicate Below(a: TurnLimits, b: TurnLimits)
  {
    && a.providerRequests <= b.providerRequests
    && a.toolCalls <= b.toolCalls
    && a.toolCallsPerResponse <= b.toolCallsPerResponse
    && a.wallTime <= b.wallTime
    && a.shellTimeout <= b.shellTimeout
    && a.autoContinues <= b.autoContinues
  }

  predicate Enforceable(l: TurnLimits)
  {
    && l.providerRequests > 0 && l.toolCalls > 0 && l.toolCallsPerResponse > 0
    && 1 <= l.wallTime <= MAX_LIMIT_SECONDS && 1 <= l.shellTimeout <= MAX_LIMIT_SECONDS
  }

  /** The loosest limits below both, and whether anything was lowered. */
  function ClampTo(l: TurnLimits, ceiling: TurnLimits): (r: (TurnLimits, bool))
    ensures Below(r.0, l) && Below(r.0, ceiling)
    ensures forall other :: Below(other, l) && Below(other, ceiling) ==> Below(other, r.0)
    ensures r.1 <==> !Below(l, ceiling)
    ensures Enforceable(l) && Enforceable(ceiling) ==> Enforceable(r.0)
  {
    var clamped := TurnLimits(
      Min(l.providerRequests, ceiling.providerRequests),
      Min(l.toolCalls, ceiling.toolCalls),
      Min(l.toolCallsPerResponse, ceiling.toolCallsPerResponse),
      Min(l.wallTime, ceiling.wallTime),
      Min(l.shellTimeout, ceiling.shellTimeout),
      Min(l.autoContinues, ceiling.autoContinues));
    (clamped, clamped != l)
  }

  // ----- Charging from several threads -----

  /** A thread inside `charge`: before its load, holding the value it loaded, or finished. */
  datatype Thread = Idle | Loaded(used: nat) | Granted | Refused

  datatype State = State(counter: nat, threads: seq<Thread>)

  /** One atomic step of thread `i`: the first load, giving up at the limit, a compare-exchange that
      succeeds, or one that fails (also spuriously) and reloads. */
  predicate Step(s: State, s': State, i: nat, limit: nat)
  {
    && i < |s.threads|
    && match s.threads[i]
       case Idle => s' == s.(threads := s.threads[i := Loaded(s.counter)])
       case Loaded(used) =>
         if used >= limit then s' == s.(threads := s.threads[i := Refused])
         else
           || (s.counter == used && s' == State(used + 1, s.threads[i := Granted]))
           || s' == s.(threads := s.threads[i := Loaded(s.counter)])
       case _ => false
  }

  /** A run: consecutive states are a step of some thread apart. */
  ghost predicate Run(states: seq<State>, limit: nat)
  {
    states != [] && forall k :: 0 <= k < |states| - 1 ==> SomeStep(states[k], states[k + 1], limit)
  }

  ghost predicate SomeStep(s: State, s': State, limit: nat)
  {
    exists i: nat :: Step(s, s', i, limit)
  }

  predicate Initial(s: State, limit: nat)
  {
    s.counter <= limit && forall i :: 0 <= i < |s.threads| ==> s.threads[i] == Idle
  }

  function Count(threads: seq<Thread>, t: Thread): nat
  {
    if threads == [] then 0 else (if threads[0] == t then 1 else 0) + Count(threads[1..], t)
  }

  lemma {:induction false} CountUpdate(threads: seq<Thread>, i: nat, new': Thread, t: Thread)
    requires i < |threads|
    ensures Count(threads[i := new'], t) + (if threads[i] == t then 1 else 0)
            == Count(threads, t) + (if new' == t then 1 else 0)
  {
    if i == 0 {
      assert threads[0 := new'][1..] == threads[1..];
    } else {
      assert threads[i := new'][1..] == threads[1..][i - 1 := new'];
      CountUpdate(threads[1..], i - 1, new', t);
    }
  }

  lemma {:induction false} CountNone(threads: seq<Thread>, t: Thread)
    requires forall i :: 0 <= i < |threads| ==> threads[i] != t
    ensures Count(threads, t) == 0
  {
    if threads != [] { CountNone(threads[1..], t); }
  }

  lemma {:induction false} CountSome(threads: seq<Thread>, t: Thread, i: nat)
    requires i < |threads| && threads[i] == t
    ensures Count(threads, t) > 0
  {
    if i > 0 { CountSome(threads[1..], t, i - 1); }
  }

  /** Grants are exactly what the counter gained, and nobody is refused before the limit is reached. */
  predicate Exact(s: State, start: nat, limit: nat)
  {
    && s.counter == start + Count(s.threads, Granted)
    && s.counter <= limit
    && (forall i :: 0 <= i < |s.threads| && s.threads[i].Loaded? ==> s.threads[i].used <= s.counter)
    && (Count(s.threads, Refused) > 0 ==> s.counter == limit)
  }

  lemma StepExact(s: State, s': State, i: nat, start: nat, limit: nat)
    requires Exact(s, start, limit) && Step(s, s', i, limit)
    ensures Exact(s', start, limit)
  {
    var new' := s'.threads[i];
    CountUpdate(s.threads, i, new', Granted);
    CountUpdate(s.threads, i, new', Refused);
  }

  /** Under every interleaving the shared counter never overshoots and grants are never lost. */
  lemma {:induction false} ChargeExact(states: seq<State>, limit: nat, k: nat)
    requires Run(states, limit) && Initial(states[0], limit) && k < |states|
    ensures Exact(states[k], states[0].counter, limit)
    ensures |states[k].threads| == |states[0].threads|
  {
    if k == 0 {
      CountNone(states[0].threads, Granted);
      CountNone(states[0].threads, Refused);
    } else {
      ChargeExact(states, limit, k - 1);
      assert SomeStep(states[k - 1], states[k - 1 + 1], limit);
      var i: nat :| Step(states[k - 1], states[k], i, limit);
      StepExact(states[k - 1], states[k], i, states[0].counter, limit);
    }
  }

  lemma {:induction false} CountBoth(threads: seq<Thread>)
    requires forall i :: 0 <= i < |threads| ==> threads[i] == Granted || threads[i] == Refused
    ensures Count(threads, Granted) + Count(threads, Refused) == |threads|
  {
    if threads != [] { CountBoth(threads[1..]); }
  }

  /** When every thread has finished, as many were granted as the limit left room for. */
  lemma FinishedGrants(states: seq<State>, limit: nat)
    requires Run(states, limit) && Initial(states[0], limit)
    requires var last := states[|states| - 1];
             forall i :: 0 <= i < |last.threads| ==> last.threads[i] == Granted || last.threads[i] == Refused
    ensures var last := states[|states| - 1];
            Count(last.threads, Granted) == Min(|last.threads|, limit - states[0].counter)
  {
    ChargeExact(states, limit, |states| - 1);
    CountBoth(states[|states| - 1].threads);
  }
}

/** The one-way stop signal: no wake-up is lost between check, registration and re-check. */
module Cancellation {
  /** Inside `wait`: before the first check, before registering, registered with the generation seen,
      waiting for a later generation, or returned. */
  datatype Waiter = Start | Unregistered | Registered(seen: nat) | Waiting(seen: nat) | Returned

  /** Inside `cancel`: before the store, between the store and the wake-up, or done. */
  datatype Canceller = Before | Stored | Done

  /** `generation` counts wake-ups of all waiters. */
  datatype State = State(cancelled: bool, generation: nat, waiters: seq<Waiter>, cancellers: seq<Canceller>)

  function WaiterNext(s: State, w: Waiter): Waiter
    requires !w.Returned? && (w.Waiting? ==> s.generation > w.seen)
  {
    match w
    case Start => if s.cancelled then Returned else Unregistered
    case Unregistered => Registered(s.generation)
    case Registered(seen) => if s.cancelled then Returned else Waiting(seen)
    case Waiting(_) => Start
  }

  /** A waiter can take a step. */
  predicate Enabled(s: State, i: nat)
  {
    i < |s.waiters| && !s.waiters[i].Returned? && (s.waiters[i].Waiting? ==> s.generation > s.waiters[i].seen)
  }

  predicate WaiterStep(s: State, s': State, i: nat)
  {
    Enabled(s, i) && s' == s.(waiters := s.waiters[i := WaiterNext(s, s.waiters[i])])
  }

  predicate CancelStep(s: State, s': State, i: nat)
  {
    && i < |s.cancellers|
    && match s.cancellers[i]
       case Before => s' == s.(cancelled := true, cancellers := s.cancellers[i := Stored])
       case Stored => s' == s.(generation := s.generation + 1, cancellers := s.cancellers[i := Done])
       case Done => false
  }

  predicate Step(s: State, s': State, i: nat)
  {
    WaiterStep(s, s', i) || CancelStep(s, s', i)
  }

  ghost predicate Run(states: seq<State>)
  {
    states != [] && forall k :: 0 <= k < |states| - 1 ==> SomeStep(states[k], states[k + 1])
  }

  ghost predicate SomeStep(s: State, s': State)
  {
    exists i: nat :: Step(s, s', i)
  }

  predicate Initial(s: State)
  {
    && !s.cancelled
    && (forall i :: 0 <= i < |s.waiters| ==> s.waiters[i] == Start)
    && (forall i :: 0 <= i < |s.cancellers| ==> s.cancellers[i] == Before)
  }

  predicate CancelCompleted(s: State)
  {
    exists i :: 0 <= i < |s.cancellers| && s.cancellers[i] == Done
  }

  function Seen(w: Waiter): nat
  {
    match w case Registered(seen) => seen case Waiting(seen) => seen case _ => 0
  }

  predicate Sound(s: State)
  {
    && (forall i :: 0 <= i < |s.waiters| ==> Seen(s.waiters[i]) <= s.generation)
    && (forall i :: 0 <= i < |s.cancellers| && s.cancellers[i] != Before ==> s.cancelled)
    && (CancelCompleted(s) ==> forall i :: 0 <= i < |s.waiters| && s.waiters[i].Waiting? ==>
        s.waiters[i].seen < s.generation)
  }

  lemma StepSound(s: State, s': State, i: nat)
    requires Sound(s) && Step(s, s', i)
    ensures Sound(s')
  {
    if WaiterStep(s, s', i) {
      assert CancelCompleted(s') ==> CancelCompleted(s);
      assert CancelCompleted(s) ==> s.cancelled;
    } else if s.cancellers[i] == Before {
      if CancelCompleted(s') {
        var k :| 0 <= k < |s'.cancellers| && s'.cancellers[k] == Done;
        assert s.cancellers[k] == Done;
      }
    }
  }

  lemma {:induction false} AlwaysSound(states: seq<State>, k: nat)
    requires Run(states) && Initial(states[0]) && k < |states|
    ensures Sound(states[k])
  {
    if k > 0 {
      AlwaysSound(states, k - 1);
      assert SomeStep(states[k - 1], states[k - 1 + 1]);
      var i: nat :| Step(states[k - 1], states[k], i);
      StepSound(states[k - 1], states[k], i);
    }
  }

  /** Once some `cancel` has completed, no waiter is blocked. */
  lemma NoLostWakeUp(states: seq<State>, k: nat, i: nat)
    requires Run(states) && Initial(states[0]) && k < |states|
    requires CancelCompleted(states[k]) && i < |states[k].waiters|
    ensures states[k].waiters[i].Returned? || Enabled(states[k], i)
  {
    AlwaysSound(states, k);
  }

  /** How many steps of its own a waiter still needs. */
  function StepsLeft(w: Waiter): nat
  {
    match w
    case Returned => 0
    case Start => 1
    case Waiting(_) => 2
    case Registered(_) => 3
    case Unregistered => 4
  }

  /** After a completed `cancel` each step of a waiter brings it closer to returning, and no other step
      moves it, so it returns after at most four steps of its own. */
  lemma WaiterReturns(states: seq<State>, k: nat, i: nat, actor: nat)
    requires Run(states) && Initial(states[0]) && k + 1 < |states|
    requires CancelCompleted(states[k]) && i < |states[k].waiters|
    requires Step(states[k], states[k + 1], actor)
    ensures |states[k + 1].waiters| == |states[k].waiters| && CancelCompleted(states[k + 1])
    ensures states[k + 1].waiters[i] == states[k].waiters[i]
            || StepsLeft(states[k + 1].waiters[i]) < StepsLeft(states[k].waiters[i])
    ensures WaiterStep(states[k], states[k + 1], i) ==>
              StepsLeft(states[k + 1].waiters[i]) < StepsLeft(states[k].waiters[i])
  {
    AlwaysSound(states, k);
    var s, s' := states[k], states[k + 1];
    var d :| 0 <= d < |s.cancellers| && s.cancellers[d] == Done;
    assert s.cancelled;
    assert s'.cancellers[d] == Done;
  }
}
