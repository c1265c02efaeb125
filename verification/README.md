# xshell, verified

A Dafny model of the decision-making core of xshell: the agent-turn engine with everything it
relies on, the audit log, and the plan write-conflict checker.

`dafny verify dfyconfig.toml` checks all of it.

## What is modelled

**The agent turn.** `Engine.RunTurn` is the provider loop with its tool loop, overflow retry,
rollback, automatic continuation and nested subagent turns. It works on a history
(`seq<Message>`), a shared `World` object (budget counters, oracles, and the run so far as a
sequence of `Action`s) and a `CallIds` object. The provider, the clock, the cancellation flag, the
person approving, opening an object and running a tool are oracles: a `Script` of arbitrary
functions of the moment at which they are asked, so a theorem about every script is a theorem about
every behaviour of the outside, including a flag that is set at any point.

The promises of a turn are stated in five vocabularies.

- *Transcript* (`Transcript.dfy`). `Sendable` says what a strict endpoint accepts. `Read` is an
  automaton that composes over appends; `SendableIff` shows that it accepts exactly the sendable
  requests. `Ready` is a history that a new user message may follow. `Fit` is a history from which a
  turn may begin: ready, or such that compaction for the request drops all that is not.
- *Order* (`Order.dfy`). `Orderly` says of every step in which company it must be, whichever agent
  takes it: a reserved request is sent and received; a response is announced, the flag looked at and
  its first call charged; a charge is decided about; a decision is the policy's and is carried out to
  the result, which is that of the work done or the denial's text; a dispatch has a charge, an
  approval and a clear look at the flag before it; and nobody gives a turn up unasked. The actions of
  subagents are in the same sequence, and `Families` says of each of them what it promises for itself.
  `Approvals` reads off such a run, in its own terms, which calls are asked about and which run, and what
  subagents are granted.
- *Counts* (`Tally`). Requests and charges of the whole tree; and of one agent the calls received and
  announced, the ids charged and closed, nudges, aborts, subagents started, and what was said, message
  by message. `Due` are the ids a turn has to charge: the first of each response up to the limit.
- *Outcome* (`Turns.Ended`). Which histories each way of ending a turn may leave. `full` is the
  transcript as it would be if nothing were ever compacted: what was there, the message, and exactly
  what was said and asked for. What is left is related to it by `Retains`: the part before the first
  turn and everything from some turn on, with only tool results and reasoning shortened. On success
  the closed ids are the announced ids, in order; since these are distinct, each is closed exactly once.
- *Rounds* (`Turns.RoundStep`). Which answer of the budget and the provider, at which moment, leads to
  which next round. Every answer the engine gets is an action of the run; `Worlds.Truthful` says that
  the outside gave it, and `Agents.Caused` that one of them accounts for how the turn ended.

Termination of `RunTurn` is by (delegation still possible, remaining provider requests): a
subagent's tools never include delegation.

**What the turn relies on.** Each part is also described apart from how it computes. `Decisions`
states the documented decision table over the entries of the lists, and what entries match over
the pieces of the command; `Compaction.ElideMeans` how much elision takes;
`PathWalks.ComponentsMean` what a path is made of; `AuditLogs.AcceptedIff` which logs are
accepted. The parts are compaction (`Compaction.dfy` as functions, `HistoryBuffer.dfy` in place
with the running total), system-message merging, call ids, the approval policy with its wildcard
and command-part matching, the path glob, the confined path walk, the compare-exchange charge and
the cancellation flag as state machines over interleavings.

**The audit log.** `AuditLogWriter` and `VerifyLog` are two independent machines; the writer's
invariant says that the verifier, replaying what was written, stands where the writer does. Hashing
and signing are parameters. `Agrees` (signatures verify, hexadecimal reads back) is assumed where
the writer is verified; `CollisionFree` is assumed where a digest is to fix what was hashed.

**Write conflicts.** Reachability, gate exclusivity and prefix overlap, each shown equivalent to its
meaning, and `CheckWriteConflicts` shown to report exactly the pairs these leave.

## Where the code does not do what one would expect

- *Adjacent user messages.* Merging and rollback are there to keep every request acceptable, but a
  turn that dispatched a tool, was nudged on after an empty or announcing reply, and then failed
  leaves `.., user (nudge), system record`. The next turn's message follows it, and once the record
  is merged away two user messages are adjacent. `Sessions.AfterTurn` shows that this is the only
  way: from a ready history a turn leaves a ready history if and only if it did not fail after a
  dispatch with its nudge unanswered. `Sessions.TurnSendableIff` gives the exact condition for the
  requests of the next turn, and `Scenarios.StrandedSession` is a run in which one is not sendable.
- *Scoped ids.* `call_id.rs` says that scopes keep agents apart. A provider id passes through a
  root agent unchanged, so one that starts with `delegate-N/` can equal a subagent's id
  (`RootIdCanCollide`), and `Collisions.CollidingTurn` is a run in which the two announce the same
  id. `Sessions.TurnIdsApartIff` shows that nothing else can make two ids of a root turn equal,
  `Sessions.TurnIdsApart` that they differ whenever no root id starts so, and `LooksDelegatedIff`
  that every id that does could be some subagent's.
- *Approval modes.* A more permissive mode is not always more permissive: a command that a denial
  cannot be checked against is prompted in `ask` and denied in `auto`. `RulesOrdered` is the exact
  condition for host and overlay combined, `ModesCanInvert` a case.
- *Globs.* `**` is documented to stand for zero or more segments, but a `**` that is not last needs
  a segment after it, so `a/**/**` does not match `a` although `a/**` does (`DoubledTail`).
  `AsDocumentedIff` is the exact condition on patterns that write `**` as whole segments, and
  `GlobMeans` gives the meaning the code has for every pattern.
- *Final checkpoint.* The verifier reports the flag of the newest checkpoint and does not require it
  to be the last entry. `FinalCoversIff` shows that with the flag set every record is covered if and
  only if the last entry is a checkpoint, and `UnsignedAfterClose` that a linked record which nothing
  signs may follow a closed log. What the writer itself produces does end in its final checkpoint
  (`WriteSession`).

## Model

| member | source | states |
|---|---|---|
| `Sessions.RunRootTurn` | crates/xshell-execution/src/engine.rs:476-520 | one turn with a fresh budget meets all that `Engine.RunTurn` promises: its actions are in order (`Orderly`), so that every charged call is decided, every decision carried out and every result reported; every answer in it is one the outside gave; and round by round it leads to the transcript it leaves |
| `Sessions.RunSession` | crates/xshell-execution/src/engine.rs:500-935 | any number of turns, each with its own policy, limits and oracles: each starts from the transcript the one before left, and each meets the promises of one turn |
| `Sessions.SessionSendable` | crates/xshell-execution/src/engine.rs:500-935 | over every session from a ready history, as long as no earlier turn was stranded, every request of every agent is sendable, and the session ends ready if no turn was stranded |
| `Sessions.SessionKeeps` | crates/xshell-execution/src/engine.rs:1203-1216 | with no compactor, over every session the starting transcript is a prefix of the final one |
| `Sessions.AfterTurn` | crates/xshell-execution/src/engine.rs:1203-1216 | every request of a turn that may begin is sendable, and from a ready history the turn leaves a ready history if and only if it did not fail after a dispatch with a nudge unanswered |
| `Sessions.FirstRequestSendable` | crates/xshell-execution/src/engine.rs:523-536 | from a well-formed history the first request of a turn is sendable if and only if the history is ready or compaction keeps only the new turn |
| `Sessions.TurnSendableIff` | crates/xshell-execution/src/engine.rs:511-666 | the same for all requests of the turn, overflow retries and subagents included |
| `Scenarios.StrandedSession` | crates/xshell-execution/src/engine.rs:698-713 | a run: from any ready history, a scripted turn runs a tool, is nudged and runs out of requests, and the first request of the next turn is not sendable |
| `Scenarios.StrandedRun` | crates/xshell-execution/src/engine.rs:511-713 | every way of playing that script ends so |
| `Sessions.WhyItEnded` | crates/xshell-execution/src/engine.rs:511-935 | a turn fails as cancelled if and only if its agent found the flag set or had its request interrupted; it is aborted if and only if it says so, and then only after the person asked about a call of it or of its subagent gave the turn up; a limit it failed on was used up to the last unit |
| `Sessions.SmoothTurn` | crates/xshell-execution/src/engine.rs:511-933 | a turn nobody cancels, denies or delays, with a provider that always responds, completes unless it uses up one of the shared limits |
| `Sessions.CompletedWhenDone` | crates/xshell-execution/src/engine.rs:405-420 | a turn completes only on a response without calls; on one that is blank or announces another step, and was not cut off, only when all nudges are used up |
| `Sessions.ResultReachesTranscript` | crates/xshell-execution/src/engine.rs:860-933 | in a turn that did not fail and compacted nothing, what a dispatched call of the root yielded is reported as its result next, and that very result is in the transcript after the message of the turn |
| `Sessions.TurnIdsApartIff` | crates/xshell-execution/src/engine.rs:684-692 | in every root turn the ids announced by the root and all its subagents are pairwise distinct if and only if no id of the root is also one of a subagent |
| `Sessions.TurnIdsApart` | crates/xshell-execution/src/engine.rs:1013-1020 | and they are whenever no id that the root announces starts with a subagent scope |
| `Collisions.CollidingTurn` | crates/xshell-execution/src/engine.rs:684-692 | a run: after any transcript, a scripted turn in which the root and its first subagent both announce the id `delegate-1/x` |
| `Collisions.CollidingRun` | crates/xshell-execution/src/engine.rs:1013-1020 | every way of playing that script does so |
| `Sessions.EveryAgentKept` | crates/xshell-execution/src/engine.rs:1024-1044 | every agent that acts in a root turn announces every call it received, in order, under the ids that the provider's ids and its scope give; closes them in order and none twice; charges, in order, the first calls of each response up to the limit and no others; stays within the nudge limit and aborts at most once |
| `Sessions.SubagentOutcome` | crates/xshell-execution/src/engine.rs:1045-1085 | a subagent reported as completed or aborted closed every id it announced, one reported as completed charged every call that was due, and it is reported aborted exactly when it aborted |
| `Engine.RunTurn` | crates/xshell-execution/src/engine.rs:491-935 | a whole turn of an agent and its subagents: its actions are in order (`Orderly`); requests and charges are exactly those taken from the shared budget, which is never exceeded; it terminates; `rounds` gives every round with the answers of budget and provider at their exact moments; what the turn said and asked for is in `full`, and the transcript left is `full` without whole oldest turns and with shortened payloads (`Ended`); when it completes every call due was charged; how it ends has its cause in the run itself (`Caused`); an aborted turn ends in its `TurnAborted` |
| `Engine.Round` | crates/xshell-execution/src/engine.rs:511-678 | one pass of the provider loop is the step `RoundStep` specifies for the answers of budget and provider, and keeps the loop invariant `Kept` or ends the turn as `Ended` allows |
| `Engine.React` | crates/xshell-execution/src/engine.rs:557-678 | each outcome of a request leads to the step `OutcomeStep` specifies: which goes on, which fails with which error and history; an overflow is retried at most once and only if the history shrinks |
| `Engine.OnOverflow` | crates/xshell-execution/src/engine.rs:580-655 | a first overflow shrinks history and rollback copy and goes on, or fails with the payloads of the newest turn dropped after a dispatch, or rolled back plus one record before one; with any compactor the turn stays on record after a dispatch |
| `Engine.OnResponse` | crates/xshell-execution/src/engine.rs:668-712 | an accepted response: the compaction that was sent is committed, its calls are announced in order under the ids the provider's ids give rise to, the flag is looked at and the first call charged (`ReceiveForm`), and the step is `ResponseStep`; a response with calls never completes a turn |
| `Engine.Finish` | crates/xshell-execution/src/engine.rs:698-713 | a response without calls is nudged on exactly when there is a reason and the limit is not reached; otherwise the turn completes |
| `Engine.RunTools` | crates/xshell-execution/src/engine.rs:714-933 | every call of a response is answered in order after it; on success exactly the announced ids are closed, in order, exactly the calls within the per-response limit are charged, in order, and the results in the transcript are the results reported; only the flag, time and the limit on calls make it fail |
| `Engine.NextCall` | crates/xshell-execution/src/engine.rs:714-748 | the flag is looked at first and a set flag ends the turn there; a call over the per-response limit is refused with the text for that and nothing else; any other is charged before anything else happens to it; that call is answered or all the rest are settled |
| `Engine.HandleCall` | crates/xshell-execution/src/engine.rs:749-888 | a call is charged before anything else, nothing at all happens when the budget refuses, a charged call is left undecided exactly when its tool is not the agent's, and otherwise its actions are exactly its decision and what that leads to (`CallForm`) |
| `Engine.DecideAndRun` | crates/xshell-execution/src/engine.rs:783-888 | the actions of a charged call are exactly the policy's decision, the question with its reason and the answer if it prompts, what the observer is told, the look at the flag and, only if approved and clear, the dispatch and its work; the result is that of the work, or the denial of the policy or of the user (`StepForm`); `Approvals` says which calls these are |
| `Approvals.RulesSee` | crates/xshell-execution/src/engine.rs:785-799 | the rules are told the tool, the `command` string of a shell call, the path of an opened object, and that a call needs an approval exactly when it runs the shell or reads a sensitive object |
| `Approvals.WithoutEntries` | crates/xshell-execution/src/policy.rs:303-312 | without entries, calls that need an approval are denied, prompted or run by mode, and all others run |
| `Approvals.DispatchApproved` | crates/xshell-execution/src/engine.rs:799-837 | in every run, a dispatch comes after its charge and either the decision to run it or the prompt and the approval of that call, the telling of it and a clear look at the flag, in exactly these actions |
| `Approvals.AskedWhenPrompted` | crates/xshell-execution/src/engine.rs:806-813 | the person is asked only right after the policy decided to prompt for that call, and so only in `ask` |
| `Approvals.GatedDispatches` | crates/xshell-execution/src/tools.rs:300-308 | without entries, a shell command or the reading of a sensitive object is never dispatched in `off`, in `ask` only after the person approved that call, and in `auto` unasked; every other dispatch is unasked |
| `Approvals.AskedWhenNeeded` | crates/xshell-execution/src/tools.rs:300-308 | without entries nobody is asked about a call that needs no approval, dispatched or not |
| `Approvals.DeniedNeverDispatched` | crates/xshell-execution/src/policy.rs:266-270 | a call that a denial of the host or of the overlay matches is never dispatched, in any mode, whatever the person says |
| `Approvals.DeniedCommandNeverRuns` | crates/xshell-execution/src/policy.rs:28-39 | no piece of a dispatched shell command reads as words that a denied pattern means, and unless the person was asked all of it was read as written |
| `Approvals.DeniedIsReported` | crates/xshell-execution/src/engine.rs:799-860 | a denied call is told as refused and not dispatched; its result is the policy's denial, or the user's where the mode alone denies |
| `Approvals.RunIsDispatched` | crates/xshell-execution/src/engine.rs:803-888 | a call the policy runs is told as approved and, unless the flag is set, dispatched unasked |
| `Approvals.PromptIsCarriedOut` | crates/xshell-execution/src/engine.rs:806-860 | after a prompt the observer is told the person's answer, which, unless the flag is set, leads to the dispatch, to the user's denial as the result, or to the turn being given up |
| `Engine.DispatchAndRun` | crates/xshell-execution/src/engine.rs:845-888 | a dispatched call yields the result of its work and nothing else (`WorkForm`) |
| `Engine.ConcludeCall` | crates/xshell-execution/src/engine.rs:889-933 | the result is reported and answers the call in the transcript; then the turn is given up if a subagent was aborted, or the flag is looked at again and, when set, the calls not reached are skipped |
| `Agents.CallProper` | crates/xshell-execution/src/engine.rs:714-933 | a call, from the look at the flag before it to the one after its result, is in order, whatever its subagent did in between |
| `Engine.Execute` | crates/xshell-execution/src/engine.rs:860-888 | a tool other than delegation yields its bounded output, its error whole or the preparation's failure, and does nothing else to the run |
| `Approvals.OrdinaryResult` | crates/xshell-execution/src/engine.rs:879-894 | in every run, what is reported after a dispatched call other than a delegation is the message of a failed preparation, or its output, cut above 65536 bytes, or its error whole |
| `Engine.RunDelegation` | crates/xshell-execution/src/engine.rs:976-1010 | a delegation that cannot be granted does nothing and yields the text for that; a granted one promises what `Engine.RunChild` does (`DelegationForm`) |
| `Orders.GrantsIff` | crates/xshell-execution/src/engine.rs:985-1012 | a delegation is granted exactly when its task is a string that is not blank and `tools` is absent, `read_only` or `inherit`; it gets the two reading tools of the parent, or with `inherit` all but delegation |
| `Approvals.StartedIsGranted` | crates/xshell-execution/src/engine.rs:1001-1023 | in every run a subagent is started only right after a dispatched delegation, with its task and exactly the tools that grants: the shell only if the call says `inherit` and the parent has it |
| `Approvals.DelegationStarts` | crates/xshell-execution/src/engine.rs:985-1023 | a dispatched delegation starts its subagent next if it is granted and yields the text for a bad one if not |
| `Engine.RunChild` | crates/xshell-execution/src/engine.rs:1010-1085 | a subagent's run is part of its parent's: same budget, in order under the parent's law, every request sendable, a scope not used before, its own promises kept and its outcome truly told; it is announced with exactly the tools it then offers, nobody else acts until it has finished, and the result is told from how it ended and the last thing it said |
| `Agents.ConcludeTold` | crates/xshell-execution/src/engine.rs:1045-1085 | what the parent gets is determined by the outcome reported and the subagent's own last words |
| `Agents.DelegationEnded` | crates/xshell-execution/src/engine.rs:1045-1085 | the outcome and message reported are those of how the subagent's run ended: a used-up limit, the flag found set, the error, the abort or the completion, each with its cause among the subagent's own actions |
| `Approvals.AnswerMeans` | crates/xshell-execution/src/engine.rs:1045-1063 | a completed subagent returns what it said last without the white space around it, or a fixed text when that is blank |
| `Approvals.EndMeans` | crates/xshell-execution/src/engine.rs:1045-1078 | any other subagent returns its name and how it ended |
| `Engine.RefuseCall` | crates/xshell-execution/src/engine.rs:1118-1135 | a refused call is closed once, its result is reported once, and the same result answers it in the transcript |
| `Turns.FailKept` | crates/xshell-execution/src/engine.rs:1203-1216 | failing at any point of the loop, with any compactor, leaves the turn on record after a dispatch and undoes it before one |
| `Turns.DropEnded` | crates/xshell-execution/src/engine.rs:607-637 | dropping the newest turn's payloads before failing changes nothing before it, keeps every call answered, and keeps the turn on record |
| `Turns.RetryKept` | crates/xshell-execution/src/engine.rs:596-606 | shrinking history and snapshot together keeps the loop invariant, also when only compaction made the history acceptable |
| `Turns.RecordKept` | crates/xshell-execution/src/engine.rs:638-648 | a rolled-back turn may add one record and is then still ready |
| `Turns.SendKept` | crates/xshell-execution/src/engine.rs:523-536 | a request made from a history that satisfies the invariant is sendable after compaction and merging |
| `Requests.FirstStaged` | crates/xshell-execution/src/engine.rs:458-474 | how the first request of a turn reads, and that it is refused otherwise |
| `Requests.OverflowStaged` | crates/xshell-execution/src/engine.rs:580-606 | a first request that may be sent only thanks to compaction may be sent again after it overflowed |
| `Requests.UserAfterUser` | crates/xshell-execution/src/engine.rs:1166-1201 | a user message after an unanswered user message is never sendable, whatever records lie between and however they are merged |
| `Retention.RetainsCompacted` | crates/xshell-execution/src/compaction.rs:252-315 | however often and for whatever reason a transcript is compacted, what is left is its prefix and everything from some turn on, message by message, with only tool results and reasoning shortened |
| `Retention.RetainsDropped` | crates/xshell-execution/src/compaction.rs:223-236 | dropped payloads are still on record |
| `Turns.AcceptKept` | crates/xshell-execution/src/engine.rs:669-697 | committing the staged compaction and the response leaves exactly the response's calls to answer |
| `Turns.ToolsKept` | crates/xshell-execution/src/engine.rs:714-933 | what the tool loop leaves satisfies the provider loop's invariant or ends the turn |
| `Turns.ToolsCharged` | crates/xshell-execution/src/engine.rs:733-748 | after the tool loop the charged calls are again the first of every response up to the limit, or a beginning of these when the turn ends |
| `Orders.ReceivedIsAnnounced` | crates/xshell-execution/src/engine.rs:668-732 | in a run in order, whichever agent acts: every response is reported and its calls announced in order, then the flag is looked at and, when clear, the first call is charged or the budget is used up |
| `Orders.ChargedIsDecided` | crates/xshell-execution/src/engine.rs:714-815 | every charge follows a look at the flag that found it clear, is within the per-response limit, and is followed by a decision about that call, or by its refusal when its tool is not the agent's |
| `Orders.DispatchedIsReported` | crates/xshell-execution/src/engine.rs:845-933 | every dispatched call does its work right then, the result reported next is what that work yields, and the flag is looked at after it unless the user gave the turn up |
| `Orders.OrderlyConcat` | crates/xshell-execution/src/engine.rs:714-888 | order is local: runs in order apart are in order one after the other |
| `Orders.OrderlyForParent` | crates/xshell-execution/src/engine.rs:1010-1023 | what is in order for a subagent is in order for its parent |
| `Traces.FamiliesConcat` | crates/xshell-execution/src/engine.rs:1024-1085 | runs in which every subagent kept its promises compose to such runs |
| `Traces.TalliedFromOutside` | crates/xshell-execution/src/engine.rs:1087-1114 | to its parent's own counts a subagent's run is requests and charges and nothing else |
| `Traces.SendableMeans` | crates/xshell-execution/src/engine.rs:523-545 | the tally's flag says that every request in the run is sendable |
| `Traces.NumberedNext` | crates/xshell-execution/src/engine.rs:1013-1016 | the next delegation's scope differs from those of all earlier ones |
| `Traces.NumberedDistinct` | crates/xshell-execution/src/engine.rs:1013-1020 | no two subagents of an agent have the same name |
| `Worlds.World.ChargeRequest` | crates/xshell-execution/src/budget.rs:301-310 | refuses exactly when time is up or the limit is reached, and otherwise takes one; the run records which |
| `Worlds.World.ChargeCall` | crates/xshell-execution/src/budget.rs:311-319 | refuses exactly when time is up or the limit is reached, and otherwise takes one; the run records which |
| `Transcript.SendableIff` | crates/xshell-execution/src/engine.rs:1143-1165 | an automaton over messages accepts exactly the requests with system only first, no adjacent users, and each assistant's calls followed by exactly their results |
| `Transcript.ReadResults` | crates/xshell-execution/src/engine.rs:1137-1141 | one stub per unfinished call, in order, settles them all |
| `Transcript.ReplyMeans` | crates/xshell-core/src/lib.rs:183-187 | a reply keeps its text and calls, and its reasoning exactly when some of that is not white space |
| `Merging.MergeSystemMessages` | crates/xshell-execution/src/engine.rs:1166-1201 | the index collection and reverse removal compute `Merged`, and report how many were misplaced |
| `Merging.MergedShape` | crates/xshell-execution/src/engine.rs:1166-1201 | after merging only the first message is a system one, it holds every record's text in order, and the conversation is untouched |
| `Merging.SystemMeans` | crates/xshell-execution/src/engine.rs:1166-1201 | the texts merged are the contents of exactly the system messages, in order, and the rest are exactly the other messages, in order |
| `Merging.MergedSendable` | crates/xshell-execution/src/engine.rs:1166-1201 | merging makes every well-formed history sendable |
| `Merging.MergedIdempotent` | crates/xshell-execution/src/engine.rs:1166-1201 | merging twice is merging once |
| `Merging.ReadMerged` | crates/xshell-execution/src/engine.rs:1166-1201 | merging changes neither what is pending nor who spoke last |
| `Compaction.ElideShrinks` | crates/xshell-execution/src/compaction.rs:153-212 | elision keeps number, role, calls and ids of all messages and never adds bytes; it reports a change exactly when it made one |
| `Compaction.ElideFitsOrExhausts` | crates/xshell-execution/src/compaction.rs:153-212 | the result fits, or no reasoning is left and every tool result but the newest is at most marker-sized |
| `Compaction.ElideMeans` | crates/xshell-execution/src/compaction.rs:153-212 | elision does exactly as much as is needed: a tool result that is not the newest becomes the marker exactly when it is longer and the history with those before it elided did not fit; then the newest is cut to the longest beginning at a character boundary that fits with the marker; then reasoning goes, oldest first, exactly while the history does not fit |
| `Compaction.BoundaryMeans` | crates/xshell-execution/src/compaction.rs:186-190 | a text is cut anywhere but before a byte whose two top bits are 1 and 0 |
| `Compaction.BytesMean` | crates/xshell-execution/src/compaction.rs:111-124 | a message weighs as much as its content, its reasoning and the names and arguments of its calls together |
| `Compaction.EvictFewest` | crates/xshell-execution/src/compaction.rs:252-275 | removing fewer turns than eviction does would not fit |
| `Compaction.EvictFitsOrSingle` | crates/xshell-execution/src/compaction.rs:252-275 | eviction fits the history or leaves a single turn |
| `Compaction.EvictShrinks` | crates/xshell-execution/src/compaction.rs:252-275 | eviction never adds bytes and changes something exactly when it removes a turn |
| `Compaction.CompactToSound` | crates/xshell-execution/src/compaction.rs:252-293 | the result fits or is a single exhausted turn; never larger; nothing is reported exactly when nothing changed |
| `Compaction.ReportTrue` | crates/xshell-execution/src/compaction.rs:239-293 | a report gives the messages, bytes and turns of the history before and after |
| `Compaction.OverflowDeeper` | crates/xshell-execution/src/compaction.rs:309-315 | the pass after an overflow aims at half the budget but not below 1024 bytes: it leaves alone what meets either, and makes any other meet one of them or leaves one exhausted turn |
| `Compaction.ReadCompacted` | crates/xshell-execution/src/compaction.rs:252-293 | compaction of a well-formed history keeps it well formed, with the same speaker last |
| `Compaction.CompactorKeepsReading` | crates/xshell-execution/src/compaction.rs:305-315 | the same for staged, final and overflow compaction and for no compactor |
| `Compaction.ReadDropped` | crates/xshell-execution/src/compaction.rs:223-236 | dropping payloads keeps the call structure |
| `Compaction.DroppedMeans` | crates/xshell-execution/src/compaction.rs:223-236 | from the index on no reasoning is left and every tool result is the marker; everything else is as it was |
| `Compaction.DropCountMeans` | crates/xshell-execution/src/compaction.rs:223-236 | the count is that of the messages that differ |
| `HistoryBuffers.HistoryBuffer.ElideOlderResults` | crates/xshell-execution/src/compaction.rs:153-180 | the in-place pass elides exactly as many results as are needed, oldest first (`OlderElided`), and its running total is the true byte sum |
| `HistoryBuffers.HistoryBuffer.TruncateNewestResult` | crates/xshell-execution/src/compaction.rs:181-197 | the in-place truncation keeps the longest beginning that fits (`NewestCut`), with an exact total |
| `HistoryBuffers.HistoryBuffer.DropReasoningReplay` | crates/xshell-execution/src/compaction.rs:198-210 | the in-place pass drops reasoning exactly while the history does not fit (`ReasoningDropped`), with an exact total |
| `HistoryBuffers.HistoryBuffer.ElideOversizedBodies` | crates/xshell-execution/src/compaction.rs:153-212 | the three passes in order compute `Elide`, on which fit-or-exhaust is proved |
| `HistoryBuffers.HistoryBuffer.DropToolPayloads` | crates/xshell-execution/src/compaction.rs:223-236 | drops every tool payload and all reasoning from an index on, and counts exactly the messages this changes |
| `HistoryBuffers.HistoryBuffer.FindTurnStarts` | crates/xshell-execution/src/compaction.rs:138-147 | finds exactly the user messages, in order, and the prefix before the first |
| `HistoryBuffers.HistoryBuffer.Compact` | crates/xshell-execution/src/compaction.rs:252-293 | the in-place eviction loop and elision compute `CompactTo` and its report |
| `CallIdentifiers.CallIds.UnusedSuffix` | crates/xshell-execution/src/call_id.rs:31-54 | the search ends, by pigeonhole over the issued ids, with the least unused suffix |
| `CallIdentifiers.DisambiguatesMeans` | crates/xshell-execution/src/call_id.rs:31-54 | an id issued before gets the least unused `~n` from 2 on, a call without an id becomes `call~n` with the least unused n from 1 on |
| `CallIdentifiers.CallIds.Scope` | crates/xshell-execution/src/call_id.rs:31-54 | an id not yet issued passes unchanged, any other gets the least unused suffix; all issued ids stay distinct |
| `CallIdentifiers.CallIds.ScopeAll` | crates/xshell-execution/src/engine.rs:684-692 | every call of a response, in order, with only its id changed: each issued id is, under the scope, the provider's own if it was not issued before and otherwise the one with the least unused suffix (`Renamed`) |
| `CallIdentifiers.RenamedUnique` | crates/xshell-execution/src/call_id.rs:31-54 | the ids an agent issues are determined by its scope and the provider's ids |
| `CallIdentifiers.DisambiguationUnique` | crates/xshell-execution/src/call_id.rs:31-54 | the id a call gets is determined by the ids issued before it |
| `CallIdentifiers.SubagentsApart` | crates/xshell-execution/src/engine.rs:1013-1020 | ids of two subagents of one agent never coincide |
| `CallIdentifiers.LooksDelegatedIff` | crates/xshell-execution/src/call_id.rs:46-54 | an id can be some subagent's if and only if it starts with a subagent scope |
| `CallIdentifiers.RootIdCanCollide` | crates/xshell-execution/src/call_id.rs:46-54 | a concrete provider id for which it does |
| `Wildcards.WildcardMeans` | crates/xshell-execution/src/policy.rs:418-436 | the greedy leftmost matcher accepts exactly when some string for each `*` makes the pattern equal the text |
| `Wildcards.MatchParts` | crates/xshell-execution/src/policy.rs:418-436 | the loop that shrinks the remaining text computes the greedy matcher |
| `Wildcards.MatchWildcard` | crates/xshell-execution/src/policy.rs:418-436 | the matcher as written, with its prefix shortcut, has that meaning |
| `Wildcards.WordsMatchMeans` | crates/xshell-execution/src/policy.rs:399-416 | word lists match exactly when each word does, with a trailing `*` standing for any number of words |
| `Wildcards.MatchWords` | crates/xshell-execution/src/policy.rs:399-416 | the word loop computes the word matcher |
| `ApprovalPolicies.CheckParts` | crates/xshell-execution/src/policy.rs:380-394 | the piece loop yields all parts or nothing |
| `ApprovalPolicies.PartsAgree` | crates/xshell-execution/src/policy.rs:367-394 | `command_parts` equals `checked_parts` wherever the latter succeeds |
| `ApprovalPolicies.SimpleIsOnlyPart` | crates/xshell-execution/src/policy.rs:355-378 | a simple command is its own only part |
| `Decisions.PartsMean` | crates/xshell-execution/src/policy.rs:367-375 | the parts of a command are, in order, the words of exactly those of its pieces between separating and expanding characters that read as words |
| `Decisions.CheckedIff` | crates/xshell-execution/src/policy.rs:380-394 | a command can be checked exactly when nothing in it expands and every piece between separators reads as no words or with a plain first word |
| `Decisions.SimpleIff` | crates/xshell-execution/src/policy.rs:355-362 | a simple command is one without separators whose only part can be checked |
| `Decisions.PlainWordsAreLiteral` | crates/xshell-execution/src/policy.rs:342-351 | no character with a meaning to the shell is plain |
| `Decisions.ShellAllowsMeans` | crates/xshell-execution/src/policy.rs:142-155 | a shell entry allows exactly the simple commands its pattern means |
| `Decisions.ShellDeniesMeans` | crates/xshell-execution/src/policy.rs:158-170 | a shell entry denies exactly the commands with some piece that reads as words its pattern means |
| `Decisions.EntriesMean` | crates/xshell-execution/src/policy.rs:134-170 | an entry that names a tool matches all its calls, one with a path pattern those that opened an object the pattern matches |
| `Decisions.CoveredMeans` | crates/xshell-execution/src/policy.rs:174-186 | an entry is covered by itself and by the entry for its whole tool, and by nothing else |
| `Decisions.DecisionMeans` | crates/xshell-execution/src/policy.rs:12-39 | a policy decides what the documented table says of its entries, line by line, except that a command that cannot be read under shell denials is at most prompted in `ask` and denied otherwise; an always-allowed sensitive path runs unasked exactly when the host's first matching entry names the path |
| `Decisions.TableUnique` | crates/xshell-execution/src/policy.rs:12-18 | the table determines its line |
| `Decisions.UnreadableIff` | crates/xshell-execution/src/policy.rs:249-258 | exactly when a shell command counts as one that cannot be read |
| `Decisions.CombinedMeans` | crates/xshell-execution/src/policy.rs:316-331 | host and overlay together deny if either denies and run only if both run |
| `ApprovalPolicies.AllowsImpliesDenies` | crates/xshell-execution/src/policy.rs:142-170 | an entry that would allow a call would also deny it |
| `ApprovalPolicies.CoveredIsDenied` | crates/xshell-execution/src/policy.rs:174-186 | a call allowed by a covered entry is denied by the entry that covers it |
| `ApprovalPolicies.PolicyRunsOnlyWhatItCanRead` | crates/xshell-execution/src/policy.rs:231-300 | with a shell-pattern denial a `run_shell` call runs only if the whole command was read and no part matches a denial |
| `ApprovalPolicies.RunsOnlyWhatItCanRead` | crates/xshell-execution/src/policy.rs:316-331 | the same for base and overlay combined |
| `ApprovalPolicies.DenialNeverLoosens` | crates/xshell-execution/src/policy.rs:231-300 | adding a denial anywhere never loosens a decision for any call, mode or role |
| `ApprovalPolicies.OverlayNeverLoosens` | crates/xshell-execution/src/policy.rs:316-331 | nor does an overlay, nor a denial added to one |
| `ApprovalPolicies.WarnedAlwaysAllowedHasNoEffect` | crates/xshell-execution/src/policy.rs:190-300 | removing an `always_allowed` entry that draws a warning changes no decision |
| `ApprovalPolicies.WarnedAllowedHasNoEffect` | crates/xshell-execution/src/policy.rs:190-300 | removing an `allowed` entry that draws a warning changes no decision |
| `ApprovalPolicies.OverriddenEntries` | crates/xshell-execution/src/policy.rs:203-226 | names exactly the covered entries, each with the first denial that covers it, in order |
| `ApprovalPolicies.ParseWarnings` | crates/xshell-execution/src/policy.rs:190-226 | warns about exactly the overridden entries of both lists |
| `ApprovalPolicies.PromptsOnlyInAsk` | crates/xshell-execution/src/policy.rs:231-331 | only mode `ask` ever prompts; `Decisions.DecisionMeans` says for which calls |
| `ApprovalPolicies.ModesOrdered` | crates/xshell-execution/src/policy.rs:231-300 | for one policy, `off` is never looser than `ask`; `ask` is no looser than `auto` if and only if the denial is checkable or the rules deny anyway |
| `ApprovalPolicies.RulesOrdered` | crates/xshell-execution/src/policy.rs:316-331 | for host and overlay combined, `auto` is stricter than `ask` exactly for calls that either cannot check and that `ask` does not deny |
| `ApprovalPolicies.ModesCanInvert` | crates/xshell-execution/src/policy.rs:231-243 | a concrete policy and command prompted in `ask` and denied in `auto`, for every splitter that reads the empty text as no words |
| `Tools.FromName` | crates/xshell-execution/src/tools.rs:49-53 | finds the tool of that name, and none only when no tool has it |
| `Tools.Get` | crates/xshell-execution/src/tools.rs:94-97 | finds the tool among those offered, and none only when none offered has that name |
| `Tools.ChildTools` | crates/xshell-execution/src/tools.rs:99-107 | a subagent's tools are its parent's and never include delegation |
| `Tools.TruncateMeans` | crates/xshell-execution/src/tools.rs:591-602 | output of up to 65536 bytes is kept; of more, the longest beginning of at most that many that ends at a character boundary, and a note |
| `Sensitive.GlobMatch` | crates/xshell-execution/src/sensitive.rs:112-169 | the recursive matcher with its index loop computes `Glob` |
| `Globs.GlobMeans` | crates/xshell-execution/src/sensitive.rs:112-169 | for every pattern, the matcher accepts exactly the texts that are a string for each token of the pattern, put together |
| `Sensitive.GlobSegmentwise` | crates/xshell-execution/src/sensitive.rs:112-169 | without `**` a pattern matches only texts with as many segments, each by its own segment pattern |
| `Sensitive.DoubledTail` | crates/xshell-execution/src/sensitive.rs:112-169 | `a/**` matches `a` and `a/**/**` does not |
| `Globs.AsDocumentedIff` | crates/xshell-execution/src/sensitive.rs:112-169 | a pattern that writes `**` as whole segments means what is documented, on every path, if and only if it does not pile two or more `**` after its last ordinary segment |
| `Globs.PiledDiffers` | crates/xshell-execution/src/sensitive.rs:112-169 | every such piled pattern misses the path of its own ordinary segments |
| `Sensitive.PatternUnderAncestors` | crates/xshell-execution/src/sensitive.rs:93-110 | a non-anchored pattern that matches a path matches it below any ancestors |
| `Sensitive.LiteralPattern` | crates/xshell-execution/src/sensitive.rs:93-110 | a pattern without wildcards matches, with a leading slash, exactly the path after it, and otherwise that path itself and every path that ends in it below a directory |
| `Sensitive.NewPatternsMean` | crates/xshell-execution/src/sensitive.rs:66-75 | a configured pattern counts without white space around it and `./` before it, and not at all if nothing is left |
| `Sensitive.MatchesUnderAncestors` | crates/xshell-execution/src/sensitive.rs:93-110 | the same for a pattern list |
| `Budgets.ClampTo` | crates/xshell-execution/src/budget.rs:81-93 | the greatest limits below both, reported as clamped exactly when the first exceeded the ceiling somewhere; enforceable limits stay so |
| `Budgets.ChargeExact` | crates/xshell-execution/src/budget.rs:344-355 | under every interleaving of compare-exchange steps the counter is the start plus the grants and never above the limit |
| `Budgets.FinishedGrants` | crates/xshell-execution/src/budget.rs:344-355 | when all threads have finished exactly min(threads, remaining) were granted |
| `Cancellation.AlwaysSound` | crates/xshell-execution/src/engine.rs:218-245 | in every interleaving no waiter waits for a wake-up that was given before it registered |
| `Cancellation.NoLostWakeUp` | crates/xshell-execution/src/engine.rs:218-245 | once `cancel` has completed every waiter has returned or can step |
| `Cancellation.WaiterReturns` | crates/xshell-execution/src/engine.rs:230-245 | and every step it takes brings it closer to returning, which nobody undoes |
| `PathWalks.PushFront` | crates/xshell-execution/src/prepared.rs:265-277 | puts a path's components before the pending ones, in order |
| `PathWalks.ComponentsMean` | crates/xshell-execution/src/prepared.rs:265-277 | the components are exactly the segments between slashes other than empty ones and `.`, in order and each as often as it occurs, so every `..` is among them |
| `PathWalks.ClimbsMeans` | crates/xshell-execution/src/prepared.rs:171-187 | the components climb above where they start exactly when some prefix of the segments has more `..` than names |
| `PathWalks.Walk` | crates/xshell-execution/src/prepared.rs:171-220 | for a filesystem that changes between calls the walk ends; with every link read replaced by its target, the chain from the root, each step a no-follow open of one named child, is the lexical normalisation of the components taken; it is complete, or the next component climbs above the root, is a link that leads out, or is a link after 40 others, or the last call about it failed (`Walked`) |
| `PathWalks.WalkedMeans` | crates/xshell-execution/src/prepared.rs:171-220 | a walk that goes all the way took the normalised path, and one refused without a link leading out was asked for a path that climbs |
| `PathWalks.LinkFreeWalk` | crates/xshell-execution/src/prepared.rs:171-187 | without links, whatever else changes, the path reached is the normalisation of what was asked for, and, unless a call fails, it is refused as outside the root if and only if a prefix climbs above it |
| `PathWalks.Prepare` | crates/xshell-execution/src/prepared.rs:148-240 | the walk is over what was requested, relative to the root when that is absolute; the prepared object is the last descriptor of that walk, of the kind asked for, named by the path it took, and sensitive exactly when that name matches; it is refused exactly when the walk or its kind is; without links, unless a call fails, it is refused as outside the root if and only if a prefix of the segments requested has more `..` than names |
| `PathWalks.JoinPathMeans` | crates/xshell-execution/src/prepared.rs:221-226 | the path of an object is the root, a slash unless the root ends in one, and the names walked with slashes between |
| `PathWalks.NormaliseIff` | crates/xshell-execution/src/prepared.rs:171-187 | normalisation from any depth fails if and only if some prefix climbs above the root |
| `PathWalks.RefusedIffClimbs` | crates/xshell-execution/src/prepared.rs:171-187 | the same from the root |
| `AuditLogs.VerifyLog` | crates/xshell-audit/src/log.rs:262-344 | the loop over expected state decides `Verdict`, which `AcceptedIff` characterises |
| `AuditLogs.AcceptedIff` | crates/xshell-audit/src/log.rs:262-380 | a log is accepted if and only if it is not empty and every entry may stand where it stands: format 1 to 5, one session, records numbered, linked and hashed, checkpoints numbered, linked, covering exactly the records before them under the right key, committed to, hashed and signed; the report is then that of the entries |
| `AuditLogs.UnsignedIsRefused` | crates/xshell-audit/src/log.rs:361-368 | a log with a checkpoint whose signature does not decode or does not verify is refused |
| `AuditLogs.HeadFixesBodies` | crates/xshell-audit/src/log.rs:276-343 | two linked record lists of one length with one head are equal |
| `AuditLogs.SameHeadSameRecords` | crates/xshell-audit/src/log.rs:276-343 | two accepted logs with one record count and one chain head hold identical record bodies |
| `AuditLogs.CheckpointFixesPrefix` | crates/xshell-audit/src/log.rs:307-335 | an accepted checkpoint fixes the exact records before it, in any accepted log it appears in |
| `AuditLogs.CheckpointHeadFixesCheckpoints` | crates/xshell-audit/src/log.rs:307-335 | the checkpoint chain fixes all checkpoint bodies likewise |
| `AuditLogs.PrefixAccepted` | crates/xshell-audit/src/log.rs:276-343 | every prefix cut at an entry boundary replays |
| `AuditLogs.FinalCoversIff` | crates/xshell-audit/src/log.rs:307-343 | in an accepted log with the flag set, the newest checkpoint is final, and covers every record if and only if it is the last entry |
| `AuditLogs.UnsignedAfterClose` | crates/xshell-audit/src/log.rs:276-343 | a closed log with one more linked record, which nothing signs, is accepted with the flag still set |
| `AuditLogs.AuditLogWriter.constructor` | crates/xshell-audit/src/log.rs:107-164 | a new writer stands where the verifier starts |
| `AuditLogs.AuditLogWriter.WriteCheckpoint` | crates/xshell-audit/src/log.rs:207-242 | the verifier accepts the checkpoint and stands where the writer does |
| `AuditLogs.AuditLogWriter.Append` | crates/xshell-audit/src/log.rs:178-201 | the verifier accepts the record and any due checkpoint; exactly one record is added |
| `AuditLogs.AuditLogWriter.Close` | crates/xshell-audit/src/log.rs:203-205 | the verifier accepts the final checkpoint, which is the last entry and covers every record; no record is added |
| `AuditLogs.WriteSession` | crates/xshell-audit/src/log.rs:178-242 | appending n events with interval k and closing is accepted with n records, n/k + 1 checkpoints, the final flag and the writer's head, holds those events in order, ends in a final checkpoint over all n records, and every non-empty prefix is accepted; interval 0 is refused |
| `Conflicts.Reachability.constructor` | crates/xshell-plan/src/conflict.rs:77-88 | lists exactly the successors over edges that are not feedback |
| `Conflicts.Reachability.Reaches` | crates/xshell-plan/src/conflict.rs:94-110 | the breadth-first search ends and finds the target if and only if a non-empty path leads to it |
| `Conflicts.Reachability.Ordered` | crates/xshell-plan/src/conflict.rs:90-92 | one of the two reaches the other |
| `Conflicts.ExclusiveIff` | crates/xshell-plan/src/conflict.rs:42-50 | route conditions are mutually exclusive if and only if no assignment of one outcome per gate activates both |
| `Conflicts.OverlapIff` | crates/xshell-plan/src/conflict.rs:52-70 | write specifications overlap if and only if some path starts with both literal prefixes |
| `Conflicts.LiteralPrefixMeans` | crates/xshell-plan/src/conflict.rs:61-66 | the literal prefix is the pieces between slashes up to the first that contains an asterisk, a question mark or a bracket |
| `Conflicts.CheckWriteConflicts` | crates/xshell-plan/src/conflict.rs:5-40 | reports exactly the overlapping write pairs of tasks that are neither ordered nor exclusive, each once and in order |
| `Conflicts.NothingReportedIff` | crates/xshell-plan/src/conflict.rs:5-40 | nothing is reported if and only if no two unordered tasks can be active together and share a path |

## Left out

- Provider adapters, HTTP, streaming deltas and JSON: the provider is an oracle that responds, overflows, breaks, is interrupted or times out.
- Wall time: expiry is an oracle answer at each point where the code looks at it.
- Tool execution, process groups and output collection: a tool yields an opaque string.
- Texts the engine writes into transcripts and errors: arbitrary strings, in `Texts`.
- `announces_next_step`: an oracle boolean; only the bound on continuations and when one happens are modelled.
- `effective_max_bytes`, `for_model` and token estimates: configuration arithmetic; the byte budget is any number, or none.
- Parsing of policy entries, limits and durations from text: entries are values.
- `shell_words::split`: an arbitrary function from commands to word lists or failure, so the policy results hold for every splitter.
- SHA-256, Ed25519, hexadecimal and serde: parameters of the audit model, with the two assumptions named above.
- `relative_to_root`, `canonicalize` and further spellings of the root: an oracle that yields components or a refusal.
- The bit encoding of tool sets: sets.
- The boxed `Subagent` event wrapper: an action carries the path of the agent that did it.
- Machine integers: counters are unbounded.
- Unicode: text is one character per UTF-8 byte, character boundaries are modelled where text is cut, and trimming knows ASCII white space only.
- Write failures, file permissions, locking and key files of the audit log: runs of successful writes.
- Session daemon, plan lowering, flow validation, the command line: not part of this model.
- Engine.RunTurn: history is passed and returned rather than updated through a shared reference, so aliasing between histories is not captured.
