# Verification of Araya

A Dafny model of the parts of Araya whose correctness is hardest to see, with proofs over every input,
every order of events and every run.

## What is modelled

**The fiber engine** (`Basics`, `Fibers`, `FiberSteps`, `Cascades`, `Handlers`, `Runtime`, `Sums`,
`EngineTheorems`, `Quiescence`, `Reconcile`). `Engine.Runtime` is the control strand of
`src/runtime.cpp`: a fiber moves between inactive, loading, active and unloading, and `Evaluate`,
`BeginUnload`, `FinishUnload` and `Notify` call each other re-entrantly. Every method keeps one
invariant at every point of a cascade, together with an account of what the calls still on the stack
owe: edges not yet erased, transitions not yet closed, fibers not yet re-evaluated. `AtRest` is the
state between handlers. `Quiescence` compares the engine with a reference that knows only the
declarations: the least set of fibers that can be brought up in rounds.

The hypotheses are one installed fiber per provided key, at most one provided key per component
(`Fibers.Disciplined`, `Fibers.Admissible`), and optional dependencies only on components that provide
nothing. The last is weaker than requiring every dependency. Without it
`FrameRuns.FinishesWithConsumers` is a run of the calls, as `Frames` has them, that tears a fiber down
while it still lists a consumer; the engine asserts at that point that there is none
(src/runtime.cpp:708). Within the hypotheses a fiber that needs all its keys is at its target whenever
nothing is in motion. One with optional dependencies need not be; only the completion of its own apply
can leave it off its target, and `Handlers.Strays` says when. Ordered sets and maps are iterated in
ascending order, as in the code; the pending applies complete in any order, except in `Conformance`.

**The reference machine** (`Oracle`, `OracleSteps`, `OracleHandlers`, `OracleMeasure`, `OracleOrder`,
`OracleMachine`). The machine of `proof/oracle/oracle.hpp`. One thing is assumed of its fibers: those that
may come up at all can be put in an order of dependency. That is so over every pool in which no component
depends on itself, directly or through others, with none of the engine's hypotheses
(`OracleMeasure.AcyclicSorts`); and under the engine's hypotheses it is so over every pool, since the
fibers on a cycle of required keys never come up (`OracleOrder.OrderWires`). What is proved is that every
operation ends. Each method says how the moment after it may follow the moment before
(`Oracle.Follows`): nothing below the lowest disturbed dependency rank has moved, and at that rank fibers
have only finished. From this every completed apply lowers a number whose digits are the costs of the
ranks.

**Conformance** (`Frames`, `FrameRuns`, `OracleImage`, `EngineImage`, `Conformance`).
`proof/conformance` drives the engine and the reference machine through the same operations and compares
them on every short sequence; here they are shown to agree on every sequence of mounts and retirements of
components that the engine admits, declared cycles included. `Frames` is what both do, as a deterministic
machine whose state is a list of calls still to be made. Each method of the machine and each method of the
engine is shown to run its own frames from its own state (`OracleImage.ImageOf`, `EngineImage.ImageOf`: a
slot that is only landing is dropped, and `activation` is forgotten). A run of frames leaves nothing to
choose (`Frames.RunsUnique`), so the two end in the same state, down to the consumers, the guard counters
and the order in which applies ran and were cleaned up. With that the machine inherits what is proved of
the engine: its active fibers are the least solution of the declarations (`Conformance.MachineSolves`).

**The diagnose pass** (`Graphs`, `Tarjan`, `Diagnostics`, `Conflicts`, `Scanner`). The conflict pass over
sorted provisions, the recursive strongly-connected-components pass over its reused tables, and the gate
that skips it.

**Goals** (`JsonValues`, `Goals`, `GoalService`, `RoundDriver`). The change codec, the validating
projection, the service operations and the round driver with its pre-step fence, over JSON values that
keep apart the signed and unsigned integer kinds.

**Streams** (`Streams`, `Accumulator`, `ChunkTranslator`, `MessagesTranslator`). The grammar of the
chunk stream, the accumulator, both wire translators, and the rebuilding of an assistant turn.

**Smaller cores.** Content-Length framing (`Framing`), the durable inbox (`Inbox`), UTF-8 and word wrap
(`Utf8`, `Wrapping`).

## Where the code differs from what is said of it

- `validate_invariants` (src/runtime.cpp:966-1060) is stricter than the engine: between handlers it
  fails for a loading fiber whose provider was retired meanwhile, which the engine handles correctly
  when the apply returns. `EngineTheorems.SelfCheckPasses` gives the exact condition, and
  `EngineTheorems.LoadOutlivesItsProvider` runs the engine into such a state.
- A consumer with an optional dependency sees it as absent until it is available, and is promised to be
  re-applied then (include/araya/plugin_context.hpp:150-155). It may miss it. A key published while the
  consumer's apply is out evaluates nobody who is loading (src/runtime.cpp:409-411), and the apply is not
  stale for it: `EngineTheorems.LeafMissesItsProvider` ends idle with the consumer active on an empty view.
  And a consumer that has just reloaded can be diverted by the loop over the copied consumers of another
  provider (src/runtime.cpp:660-664); its view being live, it is not tried again
  (src/runtime.cpp:510-554): `Conformance.StrandsItsWatcher` ends idle with it inactive although it
  requires nothing. `EngineTheorems.LeafCompletion` gives the exact condition of such a completion, and no
  other handler leaves a fiber off its target that was not (`Handlers.Astray`).
- The gate comment (src/runtime.cpp:146-149) says that removals cannot create cycles. A removal can leave
  a smaller component whose own signature no scan has reported: `Scanner.RemovalLeavesANewCycle` mounts
  two ends and then the middle between them, and removes an end. Nothing reports the rest until a later
  mount passes the gate or a reconciliation scans. `Diagnostics.RemovalIsQuiet` gives the exact condition:
  a removal leaves no new cycle if and only if nothing inside a cycle of the removed fiber is still a
  cycle without it. What holds always is that each cycle lies inside a reported one
  (`Scanner.Diagnosis.Valid`).
- A finish is said to carry a failure exactly on an error or an abort
  (plugins/llm/include/araya/llm/llm.hpp:279). Both translators keep a failure noted for an unknown
  finish reason when a known one follows. `ChunkTranslator.FinishContract` and
  `MessagesTranslator.FinishKept` give the exact conditions; `ChunkTranslator.RefusalOutlivesItsReason`
  and `MessagesTranslator.RefusalOutlivesItsReason` are streams that end as a plain stop with a failure.
- Signatures are replayed in start order and blocks in stop order, so overlapping thinking blocks get
  each other's signatures; `MessagesTranslator.ReplayExact` gives the exact condition, and
  `MessagesTranslator.OverlappingBlocksSwapSignatures` an accepted stream to which it happens.
- A block is said to end with the concatenation of its deltas
  (plugins/llm/include/araya/llm/llm.hpp:237-300). A tool use of the Messages stream that carries its
  whole input in its start ends with that input, though no delta streamed it.
  `MessagesTranslator.EndsFaithful` says that this is the only exception,
  `MessagesTranslator.InputIsNotStreamed` is such a stream, and `MessagesTranslator.InterruptedDelivers`
  what an interruption before its end delivers: a call with empty arguments.
- A goal operation commits a change its own projection refuses once the 64-bit revision counter is
  exhausted, or when a new goal is given a negative clock or an identifier used before;
  `GoalService.ServiceNeverTrips` is an equivalence, `GoalService.RefusedRequest` and
  `GoalService.RepeatedIdentifier` are such requests, and `GoalService.IdentifierComesBack` is a session
  that fails for good. The round driver's own block does it too when no revision is left
  (`RoundDriver.Driver.Drive`).

## Model

| member | source | states |
|---|---|---|
| Engine.Runtime.Resolve | src/runtime.cpp:387-407 | Satisfiable exactly when every required key resolves to an active, available provider other than the fiber itself; the providers are the whole resolution, and a refusal names the first required key in declared order that does not resolve |
| Engine.Runtime.ProvidersStillActive | src/runtime.cpp:556-563 | True exactly when every committed key is still served by the provider it was committed to |
| Engine.Runtime.StartLoading | src/runtime.cpp:438-508 | Moves exactly one inactive fiber to loading on its current resolution, keeping every engine invariant and opening one transition |
| Engine.Runtime.Evaluate | src/runtime.cpp:409-436 | Loads a waiting fiber exactly when it can run, records the first unresolved key otherwise, withdraws an active one exactly when its view is not its target, and keeps the invariants through the cascade; the recursion terminates |
| Engine.Runtime.BeginUnload | src/runtime.cpp:612-668 | A retirement is never lifted, a loading fiber is diverted, an active one is down when the call returns with its whole cascade done; only fibers in the given scope stop being published |
| Engine.Runtime.UnloadConsumers | src/runtime.cpp:660-664 | Every consumer in the copied set is down afterwards, though the set shrinks underneath the loop |
| Engine.Runtime.MarkUnloading | src/runtime.cpp:635-659 | The guard counter starts at the number of consumers, all of which are up and committed here (the code’s own assertion), and exactly this fiber’s slots retire |
| Engine.Runtime.MaybeFinishUnload | src/runtime.cpp:670-676 | Finishes exactly when the fiber is withdrawing and nobody holds its guard |
| Engine.Runtime.FinishUnload | src/runtime.cpp:678-720 | The teardown is the next entry of the log and the fiber’s slots are free afterwards; the fiber is down, the invariants hold, and what is called meanwhile is what the reference machine calls |
| Engine.Runtime.DropEdges | src/runtime.cpp:694-706 | Erasing the fiber from its providers pays exactly the edges it owed, in ascending order of the keys, each released provider being finished as the reference machine finishes it |
| Engine.Runtime.FanOut | src/runtime.cpp:712-718 | Throughout the wake-up loop and the re-entry a transition is in flight and the idle gate is closed |
| Engine.Runtime.Notify | src/runtime.cpp:732-755 | Every fiber that declares the key has been re-evaluated: no wake-up is owed for it any more |
| Engine.Runtime.TransitionFinished | src/runtime.cpp:953-964 | Closes one transition and opens the idle gate exactly when it was the last |
| Engine.Runtime.Mount | src/runtime.cpp:109-156 | Installs under a new identifier and evaluates once; slots and log are untouched, and nobody is newly off its target |
| Engine.Runtime.Provide | include/araya/plugin_context.hpp:180-203 | Binds a declared key as landing while the apply runs, refuses an undeclared one, changes nothing else |
| Engine.Runtime.SignalAvailability | src/runtime.cpp:565-582 | Promotes only, each refusal in its order and without effect; a promotion changes one slot and then cascades, after which nobody is newly off its target |
| Engine.Runtime.ApplyCompleted | src/runtime.cpp:510-554 | Publishes exactly when the apply did not raise, was not diverted and its providers still stand; otherwise it frees its slots, records the exception of an apply that raised, or a cancellation when it was diverted and is not tried again, and retries only a stale load. In every reachable state a fiber counts as failed exactly when the recorded error is the exception. It leaves its own fiber off its target exactly when the apply did not raise, the fiber is not retired, its view is live and it was diverted or misses something that resolves, and it leaves nobody else so |
| Engine.Runtime.Publish | src/runtime.cpp:584-610 | Slots, consumer sets and state flip as one published step, then dependents are woken; the fiber is still active at the end |
| Engine.Runtime.NotifyAll | src/runtime.cpp:604-609 | The idle gate stays closed through the whole fan-out of a publication |
| Engine.Runtime.Retire | src/runtime.cpp:183-197 | Marks the fiber for good; when it was active, it and everything relying on it, directly or not, is down when the handler returns, and nobody is newly off its target |
| Engine.Runtime.Erase | src/runtime.cpp:191-196 | Removes one inactive record and its index entries and disturbs nothing else |
| EngineTheorems.SettledAtTarget | src/runtime.cpp:409-436 | With nothing in motion, a fiber that needs all its keys and is neither retired nor failed is active if and only if every key it declares is served, and its view is that resolution |
| EngineTheorems.ActiveAtTarget | src/runtime.cpp:732-755 | Between handlers every active fiber that needs all its keys is at its target: no lost wake-up |
| EngineTheorems.SettledOnTarget | src/runtime.cpp:409-436 | Between handlers any fiber at rest that is neither retired nor failed is active on all that resolves or inactive for want of a required key, if and only if it is not among those astray; and only fibers with optional dependencies can be |
| EngineTheorems.LeafCompletion | src/runtime.cpp:510-554 | Completing the apply of a fiber that provides nothing, is not retired and does not raise leaves it at its target if and only if, where its view is live, it was not diverted and its view is all that resolves, and, where its view is stale, a required key is missing; a stale one is loaded again at once on all that resolves, a diverted one with a live view stays down though it could run |
| EngineTheorems.LeafMissesItsProvider | include/araya/plugin_context.hpp:150-155 | A run that ends idle with a consumer active on an empty view while its optional dependency is there |
| EngineTheorems.RelianceIsAcyclic | src/runtime.cpp:584-610 | At any point of any cascade no fiber relies on itself through others, because reliance goes down in publication order |
| EngineTheorems.GuardIsReliance | src/runtime.cpp:643-706 | At any point of a cascade a withdrawing fiber’s counter is the number of fibers holding it, and is zero exactly when no published fiber relies on it and no edge is owed |
| EngineTheorems.ProvidersWithdrawLast | src/runtime.cpp:612-720 | Over whole runs: if a fiber published a view naming a provider and the provider is torn down later, that fiber was torn down in between |
| EngineTheorems.SelfCheckPasses | src/runtime.cpp:966-1060 | The engine’s own check passes between handlers exactly when every provider committed to by a fiber in motion is still installed and up |
| EngineTheorems.LoadOutlivesItsProvider | src/runtime.cpp:966-1060 | Retiring a provider while its consumer’s apply is out leaves the engine sound and its check failing |
| EngineTheorems.PublishProgress | src/runtime.cpp:584-610 | A completion that publishes strictly decreases a weight of the distances from rest, optional dependents reloaded by it included |
| EngineTheorems.LandProgress | src/runtime.cpp:510-554 | So does one that does not publish, a retried stale load included |
| Handlers.DependentsFall | src/runtime.cpp:612-668 | When a fiber is no longer published after a cascade, nothing that relied on it through any chain is |
| Quiescence.Drain | src/runtime.cpp:510-554 | Completing pending applies in any order ends, idle; every settled fiber that needs all its keys is at its target, and any other unless it was off it before or one of its own completions left it so; with required dependencies the active fibers are exactly the least solution of the declarations |
| Quiescence.SettledIsLeastSolution | src/runtime.cpp:409-436 | At rest, a fiber is active if and only if it can be brought up in rounds from the declarations alone, leaving out retired and broken fibers |
| Quiescence.SettledAgree | src/runtime.cpp:387-436 | Two settled engines with the same declarations and the same fibers out agree on active fibers, views and slot owners, whatever happened before |
| Quiescence.MountQuiet | src/runtime.cpp:109-156 | Mounting and waiting for idleness ends in the least solution of the enlarged declarations; the fibers left out are those left out before, and the new one exactly when its apply raises |
| Quiescence.RetireQuiet | src/runtime.cpp:183-197 | Retiring, waiting and erasing ends in the least solution of what is left; nobody else is left out for it |
| Quiescence.OutRests | src/runtime.cpp:510-554 | Once nothing is in motion, whoever is retired, has failed or raises is inactive, optional dependencies or not |
| Conformance.Conform | proof/conformance/conformance_test.cpp:369-382 | From scratch, over any pool of plain components, declared cycles included, and any mounts and retirements that fit, engine and reference machine have the same fibers with the same states, errors, views, consumers and guards, the same slots with the same owners, and the machine’s log is what the engine’s applies and cleanups write, in their order |
| Conformance.RunBoth | proof/conformance/conformance_test.cpp:246-350 | From any state in which the two agree, any further operations that fit keep them in agreement |
| Conformance.MountBoth | proof/oracle/oracle.hpp:169-184 | Mounting a component with both, each to quiescence, keeps agreement |
| Conformance.RetireBoth | proof/oracle/oracle.hpp:186-195 | So does retiring the fiber of a slot, whether it is up or inactive |
| Conformance.Twins | proof/conformance/conformance_test.cpp:236-244 | What agreement means in the programs’ own fields, the observables of the test harness included |
| Conformance.MachineSolves | proof/oracle/oracle.hpp:388-398 | With required dependencies the machine’s active fibers are exactly the least solution of the declarations; an active view has for every declared key the active owner of its binding, and an active fiber owns the bindings it provides |
| Conformance.DrainInOrder | src/runtime.cpp:497-554 | Completing the pending applies in the order they were spawned ends idle and runs exactly the frames of the machine’s drain |
| Conformance.RetireInOrder | src/runtime.cpp:183-197 | Retiring, waiting and erasing runs exactly the frames of the machine’s retirement, and erasing an inactive fiber at once comes to the same |
| Conformance.StrandsItsWatcher | src/runtime.cpp:660-664 | For any two keys, a run of mounts and one retirement that ends idle with a fiber inactive that was neither retired nor failed and requires nothing |
| Conformance.Orderly | proof/oracle/oracle.hpp:169-184 | Wherever engine and machine agree and a component may join, the machine’s fibers can be put in an order of dependency, whatever cycles the pool declares |
| Frames.RunsUnique | proof/oracle/oracle.hpp:245-398 | Two complete runs of the same calls from the same state end in the same state |
| Frames.Both | proof/oracle/oracle.hpp:245-398 | Runs of one list of calls after another compose |
| FrameRuns.FinishesWithConsumers | src/runtime.cpp:678-708 | Four components, none declaring what a later one provides, one of them with optional dependencies and a provision: a run from scratch that comes to tearing down a fiber which still lists a consumer |
| FrameRuns.WatcherStranded | src/runtime.cpp:612-720 | Retiring the first of a chain of two providers, with a fiber that declares both keys optionally, leaves that fiber inactive with nothing pending |
| EngineImage.FlipTracks | src/runtime.cpp:634-664 | The flip of a withdrawing fiber, with its slots and its counter, is the machine’s, and the same calls are left to be made |
| EngineImage.FinishTracks | src/runtime.cpp:678-720 | So is a teardown |
| EngineImage.LandTracks | src/runtime.cpp:510-554 | So is a completion that does not publish, though the slots it frees had only landed |
| EngineImage.PublishTracks | src/runtime.cpp:584-610 | So is a publication, which binds in the machine what had landed in the engine |
| OracleImage.PublishImage | proof/oracle/oracle.hpp:293-302 | Publishing with the machine is the same step of the frames |
| OracleImage.LandImage | proof/oracle/oracle.hpp:273-291 | So is coming to rest |
| OracleMachine.Machine.Drain | proof/oracle/oracle.hpp:388-398 | With optional dependencies and several providers of one key, completing the pending applies and all they cause ends whenever the fibers that may come up are in an order of dependency; afterwards nobody is loading |
| OracleMeasure.ProgressDrops | proof/oracle/oracle.hpp:388-398 | A completed apply lowers the potential of the machine |
| OracleSteps.PopProgress | proof/oracle/oracle.hpp:273-302 | At the lowest rank a completed apply disturbed, what the fibers there cost went down for one and up for none; above that rank it went up by a bounded amount |
| OracleSteps.Rekindle | proof/oracle/oracle.hpp:338-358 | A fiber that finishes and loads again still costs less than before it finished |
| OracleSteps.FollowsTrans | proof/oracle/oracle.hpp:304-377 | What re-entrant calls guarantee composes, whatever ranks each of them disturbed |
| OracleMeasure.RankedIffAcyclic | proof/oracle/oracle.hpp:41-47 | A pool has an order of its components that goes up along dependencies exactly when no component depends on itself |
| OracleMeasure.AcyclicSorts | proof/oracle/oracle.hpp:169-184 | Over an acyclic pool the fibers can be put in order whatever is mounted next |
| OracleOrder.OrderWires | proof/oracle/oracle.hpp:245-263 | With one source per key, optional dependencies only where nothing is provided, and nothing pending, the fibers that can come up in rounds are in order of their rounds, and each of the others lacks a required key that nobody who can come up offers |
| OracleOrder.ProviderBefore | proof/oracle/oracle.hpp:245-263 | A provider can come up in an earlier round than whoever requires it, when the key has no other source |
| OracleMachine.Machine.Evaluate | proof/oracle/oracle.hpp:245-263 | Loads a waiting fiber exactly when it can run, records a failure otherwise; an active one off its target is no longer active afterwards, any other is left alone; the recursion ends |
| OracleMachine.Machine.BeginUnload | proof/oracle/oracle.hpp:304-331 | A retirement is never lifted, a pending apply is diverted, an active fiber and every consumer it had are no longer active |
| OracleMachine.Machine.MarkUnloading | proof/oracle/oracle.hpp:314-328 | The guard counter grows by the consumers that are not at rest, and exactly this fiber’s bindings retire |
| OracleMachine.Machine.Finish | proof/oracle/oracle.hpp:338-358 | The teardown is the next entry of the log; nothing below the lowest rank disturbed has moved, and the fiber itself may owe one more load |
| OracleMachine.Machine.Notify | proof/oracle/oracle.hpp:370-377 | Disturbs only ranks above the notifying fiber, but for fibers that finish |
| OracleMachine.Machine.ApplyCompleted | proof/oracle/oracle.hpp:273-302 | An apply that failed, was cancelled or is stale comes to rest, and only a stale one is considered again; any other publishes and enlists; either way there is progress |
| OracleMachine.Machine.Mount | proof/oracle/oracle.hpp:169-184 | An occupied slot is left alone; an empty one holds the new fiber, and the machine is quiet again, provided the fibers can be put in order |
| OracleMachine.Machine.Retire | proof/oracle/oracle.hpp:186-195 | Empties exactly this slot |
| OracleMachine.Machine.ReconcileAll | proof/oracle/oracle.hpp:197-243 | Over an acyclic pool each desired slot holds a fitting declared fiber, the one that was there if it fitted, unless an imperatively mounted one keeps it; undesired declared slots are empty; where all agrees nothing happens |
| Reconcile.Reconciler.Reconcile | src/runtime.cpp:210-314 | For distinct paths, exactly the desired paths are reconciled afterwards, each to an installed fiber of the desired name and configuration; an entry that already met its wish keeps its fiber, every other fiber of the result is a new one or was reconfigured in place, and the engine holds exactly the fibers it had, without the withdrawn, with the new |
| Reconcile.Reconciler.Sweep | src/runtime.cpp:220-290 | Turn by turn, an entry is dropped exactly when its fiber is gone, unwanted, of another name, or of another configuration that was refused or whose fiber was not active at its turn; an accepted configuration keeps the fiber, and an entry that meets its wish is not touched |
| Reconcile.Reconciler.Bury | src/runtime.cpp:292-301 | The withdrawn fibers are inactive once waited for, optional dependencies or not, and exactly their records are erased |
| Reconcile.WishesMade | src/runtime.cpp:213-215 | With distinct paths the path index holds each desired node under its own path |
| Scanner.Diagnosis.Connect | src/runtime.cpp:900-936 | The recursive walk keeps the whole-walk invariant and reports, in discovery order, every component it pops of more than one fiber |
| Scanner.Diagnosis.PopComponent | src/runtime.cpp:921-935 | What is popped is the stack down to this position, and it is reported when it is more than one fiber |
| Scanner.Diagnosis.ScanCycles | src/runtime.cpp:893-941 | For every declared graph the cycles reported are exactly its strongly connected components of more than one fiber; nothing is delivered twice |
| Scanner.Diagnosis.ReportConflicts | src/runtime.cpp:836-862 | Exactly the keys with more than one provider are reported, each with all its providers; nothing is delivered twice |
| Conflicts.RunIsProviders | src/runtime.cpp:844-862 | In the sorted list a stretch of equal keys is exactly the set of providers of its key |
| Conflicts.SingleSourceIffNoConflict | src/runtime.cpp:836-838 | No conflict is there to report if and only if every key has a single source, the hypothesis of the engine’s theorems |
| Scanner.Diagnosis.SelfProvisions | src/runtime.cpp:943-950 | Every fiber declaring a key it provides is reported, once, and nothing else |
| Scanner.Diagnosis.Mount | src/runtime.cpp:128-156 | With the gate, every cycle that mounting creates and every conflict there is are reported, and every report is of a conflict, a cycle or a self-provision that is there |
| Scanner.Diagnosis.Position | src/runtime.cpp:869-871 | The lower-bound search finds the position of an installed fiber |
| Tarjan.TopIsComponent | src/runtime.cpp:919-933 | When the low link of a position is its own index, the stack above it is exactly a strongly connected component |
| Tarjan.WalkDone | src/runtime.cpp:938-941 | After the walk the popped groups are exactly the components of the graph |
| Diagnostics.ScanReports | src/runtime.cpp:815-834 | After a finished walk a diagnostic is remembered exactly when it was before or is a dependency cycle |
| Diagnostics.GateLosesNothing | src/runtime.cpp:143-155 | Mounting a fiber none of whose keys has a provider leaves the set of dependency cycles exactly as it was |
| Diagnostics.EraseShrinksCycles | src/runtime.cpp:794-809 | Each cycle left after a removal lies inside one that was there before |
| Diagnostics.NewInside | src/runtime.cpp:794-809 | A cycle left after a removal is new exactly when it lies inside a cycle of the removed fiber |
| Diagnostics.RemovalIsQuiet | src/runtime.cpp:146-149 | A removal leaves no new cycle if and only if nothing inside a cycle of the removed fiber is still a cycle without it |
| Scanner.RemovalLeavesANewCycle | src/runtime.cpp:146-149 | Mounting two ends and then their middle, and removing an end, leaves a cycle whose report was never delivered |
| Scanner.Diagnosis.Unindex | src/runtime.cpp:794-809 | Every cycle left lies inside a reported one, a cycle that was none before lay inside one of the removed fiber, and nothing is reported |
| Goals.ChangeRoundTrip | plugins/goal/src/goal.cpp:78-170 | Decoding undoes encoding exactly for the well-formed changes |
| Goals.DecodesWhatIsSpelled | plugins/goal/src/goal.cpp:78-170 | The decoder accepts exactly the well-formed changes that the fields spell, each under its own name, of version 1 only, trimming nothing but the message of a block |
| Goals.DecodedIsEncodable | plugins/goal/src/goal.cpp:117-170 | The decoder accepts nothing that could not have been encoded |
| Goals.ChangeReparsed | include/araya/util/json.hpp:50-78 | A change written as text and read back decodes to the same thing, whatever the number kinds became |
| JsonValues.TrimCuts | include/araya/util/string.hpp:13-19 | Trimming takes off blanks at the two ends and nothing else |
| JsonValues.AccessorsRead | include/araya/util/json.hpp:34-78 | An accessor reads a field exactly when it has the right kind, a number of either integer kind when it is in range |
| Goals.ReplayKeeps | plugins/goal/src/goal.cpp:318-350 | For every log at all the projected goal is well formed, its times ordered and its identity remembered |
| Goals.ReplayReparsed | plugins/goal/src/goal.cpp:318-350 | Restoring from the written log yields the state the live process had |
| Goals.RevisionNamesSnapshot | plugins/goal/src/goal.cpp:180-248 | Along any log a goal’s identity and revision determine its snapshot |
| Goals.CompletedIsFinal | plugins/goal/src/goal.cpp:202-240 | A completed goal stays completed for as long as it is the current one |
| Goals.AcceptedExactly | plugins/goal/src/goal.cpp:180-248 | A change is accepted exactly when it is a fresh creation, the next revision by an allowed transition that keeps counters and times, or a clearing one revision later; what it leaves is the snapshot it carries, or nothing |
| Goals.RoundExactly | plugins/goal/src/goal.cpp:251-263 | A goal message is accepted exactly as the next round of the active goal at its revision and within its budget, and moves nothing but the rounds |
| Goals.LogFits | plugins/goal/src/goal.cpp:318-350 | A log projects to its end without a failure exactly when each of its events fits the ones before it |
| Goals.GoalMessage | plugins/goal/src/goal.cpp:326-333 | A message is a goal message exactly when it is an object whose source is an object of the goal kind |
| GoalService.ServiceNeverTrips | plugins/goal/src/goal.cpp:504-616 | The change an operation commits decodes unchanged and is accepted by the projection, exactly when its identifier is fresh and its clock not negative, or the revision counter is not exhausted |
| GoalService.RefusedRequest | plugins/goal/src/goal.cpp:504-526 | A goal created with a negative clock is proposed, and the projection then refuses its event |
| GoalService.RepeatedIdentifier | plugins/goal/src/goal.cpp:504-526 | So is one with an identifier used before |
| GoalService.IdentifierComesBack | plugins/goal/src/goal.cpp:504-526 | A session that creates a goal, clears it and creates one with the same identifier: the third event is committed and the projection fails for good |
| GoalService.OperationEffect | plugins/goal/src/goal.cpp:504-616 | What each committed request leaves, said of the request and the two states alone: the phase it asks for, the trimmed objective, the given budget, block code and message, what is kept, the next revision, counters and times; and the event decodes to an operation of the request’s own kind |
| GoalService.RefusedExactly | plugins/goal/src/goal.cpp:504-616 | A request is refused exactly when there is a reason to, and with the first one in the order of the code |
| GoalService.FenceSound | plugins/goal-round-driver/src/goal_round_driver.cpp:231-264 | A round scheduled earlier in the log that passes the fence now is admitted, within the budget, whatever was appended in between |
| GoalService.BatchAdmitted | plugins/goal-round-driver/src/goal_round_driver.cpp:231-264 | A batch whose goal messages all pass the fence is admitted exactly when it holds none of them, or one while the budget is not spent; admitted, it moves the rounds by that one |
| GoalService.PassedIsNextRound | plugins/goal/src/goal.cpp:251-263 | A message that passes the fence is the next round exactly when the budget is not spent |
| GoalService.Service.ApplyChange | plugins/goal/src/goal.cpp:180-248 | Applies a change in place to the specified state; a refused one leaves no trace |
| GoalService.Service.Drive | plugins/goal/src/goal.cpp:322-349 | The first failure is captured and sticks |
| GoalService.Service.Commit | plugins/goal/src/goal.cpp:430-465 | Appends exactly one event and drives the projection with it; the live state stays the replay of the log |
| GoalService.Service.CreateGoal | plugins/goal/src/goal.cpp:504-526 | Refused without a trace for the first stated reason, or committed as one creation with the trimmed objective and the given or default budget, which arms the goal |
| GoalService.Service.EditGoal | plugins/goal/src/goal.cpp:528-551 | Compare-and-set edit that sets the given trimmed objective and budget, and keeps what is not given, phase and activation |
| GoalService.Service.PauseGoal | plugins/goal/src/goal.cpp:563-568 | Compare-and-set pause: the active goal is paused in the next revision by a pause event, and disarmed |
| GoalService.Service.ResumeGoal | plugins/goal/src/goal.cpp:570-581 | Compare-and-set resume within the budget: the goal is active in the next revision, without a block reason, and armed |
| GoalService.Service.CompleteGoal | plugins/goal/src/goal.cpp:583-589 | Compare-and-set completion: the goal is complete in the next revision, and disarmed |
| GoalService.Service.BlockGoal | plugins/goal/src/goal.cpp:591-603 | Compare-and-set block: the active goal is blocked in the next revision with the trimmed, non-empty code and message, and disarmed |
| GoalService.Service.ClearGoal | plugins/goal/src/goal.cpp:605-616 | Clears the current goal behind a tombstone one revision later |
| GoalService.Service.Disarm | plugins/goal/src/goal.cpp:629-636 | Removes continuation authority and touches nothing durable |
| RoundDriver.Driver.RequestDrive | plugins/goal-round-driver/src/goal_round_driver.cpp:101-114 | At most one scheduling loop is alive, and a request never waits without one |
| RoundDriver.Driver.LoopTurn | plugins/goal-round-driver/src/goal_round_driver.cpp:116-125 | A turn takes the request before it makes one scheduling pass, so a request that arrives meanwhile is seen by the next turn; a turn without a request ends the loop and touches nothing |
| RoundDriver.Driver.Drive | plugins/goal-round-driver/src/goal_round_driver.cpp:127-164 | Sends exactly the next round of an idle, armed, active goal within its budget, naming the goal, its revision and the round, and leaves it alone; one that is not accepted disarms the goal; a spent budget blocks it for that reason in the next revision, or makes the projection fail when there is none; nothing else happens |
| RoundDriver.Driver.Fence | plugins/goal-round-driver/src/goal_round_driver.cpp:231-264 | Rejects a batch exactly when one of its goal messages does not name the next round of the live, armed, active goal at its revision |
| RoundDriver.Driver.InboxInserted | plugins/goal-round-driver/src/goal_round_driver.cpp:198-215 | Next-turn input that is no goal message competes with the next round from then on; nothing else does |
| RoundDriver.Driver.AgentIdle | plugins/goal-round-driver/src/goal_round_driver.cpp:187-196 | An idle agent ends the competition and asks for the next round, unless the driver is stopping |
| RoundDriver.Driver.TurnEnded | plugins/goal-round-driver/src/goal_round_driver.cpp:217-228 | A turn that ended in an error or was cut short disarms the goal; any other leaves it alone |
| RoundDriver.Driver.Stop | plugins/goal-round-driver/src/goal_round_driver.cpp:266-275 | Stopping is remembered and disarms the goal, touching nothing durable |
| Streams.AccumulatesWhatWasStreamed | plugins/agent-loop/src/agent.cpp:79-105 | Accumulating a grammatical stream, or any front part of one, gives the ended blocks in order and every other block as its deltas left it |
| Streams.AccumulatesTheOutcome | plugins/agent-loop/src/agent.cpp:79-105 | The usage is the last one reported, and reason, failure and replay state are those of the finish, which is the last chunk |
| Streams.Dense | plugins/llm/include/araya/llm/llm.hpp:284-286 | In a grammatical stream exactly the indices below the number of starts have started |
| Accumulator.StepAccumulator.Push | plugins/agent-loop/src/agent.cpp:79-105 | Folds one chunk into the closed blocks, the open blocks, the usage or the outcome |
| Accumulator.StepAccumulator.DeliveredBlocks | plugins/agent-loop/src/agent.cpp:109-129 | The closed blocks, then the open ones in index order, closed as they stand |
| Accumulator.StepAccumulator.Commit | plugins/agent-loop/src/agent.cpp:187-228 | An interrupted step commits everything delivered, a failed one an attempt only, a clean one its closed blocks |
| ChunkTranslator.Translator.Feed | plugins/llm-compat/src/translate.cpp:401-426 | Accepts exactly the readable payloads; the chunks of all payloads so far form a grammatical stream that says of every block what the pieces of its own wire stream amount to; blocks open in the order of the first pieces of their streams, and there is no other block |
| ChunkTranslator.ChoiceReads | plugins/llm-compat/src/translate.cpp:324-342 | A choice says its reasoning, its text, its calls and its finish reason, in that order and no more; an empty text says nothing |
| ChunkTranslator.CallsRead | plugins/llm-compat/src/translate.cpp:344-381 | Calls are read one by one: what is no object says nothing, and a missing index is zero |
| ChunkTranslator.PayloadReads | plugins/llm-compat/src/translate.cpp:401-421 | Choices are read one by one, and what is no object says nothing |
| ChunkTranslator.PiecesAdd | plugins/llm-compat/src/translate.cpp:383-399 | Over successive stretches of pieces texts run on, and the last finish reason and the last failure stay |
| ChunkTranslator.CallsAdd | plugins/llm-compat/src/translate.cpp:344-381 | For one wire index argument fragments run on, and a later non-empty identity or name replaces an earlier one |
| ChunkTranslator.OnePiece | plugins/llm-compat/src/translate.cpp:324-399 | What one piece amounts to: its own text, its own call at its own index, or its reason, a failure exactly when the reason is not a known one |
| ChunkTranslator.Translator.ApplyCall | plugins/llm-compat/src/translate.cpp:344-381 | A tool-call delta reaches the block of its wire index and no other; identities are replaced, never cleared |
| ChunkTranslator.Translator.FinishStream | plugins/llm-compat/src/translate.cpp:428-452 | Every block ends once, in open order, with exactly what it streamed; then comes the last usage read, when there was one, and one finish last |
| ChunkTranslator.MappedUsage | plugins/llm-compat/src/translate.cpp:42-70 | Cached input is reported apart and taken off the input as far as it goes; the total is prompt and completion |
| ChunkTranslator.InterruptedDeliversOpenBlocks | plugins/agent-loop/src/agent.cpp:107-129 | Stopping after any payload, the blocks delivered are exactly the translator’s open blocks |
| ChunkTranslator.FinishContract | plugins/llm/include/araya/llm/llm.hpp:271-282 | A finish carries a failure exactly when it failed, if and only if the last finish reason is unknown or none is, or nothing was streamed and there is no reason or a plain stop |
| ChunkTranslator.RefusalOutlivesItsReason | plugins/llm-compat/src/translate.cpp:383-399 | Fed with some text under an unknown finish reason and then a plain stop, the translator finishes as a plain stop that carries a failure |
| MessagesTranslator.Translator.Feed | plugins/llm-compat/src/messages.cpp:419-546 | Accepts exactly the well-ordered events, and each accepted event extends a grammatical stream that mirrors the blocks; each block holds what the events at its wire index say of it, and the usage is the last counts they report |
| MessagesTranslator.Translator.StartBlock | plugins/llm-compat/src/messages.cpp:319-357 | A block starts densely with the kind, the names, the text, the input and the signature its start carries |
| MessagesTranslator.Translator.ApplyDelta | plugins/llm-compat/src/messages.cpp:359-388 | A delta is appended to what it names, text, input or signature, of the block of its wire index and of no other, and makes the chunk of its kind; a signature makes none |
| MessagesTranslator.Translator.StopBlock | plugins/llm-compat/src/messages.cpp:390-409 | A block ends once, with its settled content |
| MessagesTranslator.Translator.Settle | plugins/llm-compat/src/messages.cpp:518-542 | The usage and the finish follow the last block’s end, unless nothing was streamed before a plain stop; the usage has the last counts the events report and their sum with the cache, and the finish one signature entry per block in start order |
| MessagesTranslator.AcceptsLegal | plugins/llm-compat/src/messages.cpp:419-546 | Whether an event is accepted is decided by the events before it alone |
| MessagesTranslator.Play | plugins/llm-compat/src/messages.cpp:419-546 | A stream each of whose events may follow the ones before is accepted to its end |
| MessagesTranslator.EndsFaithful | plugins/llm-compat/src/messages.cpp:338-409 | Every block ends with exactly its streamed deltas if and only if no stopped tool use has an input in its start and no delta |
| MessagesTranslator.InputIsNotStreamed | plugins/llm-compat/src/messages.cpp:336-338 | Played, a stream of one tool use with its input in its start is faithful exactly when that input is empty |
| MessagesTranslator.InterruptedDelivers | plugins/agent-loop/src/agent.cpp:107-129 | Stopping after any event, the accumulator has the ended blocks, and every other block as far as its deltas go; that is what its end would deliver exactly when no start input stands in for deltas |
| MessagesTranslator.FinishKept | plugins/llm-compat/src/messages.cpp:493-541 | A finish carries a failure exactly when it failed, if and only if nothing was streamed before a plain stop, the last reason is a refusal, or none was |
| MessagesTranslator.RefusalOutlivesItsReason | plugins/llm-compat/src/messages.cpp:493-541 | Played, a block of text, a refusal and then a plain stop end as a plain stop that carries a failure |
| MessagesTranslator.AssistantBlocks | plugins/llm-compat/src/messages.cpp:90-116 | Each block is rebuilt in place with the signature at its own index; refused exactly when a tool call’s arguments are not an object |
| MessagesTranslator.ReplayRoundTrip | plugins/llm-compat/src/messages.cpp:411-417 | When each block stops before the next starts, stops are in start order and every thinking block gets back the signature in its own start followed by the signature deltas at its index, in order |
| MessagesTranslator.TurnRebuilt | plugins/llm-compat/src/messages.cpp:90-116 | What such a stream accumulates, rebuilt, gives back for each block what the events at its index say: the kind and names of its start, and its text, input and signature as started and then as the deltas run on |
| MessagesTranslator.CommitAndRebuild | plugins/agent-loop/src/agent.cpp:187-228 | Such a stream, accumulated, committed and rebuilt, is refused exactly when a stop reason was unknown or a tool’s arguments are no object; otherwise the turn is, block by block in start order, what the events at its index say |
| MessagesTranslator.ReplayExact | plugins/llm-compat/src/messages.cpp:56-70 | With distinct signatures the rebuilt turn is right if and only if every thinking block stops in the place it started |
| MessagesTranslator.OverlappingBlocksSwapSignatures | plugins/llm-compat/src/messages.cpp:411-417 | Played, two overlapping thinking blocks that stop in the other order are accepted, and each comes back with the other’s signature |
| Framing.AnyChunking | plugins/lsp-stdio/src/framing.hpp:22-68 | Decoding any concatenation of encoded messages within the limit, cut in any way, returns exactly those messages in order and an empty buffer |
| Framing.WholeMessage | plugins/lsp-stdio/src/framing.hpp:45-68 | A whole message at the front is decoded and nothing but it is consumed, even when its body contains the header terminator |
| Framing.PartMessage | plugins/lsp-stdio/src/framing.hpp:45-61 | A proper part of a message is neither an error nor a message |
| Framing.StepDecodes | plugins/lsp-stdio/src/framing.hpp:45-61 | Whatever the buffer holds, a message is taken off exactly when a header within the limit, which reads as the length of a body within the limit, is followed by that body |
| Framing.StepBreaks | plugins/lsp-stdio/src/framing.hpp:45-56 | A stream is broken exactly when its header is too long, unreadable, or asks for too much |
| Framing.BreaksAfter | plugins/lsp-stdio/src/framing.hpp:32-68 | Messages before a part that is not complete are yielded and the part is kept; before a part that breaks the stream nothing is |
| Framing.HeaderReads | plugins/lsp-stdio/src/framing.hpp:70-102 | The header written for a body is read back as its length |
| Framing.HeaderOfLines | plugins/lsp-stdio/src/framing.hpp:70-102 | A block of lines has the length given by its first line with the field name, in any case, blanks around the colon ignored, in a 64-bit counter; it has none when the value is no number |
| Framing.NoHeader | plugins/lsp-stdio/src/framing.hpp:70-102 | A block none of whose lines has the name has no length |
| Framing.MessageDecoder.Push | plugins/lsp-stdio/src/framing.hpp:32-42 | Appends a chunk and yields everything complete, in order; a broken stream yields nothing |
| Framing.MessageDecoder.ParseContentLength | plugins/lsp-stdio/src/framing.hpp:70-102 | The first Content-Length field decides, its name in any case and trailing blanks ignored, its digits in a 64-bit counter |
| Inbox.SpliceDoesWhatItReports | plugins/agent-loop/src/inbox.cpp:88-184 | Applying the data of a normalised splice removes exactly the messages it reported, as many as the clamped count, and inserts the admitted ones in order; the other queue is untouched; a splice is dropped exactly when it would do nothing |
| Inbox.SplicedUnique | plugins/agent-loop/src/inbox.cpp:117-184 | Any event data at all keeps message identities present and unique across both queues |
| Inbox.FreshAdmitted | plugins/agent-loop/src/inbox.cpp:158-183 | New, distinct messages are all admitted |
| Inbox.AdmittedExactly | plugins/agent-loop/src/inbox.cpp:158-183 | Exactly the insertions are let in, in order, that have an identity which is not taken and which none before them has |
| Inbox.ReadsWhatIsAsked | plugins/agent-loop/src/inbox.cpp:117-157 | A payload is read exactly as its fields ask; a missing count is none, and anything mistyped is no splice |
| Inbox.SpliceTells | plugins/agent-loop/src/inbox.cpp:88-115 | The payload of a splice says of what it took out whether it was claimed or discarded, which it was when it was meant so and took anything |
| Inbox.ClampStart | plugins/agent-loop/src/inbox.cpp:97-100 | A negative start counts from the end, and any start is clamped into the queue |
| Inbox.AgentInbox.Fold | plugins/agent-loop/src/inbox.cpp:117-184 | Folds one payload into the queues in place; a malformed one changes nothing |
| Inbox.AgentInbox.Enqueue | plugins/agent-loop/src/agent.cpp:503-518 | A new message goes to the end of its queue; one that is not new is dropped |
| Inbox.AgentInbox.ClaimForStep | plugins/agent-loop/src/agent.cpp:710-730 | Claims every next-step message and, on a first step, one next-turn message; what entered a queue is what departed, once each and in order, then what is queued, and the payloads written tell the same queues and the same departures |
| Inbox.AgentInbox.Clear | plugins/agent-loop/src/agent.cpp:520-541 | Discards everything pending, each message once, and the payloads written say discarded |
| Utf8.DecodesWellFormed | apps/araya/src/metrics.hpp:83-125 | The decoder takes several bytes exactly when they are a well-formed sequence of RFC 3629, section 4 |
| Utf8.Decode | apps/araya/src/metrics.hpp:83-125 | Decodes the codepoint at a position, or the single byte |
| Utf8.EncodedReads | apps/araya/src/metrics.hpp:83-125 | The encoding of a codepoint by section 3 of RFC 3629 decodes to it, whatever follows |
| Utf8.DecodedIsEncoded | apps/araya/src/metrics.hpp:83-125 | What is decoded is the encoding of its codepoint, or a single byte taken as it stands |
| Utf8.CodepointWidth | apps/araya/src/metrics.hpp:129-150 | Printable ASCII is one column, controls and combining marks none, kana, Han, Hangul, full-width forms and emoji two |
| Utf8.Cut | apps/araya/src/metrics.hpp:163-183 | Cutting at a codepoint boundary splits nothing: segments and columns add up |
| Utf8.DisplayWidth | apps/araya/src/metrics.hpp:153-161 | The sum of the columns of the codepoints |
| Utf8.PrefixBytes | apps/araya/src/metrics.hpp:166-180 | The longest prefix of whole codepoints within the columns, at least one codepoint |
| Wrapping.WrapLines | apps/araya/src/metrics.hpp:187-240 | Each line is the words of its own stretch of the text with one space between, and no blank else; a stretch ends only at a newline, at the end, before a word it could not have held, or inside a word too wide for a line; every line fits |
| Wrapping.LineReads | apps/araya/src/metrics.hpp:206-232 | The runs of non-blank bytes of a line are those of its stretch, in order, and it is nothing but them with one space between neighbours |
| Wrapping.EmptyLine | apps/araya/src/metrics.hpp:187-240 | An empty line is one that a newline made, or the only line of a text without words |
| Wrapping.WrapShowsText | apps/araya/src/metrics.hpp:187-240 | For any byte string and width, the codepoints and stray bytes of the lines, blanks apart, are those of the text |
| Wrapping.InkIsTheSolidBytes | apps/araya/src/metrics.hpp:181-186 | Those segments run together are the text without its spaces, tabs and newlines |
| Wrapping.WrapKeepsText | apps/araya/src/metrics.hpp:187-240 | The lines run together are the text byte for byte, spaces, tabs and newlines apart |
| Wrapping.WrapFits | apps/araya/src/metrics.hpp:187-240 | Every line fits in the width when the width is at least two columns |

## Left out

- Engine.Runtime.Mount: a second source of a key, a component with several provided keys, and an optional dependency of a component that provides something, all of which the code mounts. These are hypotheses; for the last, `FrameRuns.FinishesWithConsumers` shows an invariant that fails without it.
- Engine.Runtime.Provide: a provision bound after the apply has returned, which binds without notifying anybody, and `registration.release()`.
- Engine.Runtime.SignalAvailability: one scope and one realm, so a sibling scope is never concerned.
- Reconcile.Reconciler.Reconcile: scopes, isolation tags and `reassign`; waiting for the gates of withdrawn fibers is draining the engine here.
- Reconcile.Reconciler.Bury: a waiter that sees one gate open before the others; all withdrawn fibers are waited for together.
- Scanner.Diagnosis.SortSlots: `std::sort` is an insertion sort here, and a list of fibers sorted for a report is a set.
- Scanner.Diagnosis.SelfProvisions: which of several self-provided keys is named; the provided keys of a component are a set here.
- Scanner.Diagnosis.BuildTables: scope visibility between fibers; with one scope every provider is visible.
- Conformance.Conform: `reconcile_all` and the in-place reconfiguration it may do; mounts and retirements only, over components the engine admits that provide at most one key and declare none twice. For a key declared twice the engine’s index holds a fiber once (src/runtime.cpp:134) and the machine’s list holds it twice (proof/oracle/oracle.hpp:178), so the machine evaluates it a second time where the engine does not. The engine waits for idleness before it erases a record, where the code waits for that fiber alone.
- Conformance.MachineSolves: stated of a machine that agrees with an engine, which `Conformance.Conform` provides.
- OracleMachine.Machine.Mount: fibers that cannot be put in order, for which nothing is proved of the machine.
- OracleMachine.Machine.Drain: that the machine’s fibers are at their targets afterwards, which needs the engine’s hypotheses and is `Conformance.MachineSolves`. A component that provides a key it declares counts as a cycle of one.
- OracleMachine.Machine.ReconcileAll: the observables that `refresh` copies out of the machine; slots are naturals.
- GoalService.Service.CreateGoal: one session per service, and no event bus; the clock and the minted identifier are parameters.
- RoundDriver.Driver.Drive: the rendered prompt and the reason text with its number; whether the agent is idle and accepts the message are parameters.
- RoundDriver.Driver.Fence: other listeners of the same waterfall, which may suspend between the fence and the append.
- Goals.ChangeReparsed: JSON text itself; parsing undoes serialising except for the kind of an integer.
- ChunkTranslator.Translator.Feed: what a translator that refused a payload would do next; its stream is over. Token counts are unbounded naturals.
- MessagesTranslator.AssistantBlocks: which argument texts parse as objects, a parameter; the model name and format tag of the replay state.
- MessagesTranslator.Translator.Feed: the user side of `build_messages_request` and its options, which only copy fields.
- Framing.MessageDecoder.Push: JSON parsing of a body, a parameter; messages decoded before a broken one in the same chunk are lost, as in the code.
- Inbox.AgentInbox.Enqueue: the bus notification, which the code sends even for a message the fold drops.
- Wrapping.WrapLines: rendering and scrolling of the rows.
- Gates, strands, executors, coroutines, the cleanup stack, parent and child fibers, plugin factories and instances: a handler is one atomic step and a teardown one event.
- The stop source is the state of the fiber and a flag; that the request after the cascade can reach a fresh source is modelled as written and proved harmless under the hypotheses.
- Jobs, the event bus, HTTP, SSE bytes, processes, file systems, logging, the command line and the native-module interface.
