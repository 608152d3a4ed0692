# Fairy and gateway core: a verified model

This project models the state machines at the core of the Go backend (the `fairy`, `gateway` and `clientperf` packages)
and proves what they are built to keep. `dafny verify dfyconfig.toml` checks everything.

| Files | Part of the system |
|---|---|
| `SchedulerModel`, `SchedulerInvariants`, `SchedulerSteps`, `SchedulerTheorems`, `SchedulerAnswers`, `Scheduler`, `Ingress` | the conversation scheduler: atomic steps, their invariant, theorems over all runs, the exact condition of every verdict, and the classes whose methods refine the steps; the claim table that deduplicates its input |
| `DependencyOrder`, `PluginModel`, `PluginTheorems`, `PluginRuns`, `PluginAnswers`, `PluginHost` | the dependency sort, the plugin lifecycle with runs on which contributions escape it, when plugins start and stop, and the host in place |
| `Gate`, `GateTheorems`, `GateDecisions` | the message gate, a simple gate that it refines, and the exact condition of every decision |
| `DynamicTree`, `DynamicPatch`, `DynamicBatch` | validation of content trees, the algebra of patches, batches and mutations of a message |
| `Interaction` | the reducers over interaction events |
| `RequestModel`, `RequestClient` | request/response correlation with its close race, and the client in place |
| `Transcript`, `WireFormat`, `Agent` | the planner's transcript, its alternating-role wire format, and the agent's loops with their call budget |
| `Context`, `ConfigAudit`, `Quota`, `Collector`, `Router` | memory compaction, configuration revisions, daily quotas, bounded samples and rate windows, retries and cost arithmetic |
| `Common` | options, blank strings, times that never return and finite sums |

A component that the source changes in place has four layers: a specification function for each step, a class whose
methods change their fields and ensure `View() == Step(old(View()), ...)`, lemmas that say in the fields of the state and
the input when each answer is given and what it changes (most are named `...Exactly`), and lemmas about runs of the steps.
Goroutines, timers, the network, the model, the tools and the disk are the environment: events that may happen in any
order, flags saying that an operation fails, or, for the agent and the model router, a world that fixes each outcome.

Several expected properties hold only under a condition. For each there is a lemma with the condition, exact unless
it says otherwise, and an input where the property fails:

- The time of a claim, of a gate's evaluation and of a report, and the day of a quota call, are read before the lock is taken,
  so they can take effect in another order.
  - Claims at given times are spaced by the retention, whatever their events, if and only if none comes back to within the
    retention of an earlier claim from which a pruning has moved away (`AnyEventsAreSpacedExactly`), as none does when times are
    in order (`TimesDoNotComeBack`); over a run of the scheduler
    that suffices (`AcceptedClaimsAreSpaced`), and the claims of one run are spaced if and only if each finds its event's grants
    lapsed or the row standing (`AcceptedClaimsAreSpacedExactly`). `BackwardClockBreaksSpacing` is an input of one millisecond.
    The theorems about the scheduler's capacity, order, causes, conservation and drain hold for claims at any times.
  - Quota counters are true if and only if their day was not interrupted (`CountersAreTrueExactly`), an interrupted day can
    exceed its limit in all and for a task (`InterruptedDayCanExceed`), and task counts exceed the global one if and only if
    enough of them are stale (`TasksFitTheTotalExactly`, `BackwardDayOvercounts`).
  - A gate is transparent, on all histories whose times go back by at most `d` and never to before an expiry that was passed, if
    and only if it has no focuses, no cooldown, or a cooldown that with `d` added does not outlive a focus
    (`TransparentExactly`, `LongCooldownDiffers`); times in order are the case of zero (`MonotoneIsAdmissible`), and times that
    do return make the gates differ (`ReturningTimesDiffer`).
  - A minute admits two windows' reports while no call returns to a window that is over (`AnyMinuteIsBounded`); otherwise it
    has no bound (`ReturningTimesAdmitMore`). Here the condition is sufficient, not exact.
- The length bound of the memory needs a limit of two (`LengthBoundExactly`) and incremental compaction one
  (`ZeroLimitMiscounts`); the configuration admits limits from 2 to 50 (`server/internal/fairy/config.go:265`).
- Every configuration of a run is loadable if and only if one was saved before, or the first clock reading that enters a saved
  revision is past the epoch (`StaysLoadableExactly`, `EarlyReadingBreaks`).
- The status "approved" survives an event if and only if `KeepsApproval`: where a response closes the request, the answer is
  neither "modify" nor negative; elsewhere it is positive, or with a fixed quorum enough others approve and it is no veto
  (`ApprovalIsKeptExactly`, `AnswersCanUndoApproval`).
- A checklist key decodes if and only if the actor's id has no NUL (`KeyDecodes`, `KeysCollide`).
- A contribution through a scope that a plugin has kept leaves every capability and hook owned if and only if it adds none, the
  scope is open, or (for a capability) an open scope of the plugin will take it back (`ContributeKeepsHeldExactly`,
  `LateHookStays`), and registrations exclusive if and only if it repeats none of another running plugin's
  (`ContributeKeepsExclusiveExactly`, `LateRegistrationsClash`).

## Model

| member | source | states |
|---|---|---|
| SchedulerTheorems.CapacityHolds | server/internal/fairy/scheduler.go:98-161 | in every reachable state `pending` is the sum of the queue lengths; it and each queue exceed their caps by at most one turn per queue with a bypassing stop at its head; stops precede ordinary turns; slots stay within their number |
| SchedulerTheorems.OneActorPerConversation | server/internal/fairy/scheduler.go:133-160 | live goroutines and mapped queues correspond one to one |
| SchedulerTheorems.NormalTurnsStartInOrder | server/internal/fairy/scheduler.go:214-287 | per conversation the started ordinary turns are a prefix of the accepted ones, across re-created queues |
| SchedulerTheorems.StopsOvertakeNormalTurns | server/internal/fairy/scheduler.go:137-145 | when an ordinary turn starts, every stop accepted in its conversation has started |
| SchedulerTheorems.AcceptedStopSettlesRunningTurn | server/internal/fairy/scheduler.go:137-143 | after an accepted stop, in every continuation, the interrupted turn ends with the user's stop or with the cause it already had |
| SchedulerTheorems.StopCauseIsRecorded | server/internal/fairy/scheduler.go:277-285 | a settled cause is never replaced before finish records it |
| SchedulerTheorems.AcceptedTurnsAreConserved | server/internal/fairy/scheduler.go:248-296 | accepted turns are the disjoint union of started, discarded and queued ones, none twice; discarding needs a cancelled lifecycle |
| SchedulerTheorems.AcceptedClaimsAreSpaced | server/internal/fairy/scheduler.go:121-132 | while no claim comes back to within the retention of one from which a pruning has moved away, no two accepted non-retryable turns with the same source and event were claimed within a retention period |
| SchedulerTheorems.AcceptedClaimsAreSpacedExactly | server/internal/fairy/scheduler.go:96-132 | over any run, with claims in any order, that holds if and only if every claim that got to its row found the earlier grants of its event lapsed or the row standing |
| SchedulerTheorems.RefusalsLeaveNoTrace | server/internal/fairy/scheduler.go:98-120 | leaving the submits refused for form, capacity or closed admission out of a run leads to the very same state, claims and history included |
| SchedulerTheorems.DrainIsBounded | server/internal/fairy/scheduler.go:191-212 | after admission closes every goroutine step lowers a measure that nothing raises |
| SchedulerTheorems.NeverStuck | server/internal/fairy/scheduler.go:214-246 | while a goroutine is left, one can step |
| SchedulerTheorems.DrainReachesEmpty | server/internal/fairy/scheduler.go:197-212 | goroutine steps alone lead from any closed state to one without actors, queues, pending turns and slots in use |
| SchedulerTheorems.EveryDrainEnds | server/internal/fairy/scheduler.go:191-246 | however a run goes on after admission closed, goroutine steps are bounded, and a state in which none is possible is empty |
| SchedulerTheorems.NoStartAfterCancel | server/internal/fairy/scheduler.go:250-257 | in every continuation after the lifecycle is cancelled no turn starts, and once no goroutine is left every turn that had not started is discarded |
| SchedulerAnswers.RefusalsExactly | server/internal/fairy/scheduler.go:82-120 | in every reachable state each refusal has its exact condition in the request and the fields: form, closed admission, the global cap and the conversation's cap, the last two only for a submit that is no stop of a busy conversation without the flag |
| SchedulerAnswers.StopsPassTheCaps | server/internal/fairy/scheduler.go:104-118 | a well-formed stop for a conversation that runs a turn or has one waiting, with no stop flagged, is refused for capacity in no open scheduler, however full |
| SchedulerAnswers.AcceptedExactly | server/internal/fairy/scheduler.go:121-132 | what is not refused is accepted if and only if it is retryable or its claim is granted; a failed and a repeated claim have their own verdicts |
| SchedulerAnswers.AcceptedTurnsJoin | server/internal/fairy/scheduler.go:133-150 | an accepted turn joins its queue once, a stop in front and any other behind; the counter and the flag follow and no other queue changes |
| SchedulerAnswers.AcceptedTurnsAreServed | server/internal/fairy/scheduler.go:137-160 | an accepted turn's conversation gets a goroutine if and only if it had no queue; only a stop gives a cause, to its conversation's running turn, and a first cause stays |
| SchedulerAnswers.RefusalsChangeNothing | server/internal/fairy/scheduler.go:98-132 | a refusal changes nothing, a failed or repeated claim the claim table alone |
| SchedulerAnswers.CurrentMeansRunning | server/internal/fairy/scheduler.go:268-285 | a queue stores a cancel function if and only if a goroutine runs a turn of the conversation, and it is that turn's |
| SchedulerAnswers.CancelReachesTheRunningTurn | server/internal/fairy/scheduler.go:163-175 | cancelling answers yes if and only if a turn of the conversation runs, and gives that turn alone its first cause |
| SchedulerAnswers.CausesReachTurns | server/internal/fairy/scheduler.go:207-209 | cancelling the lifecycle gives every running turn a cause and a timeout gives one turn one; a first cause stays |
| SchedulerAnswers.NextTurnExactly | server/internal/fairy/scheduler.go:248-276 | a goroutine between turns starts the head of its queue, or, shut down or without one, discards the queue and leaves |
| SchedulerAnswers.FinishExactly | server/internal/fairy/scheduler.go:277-285 | a finished turn is recorded with its context's cause, and the conversation has no running turn |
| SchedulerAnswers.LeavingExactly | server/internal/fairy/scheduler.go:214-222 | a goroutine that is shut down before its slot drops its queue; one that leaves gives back the slot it held |
| SchedulerAnswers.SlotsAreGivenExactly | server/internal/fairy/scheduler.go:214-222 | a waiting goroutine can take a slot if and only if fewer goroutines hold one than there are |
| SchedulerSteps.StepKeepsInv | server/internal/fairy/scheduler.go:82-296 | every atomic step keeps the whole invariant |
| Scheduler.ConversationScheduler.Submit | server/internal/fairy/scheduler.go:82-161 | the mutex section refines the submit step, with its verdict |
| Scheduler.ConversationScheduler.CheckAdmission | server/internal/fairy/scheduler.go:98-120 | the refusals before the claim, with the bypass of a stop |
| Scheduler.ConversationScheduler.CancelConversation | server/internal/fairy/scheduler.go:163-175 | refines the cancel step: only the running turn's context changes, and only if it had no cause |
| Scheduler.ConversationScheduler.TakeTurn | server/internal/fairy/scheduler.go:248-287 | refines the next-turn step: start of the head, or removal of the queue |
| Scheduler.ConversationScheduler.FinishTurn | server/internal/fairy/scheduler.go:277-285 | refines the finish step |
| Scheduler.ConversationScheduler.Discard | server/internal/fairy/scheduler.go:289-296 | refines the discard step |
| Scheduler.ConversationScheduler.TakeSlot | server/internal/fairy/scheduler.go:216-222 | refines the acquisition of a slot |
| Scheduler.ConversationScheduler.ReleaseSlot | server/internal/fairy/scheduler.go:215-218 | refines leaving, with the slot given back if one was held |
| Scheduler.ConversationScheduler.StopAdmission | server/internal/fairy/scheduler.go:191-195 | refines the closing of admission |
| Scheduler.ConversationScheduler.StopLifecycle | server/internal/fairy/scheduler.go:207-209 | refines the cancellation of the lifecycle, which cancels every running turn without a cause |
| Scheduler.ConversationScheduler.NoteUseElsewhere | server/internal/fairy/engine.go:555-568 | a claim that the gate's trace makes in the same table, or a pruning of it for feedback, refines its step |
| Ingress.ClaimKeepsSpacing | server/internal/fairy/trace_store.go:264-301 | a use of the table at any time that does not come back behind a pruning keeps grants of one key a retention period apart, through pruning and every failure |
| Ingress.AnyEventsAreSpacedExactly | server/internal/fairy/trace_store.go:264-301 | uses of the table at given times with given failures grant every event at most once a retention, whatever the events, if and only if no claim comes back to within the retention of an earlier one from which a pruning has moved away |
| Ingress.UsesMayComeBetween | server/internal/fairy/trace_store.go:264-301 | after a claim's own pruning any uses may come before its transaction: claiming in one step then prunes nothing more and does just what the transaction does |
| Ingress.ClaimKeepsSpacingExactly | server/internal/fairy/trace_store.go:264-301 | one claim at any time keeps the spacing if and only if it does not get to its row, or every earlier grant of its key has lapsed or has its row standing |
| Ingress.ClaimsAreSafeExactly | server/internal/fairy/trace_store.go:264-301 | at a given time no claim whatever can break the spacing if and only if every grant has lapsed or has its row standing |
| Ingress.BackwardClockBreaksSpacing | server/internal/fairy/trace_store.go:677-694 | at the retention of thirty days, two claims a millisecond apart that reach the table in the other order grant one event twice |
| Ingress.ClaimExactly | server/internal/fairy/trace_store.go:264-301 | a claim is granted if and only if it is well formed, nothing fails and no row of its key outlives it; a row goes only when due and expired, and a granted one lasts a retention |
| Ingress.ClaimsRefusedExactly | server/internal/fairy/trace_store.go:264-267 | what makes a claim malformed |
| Ingress.TraceStore.ClaimIngress | server/internal/fairy/trace_store.go:264-301 | the table in place refines the claim, with every failure |
| Ingress.TraceStore.RunPruneIfDue | server/internal/fairy/trace_store.go:677-694 | deletes exactly what has expired, and only when due |
| DependencyOrder.DependencyOrder | server/internal/fairy/plugin_runtime.go:584-621 | fails if and only if some plugin reaches itself or names an unregistered dependency, with a witness; otherwise returns every id once, dependencies first |
| DependencyOrder.Sorter.Visit | server/internal/fairy/plugin_runtime.go:588-612 | one depth-first visit: what it appends stays sorted, its failure is witnessed, older marks stay |
| DependencyOrder.OrderedMeansSound | server/internal/fairy/plugin_runtime.go:584-621 | a graph with a topological order has neither cycle nor missing dependency |
| PluginTheorems.LifecycleIsSafe | server/internal/fairy/plugin_runtime.go:554-582 | through start-up and any unloads, reloads, closes and late contributions, with any failures: running plugins and open scopes correspond, running plugins have their dependencies running, effects run once in reverse; without stray or clashing contributions nothing is owned by a stopped plugin and registrations are exclusive |
| PluginTheorems.StepKeepsInv | server/internal/fairy/plugin_runtime.go:293-304 | one step keeps the whole invariant if and only if it is no stray and no clashing contribution |
| PluginTheorems.LoadKeepsInv | server/internal/fairy/plugin_runtime.go:629-677 | a load, failed or not, keeps the lifecycle, ownership and exclusiveness, each where it held, and no other plugin changes |
| PluginTheorems.UnloadKeepsInv | server/internal/fairy/plugin_runtime.go:853-889 | an unload keeps the same; a plugin that was not refused no longer runs |
| PluginTheorems.NoDependentLeft | server/internal/fairy/plugin_runtime.go:909-927 | going backwards through the order, the last running plugin has no running dependent |
| PluginTheorems.CloseStopsEverything | server/internal/fairy/plugin_runtime.go:909-927 | after any such run closing is never refused and leaves nothing running, and each scope's effects ran once, in reverse; without stray or clashing contributions only the core's capabilities and no hook are left |
| PluginTheorems.StoppedOwnsNothing | server/internal/fairy/plugin_runtime.go:407-421 | a plugin that does not run owns no capability and no hook |
| PluginTheorems.RunBackReverses | server/internal/fairy/plugin_runtime.go:407-421 | effects run once each, last to first |
| PluginTheorems.RunBackTakesBack | server/internal/fairy/plugin_runtime.go:520-536 | closing withdraws exactly the owner's own capabilities |
| PluginTheorems.ContributeKeepsHeldExactly | server/internal/fairy/plugin_runtime.go:293-304 | a contribution through a kept scope keeps every capability and hook owned if and only if it adds none, the scope is still open, or an open scope of its owner will take the capability back |
| PluginTheorems.ContributeKeepsExclusiveExactly | server/internal/fairy/plugin_runtime.go:322-336 | a registration after the load keeps registrations exclusive if and only if no other running plugin has it |
| PluginTheorems.ContributeKeepsLifecycle | server/internal/fairy/plugin_runtime.go:293-390 | no contribution through any scope harms the lifecycle |
| PluginTheorems.StrayHooksStay | server/internal/fairy/plugin_runtime.go:370-377 | a hook added through a closed scope is never taken back, in any run |
| PluginAnswers.LoadSucceedsExactly | server/internal/fairy/plugin_runtime.go:629-677 | a load answers yes if and only if the plugin is registered, each dependency runs in a fitting version, there is a runner, neither the start nor a tool fails, and no other running plugin has one of its registrations |
| PluginAnswers.LoadRecords | server/internal/fairy/plugin_runtime.go:655-694 | on yes the plugin is running with its new scope open and holding what it registered; on no it is failed and a scope that was opened is closed; all else in the tables stays |
| PluginAnswers.FailedLoadLeavesNoTrace | server/internal/fairy/plugin_runtime.go:138-151 | a start that fails, however far it got, leaves the capabilities and the hooks as they were |
| PluginAnswers.StartOneExactly | server/internal/fairy/plugin_runtime.go:565-581 | the configuration's word on a plugin overrides its manifest's default: off is recorded as disabled, on is running if and only if a load succeeds |
| PluginAnswers.StartedInTurn | server/internal/fairy/plugin_runtime.go:565-581 | after start-up each plugin is as its own turn in the order left it |
| PluginAnswers.UnloadExactly | server/internal/fairy/plugin_runtime.go:853-889 | an unload is refused if and only if the plugin does not run or another running one depends on it; else it is unloaded, or failed if its stop fails, and its scope is closed |
| PluginAnswers.CloseRecords | server/internal/fairy/plugin_runtime.go:909-927 | closing leaves every plugin that ran unloaded, or failed if its stop fails, and every other one as it was |
| PluginAnswers.ReloadExactly | server/internal/fairy/plugin_runtime.go:891-907 | a reload is refused if and only if the plugin is not reloadable, not running or needed; else it ends running if and only if the stop and the start succeed and no other has its registrations |
| PluginAnswers.ContributionExactly | server/internal/fairy/plugin_runtime.go:293-390 | a capability is provided if and only if declared and not another's, a hook added if and only if declared; each has a disposer if and only if the scope is open |
| PluginRuns.LateHookStays | server/internal/fairy/plugin_runtime.go:370-377 | a run from start-up: a plugin is loaded and unloaded, and a hook added through its kept scope stays though the plugin does not run |
| PluginRuns.LateHookIsNotHeld | server/internal/fairy/plugin_runtime.go:293-304 | after it ownership fails: no open scope will take the hook back |
| PluginRuns.LateRegistrationsClash | server/internal/fairy/plugin_runtime.go:306-320 | a run from start-up after which two running plugins have registered one command, so registrations are not exclusive |
| PluginHost.Host.LoadPlugin | server/internal/fairy/plugin_runtime.go:629-677 | the host in place refines the load |
| PluginHost.Host.HasConflict | server/internal/fairy/plugin_runtime.go:691-753 | finds exactly the clashes of a candidate's registrations with those of running plugins |
| PluginHost.Host.UnloadPlugin | server/internal/fairy/plugin_runtime.go:853-889 | the host in place refines the unload, with its three refusals |
| PluginHost.Host.ReloadPlugin | server/internal/fairy/plugin_runtime.go:891-907 | the host in place refines unload followed by load |
| PluginHost.Host.StartAll | server/internal/fairy/plugin_runtime.go:554-582 | starts nothing on a defective graph, else all enabled plugins in order |
| PluginHost.Host.CloseAll | server/internal/fairy/plugin_runtime.go:909-927 | the host in place refines closing |
| GateTheorems.LazyExpiryIsInvisible | server/internal/fairy/gate.go:76-165 | with times that never return to before a passed expiry and a cooldown within the lifetime less how far they go back, every mix of previews and commits decides like a gate without stored expired focuses |
| GateTheorems.TransparentExactly | server/internal/fairy/gate.go:120-145 | for each `d`, that holds on all histories whose times go back by at most `d` if and only if there are no focuses, no cooldown, or the cooldown and `d` fit a focus's lifetime |
| GateTheorems.LongCooldownDiffers | server/internal/fairy/gate.go:131-138 | for every longer cooldown an admissible history on which the two gates differ |
| GateTheorems.ReturningTimesDiffer | server/internal/fairy/gate.go:120-145 | a time that returns to before a passed expiry finds a focus that the simple gate has dropped |
| GateTheorems.SoftTriggersTraceBack | server/internal/fairy/gate.go:120-145 | every soft trigger traces back to a hard one by the same sender through gaps shorter than a lifetime |
| GateTheorems.SoftTriggersAreSpaced | server/internal/fairy/gate.go:131-143 | on the same histories soft triggers of one sender are a cooldown apart unless someone else takes the focus |
| GateDecisions.OutsideGroupsExactly | server/internal/fairy/gate.go:76-92 | malformed, own, empty and private messages: each reason has its exact condition |
| GateDecisions.HardDecisionsExactly | server/internal/fairy/gate.go:93-128 | in a group a management command triggers whatever the settings; other commands and mentions trigger if and only if the group is enabled; the group is disabled, or soft messages off, exactly otherwise |
| GateDecisions.SoftDecisionsExactly | server/internal/fairy/gate.go:120-145 | for a soft message no trigger, conflict, shadow, cooldown and trigger each have their exact condition on the live focus; in shadow mode nothing triggers |
| GateDecisions.ActionsExactly | server/internal/fairy/gate.go:76-145 | which reasons trigger, wait or reject, which triggers are hard, and that shadow marks shadow mode alone |
| GateDecisions.PreviewChangesNoFocus | server/internal/fairy/gate.go:120-145 | a preview forgets at most the expired focus of its own conversation |
| GateDecisions.TriggersTakeFocus | server/internal/fairy/gate.go:139-165 | a committed group trigger gives its sender the focus for a lifetime, stamped if soft, with the sender's old stamp if hard; live focuses elsewhere stay |
| GateDecisions.OthersLeaveFocus | server/internal/fairy/gate.go:147-165 | nothing else sets a focus or drops a live one |
| Gate.MessageGate.Assess | server/internal/fairy/gate.go:76-145 | the map in place refines the evaluation, and the decision is one that validation accepts |
| Gate.MessageGate.FocusOn | server/internal/fairy/gate.go:147-165 | sets the focus, keeps the sender's cooldown, drops the expired ones |
| DynamicTree.ValidateTree | server/internal/gateway/dynamic_content.go:299-386 | from an empty state the walk accepts exactly the trees within all limits with distinct ids and valid labels |
| DynamicTree.ValidationState.ValidateNode | server/internal/gateway/dynamic_content.go:305-386 | a subtree is accepted if and only if it fits on top of what was counted, and then is counted exactly |
| DynamicTree.FitsConcat | server/internal/gateway/dynamic_content.go:299-386 | counting two stretches of nodes in turn is counting them together |
| DynamicPatch.ValidTreeByPaths | server/internal/gateway/dynamic_content.go:299-386 | a tree is valid if and only if it has at most a hundred nodes with distinct ids and twenty images, no path is longer than ten, and each path ends at a valid label with at most fifty children, all objects |
| DynamicPatch.LabelsRefusedExactly | server/internal/gateway/dynamic_content.go:313-369 | what makes a label invalid |
| DynamicPatch.ValuesRefusedExactly | server/internal/gateway/dynamic_content.go:388-426 | what makes a value invalid |
| DynamicPatch.FindNodeIsFirst | server/internal/gateway/dynamic_content.go:728-747 | the search answers if and only if the id occurs, with the first match in pre-order, its parent and its index there |
| DynamicPatch.FirstIsUnique | server/internal/gateway/dynamic_content.go:728-747 | there is one first match |
| DynamicPatch.UpdateChangesProps | server/internal/gateway/dynamic_content.go:662-674 | an update changes the props of one label, the first with the id: each key of the patch has the patch's value, each other key the one it had, and there are no more; all else stays |
| DynamicPatch.ReplaceExchangesSubtree | server/internal/gateway/dynamic_content.go:675-688 | a replacement exchanges exactly one subtree |
| DynamicPatch.ReplaceAccounting | server/internal/gateway/dynamic_content.go:675-688 | with distinct ids a replacement exchanges exactly the ids and nodes of two subtrees; ids stay distinct if and only if the new ones are distinct and not elsewhere in the tree |
| DynamicPatch.RemoveDeletesSubtree | server/internal/gateway/dynamic_content.go:689-698 | a removal deletes exactly one subtree, never the root |
| DynamicPatch.RemoveAccounting | server/internal/gateway/dynamic_content.go:689-698 | with distinct ids a removal takes exactly the subtree's ids and nodes away |
| DynamicPatch.CreateInsertsSubtree | server/internal/gateway/dynamic_content.go:699-722 | a creation inserts exactly one subtree behind its parent |
| DynamicPatch.CreateKeepsDistinct | server/internal/gateway/dynamic_content.go:699-722 | ids stay distinct if and only if the new ones are distinct and new |
| DynamicPatch.CreateThenRemove | server/internal/gateway/dynamic_content.go:689-722 | removing what was created restores the tree; missing children become an empty list |
| DynamicPatch.RemoveThenCreate | server/internal/gateway/dynamic_content.go:689-722 | with distinct ids, creating again what was removed restores the tree |
| DynamicPatch.PatchFailsExactly | server/internal/gateway/dynamic_content.go:658-723 | each failure has its exact condition in the ids that occur; an update without props changes nothing |
| DynamicPatch.ChangesStayInPlace | server/internal/gateway/dynamic_content.go:662-688 | an update or a replacement takes effect at the first node with the id; what stands elsewhere in the tree stands there still, and an update keeps the children |
| DynamicPatch.CreatePlacesChild | server/internal/gateway/dynamic_content.go:699-722 | a creation puts the node among its parent's children, at the index if that many are there, else last |
| DynamicPatch.PatchesRefusedExactly | server/internal/gateway/dynamic_content.go:452-497 | what makes a patch malformed |
| DynamicBatch.ApplyPatch | server/internal/gateway/dynamic_content.go:658-723 | the branch as coded, by parent and index, is the operation on the first match |
| DynamicBatch.SetAtParent | server/internal/gateway/dynamic_content.go:675-688 | exchanging a child in its parent exchanges the subtree |
| DynamicBatch.ApplyPatches | server/internal/gateway/dynamic_content.go:652-726 | a batch is the fold of its patches; the first failure is the batch's; all else in the schema stays |
| DynamicBatch.BatchIDsAreSourced | server/internal/gateway/dynamic_content.go:652-726 | every id after a batch was in the tree or came with a patch |
| DynamicBatch.BatchIsInOrder | server/internal/gateway/dynamic_content.go:657-724 | an empty batch changes nothing; a batch is its first patch and then the others on what that made |
| DynamicBatch.OutcomeExactly | server/internal/gateway/dynamic_content.go:564-650 | a removal leaves nothing, a replacement the new schema, an update the old one with the tree patched, if that is valid; each failure has its condition |
| DynamicBatch.SettledIs | server/internal/gateway/dynamic_content.go:564-587 | the other segments stay, in their order |
| DynamicBatch.MutationsRefusedExactly | server/internal/gateway/dynamic_content.go:428-545 | what makes a mutation malformed |
| DynamicBatch.SchemasRefusedExactly | server/internal/gateway/dynamic_content.go:246-297 | what makes a schema invalid |
| DynamicBatch.ContentIndex | server/internal/gateway/dynamic_content.go:589-611 | finds the one content with the id; each failure has its exact cause |
| DynamicBatch.Mutate | server/internal/gateway/dynamic_content.go:547-650 | a mutation succeeds if and only if it is well formed, its content is there once among readable ones and the outcome is valid; each failure has its exact condition; only that segment changes; a valid message stays valid and ids stay distinct |
| Interaction.InterleavingsAgree | server/internal/gateway/dynamic_interaction.go:911-917 | logs with the same order for each actor give the same latest events |
| Interaction.NeighboursCommute | server/internal/gateway/dynamic_interaction.go:911-917 | swapping neighbouring events of different actors changes nothing |
| Interaction.LastAnswerCounts | server/internal/gateway/dynamic_interaction.go:911-930 | an actor's last event counts, with its option, else its value, else its action, else the kind |
| Interaction.CountsAreOfActors | server/internal/gateway/dynamic_interaction.go:719-737 | a value's count is the number of actors whose last answer it is |
| Interaction.TotalIs | server/internal/gateway/dynamic_interaction.go:954-962 | a total is the largest of the configured number, the observed one and one |
| Interaction.WordsExactly | server/internal/gateway/dynamic_interaction.go:964-981 | which answers approve and which reject |
| Interaction.ReduceSetByActor | server/internal/gateway/dynamic_interaction.go:719-737 | counts are how many actors' latest answers fall on each value, with responded and total |
| Interaction.SetByActorCounts | server/internal/gateway/dynamic_interaction.go:719-737 | the counts sum to responded, the number of distinct actors, which is at most the total |
| Interaction.ReduceApprovalQuorum | server/internal/gateway/dynamic_interaction.go:820-864 | approved, rejected, quorum and status for every policy, veto and legacy closing included |
| Interaction.ApprovalAnswers | server/internal/gateway/dynamic_interaction.go:820-864 | a request is approved if and only if nobody vetoes and as many approve as the quorum asks for, or, without one, as were configured, have responded and one; it is rejected if and only if somebody vetoes |
| Interaction.LastResponseDecides | server/internal/gateway/dynamic_interaction.go:841-850 | where responses close, the last answer decides; nothing is decided before the first |
| Interaction.VotesAreBounded | server/internal/gateway/dynamic_interaction.go:820-864 | approved plus rejected is at most responded, which is at most the total |
| Interaction.ApprovalIsKeptExactly | server/internal/gateway/dynamic_interaction.go:836-853 | one more event keeps the status "approved" if and only if it is positive, or with a fixed quorum enough others approve and it is no veto; where responses close, if and only if it is neither a modification nor negative |
| Interaction.ApprovalIsStable | server/internal/gateway/dynamic_interaction.go:836-853 | the status "approved" outlasts any run of positive events under every policy |
| Interaction.AnswersCanUndoApproval | server/internal/gateway/dynamic_interaction.go:836-853 | an answer that undoes an approval with the default quorum, and one where responses close |
| Interaction.KeyDecodes | server/internal/gateway/dynamic_interaction.go:784-789 | a checklist key gives back its item if and only if the actor's id has no NUL |
| Interaction.KeysCollide | server/internal/gateway/dynamic_interaction.go:784 | two actors that share a key |
| Interaction.ChecklistCounts | server/internal/gateway/dynamic_interaction.go:778-804 | without NUL each item counts the actors whose latest word on it is done |
| Interaction.LastWordTicks | server/internal/gateway/dynamic_interaction.go:778-804 | an actor's last event on an item ticks it if and only if it says so, or says nothing and its action is positive |
| Interaction.ReduceChecklist | server/internal/gateway/dynamic_interaction.go:778-804 | the two loops, with responded and total, for any ids; without NUL the counts are those of actors and items, and responded is the number of distinct actors |
| Interaction.ReduceStateMachine | server/internal/gateway/dynamic_interaction.go:866-889 | succeeds if and only if every step between the named states is allowed; the status is the last of them, closed in the three final states, with responded and total |
| Interaction.OneMoreState | server/internal/gateway/dynamic_interaction.go:866-889 | one more event without a value changes nothing; else its value must be allowed after the last state and is the next |
| RequestModel.SendsNeverBlock | server/internal/fairy/client.go:280-312 | in every reachable state a send finds its one slot free, and a channel carries at most one value ever |
| RequestModel.NoRequestIsLost | server/internal/fairy/client.go:116-121 | a waiting request is pending, has a committed sender, or has its value |
| RequestModel.AnswersMatch | server/internal/fairy/client.go:280-291 | a request returns its own payload or the error that closed the connection |
| RequestModel.NothingPendsAfterTheDrain | server/internal/fairy/client.go:87-95 | nothing becomes pending once the drain is over, and the error stays |
| RequestModel.OutcomesStay | server/internal/fairy/client.go:81-138 | a returned request keeps its outcome in every continuation |
| RequestModel.StepKeepsInv | server/internal/fairy/client.go:81-138 | every atomic step keeps the invariant |
| RequestModel.StepsAreBounded | server/internal/fairy/client.go:299-312 | every step but a new request or a foreign payload uses up some of a finite amount |
| RequestModel.NeverStuck | server/internal/fairy/client.go:299-312 | once closing has begun, some step is possible until every request has returned |
| RequestModel.ClosingSettlesAll | server/internal/fairy/client.go:299-312 | so closing lets every request return without any context ending, in a bounded number of steps |
| RequestModel.EveryClosingEnds | server/internal/fairy/client.go:299-312 | however a run goes on after closing began, its effective steps are bounded by what was left and the requests drawn, and unless every request has returned and the drain is over some step of finish, reader or a request is possible |
| RequestModel.RegisteredExactly | server/internal/fairy/client.go:85-95 | a request is registered while the connection is open; once done it is refused with the error that closed it |
| RequestModel.AnswersArrive | server/internal/fairy/client.go:280-291 | a payload for a pending request reaches it, and its waiting request returns that payload; no other request changes |
| RequestModel.StrayPayloadsAreIgnored | server/internal/fairy/client.go:280-291 | a payload for nothing that is pending changes no request |
| RequestModel.DrainedRequestsFail | server/internal/fairy/client.go:305-310 | a request that the drain finds returns the closing error |
| RequestModel.WithdrawnExactly | server/internal/fairy/client.go:293-297 | a request that gives up is withdrawn and no other is |
| RequestModel.FirstErrorStays | server/internal/fairy/client.go:299-304 | closing can be claimed if and only if it was not, and keeps that error |
| RequestClient.Client.Register | server/internal/fairy/client.go:85-95 | refines registration; refused exactly when done, with the closing error |
| RequestClient.Client.ClaimClose | server/internal/fairy/client.go:299-304 | refines the start of finish; a second call changes nothing |
| RequestClient.Client.TakePending | server/internal/fairy/client.go:280-286 | refines the reader's half under the lock |
| RequestClient.Client.PutReply | server/internal/fairy/client.go:287-289 | refines the reader's send, on a free slot |
| RequestClient.Client.Withdraw | server/internal/fairy/client.go:293-297 | refines the removal |
| RequestClient.Client.Drain | server/internal/fairy/client.go:305-310 | the loop under the lock is a run of single failures in some order; each request found gets the closing error and `pending` ends empty |
| Transcript.GroupedAt | server/internal/fairy/agent.go:174-202 | in a grouped transcript each message that calls tools is followed by one result per call, same ids, same order |
| Transcript.GroupedConcat | server/internal/fairy/agent.go:174-202 | grouped transcripts can be joined |
| Transcript.RequestsRefusedExactly | server/internal/fairy/model.go:782-846 | what makes a request or a message invalid |
| WireFormat.AnthropicMessages | server/internal/fairy/model_anthropic.go:182-239 | fails if and only if a role is unknown, arguments are no object or all messages are system messages; otherwise the merged turns, tool inputs encoded anew |
| WireFormat.TurnExactly | server/internal/fairy/model_anthropic.go:196-234 | the role and the blocks of each kind of message: text, then images or tool uses |
| WireFormat.SystemPartsExactly | server/internal/fairy/model_anthropic.go:191-195 | the system texts are those of the system messages, in order |
| WireFormat.LastUserIs | server/internal/fairy/model_anthropic.go:185-190 | the position found is that of the last user message, or there is none |
| WireFormat.MergeAllKeepsBlocks | server/internal/fairy/model_anthropic.go:241-247 | merging keeps all blocks in order and with their role and leaves no two neighbours of one role |
| WireFormat.AlternatingFormIsUnique | server/internal/fairy/model_anthropic.go:241-247 | blocks have one alternating form without empty messages |
| WireFormat.WireFormIsExact | server/internal/fairy/model_anthropic.go:182-247 | the wire form of a valid request is that one form of its blocks |
| WireFormat.ImagesComeOnce | server/internal/fairy/model_anthropic.go:185-208 | the images come exactly once, with the last user message |
| WireFormat.GroupedBecomesPaired | server/internal/fairy/model_anthropic.go:182-247 | from grouped messages every wire message with tool uses is directly followed by one that starts with their results |
| Agent.AgentRuntime.Run | server/internal/fairy/agent.go:140-223 | in every world of answers, reservations, hooks and tool results the loops refine the run that the world decides; at most two completions per planner step and two for the reply, each reserved right before; each planner request extends the ones before it and stays grouped; what is said is the reply or the tool results |
| Agent.AgentRuntime.MakePlan | server/internal/fairy/agent.go:244-275 | refines the plan of a step: at most two attempts, the second a repair |
| Agent.AgentRuntime.DecisionFrom | server/internal/fairy/agent.go:443-470 | refines the reading of an answer; the loop over decoded calls stops at the first id that cannot be made |
| Agent.AgentRuntime.Reply | server/internal/fairy/agent.go:293-332 | refines the reply: one attempt, or two when a reply is expected |
| Agent.AgentRuntime.Complete | server/internal/fairy/agent.go:359-372 | refines one completion: validation and reservation come before the model |
| Agent.AskExactly | server/internal/fairy/agent.go:359-372 | a model is asked if and only if the context is not over, the request is valid and its reservation, if any, is granted |
| Agent.AttemptExactly | server/internal/fairy/agent.go:443-470 | an answer becomes its tool calls with their ids, or its decision with new ids for the calls in it; it stays open if and only if it is a repairable failure or decides nothing |
| Agent.PlanExactly | server/internal/fairy/agent.go:244-275 | an open first answer, and no other, is asked for again; there is no plan if and only if the last attempt gives none |
| Agent.ReplyExactly | server/internal/fairy/agent.go:293-332 | a usable answer is the reply; an expected reply, and no other, is asked for again after a repairable failure or an unusable answer |
| Agent.FineToolsExactly | server/internal/fairy/agent.go:171-204 | while nothing fails every call runs, in order, its result joins the transcript under its id and what it says joins the texts |
| Agent.FailedToolExactly | server/internal/fairy/agent.go:173-195 | the first failing hook or interruption ends the calls, in silence or with what the tools have said |
| Agent.NoPlanExactly | server/internal/fairy/agent.go:160-163 | without a plan the run says what its tools have said, unless there is none or the context is over |
| Agent.LastStepExactly | server/internal/fairy/agent.go:205-218 | a planned stop ends the run with the tools' texts or stopped; a planned reply ends it with the replyer's answer, or else the tools' texts |
| Agent.ToolStepExactly | server/internal/fairy/agent.go:168-204 | planned calls run on the transcript that has them; a failure or a direct reply ends the run, else the next step plans on the longer transcript |
| Agent.StepsExactly | server/internal/fairy/agent.go:154-223 | steps are taken in turn until one ends the run, at most four |
| Agent.PaidCounts | server/internal/fairy/agent.go:359-372 | so completions never outnumber granted reservations |
| Agent.PlannerRequestsConvert | server/internal/fairy/agent.go:157-202 | with a tool-free history every planner request of a run has its exact wire form, alternating and paired |
| Context.SummaryMeans | server/internal/fairy/context.go:78-129 | a summary names the first and last source, the first time and the total weight |
| Context.SummaryOfSummary | server/internal/fairy/context.go:78-129 | summarising a summary with what followed is summarising all at once |
| Context.CompactIsIncremental | server/internal/fairy/context.go:62-76 | compacting now and later is compacting once |
| Context.CompactKeeps | server/internal/fairy/context.go:62-76 | compaction keeps the limit, the newest messages verbatim and the total weight |
| Context.CompactExactly | server/internal/fairy/context.go:62-76 | few messages stay as they are; of more the newest stay, all but one of the limit but at least one, behind one summary of the others |
| Context.LengthBoundExactly | server/internal/fairy/context.go:66-69 | the length stays within the limit if and only if the limit is at least two or nothing is compacted |
| Context.ZeroLimitMiscounts | server/internal/fairy/context.go:66-71 | with a limit of zero, step by step compaction miscounts |
| Context.StoreRefines | server/internal/fairy/context.go:48-159 | over any run with expiry, snapshots, clears and prunes, every answer is the compaction of what an unbounded store would say |
| Context.AppendExactly | server/internal/fairy/context.go:48-60 | an append goes on from an entry no older than its lifetime, else anew; it is compacted and stamped, and no other entry changes |
| Context.DroppingExactly | server/internal/fairy/context.go:131-159 | a snapshot answers with an entry no older than its lifetime and drops an older one; clearing and pruning drop exactly theirs |
| Context.Summarize | server/internal/fairy/context.go:78-129 | the loop computes the summary |
| Context.ContextStore.Append | server/internal/fairy/context.go:48-60 | the map in place refines the append |
| Context.ContextStore.Prune | server/internal/fairy/context.go:151-159 | drops exactly the expired entries |
| ConfigAudit.RunKeepsInv | server/internal/fairy/managed_config.go:295-394 | from any loadable configuration, any updates, qualifications and reports with any clock keep contiguous revisions, at most fifty of them, `active` at most `current`, and a true log |
| ConfigAudit.StaysLoadableExactly | server/internal/fairy/managed_config.go:910-928 | every configuration of a run is loadable if and only if one was saved before or the first clock reading of the run is past the epoch |
| ConfigAudit.RevisionKeepsMetadata | server/internal/fairy/managed_config.go:305-314 | a revision keeps valid metadata valid for any clock; the first is valid if and only if the clock is past the epoch |
| ConfigAudit.ValidateMetadata | server/internal/fairy/managed_config.go:910-928 | the loop accepts exactly contiguous revisions with increasing times and valid sections that end at the current one |
| ConfigAudit.SectionsTell | server/internal/fairy/managed_config.go:841-888 | the sections name exactly the parts that differ, "none" if and only if nothing does, never a validation |
| ConfigAudit.MarkAppliedIsHonest | server/internal/fairy/managed_config.go:382-394 | when a report of any remembered revision is taken, that revision had exactly the settings that become active |
| ConfigAudit.ForgottenIsNotApplied | server/internal/fairy/managed_config.go:396-408 | a revision with more than fifty later ones is never taken |
| ConfigAudit.OnlyValidations | server/internal/fairy/managed_config.go:396-408 | the walk answers yes if and only if every later revision is in the log as a validation |
| ConfigAudit.QualificationsStayCurrent | server/internal/fairy/managed_config.go:345-380 | stored qualifications always fit the models configured at that revision |
| ConfigAudit.SectionsExactly | server/internal/fairy/managed_config.go:841-888 | each section is named if and only if its own part differs |
| ConfigAudit.AuditKeepsNewest | server/internal/fairy/managed_config.go:305-314 | the newest entries, at most forty-nine, stay in the log and the new one comes last |
| ConfigAudit.UpdateExactly | server/internal/fairy/managed_config.go:295-329 | a saved update is the next revision, stamped past the last, with the new settings, the qualifications that still fit and its log entry; `active` stays |
| ConfigAudit.QualifyExactly | server/internal/fairy/managed_config.go:331-380 | a qualification is taken if and only if it is of the present corpus and of the model as configured; it is stored, logged, and `active` follows if and only if it was current |
| ConfigAudit.UnsavedChangesNothing | server/internal/fairy/managed_config.go:315-329 | without a change, without a revision left or when saving fails nothing changes |
| ConfigAudit.AppliesExactly | server/internal/fairy/managed_config.go:382-408 | a report is taken if and only if it is not ahead, every later revision is logged as a validation, and nothing but the soft behaviour differs from the active settings |
| ConfigAudit.ConfigManager.UpdateWithResult | server/internal/fairy/managed_config.go:295-329 | the manager in place refines an update; a failed save changes nothing |
| ConfigAudit.ConfigManager.RecordModelQualification | server/internal/fairy/managed_config.go:331-380 | the manager in place refines a qualification, `active` following if it was current |
| ConfigAudit.ConfigManager.MarkRevisionApplied | server/internal/fairy/managed_config.go:382-394 | the manager in place takes exactly the reports that apply |
| Quota.CountersAreTrueExactly | server/internal/fairy/state.go:251-335 | over any run, with days in any order, a counter is the true number of granted calls of a day, in all or for a task, if and only if no call of another day was counted after one of it |
| Quota.LimitsHold | server/internal/fairy/state.go:251-335 | no day that was not reopened after an interruption has more granted calls than the largest limit in use, in all and per task |
| Quota.InterruptedDayCanExceed | server/internal/fairy/state.go:260-267 | every run with a day interrupted, globally or for a task, can go on with task calls, under a wide enough limit of the other kind, to exceed any limit on that day, in all or for that task |
| Quota.OrderedNeverReopens | server/internal/fairy/state.go:251-335 | while days do not go back, none is reopened |
| Quota.TasksFitTheTotalExactly | server/internal/fairy/state.go:295-335 | the tasks' calls of the current day sum to at most the global count if and only if no more of them are stale than were granted to no task since the count started |
| Quota.TasksFitTheTotal | server/internal/fairy/state.go:295-335 | so they do on every day that was not reopened |
| Quota.BackwardDayOvercounts | server/internal/fairy/state.go:260-263 | three calls of tasks around midnight after which the tasks sum to more than the global count and the day has exceeded its limit of one |
| Quota.TaskCallExactly | server/internal/fairy/state.go:295-335 | a task's call is granted if and only if it can be saved, its label is valid and both counts of the day leave room; it then adds one to both, for its day alone, and else changes nothing |
| Quota.ModelCallExactly | server/internal/fairy/state.go:251-274 | the same for a call of no task |
| Quota.StateStore.TakeModelCall | server/internal/fairy/state.go:251-274 | refines a reservation; a failed save restores the state |
| Quota.StateStore.TakeTaskModelCall | server/internal/fairy/state.go:295-335 | refines a double reservation; a failed save restores the exact state, absent keys included |
| Collector.Ring.Record | server/internal/clientperf/collector.go:102-121 | after any records the ring holds exactly the newest samples, oldest at `next` once full |
| Collector.TableIsBounded | server/internal/clientperf/collector.go:280-294 | the rate table never outgrows its bound |
| Collector.AllowExactly | server/internal/clientperf/collector.go:280-301 | a report is admitted if and only if its window has fewer than sixty, or it has none and a place is free among the 4096; it is counted either way unless the table is full |
| Collector.ReportsRefusedExactly | server/internal/clientperf/collector.go:199-228 | what makes a report unacceptable |
| Collector.LastExactly | server/internal/clientperf/collector.go:102-121 | what the newest samples are, and that one more drives out the oldest |
| Collector.StepKeepsInv | server/internal/clientperf/collector.go:280-301 | while no call returns to a window that is over, windows of a key start a window apart and count no earlier window's times, and pruning never resets one early |
| Collector.AnyMinuteIsBounded | server/internal/clientperf/collector.go:280-301 | then any half-open minute admits at most 120 reports of a key, times in any other order |
| Collector.ReturningTimesAdmitMore | server/internal/clientperf/collector.go:280-301 | for every number of rounds a run with returning times on which one minute admits 60 reports and 59 more each round |
| Collector.RateTable.Allow | server/internal/clientperf/collector.go:280-301 | the table in place refines the count |
| Router.CompleteRequest | server/internal/fairy/model.go:319-353 | in every world of answers and waits the loops produce only logs in which every attempt follows from the failure before it, and the result explains the last one |
| Router.AttemptsAreBounded | server/internal/fairy/model.go:319-353 | there are at most the sum of retries plus one attempts |
| Router.FallbacksAreAllowed | server/internal/fairy/model.go:346-348 | a later candidate is tried only after a failure of the one before that allows it |
| Router.EveryAttemptFollows | server/internal/fairy/model.go:319-353 | the first candidate is tried first, and each further attempt is a retry after a retryable failure or the next candidate after one that allows it |
| Router.EveryAttemptIsFollowedUp | server/internal/fairy/model.go:319-353 | a success ends the request; a retryable failure with a retry left is retried unless the wait is cut short; any other leads to the next candidate if and only if it allows it and there is one, and else is the result |
| Router.ResultIsDetermined | server/internal/fairy/model.go:319-353 | so the world decides the log and the result |
| Router.RetryDelay | server/internal/fairy/model.go:962-974 | the delay is the base doubled per retry, at most five seconds |
| Router.DelaysDouble | server/internal/fairy/model.go:962-974 | the first delay is the base, each further one twice the one before, and none is over five seconds |
| Router.CostIsExact | server/internal/fairy/model.go:993-1006 | within the configured limits the 64-bit cost is the exact floor |
| Router.DirectProductOverflows | server/internal/fairy/model.go:999-1006 | within the same limits the direct product would overflow |

## Left out

- HTTP handlers, WebSocket transport, SQLite, file formats, JSON decoding, the admin console, the MYS client, media and all user interface code.
- Random ids: a turn's id is its acceptance number, an echo the number in its name, both fresh; that generating an id fails is modelled only for tool calls.
- Goroutines, contexts and timers are steps of a state machine; a context is its cause. The trace events that carry no state are dropped.
- Times are integers of milliseconds and days are integers; the zero time and time zones are not modelled.
- PluginHost.Host.LoadPlugin: runtimes and scopes are values in the host's maps, so a module that keeps a reference into them is modelled only through its scope; manifests are a fixed function of the id, version comparison is a flag, and process isolation is not modelled.
- PluginTheorems.LifecycleIsSafe: assumes that no plugin is called `core`, which the source uses as the owner of its own capabilities.
- Gate.MessageGate.Assess: what the text of a message says (command, mention, content) is given as flags.
- DynamicBatch.ApplyPatches: the source edits a private deep copy through references; here a path stands for the reference and the tree is a value, so aliasing inside that copy is not captured.
- DynamicTree.ValidateTree: lengths count characters where the source counts bytes of identifiers and types; white space is the ASCII kind; an HTTPS address is a prefix and a length, its parsing is not modelled.
- DynamicBatch.Mutate: the nested transport forms of a schema and the limit on encoded bytes are not modelled; a schema is readable or not.
- Interaction: strings are taken as trimmed and in lower case; the append, counter and form reducers, the detail lists and the projection of counts into the tree (`updateInteractionProjection`) would add only easy members and are left out, as is the catalogue of action names.
- RequestModel: the event stream for unsolicited payloads and the decoding of a response are not modelled; the write lock only orders writes and is dropped.
- Agent.AgentRuntime.Run: prompts, traces and plugin hooks are reduced to their effect on control flow; the byte limits of a request and its tool definitions are not modelled.
- Context.StoreRefines: the text of a summary is not modelled, only that a message is one; a negative limit, on which the source would slice out of range, is not a value of the model.
- ConfigAudit: field validation, normalisation and conversion of settings are left out; a part of the settings is one opaque value, and `past` is a record that the source does not keep.
- Collector: percentiles and averages of the snapshot are left out.
- Router.RetryDelay: jitter, deadlines and the classification of failures are the environment's.
