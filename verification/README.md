# A verified model of the agent

This project models the durable cognitive agent in Dafny and proves what its parts promise: an event
reducer over crash-safe tables, worker tasks with retries, a scheduler, a delivery pump, a topic
graph that merges paraphrases, a discourse focus that late model results may override, a voice
pipeline, and the retrieval of context for a reply.

Three forms are used, following the program. Tables that the program updates in place are classes
whose methods change the same fields one statement at a time; each such method is proved equal to a
function on the value of the tables. The concurrency of the service is a transition system with
crashes (`Agent`), whose steps are exactly what happens between two awaits or inside one
transaction; the class `AgentService.Service` is proved to perform those steps. Pure code is
functions and lemmas. Everything a model, a clock, a vector or a random draw decides is an argument,
so each result holds for every such choice.

| file | subject |
|---|---|
| `Agent.dfy` | the tables, the handlers and the steps of the durable agent, crashes included |
| `AgentWork.dfy`, `AgentInbox.dfy`, `AgentDuty.dfy`, `AgentWake.dfy`, `AgentBudget.dfy` | what every run keeps |
| `AgentReplies.dfy` | when a cycle gets its reply, and what turns, wakes and results start |
| `AgentOutlook.dfy`, `AgentSettled.dfy`, `AgentReopen.dfy`, `AgentAttended.dfy`, `AgentSilence.dfy` | what becomes of an obligation, of a leased item and of the wake schedule, exactly |
| `AgentRuns.dfy` | concrete runs that show where a naive promise fails |
| `AgentService.dfy` | the service, dispatcher, recovery and reducer as methods of one object |
| `Outbox.dfy`, `OutboxLaws.dfy`, `Pump.dfy`, `PumpSpacing.dfy` | outbound rows, delivery results and the recovery sweep; delivery passes interleaved with reductions and restarts |
| `Vectors.dfy`, `TopicGraph.dfy`, `TopicLaws.dfy`, `TopicMerge.dfy`, `TopicMeaning.dfy`, `TopicRuns.dfy`, `TopicTables.dfy` | the topic graph |
| `Backfill.dfy` | summary-embedding jobs and their backfill |
| `Claims.dfy` | the claims of wakes on memories to enrich |
| `Focus.dfy` | the focus and the closed subject |
| `Segmenter.dfy`, `TurnAssembler.dfy`, `VoiceSession.dfy`, `Windowed.dfy` | the voice pipeline |
| `Relevance.dfy` | context selection |

`dafny verify dfyconfig.toml` checks the whole project.

## Where the code and its promises part

For each of these the condition under which the promise holds is stated exactly; the runs named
start from the initial state and show that it can fail.

* An obligation stays pending for ever if and only if a crash, or a reduction that raises, loses the
  error report queued after its work item was failed for good; recovery requeues RUNNING items only
  (`AgentOutlook.StrandedRun`, `AgentRuns.StrandedForGood`).
* An obligation resolves at most twice, and twice exactly when an answer of its item is reduced after
  it failed. That takes a worker that *returned* a body holding the reserved error key, which fails
  the obligation while its item is still leased: without one it resolves at most once. A failed
  obligation stays failed in every continuation if and only if its item is completed or given up
  (`AgentSettled.ResolvesAtMostOnce`, `AgentSettled.FailedRun`, `AgentReopen.FailedForGood`,
  `AgentRuns.ResolvedTwice`).
* A RUNNING item has a task or a queued result unless, since the last start, its task died, its
  result was lost by a reduction that raised, such a body was reduced for it, or the process crashed
  (`AgentAttended.EveryLeasedItemIsAttended`).
* While the service is up its timer is armed or a live wake is queued, unless the last schedule gave
  an infinite delay, or since then the reduction of the live wake raised or a fault skipped the
  schedule it asked for: then the scheduler is silent until something else reschedules
  (`AgentSilence.AwakeExactly`, `AgentRuns.WakeLost`).
* A `no_client` result reduced after its proactive row left the queue puts the row back beside a
  newer one (`Outbox.OnePerChannelRun`, `Outbox.Resurrection`).
* After a merge nothing names the dead topic, until such a result puts back an item about it, a
  delivery about it is recorded, or a reply opens an intent on it; exactly these three make a record
  name a dead topic (`TopicMerge.OrderlyRun`, `TopicRuns.DeadTopicRevived`,
  `TopicRuns.DeadTopicVoiced`, `TopicRuns.DeadTopicIntended`).
* A memory has one enrichment in flight at a time, if and only if no result gives back a claim that
  another item made; that takes a wake that picks a claimed memory to speak of it
  (`Claims.OneClaimExactly`, `Claims.OneClaimUnlessRepicked`, `Claims.TwoClaims`). A claimed memory
  has an item under way to give the claim back, unless the last such item was given up or returned
  something that does not parse, and nothing took the memory up since
  (`Claims.EveryClaimIsTended`, `Claims.ClaimStrays`).
* A merge loses the exclusion a duplicate owed to its source memory when the survivor has a source
  of its own (`TopicMerge.ExclusionFollows`, `TopicRuns.ExclusionLost`). The comment on the code
  says suppression follows the merge.
* The focus guard compares with the turn reduced *last*, not the latest stamp: after a turn with an
  older stamp, a stale result writes (`Focus.GuardExact`, `Focus.HiddenTurn`).
* A backfill looks at two hundred topics before it skips those with a job in flight, so a topic with
  that many hotter ones without an embedding is passed over for as long as they stay so, even when
  none of them has a job; the code's comment says the next backfill picks up the remainder
  (`Backfill.PassedOver`, `Backfill.PassedOverRun`, `Backfill.StarvedForGood`).
* A proactive send that is cancelled does not move the burst clock. Within a session all attempts are
  a burst window apart, start to start, if and only if none starts less than a window after one that
  was cut; with no cancellation they always are (`PumpSpacing.SpacedIfPatient`, `PumpSpacing.UncancelledSpaced`,
  `PumpSpacing.CancelledSend`). A restart forgets the burst clock and what is in flight, so both
  that spacing and the ban on resending hold per session (`Pump.Delivery`,
  `PumpSpacing.RestartResends`).
* A captured frame is processed when its *end* is outside the echo guard; its start may be inside
  (`VoiceSession.MuteExact`, `VoiceSession.StartsInsideGuard`).
* A bundle fits its budget for every input if and only if there are no more relevant slots than
  budget (`Relevance.FitsExactly`).

## Model

| member | source | states |
|---|---|---|
| AgentService.Service.Ingest | src/aca/service/service.py:169-176 | accepts durably before queueing; a repeated id changes nothing and is reported as not new |
| AgentService.Service.LeaseItem | src/aca/persistence/work_store.py:50-55 | leases exactly the one item, whatever its status was |
| AgentService.Service.DispatchItem | src/aca/service/dispatcher.py:51-63 | one dispatch is the dispatch step on that item; an unknown item is skipped |
| AgentService.Service.DispatchItems | src/aca/service/service.py:211-212 | dispatching one at a time leaves the state of dispatching the whole set at once |
| AgentService.Service.ReleaseForRetry | src/aca/service/dispatcher.py:85-89 | a retry is the retry step: same item, leased once more, next attempt number |
| AgentService.Service.FailTerminal | src/aca/service/dispatcher.py:91-110 | the last failure ends the item and queues one error report for a generative one, none for an embedding |
| AgentService.Service.Return | src/aca/service/dispatcher.py:82-83 | an answered task is gone and its one result is queued |
| AgentService.Service.RunTask | src/aca/service/dispatcher.py:65-83 | the retry loop, for any number of failures and any answer: attempts counted exactly, at most three in all, then one result or one failure report, nothing else touched |
| AgentService.Service.CreateLlmWork | src/aca/reducer/workitems.py:103-128 | raises exactly when the cycle already has a generative item, and otherwise adds the one item |
| AgentService.Service.OnHuman | src/aca/reducer/handlers/human.py:150-206 | the whole outcome of a human turn, including the raise that must roll it back |
| AgentService.Service.OnWake | src/aca/reducer/handlers/wake.py:37-119 | a stale wake changes nothing; otherwise the charge, the item and the reschedule are those of the specification |
| AgentService.Service.UpdateObligation | src/aca/persistence/work_store.py:122-130 | changes the status and answer of that obligation only |
| AgentService.Service.FinishReply | src/aca/reducer/handlers/llm_result.py:193-244 | a mandatory cycle ends SATISFIED by its own new row or FAILED; a reactive one adds at most one row; proposals are applied either way |
| AgentService.Service.FinishProactiveReply | src/aca/reducer/handlers/llm_result.py:273-349 | a proactive row is created exactly when the gates and the hourly budget allow, and then charged |
| AgentService.Service.OnLlmResult | src/aca/reducer/handlers/llm_result.py:79-136 | completing the item last, as the code does, gives the same tables as the specification, which completes it first |
| AgentService.Service.Reduce | src/aca/reducer/reducer.py:68-95 | one transaction: every table changes as its handler says, or none changes at all |
| AgentService.Service.ScheduleWake | src/aca/service/service.py:247-263 | the generation is bumped in memory and in the store together, and the timer re-armed under it or left unset |
| AgentService.Service.OnWakeFired | src/aca/service/service.py:265-277 | a firing queues one wake of the generation that armed it and disarms the timer |
| AgentService.Service.Process | src/aca/service/service.py:206-216 | reduce, dispatch, reschedule in that order, with a fault part way |
| AgentService.Service.ReduceNext | src/aca/service/service.py:192-204 | one turn of the reducer loop is the reduction step; a raise leaves the tables alone and the loop goes on |
| AgentService.Service.BeginStop | src/aca/service/service.py:139-146 | stopping disarms the timer and leaves the rest to the drain |
| AgentService.Service.ReduceRemaining | src/aca/service/service.py:221-244 | the shutdown drain is a run of drain steps that empties the queue: results are reduced, everything else dropped, nothing dispatched |
| AgentService.Service.ReclaimLeases | src/aca/service/recovery.py:126-135 | every RUNNING item, and no other, goes back to PENDING |
| AgentService.Service.PendingItems | src/aca/service/recovery.py:100-100 | lists each PENDING item once |
| AgentService.Service.Recover | src/aca/service/recovery.py:74-111 | recovery is the recover step: new session and generation, leases reclaimed, all unreduced messages to replay, all unfinished work to dispatch |
| AgentService.Service.ReplayOne | src/aca/service/service.py:126-127 | replaying one recovered event is the replay step |
| AgentService.Service.DispatchOne | src/aca/service/service.py:128-129 | redispatching one recovered item is the dispatch step of a start |
| AgentService.Service.Reconcile | src/aca/service/service.py:131-135 | the reconciliation and first schedule that end a start |
| AgentService.Service.Launch | src/aca/service/service.py:125-137 | an uninterrupted start is the run of its steps; it ends running, with the invariants kept and no item left PENDING |
| AgentService.LaunchEnds | src/aca/service/service.py:126-136 | an uninterrupted start ends running and leaves no item PENDING |
| AgentWork.WorkRun | src/aca/service/dispatcher.py:51-110 | in every reachable state each leased item has at most one task or one queued result, never both, and each cycle one generative item |
| AgentWork.RowNext | src/aca/persistence/work_store.py:50-74 | COMPLETED and FAILED_TERMINAL rows never change again, although no update checks the status |
| AgentWork.AppliedAtMostOnce | src/aca/reducer/handlers/llm_result.py:79-105 | over any run with retries, stops and crashes a result is applied at most once per item |
| AgentWork.ThreeAttemptsPerSession | src/aca/service/dispatcher.py:65-89 | between two starts an item is attempted at most three times, whatever is dispatched, retried or reduced |
| AgentWork.StartEndsKeeps | src/aca/service/service.py:126-136 | whatever came between, the last step of a start leaves no item PENDING |
| AgentReplies.ReplyExactly | src/aca/reducer/handlers/llm_result.py:193-349 | over any run from an empty store a cycle has a row if and only if some step reduced a result of its item that spoke and was allowed (a mandatory one always, a proactive one with room in its hour); it then has exactly one, of its kind |
| AgentReplies.RepliedNext | src/aca/reducer/handlers/llm_result.py:79-105 | a step gives a cycle its reply exactly when it reduces such a result, and no step takes one away |
| AgentReplies.ResultWrites | src/aca/reducer/handlers/llm_result.py:193-349 | the reduction of a result of an item that is not completed writes the one new row exactly in those cases and changes no other row |
| AgentReplies.ResultItems | src/aca/reducer/handlers/llm_result.py:79-136 | what the reduction of a result does to the work table: nothing for a worker failure, the item completed otherwise, and its embedding items added only for a decision |
| AgentReplies.ResultAsks | src/aca/reducer/handlers/llm_result.py:273-349 | a result asks for a new schedule exactly when it ends a proactive cycle with a decision |
| AgentReplies.TurnStarts | src/aca/reducer/handlers/human.py:150-206 | a human turn fails only where it would start a second generative item in its cycle, owes a reply exactly when it is mandatory, and always reschedules |
| AgentReplies.TurnItems | src/aca/reducer/handlers/human.py:164-206 | which items a turn makes: an embedding one if the message is eligible, a mandatory or reactive one if the turn is answered, and no other |
| AgentReplies.WakeStarts | src/aca/reducer/handlers/wake.py:37-119 | a live wake starts a proactive cycle exactly when the gates allow it and day and hour have room; a stale one does nothing, a live one always reschedules |
| AgentReplies.EmbeddingAsks | src/aca/reducer/handlers/embedding_result.py:26-64 | an embedding result completes its item once and reschedules exactly when it merged; a backfill adds exactly its items and reschedules nothing |
| AgentAttended.OrphanNext | src/aca/service/dispatcher.py:65-110 | a step leaves a leased item without task and without queued result exactly when it is a crash, the death of its task, a failed reduction of its result, or the reduction of a returned body holding the reserved key; only a start takes it up again |
| AgentAttended.EveryLeasedItemIsAttended | src/aca/service/recovery.py:126-135 | over any run from an empty store a RUNNING item has a task or a queued result if and only if no such step came since the last start |
| AgentInbox.InboxRun | src/aca/reducer/reducer.py:77-83 | over any run each accepted message is reduced at most once, and an accepted message is never forgotten |
| AgentInbox.UnreducedReplaysAll | src/aca/persistence/event_store.py:53-58 | the replay list is exactly the accepted, unreduced messages, each once, oldest first |
| AgentInbox.RecoverKeeps | src/aca/service/recovery.py:100-101 | a start replays all of them |
| AgentInbox.ReplayKeepsInbox | src/aca/service/service.py:125-127 | a replayed message ends in the conversation and the rest are still to come |
| AgentInbox.StartReducesAll | src/aca/service/service.py:125-137 | every message accepted before a start has been reduced when the start ends, whatever comes in meanwhile, unless a crash ends it first |
| AgentDuty.InvRun | src/aca/reducer/handlers/llm_result.py:79-136 | over any run each obligation agrees with its work item: PENDING until it ends, SATISFIED by its own MANDATORY row, or FAILED; each cycle has at most one reply |
| AgentDuty.Reachable | src/aca/reducer/handlers/human.py:209-243 | the same from an empty store |
| AgentOutlook.Outlook | src/aca/service/dispatcher.py:91-110 | a pending obligation has work to come, a report to come, or is stranded |
| AgentOutlook.SettledNext | src/aca/reducer/handlers/llm_result.py:108-120 | a satisfied obligation, and a failed one whose item reported no body with the reserved key, is untouched by a step |
| AgentSettled.StatusNext | src/aca/reducer/handlers/llm_result.py:79-136 | a step that reduces a result of its item satisfies an obligation exactly when that is a spoken answer and fails it otherwise; no other step changes its status |
| AgentSettled.SettledRun | src/aca/reducer/handlers/llm_result.py:79-105 | once an obligation has an outcome and its item is over, it never changes again in any way, in any run |
| AgentSettled.FailedRun | src/aca/reducer/handlers/llm_result.py:108-120 | over any run a failed obligation ends satisfied if some step reduces an answer of its item, and failed if none does |
| AgentSettled.ResolvesExactly | src/aca/reducer/handlers/llm_result.py:193-244 | over any run an obligation changes its status at most twice, and twice exactly when an answer is reduced after it failed |
| AgentSettled.ResolvesAtMostOnce | src/aca/service/dispatcher.py:91-110 | from an empty store, and at most once when no worker returns the reserved key for its item |
| AgentReopen.FailedForGood | src/aca/service/recovery.py:126-135 | a failed obligation stays failed in every continuation if and only if its item is completed or given up; otherwise a restart can satisfy it |
| AgentOutlook.StrandedNext | src/aca/service/recovery.py:126-135 | a step strands an obligation exactly when it loses the report of one at risk, and nothing rescues it |
| AgentOutlook.StrandedRun | src/aca/service/dispatcher.py:91-110 | over any run an obligation ends stranded if and only if some crash or failed reduction lost its report |
| AgentOutlook.EveryObligationHasAnOutlook | src/aca/reducer/handlers/human.py:209-243 | from an empty store: a pending obligation has neither work nor report to come exactly when its report was lost |
| AgentRuns.CrashStrands | src/aca/service/dispatcher.py:91-110 | in any state, giving up an owed item and then crashing strands it through every later run |
| AgentRuns.StrandedForGood | src/aca/service/recovery.py:126-135 | such a run exists from an empty store |
| AgentRuns.ResolvedTwice | src/aca/reducer/handlers/llm_result.py:89-90 | a run from an empty store in which an obligation fails and is later satisfied |
| AgentRuns.FromEmpty | src/aca/service/service.py:92-137 | every state reached from an empty store has all of these invariants at once |
| AgentWake.WakeRun | src/aca/service/service.py:247-277 | over any run the generations in memory and in the store agree once a session runs, and the wakes acted on have strictly increasing generations |
| AgentWake.OneLiveWakeRun | src/aca/reducer/handlers/wake.py:28-40 | over any run from an empty store at most one queued wake would be acted on, none while the timer is armed, and no generation is acted on twice |
| AgentWake.FiresOnce | src/aca/service/timer.py:22-42 | each generation fires at most once in any run, restarts included |
| AgentWake.SessionRun | src/aca/service/recovery.py:74-111 | over any run there are as many new sessions as starts, and each start moves the generation on; it never goes back |
| AgentSilence.SilentNext | src/aca/service/service.py:192-216 | a step leaves a running service with no armed timer and no live wake exactly when it schedules an infinite delay, loses the live wake to a raise or its schedule to a fault, or finds it so and neither schedules nor ends the session |
| AgentSilence.AwakeExactly | src/aca/service/service.py:247-263 | over any run from an empty store the running service has an armed timer or a live wake if and only if no step since the last schedule silenced it |
| AgentSilence.ShutdownRun | src/aca/service/service.py:221-244 | from the moment a stop begins until the next start: no timer, no schedule, no wake acted on, no human message reduced and no task for an item that had none; results are all that is reduced |
| AgentRuns.WakeLost | src/aca/service/service.py:199-204 | a run from an empty store after which the service is up with neither: the first wake fires and its reduction raises |
| AgentBudget.BudgetRun | src/aca/reducer/support.py:158-174 | over any run every window stays within its cap, an hour counts exactly the proactive items and rows created in it, and a day is the sum of its hours |
| AgentBudget.InitBudget | src/aca/persistence/state_store.py:67-79 | the budgets start out exact |
| AgentBudget.WindowsMean | src/aca/cognition/budgets.py:21-28 | two moments are charged to one hour, or one day, exactly when the clock puts them there |
| Outbox.InvRun | src/aca/reducer/handlers/delivery_result.py:20-49 | over any run DELIVERED rows never change, each has exactly one agent turn and no other message has any, the turns are the delivered attempts in order, mandatory rows are pending or delivered, and the self-model counts the delivered proactive rows |
| Outbox.OnePerChannelNext | src/aca/reducer/handlers/delivery_result.py:61-81 | exactly a no_client report on a row that left the queue, beside another item of its channel, breaks one item per channel |
| Outbox.OnePerChannelRun | src/aca/reducer/outbound.py:19-75 | over any run each channel has at most one in-flight proactive item all along, if and only if no such report is reduced |
| Outbox.Resurrection | src/aca/reducer/handlers/delivery_result.py:72-75 | the interleaving that revives a superseded row |
| OutboxLaws.SweepExact | src/aca/service/recovery.py:138-142 | the recovery sweep expires exactly the undelivered proactive rows whose expiry is at most now, and changes nothing else |
| OutboxLaws.SweptByAge | src/aca/reducer/outbound.py:51-75 | whatever came between, a proactive message spoken at t for ttl seconds and still in flight is expired by a sweep if and only if t + ttl is at most now |
| OutboxLaws.SpeakExact | src/aca/reducer/outbound.py:29-75 | a new row is pending; a proactive one has its time limit and supersedes exactly the in-flight ones of its channel |
| OutboxLaws.ReportExact | src/aca/reducer/handlers/delivery_result.py:20-81 | everything a report does, by case: unknown, already delivered, delivered, or undelivered with each kind of error |
| OutboxLaws.StampedRun | src/aca/persistence/outbox_store.py:43-57 | over any run a row is DELIVERED exactly when it carries the stamp of a delivery of it |
| Outbox.Tables.SetStatus | src/aca/persistence/outbox_store.py:43-57 | an unconditional update of one row: status and error are overwritten, earlier stamps it is not given are kept |
| Outbox.Tables.SupersedePendingProactive | src/aca/reducer/outbound.py:19-26 | supersedes every in-flight proactive item of the channel but the new one, and nothing else |
| Outbox.Tables.CreateOutbound | src/aca/reducer/outbound.py:29-75 | a new pending row; a proactive one expires and supersedes |
| Outbox.Tables.HandleDeliveryResult | src/aca/reducer/handlers/delivery_result.py:20-49 | the exact new tables for a delivered, failed, duplicate or unknown message: row, attempt record, agent turn, last delivery, expression and count |
| Outbox.Tables.HandleUndelivered | src/aca/reducer/handlers/delivery_result.py:61-81 | which status each error leaves a row in |
| Outbox.Tables.ExpireStaleProactive | src/aca/service/recovery.py:138-142 | expires exactly the in-flight proactive items past their time |
| Outbox.Tables.InFlightCandidates | src/aca/persistence/outbox_store.py:67-82 | the candidates of in-flight proactive items, no more and no fewer |
| Pump.Delivery | src/aca/service/delivery.py:58-136 | for every interleaving of passes, reductions, table changes and restarts: in a session no resend before a reduced failure, in none after a reduced delivery, mandatory before proactive in each pass, a proactive send at least a burst window after each earlier one of its session ended, one outstanding result per message |
| Pump.PumpRun | src/aca/service/delivery.py:66-75 | the invariant behind it, from any state that has it |
| Pump.PassOverAll | src/aca/service/delivery.py:66-104 | a pass that runs to its end has sent, dropped, or left because of the window each pending message that was not in flight when it began, whatever is interleaved |
| Pump.InFlightExactly | src/aca/service/delivery.py:58-59 | over any run a message is in flight if and only if a pass took it up and since then neither a reduction of its report went through nor the service restarted: a cancelled send, a failed reduction and the drain of a shutdown let go of nothing |
| Pump.WindowOpens | src/aca/service/delivery.py:106-110 | a pass may attempt a proactive item exactly when none was attempted yet or the last one ended at least a window ago |
| PumpSpacing.AttemptsSpaced | src/aca/service/delivery.py:77-110 | over any run, two attempts of a session start closer than the window only when the earlier one was cut |
| PumpSpacing.SpacedNext | src/aca/service/delivery.py:102-104 | a step keeps all attempts a window apart exactly when it is not an attempt that starts less than a window after a cut one of its session |
| PumpSpacing.SpacedIfPatient | src/aca/service/delivery.py:106-110 | over any run from the start all attempts of a session are a window apart if and only if no step is such an attempt |
| PumpSpacing.UncancelledSpaced | src/aca/service/delivery.py:50-55 | without a cancelled proactive send they always are |
| PumpSpacing.CancelledSend | src/aca/service/delivery.py:102-104 | a run from the start, on one channel, in which a cut attempt is followed at the same moment by one for the item that replaced it, whatever the window |
| PumpSpacing.RestartResends | src/aca/service/delivery.py:40-56 | a run from the start in which a restart lets a message be sent again, at once, before its result is reduced |
| Pump.OneAttempt | src/aca/service/delivery.py:77-104 | when the window is open a pass attempts exactly one proactive item, the first that nothing drops; all else it reports is drops |
| Pump.OnlyDrops | src/aca/service/delivery.py:99-101 | when it is not, nothing is attempted |
| Pump.NoticesOfList | src/aca/service/delivery.py:83-98 | every dropped item is reported, and nothing outside the snapshot |
| Pump.FirstInOrder | src/aca/service/delivery.py:72-73 | every mandatory item of the snapshot is reported, in order |
| Pump.SecondInOrder | src/aca/service/delivery.py:77-104 | the proactive half reports in the order of its snapshot |
| Pump.SecondIsRun | src/aca/service/delivery.py:77-104 | the proactive half of an uninterrupted pass is a run of the interleaving machine |
| Pump.FirstIsRun | src/aca/service/delivery.py:66-75 | so is a whole pass |
| Pump.DeliveryPump.PumpPass | src/aca/service/delivery.py:66-75 | the reports a pass queues, in order, exactly the messages it puts in flight, and when the burst clock moves |
| Pump.DeliveryPump.PumpMandatory | src/aca/service/delivery.py:72-73 | attempts each mandatory item once, in order, and puts exactly those in flight |
| Pump.DeliveryPump.PumpOneProactive | src/aca/service/delivery.py:77-104 | drops, one attempt, or left pending, for every item of the list; exactly the reported ones are in flight |
| Pump.DeliveryPump.BurstWindowElapsed | src/aca/service/delivery.py:106-110 | true when nothing was sent yet or the window has passed |
| Pump.DeliveryPump.Enqueue | src/aca/service/delivery.py:123-136 | a report marks its message in flight |
| Pump.DeliveryPump.OnDeliveryResult | src/aca/service/delivery.py:58-59 | a reduced result frees its message only |
| Vectors.Symmetric | src/aca/cognition/vectors.py:17-26 | similarity does not depend on the order of its arguments |
| Vectors.CauchySchwarz | src/aca/cognition/vectors.py:17-26 | the square of a dot product is at most the product of the squared norms |
| Vectors.Range | src/aca/cognition/vectors.py:18-18 | similarity lies in [-1, 1] |
| Vectors.Sign | src/aca/cognition/vectors.py:17-26 | similarity has the sign of the dot product, and is zero exactly without a cosine or at a right angle |
| Vectors.Opposite | src/aca/cognition/vectors.py:17-26 | turning a vector round turns the sign of its similarity |
| Vectors.SelfSimilar | src/aca/cognition/vectors.py:17-26 | a vector with a norm has similarity one with itself |
| Vectors.CutExact | src/aca/reducer/handlers/embedding_result.py:70-87 | for a cut c > 0 the similarity is at least c * c exactly when the cosine is at least c |
| Vectors.DotSplits | src/aca/cognition/vectors.py:17-26 | the dot product is the sum of the products of the positions |
| TopicLaws.InvRun | src/aca/reducer/handlers/embedding_result.py:26-108 | over any run: no two topics embedded under one model are duplicates, embedding rows name live topics, evidence sums to the number of enriched memories, a topic is unfinished exactly when a pending intent points at it, and no memory is tried past its cap |
| TopicLaws.EvidenceNext | src/aca/reducer/apply_proposals.py:51-113 | every step keeps the evidence total equal to the enriched memories |
| TopicLaws.ThreadsNext | src/aca/reducer/apply_proposals.py:150-190 | every step keeps open threads exact |
| TopicLaws.IdentityNext | src/aca/reducer/handlers/embedding_result.py:73-108 | every step keeps embedded topics of one model pairwise distinct |
| TopicLaws.AttemptsNext | src/aca/reducer/handlers/llm_result.py:247-270 | a memory that may still be enriched has attempts left, and an enriched one stays enriched |
| TopicLaws.FromEmpty | src/aca/cognition/vectors.py:17-26 | with the cosine of the program all of this holds of every graph reached from an empty store |
| TopicLaws.EvidenceWithout | src/aca/domain/state.py:54-56 | the evidence total does not depend on the order of counting |
| TopicMeaning.EnrichMeans | src/aca/reducer/apply_proposals.py:51-136 | an enriched memory reinforces the topic among the fifty most recently active that is worded most like it and does not negate it, or becomes a new topic when none is; below the floor it is turned down |
| TopicMeaning.ScanMeans | src/aca/reducer/apply_proposals.py:116-136 | a topic the scan does not see is less recently active than fifty others |
| TopicMeaning.EmbedMeans | src/aca/reducer/handlers/embedding_result.py:26-108 | an embedded topic is merged exactly when another of its model is similar beyond the cut and neither negates the other, and then into a nearest one |
| TopicMeaning.SurvivorMeans | src/aca/reducer/handlers/embedding_result.py:88-107 | the survivor of a merge, field by field |
| TopicMeaning.GraphMeans | src/aca/reducer/apply_proposals.py:150-190 | over any run from an empty store, in terms of the tables: no two embedded topics are the same, and open threads are exactly the topics of pending intents |
| TopicMeaning.ImportanceMeans | src/aca/reducer/apply_proposals.py:60-113 | over any run from an empty store each enriched memory is outweighed by some topic, and each topic weighs what some enriched memory does: merges lose no importance and invent none |
| TopicMeaning.StampRun | src/aca/persistence/memory_store.py:141-156 | over any run each topic is as it was at the start or carries the time of the step that changed it last |
| TopicMeaning.ExcludedFor | src/aca/reducer/support.py:76-92 | a candidate that was voiced and is not in flight is out of selection for exactly the window after it |
| TopicMeaning.ExcludedInFlight | src/aca/reducer/support.py:76-92 | one never voiced is out exactly while an item about it is pending or under delivery |
| TopicMeaning.ExcludedBySource | src/aca/reducer/support.py:94-100 | a topic is out exactly when it is itself or the memory it comes from is |
| TopicMerge.SurvivorSuppressed | src/aca/reducer/support.py:76-100 | when the survivor is excluded from selection after a merge, exactly |
| TopicMerge.ExclusionFollows | src/aca/reducer/handlers/embedding_result.py:88-106 | when the exclusion of the duplicate follows it, exactly |
| TopicRuns.ExclusionLost | src/aca/reducer/handlers/embedding_result.py:103-103 | a run from an empty store, with two memories enriched, one just voiced, in which the merge loses it |
| TopicMerge.LiveNext | src/aca/reducer/handlers/delivery_result.py:61-81 | after a step each in-flight item about a topic names a live one, unless the step is a no_client report that puts back one about a dead topic; and that does break it |
| TopicMerge.ExpressedNext | src/aca/persistence/memory_store.py:271-294 | the same for expression times, broken exactly by a recorded delivery about a dead topic |
| TopicMerge.IntentsNext | src/aca/reducer/apply_proposals.py:150-168 | the same for intents, broken exactly by one opened on a topic that is not there |
| TopicMerge.OrderlyNext | src/aca/reducer/handlers/embedding_result.py:88-107 | all three at once: after a step, a merge included, no record names a dead topic, unless it is one of those three steps |
| TopicMerge.OrderlyRun | src/aca/reducer/handlers/delivery_result.py:20-81 | over any run nothing names a dead topic all along, if and only if no such step occurs |
| TopicMerge.OrderlyFromEmpty | src/aca/persistence/memory_store.py:158-174 | the same for every run from an empty store |
| TopicRuns.DeadTopicRevived | src/aca/reducer/handlers/delivery_result.py:72-75 | a run from an empty store that puts an item in flight about a topic that was merged away |
| TopicRuns.DeadTopicVoiced | src/aca/reducer/handlers/delivery_result.py:32-49 | a run from an empty store that gives such a topic an expression time |
| TopicRuns.DeadTopicIntended | src/aca/reducer/apply_proposals.py:150-190 | a run from an empty store that leaves an intent pending on such a topic, with no thread open |
| TopicTables.Tables.FindSimilarTopic | src/aca/reducer/apply_proposals.py:116-136 | the scan returns a most similar topic of the fifty hottest, the first of equals, or none when nothing qualifies |
| TopicTables.Tables.EnrichMemory | src/aca/reducer/apply_proposals.py:51-113 | the exact new tables: gate, reinforcement or new topic |
| TopicTables.Tables.ClaimEnrichment | src/aca/reducer/handlers/wake.py:163-180 | claims only a RAW memory worth enriching |
| TopicTables.Tables.ReleaseClaim | src/aca/reducer/handlers/llm_result.py:247-270 | counts the attempt and gives the claim back, or ends it at the cap |
| TopicTables.Tables.MarkTopicUnfinished | src/aca/reducer/apply_proposals.py:184-190 | flips the flag of an existing topic only when it differs |
| TopicTables.Tables.CreateIntent | src/aca/reducer/apply_proposals.py:150-168 | the new intent and the flag of its topic |
| TopicTables.Tables.ResolveIntent | src/aca/reducer/apply_proposals.py:171-181 | the resolved intent, and its topic closed when no other pending intent names it |
| TopicTables.Tables.HasPendingIntent | src/aca/persistence/memory_store.py:253-259 | whether a pending intent other than the excluded one names the topic |
| TopicTables.Tables.FindNearest | src/aca/reducer/handlers/embedding_result.py:70-87 | the scan, in any order, returns a nearest duplicate among all topics of the model, or none when there is none |
| TopicTables.Tables.MergeExpression | src/aca/persistence/memory_store.py:271-294 | the later time on the survivor, nothing on the dead topic |
| TopicTables.Tables.DeleteTopic | src/aca/persistence/memory_store.py:158-168 | removes the topic, its embedding and its expression |
| TopicTables.Tables.MergeInto | src/aca/reducer/handlers/embedding_result.py:88-107 | the updates, in the order of the code, amount to the merge |
| TopicTables.Tables.HandleTopicEmbedding | src/aca/reducer/handlers/embedding_result.py:26-56 | stores the vector and merges into a nearest duplicate if there is one |
| Backfill.OneJobRun | src/aca/persistence/work_store.py:83-100 | over any run no topic has two summary jobs in flight, and a live topic without an embedding has one in flight or failed |
| Backfill.Reached | src/aca/reducer/handlers/reconcile.py:26-41 | after a backfill a topic has a job in flight exactly when it had one or was listed |
| Backfill.PassedOver | src/aca/persistence/memory_store.py:176-189 | a backfill passes a topic over when two hundred hotter ones have no embedding, and reaches it when fewer are as hot |
| Backfill.PassedOverRun | src/aca/reducer/handlers/reconcile.py:26-41 | over any run: while two hundred hotter topics stay without an embedding, no backfill lists the topic and it has no job |
| Backfill.StarvedForGood | src/aca/persistence/memory_store.py:176-189 | from an empty store, more than two hundred topics whose jobs all failed: through any further backfills, retries and new topics the coldest never has a job again |
| Backfill.Enqueued | src/aca/reducer/handlers/reconcile.py:31-40 | the rows a backfill adds: one PENDING job for each listed topic that had none |
| Backfill.Jobs.HandleReconcile | src/aca/reducer/handlers/reconcile.py:26-41 | the loop adds exactly those rows and counts them |
| Claims.GuardedNext | src/aca/reducer/handlers/llm_result.py:247-270 | a step keeps claimed memories unclaimable and singly claimed exactly when it does not give back a claim another item under way made |
| Claims.OneClaimExactly | docs/DESIGN.md:1015-1016 | over any run from an empty store each memory has at most one enrichment in flight, and cannot be claimed while it has, all along, if and only if no result gives away such a claim |
| Claims.OneClaimUnlessRepicked | src/aca/reducer/handlers/wake.py:163-180 | it holds over every run in which no wake picks a claimed memory |
| Claims.TwoClaims | src/aca/reducer/handlers/wake.py:77-101 | a run from an empty store with two enrichments of one memory in flight |
| Claims.StrayNext | src/aca/reducer/handlers/llm_result.py:108-136 | a claim is left with nobody to give it back exactly when the last item about the memory is given up or returns something that does not parse, and is taken up exactly by a wake that picks the memory or a result that enriches it |
| Claims.EveryClaimIsTended | src/aca/reducer/handlers/llm_result.py:247-270 | over any run from an empty store a claimed memory has an item about it under way if and only if no step left its claim so since it was last taken up |
| Claims.ClaimStrays | src/aca/reducer/handlers/llm_result.py:108-120 | a run from an empty store that leaves a claim with nobody to give it back |
| Focus.InvRun | src/aca/reducer/handlers/human.py:99-128 | over any run focus and closed subject are never both set, live or in a snapshot, and name existing memories |
| Focus.TurnExact | src/aca/reducer/handlers/human.py:98-128 | what a turn leaves: its own memory if it sets one, nothing after a lull, and both subjects as they were otherwise |
| Focus.SubjectRun | src/aca/reducer/handlers/human.py:98-128 | over any run of human turns a memory is the subject if and only if the last turn that set one set it and no lull came since, and a closed subject stays closed exactly until a turn sets one or follows a lull |
| Focus.OverrideMeaning | src/aca/reducer/handlers/llm_result.py:155-190 | KEEP restores exactly the pair before the turn, REPLACE leaves its memory alone, CLEAR never loses a known closed subject |
| Focus.GuardExact | src/aca/reducer/handlers/llm_result.py:139-152 | a result writes exactly when no later-stamped turn was reduced, or the last one reduced hides it |
| Focus.OrderedStamps | src/aca/reducer/handlers/llm_result.py:139-152 | with stamps that never go back, exactly when no later-stamped turn was reduced |
| Focus.HiddenTurn | src/aca/reducer/handlers/llm_result.py:151-152 | a run in which a stale result overwrites the subject |
| Focus.TimelySame | src/aca/reducer/handlers/llm_result.py:155-190 | over runs with ordered stamps, dropping every overtaken result changes nothing |
| Focus.Conversation.OnHumanTurn | src/aca/reducer/handlers/human.py:159-182 | the provisional write, and the snapshot taken before it |
| Focus.Conversation.ApplyFocusTransition | src/aca/reducer/handlers/llm_result.py:155-190 | the guarded override, and whether it wrote |
| Segmenter.SegmentationUnique | src/aca/voice/segmenter.py:53-139 | a stream has exactly one complete segmentation |
| Segmenter.SlicesInOrder | src/aca/voice/segmenter.py:77-95 | utterances are disjoint slices of the input, in order |
| Segmenter.SegmentShape | src/aca/voice/segmenter.py:112-131 | each holds its whole onset run, a kept one at least the minimum of speech, and its length is bounded |
| Segmenter.SegmentEnds | src/aca/voice/segmenter.py:77-131 | where an utterance starts and ends: at the first run of speech, its pre-roll reaching back as far as it may, up to the first hangover of silence or the length limit; a blip exactly when it holds too little speech |
| Segmenter.Machine.IsTheSegmentation | src/aca/voice/segmenter.py:45-75 | the machine has always produced exactly that segmentation of its input |
| Segmenter.Machine.constructor | src/aca/voice/segmenter.py:53-75 | counts below one are raised to one |
| Segmenter.Machine.Push | src/aca/voice/segmenter.py:77-95 | one frame completes at most the segment that closes at it, and returns its slice unless it is a blip |
| Segmenter.Machine.Flush | src/aca/voice/segmenter.py:97-102 | the tail being recorded is returned, or dropped as a blip; it holds its whole onset run, at least the minimum of speech if kept, no full hangover, and its length is bounded |
| Segmenter.Machine.Reset | src/aca/voice/segmenter.py:104-110 | everything in progress is discarded |
| Segmenter.Machine.BeginUtterance | src/aca/voice/segmenter.py:112-122 | the buffer is seeded with the pre-roll and the onset run |
| Segmenter.Machine.Finish | src/aca/voice/segmenter.py:124-131 | the buffer, or nothing when there was too little speech |
| TurnAssembler.Assembler.Add | src/aca/voice/turn_assembler.py:63-68 | a text joins the buffer stripped, with its duration if positive, unless nothing is left of it; the length of the turn is the sum of its utterances |
| TurnAssembler.Assembler.OnSilence | src/aca/voice/turn_assembler.py:70-76 | commits the whole buffer exactly when the silence has reached the gap of a finished or an unfinished turn, or the utterances together the length cap |
| TurnAssembler.Assembler.Flush | src/aca/voice/turn_assembler.py:78-81 | commits what is buffered at the end |
| TurnAssembler.Assembler.Clear | src/aca/voice/turn_assembler.py:83-90 | drops what is buffered and commits nothing |
| TurnAssembler.Assembler.Commit | src/aca/voice/turn_assembler.py:92-97 | each text added is, in order, in exactly one committed turn or dropped batch, or still buffered, and no turn was committed on silence before it was due |
| TurnAssembler.SpeechController.Submit | src/aca/tts/controller.py:57-64 | an accepted utterance is queued and counted at once |
| TurnAssembler.SpeechController.Interrupt | src/aca/tts/controller.py:66-82 | the backlog goes and the count stays exact |
| TurnAssembler.SpeechController.Speaking | src/aca/tts/controller.py:41-50 | the floor is held exactly while something is queued or being spoken |
| TurnAssembler.SpeechController.TakeNext | src/aca/tts/controller.py:101-107 | the oldest utterance is taken, or dropped and uncounted once speech has failed |
| TurnAssembler.SpeechController.Finish | src/aca/tts/controller.py:108-114 | each taken utterance is uncounted once, however it ends |
| VoiceSession.MuteExact | src/aca/voice/session.py:79-90 | a frame is dropped exactly when the floor is held or less than the guard of audio has passed by its end |
| VoiceSession.StartsInsideGuard | src/aca/voice/session.py:82-84 | a frame that starts inside the guard and is processed |
| VoiceSession.SilenceMeans | src/aca/voice/session.py:91-95 | the measured silence is the length of the uninterrupted run of processed non-speech that ends at the frame: from the start of the stream, or after the last speech or muted frame |
| VoiceSession.SilenceExact | src/aca/voice/session.py:91-100 | it has reached a gap exactly when processed non-speech without a break lasted that long |
| VoiceSession.Session.Gate | src/aca/voice/session.py:79-84 | the counter of the code decides exactly that |
| VoiceSession.Session.Drop | src/aca/voice/session.py:84-90 | a dropped frame discards all that was recorded or buffered |
| VoiceSession.Session.Hear | src/aca/voice/session.py:91-95 | a processed frame lengthens the silence or, when it is speech, ends it, and emits at most the utterance it completes |
| VoiceSession.Session.Yield | src/aca/voice/session.py:96-99 | the buffered turn is committed exactly when processed non-speech has lasted its gap without a break, or its utterances reach the length cap |
| VoiceSession.Session.Finish | src/aca/voice/session.py:100-104 | at the end of the stream nothing is left buffered |
| VoiceSession.Session.Run | src/aca/voice/session.py:68-108 | over any stream no muted frame lies inside or between the utterances of a committed turn; each turn committed before the end had waited its gap of unbroken quiet or reached the cap; and on a normal end every text is in exactly one turn or dropped batch |
| Windowed.WindowAt | src/aca/voice/silero.py:41-47 | the windows are the consecutive full windows of the stream |
| Windowed.LessThanAWindow | src/aca/voice/silero.py:44-47 | less than a window is left over |
| Windowed.AnyChunks | src/aca/voice/silero.py:26-50 | however the bytes are cut into pushes, the windows scored and the bytes held are those of the whole stream |
| Windowed.Splitting | src/aca/voice/silero.py:26-31 | cutting a stream in two changes neither its windows nor what is left |
| Windowed.VerdictMeans | src/aca/voice/silero.py:47-50 | the verdict is speech exactly when the scores add up to the threshold for each window; so it is when every window scores at least that, and not when every one scores less |
| Windowed.SumSplits | src/aca/voice/silero.py:47-50 | scores add up over any splitting of the windows |
| Windowed.Detector.Push | src/aca/voice/silero.py:41-50 | the windows scored since the reset are those of all bytes pushed, and the verdict is their average or the held one |
| Windowed.Detector.Reset | src/aca/voice/silero.py:52-54 | a reset forgets the bytes and the verdict |
| Relevance.RankingExact | src/aca/cognition/relevance.py:88-107 | the ranking is strictly ordered and holds exactly the pool items that share a distinctive stem |
| Relevance.RankingPermuted | src/aca/cognition/relevance.py:88-107 | every permutation of the pool ranks the same |
| Relevance.RankingMeans | src/aca/cognition/relevance.py:60-107 | the ranking, without its own functions: exactly the items not excluded that share a stem of the query which occurs in fewer than half of them, or among fewer than four; those that share more first, then the more recent, then the smaller id |
| Relevance.LimitLosesNothing | src/aca/cognition/relevance.py:122-123 | ranking only slots + budget items gives the same extra items as ranking all |
| Relevance.BundleExact | src/aca/cognition/relevance.py:110-127 | a recency prefix followed by the best unseen items of the whole pool, within budget, nothing twice |
| Relevance.BundleMeans | src/aca/cognition/relevance.py:110-127 | the bundle for all inputs: so many most recent items, then the best ranked ones not already shown, none left out for a worse one or while there is room; with no query or no slots it is the most recent items alone |
| Relevance.FitsExactly | src/aca/cognition/relevance.py:123-127 | it fits for every input if and only if there are no more slots than budget |

## Left out

- SQL, JSON, schema migration and the text form of time: tables are maps, a transaction is one atomic step, a time is an integer.
- Lifecycle events, identity timestamps and the heartbeat: a wake is reduced only while the service runs, so the lifecycle part of the stale-wake check never decides.
- Gates other than budgets (quiet hours, cooldown, mode), candidate selection and classification: arbitrary booleans of the step that consults them.
- The text of prompts, decisions and memories, the word lists and the stemmer: uninterpreted values; a text's polarity is a predicate, an item's stems a set.
- Delivery results inside the agent's queue: they run in `Pump` over the rows of `Outbox`, so a crash of the agent and a send under way meet only as a restart of the pump, which starts with nothing in flight and no burst clock.
- Replayed events wait at the head of the model's queue, while the program holds them in the recovery plan; messages accepted meanwhile queue behind them in both.
- Several runs of one task at once: a task's retries are steps of `Agent`, and `RunTask` is the loop with nothing in between.
- In `Claims` the proposals of a result are steps of their own, just before the step that gives back its claim; the program commits them together.
- Embedding jobs inside the agent's tables carry no topic; their topics are the subject of `Backfill`.
- Cosines are compared by their signed squares over exact reals; rounding, overflow and the affinity of the discourse gate, with its bridge and continue cuts, are not modelled.
- Metrics, trace notes, clustering of utterances and mood: observational.
- The legacy voice mode without an assembler and playback itself; what counts as white space of a transcript is a function of the assembler.
- The Unix socket, the command line, configuration parsing and the single-instance lock.
- Relevance.BundleExact: is stated for slots within budget and distinct ids; `Relevance.BundleMeans` says what the bundle is for every number of slots, and `Relevance.FitsExactly` when it fits.
- AgentService.Service.OnWake: does not model quiet hours, cooldown, mode and candidate selection, which are one arbitrary boolean of the wake; the budgets and the guard of the cycle are exact.
- AgentService.Service.FinishProactiveReply: does not model the revalidation and the gates other than the hourly budget, which are one arbitrary boolean of the result.
- AgentService.Service.Recover: does not model the classification of downtime; stale proactive items are expired by `Outbox.Tables.ExpireStaleProactive` over the rows of `Outbox`.
- AgentOutlook.SettledNext: is stated for one step and in one direction; the exact statements over runs are `AgentSettled.FailedRun` and `AgentReopen.FailedForGood`.
- Focus.OrderedStamps: holds for ordered stamps only; the exact statement for all stamps is `Focus.GuardExact`.
