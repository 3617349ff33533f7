# Message delivery, verified

A Dafny model of the OpenComms coordinator and of what its delivery promises rest on. Agents that
sit in different host programs exchange messages over channels; one persisted state file holds the
channels, the envelopes, one first-in-first-out queue for each recipient, the delivery receipts and a
chess-clock timer for each channel. Three delivery paths run over that state (a spawned or in-process
push, the coordinator's own managed loop, and the recipient's pull), each a few short locked
sections with an unlocked host call between them.

The project proves, over every run of all operations with any number of deliverers interleaving and
dying at any point:

* queues are exact, nothing is lost, and delivered means accepted (`lossless.dfy`);
* a managed prompt whose outcome is not an explicit failure is never repeated (`noreplay.dfy`);
* one-channel recipients are served in send order, one batch at a time (`fifo.dfy`), with a run for
  each of the two conditions that breaks the order without it (`runs.dfy`), and exactly when a drain of
  mixed mail keeps a channel's order (`overtaking.dfy`);
* what a drain does with every queued envelope (`drainlaw.dfy`), when mail is due (`due.dfy`) and how far
  apart batches are (`spacing.dfy`);
* when a send is accepted and what it posts (`sendlaw.dfy`), and where every envelope comes from
  (`origins.dfy`);
* rosters, removals and their notices (`rosters.dfy`, `memberlaw.dfy`), and who holds the chess clock
  (`holder.dfy`);
* draining and giving back are inverse (`roundtrip.dfy`);
* message budgets, the retry cap and the end of retries (`attempts.dfy`);
* the rate window and the duplicate cache (`rates.dfy`), reply lineage (`lineage.dfy`), the chess clock
  (`clock.dfy`).

Beside the engine stand the line framing of the coordinator's bridge and of its desktop peer
(`frames.dfy`), the state lock (`lock.dfy`), the journals that make agent creation and task dispatch
happen at most once (`journal.dfy`), and the command-line budget of spawned deliveries (`argv.dfy`).

## How it is built

The laws of single operations (`drainlaw.dfy`, `sendlaw.dfy`, `memberlaw.dfy`, `rosters.dfy`, `holder.dfy`)
are in terms of rosters, positions, times and texts, and use none of the functions that decide the
operation.

The engine updates one state object in place. `live.dfy` is that object: a class whose methods follow
the engine's loops and are each proved equal to an operation on values. `engine.dfy` and `channels.dfy`
define those operations, and `system.dfy` makes a state machine of them in which every locked section
is one step. All run theorems are about the operations on values, and every operation of the state
machine has its method in the class.

`deliver.dfy` composes the class's methods into the two host deliverers. Whatever happens while they do
not hold the lock (other deliverers, the host at work, a lock that is not obtained) may change the state
in any way; the methods that stand for it record the state they leave, the state they find, the call and
its answer, and no other method does. The deliverers' contracts are about that record. `conduct.dfy` says
how a batch may end by it, and that every such ending, with whatever legal events of others in between,
is a run of the state machine.

`State.log` is every envelope ever sent and `live` the ids that `messages` still holds. In `live.dfy`
only the ghost field `history` remembers deleted envelopes, so no operation reads them.

Decisions taken from the code:

* A refused operation changes nothing that persists: callers save only on success
  (src/mcp/main.ts:47-54, src/plugin.ts:120-131). `EnqueueMessage` still shows what a late refusal does to
  the loaded object.
* Ids are minted in order, which is also the order `Object.keys` lists them in; the sorts are stable.
  A run's clock never goes back, and one operation reads it once.
* Letter case is compared for ASCII. A drained envelope that a prune has already removed, which no run
  has, is not framed.
* A departing member's whole queue is rejected, whatever its channels (src/core/engine.ts:703-708). A
  sweep ignores the retry cap, a give-back also takes back delivered envelopes, and pruning ignores
  status; the bounds are stated accordingly.
* Content stands for its own hash. A correlation is named by the first envelope of its logical send.
* Channel names are resolved by the caller; a channel is known by its id, and ids are never reused.
  Target keys are trimmed and not empty. Texts are UTF-16 units.
* A task's pending message is withdrawn from its recipient's queue, which is the queue the handoff record
  names (src/orchestrator/tasks.ts:298-299).
* A drain that changes nothing is saved too; that only leaves an empty queue entry behind.

Where the code and its own words differ, the code is followed:

* The lock's comment says that concurrent breakers of an abandoned lock serialize
  (src/core/store.ts:315-316). They do not: age check and removal are two steps, so the second breaker can
  remove the first one's new lock. `StateLock.TwoBreakersOverlap` is the run, and
  `StateLock.SafeIffWithinTheStaleLimit` and `StateLock.SafeIffSectionsAreShort` say exactly when the lock
  does exclude.
* Per-recipient queues are called first-in-first-out. The cooldown is checked only while nothing is
  drained (src/core/engine.ts:1250-1254), so a cooling channel's first message can stay behind while its
  second goes out: `Runs.CoolingChannelIsOvertaken`. The exact condition is
  `Overtaking.ChannelOrderKeptIffNotOvertaken`.
* Two overlapping deliveries to one recipient, a push and another host's push or pull, can deliver a younger
  message while an older one goes back to its queue: `Runs.OverlappingBatchesBreakOrder`.
* On Windows the first size estimate of a spawned batch is too low by five for every seam
  (src/hosts/spawn-delivery.ts:342-343); the exact check behind it is what keeps the budget.

## Model

| member | source | states |
|---|---|---|
| LiveState.StateObject.Offer | src/core/engine.ts:1216-1278 | the checks on one queued id, in the engine's order, decide what the specification decides and change the record accordingly |
| LiveState.StateObject.TakeQueued | src/core/engine.ts:1212-1281 | the loop with its list of remaining ids gives the drained batch, queue and record of the specification |
| LiveState.StateObject.DrainQueue | src/core/engine.ts:1207-1285 | a drain, with its final prune |
| LiveState.StateObject.PruneMessages | src/core/engine.ts:334-347 | all but the newest 2000 envelopes go, with their receipts and queue references |
| LiveState.StateObject.CommitDelivery | src/core/engine.ts:1138-1152 | exactly the batch's envelopes in flight to the session become delivered |
| LiveState.StateObject.Pull | src/mcp/opencomms-tools.ts:523-561 | a pull drains and commits in one locked step |
| LiveState.StateObject.RequeueFailedDelivery | src/core/engine.ts:1106-1126 | releasing all and then unshifting all is one release and unshift at a time |
| LiveState.ReturnAllForm | src/core/engine.ts:1108-1124 | the two loops of a give-back against the one of the specification: same record, same queue |
| LiveState.StateObject.GroupStranded | src/core/engine.ts:1170-1177 | everything stranded is pending again and grouped by recipient in message order |
| LiveState.StateObject.SweepInFlight | src/core/engine.ts:1166-1192 | every recovered envelope is back in front of its queue, oldest first, no other queue changes, and the list returned goes recipient by recipient as they were met |
| LiveState.SweepReportsExactly | src/core/engine.ts:1179-1191 | that list is exactly what was recovered, each id once |
| LiveState.PushFrontForm | src/core/engine.ts:1182-1187 | unshifting missing ids from the last to the first puts them all in front in their order |
| LiveState.StateObject.EnqueueMessage | src/core/engine.ts:909-1062 | accepts and refuses as specified; a send refused for its rate leaves only its channel's window counted, one refused as repeated or too deep also the content cache swept, and every other refusal leaves everything |
| LiveState.StateObject.CountSend | src/core/engine.ts:955-1002 | rate, repeated content and hops are checked and counted in this order; no other channel changes |
| LiveState.StateObject.SendMessage | src/mcp/main.ts:47-54 | with refused changes discarded a refused send leaves the state as it was |
| LiveState.StateObject.RemoveMember | src/core/engine.ts:700-717 | the member leaves, the whole queue is rejected and dropped, a clock it holds stops |
| LiveState.StateObject.DisconnectMember | src/core/engine.ts:719-738 | a member leaves on request; the last one takes the channel along |
| LiveState.StateObject.KickMember | src/core/engine.ts:745-892 | removal, one notice for each remaining member, prune; refused kicks change nothing |
| LiveState.StateObject.CommitSessionSave | src/core/engine.ts:1329-1348 | the channel, its envelopes, receipts and queue references go, nothing else |
| LiveState.StateObject.MarkMemberStale | src/core/engine.ts:1748-1761 | stale on every channel, and off every clock |
| LiveState.StateObject.ActOnTimer | src/core/engine.ts:1650-1746 | start, stop, switch, reset and limits; refused exactly for strangers, targets that name nobody or somebody stale, and limits that are not positive |
| LiveState.StateObject.ClearMemberStale | src/core/engine.ts:1763-1771 | no longer stale on any channel |
| LiveState.StateObject.CreateChannel | src/core/engine.ts:387-443 | a fresh channel with clamped limits and at most its founder |
| LiveState.StateObject.JoinChannel | src/core/engine.ts:584-634 | a newcomer joins exactly while there is room and the role is free |
| LiveState.StateObject.SetSessionPaused | src/core/engine.ts:680-693 | paused or resumed, nothing else |
| LiveState.StateObject.WithdrawMessage | src/orchestrator/api.ts:1575-1581 | a pending message of a task handed on is rejected and out of its queue |
| Deliverers.SpawnDeliverer.PassesEstimate | src/hosts/spawn-delivery.ts:326-346 | the early guard refuses only mail that the exact check would refuse |
| Deliverers.SpawnDeliverer.Conclude | src/hosts/spawn-delivery.ts:431-490 | committed exactly after an accepted turn; given back after a refused one, or when the commit failed; left alone when neither could be recorded |
| Deliverers.SpawnDeliverer.Deliver | src/hosts/spawn-delivery.ts:295-494 | one delivery of a process for a member at a time; too long a batch leaves the state alone; otherwise the state found under the lock is drained, the host is called with the framed envelopes of just that batch, in order, which fit the command line, and the batch ends as its answer says |
| Deliverers.ManagedDelivery.DrainIdle | src/orchestrator/managed-delivery.ts:76-103 | nothing is drained while anything is in flight to the endpoint |
| Deliverers.ManagedDelivery.Conclude | src/orchestrator/managed-delivery.ts:123-144 | committed exactly when accepted, given back exactly after an explicit failure, left in flight when uncertain |
| Deliverers.ManagedDelivery.TickAgent | src/orchestrator/managed-delivery.ts:31-146 | only an idle host is drained for and prompted, once, with just the framed envelopes of the batch in order, a blank line between; a batch goes back only uncalled or after an explicit failure, an uncertain one stays in flight |
| Deliverers.ManagedDelivery.Tick | src/orchestrator/managed-delivery.ts:22-151 | overlapping or stopped ticks do nothing; otherwise the agents have their turns in order until one had mail, and there is at most one prompt |
| Deliverers.AtMostOnePrompt | src/orchestrator/managed-delivery.ts:27-147 | the one prompt of a tick goes to the agent whose turn was last |
| Conduct.CalledIsARun | src/hosts/spawn-delivery.ts:364-490 | a delivery with a call is a run of the system: started, called, answered and ended as its outcome says, around any legal events of others |
| Conduct.UncalledIsARun | src/orchestrator/managed-delivery.ts:105-116 | so is one without: started and given back, or its deliverer gone |
| Retention.SortIsByTime | src/core/engine.ts:337 | the sort is a permutation and by time |
| Queues.PendingMeansQueuedOnce | src/core/engine.ts:1004-1030 | pending exactly when queued, once, at the recipient and nowhere else |
| Queues.DrainKeeps | src/core/engine.ts:1207-1285 | a drain keeps that invariant and every envelope's fixed fields |
| Queues.CommitKeeps | src/core/engine.ts:1138-1152 | so does a commit |
| Queues.RequeueKeeps | src/core/engine.ts:1106-1126 | so does a give-back of a batch of the session |
| Queues.SweepKeeps | src/core/engine.ts:1166-1192 | so does a sweep |
| Queues.PruneKeeps | src/core/engine.ts:334-347 | so does a prune, whatever the statuses |
| Queues.PurgeKeeps | src/core/engine.ts:1329-1348 | so does a purge |
| Queues.SendKeeps | src/core/engine.ts:909-1062 | so does a send |
| Queues.KickKeeps | src/core/engine.ts:789-892 | so does a kick |
| Queues.DisconnectKeeps | src/core/engine.ts:719-738 | so does a departure |
| Queues.WithdrawKeeps | src/orchestrator/api.ts:1575-1581 | so does the withdrawal of a task's message |
| Effects.DrainEffects | src/core/engine.ts:1268-1278 | each drained envelope was pending, is in flight and has one more attempt; the others at most lapse |
| Effects.CommitEffects | src/core/engine.ts:1144-1151 | a commit rewrites exactly the in-flight envelopes of the batch |
| Effects.RequeueEffects | src/core/engine.ts:1108-1125 | a give-back rewrites exactly the batch's live envelopes and one queue |
| Effects.PostAllForm | src/core/engine.ts:1004-1030 | posting makes exactly the new ids live and puts each last in its recipient's queue |
| Effects.RemovedHaveNoPendingMail | src/core/engine.ts:703-708 | a removed member's pending mail is rejected, all of it |
| Retained.PruneKeepsNewest | src/core/engine.ts:334-347 | pruning keeps exactly the newest 2000 and every queue's order |
| Retained.PruneBounds | src/core/engine.ts:334-347 | at most 2000 envelopes after a prune |
| Retained.ArchiveHoldsWhatPurgeRemoves | src/core/archive.ts:82-100 | a saved session's archive, by time, is exactly what the purge removes |
| Retained.ArchiveKeepsNewest | src/core/archive.ts:82-100 | whatever a channel holds, its archive is its newest 2000 in order |
| Retained.PurgeSparesOthers | src/core/engine.ts:1329-1348 | other channels' records, envelopes and queue order are untouched |
| Safety.StepKeepsBase | src/core/engine.ts:1106-1348 | every step of the system keeps the invariant of queues, time order, retention and batches |
| Lossless.QueuesExactInEveryRun | src/core/engine.ts:700-717 | in every reachable state queues are exact and without repeats, receipts name live envelopes and their recipient, at most 2000 envelopes are kept |
| Lossless.DeliveredWasAccepted | src/hosts/spawn-delivery.ts:433-452 | a delivered envelope was in a batch that a host accepted |
| Lossless.RecordIsStable | src/core/engine.ts:1106-1285 | failed, rejected and stale are final and only delivery fields ever change |
| Lossless.NothingIsLost | src/core/engine.ts:334-347 | an envelope disappears only by a purge of its own channel or behind 2000 younger ones |
| Lossless.SavingKeepsEverything | src/core/engine.ts:1292-1348 | in every reachable state, what a save archives is what it removes |
| Lossless.EveryEnvelopeAccountedFor | src/hosts/spawn-delivery.ts:364-402 | queued, or held by an unfinished batch, or accepted, or closed and in no queue |
| NoReplay.ManagedNeverReplays | src/orchestrator/managed-delivery.ts:111-144 | of all batches that held an envelope at most one was not given back, and those were uncalled or refused |
| NoReplay.ManagedInFlightIsOneBatch | src/orchestrator/managed-delivery.ts:81-87 | all in-flight mail of an endpoint belongs to one batch |
| RoundTrip.DrainThenRequeue | src/core/engine.ts:1106-1129 | drained and left make up what lasts of the queue, and giving back restores it less the fifth attempts |
| RoundTrip.ReturnAllQueue | src/core/engine.ts:1120-1125 | a given-back batch is in front again, in order, less the dead letters |
| Fifo.DeliveredInSendOrder | src/core/engine.ts:1207-1285 | through failures, prunes, crashes and sweeps at any time, committed, in flight and queued mail of a one-channel recipient served one batch at a time is in send order without repeats |
| Runs.OverlappingBatchesBreakOrder | src/hosts/spawn-delivery.ts:466-490 | a run on one channel in which two pushes overlap and the younger message is delivered before the older |
| Overtaking.ChannelOrderKeptIffNotOvertaken | src/core/engine.ts:1214-1280 | a drain of mixed mail keeps a channel's order exactly when no cooling channel has mail on both sides of the first id taken |
| Runs.CoolingChannelIsOvertaken | src/core/engine.ts:1250-1254 | a run, one batch at a time, whose last pull hands over a channel's second message and leaves its first |
| DrainLaw.ExpiredIff | src/core/engine.ts:1232-1243 | mail is too old exactly when older than its recipient's own window, else than the channel's, also for somebody who left; under policy never at no age |
| DrainLaw.DrainsExactly | src/core/engine.ts:1214-1284 | of the queued ids those of vanished channels are rejected, those of open channels that are too old are stale, those handed over were in time, admitted, within the runtime and are receipted, and the rest stay; what nothing holds back is handed over unless the message budget is spent; the first one's channel was not cooling |
| DrainLaw.ManagedDrainsPullers | src/orchestrator/managed-delivery.ts:89-97 | the coordinator's drain hands over only mail of channels on which the endpoint is an API member that pulls |
| DrainLaw.SweepsExactly | src/hosts/opencode/delivery.ts:270-284 | the sweep at a start takes back everything in flight except to such endpoints |
| DrainLaw.SweepsInFront | src/core/engine.ts:1179-1189 | what it takes back for a recipient stands in front of the queue, oldest first |
| DrainLaw.GivesBackExactly | src/core/engine.ts:1108-1119 | a give-back makes what its batch has out pending, or failed after five attempts, and changes nothing else |
| DrainLaw.ConfirmsExactly | src/core/engine.ts:1138-1152 | a confirmation records delivery, its time and its way for what the batch has in flight, and nothing else |
| DrainLaw.PullsExactly | src/mcp/opencomms-tools.ts:523-561 | what a pull drains is delivered at once, by pull, after one more attempt |
| Due.DrainedWasDue | src/core/engine.ts:1218-1268 | nothing is handed over from a paused channel, expired, past its gate or past its channel's runtime |
| Due.DrainsArePaced | src/core/engine.ts:1250-1275 | on one channel, a batch is drained only after the last cooldown and starts the next one |
| Spacing.CooldownSpacesBatches | src/core/engine.ts:1250-1275 | in every run two batches for a recipient on one channel are drained at least the cooldown apart, whatever happens in between |
| Attempts.DrainFromCounts | src/core/engine.ts:1261-1280 | within one drain no channel overruns its budget and every drained id is one handover |
| Attempts.BudgetHoldsInEveryRun | src/core/engine.ts:370-380 | a channel's delivered total is the number of handovers ever made on it and within its budget |
| Attempts.AttemptsAreCapped | src/core/engine.ts:1106-1129 | at most five attempts, plus one for each sweep; pending ones have fewer |
| Attempts.DrainsUseUpTheAllowance | src/core/engine.ts:1270-1273 | each handover uses up one unit of an allowance that is never negative |
| Attempts.HandoversEnd | src/core/engine.ts:1113-1117 | a run makes at most five handovers for each envelope, plus the sweeps |
| SendLaw.AcceptedIff | src/core/engine.ts:911-1001 | a send is accepted exactly when the channel is open, the sender is a member or the operator with one target, runtime, messages, words, type, addressee, rate, repetition and hops are all in order |
| SendLaw.RefusalsAreJustified | src/core/engine.ts:911-1001 | the reason given for a refusal is so |
| SendLaw.ResolveExactly | src/core/engine.ts:271-326 | the recipients are every live other member, or the one the key means, or the only other one, each once and in roster order |
| SendLaw.SendPosts | src/core/engine.ts:1004-1030 | one letter for each addressee, in roster order, with the draft's and its thread's fields, last in its recipient's queue, and nothing else |
| SendLaw.LowerIff | src/core/engine.ts:283-289 | names are compared letter by letter, case aside |
| Origins.EveryEnvelopeHasItsOrigin | src/core/engine.ts:754-1030 | in every run every envelope is a letter of a send that was in order at its moment, to one of its addressees, or the notice of a permitted removal to somebody who stayed |
| Rosters.RostersInEveryRun | src/core/engine.ts:584-634 | in every run members differ in session and role and are at most as many as the limit, which is 2 to 32 |
| Rosters.CreatesExactly | src/core/engine.ts:387-443 | a new channel has its founder at most, clamped limits, defaults where nothing is asked, and nothing counted |
| Rosters.JoinsExactly | src/core/engine.ts:584-634 | a newcomer with a free role joins, last, exactly while there is room |
| MemberLaw.KickTellsEverybody | src/core/engine.ts:745-892 | whoever an accepted removal means is off the roster and without a queue, and everybody who stays has one system notice from its author, last in the queue |
| MemberLaw.KickRefused | src/core/engine.ts:789-877 | a removal that means nobody, or whose caller may not make it, changes nothing |
| MemberLaw.DepartureIsExact | src/core/engine.ts:700-738 | who leaves is off the roster with the whole queue, the last one takes the channel along, and nobody else is touched |
| MemberLaw.PausesExactly | src/core/engine.ts:653-693 | pausing and resuming set one flag |
| MemberLaw.WithdrawsExactly | src/orchestrator/api.ts:1575-1581 | a withdrawn pending message is rejected and in no queue; others stay |
| MemberLaw.MarksAreExact | src/core/engine.ts:1748-1771 | stale marks are set and cleared for that session alone, on every channel |
| Rates.AtMostTwiceTheLimit | src/core/engine.ts:955-962 | one window admits the limit, any minute at most twice that |
| Rates.RateBoundInEveryRun | src/core/engine.ts:955-962 | so in every run on every channel, and windows open more than a minute apart |
| Rates.DuplicateIffRecentlySent | src/core/engine.ts:964-975 | the swept cache refuses exactly what the full history of accepted sends would |
| Lineage.ChainsEndAtTheirRoot | src/core/engine.ts:977-994 | a chain has one envelope for each hop and one more, one correlation, older at each link, and ends at the root all name |
| Lineage.ThreadsInEveryRun | src/core/engine.ts:433 | so in every run; no root exactly at hop zero; no chain over 51 envelopes |
| ClockRuns.TimerTotal | src/core/engine.ts:216-220 | the loop over the snapshot is the sum |
| ClockRuns.TimePasses | src/core/engine.ts:195-202 | only the running member's time grows, by the time passed, and the total with it |
| ClockRuns.ConservedTotal | src/core/engine.ts:204-220 | when no member's time changes the total does not |
| ClockRuns.LimitStaysReached | src/core/engine.ts:231-237 | a reached limit stays reached as time passes and through every change but a reset or a new limit |
| ClockRuns.ActCarries | src/core/engine.ts:712-716 | every operation except a reset leaves every member's time at that instant alone |
| Roster.RecipientsAreLiveMembers | src/core/engine.ts:271-326 | mail and the clock go only to live members other than the sender |
| Roster.RecipientsExactly | src/core/engine.ts:271-326 | a broadcast reaches all of those; a direct target is the first other member with that session, or else that role, and there is none exactly when nobody matches or the match is stale; no target needs a channel of two |
| Roster.KickNeedsCoordinator | src/core/engine.ts:825-877 | only the first member kicks, a member, and never itself |
| ClockRuns.ClockShowsTheTimeItRan | src/core/engine.ts:1044-1046 | in every run each member's time and the total are what a stopwatch since the last reset shows, and only a member holds the clock |
| ClockHolder.ActHolder | src/core/engine.ts:1650-1761 | who holds the clock after an operation: the primary recipient of an accepted send, who starts an idle clock, whom a switch means, nobody after a stop, a reset or the holder's departure, removal or stale mark, else as before |
| ClockHolder.ClockFollowsItsEvents | src/core/engine.ts:1040-1046 | in every run each member's time and the total are those of a stopwatch driven by these events alone |
| ClockHolder.LimitFollows | src/core/engine.ts:1717-1741 | the limit is what a member set last, for the member it named, or none |
| Framing.FramesExactly | src/orchestrator/bridge.ts:371-408 | each ended line is a frame without its carriage return, or oversized; what is left over is partial or oversized |
| Framing.SegmentsJoin | src/orchestrator/bridge.ts:388-403 | the segments join back to the text and hold no newline |
| Framing.SplitIsUnique | src/orchestrator/bridge.ts:388-403 | no other list of segments does |
| Framing.LineBuffer.Write | src/orchestrator/bridge.ts:385-404 | a chunk yields the frames its newlines end; the buffer never exceeds the limit |
| Framing.LineBuffer.End | src/orchestrator/bridge.ts:405-407 | what is left is oversized, partial or nothing |
| Framing.BoundedLines | src/orchestrator/bridge.ts:381-408 | however the text is cut, the frames are those of splitting all of it |
| Framing.AnsweredInOrder | src/orchestrator/bridge.ts:440-470 | what is executed are the commands of the replies that are answers, in their order |
| Framing.LiveFollowsFirstAck | src/orchestrator/bridge.ts:440-457 | only what follows the first acknowledgement counts |
| Framing.RunBridge | src/orchestrator/bridge.ts:410-474 | nothing runs before it; then one reply for each frame, in order, and exactly the well-formed requests run |
| NativeFraming.FirstLineEndsAtNewline | desktop/src-tauri/src/bridge_io.rs:45-46 | the line a read looks for ends at the first newline |
| NativeFraming.Utf8Iff | desktop/src-tauri/src/bridge_io.rs:50-56 | text is UTF-8 exactly when it is the encoding of some characters, surrogates excluded |
| NativeFraming.LineResultExactly | desktop/src-tauri/src/bridge_io.rs:38-56 | where the first newline is decides between a line, one too large and a closed stream |
| NativeFraming.ReadLineBounded | desktop/src-tauri/src/bridge_io.rs:38-56 | the first line is accepted exactly when it fits with its newline and is UTF-8, whatever the refills; the rest stays unread |
| NativeFraming.ReadResponses | desktop/src-tauri/src/bridge_io.rs:58-73 | successive lines until the first failure, each as if read alone |
| StateLock.StepKeeps | src/core/store.ts:301-349 | one process inside, owning the lock, with the state it loaded |
| StateLock.SafeIffWithinTheStaleLimit | src/core/store.ts:301-349 | exclusion and no lost update for all runs exactly when no lock file gets older than the limit |
| StateLock.SafeIffSectionsAreShort | src/core/store.ts:301-349 | so for all runs without crashes exactly when no section takes longer than the limit |
| StateLock.OverrunLosesAnUpdate | src/core/store.ts:311-318 | a section over the limit loses an update |
| StateLock.TwoBreakersOverlap | src/core/store.ts:311-323 | so do two breakers of a dead holder's lock, however short their sections |
| AgentJournal.ReservedIff | src/orchestrator/api.ts:506-560 | an agent is reserved exactly when its operation and name are new, there is room and it is no second lead |
| AgentJournal.OneCallPerOperationAndName | src/orchestrator/api.ts:506-591 | every host session asked for has a record; no two under one operation or name; at most 64 |
| AgentJournal.RepeatingReservesNothing | src/orchestrator/api.ts:508-520 | a repeated operation returns the session if there is one, else reports it unfinished, is refused for other inputs, and reserves nothing, in every later state |
| TaskJournal.ViewKeeps | src/orchestrator/tasks.ts:248-297 | task views keep every operation's request id and fingerprint |
| TaskJournal.ActedOnIff | src/orchestrator/api.ts:1224-1290 | a request is acted on exactly when it is new, within the caps, its checks pass and, for a handoff, none is unsettled |
| TaskJournal.OneMessagePerRequest | src/orchestrator/api.ts:1232-1345 | every task message has a journal record; none has two; no two share a request id |
| TaskJournal.AnswersAreFinal | src/orchestrator/api.ts:1319-1345 | refused operations never have a message, confirmed ones always do |
| TaskJournal.RepeatingSendsNothing | src/orchestrator/api.ts:1230-1249 | a journaled request is never acted on again |
| Argv.JoinedCost | src/hosts/spawn-delivery.ts:290-293 | the exact cost of a joined batch on either platform |
| Argv.BytesByUnit | src/hosts/spawn-delivery.ts:290-293 | the bytes of a text are those of its units in their places, halves of surrogate pairs two each |
| Argv.DrainSpells | src/hosts/spawn-delivery.ts:387-397 | the text made of a drained batch is its framed envelopes, in the order drained, at increasing offsets with just the separator between |
| Argv.SubsetCostsLess | src/hosts/spawn-delivery.ts:369-389 | leaving messages out never costs more |
| Argv.SpawnedBatchFits | src/hosts/spawn-delivery.ts:364-402 | every spawned batch fits the platform's budget, in every reachable state |
| Argv.Estimate | src/hosts/spawn-delivery.ts:328-344 | what the early estimate sums up and when it passes |
| Argv.EstimateAgainstExact | src/hosts/spawn-delivery.ts:342-343 | exact on Posix, five a seam too low on Windows |
| Template.ParseCommandTemplate | src/hosts/spawn-delivery.ts:83-108 | the character loop splits as specified |
| Template.RefusedIffOddQuotes | src/hosts/spawn-delivery.ts:105 | refused exactly when quotes do not pair up |
| Template.PlainWordsSplit | src/hosts/spawn-delivery.ts:83-108 | unquoted words split at white space, however much of it |
| Template.QuotingRoundTrips | src/hosts/spawn-delivery.ts:78-108 | quoted tokens parse back, spaces and empty ones included |

## Left out

- Fifo.DeliveredInSendOrder: for a recipient whose mail is from one channel and with one outstanding batch at a time; the two runs of `Runs` show that neither condition can be dropped.
- NoReplay.ManagedNeverReplays: for endpoints that only the coordinator's loop and their own pulls serve, and that are still managed whenever a process start sweeps; a sweep re-delivers any other in-flight mail on purpose.
- Attempts.AttemptsAreCapped: the bound grows with the sweeps, because a sweep ignores the cap.
- Deliverers.SpawnDeliverer.Deliver: a host call that throws is a refusal; a delivery that does not obtain the lock of its drain does nothing and is left out.
- Deliverers.ManagedDelivery.Tick: which agents are local and not stopped, and the status records written for them, are the caller's list and an observation.
- StateLock.SafeIffWithinTheStaleLimit: releases succeed; an unremoved lock file is a holder that never releases.
- AgentJournal.OneCallPerOperationAndName: replacing a lost host session on an explicit restart is another call, made for a recorded agent.
- TaskJournal.OneMessagePerRequest: the queues behind the messages; the withdrawal that goes with a reassignment is an operation of the engine's state machine instead.
- Framing.BoundedLines: decoding bytes to text; `tail` is what the decoder gives at the end, which holds no newline.
- Joining by project id, role history, session resumption, message descriptions, the list of processed correlations, and all wording.
- Letter case outside ASCII, where names are compared.
- File, socket, process and JSON handling: a save is atomic, a hash injective, and parsing a parameter.
- The graphical console, HTTP routes, wizard, installers, certificates and remote nodes.
- Validation and migration of older state files: runs start from the empty state.
