# Chat server verification

A model of the chat server and of the machinery under it, with proofs of what it
promises. `dafny verify dfyconfig.toml` checks the whole project.

## The parts

**Message history** (`Sequences`, `Table`, `History`, `HistoryInvariant`, `HistoryRuns`,
`HistoryTheorems`, `HistoryFlush`, `HistoryHoles`; in-place form in `IdArrays`,
`ChatStores`). Every channel keeps a window of its newest message ids; messages are
cached by id, queued, and flushed by another thread in three steps (swap, commit,
publish the watermark) that interleave with the application thread. A history read is
planned against the window, caches the rows it fetches one by one, and then widens the
window. The reference is one query over everything written: the table, then the batch in
flight, then the pending list. `HistoryTheorems.HistoryIsExact` is the main result. It
holds for runs of reads that leave no gap between their bound and the window, and the
reads the server issues leave none; for the others `HistoryHoles.HistoryExactIffGapless`
gives the exact condition and `GapExample` a concrete failure, which
`HistoryHoles.HoleIsForever` shows to be permanent.

**Remote calls** (`Rpc`, `RpcRuns`, `RpcReplies`, `RpcCalls`, `RpcEntries`,
`RpcSystems`, `RpcTimeouts`). Preparing, subscribing, registering, arming, sending,
replies, emission over a snapshot of slots, the scheduler's collecting and running of
timeouts, and the three parts of a completion are separate steps of one machine that
interleave freely. `RpcReplies` says when a reply completes its call, `RpcCalls` that no
call is lost. `RpcTimeouts` composes it with the scheduler below, which brings in time.

**Signals** (`Signals`). Emission over a snapshot while slots subscribe and unsubscribe,
for arbitrary slot behaviour, and the ownership of slots by movable handles.

**Scheduler** (`Scheduler`, `SchedulerRuns`, `SchedulerTimes`, `SchedulerSleeps`,
`SchedulingSystems`). Adding a task is three steps: its due time is fixed before the
lock is taken, it enters the table under the lock, and the thread is notified after the
lock. A pass collects, then runs callbacks one by one while other steps intervene, then
erases. Time is in nanoseconds and never goes back.

**Server protocol** (`Directory`, `Server`, `ServerInvariant`, `ServerTheorems`,
`ServerAccounts`, `ServerBroadcasts`, `ServerSessions`, `ServerEvents`; in-place form in
`ChatServers`). Handlers are atomic steps over the users and sessions, the channels and
who has joined them, the history machine of the first part, and the table of live
connections. Closing a connection and running its disconnect handler are separate steps,
and requests of a closed connection may still be handled. Everything that goes out is
kept in a log; membership, liveness and transcript are read off that log and compared
with the tables.

**Byte pipeline** (`Framing`, `Queues`, `MessageProcessor`, `Connections`). Framing and
the incremental decoder, the outgoing queue with its rule for starting writes, and the
receive queue that is swapped and drained.

**Load report** (`Percentiles`, `LoadReports`). Percentiles by selection in place, and
the accounting of sent, completed and failed messages.

Code that updates fields or arrays is a class or an array method. Each method of a class
is proved equal to a step or a function of the value model, and the properties are
proved of those; the load tester's client keeps its tables equal to functions of the
trace of what it has sent and received, and the array methods say outright what they
leave in the array.

## Where the code falls short of what one would expect

- A history read that starts below the window can leave a hole in it and still flag it
  complete (`HistoryTheorems.GappedRead`, `GapExample`).
- A task added while callbacks run can be slept past
  (`SchedulerSleeps.SleptPastExample`, `ReaddedExample`).
- Two socket writes can be under way at once (`OutgoingQueue.TwoWritesExample`).
- A failed write starts no further one: if it was the last under way, what waits behind
  it is never written (`OutgoingQueue.FailureStrands`).
- The timeout handler keeps the entry of a call that completes before its timeout has
  been recorded (`RpcEntries.LeakExample`).
- An authenticate request handled after its connection has closed leaves a session that
  locks the user out (`ServerSessions.LockedOutExample`, `LateAuthenticateLocksOut`).

For each the exact condition is proved as well, over runs:
`HistoryHoles.HistoryExactIffGapless`, `SchedulerSleeps.NeverOversleepsIff`,
`OutgoingQueue.ContainedIffCalm` (and, run by run, `OneWriteIffTakenAlone`),
`OutgoingQueue.StrandedIff`, `RpcEntries.StaleEntryIff` and
`ServerSessions.StaleSessionIff`.

## Model

| member | source | states |
|---|---|---|
| `Table.QueryIsLatestPage` | apps/server/source/chat/adapters/sqlite_chat_persistence_adapter.cpp:101-132 | the query is the ascending page of the `limit` greatest ids of the channel below the bound: in it, nothing else, and everything left out is older than all of it |
| `Table.InsertRowsAppends` | apps/server/source/chat/adapters/sqlite_chat_persistence_adapter.cpp:58-70 | a batch whose ids are all new and ascending is accepted and ends up at the end of the table |
| `Table.InsertRowRefuses` | apps/server/source/chat/adapters/sqlite_chat_persistence_adapter.cpp:58-68 | an insert is refused exactly when the primary key is in use |
| `Sequences.AssignIdsIsUnion` | apps/server/source/chat/chat_channel_message_log.cpp:32-49 | for any unsorted list with duplicates the result is strictly ascending and holds exactly the union of old and incoming ids |
| `Sequences.InsertIdIsUnion` | apps/server/source/chat/chat_channel_message_log.cpp:43-48 | the same for one id |
| `IdArrays.InsertDown` | apps/server/source/chat/chat_channel_message_log.cpp:43-48 | one step of sorting or merging in place: the array stays a permutation and one more element is in order |
| `IdArrays.MergeInPlace` | apps/server/source/chat/chat_channel_message_log.cpp:43-45 | merging the two sorted parts of an array in place sorts it and permutes it |
| `IdArrays.UniqueInPlace` | apps/server/source/chat/chat_channel_message_log.cpp:36-48 | after removing adjacent duplicates in place the front part is strictly ascending with the same elements |
| `ChatStores.ChatChannelMessageLog.AssignMessageIds` | apps/server/source/chat/chat_channel_message_log.cpp:32-49 | the array algorithm yields the union of AssignIds |
| `ChatStores.ChatChannelMessageLog.AppendMessageId` | apps/server/source/chat/chat_channel_message_log.cpp:27-30 | an id is appended only when it is greater than the last |
| `ChatStores.ChatChannelMessageLog.FindLowerBound` | apps/server/source/chat/chat_channel_message_log.cpp:65-66 | the first position whose id is not below the bound |
| `ChatStores.ChatChannelMessageLog.QueryAndCacheMessages` | apps/server/source/chat/chat_channel_message_log.cpp:97-109 | the re-entrant path: the flag, the message cache and this log change as FinishRead says, the other logs not at all |
| `ChatStores.ChatChannelMessageLog.GetChatMessagesBefore` | apps/server/source/chat/chat_channel_message_log.cpp:56-95 | all three routes return the fetched ids then the cached ones and leave the store as ReadStore says |
| `ChatStores.ChatMessageStore.AssignMessage` | apps/server/source/chat/chat_message_store.cpp:52-62 | the message is cached and queued unless it is covered by the watermark |
| `ChatStores.ChatMessageStore.CacheMessages` | apps/server/source/chat/chat_message_store.cpp:37-50 | all messages are assigned and their ids enter the log |
| `ChatStores.ChatMessageStore.CreateMessage` | apps/server/source/chat/chat_message_store.cpp:25-35 | the next id is taken, the log grows, the message is cached and queued |
| `ChatStores.ChatMessageStore.GetMessagesBefore` | apps/server/source/chat/chat_message_store.cpp:88-103 | an uninterrupted read returns ReadPage and leaves ReadStore |
| `ChatStores.ChatMessageStore.Prewarm` | apps/server/source/chat/chat_message_store.cpp:11-23 | starting fills the store as the reference prewarm does |
| `ChatStores.ChatMessageStore.Persist` | apps/server/source/chat/chat_message_store.cpp:64-78 | swap, commit and publish in a row; an empty list does nothing; a refused batch leaves the watermark |
| `ChatStores.ChatPersistenceAdapter.PersistChatMessages` | apps/server/source/chat/adapters/sqlite_chat_persistence_adapter.cpp:50-73 | all rows are inserted or none, and the id returned is the last of the batch |
| `HistoryInvariant.FetchExtendsWindow` | apps/server/source/chat/chat_channel_message_log.cpp:97-109 | rows fetched from directly below the window extend it without a hole, and a short answer means the whole channel is in it, which is when the flag is set |
| `HistoryInvariant.PlanGivesPage` | apps/server/source/chat/chat_channel_message_log.cpp:56-95 | on every route the fetched ids and the cached ids together are exactly those of the last `limit` messages below the bound, and the table answers as the whole history would |
| `HistoryInvariant.FetchLocated` | apps/server/source/chat/chat_channel_message_log.cpp:59-90 | the fetched rows end at the smaller of the bound and the front of the window, so directly below the window when nothing separates the two |
| `HistoryInvariant.CommitIsAppend` | apps/server/source/chat/adapters/sqlite_chat_persistence_adapter.cpp:50-73 | the batch in flight is never refused: the table grows by exactly the batch |
| `HistoryRuns.CreateKeeps` | apps/server/source/chat/chat_message_store.cpp:25-35 | creating a message keeps the invariant and adds exactly that message to what has been written |
| `HistoryRuns.ReadStartKeeps` | apps/server/source/chat/chat_channel_message_log.cpp:56-98 | starting a read that leaves no gap below the window keeps the invariant |
| `HistoryRuns.ReadRowKeeps` | apps/server/source/chat/chat_message_store.cpp:52-62 | a row cached from the database is never queued again, even while a flush is under way |
| `HistoryRuns.ReadEndKeeps` | apps/server/source/chat/chat_channel_message_log.cpp:97-109 | flagging and merging at the end of a read keep the window closed |
| `HistoryRuns.EndPageIsExact` | apps/server/source/chat/chat_message_store.cpp:88-103 | the page handed out at the end of a read is the query over everything written |
| `HistoryRuns.RunKeeps` | apps/server/source/chat/chat_message_store.cpp:25-103 | over every interleaving of creations, swap, commit, publish and read steps the invariant holds and everything written is the start plus the created messages, in order |
| `HistoryTheorems.PrewarmEstablishes` | apps/server/source/chat/chat_message_store.cpp:11-23 | a prewarmed store satisfies the invariant and has written exactly the database |
| `HistoryTheorems.HistoryIsExact` | apps/server/source/chat/chat_message_store.cpp:25-103 | main result: from any valid database, over every run, each read returns the last `limit` messages below its bound of database plus created messages, each of which is held exactly once |
| `HistoryTheorems.BatchesAreAccepted` | apps/server/source/chat/chat_message_store.cpp:64-78 | in every run no flush is ever refused: no primary key is inserted twice |
| `HistoryFlush.WatermarkIsGreatest` | apps/server/source/chat/chat_message_store.cpp:64-78 | in every run, when no flush stands between its commit and its publication, the watermark is the greatest id of the table |
| `HistoryFlush.FlushPersists` | apps/server/source/chat/chat_message_store.cpp:64-78 | a flush left alone moves everything pending into the table, in order, and raises the watermark to its last id |
| `HistoryFlush.FetchIff` | apps/server/source/chat/chat_channel_message_log.cpp:56-95 | a read asks the database if and only if it asks for something and no id of the window lies below its bound, or fewer than asked for do and the window is not complete; it takes the greatest ids below the bound and asks for the rest |
| `HistoryFlush.CompleteIff` | apps/server/source/chat/chat_channel_message_log.cpp:97-109 | a window is complete after a read if and only if it was, or the database had fewer rows than asked for |
| `HistoryFlush.PrewarmedWindow` | apps/server/source/chat/chat_message_store.cpp:11-23 | a started server holds for each channel the ids of its last 100 messages, or of all, and those messages |
| `HistoryTheorems.ReadStepsRun` | apps/server/source/chat/chat_channel_message_log.cpp:56-109 | an uninterrupted read is a run of the machine's read steps |
| `HistoryTheorems.ReadPageIsExact` | apps/server/source/chat/chat_message_store.cpp:88-103 | from a good store an uninterrupted read is exact whatever its bound |
| `HistoryTheorems.ReadKeeps` | apps/server/source/chat/chat_channel_message_log.cpp:56-109 | an uninterrupted read that leaves no gap keeps the invariant and writes nothing |
| `HistoryTheorems.WindowKeptIffGapless` | apps/server/source/chat/chat_channel_message_log.cpp:56-109 | a read keeps the window closed if and only if it asks for nothing or no message of the channel lies between its bound and the window |
| `HistoryTheorems.GappedRead` | apps/server/source/chat/chat_channel_message_log.cpp:56-109 | a read that leaves such a gap loses a written message from the window |
| `HistoryTheorems.NextReadExactIffGapless` | apps/server/source/chat/chat_channel_message_log.cpp:56-109 | the next unlimited read from the greatest id is exact if and only if the read before it left no gap |
| `HistoryTheorems.GapExample` | apps/server/source/chat/chat_channel_message_log.cpp:60-61 | a concrete channel of 102 messages where a read below the window makes the next one wrong |
| `HistoryTheorems.WholeChannel` | apps/server/source/chat/chat_server_system.cpp:126-132 | an unlimited query from the greatest id is the whole channel |
| `HistoryHoles.HistoryExactIffGapless` | apps/server/source/chat/chat_channel_message_log.cpp:56-109 | in every run from a started server of creations, flush steps and reads of any bound, unlimited reads stay exact throughout if and only if no read of the run leaves a gap between its bound and the window it meets |
| `HistoryHoles.HoleIsForever` | apps/server/source/chat/chat_channel_message_log.cpp:56-109 | once a window skips a message, then in every continuation of creations, flush steps and reads of any bound the message never enters the window again, and every read that should return it returns something else |
| `HistoryHoles.GapLeavesHole` | apps/server/source/chat/chat_channel_message_log.cpp:60-61 | a read leaves such a hole when it asks for something, leaves a gap and finds a message below its bound |
| `HistoryHoles.GapExampleIsForever` | apps/server/source/chat/chat_channel_message_log.cpp:60-61 | so it does, for good, on the concrete channel of 102 messages |
| `Signals.EachRunsUnlessRemoved` | libs/ebroschin-utility/include/ebroschin/utility/signal.hpp:35-49 | for any slot behaviour, a slot present at the start runs exactly once unless a slot that ran before its turn unsubscribed it; none subscribed meanwhile runs |
| `Signals.LiveUntilRemoved` | libs/ebroschin-utility/include/ebroschin/utility/signal.hpp:24-49 | a slot of the start is still there at any point exactly when nobody that has run unsubscribed it |
| `Signals.ApplyAllSpec` | libs/ebroschin-utility/include/ebroschin/utility/signal.hpp:24-33 | subscribing hands out new ids, so an existing slot goes only by being unsubscribed |
| `Signals.CommandEffect` | libs/ebroschin-utility/include/ebroschin/utility/signal.hpp:24-33 | subscribing stores its callback under an id never used and touches no other slot; unsubscribing takes out that slot alone |
| `Signals.EmissionAppliesCommands` | libs/ebroschin-utility/include/ebroschin/utility/signal.hpp:35-49 | what an emission leaves is what its slots' commands, one after the other, make of the slots |
| `Signals.CallsOwnCallback` | libs/ebroschin-utility/include/ebroschin/utility/signal.hpp:35-49 | each slot that runs calls the callback it was subscribed with |
| `Signals.SignalState.Emit` | libs/ebroschin-utility/include/ebroschin/utility/signal.hpp:35-49 | the snapshot lists every slot once, and the loop over it is the emission |
| `Signals.SignalState.Subscribe` | libs/ebroschin-utility/include/ebroschin/utility/signal.hpp:24-29 | a new id and its slot |
| `Signals.SignalState.Unsubscribe` | libs/ebroschin-utility/include/ebroschin/utility/signal.hpp:31-33 | exactly that slot goes |
| `Signals.SignalSubscription.Move` | libs/ebroschin-utility/src/signal_subscription.cpp:12-15 | the new handle holds what the other held, which then holds nothing |
| `Signals.SignalSubscription.Assign` | libs/ebroschin-utility/src/signal_subscription.cpp:17-24 | the slot held before goes, the other's is taken over; self-assignment changes nothing |
| `Signals.SignalSubscription.Unsubscribe` | libs/ebroschin-utility/src/signal_subscription.cpp:30-36 | the held slot and no other goes, and the handle holds nothing afterwards |
| `Signals.Handles.Take` | libs/ebroschin-utility/include/ebroschin/utility/signal.hpp:62-65 | subscribing hands out a handle that owns exactly the new slot: a step of the ownership machine |
| `Signals.Handles.MoveNew` | libs/ebroschin-utility/src/signal_subscription.cpp:12-15 | move construction is a step of the ownership machine |
| `Signals.Handles.MoveTo` | libs/ebroschin-utility/src/signal_subscription.cpp:17-24 | so is move assignment, also to itself |
| `Signals.Handles.Release` | libs/ebroschin-utility/src/signal_subscription.cpp:30-36 | so is unsubscribing |
| `Signals.Handles.Destroy` | libs/ebroschin-utility/src/signal_subscription.cpp:26-28 | so is destroying a handle |
| `Signals.HandleKeeps` | libs/ebroschin-utility/src/signal_subscription.cpp:12-36 | every way of making, moving, releasing and destroying handles keeps one owner per slot |
| `Signals.OwnershipKept` | libs/ebroschin-utility/src/signal_subscription.cpp:12-36 | so does every sequence of them: no slot is dropped or owned twice |
| `RpcRuns.ClaimSlots` | libs/ebroschin-network/include/ebroschin/network/rpc/rpc_system.hpp:86-94 | claiming a call removes its two slots and no other |
| `RpcRuns.RunKeeps` | libs/ebroschin-network/include/ebroschin/network/rpc/rpc_system.hpp:27-101 | the invariant of the completion protocol holds over every interleaving |
| `RpcRuns.AtMostOneCompletion` | libs/ebroschin-network/include/ebroschin/network/rpc/rpc_system.hpp:43-101 | at most one callback of a call runs and at most once; a reply completed a call only on its connection, with its request id and of a type it waits for |
| `RpcReplies.ReplyClaims` | libs/ebroschin-network/include/ebroschin/network/rpc/rpc_system.hpp:51-68 | from every reachable state, a delivered reply, its slots run in any order, claims a pending call if and only if it comes on the call's connection, with its request id, and is of its response type or the error type; the winner is that reply, as a success or an error, and every other call stays pending |
| `RpcReplies.ReplyCompletes` | libs/ebroschin-network/include/ebroschin/network/rpc/rpc_system.hpp:51-101 | left alone, that call then completes with that reply |
| `RpcReplies.ReplyIsNeverIgnored` | libs/ebroschin-network/include/ebroschin/network/rpc/rpc_system.hpp:51-68 | whatever other calls, timeouts and completions do while the reply is emitted: once its slots have had their turn, the call it answers is no longer pending |
| `RpcReplies.SlotEffect` | libs/ebroschin-network/include/ebroschin/network/rpc/rpc_system.hpp:54-68 | one slot claims the call if that is pending and waits for this reply in this slot, and does nothing otherwise |
| `RpcCalls.NoCallIsLost` | libs/ebroschin-network/include/ebroschin/network/rpc/rpc_system.hpp:43-101 | in every run a request is sent if and only if its Call has come to its end, and a call issued is early, pending, being finished or completed, exactly one of these |
| `RpcCalls.CancelTakesEntryAndTask` | libs/ebroschin-network-modules/src/rpc_timeout_handler/scheduler_rpc_timeout_handler.cpp:22-34 | cancelling takes the call's own entry and task, and no other |
| `RpcRuns.TwoSlotsPerCall` | libs/ebroschin-network/include/ebroschin/network/rpc/rpc_system.hpp:36-73 | live reply slots are exactly two per pending call |
| `RpcRuns.CancelRemovesOwnTask` | libs/ebroschin-network-modules/src/rpc_timeout_handler/scheduler_rpc_timeout_handler.cpp:22-34 | cancelling removes no task of another call, and every armed pending call keeps its timeout ticking |
| `RpcRuns.ArmedCallCanTimeOut` | libs/ebroschin-network-modules/src/rpc_timeout_handler/scheduler_rpc_timeout_handler.cpp:9-34 | in every reachable state an armed pending call can be completed as timed out by the scheduler alone |
| `RpcRuns.FinishClaimed` | libs/ebroschin-network/include/ebroschin/network/rpc/rpc_system.hpp:94-101 | a claimed call left alone gets its timeout cancelled and its callback run |
| `RpcEntries.StaleEntryIff` | libs/ebroschin-network-modules/src/rpc_timeout_handler/scheduler_rpc_timeout_handler.cpp:12-31 | in every run, the handler keeps the entry of a completed call if and only if the timeout was cancelled before it was recorded |
| `RpcEntries.StaleEntryStays` | libs/ebroschin-network-modules/src/rpc_timeout_handler/scheduler_rpc_timeout_handler.cpp:12-31 | such an entry is never removed |
| `RpcEntries.LeakExample` | libs/ebroschin-network-modules/src/rpc_timeout_handler/scheduler_rpc_timeout_handler.cpp:12-19 | a concrete run in which the timeout fires between adding the task and recording it: the call has completed and its entry stays |
| `RpcSystems.RpcSystem.Prepare` | libs/ebroschin-network/include/ebroschin/network/rpc/rpc_system.hpp:29-33 | a fresh request id |
| `RpcSystems.RpcSystem.Call` | libs/ebroschin-network/include/ebroschin/network/rpc/rpc_system.hpp:43-84 | performs exactly the protocol's steps: subscribe twice, register, arm, send |
| `RpcSystems.RpcSystem.ScheduleTimeout` | libs/ebroschin-network-modules/src/rpc_timeout_handler/scheduler_rpc_timeout_handler.cpp:9-20 | adds the task and then records it under the request |
| `RpcSystems.RpcSystem.ForgetTimeout` | libs/ebroschin-network-modules/src/rpc_timeout_handler/scheduler_rpc_timeout_handler.cpp:24-31 | forgets the request's task and returns it |
| `RpcSystems.RpcSystem.HandleCallback` | libs/ebroschin-network/include/ebroschin/network/rpc/rpc_system.hpp:86-101 | whoever finds the call pending performs claim, cancel and callback; everyone else does nothing |
| `RpcTimeouts.RunProjects` | libs/ebroschin-network-modules/src/rpc_timeout_handler/scheduler_rpc_timeout_handler.cpp:9-34 | on the scheduler, every run of remote calls is for the protocol a run of its own, so everything proved of those holds |
| `RpcTimeouts.SchedulerProjects` | libs/ebroschin-network-modules/src/rpc_timeout_handler/scheduler_rpc_timeout_handler.cpp:9-34 | and for the scheduler a run of its own |
| `RpcTimeouts.NoEarlyTimeout` | libs/ebroschin-network-modules/src/rpc_timeout_handler/scheduler_rpc_timeout_handler.cpp:9-20 | in every run of calls on the scheduler, while less than its duration, or less than 15 ms, has passed since the clock was read when its timeout was scheduled, a call has not timed out |
| `RpcTimeouts.ArmedCallIsScheduled` | libs/ebroschin-network-modules/src/rpc_timeout_handler/scheduler_rpc_timeout_handler.cpp:9-34 | in every such run an armed pending call has its own one-shot in the task table or about to fire |
| `Scheduler.PassIsExact` | libs/ebroschin-scheduling/src/scheduling_system.cpp:71-85 | in whatever order the table is stored, a pass collects exactly the due tasks, each once, puts them off by their interval, marks exactly the due one-shots, and its wake time is the earliest due time of the tasks that stay |
| `SchedulerRuns.CollectKeeps` | libs/ebroschin-scheduling/src/scheduling_system.cpp:67-87 | a pass keeps the rate invariant of every task |
| `SchedulerRuns.RunKeeps` | libs/ebroschin-scheduling/src/scheduling_system.cpp:24-104 | the rate invariant holds over every run |
| `SchedulerRuns.RateIsBounded` | libs/ebroschin-scheduling/src/scheduling_system.cpp:41-104 | in every run the k-th firing comes no earlier than k of the task's intervals, and than k times 15 ms, after the task was added, and a one-shot fires once at most |
| `SchedulerTimes.StampIsExact` | libs/ebroschin-scheduling/src/scheduling_system.cpp:41-49 | a task is first due its interval after the clock was read, or 15 ms after if the interval is no longer than that |
| `SchedulerTimes.DueTimes` | libs/ebroschin-scheduling/src/scheduling_system.cpp:41-76 | in every run a task not yet collected is due exactly then, and one that has fired no later than that period after it last fired |
| `SchedulerTimes.RateOfTask` | libs/ebroschin-scheduling/src/scheduling_system.cpp:41-104 | the rate bound, from the call that adds the task |
| `SchedulerTimes.PassRuns` | libs/ebroschin-scheduling/src/scheduling_system.cpp:67-97 | a pass left alone fires every due task once, drops due one-shots, puts the other due tasks off by their interval from now, touches nothing else, and sleeps until the earliest due time left |
| `SchedulerRuns.RemovedNeverFires` | libs/ebroschin-scheduling/src/scheduling_system.cpp:24-31 | a task removed before it is collected never fires again, whatever follows |
| `SchedulerRuns.NoTaskIsSleptPast` | libs/ebroschin-scheduling/src/scheduling_system.cpp:71-99 | in every run that adds nothing while callbacks run, a sleeper that has not been and will not be notified wakes no later than any task is due |
| `SchedulerRuns.SleepSafeIffAddedLater` | libs/ebroschin-scheduling/src/scheduling_system.cpp:87-98 | exactly when the sleep that ends a pass is safe: if and only if a notification is still to come or every task added while callbacks ran and still there is due no earlier than the computed wake time |
| `SchedulerSleeps.NeverOversleepsIff` | libs/ebroschin-scheduling/src/scheduling_system.cpp:71-99 | exactly which runs sleep past no task in any state: those in which every task that enters the table while callbacks run is due no earlier than the wake time already computed, or is removed before that pass ends, or the pass ends with a notification still to come |
| `SchedulerSleeps.SleptPastExample` | libs/ebroschin-scheduling/src/scheduling_system.cpp:87-98 | a concrete run where a 15 ms task added by a callback is slept past for almost a second |
| `SchedulerSleeps.ReaddedExample` | apps/load-tester/source/testing/test_client.cpp:72-79 | a concrete run where a lone one-shot that schedules itself again from its callback leaves the thread asleep with no wake time |
| `SchedulerSleeps.SleepHasNoEnd` | libs/ebroschin-scheduling/src/scheduling_system.cpp:71-99 | with no notification to come, such a sleep lasts however much time passes |
| `SchedulingSystems.SchedulingSystem.StampTask` | libs/ebroschin-scheduling/src/scheduling_system.cpp:41-49 | id and first due time, the interval or 15 ms after the clock, are fixed before the lock |
| `SchedulingSystems.SchedulingSystem.EmplaceTask` | libs/ebroschin-scheduling/src/scheduling_system.cpp:50-55 | the stamped task enters the table |
| `SchedulingSystems.SchedulingSystem.RemoveTask` | libs/ebroschin-scheduling/src/scheduling_system.cpp:24-31 | the task leaves the table |
| `SchedulingSystems.SchedulingSystem.NotifyOne` | libs/ebroschin-scheduling/src/scheduling_system.cpp:24-31 | the notification after the lock, a step of its own: lost on a thread that is not asleep |
| `SchedulingSystems.SchedulingSystem.ScanTasks` | libs/ebroschin-scheduling/src/scheduling_system.cpp:73-85 | the loop over the table computes the reference scan |
| `SchedulingSystems.SchedulingSystem.CollectDue` | libs/ebroschin-scheduling/src/scheduling_system.cpp:67-87 | the locked part of a pass is the machine's Collect step: callbacks exactly the due tasks, wake time good for every survivor |
| `SchedulingSystems.SchedulingSystem.ErasePass` | libs/ebroschin-scheduling/src/scheduling_system.cpp:91-97 | the locked end of a pass erases exactly the collected one-shots |
| `Directory.UserByIdExact` | apps/server/source/users/user_store.cpp:55-65 | reading a user by id through the cache is reading the table, whatever is cached, and what is found is cached |
| `Directory.UserByNameExact` | apps/server/source/users/user_store.cpp:67-77 | the same by name |
| `Directory.ReadUsersExact` | apps/server/source/users/user_store.cpp:79-90 | a list of ids gives the table's rows in the order asked, unknown ids skipped |
| `Directory.ChannelsExact` | apps/server/source/chat/chat_channel_store.cpp:47-69 | reading channels through the complete cache is reading the table and changes no cache |
| `Directory.MirrorAppend` | apps/server/source/chat/chat_server_system.cpp:103-115 | a channel created in the table and cached at once keeps the cache complete |
| `Directory.PrewarmedCaches` | apps/server/source/users/user_store.cpp:11-15 | prewarming caches the whole table |
| `ServerInvariant.HandleKeeps` | apps/server/source/chat/chat_server_system.cpp:46-159 | every request handler keeps the invariant |
| `ServerInvariant.DropKeeps` | apps/server/source/application/connection_event_handler.cpp:17-20 | so does the disconnect handler, whenever and however often it runs |
| `ServerInvariant.MovedKeeps` | apps/server/source/chat/chat_server_system.cpp:58-69 | so does changing channel |
| `ServerInvariant.WriteIs` | apps/server/source/chat/chat_server_system.cpp:72-95 | a write by a session that has joined a channel stores the message and broadcasts it; the other exits are the two error replies |
| `ServerInvariant.CreateChannelIs` | apps/server/source/chat/chat_server_system.cpp:97-119 | a creation finds the channel in the table or adds it; the "Unable to create channel." reply is dead |
| `ServerInvariant.ReadHistory` | apps/server/source/chat/chat_server_system.cpp:126-132 | the handler's read is exact and changes only what is cached |
| `ServerInvariant.SpokenHistory` | apps/server/source/chat/chat_server_system.cpp:87-94 | one more stored message and one more broadcast keep transcript and history equal |
| `ServerInvariant.RunKeeps` | apps/server/source/chat/chat_server_system.cpp:46-159 | the invariant holds over every run of connects, closes, disconnects, requests, writes and flush steps |
| `ServerTheorems.InitialOk` | apps/server/source/chat/chat_server_system.cpp:35-36 | the prewarmed server satisfies it |
| `ServerTheorems.SessionsAreSafe` | apps/server/source/users/user_server_system.cpp:46-95 | in every run sessions are one to one, every session's user and every joined channel is found, and a live connection that has joined a channel has a session |
| `ServerTheorems.SessionIsAssigned` | apps/server/source/users/user_server_system.cpp:86-94 | whenever authentication succeeds the bimap takes the pair: the insert is never silently refused |
| `ServerTheorems.RequestsAreAnswered` | libs/chatcore-api/include/ebroschin/chat/api.hpp:278-336 | in every run every request is answered by exactly one message, to the requester, with its id, of the declared type, with the content the tables and everything written give |
| `ServerTheorems.ExactlyOneReply` | apps/server/source/chat/chat_server_system.cpp:46-159 | the same for one handler from any state of the invariant; the silent returns are never taken |
| `ServerTheorems.RecipientsAreExact` | libs/ebroschin-network/include/ebroschin/network/tcp/tcp_system.hpp:91-130 | in every run a chat message went to exactly the connections live at that moment whose latest successful join names its channel with no later logout |
| `ServerBroadcasts.EventsAreHeard` | libs/ebroschin-network/include/ebroschin/network/tcp/tcp_system.hpp:82-89 | in every run every login, logout and channel creation was told to exactly the connections live at that moment, and every join to exactly the live members of its channel once it has been answered |
| `ServerBroadcasts.PresenceCanBeFollowed` | apps/server/source/users/user_server_system.cpp:46-95 | a connection that stays live from some moment on and goes by the broadcasts it is a recipient of knows exactly who has a session |
| `ServerTheorems.JoinReaches` | apps/server/source/chat/chat_server_system.cpp:58-69 | a join tells exactly the previous channel's live members, then exactly the new channel's including the newcomer, then the requester |
| `ServerEvents.WriteReaches` | apps/server/source/chat/chat_server_system.cpp:72-95 | a message in full: without a session or a channel its sender gets an error and nothing is written; otherwise it is written under the next id and goes to exactly the live members of the channel |
| `ServerEvents.WrittenIff` | apps/server/source/chat/chat_server_system.cpp:72-95 | in every run a message is in the history if and only if the database held it at the start or some event wrote it, by a connection that had a session and was in the channel just then, in the name of the session's user |
| `ServerEvents.CreationReaches` | apps/server/source/chat/chat_server_system.cpp:115-118 | a creation answers the requester and tells every live connection the channel and who made it |
| `ServerEvents.ChannelsIff` | apps/server/source/chat/chat_server_system.cpp:97-119 | in every run the channels are those of the start and those that some event created, by a connection with a session under a name free just then |
| `ServerEvents.CreatedChannelIsFound` | apps/server/source/chat/chat_server_system.cpp:97-151 | round trip over runs: a created channel is found by its id, can be joined, and keeps its name, whatever happens afterwards |
| `ServerEvents.LiveIff` | libs/ebroschin-network/include/ebroschin/network/tcp/tcp_system.hpp:132-149 | in every run connections are numbered as they are made; one is closed if and only if its close is among the events, and live if and only if it is not |
| `ServerEvents.QuittingIff` | apps/server/source/chat/chat_server_system.cpp:121-124 | the server is shutting down if and only if at some event a connection with a session just then asked for it |
| `ServerTheorems.TranscriptIsHistory` | apps/server/source/chat/chat_server_system.cpp:72-95 | in every run an unlimited history read is the database at the start followed by what has been broadcast on the channel, in order |
| `ServerAccounts.OnlineIsAnnounced` | apps/server/source/users/user_server_system.cpp:46-95 | in every run the users that the login and logout broadcasts leave online are exactly those that have a session; who hears those broadcasts is `ServerBroadcasts.EventsAreHeard` |
| `ServerAccounts.AccountsEndure` | apps/server/source/users/adapters/sqlite_user_persistence_adapter.cpp:22-31 | no run loses or changes an account |
| `ServerAccounts.CreatedAccountLogsIn` | apps/server/source/users/user_server_system.cpp:59-95 | round trip over runs: once an account is created, then whatever happens afterwards, authenticating under its name succeeds if and only if the password is its own, the connection has no session and the user has none |
| `ServerAccounts.EndedSessionIsFree` | apps/server/source/users/user_server_system.cpp:46-53 | a session that ends frees both its connection and its user |
| `ServerSessions.SessionStep` | apps/server/source/users/user_server_system.cpp:46-95 | after a step a connection has a session if and only if it had one and the step is neither its logout nor its disconnect, or it authenticates with matching credentials while it and the user are free |
| `ServerSessions.SessionHeldIff` | apps/server/source/users/user_server_system.cpp:46-95 | the same over runs: it had one and nothing ends it, or it logs in at some event and no later event ends it |
| `ServerSessions.StaleSessionIff` | apps/server/source/application/connection_event_handler.cpp:17-20 | in every run of the server, a connection whose disconnect handler has run holds a session if and only if at some later event it logs in, with matching credentials while it and the user are free, and its session does not end afterwards |
| `ServerSessions.DroppedStaysOut` | apps/server/source/application/connection_event_handler.cpp:17-20 | after its disconnect a connection stays without a session in every run in which it does not ask to authenticate again |
| `ServerSessions.LockoutLasts` | apps/server/source/users/user_server_system.cpp:86-90 | in every run in which the connection of a session neither logs out nor is dropped, nobody can log in as its user, with any password |
| `ServerSessions.LateAuthenticateLocksOut` | apps/server/source/users/user_server_system.cpp:74-95 | an authenticate request handled after its connection has closed, with matching credentials while connection and user are free, starts such a lockout |
| `ServerSessions.LockedOutExample` | apps/server/source/users/user_server_system.cpp:74-95 | a concrete run from an empty database in which a live connection with the right credentials is refused because a closed and dropped connection holds the session |
| `ChatServers.TcpSystem.GetConnections` | libs/ebroschin-network/include/ebroschin/network/tcp/tcp_system.hpp:103-130 | the live ones of the listed connections and no others |
| `ChatServers.TcpSystem.CreateConnection` | libs/ebroschin-network/include/ebroschin/network/tcp/tcp_system.hpp:132-144 | a new connection id becomes live |
| `ChatServers.TcpSystem.RemoveConnection` | libs/ebroschin-network/include/ebroschin/network/tcp/tcp_system.hpp:146-149 | the connection is no longer live |
| `ChatServers.UserStore.CacheUser` | apps/server/source/users/user_store.cpp:17-20 | the cache refuses a user whose id or name it has and returns the one it holds |
| `ChatServers.UserStore.AssignSession` | apps/server/source/users/user_store.cpp:38-40 | the bimap takes the pair only if neither side is in use |
| `ChatServers.UserStore.GetUser` | apps/server/source/users/user_store.cpp:55-65 | read-through by id |
| `ChatServers.UserStore.GetUserByName` | apps/server/source/users/user_store.cpp:67-77 | read-through by name |
| `ChatServers.UserStore.GetUsers` | apps/server/source/users/user_store.cpp:79-90 | the loop is the reference ReadUsers |
| `ChatServers.UserStore.CreateUser` | apps/server/source/users/adapters/sqlite_user_persistence_adapter.cpp:22-31 | a taken name changes nothing; otherwise the row is added |
| `ChatServers.ChatChannelStore.AssignConnection` | apps/server/source/chat/chat_channel_store.cpp:28-31 | the connection is in exactly the new channel |
| `ChatServers.ChatChannelStore.GetConnections` | apps/server/source/chat/chat_channel_store.cpp:37-45 | none, or exactly the connections of the channel |
| `ChatServers.ChatChannelStore.GetAssignedChannel` | apps/server/source/chat/chat_channel_store.cpp:71-78 | the channel joined, looked up through the cache |
| `ChatServers.ChatServer.RemoveSession` | apps/server/source/users/user_server_system.cpp:46-53 | the logout event goes out, to every live connection, before the session goes; without a session nothing happens |
| `ChatServers.ChatServer.HandleAuthenticate` | apps/server/source/users/user_server_system.cpp:74-95 | is the authenticate step of the protocol: three refusals in the source's order, otherwise session, reply, then the login event |
| `ChatServers.ChatServer.HandleCreateUser` | apps/server/source/users/user_server_system.cpp:59-72 | is the create-user step: a name known to the cache or the table is refused, otherwise the account is stored with its password |
| `ChatServers.ChatServer.HandleGetUsers` | apps/server/source/users/user_server_system.cpp:97-102 | is the get-users step, including what it leaves in the cache |
| `ChatServers.ChatServer.HandleGetUser` | apps/server/source/users/user_server_system.cpp:104-113 | is the get-user step, including what it leaves in the cache |
| `ChatServers.ChatServer.HandleJoin` | apps/server/source/chat/chat_server_system.cpp:46-70 | is the join step: leave event before the table changes, join event and reply after it |
| `ChatServers.ChatServer.HandleWrite` | apps/server/source/chat/chat_server_system.cpp:72-95 | is the write step on the in-place message store: stored first, then broadcast to the channel's connections |
| `ChatServers.ChatServer.HandleCreateChannel` | apps/server/source/chat/chat_server_system.cpp:97-119 | is the create-channel step: table, cache, reply, event, or the channel that has the name already |
| `ChatServers.ChatServer.HandleGetChats` | apps/server/source/chat/chat_server_system.cpp:126-132 | is the get-chats step: an uninterrupted read of the in-place message store from the greatest id |
| `ChatServers.ChatServer.HandleGetChannels` | apps/server/source/chat/chat_server_system.cpp:134-139 | is the get-channels step: the cached channels |
| `ChatServers.ChatServer.HandleGetChannel` | apps/server/source/chat/chat_server_system.cpp:141-151 | is the get-channel step |
| `ChatServers.ChatServer.HandleLogout` | apps/server/source/chat/chat_server_system.cpp:153-159 | is the logout step: logout event, session, channel, reply, in that order |
| `Framing.ChunkingIrrelevant` | libs/ebroschin-network-modules/src/connectors/boost_async/boost_tcp_connection.cpp:57-78 | how the stream is cut into chunks makes no difference |
| `Framing.FrameLayout` | libs/ebroschin-network-modules/src/connectors/boost_async/boost_tcp_connection.cpp:20-28 | a frame is the payload's size in four bytes, most significant first, then the payload |
| `Framing.HeaderAnnounces` | libs/ebroschin-network-modules/src/connectors/boost_async/boost_tcp_connection.cpp:57-68 | the first four bytes are read the same way: above 1048576 the connection closes, at 0 an empty message is complete, otherwise a body of that size is awaited |
| `Framing.RoundTripIffBounded` | libs/ebroschin-network-modules/src/connectors/boost_async/boost_tcp_connection.cpp:20-28 | whatever the chunks, the receiver gets exactly the payloads sent if and only if each is at most 1048576 bytes |
| `Framing.ReceivedIsPrefix` | libs/ebroschin-network-modules/src/connectors/boost_async/boost_tcp_connection.cpp:57-78 | at every moment what has been received is a prefix of what was sent |
| `Framing.OversizedCloses` | libs/ebroschin-network-modules/src/connectors/boost_async/boost_tcp_connection.cpp:62-66 | a frame that announces more than 1048576 bytes: exactly the payloads before it arrive, then the connection closes and nothing more is read |
| `Framing.NothingTooLong` | libs/ebroschin-network-modules/src/connectors/boost_async/boost_tcp_connection.cpp:62-66 | no message of more than 1048576 bytes is ever handed over |
| `Framing.BoundIsExact` | libs/ebroschin-network-modules/src/connectors/boost_async/boost_tcp_connection.cpp:62-66 | a payload of 1048576 bytes arrives, one of 1048577 closes the connection |
| `OutgoingQueue.NothingIsLost` | libs/ebroschin-network-modules/src/connectors/boost_async/boost_tcp_connection.cpp:30-55 | over every interleaving buffers are taken in FIFO order exactly once; without failures a waiting buffer always has a write under way or a starter, and when all is quiet everything has been written |
| `OutgoingQueue.FailureStrands` | libs/ebroschin-network-modules/src/connectors/boost_async/boost_tcp_connection.cpp:49-54 | a failed write starts nothing: if it was the last writer, the buffers waiting behind it are never taken, in any continuation |
| `OutgoingQueue.StrandedIff` | libs/ebroschin-network-modules/src/connectors/boost_async/boost_tcp_connection.cpp:30-55 | a waiting buffer is never taken, in any continuation, if and only if no write is under way and no thread is about to start one |
| `OutgoingQueue.SingleIffSpaced` | libs/ebroschin-network-modules/src/connectors/boost_async/boost_tcp_connection.cpp:30-55 | writers, that is writes under way and threads about to start one, never number more than one if and only if no buffer is accepted while the queue is empty and a writer is at work |
| `OutgoingQueue.OneWriteIffTakenAlone` | libs/ebroschin-network-modules/src/connectors/boost_async/boost_tcp_connection.cpp:39-54 | a given run has at most one write under way throughout if and only if no SendNext of it takes a buffer while a write is under way |
| `OutgoingQueue.ContainedIffPressure` | libs/ebroschin-network-modules/src/connectors/boost_async/boost_tcp_connection.cpp:39-54 | from a state, no continuation without another buffer ever has two writes under way if and only if the writes under way and those that can be started number at most one |
| `OutgoingQueue.ContainedIffCalm` | libs/ebroschin-network-modules/src/connectors/boost_async/boost_tcp_connection.cpp:30-55 | exactly when the senders rule out two writes, however threads and socket behave in between: every buffer is accepted into an empty queue with no write under way, or behind waiting buffers with at most one thread about to take one |
| `OutgoingQueue.TwoWritesExample` | libs/ebroschin-network-modules/src/connectors/boost_async/boost_tcp_connection.cpp:30-55 | a run with two writes at once |
| `OutgoingQueue.WrittenInOrder` | libs/ebroschin-network-modules/src/connectors/boost_async/boost_tcp_connection.cpp:30-55 | with one write at a time the wire carries the accepted buffers in order |
| `Delivery.DeliveredInOrder` | libs/ebroschin-network-modules/src/connectors/boost_async/boost_tcp_connection.cpp:20-78 | end to end: with one write at a time, sent payloads are received in order, all of them once all is quiet |
| `Connections.BoostTcpConnection.SendBytes` | libs/ebroschin-network-modules/src/connectors/boost_async/boost_tcp_connection.cpp:20-37 | the frame is appended, and the sender starts a write exactly when it found the queue empty |
| `Connections.BoostTcpConnection.SendNext` | libs/ebroschin-network-modules/src/connectors/boost_async/boost_tcp_connection.cpp:39-47 | the front buffer is taken, if there is one |
| `Connections.BoostTcpConnection.Receive` | libs/ebroschin-network-modules/src/connectors/boost_async/boost_tcp_connection.cpp:57-78 | reading header and body in turn computes the byte-by-byte reference on every chunk |
| `MessageProcessor.HandledIsPrefix` | libs/ebroschin-network/include/ebroschin/network/tcp/tcp_message_processor.hpp:22-72 | over every interleaving, handled then batch then queue are exactly the messages of known type that arrived before the stop, in order |
| `MessageProcessor.StoppedHandlesBatch` | libs/ebroschin-network/include/ebroschin/network/tcp/tcp_message_processor.hpp:40-47 | after a stop only the rest of the batch already taken is handled |
| `Connections.TcpMessageProcessor.Enqueue` | libs/ebroschin-network/include/ebroschin/network/tcp/tcp_message_processor.hpp:49-72 | only an envelope of known type that comes before the stop is queued |
| `Connections.TcpMessageProcessor.ProcessBlocking` | libs/ebroschin-network/include/ebroschin/network/tcp/tcp_message_processor.hpp:22-38 | swapping and draining handles the whole queue in order |
| `Percentiles.NthElement` | apps/load-tester/source/testing/client_report.hpp:23-26 | the selected position separates smaller from greater, the array stays a permutation |
| `Percentiles.SeparatorIsSorted` | apps/load-tester/source/testing/client_report.hpp:26-28 | any such arrangement has the n-th element of the sorted list there |
| `Percentiles.CalculatePercentile` | apps/load-tester/source/testing/client_report.hpp:20-29 | zero for no latencies, otherwise the sorted list's element at floor(p (n - 1)) |
| `Percentiles.PercentileRank` | apps/load-tester/source/testing/client_report.hpp:20-29 | a value is the percentile if and only if at most p (n - 1) latencies lie below it and more than that at or below it |
| `Percentiles.PercentilesAscend` | apps/load-tester/source/testing/root_client.cpp:85-88 | a greater fraction never gives a smaller latency, p = 1 gives the greatest, and each is one of the latencies |
| `LoadReports.TestClient.Send` | apps/load-tester/source/testing/test_client.cpp:72-79 | the table of sent messages says what the trace says |
| `LoadReports.TestClient.Receive` | apps/load-tester/source/testing/test_client.cpp:25-34 | only the first echo on the own connection, channel and user counts |
| `LoadReports.TestClient.Evaluate` | apps/load-tester/source/testing/test_client.cpp:58-70 | the report counts the answered and the unanswered messages of the trace, and holds the time from first sending to first echo of each answered one |
| `LoadReports.ReportIsExact` | apps/load-tester/source/testing/test_client.cpp:58-70 | completed are exactly the messages sent and echoed, failed exactly those sent and not echoed, and the unsigned difference does not wrap |
| `LoadReports.ReportOfTrace` | apps/load-tester/source/testing/test_client.cpp:58-70 | over the trace: completed are the messages sent of which some echo came on the own connection, channel and user, failed those of which none did |
| `LoadReports.TimesOfTrace` | apps/load-tester/source/testing/test_client.cpp:58-70 | whatever order the table is read in: one time for each answered message, in that order, from its first sending to its first echo on the own connection, channel and user |
| `LoadReports.Evaluate` | apps/load-tester/source/testing/root_client.cpp:62-75 | the totals in unsigned 64-bit arithmetic |
| `LoadReports.SumsOfParts` | apps/load-tester/source/testing/root_client.cpp:62-75 | the totals of two lists of reports are the sums, and the latencies one after the other, of each |
| `LoadReports.SumsOfOne` | apps/load-tester/source/testing/root_client.cpp:62-75 | and for one report its own count, times and 64-bit difference |
| `LoadReports.LatencyAt` | apps/load-tester/source/testing/root_client.cpp:62-75 | every latency of every report is among the totals, in its place |
| `LoadReports.TotalsBalance` | apps/load-tester/source/testing/root_client.cpp:69-79 | printed sent equals completed plus failed exactly when that sum fits in 64 bits, and modulo 2^64 always |

## Left out

- Sockets, resolver, acceptor, event loop and real threads: steps are atomic at the granularity of locks and handlers. The signal's slot map and the server's stores have no lock of their own, so memory-level data races, and the lifetime of a callback object destroyed while it runs, are outside the model.
- At most one socket write at a time is not claimed, because the code does not ensure it; see the exact conditions in `OutgoingQueue.OneWriteIffTakenAlone` and `ContainedIffCalm`. How the bytes of two writes that overlap mix on the wire is not modelled.
- Startup and shutdown: prewarming is the initial state, flushes do not overlap, and starting, stopping and the final flush at shutdown are not steps.
- Database failures other than a refused primary key, foreign keys, and row ids beyond 32 bits are not modelled; a created message needs a next id below 2^32 - 1, the value the server uses for "no bound".
- Integer widths: the message id counter wraps in the model at 2^32 but runs are cut before it does; request, connection and task ids and the signal's int counter are unbounded; the load report's 64-bit arithmetic is modelled.
- Time in the remote-call machine `Rpc`: there a timeout may be collected at any moment; `RpcTimeouts` puts it on the scheduler, where it is collected when due. A duration counts from the clock read in AddTask, which comes before the call is armed.
- A remote call without a timeout callback, whose timeout is then not scheduled, is an untimed call of the model; `Call` is made at most once per prepared request.
- Signals.SignalState.Emit: slots run commands on their signal; an emission started from within a slot is not modelled.
- Percentiles.CalculatePercentile: p is a real in [0, 1] and rounding of doubles is not modelled; the library's selection algorithm is represented by a selection with the same contract.
- ServerInvariant.ReadHistory: within the server machine a history read is one step; its interleaving with the flushing thread is proved in the history machine.
- The order in which channels are listed to a client, and in which recipients of a broadcast are written to, is not modelled.
- Client code, console commands, logging, argument parsing, the system context and the persistence registry: plumbing or display.
- The JSON codec and message macros: messages are values here, and whether an envelope is well-formed is an input of the receive queue; the JSON library is not part of this model.
