# Verified model of the ATMcp coordination server

ATMcp lets agents on different machines work as a team: they share a task board, a memory, a
knowledge base, a directive bus and an event log, all kept in one SQLite database behind a
single-writer lock. This project models that server and its two worker programs in Dafny and
proves what they promise over every run.

## How the model is organised

| file | what it models |
|---|---|
| TaskBoard.dfy | the tables `tasks`, `task_deps`, `task_claims`, `events`, and the effect of each tool call as one transaction |
| TaskCalls.dfy | what each of those calls means, spelled on the columns of the rows |
| TaskRuns.dfy | every interleaving of those calls with reaper re-checks and other tools' events; one step seen from one task |
| TaskSafety.dfy | claim ledger, attempts, dead letters, lost claims |
| Replay.dfy | the board rebuilt from the event log alone |
| Leases.dfy | when the reaper may take a task away, and what a sweep leaves |
| Scheduling.dfy | the queue, what a completion unblocks |
| Cycles.dfy, Draining.dfy | which creations close a cycle, and that a board drains exactly when there is none |
| Isolation.dfy | teams do not interfere |
| Idempotency.dfy | check, work and store in one transaction, for any tool body |
| TaskReplies.dfy | what the task tools answer, against the tables before and after |
| TaskStore.dfy | the task tools and the sweep as methods that update the tables in place |
| Paging.dfy, OutputStore.dfy | cursor paging over the log and over the pruned output table |
| LongPoll.dfy | commit, publish or tick, arm, read, wait, expire, read again, for `sync`, `get_output`, `inbox` and `wait_directive`; the hub's counters |
| Memory.dfy, Knowledge.dfy | two projections that must agree with an append-only record |
| Directives.dfy, Hosts.dfy | the directive bus, and any number of hosts and their lanes on it |
| Polling.dfy, Poller.dfy | one pass of a host over its inbox, the poller's retries and budgets |
| Common.dfy | options, clamps, splitting sequences |

Every call is one function from tables to tables, because a call is one transaction under the lock.
The code updates its tables in place, so each service is also a class whose methods do that and are proved to
leave exactly the tables and give exactly the reply the functions describe. What a function means is stated
again on its own, on the columns of the rows and without helpers (the lemmas named `...Means`). Runs are sequences of
calls; the theorems quantify over all of them, and each task method leads from a reachable board to a reachable one. Clock readings are parameters of each call and need
not grow. Identifiers drawn by `new_id` are parameters too.

Some properties one would expect are not true of the code. Each comes with an input that shows it and with
the exact condition under which it does hold, or, for the last two, what the code does guarantee.

- `done` is not final. Completing a task keeps its assignee and token, and the later checks do not look at the
  status, so the holder can still fail, release or reopen a done task (`TaskSafety.DoneCanBeReleased`,
  `DoneCanBeFailed`; exactly `TaskSafety.DoneLeftExactlyBy`). `failed` is final.
- The head id that `sync` returns is not a safe cursor, since it is read by a second query, although the dashboard
  resumes from it (atmcp/static/dashboard.js:381, 389) (`Paging.HeadCursorSkipsARow`; exactly
  `Paging.HeadCursorLosesTheRest`). The last returned id is.
- Dependencies can form a cycle when a caller names an id before the task exists (`Cycles.GuessedIdCloses`;
  exactly `Cycles.CreateClosesExactly`).
- The head of `get_output` is read last, so a pruning can leave it below the chunks just returned, even at zero
  (`OutputStore.HeadFallsBehind`; exactly, in `OutputStore.OutputStore.GetOutput`, when the rows from the last
  returned id on are gone).
- A long poll whose wait expires can come back empty although an event was published between the expiry and
  the answer (`LongPoll.PublishedAfterExpiryIsMissed`); what is published before the expiry is never lost.
- One pass of a host can start two turns of one lane, one after the other, because turns end while claims are
  awaited (`Polling.OneLaneTwiceInAPass`); never two at a time.

## Model

| member | source | states |
|---|---|---|
| Replay.ReplayIsExact | atmcp/events.py:43-72 | In every reachable state, folding the event log from nothing gives every task's status, assignee, token, attempts, progress, priority, weight and result, and the exact dependency set |
| Replay.LeasesAreNotLogged | atmcp/services/presence.py:41-62 | The log cannot give leases: heartbeats at different times leave different boards and the same log |
| Replay.SettingsAreNotLogged | atmcp/services/tasks.py:76-94 | Nor can it give a task's ttl, attempt limit and creation time: creations that differ in them log the same |
| TaskRuns.StepMoves | atmcp/services/tasks.py:101-391 | Every step of any caller acts on the row of every existing task as one of seven moves, each allowed only in the states it names; multi-task calls included |
| TaskRuns.StepLedger | atmcp/services/tasks.py:132-135 | The same move decides the task's ledger: a claim adds a row, the ways a claim ends close the holder's row, and no step touches another task's rows |
| TaskCalls.CreateMeans | atmcp/services/tasks.py:76-94 | A free id gets an open row with its columns as given, weight at least one, exactly the named dependencies and one event; a taken one changes nothing |
| TaskCalls.CanClaimMeans | atmcp/services/tasks.py:33-40 | Both eligibility tests hold exactly for an open task each of whose dependencies exists and is done, and the pending list is the others |
| TaskCalls.ClaimMeans | atmcp/services/tasks.py:113-141 | A claim takes exactly a ready task: next token, a lease for the task's own ttl unless absent or zero, one new ledger row, one event, nothing else |
| TaskCalls.ProgressMeans | atmcp/services/tasks.py:209-246 | The holder's report clamps the percentage, moves the status as asked or out of claimed, and renews the lease for the task's own ttl if it has one, zero included; anyone else's changes nothing |
| TaskCalls.CompleteMeans | atmcp/services/tasks.py:273-295 | The holder's completion: done, 100 percent, result, no lease, assignee and token kept; exactly its unreleased rows of the task closed; one event |
| TaskCalls.FailMeans | atmcp/services/tasks.py:328-351 | The holder's failure counts one attempt, queues the task again below its limit and dead-letters it at the limit, with the event that says which |
| TaskCalls.ReleaseMeans | atmcp/services/tasks.py:369-387 | The holder's release: open, unassigned, no lease, attempts kept, rows closed as released, one event |
| TaskCalls.HeartbeatMeans | atmcp/services/presence.py:52-62 | Exactly the caller's claimed and in-progress tasks get a lease from the heartbeat's time for their own ttl if they have one and the default otherwise; nothing else changes |
| TaskCalls.LeaveMeans | atmcp/services/identity.py:146-166 | Exactly the caller's claimed and in-progress tasks are given back, exactly its unreleased rows of them closed, one event each in order and one that it left |
| TaskCalls.ReapMeans | atmcp/reaper.py:44-71 | A re-check acts exactly on a claimed or running task whose lease ended before its clock: one attempt, rows of the assignee closed as expired, requeued or dead-lettered with the event that says which |
| TaskSafety.LedgerAgrees | atmcp/services/tasks.py:118-135 | In every reachable state a task's ledger rows carry the tokens 1..token in order, only the last may be unreleased, and then its agent is the assignee and the task is active; assignee, attempts, status and lease fit together |
| TaskSafety.AttemptsAccount | atmcp/services/tasks.py:331-343 | Attempts is exactly the number of accepted fails and reapings, and exactly the failed and expired ledger rows plus the strikes that found no unreleased row |
| TaskSafety.DisciplinedLedger | atmcp/services/tasks.py:276-291 | If no holder acts on a task after completing it, a task is active exactly when it has an unreleased row, and attempts equals its failed and expired rows |
| TaskSafety.DeadLetterBound | atmcp/reaper.py:48-56 | Over any run, fails and reapings of one task number at most max(1, max_attempts), and the task is failed exactly when they reach it |
| TaskSafety.FailedForever | atmcp/services/tasks.py:109-110 | A dead-lettered task keeps its row and its ledger unchanged through every later run |
| TaskSafety.DoneLeftExactlyBy | atmcp/services/tasks.py:273-281 | Done is not final: a step takes a done task out of done if and only if it is a fail, a release or a status-changing progress report by its assignee under its current token |
| TaskSafety.DoneCanBeReleased | atmcp/services/tasks.py:367-376 | The run create, claim, complete, release from the empty board, after which the completed task is open under its old token |
| TaskSafety.DoneCanBeFailed | atmcp/services/tasks.py:326-343 | The run create, claim, complete, fail, after which the completed task is open with one attempt more and no ledger row records a failure |
| TaskSafety.DoneUntilReopened | atmcp/services/tasks.py:276-281 | Without such a call a completed task keeps its status, holder, token and attempts through any run of any other steps |
| TaskSafety.ZombieRejected | atmcp/services/tasks.py:219-222 | Once a claim (agent, token) was held and lost, no later state of any run lets a call presenting it change anything, even after the same agent claims again |
| Leases.ReapedExactlyWhenPromiseRanOut | atmcp/reaper.py:39-56 | After any run, a re-check takes a task away if and only if it is claimed or in progress and the last claim, progress or heartbeat that wrote its lease at time w with ttl t has w + 1000*t before the re-check |
| Leases.SweepIsComplete | atmcp/reaper.py:27-75 | A sweep nothing interrupts, on a clock that never falls behind the scan, strikes exactly the overdue tasks and leaves none overdue |
| Leases.SweptBoardIsReachable | atmcp/reaper.py:36-38 | A sweep of a reachable board, with any steps of other callers before each re-check, is a run of separate reaper steps among theirs and leaves a reachable board |
| Scheduling.EligibilityTestsAgree | atmcp/services/tasks.py:33-40 | The queue query and the claim's own dependency check accept the same tasks, dangling dependencies included |
| Scheduling.NextMeans | atmcp/services/tasks.py:176-186 | The task handed out is ready, no ready one of the team has a higher priority, and none of equal priority is older; and any such task may be |
| Scheduling.QueueNeverStuck | atmcp/services/tasks.py:176-188 | The queue always has an answer, none only if nothing is claimable, and whatever it answers the inner claim accepts |
| Scheduling.CompletionUnblocks | atmcp/services/tasks.py:296-307 | After a completion the claimable set is the old one together with the reported list; disjoint when the task was not done before, and nothing new when it was; other teams unchanged |
| Scheduling.UnblockedHasNoDuplicates | atmcp/services/tasks.py:296-305 | The query behind that list joins tasks with dependency rows and still yields each unblocked task exactly once |
| Cycles.CreateClosesExactly | atmcp/services/tasks.py:85-89 | On an acyclic board a creation closes a cycle if and only if a dependency it names is its own id or already waits for that id, directly or through others |
| Cycles.AcyclicExactly | atmcp/services/tasks.py:71-89 | A reachable board has no dependency cycle if and only if none of the creations that led to it closed one in that sense |
| Cycles.NoCycles | atmcp/services/tasks.py:71-89 | So if every new id is fresh against the ids already named as dependencies, no reachable board has a cycle |
| Cycles.GuessedIdCloses | atmcp/services/tasks.py:85-89 | Two tasks created with each other's id, a concrete cycle with nothing claimable |
| Cycles.CyclesWaitForever | atmcp/services/tasks.py:101-127 | A task on a cycle is open and has never been claimed, on that board and after every later run |
| Draining.BoardDrains | atmcp/services/tasks.py:167-194 | From any reachable board of open and done tasks without dangling dependencies or cycles in the team, n open tasks are finished by exactly n rounds of claim-next and complete, whoever plays and however ties fall; no round is empty, no task is played twice, each comes after all its dependencies |
| Draining.RoundsExist | atmcp/services/tasks.py:176-188 | Such rounds exist in any number on any board, since the queue always answers |
| Draining.DrainsExactlyWhenAcyclic | atmcp/services/tasks.py:253-307 | Without the assumption on cycles: those rounds drain the team's board if and only if no task of the team is on a cycle |
| Isolation.OtherTeamsAreInvisible | atmcp/services/tasks.py:101-391 | Non-interference: a team's tasks, dependencies, ledger and log after any run are what they would be if the other teams' steps were deleted from it |
| Idempotency.RetryReturnsStored | atmcp/idempotency.py:19-34 | Once a reply is stored, every later call that reaches the check under its key, by any tool after any run, returns it and leaves every table unchanged, until a pruning passes it |
| Idempotency.SavedStays | atmcp/idempotency.py:27-41 | A stored reply is never overwritten, and goes only when a pruning's cutoff passes its time |
| Idempotency.ExactlyOnce | atmcp/idempotency.py:1-7 | For tool bodies that change nothing when their reply is not stored: a run ends in the very state it would have had with only one of the calls under a key, or none if none was stored, and at most one of them changed any table, as long as no pruning reaches back to them |
| Idempotency.DishonestRepeats | atmcp/idempotency.py:27-34 | The assumption is needed: a body that changed tables without storing its reply would run again on each retry |
| TaskReplies.TaskToolsAreHonest | atmcp/services/tasks.py:58-312 | The keyed task tools satisfy it |
| Idempotency.KeysAreScoped | atmcp/idempotency.py:28-34 | Equal keys of different teams or agents stay apart; an absent or empty key is none |
| Idempotency.CallMeans | atmcp/services/tasks.py:153-160 | A call replays the reply stored under its key, or does its work once and stores under its own key and no other |
| Idempotency.PruneMeans | atmcp/idempotency.py:37-41 | Pruning deletes exactly the replies stored before its cutoff |
| TaskReplies.CreateAnswered | atmcp/services/tasks.py:90-97 | The reply names the task and the position of its creation event in the log |
| TaskReplies.ClaimAnswered | atmcp/services/tasks.py:104-148 | A claim answered ok can be used: the caller holds the task under the token in the reply, which is the old one plus one, with the lease in the reply, and the last ledger row carries it; a refusal says unknown, not open and whose, or exactly which dependencies are pending, and changes nothing |
| TaskReplies.NextAnswered | atmcp/services/tasks.py:188-194 | None exactly when no task of the team is ready, otherwise such a claim of a ready task that none beats |
| TaskReplies.CompleteAnswered | atmcp/services/tasks.py:296-307 | The reply has the position of the completion event and exactly the tasks that are ready afterwards and have a dependency on the completed one; a refusal names the current token and assignee |
| TaskReplies.CompletionReports | atmcp/services/tasks.py:296-307 | The list in the reply is what is ready after a first completion and was not before; completing a done task again lists the tasks ready before that depend on it |
| TaskStore.TaskStore.CreateTask | atmcp/services/tasks.py:58-98 | Inserts the task and its dependencies row by row and answers as above, or replays the stored reply with nothing done, or rolls back on a key conflict; a reachable board stays reachable |
| TaskStore.TaskStore.ClaimNextTask | atmcp/services/tasks.py:167-194 | Replays a stored reply with nothing done, or answers as above: none exactly when nothing is ready, else a usable claim of an unbeaten task |
| TaskStore.TaskStore.DoClaim | atmcp/services/tasks.py:101-148 | Leaves the specified tables and answers as above: a usable claim, or the reason against it in terms of the tables |
| TaskStore.TaskStore.UpdateProgress | atmcp/services/tasks.py:200-250 | The holder's report leaves the specified tables and is answered with the row's new status and lease; anyone else is refused with the current token and assignee and nothing changes |
| TaskStore.TaskStore.CompleteTask | atmcp/services/tasks.py:253-312 | Keyed completion with the list as above, on a first completion exactly what it made ready |
| TaskStore.TaskStore.FailTask | atmcp/services/tasks.py:315-356 | Counts the attempt and requeues or dead-letters |
| TaskStore.TaskStore.ReleaseTask | atmcp/services/tasks.py:359-391 | Gives the task back and closes the holder's row |
| TaskStore.TaskStore.HeartbeatOf | atmcp/services/presence.py:52-62 | The loop renews exactly the caller's claimed and in-progress tasks, as HeartbeatMeans says; heartbeat_named runs the same loop |
| TaskStore.TaskStore.LeaveTeam | atmcp/services/identity.py:143-182 | The loop requeues exactly the caller's claimed and in-progress tasks, each once, with one event each |
| TaskStore.TaskStore.SweepOnce | atmcp/reaper.py:27-75 | The sweep loop over all tasks overdue at its scan, with any steps of other callers before each re-check; its count is the number of re-checks that took a task, all of them and nothing left overdue if nobody else is at work and the clock does not fall behind |
| Paging.PagesAreTheStream | atmcp/services/output.py:61-96 | For any limits and any commits and prunings between pages, the pages so far followed by what is still unread are exactly the stream after the start cursor, in order, less the rows pruned before a page reached them |
| Paging.SyncIsExactlyOnce | atmcp/services/status.py:50-57 | Over the unpruned log the pages are a gapless prefix of the team's log, and all of it once a page comes back short |
| Paging.HeadCursorLosesTheRest | atmcp/services/status.py:57 | Continuing from the returned head instead loses exactly the rows after the page, so it is lossless if and only if the head is not past the last id returned, which the caller can check |
| Paging.HeadCursorSkipsARow | atmcp/services/status.py:13-16 | A concrete log on which it loses a row |
| OutputStore.OutputStore.AppendOutput | atmcp/services/output.py:18-58 | Appends one truncated chunk under the next id, keeping only tags of the writer's own team and thread; for every tailing reader it is one insertion |
| OutputStore.TagsMean | atmcp/services/output.py:29-46 | A directive tag is kept exactly if it names a directive of the team, a session tag exactly if it names a session of the team and the agent |
| OutputStore.OutputStore.GetOutput | atmcp/services/output.py:68-89 | With any insertions and prunings of other callers while it waits and before it asks for the head: for every reader at that cursor the reply is its next page, so exactly-once paging holds of it; the page has the agent's chunks past the cursor in order, leaving one out only past the last of a full page; the head bounds the chunks left and is below the page's last id if and only if every chunk from that id on is gone |
| OutputStore.HeadFallsBehind | atmcp/services/output.py:85-89 | A chunk that is returned and pruned before the head is read leaves the head at zero beside it |
| OutputStore.OutputStore.PruneExpired | atmcp/services/output.py:92-96 | Deletes the chunks older than the cutoff and counts them; for every tailing reader it is one pruning |
| Paging.PageHas | atmcp/events.py:54-59 | A page without its query: which rows it holds, in what order, and when it leaves one out |
| Paging.LimitsMean | atmcp/services/status.py:50-55 | A limit within the cap is honoured, zero means 200, a larger one is cut to the cap and a negative one raised to one |
| LongPoll.EmptyAnswerMissedNothing | atmcp/mcp_server.py:323-330 | Whenever a long poll comes back empty, by any of the four calls, there was a moment when nothing it asked for was both committed and published: the answer itself, or the expiry of its wait, after which it only came back |
| LongPoll.PublishedAfterExpiryIsMissed | atmcp/hub.py:113-118 | The gap between expiry and answer is real: an event published in it is missed |
| LongPoll.PublishedItemIsDelivered | atmcp/hub.py:106-118 | If something the first read missed, be it an event, a chunk, a directive sent or a directive ended, is committed and published before the wait expires, the wait never expires and the call answers with its second read, in any interleaving; that read is not empty and has the item, unless its page is full of items the missed one does not come before, or before that read the chunk was pruned or the listed directive claimed or ended |
| LongPoll.PageExists | atmcp/services/directives.py:97-105 | Every read has a page to return: as many items as the limit allows, none beaten in the query's order by one left out |
| LongPoll.LimitsMean | atmcp/services/directives.py:97-105 | The same of the four calls, an inbox having default 20 and cap 100 |
| LongPoll.LimitLeavesOut | atmcp/services/status.py:50-55 | The limit does leave a published event out of the second read: of two events a caller with limit one is given the first |
| LongPoll.NewIsUnpublished | atmcp/services/output.py:47-57 | Whatever a step makes visible to any of the four queries is unpublished after it, until the publication of its own transaction or its own tick |
| LongPoll.Hub.Dispatch | atmcp/hub.py:76-87 | One publication bumps each team of its batch exactly once and no other, as publishing the batch's notices one by one does |
| LongPoll.PublishingBumps | atmcp/hub.py:83-87 | Publication steps one after the other bump the counters by exactly the pending notices they take |
| LongPoll.CommitIsUnpublished | atmcp/db.py:151-166 | Every event a commit adds is unpublished for its team until that team's notice is published, which may come out of order |
| Memory.CachesAgree | atmcp/services/memory.py:37-77 | The team clock counts the team's history rows, a version counts its key's rows, clocks grow along the history, and the current row is the history row with the greatest clock |
| Memory.SetMeans | atmcp/services/memory.py:37-77 | A write lands exactly if it expects no version or the row's (zero without a row): one history entry with the next version and the team's next clock, which becomes the current row, and nothing else; otherwise no table changes |
| Memory.LastWriterWins | atmcp/services/memory.py:1-7 | A register holds the value and writer of the last write that landed, and its version counts those that did |
| Memory.OneWinnerPerVersion | atmcp/services/memory.py:43-53 | Over a whole run at most one compare-and-set per key lands for any given version |
| Memory.MemoryStore.SetMemory | atmcp/services/memory.py:21-81 | Answered written, with the row's version and clock, exactly when it expects no version or the row's, and then it lands; otherwise the conflict with the current row and version, and nothing changes |
| Memory.MemoryStore.BumpClock | atmcp/services/clock.py:9-15 | Inserts the team's clock at one or increments it |
| Knowledge.CachesAgree | atmcp/services/knowledge.py:40-83 | In every reachable state the contributions are the additions in the log, and an entry's presence, latest event, contributor count, first author and number of index rows are those the record gives |
| Knowledge.PostMeans | atmcp/services/knowledge.py:40-83 | A post logs the addition, adds one contribution, leaves the entry present with the number of its different authors and its first author, and indexes it once; other entries are untouched |
| Knowledge.RetractMeans | atmcp/services/knowledge.py:165-181 | A retraction of a known entry logs it, leaves the entry absent with that as its latest event and out of the index, and keeps contributions and other entries; of an unknown one it changes nothing |
| Knowledge.KnowledgeStore.PostKnowledge | atmcp/services/knowledge.py:21-92 | One addition, with the reply's dedupe flag and distinct contributor count |
| Knowledge.KnowledgeStore.RetractKnowledge | atmcp/services/knowledge.py:155-185 | Tombstones a known entry and drops it from the index, refuses an unknown one |
| Directives.EveryLife | atmcp/services/directives.py:127-252 | The events about a directive are always one of sent, sent-claimed, sent-ended, sent-claimed-ended, or none, and its status is the one they lead to |
| Directives.OneWinner | atmcp/services/directives.py:141-147 | Over any run from any state at most one claim of a directive is answered ok |
| Directives.FinalForever | atmcp/services/directives.py:19 | Done, failed and canceled directives never change and get no further event |
| Directives.SendMeans | atmcp/services/directives.py:53-88 | A directive goes from the caller to the resolved target, pending, with its session exactly if that is the target's own, and one event |
| Directives.ClaimMeans | atmcp/services/directives.py:132-147 | A claim takes exactly a pending directive of the team addressed to the caller |
| Directives.ReportMeans | atmcp/services/directives.py:168-197 | A report of done or failed ends exactly a pending or running directive of the team addressed to the caller |
| Directives.CancelMeans | atmcp/services/directives.py:226-252 | A cancellation ends exactly a pending or running directive of the team sent by the caller |
| Directives.DirectiveStore.ReportDirective | atmcp/services/directives.py:159-209 | Accepts exactly a done or failed report by the receiver of an unfinished directive, with the refusal reason otherwise |
| Directives.DirectiveStore.CancelDirective | atmcp/services/directives.py:226-252 | Accepts exactly a cancellation by the sender of an unfinished directive |
| Hosts.LanesNeverShared | scripts/atmcp_workbench_host.py:777-805 | In any interleaving of polls, claims, lost answers, completions and callbacks: a lane is in the dictionary exactly while one of its turns is live or not yet called back, each live turn is the one its lane names, no two share a lane, and those turns number at most max_concurrent |
| Hosts.LanesAreSessions | scripts/atmcp_workbench_host.py:794 | Different sessions have different lanes, and directives without a session share one, which only a session of that very name would share too |
| Hosts.TurnsEnd | scripts/atmcp_workbench_host.py:782-785 | A turn that ends keeps its lane until it is called back; then it is gone and its lane is free, if it was still its own, and no other |
| Hosts.StartedAtMostOnce | scripts/atmcp_workbench_host.py:799-803 | With any number of hosts and pollers no directive is started twice, and the host that started one is the host whose claim of it won, a claim the bus recorded |
| Polling.LaneHost.PollOnce | scripts/atmcp_workbench_host.py:793-805 | One pass over an inbox, with any of the host's turns ending and being called back while each claim is awaited, leaves exactly the host and the started offers of the specified pass |
| Polling.OfferFate | scripts/atmcp_workbench_host.py:794-803 | With the host as it is when an offer is reached: the offer is started if and only if the pass was not broken off, no turn of its lane is unfinished, there is room and its claim is won; the pass breaks off exactly at a free lane without room |
| Polling.OneLaneTwiceOnlyIfFreed | scripts/atmcp_workbench_host.py:782-797 | Two offers of one lane are both started in a pass only if the first one's turn was called back while a claim between them was awaited |
| Polling.OneLaneTwiceInAPass | scripts/atmcp_workbench_host.py:799-804 | An inbox and a schedule for which that happens |
| Polling.PassIsRun | scripts/atmcp_workbench_host.py:787-805 | A pass amid any steps of other hosts, callers and its own turns, each claim served in time, served late or never served, is a run of the hosts' world, so the lane and at-most-once theorems hold at every point inside it |
| Poller.Poller.Execute | scripts/atmcp_worker_poller.py:423-450 | At most max(0, max_retries)+1 attempts, none begun over budget, every one metered; it stops only at success, a permanent failure, the last retry or the budget |
| Poller.Poller.Serve | scripts/atmcp_worker_poller.py:395-461 | Over any polls, a poll is executed, with one attempt at least, if and only if it has work and the budget is not reached then; the total is the loaded total plus every metered attempt, no attempt began over budget, and with a positive budget the total less the last attempt's usage is below it |
| Poller.OverBudgetMeans | scripts/atmcp_worker_poller.py:163-170 | The brake is on exactly when a positive budget is used up |
| Poller.AttemptAdds | scripts/atmcp_worker_poller.py:430-434 | An attempt adds its own tokens and cost to the total, or nothing if it reported no usage |

## Left out

- Redis leases, heartbeats and streams: soft state the task steps never read.
- HTTP, MCP and WebSocket plumbing, dashboards, console commands, sessions, goals, usage reports and the Command Guard: no protocol state of their own, or only easy members.
- `join_team` and the agents table: identity is the stable pair of team and agent id in every call; `agents.current_task_id` and presence are display fields no step reads back.
- The `race_lost` branches of the two claims: the conditional UPDATE cannot miss under the single-writer lock.
- LongPoll.PublishedItemIsDelivered: takes from asyncio that a waiter which was notified resumes before the timer of its wait can expire; a cancellation of the whole call is not modelled. What the limit leaves out of the second read is on a later page, by `Paging.SyncIsExactlyOnce` for events and output; an inbox has no cursor and is read again.
- Idempotency keys on memory, knowledge and directive calls: their classes model the work; `Idempotency` is proved for any such work and the task tools instantiate it.
- Knowledge: stripping, lower-casing and hashing are taken as given, so an entry's identity is its content and its tags are a set; search ranking is the library's.
- Memory: values are opaque strings; the `memory_set` event is not repeated in the register's state.
- TaskStore.TaskStore.SweepOnce: the steps of other callers act on the task tables; their effect on the idempotency table during a sweep is not modelled.
- Polling.LaneHost.PollOnce: the long poll for the inbox, the heartbeat before it and what a turn executes are outside; an offer is its id and session.
- Poller.Poller.Execute: costs are exact reals, so floating-point rounding and the six-digit rounding of the saved total are not modelled; backoff sleeps and executor processes are outside.
- `tasks.last_event_id` and `list_tasks`: no task step writes that column, so nothing is stated about them.
- SQLite itself: auto-increment ids are taken as increasing in commit order, and a constraint violation as a rollback.
