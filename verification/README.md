# Verification of the Clawee server's stateful cores

This project models the parts of the Clawee server whose correctness lies in bookkeeping
over many calls: the store of feedback reports with its uploads and cleanup, the reader
that pages through a report's records, the broker that hands tasks to collectors, the
gates that hold tool calls back until they are confirmed, the listing and checking of
tools, the merging of accounts, the collection of business data and the dashboard over it,
the grants on data resources with their audit log, and the billing figures. It proves what
they keep over every run and every input.

`dafny verify dfyconfig.toml` checks the whole project.

## How it is built

Every core has the same three layers.

- The state of the core as a value, and for each transaction, critical section or loop a
  function that says what it does, error cases included (`Broker.dfy`, `Feedback.dfy`,
  `Reader.dfy`, `Gates.dfy`, `AccountTables.dfy`, `Sync.dfy`, `DataGrants.dfy`).
- Classes and methods that change the fields in place with the source's own branches and
  loops, each proved equal to its function and to do what it promises over the fields it
  works on (`CollectorBroker.Broker`,
  `FeedbackService.Store`, `FeedbackReader.Read`, `Gates.GateStore`,
  `AccountTables.GovernanceStore`, `Sync.BusinessStore`, `DataGrants.DataGrantStore`,
  `Manifest.Validate`, `Dashboard.BilibiliView`, `ToolAccess.CheckCall`,
  `Billing.ValidateSnapshot`).
- Worlds that add what runs around those functions (object storage and uploads, sleeping
  pullers, racing requests with the tables they read, drivers of sync runs), the events
  that can happen, and theorems about every world that some list of events reaches
  (`BrokerRuns`, `FeedbackRuns`, `ReaderPaging`, `GateRuns`, `GateDecisions`, `AccountMerge`,
  `SyncRuns`, `DashboardTotals`, `DataGrantRuns`). Requests and drivers may stop for good at any step.

A step of a request to a gate needs the shape that its earlier steps left;
`GateRuns.RequestsCanGoOn` shows that this keeps no request from its next step.

History that the theorems need (who claimed what, the latest key of an artifact, the
moments at which something was read) is kept in the worlds only.

## What is assumed

- Tokens, leases, ids and claim ids drawn at random are new, and drawing one does not fail:
  `crypto/rand` stops the process rather than return an error, from Go 1.24 on. A hash is as
  good as what it is taken of, so tokens and request contents are compared directly; an
  expired report keeps its client's name where the code keeps the hash of it.
- A transaction is one atomic step with one reading of the clock; one whose commit is not
  reported has had no effect. The clock does not go back.
- The object storage keeps at most the declared size, reports the size and digest it kept,
  and removes an object whose deletion it reports as successful.
- An upload stores its object before its compensation task falls due: the code allows 4
  minutes for storing against 15 for the task. The theorems of `FeedbackRuns` are about runs
  (`Reachable`) in which it also commits by then; `FeedbackRuns.ObjectsNeedTimelyCommits` is
  about all.
- A cleanup task that could not be finished is put off only if its row is still there, as
  in the database store; the in-memory store puts the row back.
- Gates follow the in-memory store. The database store does not keep the endpoint of a
  gate.
- Ids and texts arrive trimmed. Dates are those of the fixed zone UTC+8. The database and
  the service order ids alike. All accounts of a dashboard are read with one range.
- Encrypted arguments are known by what they decrypt to.
- The time for an answer to a waiting call is counted from the creation of its gate: the
  limit on the question with whatever passes before it is asked.

Nothing is claimed about progress: reservations that are released in the end, gates that
leave their execution, or sleeping pullers that run again.

## Findings

- `ReaderPaging.PagingEnds`: paging does not end on a matching line that is ill formed more
  than 16 KiB before its end; `ReaderPaging.PagingCanStall` gives such a line, of a kind that
  the check of an upload takes for JSON.
- `GateRuns.AnswersNeedNoExpiry`: a user's answer to the waiting call is not held against the
  gate's expiry. With the time limit of 60 seconds it needs not be; it would with one of
  more than thirty minutes, as `GateRuns.LateAnswer` shows.
- `AccountMerge.MergeSucceeds`: an account cannot be merged away, although no check says so,
  once it made or changed a workflow template, started a workflow, took part in one or was
  given a task of one, began an approval with an outside service, or was asked in a request
  for approval; `AccountMerge.RecordedAccountStays`.
- `AccountMerge.ApproversAreLost`: whom a space is set to ask for approval is not moved to the
  target and goes with the source; `AccountMerge.ApproverLost`.
- `DataGrantRuns.UsersWithoutReading`: writing alone to a skill space and mcp alone on a
  knowledge base can be granted without reading, and nothing else can;
  `DataGrantRuns.UserWithoutReading`.
- `FeedbackRuns.ObjectsNeedTimelyCommits`: received artifacts keep their objects in all runs
  if and only if uploads commit before their compensation tasks fall due, 15 minutes after
  they began, which nothing enforces; `FeedbackRuns.LateCommitLosesTheObject`.
- `Billing.DailyTrendIsWhole`: what daily points off midnight count is left out of the filled
  trend, although they pass the check; `Billing.DailyPointLost`.

## Model

| member | source | states |
|---|---|---|
| `CollectorBroker.Broker.SubmitTask` | server/internal/collectorpull/broker.go:80-103 | a submission is refused as invalid just when collector, server or tool is blank, and as busy just when the collector has four tasks in flight; otherwise a task with just its contents waits at the end of the collector's queue, and the collector is woken |
| `CollectorBroker.Broker.PullOnce` | server/internal/collectorpull/broker.go:124-147 | one look at a queue drops stale entries, and then claims the first waiting task, or hands out the collector's open wakeup channel |
| `CollectorBroker.PullMeans` | server/internal/collectorpull/broker.go:187-206 | a pull passes over just what cannot be claimed, and hands out the first task that can, unchanged but for its claim id and out of its queue; with none left it waits and changes no task |
| `CollectorBroker.Broker.CompleteTask` | server/internal/collectorpull/broker.go:149-185 | each refusal has just its cause; a completion of a task finished within ten minutes is answered from memory, and any other sends just its result once and moves the task from the tasks to the finished ones |
| `CollectorBroker.Broker.CancelTask` | server/internal/collectorpull/broker.go:208-226 | a submitter that gives up takes its task away, and just its first place in the queue when it still waits there |
| `CollectorBroker.Broker.CleanupFinished` | server/internal/collectorpull/broker.go:254-261 | just the completions older than the retention time are forgotten |
| `BrokerRuns.ClaimsFollowSubmissions` | server/internal/collectorpull/broker.go:80-226 | over every run, the claimed tasks of a collector followed by its queue are its submitted tasks that were not withdrawn, in order of submission; no task is claimed twice, and at most four are in flight |
| `BrokerRuns.QueueIsTheWaitingTasks` | server/internal/collectorpull/broker.go:187-226 | over every run, queue entries are exactly the waiting tasks of the collector, each once; a task given up is gone, and no task is both in hand and finished |
| `BrokerRuns.DeliveriesAreAsSubmitted` | server/internal/collectorpull/broker.go:87-99 | over every run, whatever waits, is claimed or was ever handed out has the server, tool, trace and arguments of its submission, goes to the collector it was submitted for, and has the ids drawn for it |
| `BrokerRuns.PullHandsOutTheFirst` | server/internal/collectorpull/broker.go:187-206 | in every reachable state a pull of a collector that has work hands out the first task in its queue, as submitted and under the claim id drawn |
| `BrokerRuns.OneResultPerTask` | server/internal/collectorpull/broker.go:102-121 | a submitter receives at most one result, for its own task and under the claim id handed out; a task in hand has an empty result channel, so sending under the mutex never blocks |
| `BrokerRuns.NobodySleepsThroughWork` | server/internal/collectorpull/broker.go:129-146 | no lost wakeup: a puller that still sleeps on an open channel has an empty queue |
| `BrokerRuns.SignalClosesOpenChannels` | server/internal/collectorpull/broker.go:238-252 | the channel about to be closed is never closed already |
| `BrokerRuns.CompletionIsIdempotent` | server/internal/collectorpull/broker.go:163-171 | within ten minutes, repeating a completion gives its claimant success and anyone else a conflict, and sends nothing |
| `BrokerRuns.CompletedForGood` | server/internal/collectorpull/broker.go:163-184 | a completed task is never sent a second result, however late |
| `Manifest.Validate` | server/internal/feedback/protocol.go:144-212 | the loops over artifacts and watermarks accept exactly the well-formed manifests and give the total size, or the reason for refusal |
| `Manifest.PartsAreNumbered` | server/internal/feedback/protocol.go:147-156 | the parts of a source are numbered from 1 without a gap |
| `Manifest.RangesTileTheSource` | server/internal/feedback/protocol.go:161-166 | in a complete manifest the record ranges given for a source follow one another from record 1 to the number of records in the artifacts that give one, which is all its records when all do |
| `Manifest.RecordHasItsArtifact` | server/internal/feedback/protocol.go:161-166 | every record of a source up to its last one lies in exactly one artifact |
| `Manifest.AcceptedSizes` | server/internal/feedback/protocol.go:151-167 | accepted artifacts are distinct and of positive size |
| `FeedbackService.Store.CreateReport` | server/internal/feedback/service.go:98-179 | each refusal has just its cause; creating resumes the client's report for the holder of its recovery token with the same request, or files a new one, with everything declared and nothing uploaded, whose bytes fit what the capacity leaves |
| `FeedbackService.Store.RecoverReport` | server/internal/feedback/service.go:180-201 | recovering succeeds just for the holder of the recovery token of an unexpired report that is open or submitted; for one not submitted only the new upload token is accepted from then on, for its time, and nothing else changes |
| `FeedbackService.Store.Begin` | server/internal/feedback/service.go:248-298 | each refusal has just its cause: token, life, state, artifact, declaration, cleanup pending, or uploads under way; otherwise the artifact is leased for five minutes and its compensation task written for in fifteen |
| `FeedbackService.Store.Abort` | server/internal/feedback/service.go:324-343 | a failed upload gives back its own lease only, and its task once the object is known to be gone |
| `FeedbackService.Store.Commit` | server/internal/feedback/service.go:346-375 | just an upload that still holds its lease of an open, unexpired report commits: its artifact is received under its key, a verdict of quarantine sticks to the report, and the task goes |
| `FeedbackService.Store.SubmitReport` | server/internal/feedback/service.go:424-462 | each refusal has just its cause: token and its time, life, manifest, consent, state, a missing artifact; a first success makes the report ready for thirty days, a repeated one changes nothing |
| `FeedbackService.Store.OperateOn` | server/internal/feedback/service.go:569-645 | each refusal has just its cause; the first event for the same request answers it, and otherwise an allowed operation on the expected version makes just its change and records it |
| `FeedbackService.Store.ExpirePass` | server/internal/feedback/service.go:686-740 | the expired reports are emptied, or deleted when they have been; their stored keys get tasks, and nothing else does; a reservation ends just when no task is left; other reports stay |
| `FeedbackService.ExpireAllSweeps` | server/internal/feedback/service.go:691-740 | the same for every list of reports handled one after another |
| `FeedbackService.Store.AddCleanupTasks` | server/internal/feedback/postgres_store.go:235-241 | a task is added for each stored artifact whose key has none |
| `FeedbackService.Store.Finish` | server/internal/feedback/service.go:750-773 | a failed attempt is put off by a minute; after a successful one the task goes, and an expired report's reservation just when none of its tasks is left |
| `FeedbackService.Store.ReservedBytes` | server/internal/feedback/store.go:210-216 | the reserved bytes are the sum over all reports |
| `FeedbackService.Store.HasPendingObject` | server/internal/feedback/store.go:146-153 | whether some task is for an object of the artifact |
| `FeedbackService.Store.HasPendingCleanup` | server/internal/feedback/store.go:138-145 | whether some task names the report |
| `FeedbackService.Store.FindClient` | server/internal/feedback/store.go:201-208 | the report of a client, if there is one |
| `FeedbackService.Store.ExpiredReports` | server/internal/feedback/postgres_store.go:31-50 | the reports to expire or to delete, up to a hundred, in the order in which they expire and none before one that is left for later |
| `FeedbackRuns.StorageWithinReservation` | server/internal/feedback/service.go:153-172 | in every reachable state the bytes stored are at most the bytes reserved, and those at most the capacity |
| `FeedbackRuns.EveryObjectIsAccountedFor` | server/internal/feedback/service.go:243-298 | a stored object belongs to a received artifact of an unexpired report or has a cleanup task, and no key both |
| `FeedbackRuns.ReceivedArtifactsAreStored` | server/internal/feedback/service.go:346-371 | every received artifact has its object, of the declared size and digest |
| `FeedbackRuns.ReadyReportsAreWhole` | server/internal/feedback/service.go:447-455 | a ready report was submitted and has all of its artifacts in storage |
| `FeedbackRuns.CleanupTasksNameReports` | server/internal/feedback/service.go:748-775 | every cleanup task names a report that exists and holds its reservation, so that finishing it never aborts |
| `FeedbackRuns.ReleasedReportsAreEmpty` | server/internal/feedback/service.go:728-734 | a reservation is given up only when no task and no object of the report is left |
| `FeedbackRuns.AtMostTwoLeases` | server/internal/feedback/service.go:259-292 | a report has at most two unexpired leases |
| `FeedbackRuns.LeasedArtifactsHaveNoObject` | server/internal/feedback/service.go:280-286 | an artifact is leased again only when no object of it is left |
| `FeedbackRuns.SlotsMove` | server/internal/feedback/service.go:324-375 | only the holder of its lease moves an artifact to received or back to declared; a received one stays |
| `FeedbackRuns.StatesMoveForward` | server/internal/feedback/service.go:691-737 | a report goes from uploading to ready to expired, never back |
| `FeedbackRuns.EventsAreAChain` | server/internal/feedback/service.go:596-637 | the events of an unexpired report are one gapless chain of versions and statuses up to its present one, without a request recorded twice, and it has a time of resolution exactly while resolved |
| `FeedbackRuns.RepeatedOperation` | server/internal/feedback/service.go:596-604 | repeating a recorded request answers as the first time and changes nothing; with other content it conflicts |
| `FeedbackRuns.OneReportPerClient` | server/internal/feedback/service.go:110-127 | a client has at most one report |
| `FeedbackRuns.ObjectsNeedTimelyCommits` | server/internal/feedback/service.go:346-375 | in all runs every received artifact has its object, if and only if uploads commit within 15 minutes of their beginning, when their compensation task falls due |
| `FeedbackRuns.LateCommitLosesTheObject` | server/internal/feedback/service.go:346-375 | with more time for a commit, a run in which one succeeds for an artifact whose object a cleanup pass has removed |
| `FeedbackCalls.RunKeeps` | server/internal/feedback/store.go:164-190 | every event of every run keeps the whole invariant |
| `Utf8.SoundAfterPrefix` | server/internal/feedback/reader.go:139-148 | cutting a valid prefix off a text takes just its length off the well-formed part (sequences as in section 4 of RFC 3629) |
| `Utf8.CutProgress` | server/internal/feedback/reader.go:139-148 | backing off to a valid prefix keeps something just when the text starts with a well-formed character |
| `Utf8.CutLosesLittle` | server/internal/feedback/reader.go:139-148 | inside the well-formed part the cut backs off by three octets at most |
| `FeedbackReader.Shorten` | server/internal/feedback/reader.go:138-147 | the loop finds the longest valid prefix within one fragment |
| `FeedbackReader.ReadLine` | server/internal/feedback/reader.go:91-157 | one turn over a line: end of part, refusal of a cursor behind the line, a line passed over, a fragment or the rest of a line |
| `FeedbackReader.ReadFrom` | server/internal/feedback/reader.go:82-166 | the nested loops read on move by move until nothing is left, a limit is reached or a record breaks off inside its line, and give pieces of matching lines only |
| `FeedbackReader.Read` | server/internal/feedback/reader.go:48-172 | filter, parts and cursor are checked in this order; the parts are just those of the kind and id asked for, in order; reading starts at the cursor; a page has at most the records asked for (a hundred, or five hundred), from at most 500 lines, and breaks off only at a limit or inside a line |
| `FeedbackReader.FirstPageIsPage` | server/internal/feedback/reader.go:78-170 | the same for every page, from wherever it starts |
| `FeedbackReader.MatchesMeans` | server/internal/feedback/reader.go:113-136 | a line matches just when it contains the keyword and passes the filters |
| `ReaderPaging.LinesTileContent` | server/internal/feedback/reader.go:90-102 | the reference lines of a part, joined by newlines, are its content |
| `ReaderPaging.LinesAreSingle` | server/internal/feedback/reader.go:90-102 | no reference line has a newline inside |
| `ReaderPaging.OnePage` | server/internal/feedback/reader.go:78-172 | a page is never refused where the last one left off; the next cursor lies strictly further on and no record is lost or repeated in between |
| `ReaderPaging.PagingEnds` | server/internal/feedback/reader.go:138-166 | whatever limits the pages ask for, paging comes to an end if and only if every matching line is well formed to within one fragment of its end |
| `ReaderPaging.PagesGiveTheMatchingLines` | server/internal/feedback/reader.go:78-170 | paging that has ended gave every matching line of every selected part once, in order, its fragments joining up to the whole line |
| `ReaderPaging.FragmentsAreLong` | server/internal/feedback/reader.go:138-147 | a fragment of a well-formed line is valid and falls short of its full length by three octets at most |
| `ReaderPaging.PagingCanStall` | server/internal/feedback/reader.go:138-155 | a line of JSON with a long text of ill-formed octets, on which paging never ends |
| `Grants.DecideGrant` | server/internal/mcpgateway/grants.go:5-28 | the first current grant for just this use decides; a refusal says whether one had expired |
| `Gates.GateStore.UpdateGateDecision` | server/internal/mcpgateway/store.go:701-729 | a gate is decided only from the status expected, and nothing else changes |
| `Gates.GateStore.UpdateGateExecution` | server/internal/mcpgateway/store.go:731-762 | an execution moves on only from the status expected, is told whether the gate is missing or elsewhere, and leaves the call held back and the decision alone |
| `GateRuns.RestoreUndoesProtect` | server/internal/mcpgateway/service.go:1564-1602 | what a gate stores gives back exactly the arguments asked for |
| `GateRuns.StoredArguments` | server/internal/mcpgateway/service.go:1564-1602 | a knowledge search is held back only with a query, which is stored encrypted; all other arguments are stored as they are |
| `GateRuns.PreparedIsSent` | server/internal/mcpgateway/service.go:1330-1340 | arguments are sent as they are, but for a knowledge search, whose query is trimmed and whose number of results defaults to five |
| `GateRuns.RunKeeps` | server/internal/mcpgateway/service.go:1050-1438 | every event of every interleaving keeps the whole invariant |
| `GateRuns.OneCallPerGate` | server/internal/mcpgateway/service.go:1261-1278 | at most one call is ever sent for a gate |
| `GateRuns.CallsAreAsAsked` | server/internal/mcpgateway/service.go:1330-1395 | a call follows an acceptance and carries the original arguments, to the tool that then held the exposed name asked for, on the same server and with the same schema |
| `GateRuns.CallsAreAuthorised` | server/internal/mcpgateway/service.go:1279-1337 | between acceptance and call the agent that asked was active, its owner valid, the tool active, its use granted and the server active, each found so in its turn |
| `GateRuns.CompletedMeansReturned` | server/internal/mcpgateway/service.go:1395-1437 | a completed gate had its call, the call returned, and the gate keeps its answer, or of a knowledge search the projection or the fixed text for an error |
| `GateRuns.NothingSentBefore` | server/internal/mcpgateway/service.go:1050-1081 | nothing has been sent for a gate that is pending, accepted, rejected or expired |
| `GateRuns.GatesMoveForward` | server/internal/mcpgateway/store.go:701-762 | in any event a gate keeps the call it holds back, makes an allowed move or none, and never changes once it has ended; acceptance and claim happen once |
| `GateRuns.AcceptedInTime` | server/internal/mcpgateway/service.go:1083-1212 | an acceptance found the gate unexpired before, or answers the waiting call within the time for that; a retry was found to be the call held back, made by the same active agent |
| `GateDecisions.DecisionsFollowRequests` | server/internal/mcpgateway/service.go:1083-1212 | over every run a gate is accepted only through a call that accepts, rejected only through one that declines, each having found it unexpired or answering in time, and expired only when found so; a retry decides only having been found to be the call held back |
| `GateDecisions.DeclinedIsNotExecuted` | server/internal/mcpgateway/service.go:1116-1160 | what was rejected or had expired stays so, and no call is ever made for it |
| `GateDecisions.DecisionsGetTheirWay` | server/internal/mcpgateway/service.go:1083-1160 | a console decision that finds its gate pending gets its way, whatever others do in between, if the gate is pending then: declining rejects, accepting accepts, unless the gate was found expired |
| `GateDecisions.ReadingLeadsToDecision` | server/internal/mcpgateway/service.go:1083-1154 | what reading the gate leads to, for every kind of request and state of the gate |
| `GateDecisions.RetryIsChecked` | server/internal/mcpgateway/service.go:1162-1260 | a retry goes on just when it asks for the call held back by a gate then pending, to decide or decline |
| `GateDecisions.DecisionTakesEffect` | server/internal/mcpgateway/store.go:701-729 | a decision changes just a gate still pending, and only after accepting does its request go on |
| `GateDecisions.ClaimTakesEffect` | server/internal/mcpgateway/service.go:1261-1278 | just an accepted gate is executed |
| `GateDecisions.ReadingsGoOn` | server/internal/mcpgateway/service.go:1279-1340 | an execution goes on from reading to reading just while each finds everything in order, and sends its call just when schema and input are right |
| `GateDecisions.CallsAreMade` | server/internal/mcpgateway/service.go:1380-1437 | sending adds one call; what it returns completes or fails the gate, with the answer that is kept |
| `GateDecisions.EndTakesEffect` | server/internal/mcpgateway/store.go:731-762 | the gate under execution gets status and answer, and nothing else changes |
| `GateDecisions.FailuresChangeNothing` | server/internal/mcpgateway/service.go:1083-1160 | a store that fails leaves gates and calls as they are and ends the request |
| `GateRuns.AnswersNeedNoExpiry` | server/internal/mcpserver/server.go:48-62 | over every run, answers to the waiting call, which are not held against the expiry, find their gates unexpired if and only if the time for an answer is at most the thirty minutes of a gate |
| `GateRuns.LateAnswer` | server/internal/mcpgateway/service.go:1679-1692 | with more time for an answer, a run in which a gate is accepted by an answer that came after it expired |
| `ToolAccess.CheckCall` | server/internal/mcpgateway/service.go:732-825 | the checks of a call up to its grant pass exactly when the holder of the exposed name may be called, and each refusal has just its cause |
| `ToolAccess.VisibleTools` | server/internal/mcpgateway/service.go:558-701 | the listing shows exactly the active tools that may be called, counts the others as filtered, and fails exactly when two would share a name |
| `ToolAccess.SavingKeepsOneHolder` | server/internal/mcpgateway/store.go:437-456 | saving a capability keeps at most one holder per exposed name, and removes only others of that name |
| `ToolAccess.ListAndCallAgree` | server/internal/mcpgateway/service.go:558-825 | a capability is shown if and only if a call of its exposed name passes every check up to the grant and leads to it |
| `ToolAccess.CommonEndpointHasNoConflict` | server/internal/mcpgateway/service.go:644-664 | at the common endpoint no two tools share a name |
| `ToolAccess.ConflictOnlyAcrossNamespace` | server/internal/mcpgateway/service.go:650-664 | at a server's endpoint two share a name exactly when one exposed name is the other with the namespace in front |
| `ToolAccess.ShownNamesMean` | server/internal/mcpgateway/service.go:644-664 | a tool is shown under its exposed name, but at its server's endpoint without the namespace in front |
| `ToolAccess.SameDecision` | server/internal/mcpgateway/store.go:567-590 | listing a user's grants for one capability or for all leads to the same decision |
| `AccountTables.GovernanceStore.MergeAccounts` | server/internal/accountgovernance/postgres_store.go:88-189 | a merge is refused for just the first reason that applies, or runs its statements in order in one transaction that any failing statement undoes |
| `AccountTables.MergeRefusedFor` | server/internal/accountgovernance/postgres_store.go:95-138 | the reasons to refuse a merge, over the rows of the tables and in their order |
| `AccountTables.GovernanceStore.TransferAgent` | server/internal/accountgovernance/postgres_store.go:24-86 | a transfer is refused for just the first reason that applies, or moves owner row, actor and collector tokens of one agent and ends its sessions; keys and references hold |
| `AccountMerge.MergeSucceeds` | server/internal/accountgovernance/postgres_store.go:128-188 | a merge that is not refused breaks no key and no reference, and succeeds if and only if no record of a workflow or an approval refers to the source |
| `AccountMerge.RecordedAccountStays` | server/db/migrations/00059_workflow.sql:10-30 | a merge that no check refuses and that fails, because the source started a workflow |
| `AccountMerge.ApproversAreLost` | server/db/migrations/00064_skill_local_multi_approval.sql:2-7 | rights to approve in a space are not moved but lost with the source; they are united if and only if the target had them all anyway |
| `AccountMerge.ApproverLost` | server/db/migrations/00064_skill_local_multi_approval.sql:2-7 | a merge that loses such a right |
| `AccountMerge.AuthorityIsUnited` | server/internal/accountgovernance/postgres_store.go:104-151 | for every time, capability and kind the target may afterwards what source or target might before, by the decision of the grant check; others keep theirs |
| `AccountMerge.GrantsAreUnited` | server/internal/accountgovernance/postgres_store.go:147-151 | grants become the union, on the terms they had; others keep theirs |
| `AccountMerge.DataGrantsAreUnited` | server/internal/accountgovernance/postgres_store.go:155-157 | data grants become the union; others keep theirs |
| `AccountMerge.RolesAreUnited` | server/internal/accountgovernance/postgres_store.go:154 | roles become the union; others keep theirs |
| `AccountMerge.IdentitiesMove` | server/internal/accountgovernance/postgres_store.go:157-158 | every identity of the source now signs in to the target, and no other changes |
| `AccountMerge.AgentsMove` | server/internal/accountgovernance/postgres_store.go:152-153 | every agent of the source has the target as owner and as actor; others keep both |
| `AccountMerge.OwnersGoOnAgreeing` | server/internal/accountgovernance/postgres_store.go:152-153 | owner rows and actors that agree go on agreeing |
| `AccountMerge.CollectorsMove` | server/internal/accountgovernance/postgres_store.go:158-159 | every collector token keeps its agent and becomes the target's where it was the source's, and so does every registration code; those of others stay |
| `AccountMerge.NothingOfTheSourceRemains` | server/internal/accountgovernance/postgres_store.go:147-183 | just the source goes, with its sessions, sign-ins, codes and tokens, and its place among the approvers |
| `AccountMerge.OthersStay` | server/internal/accountgovernance/postgres_store.go:147-183 | whatever else is not the source's stays as it was, gates, records and the actors of other agents included |
| `AccountMerge.DroppingNeedsAgreement` | server/internal/accountgovernance/postgres_store.go:127-143 | dropping the source's duplicate grant keeps the united authority if and only if the target's lasts as long: the reason for the conflict check |
| `Sync.BusinessStore.InsertRun` | server/internal/businessdata/postgres_store.go:98-103 | afterwards the source has a run in progress; one is added just when it had none, all others stay, and no source comes to have two |
| `Sync.BusinessStore.QueueBilibiliSourceRun` | server/internal/businessdata/postgres_store.go:79-112 | queueing by hand needs an existing, active source, and adds a run for its seven days just when the source has none in progress |
| `Sync.BusinessStore.SetBilibiliSourceSyncEnabled` | server/internal/businessdata/postgres_store.go:114-183 | the source ends up as asked, other sources stay; disabling leaves it unscheduled without queued runs, enabling schedules it with a run in progress and is refused just when its user had not disabled it; asking for what is so changes nothing |
| `Sync.BusinessStore.QueueDueRuns` | server/internal/businessdata/postgres_store.go:244-302 | the earliest due sources that nobody else has locked, up to the limit, are handled in order, and those without a run in progress are counted |
| `Sync.BusinessStore.QueueProviderRuns` | server/internal/businessdata/postgres_store.go:304-353 | all active sources, each once, are handled, and those without a run in progress are counted |
| `Sync.QueueAllGives` | server/internal/businessdata/postgres_store.go:282-297 | every source handled has a run in progress afterwards, and others have one just when they had; what is added asks for the seven days up to today, and no run there before changes |
| `Sync.QueueAllReschedules` | server/internal/businessdata/postgres_store.go:282-297 | the sources handled get the next time when they were due, and nothing else of any source changes |
| `Sync.BusinessStore.ClaimNextRun` | server/internal/businessdata/postgres_store.go:355-394 | of the queued runs that nobody else has locked the first queued is claimed, and its source notes the attempt; with none nothing changes |
| `Sync.AuthorizeGives` | server/internal/businessdata/postgres_store.go:568-606 | an authorisation makes its source active and due at once, and changes no other |
| `Sync.DeauthorizeGives` | server/internal/businessdata/postgres_store.go:608-613 | losing it disables just the sources of the account, with that reason |
| `Sync.BusinessStore.CompleteRun` | server/internal/businessdata/postgres_store.go:396-432 | just a running run of the source completes, as reported and otherwise unchanged; its source notes success or reason and is disabled only for a lost authorisation, a disabled one keeps status, reason and schedule; no other run or source changes |
| `Sync.BusinessStore.RecoverRunningRuns` | server/internal/businessdata/postgres_store.go:434-448 | no run is left running: those that were fail as interrupted, other runs and disabled sources stay, and an active source of such a run notes the reason and nothing else |
| `Sync.ScheduleIsNext` | server/internal/businessdata/postgres_store.go:19-30 | the next run is the first ten past two after now |
| `SyncRuns.RunKeeps` | server/internal/businessdata/postgres_store.go:79-613 | every event of every run keeps the whole invariant |
| `SyncRuns.OneRunPerSource` | server/internal/businessdata/postgres_store.go:98-103 | a source has at most one run queued or running |
| `SyncRuns.ScheduledWhenActive` | server/internal/businessdata/postgres_store.go:114-183 | a source is scheduled exactly while it is active |
| `SyncRuns.SuccessMeansWritten` | server/internal/businessdata/sync_service.go:36-109 | a run writes at most one batch; a successful one wrote one of just the size it reports, and a failed one none unless it was interrupted |
| `SyncRuns.WritesOnlyWhileActive` | server/internal/businessdata/postgres_store.go:450-470 | a batch is written only for a running run of an active source |
| `SyncRuns.RunsMoveForward` | server/internal/businessdata/postgres_store.go:355-448 | runs only move forward, and a finished one never changes |
| `SyncRuns.DisabledStays` | server/internal/businessdata/postgres_store.go:396-448 | a disabled source keeps status and reason whatever finishes or is recovered, until it is enabled, authorised or deauthorised |
| `SyncRuns.EnablingNeedsItsUser` | server/internal/businessdata/postgres_store.go:142-166 | enabling a disabled source succeeds if and only if its user, and not the platform, disabled it last; it is then active, scheduled and has a run |
| `SyncRuns.ClaimedOnce` | server/internal/businessdata/postgres_store.go:355-394 | no two drivers execute one run |
| `SyncRuns.DriverLooks` | server/internal/businessdata/sync_service.go:36-58 | a driver pulls just when it finds its source active, and otherwise reports why not |
| `SyncRuns.DriverPulls` | server/internal/businessdata/sync_service.go:59-74 | a valid batch is written; a lost authorisation, a limit, another failure and an invalid batch are reported as such |
| `SyncRuns.DriverWrites` | server/internal/businessdata/sync_service.go:75-84 | a batch is written just for a running run of an active source, and then reported with its size |
| `SyncRuns.DriverReports` | server/internal/businessdata/sync_service.go:85-109 | a run still running is completed as its driver says, and nothing else changes |
| `Dashboard.FillTrend` | server/internal/businessdata/postgres_store.go:939-972 | each day's point repeats the last known value or takes the day's own, and tells its change against an earlier value |
| `Dashboard.AddTrend` | server/internal/businessdata/dashboard_service.go:284-294 | a trend's points are added to those of their days |
| `Dashboard.BilibiliView` | server/internal/businessdata/dashboard_service.go:254-314 | totals, days, latest capture, missing parts and top list over all available accounts |
| `DashboardTotals.ChangesTelescope` | server/internal/businessdata/postgres_store.go:939-972 | the changes of a counter over a range add up to the last value less the first one known |
| `DashboardTotals.FirstIsEarliest` | server/internal/businessdata/postgres_store.go:939-972 | the first value known is the baseline, or without one that of the earliest day observed |
| `DashboardTotals.LastIsLatest` | server/internal/businessdata/postgres_store.go:939-972 | the value known at the end of a day is that of the latest day observed, or the baseline |
| `DashboardTotals.PointsMean` | server/internal/businessdata/postgres_store.go:939-972 | a day shows the latest value observed or the baseline, and on a day observed the change against the latest value from before |
| `DashboardTotals.AllChangesTelescope` | server/internal/businessdata/dashboard_service.go:284-300 | for each counter the changes shown for all accounts add up, over any first days of the range, to what is known last of the available accounts less what was known first |
| `DashboardTotals.PreviousIsTheBaseline` | server/internal/businessdata/dashboard_service.go:477-484 | a comparison's earlier value is the baseline or, without one, the first day's observation |
| `DashboardTotals.DaysAreSums` | server/internal/businessdata/dashboard_service.go:284-300 | each day's values and changes are the sums over the available accounts |
| `DashboardTotals.PreviousIsTheSum` | server/internal/businessdata/dashboard_service.go:477-489 | the comparison of all accounts takes for the earlier value the sum of the accounts' own earlier values |
| `DashboardTotals.TotalsAreSums` | server/internal/businessdata/dashboard_service.go:262-283 | each of the twelve totals is the sum over the available accounts |
| `DashboardTotals.LatestIsLatest` | server/internal/businessdata/dashboard_service.go:254-283 | the capture shown is the latest one of the available accounts |
| `DashboardTotals.MissingAre` | server/internal/businessdata/dashboard_service.go:254-283 | the missing parts are the accounts without data, each name once and in order |
| `DashboardTotals.SortedInOrder` | server/internal/businessdata/dashboard_service.go:301-310 | sorting puts the contents in order and keeps them all |
| `DashboardTotals.TopOfTops` | server/internal/businessdata/dashboard_service.go:301-313 | the list made from the accounts' own top 20 is the top 20 of all contents of the available accounts |
| `DashboardTotals.MostViewedAreShown` | server/internal/businessdata/dashboard_service.go:301-313 | the list shows up to twenty contents, most viewed first and then by account and id, and what it leaves out is no more viewed than any of them |
| `DashboardTotals.TopIsUnique` | server/internal/businessdata/postgres_store.go:808-816 | there is only one such list |
| `DataGrants.NormalizeActions` | server/internal/dataaccess/service.go:108-149 | actions are accepted exactly when there are some, each is defined for the resource, and reading is among them where one asks for it |
| `DataGrants.ResourcesMean` | server/internal/dataaccess/service.go:162-176 | which resources there are |
| `DataGrants.DataGrantStore.CreateGrants` | server/internal/dataaccess/store.go:27-52 | a clash with one grant refuses all; otherwise they are added to those there, with an entry of what was and what is allowed |
| `DataGrants.DataGrantStore.ReplaceGrants` | server/internal/dataaccess/store.go:54-78 | the grants of a subject that has some are replaced, those of others stay, with an entry of what was and is allowed |
| `DataGrants.DataGrantStore.DeleteGrants` | server/internal/dataaccess/store.go:80-101 | just the grants of a subject that has some are removed, with an entry of what was allowed |
| `DataGrants.DataGrantStore.RecordFailure` | server/internal/dataaccess/service.go:206-216 | a refused request is entered with what its subject may do, and grants nothing |
| `DataGrantRuns.LogTellsTheGrants` | server/internal/dataaccess/store.go:27-111 | in every reachable state the log, read from its start, tells exactly what is granted |
| `DataGrantRuns.EntriesFollowOn` | server/internal/dataaccess/store.go:27-111 | an entry begins with what the last successful one for its subject ended with; failed ones record that state unchanged |
| `DataGrantRuns.NoDuplicateGrants` | server/internal/dataaccess/store.go:36-40 | no action is granted twice to a subject |
| `DataGrantRuns.RequestsAccepted` | server/internal/dataaccess/service.go:84-106 | a request is accepted just when it names a user, a resource there is, and actions as they have to be |
| `DataGrantRuns.UseNeedsReading` | server/internal/dataaccess/service.go:120-142 | uploading to a knowledge base, writing to a shared space, connecting and managing never exist without reading |
| `DataGrantRuns.AcceptedWithoutReading` | server/internal/dataaccess/service.go:108-149 | an accepted request, for whatever actions, is without reading if and only if it is for writing alone to a skill space or for mcp alone on a knowledge base |
| `DataGrantRuns.UsersWithoutReading` | server/internal/dataaccess/service.go:108-149 | in every reachable state, whoever may do something with a resource may not read it if and only if all they may do is writing to a skill space or mcp on a knowledge base |
| `DataGrantRuns.UserWithoutReading` | server/internal/dataaccess/service.go:108-149 | for either, a reachable state with such a user |
| `Billing.ValidateUsage` | server/internal/clawadmin/client.go:469-484 | a usage passes exactly when it is non-negative and its parts make its total |
| `Billing.AddUsage` | server/internal/clawadmin/client.go:486-502 | adding gives the sums, or nothing when one of them would overflow |
| `Billing.ValidateSnapshot` | server/internal/clawadmin/client.go:425-449 | a trend passes exactly when its points are valid, in range and distinct and add up to the figures |
| `Billing.SnapshotTrend` | server/internal/clawadmin/client.go:200-207 | each point has cached input added to its input, without overflow, and the other figures as they were |
| `Billing.SumTrend` | server/internal/activity/service.go:72-84 | the trend's sums, or none exactly when one does not fit 64 bits |
| `Billing.TotalsAreTheFigures` | server/internal/activity/service.go:72-84 | on a checked snapshot no sum overflows, so the way out is never taken, and the sums are the checked figures with cached input folded in |
| `Billing.FillTrend` | server/internal/activity/service.go:206-225 | one point per bucket up to the end: the last one given for it, or one without usage |
| `Billing.FilledSums` | server/internal/activity/service.go:206-225 | the filled trend adds up to exactly the points that stand at the start of a bucket |
| `Billing.HourlyTrendIsWhole` | server/internal/activity/service.go:206-225 | with hourly points nothing is lost: the filled trend adds up to each of the checked figures |
| `Billing.DailyTrendIsWhole` | server/internal/activity/service.go:206-225 | a filled daily trend adds up to a checked figure if and only if every point that is not at midnight adds nothing to that figure |
| `Billing.DailyPointLost` | server/internal/clawadmin/client.go:436-440 | a daily point that is not at midnight passes the check and is lost |

## Left out

- Rate limits, deployment credentials and their capacity (feedback/service.go:131-152): a refusal in `FeedbackService.Store.CreateReport` stands for them.
- The patterns of ids, digests and tokens, time formats, lengths of texts, and the contents of environment and source claims in a feedback request (feedback/protocol.go:121-143): one flag of the manifest or of the request says whether they hold.
- The checks of images and of secrets in uploaded material: their verdict is an input of the upload's commit.
- Views for clients and consoles, the list of reports, metrics and HTTP.
- Authorising a reader and opening the objects of a report (feedback/reader.go:32-47, 79-82): they come before reading and end a call with their own error.
- The level, run and time filters of the reader: one predicate on a line's text stands for them.
- The JSON size of a record: any function of the record; the theorems hold for all of them.
- Order of map iteration: loops over maps take the entries in any order, and lists that the code sorts afterwards are sets (actions of a data grant).
- `SyncRuns.ClaimedOnce`: in the runs any queued run may be claimed, because rows locked by others are skipped; `Sync.BusinessStore.ClaimNextRun` says which one is.
- `SyncRuns.SuccessMeansWritten`: takes the number of records that a write reports to be that of its batch; the loops that write and count single records are not modelled.
- `Sync.BusinessStore.QueueDueRuns`: leaves open in which order sources due at the same time are taken.
- Sources other than video accounts, credentials of sources and the contents of a batch: a write is recorded with its number of records.
- The text of decision reasons, audit records of tool calls, what a projected answer leaves out, and the choice of knowledge bases during a knowledge search: the last of these is part of a call's preparation, which may fail.
- `GateRuns.CallsAreAsAsked`: does not state that the upstream name of the tool is the one at the time of asking, because the code compares exposed name, server and schema only.
- Admin-approved gates are decided through the same calls as confirmed ones; the console permissions for it are not modelled.
- Audit rows of account governance, and rows that refer to no account.
- Costs, shares, rankings and model tables of the billing snapshot.
- The in-memory account indexes (accounts/store.go): a class invariant over maps that would only add easy members.
