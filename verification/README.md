# A model of narad-go, proved

narad-go is the client of an at-least-once message queue.  This project models the
parts of it that have to be right under concurrency and failure, and proves what they
promise: that every message of a batch ends in exactly one way, the one its handler's
verdict calls for, under every interleaving, that settling many messages at once treats each as settling it alone
would, that breakers, node choice and retries keep to their rules, that a replay hands
over the log, that ids sort, that a wrapped schema means what it did, and that batch
elements, keys and retried messages lose nothing.

`dafny verify dfyconfig.toml` checks everything.

## How it is put together

| module | models |
|---|---|
| `Common`, `Errors` | shared definitions; how failures are classified |
| `BatchDispatch`, `BatchInvariant`, `BatchSteps`, `BatchTheorems`, `BatchRenewals`, `BatchReports`, `BatchStarts`, `BatchErrors`, `BatchProgress` | the handler loop, the shutdown callback and the lease renewer of one batch, as a transition system with one step for each lock, shared read, request and reply; its inductive invariant, the safety theorems, when a renewal overrides a settle, what is reported lost, which handlers run, what the error handler hears, and the absence of deadlock and endless work |
| `Dispatch` | the same for one message and its renewer |
| `Settle`, `BatchSettle`, `SettleTheorems` | settling one message, settling many in rounds, and what connects the two with each other and with the broker |
| `Breaker`, `Nodes`, `Driver` | the circuit breaker of a node, the choice of a node, and the retry loop over both |
| `Replay`, `ReplayTheorems` | reading a log back with patience |
| `Ids` | ordered ids |
| `JsonSchema`, `EnvelopeSchema` | a semantics of JSON Schema, and the rewrite that wraps a schema in one for the envelope |
| `Base64`, `BatchEncoding`, `Batch`, `BatchRequest`, `MessageKey` | what goes over the wire for a batch and for a key, and what the broker reads |
| `Retry` | publishing a message again before it is acked |

What the world decides (replies, clocks, handlers, shutdown, random bytes) is a
parameter of every function and method, so each statement is about all of it.  Code
that updates state in place is a class or a method, proved equal to a function of its
old state; the properties are then proved about that function.

## Main results

* Batch dispatch: `BatchSteps.StepInv`, `BatchTheorems.ExactlyOneOutcome`,
  `BatchTheorems.SendsSafely`, `BatchProgress.NoDeadlock`, `BatchProgress.BoundedWork`,
  `BatchRenewals.MarksSettledExactlyWhenRecordedSince`,
  `BatchReports.LostButSettledExactlyWhenRecordedAfterReturn`,
  `BatchStarts.StartedExactlyWhenNotGone`, `BatchErrors.EveryFailureIsReported`; for one
  message `Dispatch.OneOutcome`.
* Settling: `BatchSettle.SettleMany`, `SettleTheorems.TreatsEachAsIfAlone`,
  `SettleTheorems.BatchAckIsSound`.
* Nodes and retries: `Breaker.ClosedByStreak`, `Breaker.AdmitsExactlyAfterCooldown`,
  `Breaker.OneProbeAnEpisode`, `Driver.TriesAgainExactly`,
  `Driver.LeavesNoProbe`, `Driver.PassesOverIff`, `Driver.GivesUpIff`, `Driver.NoNodeTwice`.
* Replay: `ReplayTheorems.HandsOverTheLog`, `ReplayTheorems.MissesNothing`,
  `ReplayTheorems.ReplayHandsOverTheLogs`, `ReplayTheorems.GivesUpExactly`,
  `ReplayTheorems.ReplayEnds`.
* Texts: `Ids.LaterIdsAreGreater`, `EnvelopeSchema.WrappedAccepts`,
  `EnvelopeSchema.ReferencesThatSurvive`, `BatchRequest.RequestReadsBack`,
  `Retry.ChainLosesNothing`.

## Where the code and its documentation part

Each of these is a lemma with a concrete case, next to the exact condition under which
the documented statement holds.

* The check for an untried node asks each node whether it is ready, and that moves a
  node whose cooldown has passed to half-open without sending it anything
  (`nodes.go:291-298`).  The next pick then skips that node
  (`Driver.CheckHidesANode` is a call in which it does), and if it has nothing else in
  flight it never gets a request again (`Breaker.TestWedges`, `Breaker.WedgedForGood`).
  A call leaves a node waiting for such a probe exactly when one of its checks used the
  probe up (`Driver.LeavesNoProbe`), and goes back to a tried node although another was
  ready exactly when the check used up the probe of the only such node
  (`Driver.PassesOverIff`).  A call can even give up with the refusal, although an untried
  node was ready (`Driver.CheckStrandsACall`), again exactly when the check used up the
  probe of the only such node (`Driver.GivesUpIff`).  The check is harmless exactly when
  the first node it finds is closed (`Nodes.TestIsPureIff`, `Breaker.ProbedStep`).
* A batch settle does not treat each message quite as a settle of its own
  (`consume_batch.go:458-469`): a 410 for the whole request is not forgiven, and a
  context that has ended is reported in place of the last error
  (`SettleTheorems.TreatsEachAsIfAlone` says exactly when, `WholeRequestGone` shows the
  first).  A whole request that is answered 408 is not sent again as a batch either: the
  408 is retryable but also counts as a bad request, so in whichever round it comes every
  message still pending is settled alone with a fresh set of attempts
  (`SettleTheorems.RefusedAsBad`, `SettleTheorems.TimedOutRequest`).  And between its
  rounds a batch waits for the backoff where a settle of its own honours Retry-After
  (`consume_batch.go:500`, `message.go:335`), so the waits are the same exactly unless a
  whole-request refusal asks for another one (`SettleTheorems.WaitsAgree`).
* A 504 or a 408 can hide an ack that landed, but is not classed uncertain, so the 410
  that follows is reported as a lost lease (`SettleTheorems.LostReplyVerdict`).
* The renewers read "settled" and then "settling"; a settle that finishes in between is
  seen by neither, and a handler whose message is settled is told to stop
  (`BatchTheorems.RenewalCanCancelASettledHandler`, and the same in `Dispatch`).  Over
  every run, a message that a renewal marks gone is settled exactly when a settle of its
  handler's own was recorded after the first of the two reads
  (`MarksSettledExactlyWhenRecordedSince` in `BatchRenewals` and `Dispatch`); one recorded
  before it, or still in flight at the second, is never overridden (`SettledIsSpared`,
  `SettlingIsSpared`).
* Such a message can be reported lost although it is settled: its handler may return
  before its own ack does, and the flush does not ask again whether a message is settled
  (`consume_batch.go:195-199`, `BatchReports.ReportsASettledMessageLost`).  A message whose
  handler ran and which the loop has not seen settled is reported lost exactly when its
  lease is gone, settled since or not (`BatchReports.ReportedLostExactlyWhenGone`).  Over
  every run, one reported lost is settled exactly when a settle of its own was recorded
  after its handler returned
  (`BatchReports.LostButSettledExactlyWhenRecordedAfterReturn`); one recorded before is
  never reported lost (`BatchTheorems.SettledNeverReportedLost`).  A message dispatched
  alone is read again before the report, so there only a settle recorded after that read
  can be missed (`Dispatch.LostButSettledExactlyWhenRecordedSince`).
* A replay does not stop at what existed when it started (`consume.go:664-667`) but at
  the first offset that has not been written (`ReplayTheorems.FollowsNewWrites`); it
  stops at the end it started with exactly when the log still ends there at the turn
  that reads it (`ReplayTheorems.StopsAtTheEndItMet`).
* Besides references to the root, references to the schema's own properties do not
  survive the wrapping either (`EnvelopeSchema.PropertyReferenceChanges`).  Those that
  lead to the same schema in every wrapped schema are exactly the ones into `$defs`,
  `definitions` or `$schema` and those to another document
  (`EnvelopeSchema.ReferencesThatSurvive`), and a schema with only such references, parts
  with an `$id` of their own aside, means the same (`EnvelopeSchema.WrappedAccepts`).
* Retry adds one attempt only to a count that is not negative and not the largest
  integer (`Retry.OneMoreAttempt`).

## Model

| member | source | states |
|---|---|---|
| `BatchSteps.StepInv` | `consume_batch.go:157-449` | every step of the three threads and of the environment keeps the invariant: each message is in exactly one place (not reached yet, queued, in a thread's hands, or with its one outcome), each place says what holds of its lease, its renewals and its settle, and no two threads are inside one lock |
| `BatchSteps.LeadsInv` | `consume_batch.go:157-449` | so every run of any length does |
| `BatchTheorems.AtMostOneOutcome` | `consume_batch.go:157-310` | in every reachable state each message has at most one outcome |
| `BatchTheorems.ExactlyOneOutcome` | `consume_batch.go:157-310` | when dispatchBatch returns each message has exactly one outcome, no lease is held, and the outcome is determined by what happened: a message not taken has been handed back because of shutdown, unless its lease was gone; one whose handler succeeded is acked and one whose handler failed is reported and, if asked for, handed back, unless its handler settled it or its lease was gone, and then it is reported lost |
| `BatchStarts.StartsOnlyOnALease` | `consume_batch.go:265-271` | in every reachable state, a step starts a handler only on a lease not found gone and, if there is one, still renewed |
| `BatchStarts.StartedExactlyWhenNotGone` | `consume_batch.go:251-271` | over every finished run the loop has looked at the lease of each message it took; the handler was started exactly if the lease was not gone then, and otherwise the message ended reported lost before it was started |
| `BatchStarts.TakesExactlyUntilShutdown` | `consume_batch.go:251-264` | in every reachable state, a step takes the next message exactly if it is the loop's at that place, shutdown has not begun and the rest has not been handed back |
| `BatchErrors.EveryFailureIsReported` | `consume_batch.go:165-305` | over every finished run, the error handler has heard of every message lost after the loop took it, of every one whose handler failed and of every one whose ack failed |
| `BatchTheorems.LeaseIsKept` | `consume_batch.go:157-162` | until a message has ended or the dispatcher lets go of its lease to settle it, its lease is held unless it was found gone |
| `BatchTheorems.RenewalAsksForAll` | `consume_batch.go:377-401` | a renewal asks for every message whose lease was held and that was unsettled throughout its collection |
| `BatchRenewals.CarriesOnlyWhatIsHeld` | `consume_batch.go:381-392` | and only for those: a message gets into a round only while its lease is held and it is unsettled |
| `BatchStarts.RenewsUntilTheEnd` | `consume_batch.go:355-371` | over every run the renewer is there until shutdown begins or the batch is over |
| `BatchStarts.EveryRoundAsks` | `consume_batch.go:357-396` | over every run, a round that a tick has started asks for the renewal of every message held and unsettled until the round is over |
| `BatchTheorems.SettledNeverReportedLost` | `consume_batch.go:276-290` | a message whose settle was recorded when its handler returned is never reported lost |
| `BatchTheorems.SendsSafely` | `consume_batch.go:185-241` | while an ack or nack of the dispatcher's own is on its way, the message is not marked gone, not held, in no round, and no other thread deals with it |
| `BatchTheorems.NeverRenewedAgain` | `consume_batch.go:377-440` | and from then on no round ever carries it |
| `BatchTheorems.RenewalCanCancelASettledHandler` | `consume_batch.go:399-412` | a run in which a settle slips between the renewer's two reads and a settled message is marked gone |
| `BatchRenewals.MarksSettledExactlyWhenRecordedSince` | `consume_batch.go:399-412` | over every run, a renewal that marks a message gone has read it unsettled at an earlier step, and the message is settled by then exactly if a settle of its handler's own has been recorded since that step |
| `BatchRenewals.Every410IsJudged` | `consume_batch.go:397-413` | over every run, a message whose renewal is answered 410 is marked gone by the end of the round, unless the renewer has read that it is settled or being settled |
| `BatchRenewals.SettledIsSpared` | `consume_batch.go:384-412` | over every run, a message settled before that read is never marked gone |
| `BatchRenewals.SettlingIsSpared` | `consume_batch.go:399-405` | over every run, a renewal that marks a message gone has found no settle of it in flight at an earlier step, its second read, and has read nothing since |
| `BatchRenewals.OnlyTheHandlerSettles` | `consume_batch.go:185-241` | while a round carries a message, the dispatcher settles it by no step of its own |
| `BatchReports.ReportedLostExactlyWhenGone` | `consume_batch.go:195-290` | when dispatchBatch has returned, a leased message whose handler ran and which the loop did not see settled has been reported lost exactly if its lease was found gone; if its handler succeeded, before the ack |
| `BatchReports.LostButSettledExactlyWhenRecordedAfterReturn` | `consume_batch.go:185-290` | over every run, a message reported lost is settled exactly if its handler was called, has returned, and a settle of its own was recorded after that |
| `BatchReports.ReportsASettledMessageLost` | `consume_batch.go:185-199` | a run in which a message whose handler succeeded and settled it is reported lost before its ack |
| `BatchProgress.HolderGoesOn` | `consume_batch.go:157-449` | a lock that is taken is held by a thread that can go on |
| `BatchProgress.NoDeadlock` | `consume_batch.go:157-449` | until dispatchBatch has returned some thread can take a step |
| `BatchProgress.ShutdownFlushesAtOnce` | `consume_batch.go:242-250` | once shutdown begins the callback can go on to its end even if the handler in hand never returns |
| `BatchProgress.StepWorks` | `consume_batch.go:157-449` | every step of a thread uses up a bounded amount of work |
| `BatchProgress.BoundedWork` | `consume_batch.go:157-449` | at most 30 n + 27 steps, plus 6 n + 6 for each tick of the renewer, in any run |
| `Dispatch.OneOutcome` | `consume.go:405-461` | a message dispatched on its own ends in exactly one way: acked if its handler succeeded, reported and, if asked for, handed back if it failed, unless the handler settled it or its lease was gone, and then reported lost |
| `Dispatch.SettlesAlone` | `consume.go:405-461` | when dispatch sends its own ack or nack the renewer is gone and has not found the lease lost |
| `Dispatch.NeverStuck` | `consume.go:405-553` | dispatch, or the renewer it waits for, can always take a step |
| `Dispatch.RenewalCanCancelASettledHandler` | `consume.go:528-541` | a run in which the renewer's two reads miss a settle that finishes in between |
| `Dispatch.MarksSettledExactlyWhenRecordedSince` | `consume.go:528-541` | over every run, when the renewer says that the lease is gone it has read the message unsettled before, and the message is settled exactly if a settle of its handler's own has been recorded since |
| `Dispatch.SettledIsSpared` | `consume.go:522-541` | over every run, a settle recorded before that read is never overridden |
| `Dispatch.SettlingIsSpared` | `consume.go:534-541` | over every run, a renewer that says the lease is gone has found no settle in flight at its second read |
| `Dispatch.LostButSettledExactlyWhenRecordedSince` | `consume.go:424-434` | over every run, a message reported lost was unsettled when dispatch decided so, and is settled exactly if a settle of its handler's own was recorded since |
| `Dispatch.RenewsUntilDone` | `consume.go:503-541` | over every run there is a renewer exactly for a lease to be renewed, and it leaves only when stopped, when its context has ended, or when the message is settled or its lease gone |
| `Dispatch.EveryTickRenews` | `consume.go:516-531` | between renewals a tick is always taken, an unsettled message is then renewed, and after any answer but a 410 the renewer waits for the next tick |
| `Dispatch.RenewsOnlyTheUnsettled` | `consume.go:522-530` | a renewal is sent only for a message read unsettled |
| `Dispatch.Every410IsJudged` | `consume.go:528-541` | over every run a 410 ends with the lease found gone unless the message has been read settled or being settled |
| `Errors.UncertainImplies` | `errors.go:176-262` | an uncertain failure is retryable, counts against its node, and is never one to move on from |
| `Errors.FaultsOfTheNode` | `nodes.go:200-232` | which failures count against a node, in terms of which are retryable |
| `Errors.CertainFailures` | `errors.go:176-289` | exactly which replies to each kind of operation are tried again as if nothing could have happened |
| `Errors.WithoutAReply` | `errors.go:176-262` | which failures without a reply may be tried again and which may have been carried out |
| `Errors.SentinelStatuses` | `errors.go:293-347` | which replies match each sentinel, the bad request among them, and which may be tried again |
| `Errors.Conflicts` | `errors.go:293-347` | what each status and message matches: an existing thing, a lost lease, an unavailable node |
| `Settle.Message.SettleFrom` | `message.go:275-340` | a settle returns the verdict of its attempts, waits as long as each failure asks, and records the message settled exactly on success of an ack or nack; without a client or a lease nothing is sent |
| `SettleTheorems.LastAttemptDecides` | `message.go:300-339` | a settle returns what its last attempt comes to, the first that no other follows |
| `SettleTheorems.ReportsLost` | `message.go:300-338` | a settle reports its lease lost exactly when it meets a 410 and is no ack with an earlier attempt that may have landed |
| `SettleTheorems.BatchOfOne` | `consume_batch.go:485-488` | a batch of one message is a settle of its own that nothing precedes, a refused one included, and reports the lease lost exactly as that does |
| `BatchSettle.TakeResult` | `consume_batch.go:543-564` | what one result makes of its message |
| `BatchSettle.TakeResults` | `consume_batch.go:543-565` | every pending message is treated by the result at its own place, no other changes, and those to be tried again stay in order |
| `BatchSettle.SettleAlone` | `consume_batch.go:519-527` | the fallback settles each pending message on its own and touches no other |
| `BatchSettle.SettleRound` | `consume_batch.go:499-565` | one round keeps every message on course to the fate its replies give it |
| `BatchSettle.SettleRounds` | `consume_batch.go:485-566` | so do all rounds |
| `BatchSettle.SettleMany` | `consume_batch.go:470-566` | each message gets the fate its own replies give it, at its own index, and is recorded settled exactly if that is success; each request asks, in order, for exactly those of the one before that its reply does not rule out, so one answered 204 is never sent again; between them it waits for the backoff, as long as a message is left |
| `BatchSettle.KeptInOrder` | `consume_batch.go:543-565` | the pending list only shrinks and stays strictly increasing |
| `BatchSettle.LeftAgain` | `consume_batch.go:543-565` | a message stays pending exactly when its result may be tried again |
| `SettleTheorems.TreatsEachAsIfAlone` | `consume_batch.go:458-566` | a batch gives a message the outcome a settle of its own would for the same replies, exactly unless a whole-request 410 follows an attempt that may have landed or the context has ended |
| `SettleTheorems.AgreesWhileWaiting` | `consume_batch.go:458-566` | so they agree for all per-handle statuses and retryable whole-request failures but 408, any attempt limit |
| `SettleTheorems.RetryableBadRequest` | `errors.go:322-347` | 408 is the only retryable failure that counts as a bad request |
| `SettleTheorems.RefusedAsBad` | `consume_batch.go:519-527` | a batch request refused as a bad one in any round is not repeated: a message still pending gets what a settle of its own gives it, with all its attempts and the knowledge that an earlier round may have settled it |
| `SettleTheorems.TimedOutRequest` | `consume_batch.go:519-527` | so does a 408 of any round, although it may be tried again |
| `SettleTheorems.WaitsAgree` | `consume_batch.go:498-506` | while both go on, a message waits for the same times in a batch as in a settle of its own, exactly unless a whole-request refusal asks for another wait than the backoff |
| `SettleTheorems.WholeRequestGone` | `consume_batch.go:519-541` | a whole-request 410 is not forgiven where a single one is |
| `SettleTheorems.AckIsSound` | `message.go:300-338` | against a broker that spends a handle once, an ack that landed is never reported lost, and success means it landed |
| `SettleTheorems.AckOfOneIsSound` | `consume_batch.go:485-488` | the same for a batch of one |
| `SettleTheorems.BatchAckIsSound` | `consume_batch.go:495-566` | the same for a batch, through all its rounds and its fallback |
| `SettleTheorems.LostReplyVerdict` | `errors.go:176-262` | a lost reply followed by 410 is reported as a lost lease exactly when it is not classed uncertain |
| `Breaker.Node.Ready` | `nodes.go:98-117` | whether a node admits a request, and its state afterwards |
| `Breaker.Node.Observe` | `nodes.go:123-132` | its state after an outcome |
| `Breaker.Node.Abandon` | `nodes.go:138-148` | its state after a request is given up |
| `Breaker.Node.Succeed` | `nodes.go:150-156` | a success closes and forgets the failures |
| `Breaker.Node.Fail` | `nodes.go:158-173` | a failure counts, or sends a half-open node back |
| `Breaker.ClosedByStreak` | `nodes.go:98-187` | over any history a breaker is closed exactly when its trailing streak of faults is below the threshold |
| `Breaker.HealthyAlwaysAdmits` | `nodes.go:98-108` | over any history a node without a breaker takes every request, and so does one whose trailing streak of faults is below the threshold |
| `Breaker.AdmitsExactlyAfterCooldown` | `nodes.go:98-173` | over any history any other node takes a request exactly if the cooldown since its last fault has passed and no probe is out |
| `Breaker.NothingAdmittedEarly` | `nodes.go:98-187` | nothing is admitted before the cooldown after a fault that opened it, unless an answer came in between |
| `Breaker.AbandonHandsBack` | `nodes.go:134-148` | a probe given up is handed back at once, and giving up anything else changes nothing |
| `Breaker.ProbedStep` | `nodes.go:98-173` | each step keeps "half-open means this episode's one probe is in flight", and a mere test keeps it exactly when it changes nothing |
| `Breaker.OneProbeAnEpisode` | `nodes.go:98-173` | in every run a half-open node has one probe in flight, admits nothing else, and leaves half-open when any request ends |
| `Breaker.WedgedForGood` | `nodes.go:98-117` | a half-open node with nothing in flight never gets a request again |
| `Breaker.TestWedges` | `nodes.go:291-298` | the check for an untried node leads there |
| `Nodes.NodeSet.Pick` | `nodes.go:269-287` | returns the first ready node of the round, untried ones first, and changes the breaker of that node only |
| `Nodes.NodeSet.Look` | `nodes.go:275-285` | one round over the nodes |
| `Nodes.NodeSet.Untried` | `nodes.go:291-298` | reports whether an untried node is ready, and asks the first such node |
| `Nodes.ChoicePrefersUntried` | `nodes.go:259-287` | none exactly when no node would take the request; a tried one only when no untried one would |
| `Nodes.ChoiceIsFirstInTheRound` | `nodes.go:269-287` | and of those it may choose from, the first in the round from the counter on |
| `Nodes.RoundRobin` | `nodes.go:269-280` | while every node takes requests, new calls go round them in turn |
| `Nodes.TestIsPureIff` | `nodes.go:291-298` | the check changes nothing exactly when the first node it finds is closed |
| `Driver.TryOnce` | `client.go:218-273` | one attempt: the node chosen, the one thing it is told, whether to go on, and the wait |
| `Driver.Loop` | `client.go:217-277` | the requests are in order and within the limit, and the result is the one they call for |
| `Driver.Do` | `client.go:207-277` | the same for a call, and a closed client sends nothing |
| `Driver.TriesAgainExactly` | `client.go:217-277` | over every call another request follows exactly after a failure that may be tried again, is not uncertain under cautious retries and was waited out, while attempts and nodes last; and which error the call returns |
| `Driver.ToldWhatBecameOfIt` | `client.go:219-238` | the node picked is asked once and told once, what became of the request or that it was given up |
| `Driver.AnswersItsProbe` | `client.go:218-238` | every pick is followed by one observe or abandon of the same node, which leaves no probe of it open |
| `Driver.NoNodeTwice` | `client.go:215-227` | no address is used again while an untried one would take the request |
| `Driver.LeavesNoProbe` | `client.go:207-277` | over every call, a node is left half-open exactly when it was before, or a check for an untried node used its probe up |
| `Driver.PassesOverIff` | `client.go:257-263` | a call goes to an address it has tried, although another node would take the request but for the check, exactly when the check used up the probe of the only such node |
| `Driver.CheckHidesANode` | `client.go:257-263` | a call of two requests in which that happens |
| `Driver.GivesUpIff` | `client.go:218-224` | over every call that finds no node for its next request, an untried one would take it but for the check exactly when the check used up the probe of the only such node |
| `Driver.CheckStrandsACall` | `client.go:257-263` | a call that returns a certain 503 although an untried node was ready |
| `Driver.CautiousLandsOnce` | `client.go:243-248` | under cautious retries nothing follows a request that may have been carried out |
| `Driver.LandsTwiceOnlyAfterUncertain` | `client.go:240-273` | without them a change can land twice exactly after an uncertain failure that is tried again |
| `Driver.RetryAfterIsHonoured` | `client.go:257-298` | a Retry-After is waited out unless a certain 503 leaves an untried node to try |
| `Driver.BackoffOtherwise` | `client.go:281-287` | any other failure is tried again after the backoff |
| `Replay.Patience.Wait` | `consume.go:754-784` | whether a failure is waited out, and the run of failures afterwards |
| `Replay.PatienceIsBounded` | `consume.go:733-784` | the waits granted in one run of failures sum to at most the limit, so their number times the floor does |
| `ReplayTheorems.WaitsOutExactly` | `consume.go:754-784` | a failure in a run of failures is waited out exactly if it may be tried again, the caller is there, and its sleep ends within the limit counted from the first of the run |
| `Replay.ReadFrom` | `consume.go:627-654` | the loop computes what its turns give |
| `Replay.Describe` | `consume.go:698-713` | waits out trouble until every partition is available |
| `Replay.ReadParts` | `consume.go:717-730` | partitions one after the other, each only once the one before it is at its end |
| `Replay.Replay` | `consume.go:691-731` | reads nothing until every partition is available, then each from its oldest record, and is what its looks and turns make of it |
| `ReplayTheorems.BeginsOnceReadable` | `consume.go:698-713` | a replay begins at the first description that shows every partition readable, and gives up before only on trouble that is not to be waited out |
| `ReplayTheorems.HandsOverInOrder` | `consume.go:624-654` | records come in strictly increasing offset order, none twice, whatever fails |
| `ReplayTheorems.HandsOverTheLog` | `consume.go:627-654` | over a fixed log, what has been handed over is exactly what is retained up to where the read is |
| `ReplayTheorems.RecordsAre` | `consume.go:606-611` | which are the retained offsets of the range, each once, in order |
| `ReplayTheorems.ReadFromHandsOverTheLog` | `consume.go:617-654` | so a normal return has handed over the retained records from the start on and no others |
| `ReplayTheorems.GivesUpExactly` | `consume.go:627-654` | a read with patience gives up exactly at a failure that is not to be waited out, counted from the first failure since it last got anywhere, or whose wait is cut short |
| `ReplayTheorems.GivesUpAtOnce` | `consume.go:627-654` | without patience at any failure, and a negative offset is never sent |
| `ReplayTheorems.MissesNothing` | `consume.go:627-654` | over a live log, a normal return missed nothing that stayed retained |
| `ReplayTheorems.HandsOverWhatIsThere` | `consume.go:627-654` | and handed over nothing that was not retained when it was read |
| `ReplayTheorems.FollowsNewWrites` | `consume.go:644-667` | a record appended during a replay is handed over too |
| `ReplayTheorems.StopsAtTheEndItMet` | `consume.go:644-667` | a read that returns normally has had one answer for the offset the log ended at when it started, and stops there exactly when the log still ended there at that turn |
| `ReplayTheorems.ReadEnds` | `consume.go:627-784` | over a bounded log a read ends within a number of turns given by the offsets left and the waits one run of failures may have |
| `ReplayTheorems.ReadFromEnds` | `consume.go:627-784` | so every read of a partition ends |
| `ReplayTheorems.ReplayHandsOverTheLogs` | `consume.go:691-731` | a replay that returns normally over logs that do not change has found every partition available and handed over one list for each that the topic has, in the order of its stats: what the log of that partition retains from its oldest record on, nothing else, each once and in order |
| `ReplayTheorems.ReplayMissesNothing` | `consume.go:691-731` | over live logs it has missed nothing that stayed retained |
| `ReplayTheorems.ReplayEnds` | `consume.go:691-784` | over bounded logs the whole replay ends, its wait for the partitions included |
| `Ids.IdClock.NextTick` | `envelope.go:287-311` | gives out the tick of the first reading that has one, and waits only while none has |
| `Ids.TicksIncrease` | `envelope.go:268-311` | over any readings, ticks strictly increase and the count fits twelve bits |
| `Ids.TickFollowsTheClock` | `envelope.go:287-306` | a tick has the larger of the millisecond read and the last one, and its count starts again in a later one |
| `Ids.TicksFollowTheClock` | `envelope.go:287-311` | over any readings no tick has a millisecond that was not read |
| `Ids.WaitsOnlyWhenUsedUp` | `envelope.go:284-311` | no tick comes exactly when the count is used up and no reading passes the last millisecond |
| `Ids.PutBigEndian` | `envelope.go:322-323` | writes the low bytes of a number in place |
| `Ids.PackId` | `envelope.go:315-328` | the sixteen bytes of an id |
| `Ids.HexEncode` | `envelope.go:330-339` | writes hexadecimal digits in place |
| `Ids.PrintId` | `envelope.go:330-340` | the id as a dashed string |
| `Ids.NewId` | `envelope.go:315-341` | the id of the tick it takes; without random bytes no tick is spent |
| `Ids.IdOrder` | `envelope.go:313-341` | ids sort in the order of their ticks, whatever their random bytes |
| `Ids.LaterIdsAreGreater` | `envelope.go:268-341` | over any readings below 2^48 every later id is greater than every earlier one |
| `Ids.ReadsBack` | `envelope.go:313-341` | dashes, version and variant are right, and millisecond and count can be read back |
| `JsonSchema.ResolvedRefersToDefs` | `topics.go:535-539` | what a pointer leads to from a schema with only surviving references is the same in any resource, and has only such references or is in a resource of its own |
| `EnvelopeSchema.WrapSchema` | `topics.go:540-593` | the steps of the rewrite, with its errors for blank text and for anything but an object |
| `EnvelopeSchema.SameAccepts` | `topics.go:550-559` | a schema with surviving references only accepts the same under both roots, circular references included |
| `EnvelopeSchema.KeptAccepts` | `topics.go:550-559` | what is lifted or dropped takes no part in acceptance |
| `EnvelopeSchema.BodyAccepts` | `topics.go:550-580` | the body's schema under the new root accepts what the original accepts on its own |
| `EnvelopeSchema.EnvelopeKeywords` | `topics.go:566-580` | the envelope's keywords accept well formed envelopes with an accepted body and nothing else |
| `EnvelopeSchema.WrappedAccepts` | `topics.go:528-593` | the wrapped schema accepts a value exactly when it is a well formed envelope whose body the original accepts |
| `EnvelopeSchema.ReferencesThatSurvive` | `topics.go:535-539` | a reference leads to the same schema after wrapping, whatever the schema, exactly if it points into `$defs`, `definitions` or `$schema` or to another document |
| `EnvelopeSchema.RootReferenceChanges` | `topics.go:535-539` | a reference to the root means something else afterwards |
| `EnvelopeSchema.PropertyReferenceChanges` | `topics.go:535-539` | so does one into the schema's own properties |
| `Base64.ReadsBack` | `produce_batch.go:117-136` | every byte string comes back from its base64 text |
| `Base64.EncodeAlphabet` | `produce_batch.go:121-136` | base64 text needs no escaping in JSON |
| `Base64.TestVectors` | `produce_batch.go:121-136` | the text is that of RFC 4648, on its own test vectors |
| `BatchEncoding.BatchElement` | `produce_batch.go:111-142` | the text of an element is an object of exactly these members |
| `BatchEncoding.MembersReadBack` | `produce_batch.go:111-142` | the text of an object reads back as its members |
| `BatchEncoding.ElementReadsBack` | `produce_batch_test.go:82-109` | the broker stores the payload, key and partition that were added, for all byte strings |
| `BatchRequest.RequestReadsBack` | `produce_batch.go:95-142` | from the body of a request with any messages the broker stores exactly those messages, in order |
| `Batch.Batch.Add` | `produce_batch.go:63-93` | a message is taken exactly if the request with it is within 100 messages and 1 MiB, and which refusal it gets otherwise; a refused message changes nothing |
| `Batch.TakenExactlyWhenItFits` | `produce_batch.go:63-93` | it is refused for good exactly if no request could carry it |
| `Batch.Batch.Body` | `produce_batch.go:99-104` | the body is as long as the tracked size |
| `Batch.AlwaysSendable` | `produce_batch.go:63-104` | after any calls of Add the request is within 100 messages and 1 MiB |
| `Batch.FreshBatchTakesIt` | `produce_batch.go:74-90` | a message refused as full by size is taken by a fresh batch |
| `Batch.AloneIsSmallest` | `produce_batch.go:74-79` | a message alone makes the smallest request it can be part of |
| `MessageKey.KeySurvives` | `message.go:69-118` | every key survives being written out and read back |
| `MessageKey.MarkedWhenLost` | `message.go:103-118` | a key is marked base64 exactly when JSON would lose it |
| `Retry.Broker.Retry` | `envelope.go:224-267` | publish first, then ack: when anything is published at all, how many copies are stored, which of them is acked, and which error each failure gives |
| `Retry.CallKeepsOneLive` | `envelope.go:255-266` | a failed publish, a crash before the ack, or the ack itself leaves a live copy |
| `Retry.CallKeepsDescent` | `envelope.go:236-253` | each copy keeps key, body, headers and id and counts the next attempt |
| `Retry.ChainLosesNothing` | `envelope.go:205-267` | over any chain of calls a live copy always exists and all descend from the first |
| `Retry.IdNeverChanges` | `envelope.go:236-243` | an id that is not empty never changes |
| `Retry.OneMoreAttempt` | `envelope.go:138-141` | exactly when a copy counts one attempt more |
| `Retry.AckingFirstLoses` | `envelope.go:255-260` | the other order loses the message when the publish fails |

## Left out

- BatchTheorems.SendsSafely: the dispatcher's batches are values of a transition system, not an object that threads update; locks are the exclusion of critical sections. A round trip of a batch settle is one request and one reply there; `BatchSettle` models its rounds. The settling count is raised by handlers' own settles only, since a batch settle does not raise it and a single one of the dispatcher's is sent once its lease is released.
- BatchProgress.BoundedWork: counts steps, not time; tickers fire at any time and any number of times, and the grace period in `Consume` is not part of this model.
- Dispatch.OneOutcome: a panic of a handler is a failure of it, and reports to the error handler are not steps of their own.
- SettleTheorems.TreatsEachAsIfAlone: for messages that hold a lease; one that does not is refused alone and sent in a batch. The context's end is assumed to stop every later wait, though Go may choose a timer that fires at that very moment.
- SettleTheorems.BatchAckIsSound: for brokers that do not answer 410 to a whole request; `WholeRequestGone` is why.
- Errors.UncertainImplies: messages are the set of known phrases they contain; error text, wrapping and operation strings are not modelled.
- Breaker.NothingAdmittedEarly: for clocks that do not run backwards, as Go's monotonic clock does not.
- Nodes.NodeSet.Pick: one pick reads the clock once for all nodes, and its round-robin counter does not wrap at 2^64.
- Driver.Do: other callers change breakers between the attempts of a call in the source; here a call has the nodes to itself, and what others do to one node is in `Breaker.OneProbeAnEpisode`. The random backoff is any number.
- Replay.ReadFrom: for as many turns as the world gives; that they run out is `ReplayTheorems.ReadEnds`. The error a handler or a context gives is not told apart further.
- ReplayTheorems.ReadEnds: for a log that stays below a bound; on a log that grows as fast as it is read there is no end, as `FollowsNewWrites` suggests.
- Ids.LaterIdsAreGreater: for milliseconds below 2^48; beyond, the source drops the high bits.
- EnvelopeSchema.WrappedAccepts: for schemas whose references all survive, see `ReferencesThatSurvive`. References are pointers already split into names, and `$anchor`, `$dynamicRef` and unevaluated members are not keywords of the model. Fuel counts the steps from schema to schema; circular references run out of it on both sides alike.
- BatchRequest.RequestReadsBack: JSON values, strings and numbers are read and written by a library that is assumed to be lawful; white space, escapes and UTF-8 are its own.
- Batch.FreshBatchTakesIt: for the same encoded element; an enveloped message is encoded anew with a new id. A message refused because the batch holds 100 has not been encoded yet, so nothing is known of its size.
- Retry.ChainLosesNothing: only calls of Retry act on the copies; consumers that ack a copy for good are the end of a chain.
- HTTP, URLs, headers, TLS and reply decoding: an attempt has an outcome.
- Real timers, jitter and the worker pool in `Consume`, `Receive` and `pollBatch`.
- Logging, events and metrics: they report and keep no state.
- Topic administration, options and address parsing.
