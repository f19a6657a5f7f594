# A verified model of fleetnorm

fleetnorm reads vehicle fault events from sources, removes duplicates, routes each event by rules, and delivers it to
outputs with retries, keeping an audit row for every outcome. This project models the parts of it where a mistake
would lose, repeat, reorder or miscount an event, and proves what those parts promise.

`dafny verify dfyconfig.toml` checks everything.

## How it is laid out

* **The pipeline as a protocol.** `Protocol` is a transition system: any number of pollers and one worker per output
  move one critical section, channel operation, store call, send or audit write at a time, in any order, with
  cancellation, the drain timeout and dedupe sweeps allowed whenever the code allows them. An action carries what the
  environment answered (what a poll returned or skipped, what `MarkSeen` said, how a send ended). `Shape`, `Ledger`,
  `Conservation`, `Metrics`, `Order`, `Backpressure`, `Choices`, `Progress`, `Shutdown` and `Unmatched` each prove one
  invariant of every step; `Admission` and `Dedupe` tell from a source's steps alone what it must have dispatched;
  `Pipeline` combines them into statements about every run. `Runs` builds the concrete runs of `Nameless`, `TwoSources`
  and `Overflow`.
* **The sequential code it is made of**, as methods and classes: `Outputs` (an output's queue and its blocking-mode
  counter), `Delivery`, `Backoff` and `Webhook` (the retry loop and its waits), `Drain` (eager polling), `Routing` (the
  router). `Delivery.Deliver` is also shown to walk the protocol's worker step by step.
* **What dispatch rests on**: `Store` and `Timestamps` (the tables, their sweeps and the text order SQL compares),
  `Resume` (cursor plus dedupe set across failures and crashes), `Adapters` and `FileAdapter`, `Geotab` with `Faults`,
  `Sentinels` and `TagLists`.
* **Geotab client state**: `Cache` over `Fifo`, `Sessions`, `Limiter`, on the 64-bit durations of `Durations`.
* **Start-up**: `Config` (defaults and validation) and `Startup` (the wiring and `pipeline.New`), which prove that only
  the store, an unreadable file or a failed validation can keep a decoded config from becoming a pipeline.

## What is assumed

* Audit writes succeed, and `Send`, polls and store calls return. `MarkSeen` may fail, with or without having stored
  the id; `SetCursor` and `Cursor` may fail; polls may fail.
* A panic ends the process: nothing happens after one in a run. The only one the protocol has is a worker's backoff,
  which takes an output with `max_attempts` of 36 or more.
* `Store.NewAgainAfterSweep` assumes nothing about clocks. That two new answers are a whole retention apart assumes
  that a `MarkSeen` which runs after a sweep read its clock no earlier; `Store.NewAnswersAreFarApart` says what an
  overtaken reading costs.
* The limiter's slots are spaced while its clock is in range, which a clock that never steps back is. `newLimiter` takes
  `time.Now`, whose monotonic reading the later arithmetic keeps. On a clock of wall time alone a step back of about
  292 years would break the spacing; `Limiter.SpacingExactly` says exactly when.
* Integers are unbounded except where their width decides something: backoff shifts, `Retry-After` seconds, limiter
  durations and file cursors are 64-bit, with Go's wrap-around and saturation.

## Where the code and its description part

Each of these is proved, with the exact condition.

* `baseBackoff<<(attempt-1)` overflows. The documented spread, doubling from one second up to a minute, is what the
  code computes for attempts 1 to 34 and for eight later ones. The other attempts from 35 to 55 have a negative
  spread, on which `rand.N` panics; from the 56th on there is no wait at all. Validation accepts any
  `max_attempts` of at least 1. `Pipeline.OnlyBackoffPanics` and `Overflow.FailingOnPanics` are the two halves for the
  whole pipeline: nothing else panics, and whenever an output of 36 attempts or more is on one of its first 35 while the
  drain is not cut short, the run can go on to a panic.
* `Retry-After` seconds are multiplied in 64 bits. A request for 9223372037 seconds wraps to a negative delay and is
  answered with none, where the comment promises the cap.
* Dispatched at least once is not delivered at least once: an id is marked seen before it is queued, so a crash in
  between leaves an event that dedupe then swallows. `Resume.CrashLosesAnEvent` is such a run.
  `Resume.LostByCrash` and `Resume.AuditedExactly` say that only a crash step can do it.
* "Losing a cursor means replaying" holds only while the seed stays behind what is stored. An adapter polled with no
  cursor starts from its seed, and a relative `seed_from`, `0s` included, moves with the clock. So a failed `Cursor`
  read, or a crash after a failed first `SetCursor`, can pass over events for good: `Resume.UnreadCursorLosesEvents` and
  `Resume.UnsavedCursorLosesEvents` are such runs. A file, or an absolute date already past, never does
  (`Resume.FixedSeedIsWithin`). `Resume.UnreadMeansJumped` and `Resume.JumpedIsNeverRead` say that an event below the
  stored cursor was left unread exactly through a poll from a later seed.
* A fresh event behind historical ones can be dropped when there are two sources. It is classified once, at a step of
  its own; another source's drain can fill the queue before it is offered. `TwoSources.FreshBehindHistoricalDropped` is
  such a run. With one source the promise holds (`Pipeline.OneSourceQueues`), and an event classified while its output
  owed backlog events is only ever dropped by a shutdown (`Pipeline.TrackedIsNeverDropped`).
* "Never ask twice for the same id" needs room: a key that is fetched again keeps its old place in the eviction order,
  so when one answer brings it together with new keys to a full cache, the new ones can push it out again.
  `Fifo.KeptInEveryOrder` and `Fifo.LostInSomeOrder` say exactly when all of an answer is kept: when no key of it is
  among the oldest that have to make room.
* The delivery counters equal the audit rows for every output name except the empty one, under which unrouted events
  and skipped records are audited and not counted. `pipeline.New` accepts such an output, and
  `Nameless.NamelessOutputDiffers` is a run in which it shows. Validation refuses outputs without a name, so for a
  loaded config they are equal.

## Model

| member | source | states |
|---|---|---|
| Pipeline.StepInv | internal/pipeline/pipeline.go:356-433 | every step of any poller, worker, sweep, cancellation or close keeps all of the pipeline's invariants together |
| Pipeline.EveryOutcomeAudited | internal/pipeline/pipeline.go:356-475 | when Run returns, every event that passed deduplication has exactly one audit row for each target routing gave it, or exactly one unrouted row |
| Pipeline.EveryTargetAudited | internal/pipeline/pipeline.go:369-382 | the same, told by the targets the router returns for the event |
| Pipeline.EveryRowEarned | internal/pipeline/pipeline.go:356-413 | at any moment every audit row is a source's skipped record, or belongs to an event its source read and was not told to be a duplicate, and to one of that event's targets |
| Pipeline.SkipsAreReports | internal/pipeline/pipeline.go:222-239 | the rows of skipped records are the reports the sources made, one row for each and no others |
| Pipeline.NoRowTwice | internal/pipeline/pipeline.go:356-475 | no target of an event is ever audited twice |
| Pipeline.DispatchedAsAnswered | internal/pipeline/pipeline.go:356-367 | at any moment what a source has dispatched is exactly the events its polls returned, in order, less those answered to be duplicates; an event deduplication failed on is among them |
| Pipeline.EveryEventDecided | internal/pipeline/pipeline.go:276-305 | when Run returns, every event of every page was asked about, and that is all that was dispatched |
| Dedupe.AnswerDispatches | internal/pipeline/pipeline.go:357-366 | a duplicate leaves its source's log as it was; any other answer, an error included, appends exactly the next event read; the answers are true of the dedupe set |
| Dedupe.NoIdTwice | internal/pipeline/pipeline.go:357-366 | while the store answers for an id and does not sweep it, its source dispatches it at most once, and never if it was in the set to begin with |
| Dedupe.NoDuplicates | internal/pipeline/pipeline.go:357-366 | in a run whose answers are all new or duplicate and that sweeps nothing, the ids of a log all differ and none was in the set at the start |
| Dedupe.SeenWasDispatched | internal/store/store.go:113-125 | an id in the set was there at the start or was stored with an event that was dispatched, so nothing else is taken for a duplicate |
| Pipeline.CountersMatchRows | internal/pipeline/pipeline.go:399-475 | when Run returns, an output's delivery counter per status is the number of its rows with that status; only for dropped rows of an output with the empty name does it fall short, by one for each skip reported and each admitted event nothing matched |
| Pipeline.NamelessRowsAre | internal/pipeline/pipeline.go:368-376 | when Run returns, the rows that name no output are exactly one for each reported skip and one for each admitted event nothing matched |
| Unmatched.StepFiled | internal/pipeline/pipeline.go:368-376 | every step keeps the unrouted rows equal to the unrouted events pollers are done with |
| Nameless.NamelessOutputDiffers | internal/pipeline/pipeline.go:230-239 | a run in which it does differ: an output without a name, nothing unrouted, one skipped record |
| Pipeline.LedgerHolds | internal/pipeline/pipeline.go:86-134 | in every state `outstanding` is the tracked events held by pollers, in the queue and by the worker; it is never negative, and zero when Run returns |
| Pipeline.ModeEnds | internal/pipeline/pipeline.go:121-134 | unless the process panicked, once an output's worker has nothing left to do, only events still in pollers' hands keep it in blocking mode |
| Pipeline.BacklogIsWorkedOff | internal/pipeline/pipeline.go:418-475 | over any stretch of any run, a worker takes no more steps than the work it had plus a fixed cost per arrival |
| Pipeline.DrainsCannotDrop | internal/pipeline/pipeline.go:290-297 | a row saying the queue was full is never an event of a backlog or eager page, and was decided at a step where its output's counter was zero |
| Pipeline.DrainedIsNeverDropped | internal/pipeline/pipeline.go:290-324 | told by the steps alone: an event read by a poll that reported a backlog, or that was made behind another page with no tick in between, never gets a full-queue row |
| Pipeline.FullQueueWasFull | internal/pipeline/pipeline.go:390-401 | and such a row is true: at some step its target was offered to its output's queue and that held as many events as its buffer |
| Pipeline.QueuesAreBounded | internal/pipeline/pipeline.go:390-394 | no queue ever holds more than its buffer |
| Pipeline.OnlyTrackedWait | internal/pipeline/pipeline.go:383-413 | a poller waits for room only with a target classified while its page waits or its output owes backlog events; a live event never holds it up |
| Pipeline.ClassifiedOnce | internal/pipeline/pipeline.go:383-389 | no target of an event is classified as live or tracked twice |
| Pipeline.TrackedIsNeverDropped | internal/pipeline/pipeline.go:383-413 | a target classified while its page blocks, or while its output owes backlog events, is never dropped by a full queue or for want of an output; if it is dropped at all, the row blames a shutdown and there was one |
| Pipeline.TrackedLeavesByShutdown | internal/pipeline/pipeline.go:390-413 | in every run, a step of a poller offering a tracked event enqueues it, goes on waiting for room, or gives it up after a cancellation under that cause |
| Pipeline.ShutdownRowsAreTrue | internal/pipeline/pipeline.go:409-470 | in every state of every run, a row put down to shutdown follows a cancellation, and one about an attempt under way follows the end of the drain window; so do the rows workers and pollers are about to write |
| Shutdown.StepHonest | internal/pipeline/pipeline.go:409-470 | every step keeps that, for the log and for the rows in hand |
| Shutdown.TimeoutStopsSending | internal/pipeline/pipeline.go:212-219 | after the drain timeout an output is sent at most once more: the attempt under way, or one whose wait had just ended |
| Pipeline.OneSourceQueues | internal/pipeline/pipeline.go:386-401 | with one source each queue is untracked events followed by tracked ones, and the counter is still zero when a live event is dropped |
| TwoSources.FreshBehindHistoricalDropped | internal/pipeline/pipeline.go:10-13 | with two, a run that drops a fresh event on a full queue while the output owes the historical one in it |
| Pipeline.SentInOrder | internal/pipeline/pipeline.go:377-433 | what an output is sent, restricted to one source, never goes backwards in that source's dispatch order, retries included |
| Pipeline.NoSendOnClosed | internal/pipeline/pipeline.go:202-213 | no send of any run meets a closed channel |
| Pipeline.OnlyBackoffPanics | internal/pipeline/pipeline.go:477-486 | a run that panicked did so in a worker's backoff, after an attempt whose shift is negative and before the last |
| Overflow.FailingOnPanics | internal/pipeline/pipeline.go:438-466 | any run in which an output of 36 attempts or more is on one of its first 35, the drain not cut short, can go on to a panic |
| Pipeline.NeverStuck | internal/pipeline/pipeline.go:184-220 | until Run returns or a backoff panics some step other than a cancellation, sweep or timeout is possible; nothing panics if every output has at most 35 attempts |
| Progress.PollerNotStuck | internal/pipeline/pipeline.go:402-413 | a poller that cannot move waits on a full, open queue whose worker can move |
| Progress.WorkerNotStuck | internal/pipeline/pipeline.go:418-433 | a worker that has not panicked rests only on an open, empty queue, or for good |
| Progress.ShutdownDescends | internal/pipeline/pipeline.go:202-219 | once the pollers are done every possible step lowers a measure over queues and remaining attempts |
| Pipeline.ShutdownIsFinite | internal/pipeline/pipeline.go:202-219 | so from then on the run has at most that many steps left |
| Conservation.StepConserved | internal/pipeline/pipeline.go:356-433 | every target of an admitted event stays in exactly one place: ahead of its poller, queued, with a worker, or audited |
| Ledger.StepBalanced | internal/pipeline/pipeline.go:109-134 | every step keeps the blocking-mode ledger balanced for every output |
| Metrics.StepTallied | internal/pipeline/pipeline.go:399-475 | every step keeps each counter equal to the rows written plus those about to be |
| Metrics.StepRowsOk | internal/pipeline/pipeline.go:370-475 | every audit row's status, attempts and cause belong together |
| Order.StepOrdered | internal/pipeline/pipeline.go:377-433 | every step keeps each output's line behind its sources' frontiers and in their order |
| Backpressure.StepDecided | internal/pipeline/pipeline.go:386-401 | every live attempt and every full-queue row goes back to a classification made while the counter was zero |
| Admission.StepFollows | internal/pipeline/pipeline.go:276-305 | every step keeps a source's log, the page in its hands, its eagerness, its backlog flag and its turn to poll as its past steps say they must be |
| Admission.ReadWaits | internal/pipeline/pipeline.go:290-297 | an event waits for room exactly if the poll that read it reported a backlog or was made behind another page with no tick in between |
| Admission.GoesOnFromBacklog | internal/pipeline/pipeline.go:250-256 | a source polls again without sleeping only behind a page that reported a backlog |
| Admission.PollsInTurn | internal/pipeline/pipeline.go:248-263 | one poll a turn: after each, failed or not, the source sleeps or goes on from its page before the next |
| Outputs.Output.Track | internal/pipeline/pipeline.go:109-119 | raises the counter by one; with Settle it keeps blockedFor equal to the total time spent above zero |
| Outputs.Output.Settle | internal/pipeline/pipeline.go:121-134 | lowers the counter by one; the stretch that ends is added to blockedFor |
| Outputs.Output.Behind | internal/pipeline/pipeline.go:102-107 | true exactly when the counter is above zero |
| Outputs.Output.TrySend | internal/pipeline/pipeline.go:390-394 | appends exactly when there is room, and otherwise changes nothing |
| Outputs.Output.Offer | internal/pipeline/pipeline.go:383-413 | one event offered to one output with any steps of others in between: it is tracked exactly for a waiting page or a counter above zero when that is read, joins the queue exactly once if enqueued and not at all otherwise; a full queue drops only what was not tracked, a tracked event leaves without an enqueue only on cancellation, and the counter is raised by one exactly when a tracked event stays behind |
| Outputs.Output.WorkOff | internal/pipeline/pipeline.go:418-433 | after close the queue is taken to the end in order and the counter falls by exactly its tracked entries |
| Delivery.Deliver | internal/pipeline/pipeline.go:435-475 | at most maxAttempts sends, none after success, rejection or cancellation; one row whose status, attempts and cause follow from the last attempt, or a panic exactly when that attempt's backoff is due and overflows; waits only between sends; and the protocol's worker walks the same way |
| Delivery.AfterSend | internal/pipeline/pipeline.go:439-469 | what one send leads to: a row, another attempt after an allowed wait, or a panic in the backoff |
| Delivery.WaitFor | internal/pipeline/pipeline.go:480-486 | a wait is the delay the destination asked for, or lies between half the spread and the spread |
| Delivery.WaitingIsBounded | internal/pipeline/pipeline.go:480-486 | one event's waiting is at most its waits times the larger of a minute and the Retry-After cap |
| Delivery.PanicNeedsThirtySixAttempts | internal/pipeline/pipeline.go:438-466 | some backoff panics exactly when an output is configured with 36 attempts or more |
| Backoff.BackoffExactly | internal/pipeline/pipeline.go:477-486 | for every attempt: exactly when the backoff is the documented one, when it panics, and when it is zero |
| Backoff.Jittered | internal/pipeline/pipeline.go:484-485 | the jittered wait lies between half the spread and the spread |
| Webhook.RetryAfter | internal/output/webhook/webhook.go:162-185 | the delay is what 64-bit arithmetic makes of the header, within zero and the cap, and absent for an unusable header (section 10.2.3 of RFC 9110) |
| Webhook.RetryAfterExactly | internal/output/webhook/webhook.go:169-184 | the delay is the documented one exactly for dates, for seconds that fit a Duration, and for products that wrap to the right side |
| Webhook.HugeRetryAfterIsIgnored | internal/output/webhook/webhook.go:172 | 9223372037 seconds gives no delay where the cap was promised |
| Webhook.RetriedStatuses | internal/output/webhook/webhook.go:132-160 | another attempt exactly on 408, 429 and 5xx, permanent failure on every other non-2xx, and a delay only from 429 and 503 with a usable header, where it is the one that header is given |
| Drain.DrainFrom | internal/pipeline/pipeline.go:312-350 | the loop makes exactly the polls of the round its guards and pauses allow, and returns the last result |
| Drain.PollRound | internal/pipeline/pipeline.go:250-256 | one turn of the poll loop is a live poll, then a drain if it reported a backlog, at most 500 polls in all |
| Drain.FinishedIsRound | internal/pipeline/pipeline.go:307-340 | a round goes on exactly from a successful page with a backlog that moved the cursor, under the cap and after a full pause |
| Drain.RoundIsGuarded | internal/pipeline/pipeline.go:312-350 | under any failures at most 500 polls, all but the last successful, handing back the last successful page's cursor |
| Drain.RoundEndsExactly | internal/pipeline/pipeline.go:319-340 | a round ends exactly after a failed poll, a page with nothing behind it, the 500th poll, a pause cut short or an eager page that left the cursor where it was |
| Drain.EagerDrainClosedForm | internal/pipeline/pipeline.go:312-350 | N records after the cursor in pages of L take exactly min(N/L + 1, 500) polls and give exactly min(N, 500 L) records |
| Resume.StepInv | internal/pipeline/pipeline.go:276-305 | polls, store errors, sweeps, crashes and restarts, wherever a seed lies, keep every dispatch in flight, audited or lost, and repeat none while the store is clean |
| Resume.StepCovered | internal/pipeline/pipeline.go:276-305 | every step, unless a poll from a seed past what is stored, keeps everything from the first seed to the stored cursor dispatched |
| Resume.AtLeastOnceDispatched | internal/pipeline/pipeline.go:276-305 | under any pattern of failures, crashes and restarts in which no poll from a seed begins past what is stored, every id from the first seed to the stored cursor was dispatched at least once |
| Resume.AtMostOnceDispatched | internal/pipeline/pipeline.go:356-367 | no id is dispatched twice if MarkSeen never failed and nothing was swept, wherever seeds lie |
| Resume.ExactlyOnceDispatched | internal/pipeline/pipeline.go:356-367 | under both conditions, exactly once |
| Resume.StartResumes | internal/pipeline/pipeline.go:241-249 | the first page after a start begins at the stored cursor if it could be read, and at the seed only if it could not or there was none |
| Resume.PagesFollowOn | internal/pipeline/pipeline.go:249-258 | every later page begins where the one before it ended, whether or not that could be stored |
| Resume.UnmovedIsNotStored | internal/pipeline/pipeline.go:298-303 | a cursor is stored only when it moved; one that could not be is not tried again until a page has something new |
| Resume.FixedSeedIsWithin | internal/config/config.go:622-627 | a seed that does not move never begins past what is stored |
| Resume.UnreadMeansJumped | internal/adapter/geotab/geotab.go:241-248 | whatever the seeds do, an event below the stored cursor was looked at, or a poll from a later seed jumped it before anyone had |
| Resume.JumpedIsNeverRead | internal/pipeline/pipeline.go:298-303 | once such a poll's page is saved, the event is not looked at again unless a later seed lies at or before it |
| Resume.UnreadCursorLosesEvents | internal/pipeline/pipeline.go:243-246 | a run without a crash in which a failed cursor read passes an event over |
| Resume.UnsavedCursorLosesEvents | internal/pipeline/pipeline.go:298-303 | a run in which a first cursor that could not be saved does |
| Resume.LostByCrash | internal/pipeline/pipeline.go:357-359 | a dispatch is lost exactly when some crash step of the run came while it was in flight |
| Resume.AuditedExactly | internal/pipeline/pipeline.go:357-359 | an id has reached the audit log exactly if one of its dispatches is over and no crash step came in the middle of that one |
| Resume.AuditedUnlessCrashed | internal/pipeline/pipeline.go:276-305 | in a run without a crash and with no poll from a seed past what is stored, whenever the process is down every id from the first seed to the stored cursor has reached the audit log |
| Resume.CrashLosesAnEvent | internal/pipeline/pipeline.go:357-361 | a run in which a crash between marking and delivering loses an event for good |
| Store.Store.Cursor | internal/store/store.go:94-102 | the stored cursor, or the empty one for an adapter that has never run |
| Store.Store.SetCursor | internal/store/store.go:104-111 | replaces that adapter's cursor and no other |
| Store.Store.MarkSeen | internal/store/store.go:113-125 | new exactly when the id is not in the table, which then holds it under the time of its first appearance |
| Store.Store.SweepSeen | internal/store/store.go:127-136 | removes exactly the entries whose text is before the cutoff's and counts them |
| Store.Store.Audit | internal/store/store.go:162-174 | appends one row, stamped with the record's time or the clock's |
| Store.Store.SweepAudit | internal/store/store.go:138-148 | removes exactly the rows whose text is before the cutoff's, keeping the order of the rest |
| Store.Store.AuditFor | internal/store/store.go:175-198 | the rows of one event, oldest first |
| Store.RowsOfExactly | internal/store/store.go:175-198 | those are exactly the rows with its id, as often and in the order they were written |
| Store.Store.SweepTick | internal/pipeline/pipeline.go:500-528 | one turn of the sweeper: both tables are cut at the retention before one clock reading, and an audit retention that is not positive removes no audit row |
| Store.SweepKeeps | internal/store/store.go:138-148 | a row survives exactly when it is not before the cutoff in whole milliseconds; one younger than its retention always does |
| Store.SweepForgets | internal/store/store.go:127-136 | a dedupe entry goes exactly when it is before the cutoff in whole milliseconds, so at the latest a millisecond past its retention |
| Store.EntryLasts | internal/store/store.go:113-136 | a dedupe entry stays, with its first time, until a sweep whose clock is more than the retention past it |
| Store.NewAgainAfterSweep | internal/store/store.go:113-136 | whatever the clocks say, between two new answers for one adapter and id there was a sweep more than the retention after the first |
| Store.NewAnswersAreFarApart | internal/store/store.go:113-136 | those answers are more than the dedupe retention apart, less the time by which a mark's clock reading was overtaken by a sweep that ran before it |
| Timestamps.TextOrderIsTimeOrder | internal/store/store.go:16-20 | timestamp texts compare exactly as their times do, truncated to milliseconds, for every pair of dates with a four-digit year |
| Routing.Check | internal/router/router.go:59-89 | a rule matches exactly when every condition it sets holds, an absent value meeting none that asks about it |
| Routing.ConditionsNarrow | internal/router/router.go:59-89 | a rule that sets no condition takes every event, and each text it asks for narrows that to the events that have it |
| Routing.CodesAndTagsNarrow | internal/router/router.go:59-89 | the same for severities, SPNs, FMIs and tags; an event without a value meets no condition on it |
| Routing.Contains | internal/config/config.go:551-562 | a number is in the set exactly when some range covers it |
| Routing.Router.constructor | internal/router/router.go:25-36 | a rule without a label gets its name or position; no label is blank |
| Routing.LabelsTellRules | internal/router/router.go:25-36 | a rule that has a name is labelled by it, and labels of rules without one differ |
| Routing.Router.RouteEvent | internal/router/router.go:38-57 | the loop computes the first target per output over the routes of all matching rules, concatenated |
| Routing.Router.AddTargets | internal/router/router.go:50-54 | one rule's outputs are added each unless already named |
| Routing.FirstPerOutputNames | internal/router/router.go:51-53 | deduplication loses no output and adds none |
| Routing.FirstPerOutputKeepsFirst | internal/router/router.go:41-43 | each output keeps the target that named it first |
| Routing.FirstPerOutputOrdered | internal/router/router.go:38-39 | in the order those first mentions appeared |
| Routing.RouteReaches | internal/router/router.go:38-57 | an output receives an event exactly when some matching rule names it |
| Routing.RouteLabel | internal/router/router.go:41-43 | each target carries the label of the first matching rule naming its output |
| Routing.RouteDistinct | internal/router/router.go:41-43 | one target per output |
| Routing.AppendingRulesExtends | internal/router/router.go:44-57 | appending rules only extends the result at its end |
| Routing.PermutingRulesKeepsOutputs | internal/router/router.go:44-57 | reordering rules never changes who receives |
| Adapters.CeilingInRecords | internal/adapter/adapter.go:56-67 | a poll is refused exactly when it saw at least ten records and skipped more than it kept |
| FileAdapter.FileAdapter.Poll | internal/adapter/file/file.go:97-156 | what a poll returns, strict or lenient, and that a failing one returns nothing, keeps the cursor and reports no skip |
| FileAdapter.CursorRoundTrip | internal/adapter/file/file.go:155-167 | a cursor the adapter wrote reads back as its count, for every count an int holds and no other |
| FileAdapter.EveryRecordPlaced | internal/adapter/file/file.go:118-142 | each record of a batch has its one place among the events or the skips, with its event or its locator and reason |
| FileAdapter.ReplayIsExact | internal/adapter/file/file.go:97-156 | over any mix of successful and failed polls of a growing file, the events given are exactly the usable records read so far, once each and in order, and every other one was reported once |
| FileAdapter.PollAll | internal/pipeline/pipeline.go:241-305 | polling again and again with the cursor handed back adds up to AfterPolls: events, cursor and reports, with failed polls changing none of them |
| FileAdapter.ShrunkStartsOver | internal/adapter/file/file.go:115-121 | a file with fewer records than the cursor is replayed as if there were no cursor |
| FileAdapter.GrowthRecovers | internal/adapter/file/file.go:143-148 | a refused batch is accepted after growth exactly when its usable records catch up with the unusable ones |
| Sentinels.SentinelsByShape | internal/adapter/geotab/sentinel.go:41-85 | an id counts as a sentinel exactly at failureMode and controller and exactly by its shape; every listed one has it |
| Sentinels.SentinelMeanings | internal/adapter/geotab/sentinel.go:41-74 | which of them stand for absence and which for themselves |
| Faults.Lookup | internal/adapter/geotab/geotab.go:463-490 | a reference is absent, a sentinel, answered or missing, and the lists grow by exactly the missing and the unknown |
| Faults.Normalize | internal/adapter/geotab/geotab.go:417-587 | the event's id, vin, unit, severity, spn, fmi and every decided tag, for every record and answer; refused exactly without an id or when it does not validate |
| Faults.RendersOnce | internal/adapter/geotab/geotab.go:417-587 | that description determines the event |
| Faults.SeveritiesExactly | internal/adapter/geotab/geotab.go:104-140 | critical exactly by the source's word or, without one, the red stop lamp; info exactly by the source's word; the lamps are named exactly when they changed the outcome, and a word not understood is kept |
| Faults.StandardsExactly | internal/adapter/geotab/geotab.go:92-102 | a found diagnostic's source is always tagged, as its standard where it stands for one and as it arrived otherwise |
| Faults.NoCodeLost | internal/adapter/geotab/geotab.go:489-520 | every code found becomes the SPN or FMI it can be, or else a tag, and never both |
| Faults.DevicesAndControllers | internal/adapter/geotab/geotab.go:463-536 | the VIN is the device's own or, marked as such, its id; a controller that means something is named |
| Faults.UnresolvedReadsBack | internal/adapter/geotab/geotab.go:538-541 | the unresolved tag exists exactly when some reference is missing; it splits back into the names of the missing ones, sorted, once each and no other name |
| Faults.UnknownReadsBack | internal/adapter/geotab/geotab.go:542-545 | the tag of unknown sentinels exists exactly when some reference is one, and splits back into where each stood and what it was |
| Faults.IdsTold | internal/adapter/geotab/geotab.go:417-447 | the source's id and version are tagged, a hash that stands in for the version is marked, and so is an SPN beyond 19 bits |
| TagLists.SortSorts | internal/adapter/geotab/geotab.go:538-545 | the sorted list is in byte order and has the same members |
| TagLists.JoinReadsBack | internal/adapter/geotab/geotab.go:540 | names without commas read back from a joined tag |
| Geotab.RequestsExactly | internal/adapter/geotab/geotab.go:320-338 | the ids looked up for a type are exactly the references present, sentinels at sentinel sites excepted |
| Geotab.Enrich | internal/adapter/geotab/geotab.go:320-350 | one lookup per type that has something to ask, over all of the page's references |
| Geotab.LookupsAgree | internal/adapter/geotab/sentinel.go:77-85 | what was asked for the page and what an event explains agree for every record and reference |
| Geotab.UnresolvedIsExact | internal/adapter/geotab/geotab.go:463-490 | an event has an unresolved tag exactly when its page's lookup was asked about one of its references in vain, and the tag names exactly those |
| Geotab.Decode | internal/adapter/geotab/geotab.go:253-264 | the records are exactly the entries that decode, with their places; every other entry is skipped, named by its place |
| Geotab.NormalizeAll | internal/adapter/geotab/geotab.go:268-276 | the events are those of the usable records, in order; every other record is skipped, named by its id or its place |
| Geotab.AtExactly | internal/adapter/geotab/geotab.go:253-276 | the indexes with one fate are in page order and exactly those with it |
| Geotab.FatesPartition | internal/adapter/geotab/geotab.go:253-276 | every index of a page has one fate: it does not decode, cannot be used, or becomes an event |
| Geotab.UsableOrNot | internal/adapter/geotab/geotab.go:268-276 | no record is both usable and not |
| Geotab.Adapter.Poll | internal/adapter/geotab/geotab.go:233-302 | on success the events are the page's usable entries in page order and the skips name all others once; success and the backlog flag exactly; a failed poll returns nothing, keeps the cursor and reports no skip |
| Fifo.PutKeepsFifo | internal/adapter/geotab/cache.go:114-125 | a put keeps the keys held equal to the latest insertions, once each, never more than max |
| Fifo.HeldExactly | internal/adapter/geotab/cache.go:114-125 | a key is held exactly when it is among the latest max insertions |
| Fifo.KeptInEveryOrder | internal/adapter/geotab/cache.go:107-110 | all keys of one answer are held in the end, whatever order they are put in, if none is among the oldest that have to make room |
| Fifo.LostInSomeOrder | internal/adapter/geotab/cache.go:107-110 | and otherwise some order loses one |
| Cache.KeysNeverMix | internal/adapter/geotab/cache.go:54 | entity types without a slash never share a key |
| Cache.SlashesMix | internal/adapter/geotab/cache.go:54 | types with one can |
| Cache.Cache.constructor | internal/adapter/geotab/cache.go:62-76 | an empty cache with defaults for a refresh or size that is not positive |
| Cache.Cache.MissesExactly | internal/adapter/geotab/cache.go:87-97 | the ids fetched are the requested ones that are non-empty and not freshly cached, once each |
| Cache.Cache.HitsExactly | internal/adapter/geotab/cache.go:87-97 | the ids answered from the cache are the requested ones that are freshly cached, with what is held for them |
| Cache.Cache.Lookup | internal/adapter/geotab/cache.go:84-98 | the first critical section finds exactly those hits and misses |
| Cache.Cache.PutEntry | internal/adapter/geotab/cache.go:114-125 | what was put is held under its stamp, an older entry for it replaced; what else is held is untouched, and a new key meeting a full cache evicts the first inserted |
| Cache.Cache.Resolve | internal/adapter/geotab/cache.go:78-112 | with any other calls running during the fetch: one fetch for exactly the misses; the answer is complete even if storing it evicts; every entity came from this fetch or one for the same type and id less than refresh ago; what was fetched replaces what was held, and if no other call put anything and there was room, all of it is fresh until refresh after its stamp |
| Cache.Cache.NothingMissing | internal/adapter/geotab/cache.go:100-102 | ids that are all fresh cost no fetch |
| Sessions.Client.Refresh | internal/adapter/geotab/client.go:124-168 | authenticates exactly when nobody replaced the stale session yet; gets a session exactly for a reply with an id, with that id and the url the reply's path names, or the configured one for none or ThisServer; replaces the shared one only on success |
| Sessions.StepInv | internal/adapter/geotab/client.go:114-168 | callers interleaved in any way keep the sessions one chain and their calls bounded |
| Sessions.ReplacedAtMostOnce | internal/adapter/geotab/client.go:124-140 | each session, and the absence of one, is replaced at most once |
| Sessions.RenewalIsLater | internal/adapter/geotab/client.go:270-294 | a caller whose session was rejected gets a later one or an error |
| Sessions.CallIsBounded | internal/adapter/geotab/client.go:270-294 | one call posts at most twice and re-authenticates at most once |
| Sessions.IssuedAsNamed | internal/adapter/geotab/client.go:142-168 | in every run each session is what the Authenticate reply at the step that obtained it names |
| Sessions.SessionStaysHome | internal/adapter/geotab/client.go:142-168 | so a session id is only ever posted to the url named by the Authenticate reply it came in |
| Sessions.AnswerDecides | internal/adapter/geotab/client.go:270-294 | success and every failure end a call, except a call's first answer when it rejects the session, which is then renewed |
| Limiter.Limiter.Wait | internal/adapter/geotab/client.go:430-438 | reserves the next slot, not before the promised one, and promises one a full interval later |
| Limiter.SpacingExactly | internal/adapter/geotab/client.go:430-438 | one reservation keeps the spacing exactly when the clock is in range |
| Limiter.SteadyClockIsInRange | internal/adapter/geotab/client.go:426-437 | a clock that never steps back is in range at every reservation, until the slots still ahead of it fill a Duration |
| Limiter.SlotsAreSpaced | internal/adapter/geotab/client.go:430-438 | reserved slots are an interval apart, whatever the clock does within that range, cancelled waits included |
| Limiter.WindowBound | internal/adapter/geotab/client.go:414-424 | any half-open window of k intervals holds at most k reserved slots |
| Limiter.MinuteBudgets | internal/adapter/geotab/client.go:85-89 | any minute holds at most 60 feed slots and 500 Get slots |
| Limiter.SteadyBudgets | internal/adapter/geotab/client.go:85-89 | so it does for every clock that never steps back, as long as no more than nine billion calls wait at once |
| Config.Config.ApplyDefaults | internal/config/config.go:219-277 | omitted fields, and only those, take their defaults, and every rule gets a label |
| Config.DefaultsSettle | internal/config/config.go:219-277 | a second pass changes nothing, and an explicit zero audit retention survives |
| Config.GivenIsKept | internal/config/config.go:219-277 | whatever was given is kept |
| Config.OmittedFalls | internal/config/config.go:219-277 | whatever was left out gets the documented value, where its kind has one |
| Config.CheckAdapters | internal/config/config.go:313-357 | every fault of every adapter, a repeated name pointing at its first use, and nothing else |
| Config.CheckOutputs | internal/config/config.go:363-397 | every fault of every output, and nothing else |
| Config.CheckRules | internal/config/config.go:402-413 | every fault of every rule, a route to an unknown output among them, and nothing else |
| Config.Config.Validate | internal/config/config.go:302-428 | one run reports every problem there is and no other |
| Startup.BuildSources | cmd/fleetnorm/main.go:116-155 | every adapter opens, or the first that does not is reported |
| Startup.BuildDestinations | cmd/fleetnorm/main.go:157-189 | one destination per output, one attempt for those without a retry policy |
| Startup.New | internal/pipeline/pipeline.go:144-177 | accepts exactly something to read, something to write to, distinct names and positive buffers and attempts |
| Startup.LoadedSourcesOpen | internal/config/config.go:1-3 | an adapter of a loaded config opens exactly unless it is a file that cannot be read |
| Startup.LoadedOutputsConnect | internal/config/config.go:1-3 | every output of a loaded config connects, with a positive buffer and attempts |
| Startup.LoadedNamesDiffer | internal/config/config.go:369-375 | no two outputs of a loaded config share a name |
| Startup.LoadedRoutesExist | internal/config/config.go:407-411 | every name a rule of a loaded config routes to is an output's |
| Startup.LoadedConfigIsWired | internal/pipeline/pipeline.go:378-382 | every target of every event leads to a registered output under a label that is not blank |
| Startup.Start | cmd/fleetnorm/main.go:49-90 | a decoded config, its omitted fields filled, becomes a pipeline exactly if it validates, its store opens and its files can be read; the pipeline has every adapter, every output with its buffer and attempts, and every rule, in their order; otherwise the one thing that failed is reported |
| Startup.NoSuchOutputIsUnreachable | internal/pipeline/pipeline.go:378-382 | for a loaded config no run ever audits an event as routed to an output that does not exist, and every routed row names its rule |
| Startup.CountersAreExact | internal/pipeline/pipeline.go:399-475 | for a loaded config the delivery counters equal the audit rows |

## Left out

* The concurrent part of the pipeline is a transition system on values, not objects with locks: a lock-protected
  section or channel operation is one step. `Outputs.Output` has the object form of one output's share of that state,
  and `Offer` a poller's dealings with it while others act.
* Progress is stated as possibility and as bounds on steps. Scheduler fairness, and so that a possible step is
  eventually taken, is not modelled; neither is the time a step takes.
* `dest.blockedFor` is exact in `Outputs`; the durations `dispatch` and `drain` add up for their log lines are not modelled.
* In `Protocol` the cursor is not written and an id can leave the dedupe set at any time; `Resume` and `Store` have
  the cursor and the sweeps. The audit log of `Protocol` is never swept.
* `Resume` counts an event as dispatched when `MarkSeen` admits it. Power loss under SQLite's relaxed syncing is out
  of scope; a crash there is a process crash.
* SQLite, its statements' execution, transactions and pragmas: the tables are maps and a sequence with atomic operations.
* HTTP, JSON, HMAC signing, `contentHash`, `url.Parse` and redirects: given values or given functions.
* CSV and JSON readers, `csvDoc`, `tagValue` and the file adapter's `normalize`: a record of `FileAdapter` is the event
  it yields or the reason it yields none.
* Faults.Normalize: does not model the tags and fields that copy one property verbatim (lamps, class code, dismissal,
  description and the like), nor the text of the reason a record is refused; `Event.Validate` is a given predicate.
* Geotab.Adapter.Poll: does not compute the seed date of a first poll, and takes the feed's answer and the resolver as
  given. `Resume` has what a seed date that moves does to the cursor.
* Cache.Cache.Resolve: ages are unbounded integers, so the saturation of a subtraction across centuries is not modelled.
* Sessions.StepInv: does not model the one repeat `post` makes of a read after a transport error that is not a timeout,
  and `endpoint` is a given function.
* Limiter.MinuteBudgets: is about reserved slots; a call repeated inside `call` or `post` is not paced again.
* YAML decoding, reading secrets from the environment, redaction, error texts and logging. `Config` starts from the decoded fields.
* Config.Config.Validate: reports which problems exist, not their wording or order; a field given with the value its
  type starts from counts as omitted, as in the source.
* The counters of polled, duplicate, unrouted and skipped records; the delivery counters are modelled.
* `internal/server`, the stdout output, metrics rendering, fixtures and the live test programs.
