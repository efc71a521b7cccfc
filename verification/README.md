# Model of the email platform's send pipeline, audience, shop-order and storage logic

This project states, in Dafny, what the platform's workers do and proves the properties they
are built for. `dafny verify dfyconfig.toml` checks all of it.

**Send pipeline.** `Pipeline.dfy` is a labelled transition system over campaigns, recipient
rows, the send queue (one job per recipient), the prepaid quota, the provider and the rate log.
Campaign recipients and automation ("flow") sends share one table; a row without a campaign is
a flow send. The worker runs in phases — check, reserve, persist the operation id, call, log,
settle, finish — and may crash between any two; jobs may be lost; the stale sweep, campaign
commands, dispatch, quota purchases and the clock interleave freely. On top of it:

- `OnceOnly`: at most one message per recipient; `Ledger`: the quota adds up;
  `Finalisation`: closed campaigns are drained, and exactly when they stay so;
  `Commands` and `Pausing`: what campaign commands and the end of a dispatch write, exactly
  when the tick can close what was dispatched, and that a pause holds;
  `WindowBound`, `MidSend` and `CampaignSends`: the rolling-window bound, with the
  excess that workers mid-send and late worker deaths can add, and runs that reach it;
  `ProviderWindow`: the same for what the provider takes, counted when it is called;
  `Recovery` and `RecoveryRuns`: what the sweep means, exactly when it is sure to recover a
  row, and how long a row can stay stranded; `Termination` and `Liveness`: every recipient is
  decided, rerouted at most once.
- `Tick`, `Worker` and `Reroute` are the scheduler tick, one send and the sender search as the
  program runs them, step by step. `TickSafety` and `WorkerSafety` prove what they compute and
  that each is a run of the transition system, so every theorem about runs covers them.
- `SlidingWindow` is the Redis rate limiter (a pruned, expiring sorted set); `QuotaRefund` the
  classification of failed sends; `RecipientBlock` the sending rules and their globs.

Two granularities appear. `OnceOnly` and `Ledger` hold on all runs, including those where the
tick enqueues and marks in two writes, and so does `NoRowStaysStranded`. `WindowBound`,
`MidSend`, `ProviderWindow`, `SettledForEver`, `ClosedForGood` and `Liveness` are about runs
whose ticks enqueue and mark in one step (`Coarse` steps); `MarkIsSafeIff` and
`SplitMarkReopens` say what the separate write can do.

**Audience.** `SegmentRules` gives every rule its meaning and proves the compiler keeps it;
`SegmentPlan` proves that planning, streaming, counting and paging all read the one set the
rules define; `Materialise` builds the recipient rows from lists and segments, with crashes and
retries; `Fairness` proves how evenly the rows are spread over the senders.

**Shop orders.** `Orders` proves monotone statuses and how far the per-contact counters can be
off; `OrderColumn` when a segment may trust the order date kept with a contact; `Recall` the
abandoned-order mails and their deduplication keys. **Signing.** `SignBase` proves the
canonical string invertible. **Storage.** `Archive` is the crash-safe move to cold storage;
`Import` the batched importer.

Where code and prose in the repository differ, the model follows the code:

- `maybeFinaliseCampaign` has no guard on the recipient total although the tick's comment
  explains why one is needed; `Finalisation.EarlyCloseStrands` is the consequence.
- The dispatch marks an empty audience as sent so that the campaign does not dangle, but not
  when it was paused meanwhile: the tick cannot close that one, the dispatch that resuming it
  queues does (`Commands.DispatchedClosesIff`, `Commands.RedispatchCloses`).
- A webhook that changes a row between its copy to cold storage and its delete changes only
  the row deleted: exactly those copies are stale (`Archive.Archiver.ArchiveOneCampaign`).
- The sweep's query has no order, so a stranded row is sure to be recovered only under the
  condition of `Recovery.RecoveredIffBatchHolds`; `RecoveryRuns.PassedOverForEver` is a row
  that never is, within the default limits.
- The in-flight depth counts queued rows only. Cancelling or failing a campaign takes its rows
  off the queue without stopping their workers, and a worker that dies after moving its row to
  another channel leaves a job that sends it on the old one; `MidSend` bounds the excess and
  `CampaignSends` has a run for each.
- A recall is meant never to go out once its order has left pending, but the status is read
  before the row is created: `Recall.RecallsStopIff` and the run `Recall.PaidOrderRecalled`.
- Failed counter updates are swallowed and a retry does not make up for them; the counters are
  exact under the condition `Orders.ShopSync.HandleAll` states.
- A message the provider takes although its answer looks like an outage is refunded and never
  counted against the channel; `ProviderWindow.LostAnswerLetsOneMoreThrough` is a run.
- The importer's expiring counter is meant to free a tenant whose worker died. When it expires
  under jobs that still run, more than the limit may run until it expires again, even after
  those jobs have ended: `Import.LimitHoldsIff` and `Import.ExcessOutlivesTheForgotten`.
- The first-paid purchase event is called authoritative, but an order first seen shipped or
  backfilled, or first paid without attribution, never records one (`Orders.PurchaseOnce`).
- In keep mode the importer takes the last of a batch's rows for a new address, not the first;
  `Import.KeepMatchesIff` says when that shows.
- A contact without an attribute is matched neither by "is v" nor by "is not v": SQL comparisons
  with NULL are unknown. The reference meaning of a rule (`SegmentRules.Satisfies`) says so.

## Model

| member | source | states |
|---|---|---|
| SlidingWindow.Redis.QuotaAvail | apps/worker-sender/src/quota.ts:104-134 | the pruned, expiring sorted set answers as the full history would: the least, over the four tiers, of limit minus sends inside the window, never below 0 |
| SlidingWindow.Redis.QuotaConsume | apps/worker-sender/src/quota.ts:136-150 | the history grows by exactly `count` sends at `now`, whatever was pruned or had expired |
| SlidingWindow.AddEntries | apps/worker-sender/src/quota.ts:144-146 | the insertion loop adds `count` new members to every window count, on top of those kept |
| SlidingWindow.QuotaManager.GetAvailable | apps/worker-sender/src/quota.ts:50-60 | same answer as the full history, through the process's own handle |
| SlidingWindow.QuotaManager.Consume | apps/worker-sender/src/quota.ts:68-76 | the running counter keeps member names fresh, so no send overwrites another |
| SlidingWindow.PruningKeepsCounts | apps/worker-sender/src/quota.ts:112-117 | removing entries older than a day changes no window count |
| SlidingWindow.TierBoundsAvailable | apps/worker-sender/src/quota.ts:119-133 | the allowance plus the sends in a tier's window stays within the tier's limit |
| SlidingWindow.AdmissionIsExact | apps/worker-sender/src/quota.ts:104-134 | the allowance is exact: n sends may start now if and only if the last second, minute, hour and day, these sends included, then hold no more than their limits |
| SlidingWindow.NoRollingWindowExceeded | apps/worker-sender/src/quota.ts:46-76 | if every consume of c follows an availability of at least c, no rolling window of any tier ever exceeds its limit |
| QuotaRefund.RefundedCodes | apps/worker-sender/src/quota-refund.ts:16-24 | over all three-digit statuses exactly 5xx and above, 401, 403, 408 and 429 count as platform-side |
| QuotaRefund.PlatformSideIff | apps/worker-sender/src/quota-refund.ts:16-24 | over every status text: the unit comes back for `Error` and for those codes, and for nothing else |
| QuotaRefund.OnlyThreeDigits | apps/worker-sender/src/quota-refund.ts:20-22 | a status reads as a code only when it is `Http` and exactly three digits |
| OnceOnly.AtMostOneAcceptance | apps/worker-sender/src/main.ts:1295-1385 | over every run with crashes, retries and sweeps the provider takes at most one message per recipient, and a row shown as sent had one taken |
| OnceOnly.AlreadyExistsMeansTaken | apps/worker-sender/src/main.ts:1360-1376 | the provider says an operation id exists only to a recipient whose message it took |
| OnceOnly.OperationIdIsWriteOnce | apps/worker-sender/src/main.ts:1300-1308 | an operation id, once on a row, never changes in any run |
| OnceOnly.StepInv | apps/worker-sender/src/main.ts:1080-1402 | every step keeps ids unique to a row, acceptances under the row's own id, and the worker's view of the id in step with the row |
| Ledger.UnitsAddUp | apps/worker-sender/src/main.ts:1278-1401 | over every interleaving: balance never below 0; balance, in-flight, charged and lost units add up to those granted; charged and refunded exactly as the answer demands |
| Ledger.LedgerClosesWithoutFaults | apps/worker-sender/src/main.ts:1278-1401 | without crashes and failed refund writes nothing is lost and the three-way sum closes |
| Ledger.InFlightCounted | apps/worker-sender/src/main.ts:1278-1298 | open reservations and workers holding one are in one-to-one correspondence |
| Ledger.StepInv | apps/worker-sender/src/main.ts:1278-1401 | every step keeps the books balanced and each open reservation carried by exactly its own worker |
| Finalisation.ClosingDrains | apps/worker-sender/src/main.ts:644-714 | every path that closes a campaign leaves it without pending or queued rows |
| Finalisation.ClosedForGood | apps/worker-sender/src/main.ts:1413-1435 | a campaign just closed never has open rows again if and only if no dispatch was still inserting for it |
| Finalisation.SettledForEver | apps/worker-sender/src/main.ts:644-714 | closed, drained and with no dispatcher, a campaign stays drained through every later run with single-step ticks |
| Finalisation.TickClosesForGood | apps/worker-sender/src/main.ts:644-663 | with serial dispatch the tick's guard on the published total is enough: what it closes stays drained for ever |
| Finalisation.MarkIsSafeIff | apps/worker-sender/src/main.ts:823-826 | the tick's separate mark write keeps a drained campaign drained exactly when it names none of its rows |
| Finalisation.SplitMarkReopens | apps/worker-sender/src/main.ts:816-826 | a reachable state: enqueue, send, close, then the unguarded mark turns the sent row back to queued |
| Finalisation.EarlyCloseStrands | apps/worker-sender/src/main.ts:1413-1423 | a reachable state: the per-failure finalise closes a campaign whose audience is still being inserted |
| Finalisation.SerialTotals | apps/worker-sender/src/main.ts:336-369 | with serial dispatch a published total means all rows are there and nobody inserts |
| Commands.CancelSkips | apps/api/src/modules/campaign/campaign.service.ts:1805-1832 | cancelling skips exactly the campaign's pending and queued recipients and touches no other row, job or campaign |
| Commands.PauseAndResume | apps/api/src/modules/campaign/campaign.service.ts:1771-1803 | when pausing and resuming are allowed, and that they change the campaign's state only |
| Commands.BornPending | packages/audience/src/materialise.ts:95-116 | a recipient is inserted pending, with its sender and channel, no operation id, and nothing else moves |
| Commands.DispatchWrites | apps/worker-sender/src/main.ts:336-370 | the end of a dispatch publishes the number of rows and starts a scheduled campaign, or closes an empty one that is scheduled or sending |
| Commands.DispatchedClosesIff | apps/worker-sender/src/main.ts:336-370 | over every later run the tick can close the campaign whenever it is sending with nothing to send, if and only if the dispatch found recipients or the campaign was not paused meanwhile |
| Commands.RedispatchCloses | apps/api/src/modules/campaign/campaign.service.ts:1783-1803 | in the excepted case the dispatch that resuming queues closes the campaign |
| WindowBound.RollingWindowBound | apps/worker-sender/src/main.ts:770-827 | over every run with single-step ticks: at most MAX_INFLIGHT rows queued on a channel, and any window (a, a+W] holds at most MAX_INFLIGHT + max(0, L - 1) sends of rows still queued on it when they settle, for each tier |
| WindowBound.PermitsFit | apps/worker-sender/src/main.ts:788-797 | permits handed out, rows queued and recent sends together fit the tightest window plus the in-flight limit |
| WindowBound.StepInv | apps/worker-sender/src/main.ts:781-827 | every step keeps recent sends plus queued rows under the cap of every tier |
| MidSend.EveryCampaignSendBounded | apps/worker-sender/src/main.ts:770-827 | all campaign sends, over every run with single-step ticks: any window (a, a+W] of a tier holds at most MAX_INFLIGHT + max(0, L - 1) of them, plus the workers mid-send for rows already off the queue when a tick issues, plus one per worker that died between settling its row and ending its job |
| MidSend.BoundedByConcurrency | apps/worker-sender/src/main.ts:770-827 | without such late deaths the excess is at most the number of workers past their checks |
| MidSend.IssuedFits | apps/worker-sender/src/main.ts:788-797 | fresh permits cover recent campaign sends, queued rows and issued rows; only straying and drifting rows come on top |
| ProviderWindow.EveryAcceptanceBounded | apps/worker-sender/src/main.ts:1360-1393 | what the provider takes, counted when it is called: over every run with single-step ticks any window of a tier holds at most MAX_INFLIGHT + max(0, L - 1) campaign messages of the channel, plus the excess of the rate log, plus one per acceptance whose answer was wrong or died with its worker |
| ProviderWindow.StepAccounts | apps/worker-sender/src/main.ts:1360-1393 | every step keeps each message taken accounted for: counted by the rate log, with its worker between call and count, or missed |
| ProviderWindow.LostAnswerLetsOneMoreThrough | apps/worker-sender/src/main.ts:1360-1401 | a reachable state: a message taken whose answer looks like an outage leaves the channel idle, and the provider takes one over the cap in the same second |
| CampaignSends.UndisturbedKeepTheCap | apps/worker-sender/src/main.ts:770-827 | while no campaign is failed or skipped as a whole and no finished worker dies before its job ends, there is no excess at all |
| CampaignSends.CancelLetsOneMoreThrough | apps/worker-sender/src/main.ts:788-797 | a reachable state: a campaign cancelled while its row is at the provider frees headroom, and the window holds exactly one send over the cap |
| CampaignSends.LateCrashLetsOneMoreThrough | apps/worker-sender/src/main.ts:1005-1071 | a reachable state: a row moved to another channel is still sent on the old one because its worker died before its job ended, one send over the cap |
| CampaignSends.StepKeepsCourse | apps/worker-sender/src/main.ts:1080-1402 | on such runs a row whose job waits or works stays queued on the job's channel |
| Recovery.SweepKeepsMeaning | apps/worker-sender/src/main.ts:594-615 | a sweep touches no row with a live job and none queued no longer than the limit; a row it does touch goes to sent exactly with a successful log, else to pending, and no visited row without a live job stays queued |
| Recovery.RecoveredIffBatchHolds | apps/worker-sender/src/main.ts:582-590 | a given stranded row is certain to be recovered by the next sweep if and only if all rows matching the query fit into one batch of 500 |
| Recovery.ProgressIffBatchNotFull | apps/worker-sender/src/main.ts:582-590 | some stranded row is certain to be recovered if and only if the aged rows with live jobs do not fill the batch |
| RecoveryRuns.NoRowStaysStranded | apps/worker-sender/src/main.ts:577-615 | over any run with ticks at least once a period: while due sweeps fit their batches, no row of a sending campaign stays stranded longer than a minute and a period, whatever happens in between |
| RecoveryRuns.DueSweepClears | apps/worker-sender/src/main.ts:577-615 | a due sweep that fits its batch leaves no row stranded; what it recovers is pending, or sent if a log proves it, and has no job |
| RecoveryRuns.SmallQueuesFit | apps/worker-sender/src/main.ts:582-590 | when the channels together may hold at most 500 rows in flight every sweep fits |
| RecoveryRuns.PassedOverForEver | apps/worker-sender/src/main.ts:582-590 | with the default limits a reachable state where a stranded row is passed over, minute after minute, for any number of minutes, a sweep due in each |
| RecoveryRuns.TickIsASweepAndSteps | apps/worker-sender/src/main.ts:627-827 | a whole tick is one sweeping event followed by steps, so the results on histories hold of the scheduler's ticks |
| RecoveryRuns.SweepsAMinuteApart | apps/worker-sender/src/main.ts:577-580 | over any history there is at most one sweep a minute |
| Recovery.SweepRuns | apps/worker-sender/src/main.ts:594-615 | a sweep is a run of single-row recoveries of the pipeline |
| Recovery.SweptSentWasTaken | apps/worker-sender/src/main.ts:602-609 | a row the sweep marks sent had its message taken by the provider |
| Recovery.LostJobGetsStranded | apps/worker-sender/src/main.ts:582-590 | a queued row without a live job becomes recoverable once the stale limit has passed |
| Tick.Scheduler.RecoverStaleQueuedRecipients | apps/worker-sender/src/main.ts:577-625 | the sweep's loop does exactly the recoveries of its batch, at most once a minute |
| Tick.Scheduler.FinaliseExhausted | apps/worker-sender/src/main.ts:691-714 | fails every open row of the exhausted campaigns and closes them, one transaction each |
| Tick.Scheduler.Reconcile | apps/worker-sender/src/main.ts:632-735 | after sweep, closing and exhaustion: eligible are exactly the sending, undrained campaigns whose tenant has a unit left, those whose tenant has none are closed with every row decided, the rest stay as they are; a unit budget for each tenant; the time of the last sweep moves exactly when one was due |
| Tick.AllocateChannel | apps/worker-sender/src/main.ts:805-814 | the inner loop stays within the channel budget, takes each tenant's units down exactly, passes a candidate over only when its tenant has none left, and takes none before an older one of its tenant |
| Tick.Scheduler.TakeTurn | apps/worker-sender/src/main.ts:781-827 | one channel's turn extends the grants and keeps the tenant budget exact |
| Tick.Scheduler.AllocateChannels | apps/worker-sender/src/main.ts:757-827 | over all channels: candidates only, each tenant within its units, nothing passed over while units were left |
| Tick.Scheduler.RunTick | apps/worker-sender/src/main.ts:627-828 | the tables end as the reconciled ones plus such an allocation; every campaign fares as its tenant's units demand: without any it is closed and drained, otherwise it goes on; the time of the last sweep moves exactly when one was due |
| TickSafety.ChannelWithinBudget | apps/worker-sender/src/main.ts:788-802 | rows granted on a channel never exceed the smaller of its rate allowance and its headroom |
| TickSafety.DepthBound | apps/worker-sender/src/main.ts:766-797 | the queued depth of a channel grows by its grants and never beyond the larger of what it was and MAX_INFLIGHT |
| TickSafety.BudgetSpent | apps/worker-sender/src/main.ts:798-814 | a channel none of whose tenants ran out spends its whole budget or leaves nothing pending |
| TickSafety.ClosesExactlyDrained | apps/worker-sender/src/main.ts:644-666 | the tick closes exactly the campaigns that were sending with a published audience and no open row; they have none when closed, and nothing but the status changes |
| TickSafety.ExhaustsExactly | apps/worker-sender/src/main.ts:688-735 | over a whole tick, of the sending campaigns it does not close as drained exactly those with `sendQuotaRemaining <= 0` are closed, all their open rows failed unless the sweep just found them delivered; the others stay as they are and eligible |
| TickSafety.OldestFirst | apps/worker-sender/src/main.ts:798-814 | a row is never granted before an older pending one of its tenant on its channel |
| TickSafety.FillsUp | apps/worker-sender/src/main.ts:781-814 | where no tenant runs out a channel gets as many rows as the tightest of its rate allowance, MAX_INFLIGHT less its depth, and its pending rows allows |
| TickSafety.TickIsARun | apps/worker-sender/src/main.ts:627-828 | a whole tick is a run of single-step sweeps, closings, exhaustions and issues, so the theorems about runs cover it |
| TickSafety.TickKeepsInvariants | apps/worker-sender/src/main.ts:627-828 | hence a tick keeps the delivery, quota and rate-limit invariants |
| SendWorker.Worker.RunChecks | apps/worker-sender/src/main.ts:1080-1169 | the checks with their early returns, in the program's order; what they leave of row, job and campaign is said by the six WorkerSafety results from DecidedIsLeft to NothingToSendWith |
| WorkerSafety.PassesIff | apps/worker-sender/src/main.ts:1080-1275 | a send goes on exactly when the row is pending or queued, nothing was found against it, and its campaign is neither paused nor cancelled |
| WorkerSafety.DecidedIsLeft | apps/worker-sender/src/main.ts:1089 | a sent, failed or skipped row is left alone, whatever is found |
| WorkerSafety.BlockedSender | apps/worker-sender/src/main.ts:1005-1071 | first the sender rules: a queued row goes to pending with its new sender and channel, or is skipped when all are blocked; one no longer queued is left alone; nothing else moves |
| WorkerSafety.BadName | apps/worker-sender/src/main.ts:1103-1114 | then the sender name: the row fails, even while the campaign is paused or cancelled, and closes the campaign exactly if it was sending and has no other open row |
| WorkerSafety.StoppedCampaign | apps/worker-sender/src/main.ts:1116-1129 | then the campaign: paused sends the row back to pending, cancelled skips it; nothing else moves |
| WorkerSafety.FailedCheck | apps/worker-sender/src/main.ts:1131-1265 | then content, channel, links and transport: the row fails, and the job exactly when the error is rethrown |
| WorkerSafety.NothingToSendWith | apps/worker-sender/src/main.ts:1156-1169 | without a tracking host, and likewise without a unit, every open row of the campaign fails and the campaign closes if it was sending |
| Pausing.PauseHolds | apps/worker-sender/src/main.ts:1116-1122 | from the moment a paused campaign has no worker mid-send, over every run that does not resume, cancel or exhaust it, finds no sender blocked or misnamed and marks none of its decided rows, no open row of it is decided, rows added stay open, and the provider takes nothing for it |
| Pausing.ChecksDecideNothing | apps/worker-sender/src/main.ts:1116-1122 | over any run of worker checks that find no sender blocked or misnamed, a paused campaign keeps every open row open, whoever is mid-send |
| SendWorker.Worker.ReserveUnit | apps/worker-sender/src/main.ts:1278-1293 | takes a unit only when one is left; otherwise fails every open row of the campaign |
| WorkerSafety.GivenBackOutcome | apps/worker-sender/src/main.ts:1325-1333 | a throw before a provider result leaves the row as it was, fails the job and returns the unit exactly when the write lands; other rows, jobs, tenants and the provider are untouched |
| WorkerSafety.SentOutcome | apps/worker-sender/src/main.ts:1376-1391 | the row is sent under the id the provider took, the unit is spent, one send is counted on the job's channel now, and nothing else moves |
| WorkerSafety.FailedOutcome | apps/worker-sender/src/main.ts:1395-1423 | the row fails, the unit comes back exactly for a platform-side failure whose refund lands, no send is counted, and the campaign closes exactly when it is sending and this was its last open row |
| SendWorker.Worker.RunSend | apps/worker-sender/src/main.ts:1080-1402 | an uninterrupted send does what the worker's phases do in turn; by row, verdict, campaign and answer its effect is said by the WorkerSafety results |
| WorkerSafety.SendOutcome | apps/worker-sender/src/main.ts:1080-1402 | sent exactly on an acceptance or a duplicate; the provider's books grow only under the row's id; one rate-log entry exactly when sent; one unit down exactly when the tenant pays |
| WorkerSafety.ResultSettles | apps/worker-sender/src/main.ts:1336-1402 | by what the provider said: sent under the operation id, logged and counted once, if it took the message or had it already, failed with the job otherwise; the unit comes back exactly for `Error`, 5xx, 401, 403, 408 and 429 with the refund written |
| WorkerSafety.ReservedOutcome | apps/worker-sender/src/main.ts:1278-1402 | past the reservation a send ends its job and touches no other row, with status, log and unit as the answer demands |
| WorkerSafety.SendIsARun | apps/worker-sender/src/main.ts:1080-1402 | whatever the world does, an uninterrupted send is a run of worker steps |
| WorkerSafety.SendKeepsOnceOnly | apps/worker-sender/src/main.ts:1300-1385 | hence one acceptance per recipient also across repeated sends |
| Reroute.FindSender | apps/worker-sender/src/main.ts:1005-1071 | keeps the sender exactly when it does not block; else the first sender after it, going round the roster, whose domain routes to a channel and whose rules let the address through, no such sender lying on the way; skips exactly when there is none |
| Reroute.RerouteOnce | apps/worker-sender/src/main.ts:1026-1055 | after a move the same rules keep the row where it is |
| Termination.StepLowers | apps/worker-sender/src/main.ts:627-1402 | every productive step lowers the measure over rows, jobs and campaigns |
| Termination.ProductiveStepsAreBounded | apps/worker-sender/src/main.ts:627-1402 | no fault-free run has more than 20 productive steps a recipient and one a campaign |
| Liveness.SomeoneCanMove | apps/worker-sender/src/main.ts:577-1402 | while a recipient of a sending campaign is open some productive step is possible, at once or after waiting |
| Liveness.EveryRecipientIsDecided | apps/worker-sender/src/main.ts:577-1402 | a fault-free run carried as far as it goes ends with every campaign recipient sent, failed or skipped |
| Liveness.ReroutedAtMostOnce | apps/worker-sender/src/main.ts:1005-1071 | over any run under fixed rules a row is rerouted at most once, and never once its sender is free |
| Liveness.EveryCheckMoves | apps/worker-sender/src/main.ts:1080-1169 | in an unpaused campaign a worker's check is productive whatever the rules make it find |
| Liveness.RunsAreHealthy | apps/worker-sender/src/main.ts:577-1402 | every run with single-step ticks keeps the delivery, quota and rate invariants the progress proof needs |
| Liveness.InitialHealthy | apps/worker-sender/src/main.ts:314-372 | they hold before the first dispatch |
| RecipientBlock.StarSplits | packages/audience/src/recipient-block.ts:1-4 | a star matches any text on one line: the split may fall anywhere |
| RecipientBlock.PrefixStarSuffix | packages/audience/src/recipient-block.ts:1-24 | `prefix*suffix` matches exactly the texts that start with the one and then end with the other on one line |
| RecipientBlock.LiteralOnly | packages/audience/src/recipient-block.ts:1-4 | a pattern without star matches itself only |
| RecipientBlock.PatternMeans | packages/audience/src/recipient-block.ts:15-23 | a pattern with an @ is about the whole address, one without about its domain; surrounding blanks and the case of letters do not matter |
| RecipientBlock.RuleOrderIrrelevant | packages/audience/src/recipient-block.ts:39-52 | the verdict does not depend on the order or repetition of rules |
| RecipientBlock.RuleAdded | packages/audience/src/recipient-block.ts:34-52 | what one more rule does to a verdict: a matching allow rule frees the address whatever the others say, any other allow rule shuts out whom no allow rule matches, a matching block rule blocks unless an allow rule matches, any other changes nothing |
| SegmentRules.CompileRule | packages/audience/src/segment-evaluator.ts:78-204 | compiling one more rule narrows the accepted contacts by exactly what the rule means, on every store |
| SegmentRules.CompileTags | packages/audience/src/segment-evaluator.ts:116-133 | any, all and none of a tag list |
| SegmentRules.CompileOrdered | packages/audience/src/segment-evaluator.ts:157-181 | fixed windows go to the orders, everything else to the column, with NULL handled |
| SegmentRules.CompileSegment | packages/audience/src/segment-evaluator.ts:60-76 | the compiled predicates and constraints accept exactly the contacts meeting every rule |
| SegmentRules.LookBackMeansOrders | packages/audience/src/segment-evaluator.ts:164-180 | on a store whose column holds the contact's latest counted order, a look-back rule says exactly that there is one since |
| OrderColumn.ColumnFaithfulIff | apps/worker-shop-sync/src/main.ts:217-233 | the order history leaves the column there if and only if every counted order of the contact was marked from its present date on and every mark still stands |
| OrderColumn.StaysRightIff | apps/worker-shop-sync/src/main.ts:466-548 | event by event: a right column stays right if and only if the event neither dates one of the contact's counted orders beyond it unmarked nor re-dates or moves away the only order with its date |
| OrderColumn.UnspoiledIsRight | apps/worker-shop-sync/src/main.ts:466-548 | so a history without such events leaves it right, and right all along |
| OrderColumn.SteadyIsRight | apps/worker-shop-sync/src/main.ts:466-548 | orders that keep their date and buyer, with no mark lost, keep it so for every contact |
| OrderColumn.RedatedIsWrong | apps/worker-shop-sync/src/main.ts:466-548 | an order paid and later re-dated to an earlier day leaves the column on the later one |
| SegmentPlan.ContactIdsFromEvent | packages/audience/src/resolve-segment.ts:242-386 | contacts named by an event or reached through its recipient in either store, and no others |
| SegmentPlan.MapHotRecipients | packages/audience/src/resolve-segment.ts:318-333 | the chunked lookup finds every recipient's contact |
| SegmentPlan.ContactIdsFromSiteEvent | packages/audience/src/resolve-segment.ts:395-431 | exactly the contacts with at least the wanted number of visits |
| SegmentPlan.ContactIdsFromOrder | packages/audience/src/resolve-segment.ts:434-464 | exactly the contacts with a counted order in the window |
| SegmentPlan.Intersect | packages/audience/src/resolve-segment.ts:87-96 | smallest-first intersection less the exclusions, sorted |
| SegmentPlan.PlanSegment | packages/audience/src/resolve-segment.ts:60-97 | the plan selects exactly the tenant's contacts that meet every rule, as SegmentRules.Satisfies spells the rules out |
| SegmentPlan.Chunks | packages/audience/src/resolve-segment.ts:104-108 | chunks are non-empty, bounded and concatenate to the list |
| SegmentPlan.CountSegment | packages/audience/src/resolve-segment.ts:115-135 | counted by inclusion or by subtraction, the number is the size of the selected set |
| SegmentPlan.ScanKeyset | packages/audience/src/resolve-segment.ts:163-175 | keyset pages less the exclusions concatenate to the sorted selected set, for any page size |
| SegmentPlan.ScanIncluded | packages/audience/src/resolve-segment.ts:151-160 | chunked lookups of the include list concatenate to the sorted selected set |
| SegmentPlan.ScanSegment | packages/audience/src/resolve-segment.ts:142-176 | the stream yields every selected contact once, in id order, whatever the batch size |
| SegmentPlan.PageSegment | packages/audience/src/resolve-segment.ts:180-213 | page p of size s is the slice [(p-1)s, ps) of the sorted set |
| SegmentPlan.PageOf | packages/audience/src/resolve-segment.ts:198-212 | skipping and cutting streamed batches gives that slice |
| SegmentPlan.ReadSegment | packages/audience/src/resolve-segment.ts:60-213 | stream, count and page of a rule list agree with the one set it defines |
| Materialise.SelectSender | packages/audience/src/materialise.ts:77-95 | the first sender, counting round from the rotation position, that does not block the address, every sender on the way blocking it; none exactly when all block |
| Materialise.FilterSuppressed | packages/audience/src/suppression.ts:18-33 | keeps exactly the rows whose lower-cased address is not on the list |
| Materialise.InsertBatch | packages/audience/src/materialise.ts:69-116 | deals with a batch in order: suppressed addresses dropped and counted, those every sender blocks counted, each other contact assigned the first free sender from where the rotation stands; new rows bear that sender, and by Materialise.FittingIsRouted its channel and the contact's first list |
| Materialise.FittingIsRouted | packages/audience/src/materialise.ts:95-108 | what a new row looks like: its sender's own channel, the first sender's only where that one has none; a sender exactly with several senders; the first target list in selection order |
| Materialise.StreamLists | packages/audience/src/materialise.ts:121-166 | cursor pagination deals with the list members in id order, all of them or those up to the crash |
| Materialise.StreamSegment | packages/audience/src/materialise.ts:171-186 | a segment deals with its subscribed contacts in id order, all of them or the batches up to the crash |
| Materialise.MaterialiseCampaignAudience | packages/audience/src/materialise.ts:56-186 | deals with a beginning of the stream of list members and then segments, the whole of it if it lives; who is assigned, in which order and to which sender, and the three totals returned follow from that; a new row has its sender's own channel, or the first sender's where that one has none, a sender exactly when the campaign has several, and the first target list the contact is on; existing rows stay and nobody outside the audience is added |
| Materialise.DispatchWithRetry | apps/worker-sender/src/main.ts:388-447 | crash after any number of batches and retry from any rotation offset: the recipients are exactly the audience, one row each |
| Fairness.RowsAreFair | packages/audience/src/materialise.ts:71-116 | without rules, at every prefix of a dispatch and across batches, crashed or not, fresh or a retry: the new rows of any two senders differ by at most one, plus the assignments skipped because the contact had a row already |
| Fairness.DispatchFresh | packages/audience/src/materialise.ts:56-186 | a first dispatch whose stream names no contact twice, as with lists alone, leaves a table in which any two senders have equally many rows, up to one |
| Fairness.RotationGoesRound | packages/audience/src/materialise.ts:77-92 | without rules the first free sender is always the next one, so assignment k goes to sender offset + k, round the list |
| Materialise.DispatchByRules | packages/audience/src/materialise.ts:71-116 | with the glob rules of the senders' domains, over crash and retry: of the subscribed contacts on a target list or meeting every rule of a target segment, off the suppression list, exactly those some sender's rules let through have a row; its stamped sender is such a one, and its channel that sender's own, or the first sender's where that one has none |
| Materialise.SegmentOnly | packages/audience/src/materialise.ts:118-166 | a contact only a segment adds is on none of the target lists, so it needs no list name |
| Orders.ShopSync.ApplyContactOrderMetricDelta | apps/worker-shop-sync/src/main.ts:244-287 | each contact's counters move by the increments that land, in order, of those the write calls for |
| Orders.ShopSync.AdvanceStatus | apps/worker-shop-sync/src/main.ts:528-540 | the guarded update leaves the further of the two statuses |
| Orders.ShopSync.HandleOrder | apps/worker-shop-sync/src/main.ts:413-624 | shipped if the event is a shipment or the order was shipped, else paid; buyer, value and time are the event's; the buyer's order date moves to the later of the two unless a webhook's mark is lost; the counters fall short of the orders by what the event's swallowed update failures lost, on top of what was missing before; the first attributed paid transition is recognised |
| Orders.ShopSync.HandleOrderCreated | apps/worker-shop-sync/src/main.ts:632-697 | a created order keeps its status, pending if it is new, takes the event's buyer, value and time, and moves counters and shortfall the same way |
| Orders.ShopSync.HandleAll | apps/worker-shop-sync/src/main.ts:240-914 | after any serial history, with changed values and buyers and any updates lost, counters that were exact are exact if and only if, contact by contact, the losses cancel out |
| Orders.MovesAddUp | apps/worker-shop-sync/src/main.ts:244-287 | the increments called for add up to the order's new share minus its old one, for every contact |
| Orders.TotalsMove | apps/worker-shop-sync/src/main.ts:244-287 | writing one order moves a contact's number and sum of counted orders by that order's shares and nothing else |
| Orders.NoCutLosesNothing | apps/worker-shop-sync/src/main.ts:545-548 | a history in which all updates land loses nothing, so the counters stay the number and exact sum of the contact's counted orders |
| Orders.RetryMovesNothing | apps/worker-shop-sync/src/main.ts:492-548 | handling an event again calls for no update: a lost one is not made up for by a retry |
| Orders.StatusIsFurthest | apps/worker-shop-sync/src/main.ts:62-71 | the status of an order is the furthest any of its events called for; Orders.StatusFromKinds says by kinds which that is |
| Orders.HistoryTells | apps/worker-shop-sync/src/main.ts:427-548 | after any history an order is shipped exactly when it was or a shipped event came, paid exactly when neither and it was, or was paid or backfilled, and its buyer, value and date are those of its last event |
| Orders.StatusFromKinds | apps/worker-shop-sync/src/main.ts:427-548 | from empty tables: shipped if and only if some Ship, paid if and only if no Ship and some Pay or Backfill, pending if and only if only Creates |
| Orders.CountedByKinds | apps/worker-shop-sync/src/main.ts:240-287 | the orders a contact's counters summarise are those paid, shipped or backfilled whose last event names the contact |
| Orders.StatusesConverge | apps/worker-shop-sync/src/main.ts:62-71 | neither order nor repetition of events, nor anything but which orders got which kinds of event, changes a final status |
| Orders.StatusNeverFalls | apps/worker-shop-sync/src/main.ts:528-540 | a status never goes back along a history |
| Orders.PurchaseOnce | apps/worker-shop-sync/src/main.ts:566-586 | the purchase record is attempted at most once, and exactly when an attributed paid webhook is the first event that counts |
| Recall.KeysAreDistinct | apps/worker-shop-sync/src/automations.ts:760-761 | different orders or rounds never share a deduplication key |
| Recall.Outbox.EnqueueTransactional | apps/worker-shop-sync/src/transactional.ts:94-171 | one row per automation and key, a taken key changes nothing; a new row is failed without a route, else bears its channel and is published, its status queued or what a worker made of it meanwhile |
| Recall.EnqueueIsARun | apps/worker-shop-sync/src/transactional.ts:94-171 | its effect on the outbox is the create call and one later change of the row, as the runs below take them |
| Recall.OneRecallEach | apps/worker-shop-sync/src/automations.ts:603-771 | over any run from an empty outbox an automation holds exactly one row for a round of an order that was asked for and none for any other, and no row serves two recalls |
| Recall.KeyTakenIff | apps/worker-shop-sync/src/automations.ts:757-761 | a recall's key is taken exactly when it was before or this very recall, or the checkout whose id spells it out, was asked for: no other order, round or automation can take it |
| Recall.CheckoutClashIff | apps/worker-shop-sync/src/automations.ts:572-761 | the checkout mail of the same automation shares a recall's key exactly when the checkout id reads order:<id>:r<round> |
| Recall.RecallsStopIff | apps/worker-shop-sync/src/automations.ts:675-714 | once an order has left pending no recall of it is created if and only if none had already looked at it |
| Recall.EveryRecallWasDue | apps/worker-shop-sync/src/automations.ts:603-714 | over any run, whoever creates a recall's row was asked for by a creation webhook of that order and round and later found the automation ready and the order pending |
| Recall.PaidOrderRecalled | apps/worker-shop-sync/src/automations.ts:706-771 | a run: created, looked at, paid, and only then recalled |
| SignBase.EncodingInverts | packages/shopyy/src/sign.ts:25-30 | percent-encoding is undone by the decoder and never yields a separator |
| SignBase.PatchedIsPercent | packages/shopyy/src/sign.ts:25-30 | encodeURIComponent plus the replacement escapes exactly what RFC 3986 does not leave unreserved |
| SignBase.Utf8AllBack | packages/shopyy/src/sign.ts:25-26 | the byte encoding of code points is undone by the decoder |
| SignBase.Utf8IsStandard | packages/shopyy/src/sign.ts:25-26 | the bytes are those of the table in section 3 of RFC 3629, shortest form |
| SignBase.OrderIsDetermined | packages/shopyy/src/sign.ts:36 | a set of keys has one dictionary order |
| SignBase.SignedAre | packages/shopyy/src/sign.ts:34-35 | signed are exactly the present values of keys other than `sign` |
| SignBase.BaseIsSpelled | packages/shopyy/src/sign.ts:33-39 | the string spelled out: signed keys in dictionary order of code units, k=v joined with &, everything but letters, digits and - . _ ~ as % and two upper-case hexadecimal digits of its UTF-8 bytes |
| SignBase.BaseDecodes | packages/shopyy/src/sign.ts:33-39 | decoding the base string gives back the signed parameters |
| SignBase.BaseIsInjective | packages/shopyy/src/sign.ts:33-39 | two objects share a base string exactly when they sign the same parameters, whatever the insertion order |
| SignBase.BaseExistsIff | packages/shopyy/src/sign.ts:26 | the encoding throws exactly when a signed key or value has a lone surrogate |
| SignBase.ReceiverRebuildsBase | packages/shopyy/src/sign.ts:90-101 | a receiver rebuilds the sender's string from the parameters and the signature, in any order |
| Archive.Archiver.ArchiveOneCampaign | apps/worker-sender/src/archive.ts:83-143 | however early the process dies no recipient is lost; of each recipient gone the copy that counts is its whole row as it was, stale exactly for those a webhook changed between copy and delete; the campaign is marked only when it has no hot rows; other campaigns are untouched |
| Archive.Archiver.ArchiveBatch | apps/worker-sender/src/archive.ts:93-130 | copy before delete, one page of 5,000 at a time, with a crash possible before either; what went has its whole row as the copy that counts |
| Archive.Archiver.Copy | apps/worker-sender/src/archive.ts:102-117 | from now on these rows as they are count, whatever an interrupted run left; other recipients' copies stay |
| Archive.CopySupersedes | apps/worker-sender/src/archive.ts:102-117 | a new copy, status included, supersedes an older one and leaves the other recipients' alone |
| Archive.Archiver.RunArchiveJob | apps/worker-sender/src/archive.ts:36-81 | campaigns fail on their own; those reached without failure are archived, and only candidates are touched; over the whole job of each recipient gone the copy that counts is its whole row as it was |
| Archive.Archiver.ResolveRecipient | apps/worker-events/src/main.ts:134-180 | lookup by id gives the account, campaign and contact the recipient always had, at every moment |
| Archive.FoundWhenSomewhere | apps/worker-events/src/main.ts:146-179 | being hot or copied is being found, duplicates in cold storage included |
| Import.UpsertBatch | apps/worker-import/src/main.ts:239-336 | one batch: collapsed, created, overwritten or kept, with counts that add up to its rows |
| Import.LastRowWins | apps/worker-import/src/main.ts:245-307 | overwriting leaves with each address what its last row says, and other contacts alone |
| Import.FirstRowWins | apps/worker-import/src/main.ts:245-318 | keeping leaves with each address what it had, or else what its first row says |
| Import.ValidInOrder | apps/worker-import/src/main.ts:197-210 | the valid records are imported in the order of the file |
| Import.RunJobBody | apps/worker-import/src/main.ts:141-237 | the list gains every valid address; inserted, updated and skipped add up to the records seen; totalRows exceeds them by exactly the in-batch repeats and untouched contacts; overwriting equals the row-by-row upsert |
| Import.OverwriteIgnoresBatches | apps/worker-import/src/main.ts:245-307 | in overwrite mode batch boundaries do not matter: sequential last-wins |
| Import.KeepMatchesIff | apps/worker-import/src/main.ts:245-318 | in keep mode the result equals row-by-row exactly when the batch that introduces an address agrees with itself about it |
| Import.Semaphore.TryAcquire | apps/worker-import/src/main.ts:34-42 | a permit, with its number, exactly when fewer than the limit are counted |
| Import.Semaphore.TimeOut | apps/worker-import/src/main.ts:22-25 | an expired key counts nothing: everything still running is forgotten |
| Import.LimitHoldsIff | apps/worker-import/src/main.ts:22-42 | until the next time-out at most the limit runs if and only if no job runs that the counter has forgotten, permits of dead jobs set against them |
| Import.ExcessMoves | apps/worker-import/src/main.ts:22-42 | asking for and giving back permits leaves that excess as it is, a worker's death lowers it, and only a time-out sets it, to all that runs |
| Import.ExcessOutlivesTheForgotten | apps/worker-import/src/main.ts:22-42 | a run with limit 2: two jobs are forgotten and end, and afterwards four run |

## Left out

- Provider transports, AWS signing, HMAC, tokens, templates, tags, link rewriting and payload guessing: foreign calls or string plumbing. The provider is an oracle that remembers the operation ids it accepted.
- PostgreSQL, BullMQ, Redis and ClickHouse internals: tables are maps, the queue a keyed job map, scripts and statements atomic steps, cold reads keyed by id with the last copy winning.
- Caches (routing, channels, content, sender names) are fresh; they only add bounded staleness.
- One worker runs a job at a time: a job the queue calls stalled is taken to be really dead. With two live workers on one job the operation id still protects the recipient, but that case is not modelled.
- Pipeline granularity: a worker's read of its row and all its checks are one step; cancelling a campaign and its rows is one step; marking a row sent and counting it against the channel is one step, and the counting is assumed to succeed; refunding, failing the row and finalising the campaign are one step; the end of a dispatch publishes the total and starts a scheduled campaign in one step.
- The correction of a failed row to sent by a later delivery report, and the back-fill of rows without a channel, are not steps of the pipeline.
- Sweep faults on single rows are swallowed by the program and retried; the sweep here does not fail.
- WindowBound.RollingWindowBound: counts the sends of rows still queued on the channel when they settle; MidSend.EveryCampaignSendBounded covers all campaign sends, with the excess that calls for. Flow sends bypass the tick and are not bounded.
- Termination.ProductiveStepsAreBounded: pauses, crashes, lost jobs and dispatches are not productive steps; the program retries those without bound.
- Liveness.EveryRecipientIsDecided: about campaign recipients; a queued flow send whose job is lost is not swept by the program and stays queued.
- SegmentPlan.PlanSegment: the truncation of derived id sets at 1,000,000 and the degradation of event rules when the event store is down are not modelled; below the cap and without outage.
- SegmentRules.CompileRule: a rule object the schema rejects (a site event with minimum 0, an order rule with one bound) follows the code's own fall-back; attribute lists are sets.
- Materialise.MaterialiseCampaignAudience: over a fixed snapshot; contacts or suppression entries changing while it runs are not modelled.
- RecipientBlock.PrefixStarSuffix: case is folded for ASCII letters only.
- Orders.ShopSync.HandleOrder: events of one order are serial, because the counters are read and written separately; the upsert and the status advance are one write; values have at most two decimals (cents); a contact deleted between the read and the write is not modelled. Attribution is an input; analytics rows and customer lists are left out.
- SegmentRules.LookBackMeansOrders: is about stores whose column is faithful; OrderColumn.ColumnFaithfulIff says which order histories leave it so.
- Fairness.DispatchFresh: about one call on an empty table; over retries and overlapping lists and segments Fairness.RowsAreFair gives the excess.
- RecoveryRuns.NoRowStaysStranded: a tick is taken to come at least once a period, and the database writes of one sweep are one event.
- Recall.OneRecallEach: rendering and coupons are left out; `ready` stands for an enabled automation with content. Rows of the outbox are never deleted.
- The recipient count kept with the archive mark is not a lifetime total (it counts the finishing run only) and is not modelled, nor is the re-queueing event buffer.
- Archive.Archiver.ArchiveOneCampaign: no rows are inserted for a campaign being archived, and a successful cold insert is durable.
- Import.RunJobBody: CSV parsing and the normalisation of a record to a row are inputs; concurrent imports of one account are not modelled.
- Import.LimitHoldsIff: the counter's lifetime is not tied to a clock; it may time out at any moment.
- SignBase.BaseIsInjective: values are taken as already turned into strings; the keyed hash over the string is not modelled.
- Controllers, authentication, object storage, thumbnails, exchange rates, dashboards and analytics queries: framework code or single-branch checks.
