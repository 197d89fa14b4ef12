# Poisk: verified models of the stateful core

Poisk is a search service with a mail gateway, a data catalogue, billing and imports around it. Its state lives in
PostgreSQL; the transitions are written in Go and SQL. This project models the parts where a mistake would lose,
repeat or invent something, and proves what those parts promise over every run.

Each transaction is one atomic step on a record of tables (maps and sequences). Where the source updates rows step by
step, a class holds the tables as fields and its methods are proved equal to the step functions; the theorems are
about the step functions, over all sequences of steps by all actors. A crash or a rolled-back transaction is a step
that does not happen (or, where the file system is involved, a step of its own). Clocks, fresh identities, the choice
of rows behind `LIMIT`, `SKIP LOCKED` and map iteration, and the answers of the mail transfer agent are parameters:
the theorems hold for all of them.

- `Outbound*.dfy` — outbound mail: leases, backoff, submission, callbacks, hard-bounce suppression, domain cooldown,
  stale sweeping, manual dead-letter retries, event pruning. The failure classes follow section 4.2.1 of RFC 5321 and
  section 2 of RFC 3463.
- `AddressModel`, `Resolver`, `ResolverLimits`, `AddressForest`, `ResolverStore` — the GAR hierarchy resolver;
  `Importer` — the resumable staging import before it.
- `Org*.dfy` — organization import: staging, planners that run beside it and each other, review, lease, apply, checkpoint,
  index outbox.
- `Billing*.dfy` — payment events, invoices, ledger and subscription lifecycle.
- `Storage*.dfy` — attachment storage: quotas, ingest, trash pruning, blob files and their queue.
- `Metrics`, `MetricsBounds`, `NdcgLaws` — ranking metrics over the reals; `Passages`, `PassageLaws` — the passage
  splitter.
- `DataHub` — page versions; `Flight` — the single-flight group as an interleaved protocol.
- `Sets`, `Text`, `Wrappers` — small shared definitions.

Some promises hold only under a condition; in each case the code is kept as it is, an input that breaks the promise is
given, and the condition is proved.

- The resolver makes at most 128 passes of 5000 rows. A hierarchy deeper than 128, or with more than 640,000 reachable
  rows, ends with reachable rows marked `ORPHAN` (`Resolver.TooDeepIsOrphaned`, `Resolver.TooManyAreOrphaned`,
  `ResolverLimits.LongChainLosesItsEnd`). In numbers a caller can check, for a tree of depth d from 1 to 128: with fewer
  than (129 - d) * 5000 + d reachable rows every run is exact (`Resolver.ExactBelowLimit`), and from that number on there
  are trees and pages for which it is not (`ResolverLimits.LimitIsTight`). Of one given run, closing the batch is exact
  if and only if no candidate is left and no earlier call gave up on a reachable row (`Resolver.ExactAtFixpoint`).
- `ResolveBatch` marks its orphans and finishes in two separate statements (address/resolver.go:42-52). A call that is
  restarted between them reports no orphan and clears the error, however many there are
  (`ResolverStore.RestartForgetsOrphans`); the reported number is that of all orphans if and only if none was marked at
  the start (`ResolverStore.Repository.ResolveBatch`).
- `LeaseApply` (organizations/repository.go:199-212, unused by the runner) does not look for open reviews. A batch it
  leases and applies passes over a review if and only if a plan that is due comes after an open review
  (`OrgLeases.BlindLeaseOvertakesIff`), and such a review is never applied (`OrgLeases.OvertakenIsLost`;
  `OrgScenarios.BlindLeaseLosesReview` is a run). The runner uses `LeaseReadyApply`, which looks.
- `PlanBatch` (organizations/planner.go:35-49) completes a batch after one empty page without looking at its status. Its
  callers call it only for a batch they read as PLANNING (cmd/app/orgctl.go:50, 58); then no row is left without a plan,
  whatever other planners do (`OrgPlanners.CompletedIsPlanned`). Begun while staging goes on it can leave one
  (`OrgScenarios.UncheckedPlannerLeavesRow`): exactly the rows that were staged behind it (`OrgLeftovers.LeftoverIff`).
- Ledger keys join provider and event id with `:`. Two providers could share a key if `:` were allowed in their names
  (`BillingLaws.ColonLosesEntry`); a CHECK in db/migrations/000025_billing_core.sql:75 rules it out.
- Between the end of a paid period and the next `ReconcileLifecycle`, `Entitlement` denies the access that the grace
  period grants, and a subscription that ran out hides an older one that is still good; `BillingLaws.AccessGapIff` says
  exactly when, for any number of subscriptions of the account.
- `PruneTrash` never deletes a message (`StorageRuns.MessagesStay`). Every message has an event row, written by
  `CreateDraft` or on acceptance, or a receipt, and nothing deletes those; their foreign keys refuse the deletion
  (db/migrations/000051_mail_core.sql:140, 000058_mail_inbound_receipts.sql:6; likewise the external recipients, deliveries
  and gateway events of 000054_mail_internet_gateway.sql:20, 34, 81). A missing sender of an inbound message with
  attachments is read into an integer and fails as well. So the transaction rolls back if and only if a message left without
  items is inbound with attachments, or nobody's parent (`StorageRuns.PruneAbortsIff`). As it picks the oldest items first,
  one such item ends all trash pruning (`StorageRuns.StuckBlocksPruning`); `StorageRuns.InboundTrashIsNeverPruned` and
  `StorageRuns.SentTrashIsNeverPruned` are runs from an empty database. The repository's own test
  (internal/mail/retention_integration_test.go:44-50) expects the message gone and the quota released; the model follows
  the code and its schema.
- A delivery may be leased again after each expiry, up to the 100 attempts that a CHECK allows
  (db/migrations/000054_mail_internet_gateway.sql:38; `OutboundCaps.AttemptsAreCapped`,
  `OutboundWitness.AttemptsReachTheCap`). After that every lease of a batch that includes it fails as a whole, and the worker ends with the error
  (internal/mail/gateway_worker.go:34): while the row is due and among the first, nothing is leased
  (`OutboundCaps.FullRowBlocksLeasing`).

Suppression by hand in the data hub survives a rebuild only because of the trigger in
db/migrations/000033_data_hub_manual_suppression.sql:7-19; the Go code alone would publish the page again. The model
has the trigger as a switch and proves both (`DataHub.SuppressionHoldsIff`). With it, every rebuild of such a page from a
publishable snapshot adds a version (`DataHub.RebuildIsIdempotentIff`).

The table lists the methods of the stores whose proof does more than follow the branches of the transaction. The other
transactions are methods as well, each proved equal to its step function.

## Model

| member | source | states |
|---|---|---|
| `OutboundLaws.LogExplainsRow` | internal/mail/gateway_queue.go:57-94 | in every reachable state replaying a delivery's full event log gives its status, attempts and number of manual retries, and a row is leased exactly when owner and lease time are set |
| `OutboundLaws.EventCaps` | internal/mail/dead_letter.go:48-52 | over any run one delivery has at most 3 DEAD_RETRY, 4 SUBMIT, 28 RETRY, 1 DELIVER and 1 BOUNCE events, and manual retries are still counted after pruning |
| `OutboundLog.AcceptedLogBounds` | internal/mail/gateway_queue.go:80-88 | the epoch argument: every log the delivery automaton accepts respects the caps |
| `OutboundWitness.CapsAreReached` | internal/mail/gateway_queue.go:83-86 | one run reaches 3, 4 and 28 together, so the caps are tight |
| `OutboundCaps.AttemptsAreCapped` | db/migrations/000054_mail_internet_gateway.sql:38 | no run brings a delivery beyond 100 attempts |
| `OutboundWitness.AttemptsReachTheCap` | internal/mail/gateway_queue.go:71-76 | leases that expire bring it to each number up to 100 |
| `OutboundCaps.FullRowIsNeverLeased` | internal/mail/gateway_queue.go:47-56 | a row waiting with 100 attempts is never leased again, over any run: it stays as it is, or is buried when another delivery's hard bounce suppresses its recipient |
| `OutboundCaps.FullRowBlocksLeasing` | internal/mail/gateway_queue.go:44-68 | while such a row is due, unlocked and among the first of a batch, any number of lease calls by any workers change nothing |
| `OutboundSafety.LeaseIsExclusive` | internal/mail/gateway_queue.go:44-56 | until its lease ends no step but an outcome reported by the holder changes a leased row |
| `OutboundSafety.SuppressedIsNotLeased` | internal/mail/gateway_queue.go:57-67 | a lease hands out a picked row unless its recipient is suppressed at that moment, and then the row ends DEAD |
| `OutboundSafety.EachDeliveryCountsOnce` | internal/mail/gateway_delivery.go:34-70 | over any run at most one delivery report and at most one bounce report of a delivery take effect, whatever callbacks arrive |
| `OutboundSafety.StepPrunes` | internal/mail/gateway_delivery.go:34-70 | a step that is not a report taking effect adds nothing to a pressure or suppression row |
| `OutboundSafety.CallbacksCountOnce` | internal/mail/gateway_delivery.go:34-70 | so the counters of a domain and of a recipient never exceed the deliveries that got through or bounced |
| `OutboundSafety.RepeatedCallbackIsHarmless` | internal/mail/gateway_delivery.go:34-44 | an accepted callback repeated at any later time, even after its receipt was pruned, changes no delivery, event, suppression or pressure row |
| `OutboundSafety.ActiveSuppressionSurvives` | internal/mail/deliverability.go:65-85 | with a clock that does not run backwards an active suppression is never shortened, lifted or deleted |
| `OutboundSafety.WindowMustCoverLifetime` | internal/mail/deliverability.go:13-17 | a further bounce never shortens an active suppression if and only if the bounce window is at least the lifetime less one tick |
| `OutboundSafety.CooldownLasts` | internal/mail/deliverability_pressure.go:64-92 | an active domain cooldown survives outcomes, window resets and maintenance |
| `OutboundCodes.FirstDigitDecides` | internal/mail/deliverability.go:27-46 | the first digit of a reply or enhanced status code decides the failure class, whatever white space precedes and text follows it |
| `OutboundCodes.RetryableCodesAreOurs` | internal/mail/dead_letter.go:14-22 | a code that allows a manual retry is never classified as a reply of the remote server |
| `OutboundCodes.FailuresCoolDown` | internal/mail/deliverability_pressure.go:26-88 | within one window, whatever else is observed, every outcome is counted once and transient failures cool the domain for 5, 15 and 30 minutes from the third, sixth and tenth on; a cooldown carried over can only end later |
| `OutboundCodes.OverIsOver` | internal/mail/dead_letter.go:46-48 | a bounced delivery and a dead one whose code allows no manual retry never change again, over any run |
| `OutboundStore.MailRepository.ApplySendRecipients` | internal/mail/gateway_recipients.go:44-56 | creates READY rows with their QUEUE events, or nothing when a recipient is suppressed |
| `OutboundStore.MailRepository.LeaseOutbound` | internal/mail/gateway_queue.go:41-69 | one bulk update and a suppression check for each row amount to leasing the rows one by one |
| `OutboundStore.MailRepository.RecoverExpiredOutboundLeases` | internal/mail/gateway_queue.go:71-76 | expired leases go back to RETRY with a LEASE_EXPIRE event each |
| `OutboundStore.MailRepository.ApplyOutboundCallback` | internal/mail/gateway_delivery.go:30-70 | receipt, deduplication, delivery or bounce, and the fan-out to other rows of a newly suppressed recipient |
| `OutboundStore.MailRepository.MaintainDeliverability` | internal/mail/deliverability_maintenance.go:27-49 | stale submissions become DEAD with their events, pruning spares DEAD_RETRY events and active suppressions |
| `Resolver.ExactAtFixpoint` | internal/address/resolver.go:35-44 | closing a batch marks exactly the reachable current rows APPLIED and the rest ORPHAN if and only if no candidate is left and no reachable row was marked ORPHAN before |
| `Resolver.EnoughPasses` | internal/address/resolver.go:59-70 | a tree of depth d with fewer reachable rows than (passes - d + 1) * 5000 + d leaves no candidate after that many passes, whichever pages are picked |
| `Resolver.ExactBelowLimit` | internal/address/resolver.go:35-44 | from an empty table, below that limit for 128 passes a fresh batch ends exact |
| `ResolverLimits.LimitIsTight` | internal/address/resolver.go:35-70 | for each depth from 1 to 128 and each number of reachable rows from the limit on, a batch and its pages lose a reachable row |
| `Resolver.ExactWhenShallow` | internal/address/resolver.go:35-41 | from an empty table and with fewer than 5128 reachable rows, the run is exact if and only if no root path is longer than 128 |
| `Resolver.TooDeepIsOrphaned` | internal/address/resolver.go:35-43 | an object deeper than the number of passes ends ORPHAN although its parent chain reaches a root |
| `Resolver.TooManyAreOrphaned` | internal/address/resolver.go:35-43 | with more reachable rows than the passes have room for, one of them ends ORPHAN |
| `ResolverLimits.LongChainLosesItsEnd` | internal/address/resolver.go:35-43 | a chain of 129 objects loses its last |
| `Resolver.PassShrinksValid` | internal/address/resolver.go:86-96 | a pass moves as many rows from VALID to APPLIED as it counts |
| `Resolver.PassesKeepSifted` | internal/address/resolver.go:57-104 | after any passes the addresses are exactly the APPLIED rows, each with version 1, an index event, its parent address and a root path |
| `AddressForest.AddressesFormForest` | internal/address/resolver.go:66-68 | parent links of addresses have no cycle, whatever the staged hierarchy holds |
| `AddressForest.FullAddressSpellsPath` | internal/address/resolver.go:77-78 | full_address is the comma join of the display names from the root down |
| `AddressForest.NormalizedIsNamed` | internal/address/gar/model.go:50-66 | compacted names meet what the comma join needs |
| `ResolverStore.Repository.ResolvePass` | internal/address/resolver.go:57-104 | one transaction applies one page of candidates |
| `ResolverStore.Repository.ResolveBatch` | internal/address/resolver.go:22-55 | from any point an earlier call stopped at: the loop is a run of passes stopped by the first zero pass or by 128, with exact counts; the orphans reported are those this call marked, which are all if and only if none was marked at the start |
| `ResolverStore.RestartForgetsOrphans` | internal/address/resolver.go:42-52 | a call restarted after the orphans were marked makes one empty pass, changes no row and reports none of them |
| `ResolverStore.StrayIsForgotten` | internal/address/resolver.go:42-52 | a batch with a row whose parent was never staged has an orphan after its first call, so this happens |
| `Importer.CheckpointIsTruthful` | internal/address/importer.go:32-50 | in every interleaving of imports, crashes and restarts each row at or below the checkpoint of the recorded file is recorded, and every record is a row of its file |
| `Importer.FinishedImportIsExact` | internal/address/importer.go:27-51 | once any import of a file has seen all rows, its staged and rejected rows are and stay those of one uninterrupted import |
| `Importer.OnlyClashesConflict` | internal/address/repository.go:57-93 | recording a row, first time or again, fails exactly when another row took its object |
| `Importer.Store.ImportFile` | internal/address/importer.go:27-51 | the loop keeps the checkpoint truthful when stopped at any row, and success means the file is completely recorded |
| `OrgLaws.AppliedExactlyOnce` | internal/organizations/apply.go:24-52 | under concurrent planners, crashes, lease loss and re-leasing a DONE batch has applied every CREATE, UPDATE and NOOP plan exactly once and no other; before that exactly those up to the checkpoint |
| `OrgLaws.AppliedCountIsExact` | internal/organizations/apply.go:46-48 | applied_count of a DONE batch is the number of its planned changes |
| `OrgLaws.LeasedPlansAreFrozen` | internal/organizations/control.go:93-109 | from the first lease on no plan of the batch appears, disappears or changes |
| `OrgLaws.SourceCountIsLinks` | internal/organizations/apply.go:102-161 | source_count of every organization is the number of its source links |
| `OrgLaws.EveryVersionIsQueued` | internal/organizations/apply.go:76-80 | every version an organization reaches has its UPSERT event |
| `OrgLaws.SharedDetailsAreKept` | internal/organizations/apply.go:146-158 | once two sources vouch for an organization no import changes its name or a known detail |
| `OrgLaws.PlannerAlwaysDecides` | internal/organizations/planner.go:51-74 | planRow never fails on a named row, creates only without a match, reviews only among two to twenty matches and otherwise targets the one linked or matching organization |
| `OrgPlanners.CompletedIsPlanned` | internal/organizations/planner.go:35-49 | a batch past planning has no VALID row and each row was rejected or has a plan, for any planners interleaved with staging, each other and crashes, when each began for a batch in PLANNING |
| `OrgScenarios.UncheckedPlannerLeavesRow` | internal/organizations/repository.go:186-189 | a planner begun during staging completes the batch with a row that has no plan |
| `OrgLeftovers.LeftoverIff` | internal/organizations/planner.go:35-49 | for any planners, LeaseApply included: when a planner completes a batch, a row is left without a plan if and only if it was staged behind the running planner, its cursor or page being past it or its last page empty, and no other planner saved it since |
| `OrgLeftovers.NothingIsLeftBehind` | cmd/app/orgctl.go:50-58 | no row is ever staged behind a planner that began for a batch in PLANNING |
| `OrgLeases.OvertakenIff` | internal/organizations/apply.go:26-52 | over any run, LeaseApply and unchecked planners included, a plan is left behind the checkpoint neither applied nor rejected if and only if a step applied a later plan while it was an open review |
| `OrgLeases.AppliedUnlessOvertaken` | internal/organizations/apply.go:24-85 | over any run a planned change at or below the checkpoint was applied once, or never if it was overtaken so |
| `OrgLeases.OvertakenIsLost` | internal/organizations/apply.go:40-52 | an overtaken review is never applied, however it is decided and whatever runs afterwards |
| `OrgLeases.BlindLeaseOvertakesIff` | internal/organizations/repository.go:199-212 | a batch leased by LeaseApply passes a review only if a due plan comes after an open review, and once nothing is due if and only if one does |
| `OrgScenarios.BlindLeaseLosesReview` | internal/organizations/repository.go:199-212 | a run from an empty import that ends DONE with a decided CREATE never applied |
| `OrgStore.Repository.RowsForPlanning` | internal/organizations/repository.go:147-162 | the lowest waiting rows in order, up to the page size |
| `OrgStore.Repository.PlanBatch` | internal/organizations/planner.go:35-66 | as one uninterrupted run of planner steps: success leaves no VALID row, every waiting row with the plan planRow proposes, and the batch PLANNED |
| `OrgStore.Repository.ApplyNext` | internal/organizations/apply.go:19-90 | applies the least due plan or finishes the batch; an error changes nothing |
| `OrgStore.Repository.Drain` | internal/organizations/apply.go:179-183 | the inner loop ends, and ends DONE when it reports done |
| `BillingLaws.RefundsAreCovered` | internal/billing/payment.go:36-56 | refunds stay within the amount and within recorded payments, REFUNDED holds exactly when the positive amount went back, and then the subscription is CANCELED |
| `BillingLaws.RefundedIsFinal` | internal/billing/payment.go:43-54 | nothing leaves REFUNDED with CANCELED |
| `BillingLaws.LedgerHoldsEachTextOnce` | internal/billing/payment.go:46-53 | for any providers the ledger holds one entry for each key text of the processed money events |
| `BillingLaws.OneEntryForEachEvent` | internal/billing/payment.go:46-53 | with providers free of a colon each processed payment, refund or chargeback has exactly one entry |
| `BillingLaws.ColonLosesEntry` | internal/billing/payment.go:46 | two events whose key texts coincide leave a paid invoice without an entry |
| `BillingLaws.RepeatsAreHarmless` | internal/billing/payment.go:31-39 | repeats of an accepted event anywhere later change nothing, then or afterwards, and other content is refused |
| `BillingLaws.FailureLeavesNoTrace` | internal/billing/payment.go:29-57 | a stream with a failed event goes on as if it had not been sent |
| `BillingLaws.ReconcileOnceIsEnough` | internal/billing/payment.go:61-65 | reconciling at an earlier time first makes no difference |
| `BillingLaws.AccessGapIff` | internal/billing/repository.go:77-80 | whatever the account holds, the answer changes with reconciling exactly when the latest granting subscription is ACTIVE past its period and within grace, or is past its grace while another is within |
| `BillingLaws.ReconciledAccess` | internal/billing/payment.go:61-65 | right after reconciling an account has access if and only if a subscription that was ACTIVE or GRACE is within its grace |
| `BillingStore.Repository.ApplyPaymentEvent` | internal/billing/payment.go:26-57 | the whole transaction, its errors and its answer to repeats |
| `BillingStore.Repository.ReconcileLifecycle` | internal/billing/payment.go:61-65 | grace starts and expiry follow in one transaction, with exact counts |
| `StorageRuns.StorageIsConserved` | internal/mail/attachments.go:64-84 | each mailbox is charged the exact size of the attachments it pays for, within quota, and each live blob has its file under a key the blob queue never held |
| `StorageLaws.ClampNeverActs` | internal/mail/attachments.go:83 | GREATEST(0, ...) never changes the result |
| `StorageRuns.EventIsDeliveredOnce` | internal/mail/gateway_ingest.go:41-59 | an accepted gateway event is never delivered or charged again |
| `StorageRuns.MessagesStay` | internal/mail/retention.go:27 | over any run no message is ever deleted |
| `StorageRuns.PruneAbortsIff` | internal/mail/retention.go:21-28 | over the messages of a batch pruning fails if and only if one is left without items and is either inbound with attachments, or nobody's parent and named by another row |
| `StorageRuns.StuckBlocksPick` | internal/mail/retention.go:16-31 | while all items of such a message are among those picked, pruning changes nothing at all |
| `StorageRuns.StuckBlocksPruning` | internal/mail/retention.go:19-30 | with fewer than a batch of older items it stays so over any number of calls |
| `StorageRuns.InboundTrashIsNeverPruned` | internal/mail/retention.go:16-31 | a run from an empty database to an inbound message, without attachments, for which every call fails from its expiry on |
| `StorageRuns.SentTrashIsNeverPruned` | internal/mail/retention.go:16-31 | one to a sent message with an attachment, which its sender keeps paying for |
| `StorageStore.AttachmentStore.Ingest` | internal/mail/gateway_ingest.go:36-73 | receipt, quota, message, inbox item, attachments and charge to the recipient |
| `StorageStore.AttachmentStore.PruneTrash` | internal/mail/retention.go:16-31 | the oldest expired items that are not locked, up to the limit, and the loop over their messages, rolled back as a whole on a failure |
| `StorageStore.AttachmentStore.RunBlobGC` | internal/mail/retention.go:33-38 | removes the files it can and forgets exactly the keys whose file is gone |
| `Metrics.SortDesc` | internal/quality/metrics.go:124-134 | the in-place insertion sort leaves a descending permutation |
| `Metrics.NDCGAt` | internal/quality/metrics.go:29-60 | the score is discounted gain over the discounted gain of the sorted positive grades, for any map order |
| `Metrics.MRR` | internal/quality/metrics.go:62-69 | the reciprocal of the first relevant rank, zero exactly when there is none |
| `Metrics.RecallAt` | internal/quality/metrics.go:71-98 | distinct relevant documents found over all relevant documents |
| `Metrics.DuplicateHostRateAt` | internal/quality/metrics.go:100-118 | documents with a host that are not the first of it, over the cut |
| `NdcgLaws.NdcgIsNormalised` | internal/quality/metrics.go:29-60 | without repeated judged documents the score lies between 0 and 1, for any positive non-decreasing discount |
| `NdcgLaws.OnlyIdealOrderIsPerfect` | internal/quality/metrics.go:29-60 | for a strictly increasing discount the score is 1 if and only if the first ranks hold the ideal grades in order |
| `NdcgLaws.RepeatsExceedOne` | internal/quality/metrics.go:34-41 | one relevant document counted twice scores above 1 |
| `Passages.SplitPassages` | internal/extractor/passages.go:19-55 | the passages are the first pieces, up to the cap, of the greedy split of the words with long words cut |
| `PassageLaws.SplitIsBounded` | internal/extractor/passages.go:28-35 | consecutive ordinals, at most MaxPassages passages of 1 to MaxChars characters |
| `PassageLaws.SplitKeepsText` | internal/extractor/passages.go:37-54 | the non-space text in order, all of it if and only if there are no more pieces than the cap |
| `PassageLaws.SplitJoinsBack` | internal/extractor/passages.go:46-54 | without oversized words, joining gives the normalised text if and only if there are no more pieces than the cap |
| `PassageLaws.SplitUsesFewest` | internal/extractor/passages.go:46-53 | no other grouping into pieces that fit uses fewer |
| `DataHub.HistoryIsComplete` | internal/datahub/repository.go:91-117 | over any mix of operations the versions of a page are exactly 1 to its version |
| `DataHub.OldVersionsStay` | internal/datahub/repository.go:91-117 | over any continuation a version once written never changes |
| `DataHub.CurrentVersionIsThere` | internal/datahub/control.go:30 | the join with the current version never misses and finds the page's hash |
| `DataHub.RollbackRepeatsTarget` | internal/datahub/control.go:36-47 | rolling back to any version is accepted, repeats its snapshot and hash in a new version and lifts a suppression |
| `DataHub.RebuildIsIdempotentIff` | internal/datahub/repository.go:109-116 | a second rebuild from the same facts adds no version, except from a publishable snapshot under a suppression held by the trigger, where each one does |
| `DataHub.SuppressionHoldsIff` | db/migrations/000033_data_hub_manual_suppression.sql:7-19 | until reopened or rolled back a page suppressed by hand stays down over every run with the trigger, and without it if and only if the last word was not a rebuild of a publishable snapshot |
| `DataHub.Repository.ApplySnapshot` | internal/datahub/entities.go:66-78 | state, version, history and event of a rebuild |
| `DataHub.Repository.RollbackPage` | internal/datahub/control.go:36-47 | the checks, the new version and the event |
| `Flight.OneFnPerKey` | internal/search/flight.go:24-35 | at most one fn runs for a key |
| `Flight.DoneClosesOnce` | internal/search/flight.go:35-40 | done is closed at most once, after the result is stored |
| `Flight.FinishedCallsAreNotJoined` | internal/search/flight.go:24-29 | a call that a caller joins has not closed done |
| `Flight.AnswersAreFinal` | internal/search/flight.go:35 | a stored result never changes |
| `Flight.EveryoneGetsTheLeadersAnswer` | internal/search/flight.go:26-41 | the leader and all followers that were not canceled return the same result, the one fn gave |
| `Flight.EndedIffAllAreBack` | internal/search/flight.go:21-42 | no step of the program is left if and only if all callers are back |
| `Flight.RunsAreBounded` | internal/search/flight.go:21-42 | no run takes more than nine steps for each caller that began |
| `Flight.EveryoneComesBack` | internal/search/flight.go:21-42 | whatever the interleaving, after the last caller began at most eight steps for each are taken, and when none is left all callers are back |
| `Flight.EveryoneCanComeBack` | internal/search/flight.go:21-42 | from any point the program can bring all callers back without a cancellation |

## Left out

- Isolation levels, locks and SQL details: each transaction is atomic and commits or rolls back as a whole.
- CHECK, UNIQUE and foreign-key constraints of the migrations beyond those named here: a violated one rolls the
  transaction back, which is a step that does not happen (ledger amounts other than zero, one live subscription for a
  product).
- Default clocks for a zero time, time zones and calendar months: times are integers and the end of a billing period is
  a parameter.
- Outbound mail: gateway events, delivered_at, bounced_at and error details, suppressions set or cleared by hand,
  address parsing and hashing (addresses are taken as normalised), internal recipients, listings, the polling loop of
  the worker, MIME building and the transfer agent itself. Lengths are in characters, not bytes, and upper-casing is that
  of ASCII: a failure code spelt with U+017F, which Go maps to S, is not the same code here.
- Resolver: name, normalised name, GUID, level and source revision of an address, the pass events, addresses already in
  the table before the import, a street and a house under one object number, and the order in which a page of 5000 is
  picked (the theorems hold for every choice).
- Importer: XML decoding, payload sizes, the staged and rejected counters.
- Organization import: normalisation of names and contacts, the display name, coordinates as numbers (they are details
  like any other), last_seen_at, the events other than APPLY, the polling loop of the runner. What a planner found out
  about a row when it saves the plan is a parameter of the step.
- Billing: accounts and plans, quotas and usage, periods beyond the first, the timestamps of payment and cancellation,
  upper-casing outside ASCII. The plans of a product are a parameter of Entitlement.
- Storage: file names, content types, download, the byte bucket (a parameter), the hourly limits, threads,
  internal recipients, folders other than the trash and the retry times of the blob queue; of events, external recipients
  and deliveries only which messages they name. A refused upload's temporary file is not a step.
- Metrics: rounding (scores are reals; log2 is any positive increasing discount) and the evaluator around them.
- Passages: invalid UTF-8.
- Data hub: evidence counts, scores and timestamps of a page, the gate that decides `publish`, and JSON.
- Flight: an fn that panics or never returns.
- HTTP handlers, command lines, web and WordPress code, DNS, fetching, crawling, Manticore, maps, reviews, mail folders,
  previews, login and sessions: simpler copies of these patterns or plumbing.
- Cryptography, hashing and random identities: hashes are injective, fresh identities are new.
- Importer.Store.ImportFile: covers one import at a time; interleaved imports are the step model of Importer.
- OutboundStore.MailRepository.ApplySendRecipients: the internal recipients of the same loop are not modelled.
- OutboundStore.MailRepository.MaintainDeliverability: the replay guard, DNS snapshots and DEFER events are not modelled.
- StorageStore.AttachmentStore.Ingest: the thread and the recipient row are not modelled, the event row only by its message.
- StorageStore.AttachmentStore.RunBlobGC: which keys it reads and when a failed key is tried again are parameters.
- ResolverStore.Repository.ResolvePass: which candidates make up a page is any set of the right size.
- OrgLaws.AppliedExactlyOnce: holds for runs of the steps the program takes; with LeaseApply, OrgLeases.AppliedUnlessOvertaken
  says what is left of it.
