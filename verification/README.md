# Verified models of the affiliate outreach system

This project models the parts of the outreach system whose mistakes cost the most, and proves what they
promise: who is messaged and when, what a crawl or a history import may claim to have seen, how fast the
provider is asked, and what a signature covers.

Every database transaction, or single conditional update, is one atomic step. Steps of different workers,
duplicate and stale job runs, operators and the provider interleave freely; a worker may crash between any
two steps; clocks, provider answers and random draws are data. A step that is not enabled leaves the state
as it is, so a run is any sequence of steps. Where the source changes rows step by step, a class holds the
rows and its methods are proved to be exactly the table change that the interleaved runs reason about.

| module | what it is about |
|---|---|
| `OutreachDb`, `OutreachEffects`, `OutreachCampaigns`, `OutreachStore` | deliveries, recipients, reservations, contacts and campaigns: the tables and their transactions, as functions and as methods that loop over rows, and what each means to other deliveries |
| `OutboundClaims`, `OutboundProgress` | exactly when a claim is granted or turned down, row by row; what the protocol gets done when nothing goes wrong |
| `OutboundProtocol`, `OutboundSafety`, `OutboundSpacing`, `OutboundCooldown` | the delivery protocol under any interleaving: at most one acceptance per delivery, quarantine of unknown outcomes, cooldown between messages to one creator |
| `OutboundRebuild`, `OutboundReconciliation` | why a ledger rebuild keeps the cooldown's invariant, and exactly which ends of a reconciliation, and so which steps and runs, keep it |
| `OutboundScenes`, `OutboundLapses` | concrete runs: for each condition of the cooldown a run that breaks it alone, and with it the cooldown |
| `HistoryDb`, `HistoryTables`, `HistoryRuns` | the persistent history import: page chain, message chains, HEAD passes, leases, cursor recovery |
| `HistoryProgress`, `HistoryPasses` | that the import gets done, from where it still can, and how its passes follow each other |
| `Crawler`, `CrawlerTables`, `CrawlerRuns` | the creator crawler's pages: staging, commits under a lease, one partition's cursor |
| `CrawlerPointer`, `CrawlerClaims`, `CrawlerAbandons` | the whole job: statuses, claims, error handlers and operators, one staged page at a time, and the run in which there are two |
| `CrawlerProgress`, `CrawlerOperations` | what an undisturbed worker brings in, the job's totals, and how a crawl ends, pauses, waits and goes on |
| `FollowerRanges`, `PartitionTree`, `PartitionTables`, `PartitionRuns`, `PartitionEvidence` | the adaptive split tree of follower ranges, and which evidence splits a partition |
| `Scheduler`, `SchedulerOrder`, `SchedulerClaim`, `CategoryCoverage`, `CoverageRounds` | which partition the crawler asks next, computed from the rows, and how evenly categories are covered |
| `Governor`, `GovernorAdmission`, `GovernorTables` | permits, concurrency, back-off and send spacing |
| `Characterizer`, `CharacterizerState`, `CharacterizerRuns`, `CharacterizerRows`, `CharacterizerLadders`, `CharacterizerPages`, `CharacterizerLaws`, `CharacterizerTears` | the resumable throttle experiment, write by write: what holds over all its runs, and what an interrupt between two writes breaks |
| `Preview`, `PreviewRules`, `FreezeAccount`, `Reconciliation` | eligibility and selection of a campaign preview; its account after a freeze; the match of an unknown delivery |
| `ContactLedger` | the contact row kept message by message against its rebuild |
| `TokenRefresh`, `TokenProgress` | token rotation by compare-and-set, and what a refresh comes to |
| `CanonicalJson`, `CanonicalJsonProofs`, `CanonicalReader` | the canonical text of a signed body, and its reading by the rules of JSON |

Results that say where the code does not meet a tempting claim:

- A delivery of unknown outcome always marks its creator, except after one kind of step: the final
  `DELIVERY_UNKNOWN_UNRESOLVED` write of a reconciliation does not read the tables again, so a late one can
  land on a creator whose mark was cleared meanwhile. `OutboundSafety.QuarantineExactly` is the exact
  condition, `OutboundLapses.QuarantineBreaks` the run.
- The cooldown between two accepted messages holds for runs without that step, and without a reconciliation
  that matches a delivery whose message is still on its way (`OutboundCooldown.Benign`); nothing is asked of
  claims, crashes, freezes, imports or rebuilds. A rebuild may take an accepted message off the contact row,
  exactly when a stale run overwrote its SENT and no other date covers it
  (`OutboundRebuild.ComputedRebuildForgetsExactly`), and the cooldown holds all the same, because the row of
  such a delivery still guards the creator. `OutboundReconciliation.StepIsSafeExactly` says exactly which
  steps keep the invariant, and `OutboundLapses.EachConditionIsNeeded` breaks the cooldown by each of the two
  reconciliations alone.
- The import fold and the ledger rebuild agree on the first contact exactly when no message is dated at or
  before the epoch.
- A freeze keeps the preview's account exactly when no selected recipient's contact row shows a contact made
  by the application within the cooldown, and nothing graver (`FreezeAccount.FreezeSummary`).
- The crawler has one staged page at a time for the whole job as long as no claim finds the job at an
  unfinished partition whose status cannot be resumed. That never happens while error handlers write under
  the lease they found the error under and resumes see the current pointer
  (`CrawlerClaims.TidyRunsStageOne`). Neither write asks again: in `CrawlerAbandons.StaleErrorStagesTwo` a
  worker without the lease sets a job waiting that another error had stopped, and two pages are staged.
- A history import can be finished from wherever errors, crashes and operators brought it, except from a BACKFILL page whose
  continuation the provider left out: that answer is stored, every later turn ends with an error, and a start does not
  help (`HistoryProgress.CanFinishExactly`).
- A quota block holds until an operator resumes exactly when no other permit is out, so always on the
  one-permit send limiter (`Governor.QuotaBlockHoldsExactly`).
- An uncertain token outcome is left by the claim of a refresher that read the row earlier; `TokenRefresh.StaleClaimLeavesUncertain` is the run.
- While one delivery to a creator is unknown another may still be claimed, exactly when the contact row names
  that other one (`OutboundSafety.UnknownAdmitsExactly`); `OutboundLapses.UnknownDoesNotBlock` is a run.
- The throttle experiment repeats a request number after any kill between the request and its log row, and after nothing else.
- It applies an outcome key by key and saves whatever an interrupt finds. Between the two writes of a
  last-tier pass that is a tier which does not exist, and every later invocation ends with an error
  (`CharacterizerRuns.TierInRangeExactly`, `TornPassIsStuck`; `CharacterizerTears.TierIsLost` is the run). An
  interrupt after a success was counted makes its row count twice, unless the success was the third of its
  tier and not cleared yet (`CharacterizerRows.TornThenWhole`; `CharacterizerTears.RowCountsTwice`). One
  between the record of a tier and the move to the next, and nothing else, lets the interval that fails first be
  reported as the fastest that passed (`CharacterizerLadders.FastestIsBeforeFailed`;
  `CharacterizerTears.FailedIsFastest`).

## Model

| member | source | states |
|---|---|---|
| `OutreachStore.Store.ReserveDispatchSlot` | apps/worker/src/dispatch-safety.ts:10-76 | granted if and only if delivery and campaign wait, the contact row neither forbids, nor is marked by another delivery, nor shows another contact within the cooldown, and the reservation is its own and runs; then delivery, recipient and campaign move together, otherwise the delivery is closed and the creator let go |
| `OutboundClaims.ClaimGrantedExactly` | apps/worker/src/dispatch-safety.ts:16-44 | the same for every delivery, on the rows |
| `OutboundClaims.ExcludedExactly` | apps/worker/src/dispatch-safety.ts:27-44 | which of the four reasons is written down: the first that holds, in this order |
| `OutboundClaims.DoNotContactHolds` | apps/worker/src/dispatch-safety.ts:27-29 | over any run no claim to a creator marked do-not-contact is granted until an operator takes the mark back |
| `OutboundClaims.EveryGrantMeetsRow` | apps/worker/src/dispatch-safety.ts:27-44 | over any run no claim is granted while the row forbids it, or shows another contact within the cooldown |
| `OutreachStore.Store.MarkSent` | apps/worker/src/main.ts:166-192 | an acceptance is recorded on delivery, recipient and contact row, the creator stays marked while another delivery or imported fact is unresolved, and the reservation goes |
| `OutreachStore.Store.OtherUnknown` | apps/worker/src/main.ts:173-178 | counts exactly the other unresolved deliveries to the same shop and creator |
| `OutreachStore.Store.MarkDeliveryUnknown` | apps/worker/src/main.ts:217-235 | an ambiguous answer, or the recovery of an interrupted dispatch, keeps the reservation and the contact dates, marks the creator, blocks every claim of the creator's other deliveries at any time, and keeps the quarantine |
| `OutreachStore.Store.MakeDeliveryRetryable` | apps/worker/src/main.ts:282-289 | after a definite refusal the delivery can be claimed again under exactly the checks that let it through before; reservation, contacts and all other rows stay |
| `OutreachStore.Store.MarkTerminalFailure` | apps/worker/src/main.ts:204-215 | the delivery is over: no claim changes anything any more, its reservation and no other goes, no contact is recorded |
| `OutreachStore.Store.MarkRestricted` | apps/worker/src/main.ts:252-259 | a restricted creator's delivery is over in the same way |
| `OutreachStore.Store.GiveUpReconciliation` | apps/worker/src/main.ts:545-552 | the last reconciliation attempt ends the delivery whatever the tables hold by then, leaves the contact row alone, and keeps the quarantine if and only if the creator is marked |
| `OutreachStore.Store.Freeze` | apps/api/src/outreach/outreach.service.ts:430-535 | expired reservations of the shop go, every selected recipient is reserved or dropped by what contact row and active reservations said before the loop, and the campaign is frozen or its preview expires |
| `OutreachCampaigns.FreezeKeepsExactly` | apps/api/src/outreach/outreach.service.ts:455-494 | a selected recipient is reserved for half an hour if the creator is free for the campaign, and unselected if not |
| `OutreachCampaigns.CampaignFreezesExactly` | apps/api/src/outreach/outreach.service.ts:495-530 | the campaign freezes exactly when somebody is left |
| `OutreachCampaigns.FreezeSparesOthers` | apps/api/src/outreach/outreach.service.ts:440-535 | whom the freeze is not about keeps row, delivery, contact and active reservation |
| `OutreachCampaigns.StaleIsRefused` | apps/api/src/outreach/outreach.service.ts:432-438 | a freeze or queueing of another version or state changes nothing |
| `OutreachStore.Store.FreezeEach` | apps/api/src/outreach/outreach.service.ts:463-494 | the recipient loop reserves exactly the recipients not dropped and counts them |
| `OutreachStore.Store.FindDropped` | apps/api/src/outreach/outreach.service.ts:441-473 | who is dropped: do-not-contact, unresolved, within cooldown, or actively reserved |
| `OutreachStore.Store.QueueFrozen` | apps/api/src/outreach/outreach.service.ts:552-577 | the queueing transaction makes the reservations permanent and gives each reserved recipient one delivery, keeping one that exists |
| `OutreachCampaigns.QueueTakesExactly` | apps/api/src/outreach/outreach.service.ts:552-577 | exactly the reserved recipients get a delivery and wait |
| `OutreachCampaigns.FrozenIsClaimable` | apps/api/src/outreach/outreach.service.ts:430-577 | frozen and queued, a new delivery can be claimed whenever its contact row lets it go, and only then |
| `OutreachCampaigns.RedrawsExactly` | apps/api/src/outreach/outreach.service.ts:240-350 | a rediscovery selects whom it found worth selecting, drops everybody else, and gives up old reservations |
| `OutreachCampaigns.ExpiryReturnsExactly` | apps/api/src/shared.ts:17-38 | a frozen campaign not queued in time gives its creators back, and no other campaign does |
| `OutreachStore.Store.RequestQueue` | apps/api/src/outreach/outreach.service.ts:546-577 | lapsed campaigns expire first, and a campaign whose freeze is stale or over is refused before anything is queued |
| `OutreachStore.Store.ExpireFrozenCampaigns` | apps/api/src/shared.ts:17-38 | every lapsed frozen campaign returns its creators |
| `OutreachStore.Store.Cancel` | apps/api/src/outreach/outreach.service.ts:692-712 | exactly the recipients not yet claimed are cancelled with their reservations; a delivery that may be on its way keeps its row and reservation, and no delivery of the campaign is claimed any more |
| `OutboundProtocol.NeverAcceptedTwice` | apps/worker/src/main.ts:291-520 | over any run the provider accepts at most one request of a delivery, and a claimable delivery has none out |
| `OutboundProtocol.ClaimKeepsAtMostOnce` | apps/worker/src/dispatch-safety.ts:16-17 | a claim keeps the one-claim, one-request invariant |
| `OutboundProtocol.EndKeepsAtMostOnce` | apps/worker/src/delivery-policy.ts:5-23 | so does every final write of a run, stale recoveries included |
| `OutboundProgress.MessageGoesOut` | apps/worker/src/main.ts:291-520 | a message that may go out does when nothing goes wrong, and is recorded |
| `OutboundProgress.DeadDispatchIsRecovered` | apps/worker/src/delivery-policy.ts:11-23 | a dispatch whose worker is gone is marked unknown by the next job run |
| `OutboundProgress.DoubtIsSettled` | apps/worker/src/main.ts:539-563 | a reconciliation ends an unknown delivery as sent on a match and as unresolved without one |
| `OutboundProgress.RefusalIsSettled` | apps/worker/src/main.ts:204-289 | each definite refusal is written down in its own way |
| `OutboundSafety.QuarantineExactly` | apps/worker/src/main.ts:539-552 | a step keeps every unknown delivery's creator marked if and only if it is not a reconciliation giving up on an unmarked creator |
| `OutboundSafety.UnknownBlocksOthers` | apps/worker/src/dispatch-safety.ts:32-34 | while one delivery to a creator is unknown no freeze reserves the creator anew and no claim goes to any delivery but the one the contact row names |
| `OutboundSafety.UnknownAdmitsExactly` | apps/worker/src/dispatch-safety.ts:32-44 | a claim of another claimable delivery to that creator is granted if and only if the contact row names it and the remaining re-checks pass |
| `OutboundLapses.UnknownDoesNotBlock` | apps/worker/src/delivery-policy.ts:11-23 | a wholly benign run from an initial state, with a stale recovery, to a granted claim beside an unknown delivery to the same creator |
| `OutboundSafety.RebuildKeepsQuarantine` | apps/api/src/history/contact-state.ts:37-60 | a ledger rebuild keeps the quarantine |
| `OutboundProgress.ImportWrites` | apps/api/src/history/history.service.ts:109-131 | an imported message counts once and only widens the dates of first and last contact |
| `OutboundProgress.RebuildWrites` | apps/api/src/history/contact-state.ts:25-60 | a rebuild writes what it found, keeps do-not-contact, and marks the creator exactly while something is unknown |
| `OutboundSpacing.GivingUpUnguardsExactly` | apps/worker/src/main.ts:547-552 | giving up leaves a guarded delivery guarded if and only if its creator is marked |
| `OutboundSpacing.GrantExcludes` | apps/worker/src/dispatch-safety.ts:35-44 | a granted claim finds no other delivery to the creator in flight and every accepted one a cooldown ago, whatever the contact row still shows |
| `OutboundSpacing.WinnerIsClear` | apps/api/src/outreach/outreach.service.ts:440-462 | whom a freeze reserves: no message to the creator is in flight, and every accepted one is this campaign's cooldown ago |
| `OutboundSpacing.FreezeShelters` | apps/api/src/outreach/outreach.service.ts:440-462 | a freeze takes away no guard of a delivery that may still be, or was, accepted |
| `OutboundSpacing.CancelShelters` | apps/api/src/outreach/outreach.service.ts:698-709 | nor does a cancel, but for deliveries that were still claimable |
| `OutboundSpacing.ExpireShelters` | apps/api/src/shared.ts:19-32 | nor does the expiry sweep |
| `OutboundCooldown.StepKeepsSafe` | apps/worker/src/main.ts:291-563 | every benign step keeps the whole safety invariant: guards, rows of what stands, clear holders of reservations, spacing |
| `OutboundReconciliation.ReconcilingKeepsSafeExactly` | apps/worker/src/main.ts:539-552 | the last write of a reconciliation keeps the safety invariant if and only if it is benign |
| `OutboundReconciliation.MarkIsTheGuard` | apps/worker/src/main.ts:545-552 | on a delivery claimed again meanwhile, giving up is safe exactly while the contact row is marked |
| `OutboundRebuild.ComputedRebuildCovers` | apps/api/src/history/contact-state.ts:25-36 | the latest date of the SENT deliveries, messages and facts is no earlier than the acceptance of any SENT delivery |
| `OutboundRebuild.ComputedRebuildForgetsExactly` | apps/api/src/history/contact-state.ts:11-46 | after such a rebuild the contact row shows every accepted message it showed before if and only if some date covers each one whose SENT a stale run has overwritten |
| `OutboundRebuild.RebuildKeepsSafeExactly` | apps/api/src/history/contact-state.ts:37-60 | whatever a rebuild writes keeps the safety invariant if and only if its latest date is no earlier than the acceptance of any SENT delivery to the creator |
| `OutboundReconciliation.StepIsSafeExactly` | apps/worker/src/main.ts:291-563 | for every safe state and every step, rebuilds included: the step keeps the safety invariant if and only if it is not one of the two bad ends of a reconciliation |
| `OutboundReconciliation.RunIsSafeExactly` | apps/worker/src/main.ts:291-563 | a run stays safe throughout if and only if none of its steps is |
| `OutboundCooldown.CooldownIsKept` | apps/worker/src/dispatch-safety.ts:38-43 | over any run whose reconciliations end benignly, with any rebuilds, two messages accepted for different deliveries to one shop and creator are at least the later one's cooldown apart |
| `OutboundCooldown.OneInFlight` | apps/worker/src/dispatch-safety.ts:10-44 | over any such run messages of two deliveries to one shop and creator are never on their way at once |
| `OutboundLapses.QuarantineBreaks` | apps/worker/src/main.ts:545-552 | a run from an initial state, benign but for one late reconciliation, after which an unresolved delivery's creator is not marked |
| `OutboundLapses.EachConditionIsNeeded` | apps/worker/src/main.ts:539-552 | for each of the two bad ends of a reconciliation a run from an initial state in which nothing else is bad, and two messages to one creator are accepted in the same millisecond under a cooldown of a day |
| `HistoryTables.Tables.CommitConversationPage` | apps/api/src/history/history-processor.ts:102-122 | a listed page is staged, rows staged before keeping their cursor; for the lease holder the job goes on to the page's messages with the answer's token, for anybody else it stays |
| `HistoryProgress.ListingIsFollowed` | apps/api/src/history/history-processor.ts:87-122 | after its owner's listing the next worker picks from the very page just staged |
| `HistoryTables.Tables.CommitMessagePage` | apps/api/src/history/history-processor.ts:135-172 | one message page is stored and nothing forgotten, only its own conversation's cursor moves on, the job loses at most its lease, and what is known of the import's completeness survives |
| `HistoryTables.Tables.AdvanceCompletedPage` | apps/api/src/history/history-processor.ts:175-241 | how the job leaves a finished page in HEAD, BACKFILL and INCREMENTAL passes |
| `HistoryTables.Tables.RecoverCursor` | apps/api/src/history/history-processor.ts:254-271 | an invalid cursor gives up the staging of its page and all cursors, so the chain starts anew; what was imported stays, and so does everything known of the import's completeness |
| `HistoryRuns.BackfillIsComplete` | apps/api/src/history/history-processor.ts:206-230 | whenever the initial backfill counts as complete every message page of every conversation on the chain is stored, and before that the same holds up to the saved cursor |
| `HistoryProgress.TurnGetsOn` | apps/api/src/history/history-processor.ts:53-95 | every undisturbed turn of a worker finishes the backfill or leaves less to do, whatever it picks |
| `HistoryProgress.NewImportFinishes` | apps/api/src/history/history-processor.ts:53-230 | for every provider a new import is complete after so many undisturbed turns at most |
| `HistoryProgress.CanFinishExactly` | apps/api/src/history/history-processor.ts:193-196 | from any reachable state the import can be finished without another error if and only if it is not at a page whose continuation is missing |
| `HistoryPasses.PassesListFirstPages` | apps/api/src/history/history-processor.ts:97-100 | over any run a HEAD pass lists the first page and an incremental pass none beyond its limit |
| `HistoryPasses.IncrementalGoesOnExactly` | apps/api/src/history/history-processor.ts:224-240 | an incremental pass goes on exactly while there is a next page within its limit |
| `HistoryPasses.HeadsAreRegular` | apps/api/src/history/history-processor.ts:184-205 | without a cursor recovery a HEAD pass comes after every so many pages of the backfill, and only then |
| `HistoryPasses.PagesCount` | apps/api/src/history/history-processor.ts:184-205 | a finished backfill page counts once towards the next HEAD pass, which starts the count anew |
| `HistoryPasses.CompleteStartsOver` | apps/api/src/history/history-processor.ts:66-73 | a complete import is taken up again at its first page |
| `HistoryPasses.RequestQueuesPass` | apps/api/src/history/history.service.ts:463-475 | a request for new messages queues a pass from the first page once the backfill is complete, and is refused before |
| `HistoryPasses.LeaseKeepsOthersOut` | apps/api/src/history/history-processor.ts:53-75 | nobody else finds a claimed job for two minutes, and somebody may afterwards |
| `HistoryPasses.FailuresAndPauses` | apps/api/src/history/history-processor.ts:273-300 | a temporary failure leaves the job to be taken again at the same place; a fatal one, or a pause, takes it off until a start |
| `HistoryRuns.CursorMovesPageByPage` | apps/api/src/history/history-processor.ts:184-230 | the backfill cursor moves only to the next page after a finished BACKFILL page, or back to the first on recovery; HEAD passes return to it unchanged |
| `HistoryRuns.ApplyKeepsInv` | apps/api/src/history/history-processor.ts:87-95 | the invariant survives lost leases, stale writes, errors, pauses and operators |
| `CrawlerTables.Tables.StageReceipt` | apps/api/src/creator-database/creator-sync.processor.ts:492-512 | a page is staged once per partition and request token, with its count of new creators |
| `CrawlerTables.Tables.CommitReceipt` | apps/api/src/creator-database/creator-sync.processor.ts:589-660 | page, partition cursor and counters, and the job move together, only for the lease holder |
| `CrawlerRuns.EveryPageCountsOnce` | apps/api/src/creator-database/creator-sync.processor.ts:447-521 | a partition has at most one received page, its committed pages have distinct numbers within its counter, and a committed page was stored and written to the sheet |
| `CrawlerRuns.CursorFollowsPages` | apps/api/src/creator-database/creator-sync.processor.ts:613-640 | committed pages fill the numbers 1 to pagesCompleted, each requested with its predecessor's next token under one search key, and the cursor continues the last |
| `CrawlerRuns.CountersBalance` | apps/api/src/creator-database/creator-sync.processor.ts:596-640 | rows returned and new creators are what the committed pages returned and found new, each row new or duplicate, and every commit counts on the job or found its pointer elsewhere |
| `CrawlerProgress.NewPageCounts` | apps/api/src/creator-database/creator-sync.processor.ts:500-515 | the distinct creators of a page not known before are new, everything else is a duplicate |
| `CrawlerProgress.NextPageIsRead` | apps/api/src/creator-database/creator-sync.processor.ts:455-660 | an undisturbed worker brings in the very page its partition's cursor asks for, and nothing else |
| `CrawlerProgress.NoPageLeadsToItself` | apps/api/src/creator-database/creator-sync.processor.ts:478-500 | over any run no stored page names itself as the next |
| `CrawlerProgress.FetchedIsTheTotal` | apps/api/src/creator-database/creator-sync.processor.ts:640-652 | the job has fetched what its partitions have, while every commit finds the pointer |
| `CrawlerClaims.ClaimLeavesExactly` | apps/api/src/creator-database/creator-sync.processor.ts:264-286 | a claim takes the pointer off an unfinished partition if and only if that partition's status cannot be resumed |
| `CrawlerOperations.CommitEndsExactly` | apps/api/src/creator-database/creator-sync.processor.ts:601-655 | a commit stops a job a pause was asked of, exhausts it exactly when nothing is left, and keeps it running otherwise |
| `CrawlerOperations.PauseAndResume` | apps/api/src/creator-database/creator-database.service.ts:246-290 | a pause takes effect at the commit, and a resume goes on at the same place |
| `CrawlerOperations.PauseStopsIdleJob` | apps/api/src/creator-database/creator-database.service.ts:246-258 | without a lease a pause stops the job and its partition at once, and no other |
| `CrawlerOperations.PauseStopsWorker` | apps/api/src/creator-database/creator-sync.processor.ts:523-530 | a worker between pages obeys a pause and gives its lease back |
| `CrawlerOperations.RetryGoesOn` | apps/api/src/creator-database/creator-sync.processor.ts:708-760 | a temporary error is retried from the same cursor |
| `CrawlerOperations.FatalWaitsForOperator` | apps/api/src/creator-database/creator-sync.processor.ts:762-793 | a fatal error takes job and partition out until a resume, which goes on at the same cursor |
| `CrawlerOperations.ClaimStartsOrEnds` | apps/api/src/creator-database/creator-sync.processor.ts:286-420 | a claim with nothing to go on with starts the scheduler's choice, and exhausts the job exactly when there is none |
| `CrawlerClaims.OnePagePending` | apps/api/src/creator-database/creator-sync.processor.ts:447-521 | while no claim finds the job at such a partition the whole job has at most one received page, its counter is the number of committed pages, and no partition is left half done |
| `CrawlerClaims.TidyRunsStageOne` | apps/api/src/creator-database/creator-sync.processor.ts:708-793 | the same over every run in which errors are written down under their lease and resumes see the current pointer, whatever crashes, lost leases, stale pages and pauses there are |
| `CrawlerAbandons.StaleErrorStagesTwo` | apps/api/src/creator-database/creator-sync.processor.ts:745-771 | a run of the crawler's own moves: an error written down late opens a job in error, the next claim abandons the partition, and two pages are received |
| `FollowerRanges.SplitTiles` | apps/api/src/creator-database/marketplace-partitions.ts:72-98 | the two halves of a split tile the range, differ by at most one in width and stay above the minimum |
| `FollowerRanges.BucketsTile` | packages/domain/src/index.ts:4-18 | every follower count from 600 up is in exactly one seed bucket |
| `FollowerRanges.TierIsConstant` | apps/api/src/creator-database/marketplace-partitions.ts:85-91 | no bucket crosses a tier of the width rules |
| `FollowerRanges.TreeSizeBound` | apps/api/src/creator-database/marketplace-partitions.ts:92-98 | a range of width w grows at most 2 floor(w / m) - 1 partitions |
| `PartitionTables.Tables.CreateFollowerChildren` | apps/api/src/creator-database/creator-sync.processor.ts:95-127 | the missing halves are queued as new rows under the parent, in their own places, every row that exists keeps all but the parent's mark, and a tree stays a tree |
| `PartitionTables.Tables.DecideSiblings` | apps/api/src/creator-database/creator-sync.processor.ts:157-186 | two halves that are through are stopped together exactly when both yield less than the low rate on two hundred rows, and are otherwise split each by its own evidence |
| `PartitionTables.Tables.ExpandReadyBranches` | apps/api/src/creator-database/creator-sync.processor.ts:140-187 | one pass splits a completed seed if and only if its range is wide enough and its rows, new creators and pages meet the bucket's thresholds, and leaves no seed and no pair undecided |
| `PartitionEvidence.SeedSplitsExactly` | apps/api/src/creator-database/marketplace-partitions.ts:139-160 | the same of one seed, which is otherwise stopped for good |
| `PartitionEvidence.PairSplitsExactly` | apps/api/src/creator-database/marketplace-partitions.ts:142-168 | and of the two siblings of any ready pair |
| `PartitionEvidence.MoreNewKeepsSeedSplit` | apps/api/src/creator-database/marketplace-partitions.ts:146-160 | more new creators from the same rows and pages never turn a seed's split into a stop |
| `PartitionEvidence.MoreNewKeepsSiblingSplit` | apps/api/src/creator-database/marketplace-partitions.ts:161-168 | nor a sibling's |
| `PartitionEvidence.VeryHighIsNeverQueued` | apps/api/src/creator-database/creator-sync.processor.ts:100-125 | in every reachable table Very High partitions stay out of the ordinary queue |
| `PartitionRuns.LeavesAlwaysTile` | apps/api/src/creator-database/creator-sync.processor.ts:95-187 | in every reachable table each follower count is in exactly one unsplit partition of each branch |
| `PartitionRuns.PartitionsFormATree` | apps/api/src/creator-database/creator-sync.processor.ts:95-187 | partitions of a branch that overlap are nested, siblings are decided together, queue positions never collide |
| `PartitionRuns.SeedGrowsAtMost` | apps/api/src/creator-database/marketplace-partitions.ts:92-98 | in every reachable table a seed has grown at most max(1, 2 floor(W / m) - 1) partitions |
| `PartitionRuns.DepthAtMostFour` | apps/api/src/creator-database/marketplace-partitions.ts:51-53 | in every reachable table with the default widths no partition is more than four splits below its seed |
| `PartitionRuns.ExpandingTwiceIsOnce` | apps/api/src/creator-database/creator-sync.processor.ts:140-187 | in any order, a second pass without a change of status does nothing |
| `PartitionRuns.PositionsDiffer` | apps/api/src/creator-database/creator-sync.processor.ts:106-114 | 100 times the parent plus 1 or 2, from seeds at multiples of a million, is injective over the whole tree |
| `Scheduler.SharesOfAHundred` | apps/api/src/creator-database/creator-scheduler.ts:75-86 | any hundred claims in a row split 40/50/9/1 in coverage and 60/30/9/1 in balanced mode |
| `Scheduler.SelectsWhateverThereIs` | apps/api/src/creator-database/creator-scheduler.ts:236-256 | a slot selects nothing exactly when only Very High work is offered and the slot is no probe |
| `SchedulerClaim.ClaimNext` | apps/api/src/creator-database/creator-sync.processor.ts:287-400 | computed from the rows, a claim finds nothing exactly when nothing may start in its slot; in the exploration slot it takes the seed the category order puts first, in every other nothing that competes would have gone before its choice, and in a productive slot it is the best productive Low or Medium work there is |
| `SchedulerOrder.SelectsFirst` | apps/api/src/creator-database/creator-scheduler.ts:235-257 | by bucket, class, score and place, what a slot selects goes before everything it could have selected |
| `SchedulerOrder.ProductiveTakesHigh` | apps/api/src/creator-database/creator-scheduler.ts:254-256 | a productive slot takes productive Low or Medium work whenever there is any, the best of it |
| `SchedulerClaim.ClaimWork` | apps/api/src/creator-database/creator-sync.processor.ts:318-400 | over generated rows a claim finds nothing exactly when no Low, Medium or High work is queued, and no probe in its slot, although a pair's second seed waits for the first |
| `CategoryCoverage.First` | apps/api/src/creator-database/creator-scheduler.ts:106-118 | the chosen seed is the least by the two-level fairness order, dates never set first, and there is one whenever a seed is offered |
| `CategoryCoverage.ChoosesFairest` | apps/api/src/creator-database/creator-scheduler.ts:106-118 | an untouched category while one is offered, and fairer, date by date and place by place, than all others like it |
| `CategoryCoverage.ChoosesLeastCovered` | apps/api/src/creator-database/creator-sync.processor.ts:341-354 | while a category is untouched the exploration slot takes an untouched one under a parent with the fewest sampled children |
| `CategoryCoverage.CoverageIsEven` | apps/api/src/creator-database/creator-scheduler.ts:105-118 | over any exploration rounds that offer a seed of every untouched category, n rounds touch n categories and parents with untouched children stay within one sampled child of each other |
| `CoverageRounds.ExploreAll` | apps/api/src/creator-database/creator-sync.processor.ts:341-435 | the same over claims computed from the rows, all seeds queued and each category with a well-formed one: every untouched category keeps a seed that may start |
| `GovernorTables.Tables.Acquire` | apps/worker/src/outbound-throttle.ts:74-142 | a permit is granted if and only if there is no quota block, no cooldown, the send interval is over, and fewer unexpired permits are out than the clamped concurrency; a refusal takes only what has expired |
| `GovernorAdmission.AcquireGrantsExactly` | apps/worker/src/outbound-throttle.ts:97-142 | the same for every limiter, clock and configuration |
| `GovernorAdmission.AcquireKeepsTheRest` | apps/worker/src/outbound-throttle.ts:74-107 | what a request leaves as it was, granted or not |
| `GovernorAdmission.CooldownHolds` | apps/worker/src/outbound-throttle.ts:100-107 | while nothing ends a cooldown no request before its end is granted, however many are made and settled |
| `GovernorAdmission.ThrottleHolds` | apps/worker/src/outbound-throttle.ts:177-198 | after a throttle nothing is granted before the provider's retry time, a day at most, nor before the doubled delay |
| `GovernorAdmission.TransientHolds` | apps/worker/src/outbound-throttle.ts:200-218 | the same after a transient failure, half a minute at most |
| `GovernorAdmission.SettlingNeverShortens` | apps/worker/src/outbound-throttle.ts:177-218 | neither settlement cuts a running cooldown short |
| `GovernorAdmission.EachThrottleDoubles` | apps/worker/src/outbound-throttle.ts:17-29 | after n throttles without a success the next holds 2^n seconds, a minute at most |
| `GovernorAdmission.EachFailureDoubles` | apps/worker/src/outbound-throttle.ts:17-29 | the same of n transient failures, half a minute at most |
| `GovernorAdmission.SuccessForgets` | apps/worker/src/outbound-throttle.ts:153-175 | after one success the next throttle or failure holds for a second and a half at most, whatever came before |
| `GovernorAdmission.ResumeStartsOver` | apps/api/src/outreach/outreach.service.ts:678-683 | after a resume one permit at a time is admitted, as if nothing had failed |
| `GovernorAdmission.ResumeNeedsBlock` | apps/api/src/outreach/outreach.service.ts:678-683 | a resume without a quota block changes nothing |
| `GovernorTables.Tables.SettleHealthy` | apps/worker/src/outbound-throttle.ts:153-175 | a healthy answer frees its permit alone, costs no concurrency and gains at most one level, and ends every cooldown, throttle and block |
| `GovernorTables.Tables.SettleThrottle` | apps/worker/src/outbound-throttle.ts:177-198 | a throttle frees its permit alone, halves concurrency down to one, honours the provider's retry time and never shortens a cooldown |
| `GovernorTables.Tables.SettleTransient` | apps/worker/src/outbound-throttle.ts:200-218 | a transient failure frees its permit alone, never shortens a cooldown and keeps concurrency |
| `GovernorTables.Tables.SettleQuota` | apps/worker/src/outbound-throttle.ts:220-233 | a quota answer frees its permit alone, and while it stands no request is granted whatever the clock says |
| `Governor.RunKeepsLimits` | apps/worker/src/outbound-throttle.ts:74-142 | over any run concurrency stays within 1 and the technical maximum, stored permits below it, and sends stay spaced |
| `Governor.WindowHoldsFewSends` | apps/worker/src/outbound-throttle.ts:111-121 | whatever the clocks say, any closed window of W ms holds at most floor(W / 1000) + 1 granted sends |
| `Governor.SettlementsRegain` | apps/worker/src/outbound-throttle.ts:177-198 | after a throttle of the limiter healthy settlements regain the lost concurrency exactly when they are as many as the sum of the levels in between |
| `Governor.RegainFrom1` | apps/worker/src/outbound-throttle.ts:35-46 | from 1 it takes exactly M (M - 1) / 2 healthy settlements to reach M |
| `Governor.SettlementsRamp` | apps/worker/src/outbound-throttle.ts:153-175 | healthy settlements one after another move the limiter as the ramp says |
| `Governor.BackoffGrows` | apps/worker/src/outbound-throttle.ts:17-29 | one failure more never shortens the delay, whatever the two random draws |
| `Governor.QuotaBlockIsSticky` | apps/worker/src/outbound-throttle.ts:97-99 | on the send limiter nothing is granted after a quota block until an operator resumes, if permits are settled once and in time |
| `Governor.QuotaBlockHoldsExactly` | apps/worker/src/outbound-throttle.ts:153-233 | for every configuration and reachable limiter: nothing is granted in any such continuation of a quota block if and only if no other permit is out |
| `CharacterizerState.State.Apply` | diagnostics/tiktok_marketplace_throttle_test.py:1169-1293 | the dictionary is rewritten key by key through exactly the stated sequence of states, which ends at the outcome's phase, tiers and result |
| `CharacterizerLaws.ThreeContinuationsPass` | diagnostics/tiktok_marketplace_throttle_test.py:1203-1227 | three successes pass a tier of the continuation ladder, and the fresh ladder begins after the last |
| `CharacterizerLaws.ThreeSearchesPass` | diagnostics/tiktok_marketplace_throttle_test.py:1265-1285 | the same of the fresh ladder, whose last tier concludes the experiment |
| `CharacterizerLaws.ThrottleThenRecovery` | diagnostics/tiktok_marketplace_throttle_test.py:1178-1273 | what comes after a recovered throttle depends on what was throttled |
| `CharacterizerLaws.ErrorsGiveUp` | diagnostics/tiktok_marketplace_throttle_test.py:1237-1289 | an unknown error ends the experiment as incomplete; an expired session does, but for a continuation |
| `CharacterizerLaws.SessionsAreRenewed` | diagnostics/tiktok_marketplace_throttle_test.py:1223-1256 | a new session is used exactly if it can be paged further, and a session at its end asks for a new one |
| `CharacterizerPages.NoPageBeyondTwenty` | diagnostics/tiktok_marketplace_throttle_test.py:1066-1080 | over any run no request asks for a page beyond the twentieth |
| `CharacterizerPages.UncertainIsNotRepeated` | diagnostics/tiktok_marketplace_throttle_test.py:1301-1307 | after an interrupt inside a request nothing is sent or logged any more |
| `CharacterizerPages.InterruptedIsUncertain` | diagnostics/tiktok_marketplace_throttle_test.py:1314-1322 | every interrupt inside a request leads there |
| `CharacterizerPages.UncertainIsClosed` | diagnostics/tiktok_marketplace_throttle_test.py:1301-1307 | the next invocation closes such an experiment as incomplete, unless its tier is gone |
| `CharacterizerRuns.OneRequestPerNumber` | diagnostics/tiktok_marketplace_throttle_test.py:1295-1331 | over any invocations and keyboard interrupts no request number goes out twice, unless a kill falls between request and log |
| `CharacterizerRuns.KillInFlightRepeats` | diagnostics/tiktok_marketplace_throttle_test.py:1314-1322 | in every reachable state such a kill makes the next invocation repeat the number |
| `CharacterizerRuns.ConclusionsAreBacked` | diagnostics/tiktok_marketplace_throttle_test.py:1169-1293 | over any invocations, interrupts and kills the fastest passed interval is the one before the first failed or that very one, and CONCLUSIVE means both ladders ended in a recorded failure or ran out |
| `CharacterizerLadders.FastestIsBeforeFailed` | diagnostics/tiktok_marketplace_throttle_test.py:1203-1217 | over any invocations, interrupts and kills, on both ladders: it is the one before if and only if no interrupt fell between the record of that very tier and the move to the next |
| `CharacterizerRuns.TierInRangeExactly` | diagnostics/tiktok_marketplace_throttle_test.py:1212-1219 | over any invocations, interrupts and kills the tier under test exists if and only if no interrupt fell between the two writes of a last-tier pass |
| `CharacterizerRuns.TornPassIsStuck` | diagnostics/tiktok_marketplace_throttle_test.py:1333-1349 | after such an interrupt nothing is ever sent or changed again |
| `CharacterizerRuns.LateInterruptIsStuck` | diagnostics/tiktok_marketplace_throttle_test.py:1203-1219 | the same after any interrupt that finds the last tier passed and the action pending, whatever the phase says |
| `CharacterizerRows.RowsTakenExactly` | diagnostics/tiktok_marketplace_throttle_test.py:1295-1366 | over any invocations, interrupts and kills rows are taken into the saved state in order, each exactly once more than its applications were cut short, the pending action's only as often as that |
| `CharacterizerRows.TornThenWhole` | diagnostics/tiktok_marketplace_throttle_test.py:1169-1293 | an application cut short anywhere and then made whole comes to what one would have, if and only if it does not count a success again |
| `CharacterizerTears.TierIsLost` | diagnostics/tiktok_marketplace_throttle_test.py:1212-1219 | a run from a new experiment to a continuation tier that does not exist |
| `CharacterizerTears.RowCountsTwice` | diagnostics/tiktok_marketplace_throttle_test.py:1212-1213 | a run in which one request counts as two successes |
| `CharacterizerTears.FailedIsFastest` | diagnostics/tiktok_marketplace_throttle_test.py:1212-1217 | a run in which the interval that failed first is reported as the fastest that passed |
| `Preview.BuildPreview` | packages/domain/src/index.ts:201-278 | a creator is eligible exactly if it is the first occurrence of its ID and passes every rule, the selected are the best by metric and ID, every count is of its own reason, and the account adds up |
| `PreviewRules.RulesExactly` | packages/domain/src/index.ts:201-278 | the first rule that speaks against a creator is the one written down, bound by bound and rule by rule |
| `PreviewRules.OrderExactly` | packages/domain/src/index.ts:201-278 | of two eligible creators the one with more of the metric goes first, or with less if so asked, then the smaller ID |
| `Preview.OrderDecidesNothing` | packages/domain/src/index.ts:245-253 | without duplicate IDs the order of the input does not change who is picked |
| `Preview.SelectedIdsDiffer` | packages/domain/src/index.ts:220-232 | selected creators have distinct IDs |
| `FreezeAccount.FreezeSummary` | apps/api/src/outreach/outreach.service.ts:460-508 | the account adds up after a freeze if and only if no selected recipient's contact row shows a contact by the application within the cooldown, without do-not-contact or unresolved delivery; each count grows by the recipients dropped for its reason |
| `FreezeAccount.CountExclusions` | apps/api/src/outreach/outreach.service.ts:460-494 | the loop counts exactly the recipients dropped for each reason, and those kept are the freeze's winners |
| `FreezeAccount.FirstReasonCounts` | apps/api/src/outreach/outreach.service.ts:460-473 | of several reasons the first counts, in this order |
| `FreezeAccount.OneIsLost` | apps/api/src/outreach/outreach.service.ts:503-506 | one selected creator messaged by another campaign meanwhile disappears from the account |
| `Reconciliation.Reconcile` | packages/domain/src/index.ts:297-316 | matched exactly when one and only one message is ours: outbound, the text, the conversation, the time window, and not another delivery's |
| `ContactLedger.ImportMessages` | apps/api/src/history/history.service.ts:109-131 | the import loop is the fold over messages |
| `ContactLedger.Rebuild` | apps/api/src/history/contact-state.ts:25-60 | the rebuild takes least and greatest positive date, the number of messages and the coverage start |
| `ContactLedger.RebuildAgrees` | apps/api/src/history/contact-state.ts:25-60 | for any order and repetition of imports the rebuild agrees on count, coverage and reply, and on first and last contact exactly under the stated dates |
| `ContactLedger.OrderDoesNotMatter` | apps/api/src/history/history.service.ts:109-131 | order and repetition of imports do not change the row |
| `TokenRefresh.Connection.ClaimRefresh` | apps/api/src/integrations/tiktok.service.ts:451-456 | the claim refuses only a refresh in progress or a changed version |
| `TokenRefresh.Connection.PersistTokens` | apps/api/src/integrations/tiktok.service.ts:496-510 | new tokens are stored only by the lease holder at its own version, which then rises by one |
| `TokenRefresh.Connection.MarkRefreshUncertain` | apps/api/src/integrations/tiktok.service.ts:369-388 | tokens are erased only for the lease and version the marker saw |
| `TokenRefresh.Connection.MarkRefreshFailed` | apps/api/src/integrations/tiktok.service.ts:473-481 | a definite failure keeps the tokens |
| `TokenRefresh.VersionMeansTokens` | apps/api/src/integrations/tiktok.service.ts:277-290 | over any run versions never fall and a version has one token pair |
| `TokenRefresh.OldVersionIsPowerless` | apps/api/src/integrations/tiktok.service.ts:452-456 | a refresher or marker with an older version changes nothing |
| `TokenRefresh.OnlyTheHolderSettles` | apps/api/src/integrations/tiktok.service.ts:496-513 | whoever settles holds the lease at the row's own version |
| `TokenRefresh.OnePersistPerVersion` | apps/api/src/integrations/tiktok.service.ts:496-513 | after one refresher persisted at a version no other of that version does |
| `TokenProgress.RefreshComesTo` | apps/api/src/integrations/tiktok.service.ts:426-513 | undisturbed, rotated tokens are stored under the next version, a refusal keeps the old ones, and an ambiguous answer leaves none |
| `TokenProgress.ExpiredIsUncertain` | apps/api/src/integrations/tiktok.service.ts:416-425 | no refresh starts within two minutes of another's claim; then the next finds it uncertain |
| `TokenProgress.ClaimLasts` | apps/api/src/integrations/tiktok.service.ts:450-455 | a granted claim is a lease of two minutes and touches no token |
| `TokenProgress.NothingToRefreshWith` | apps/api/src/integrations/tiktok.service.ts:427-447 | without tokens, or with ones that ran out, a refresh fails and asks nobody |
| `TokenProgress.OperatorIsNeeded` | apps/api/src/integrations/tiktok.service.ts:416-426 | after a failure nothing starts by itself, after a doubt nothing at all, until a new authorization |
| `TokenRefresh.UncertainIsLeftExactly` | apps/api/src/integrations/tiktok.service.ts:452-455 | an uncertain outcome is left exactly by reauthorization or by a claim that read the row before |
| `TokenRefresh.StaleClaimLeavesUncertain` | apps/api/src/integrations/tiktok.service.ts:412-456 | a run from the start in which the second of two refreshers takes the connection out of OUTCOME_UNCERTAIN |
| `CanonicalJsonProofs.CanonicalMeansSame` | apps/api/src/integrations/oauth-handoff.ts:11-16 | two values have the same canonical text exactly when they are equal up to the order of object keys |
| `CanonicalJsonProofs.EscapeDecodes` | apps/api/src/integrations/oauth-handoff.ts:12 | an escaped string can be read back, and ends at the first unescaped quote |
| `CanonicalReader.ReadsBack` | apps/api/src/integrations/oauth-handoff.ts:12 | by the rules of JSON strings any reader gets back the very text |
| `CanonicalReader.ShortestForm` | apps/api/src/integrations/oauth-handoff.ts:12 | a unit stands for itself unless JSON or well-formed Unicode forbids it |
| `CanonicalReader.MembersAscend` | apps/api/src/integrations/oauth-handoff.ts:13-16 | the members of an object stand in ascending order of their keys |
| `CanonicalReader.Punctuation` | apps/api/src/integrations/oauth-handoff.ts:11-16 | brackets, commas, colons and names are those of JSON |
| `CanonicalJsonProofs.SignedTextIsExact` | apps/api/src/integrations/oauth-handoff.ts:17-20 | equal signed texts have equal path, timestamp, nonce and body digest |

## Left out

- OutboundCooldown.CooldownIsKept: for runs without the two bad ends of a reconciliation, each of which breaks it (`OutboundLapses.EachConditionIsNeeded`); a match is taken to be of the delivery's own message, which an import dates by its acceptance, and workers and provider share one clock, after the epoch.
- OutboundCooldown.StepKeepsSafe: for benign steps; `OutboundReconciliation.StepIsSafeExactly` is the exact statement.
- Of a rebuild's record only the latest date is computed in the interleaved system; the rest is any (`ContactLedger.Rebuild` computes it).
- CrawlerClaims.OnePagePending: for runs without an abandoning claim; Very High partitions and historical ones without a GMV bucket, which have statuses of their own, are not modelled.
- HistoryProgress.NewImportFinishes: for one worker at a time that nobody disturbs.
- HistoryRuns.BackfillIsComplete: for a chain of pages that does not change during the run; new conversations at the head are the business of HEAD and incremental passes.
- CharacterizerRuns.OneRequestPerNumber: for runs without a kill between request and log row, where `KillInFlightRepeats` shows it fails.
- The experiment's request counters, due times and events, which an interrupt can also leave half written.
- SchedulerClaim.ClaimNext: a row's class and score are given; decay, soft weights and the hash that designates a pair's first bucket are left out.
- CoverageRounds.ExploreAll: for exploration claims whose first page arrives before the next claim, in slots that explore in either mode, and a catalog that does not change.
- HistoryProgress.CanFinishExactly: for runs that meet no further error; a later answer of the provider that refuses the cursor starts the chain anew.
- CategoryCoverage.CoverageIsEven: takes the offer of every untouched category as given; `CoverageRounds.ExploreAll` proves it.
- ContactLedger.RebuildAgrees: for a creator with provider messages only, each reading the same every time it is imported.
- PartitionEvidence.SeedSplitsExactly: COMPLETE and the older SPLIT, which no code writes any more, are one status.
- PartitionRuns.PartitionsFormATree: yields are exact fractions; the rounding of the stored decimals is left out.
- Preview.BuildPreview: text folding, trimming and currency case are done before, IDs are compared by a total order, and amounts are real numbers.
- Isolation below one transaction: transactions and single conditional updates are atomic.
- Rediscovery of a campaign is one atomic step on a campaign that was never queued; the source reads the campaign state before its rebuild transaction.
- Identities: a recipient is a pair of campaign and creator; merging of creator identities, CSV import and OAuth browser binding are not modelled.
- Columns nothing decides on: frozen message and hash, audit and activity events, usage counters, outbox rows, error texts, heartbeats.
- Campaign completion, pause and resume are arbitrary changes between the states of a campaign that was queued.
- The INVALID_MESSAGING_ID branch of a send: a freeze always stores the creator's Open ID.
- Spacing, back-off and poll times of the history worker and the crawler: a claim may come at any time.
- Retry times, attempt counters and stage names of the crawler; the Sheets write is a repeatable external step, and a pause is a request flag.
- Very High partitions after a strategy change and historical partitions without a GMV bucket.
- HTTP, signing keys, encryption, time zones, message rendering, web and desktop interfaces.
