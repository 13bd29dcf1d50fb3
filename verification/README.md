# ScopeGuard: verified models of the hard core

This project models, in Dafny, the parts of ScopeGuard whose guarantees span several functions and
proves those guarantees for every input, every reachable state or every run.

- **Change-order agreements** (`ChangeOrders`, `AgreementRules`, `AgreementSteps`, `AgreementRuns`,
  `AgreementTheorems`, `AgreementStamps`, `AgreementReplay`, `AgreementOutcomes`, `AgreementReceipts`,
  `AgreementRevisions`, `AgreementDelivery`, `AgreementSweep`, `AgreementSends`, `AgreementWitness`, `AgreementService`): orders, revisions, approvals,
  links, sessions, scope versions, payment requests and revenue facts, and the commands that update them
  together. Each command is a function of the tables; `AgreementService` holds the imperative commands,
  proved equal to those functions; the outcomes say, command by command, exactly when it goes through and what it
  leaves in every table; the theorems are about all runs of all commands.
- **Provider actions** (`Actions`): the transition table, numbered attempts, and the direct state writes
  other services make outside the table.
- **Durable execution** (`Jobs`, `Outbox`, `Recovery`, `Capacity`): leased jobs with fencing generations, the
  outbox with a crash possible at every commit point, recovery, and the slot allocator over time.
- **Payments** (`Payments`, `PaymentRules`, `PaymentSteps`, `PaymentRuns`, `PaymentOutcomes`, `PaymentLinkOutcomes`,
  `PaymentActions`, `PaymentWitness`, `PaymentService`): everything that drives one payment status. `Collection` runs it together with the agreement.
- **Budgets** (`Budget`, `LiveBudget`, `Sums`): running totals against their rows, and the reserve and settle
  pair of one live analysis.
- **Exact numbers and text** (`Decimals`, `Money`, `Terms`, `Text`, `Chunks`, `Structure`).

Conventions. One committed transaction is one step. A refused command leaves the tables as they were; where a
worker commits after an exception (services/workers/lambda_handler.py:88-95) a step carries a flag that keeps
what the failing call had written. Rows are keyed by ids from one increasing counter, or by their unique
columns. A digest is identified with what it hashes. Clocks, tokens, provider answers, mail addresses and rows
that an unordered query picks are parameters. A service object holds its tables in one field, because the
source's session is one unit of work over all of them.

Where the code and its expected behaviour part, the model follows the code:

- Prices are exact up to 19 fractional digits of hours and not beyond (`Money.ExactIffNineteenDigits`); effort
  ranges up to 25 (`Money.EffortIffTwentyFiveDigits`).
- A replayed orphan observation can pay a request on a charge recorded as not captured
  (`PaymentRuns.ReplayPaysUncaptured`, with the run `PaymentWitness.ReplayPaysUncapturedRun`); a direct
  observation cannot.
- A charge recorded before its capture blocks every later direct payment on it
  (`PaymentRuns.UncapturedNeverPaysDirectly`), so the order of two events decides
  (`PaymentWitness.OrderOfEventsMatters`).
- `mark_action_retry` would also skip an acknowledgement when called outside a dispatch
  (`Actions.MarkRetrySkipsAcknowledgementIff`, with the run `Actions.UndisciplinedResend`).
- After a payment link call without a proper answer, an acknowledged retry leads to no other provider call: the
  request is under review by then, and stays so until it is paid (`PaymentActions.ReviewBlocksDispatch`).
- After an edit and a second approval the first revision's email can still leave
  (`AgreementTheorems.DispatchedEmailIsCurrentIff`, `AgreementWitness.AnOutdatedEmailCanLeave`).
- A job past its deadline keeps running while it is renewed (`Jobs.PastDeadline`, `Jobs.UnrenewedJobFails`).
- A model's cost is exact up to 28 digits and not beyond (`LiveBudget.ExactIffTwentyEightDigits`).
- A settlement can be stopped by a price that went stale after the reservation
  (`LiveBudget.SettlementIsNeverExceeded`, `LiveBudget.AGrantedBudgetCanGoStale`).
- An edited revision loses its attachments (`AgreementRevisions.EditIff`,
  `AgreementTheorems.EmptyEditKeepsContentIff`).

To check the project, run `dafny verify dfyconfig.toml` in this directory.

## Model

| member | source | states |
|---|---|---|
| `AgreementRuns.ExactlyOnce` | `services/change_orders/service.py:693-883` | In every run an order is approved exactly when it has one client approval, one payment request, one revenue fact and one amendment, all for its current revision with that revision's total and tax; otherwise it has none of the four |
| `AgreementTheorems.EqualSums` | `services/change_orders/service.py:849-869` | Per project the revenue facts, the payment totals and the approved revisions' totals always have equal sums |
| `AgreementReplay.LedgerIsAppendOnly` | `services/change_orders/service.py:693-883` | In every run approvals, payment requests, revenue facts, amendments and scope versions are only added: no row of them ever changes or disappears |
| `AgreementReplay.RepeatedAcceptance` | `services/change_orders/service.py:728-745` | However much later an acceptance is repeated on a review link of the same revision, it is answered again exactly when the key is the first one's, and the call changes nothing but receipt links, sessions and the id counter |
| `AgreementReplay.ReplayAnswer` | `services/change_orders/service.py:728-745` | On an approved order a review link's accept call succeeds if and only if it carries the recorded key |
| `AgreementTheorems.LinearHistory` | `services/change_orders/service.py:796-833` | Under any interleaving of acceptances and confirmations a project's scope versions are numbered 1..n, version k's parent is k-1, and the current one is n |
| `AgreementTheorems.AcceptedKeepsItems` | `services/change_orders/service.py:821-832` | A version created by an acceptance always has exactly its parent's items |
| `AgreementTheorems.BaselineAcceptedOnce` | `services/change_orders/service.py:763-848` | Two accepted revisions of any orders never share a baseline version |
| `AgreementTheorems.NoOldLinkWorks` | `services/change_orders/service.py:252-312` | Every unrevoked link points at its order's current revision, an order has at most one unrevoked review link, and closed orders have no unrevoked link at all |
| `AgreementTheorems.SameContent` | `services/change_orders/service.py:471-563` | An offered or approved order has the freelancer's approval of its current revision with that revision's hash; an approved one also the client's, with the same hash; the hash is the digest of what is shown |
| `AgreementTheorems.OnlyApprovedContentIsSent` | `services/change_orders/service.py:545-563` | In every run every email goes to the recipient, with the subject, texts and attachments, of a revision its freelancer approved, under the approved hash |
| `AgreementStamps.EqualVersionsEqualRows` | `services/change_orders/service.py:297-299` | Two states of one run with equal row version have the same order row: same status, same current revision |
| `AgreementStamps.CommandsActOnWhatWasRead` | `services/change_orders/service.py:466-470` | A freelancer approval or client decision that passes the row version its caller read acts on exactly that row |
| `AgreementStamps.AcceptanceActsOnWhatWasRead` | `services/change_orders/service.py:746-747` | An acceptance either acts on exactly the row its caller read or repeats an earlier one |
| `AgreementStamps.FinalForever` | `services/change_orders/service.py:407-408` | An approved or withdrawn order's row never changes again |
| `AgreementStamps.NoSendAfterFinal` | `services/change_orders/service.py:978-980` | No provider call for an order's email begins once the order is approved or withdrawn |
| `AgreementTheorems.LinkOpensForAWeek` | `services/change_orders/service.py:538-541` | The link of an approved offer can be exchanged for a session for exactly seven days |
| `AgreementSweep.SweepExpiresIff` | `services/change_orders/service.py:1391-1466` | Over the whole sweep, with the rows of each pass read in any order, an offer that was out is expired exactly if its live review link had run out or its latest email had not left a day after the latest approval; that revokes its links and cancels its email, and every other order, with its links and emails, is as it was |
| `AgreementTheorems.DispatchedEmailIsCurrentIff` | `services/change_orders/service.py:973-981` | An email that starts to leave says what the order's current revision says exactly if it was prepared for it |
| `AgreementWitness.AnOutdatedEmailCanLeave` | `services/change_orders/service.py:961-981` | A run of approval, edit and second approval after which the first revision's email can still leave |
| `AgreementSends.EmailAttempts` | `services/change_orders/service.py:961-1061` | In every agreement run an email's attempts are numbered 1..n with n at most three, only the last can have succeeded, and one recorded as uncertain is followed by another only after an operator's acknowledgement in that run |
| `Collection.CollectedIsAgreed` | `services/change_orders/service.py:849-869` | With acceptances and payment commands interleaved in any way, every payment request belongs to an order's approved current revision and asks, like each of its links, for exactly that revision's total |
| `Collection.PaidIsAgreed` | `services/payments/service.py:140-176` | A request is paid only by a step right after which its evidence is in place and its revision is approved by both sides |
| `AgreementTheorems.EmptyEditKeepsContentIff` | `services/change_orders/service.py:419-432` | An edit naming no field keeps the content exactly when there were no attachments: they are not carried over |
| `AgreementTheorems.AcceptanceGoesThroughIff` | `services/change_orders/service.py:705-771` | The exact condition under which an acceptance on an unspent link goes through |
| `AgreementTheorems.CurrentIsNewest` | `services/change_orders/service.py:252-263` | In every run an order's revisions have distinct numbers and the current one the highest |
| `AgreementTheorems.RevisionsCountUp` | `services/change_orders/service.py:258-263` | A new revision of an order counts one past the one it replaces |
| `AgreementWitness.AnOfferCanBeAccepted` | `services/change_orders/service.py:693-883` | A run of confirmation, proposal, approval, sending, opening and acceptance that ends in an approved order |
| `AgreementReceipts.AcceptanceIff` | `services/change_orders/service.py:693-883` | An accept call goes through exactly as a first acceptance of the offer the caller read, or as a repetition with the recorded key on the spent link. A first one writes one approval, the spent link, the email's receipt, the resolved request, the child version with the baseline's items, one amendment, one payment request and one fact with the revision's amounts, one receipt link for thirty days and one session on it for a day |
| `AgreementReceipts.ReceiptOpensForADay` | `services/change_orders/service.py:886-949` | The session an acceptance or its repetition returns reads the receipt of exactly the accepted revision, for exactly a day |
| `AgreementReceipts.ExchangeIff` | `services/change_orders/service.py:603-661` | A token is exchanged exactly while its review link is active: for a session on the link itself until it is spent, then on the newest receipt while that lasts |
| `AgreementReceipts.RefreshIff` | `services/change_orders/service.py:1374-1388` | Exactly a live session is exchanged for a new one on the same link for a day, and is revoked |
| `AgreementOutcomes.ClientDecisionIff` | `services/change_orders/service.py:1285-1371` | A client decision goes through exactly on a live, unspent review session for the offer as the caller read it; a request for changes leaves the order to be revised and its request under proposal, a rejection leaves both declined, and either revokes every link of the order |
| `AgreementOutcomes.FreelancerDecisionIff` | `services/change_orders/service.py:1173-1229` | A freelancer decision goes through exactly on an order that awaits it; a rejection declines the request, a waiver withdraws the order and waives the request, and every link is revoked |
| `AgreementOutcomes.WithdrawalIff` | `services/change_orders/service.py:1232-1282` | A withdrawal goes through exactly while the order is under way and its latest email is not out with an open outcome; it cancels that email, declines the request and revokes every link |
| `AgreementOutcomes.ApprovalIff` | `services/change_orders/service.py:439-577` | An approval goes through exactly for the current revision as the caller read it against the request and scope it was written for; it opens the link for seven days and queues one email with the revision's own recipient, subject, texts, attachments and hash |
| `AgreementRevisions.EditIff` | `services/change_orders/service.py:393-436` | An edit goes through exactly on an order neither approved nor withdrawn if it empties no required field; each field is then what the edit says or what it was, recipient, evidence and terms stay, attachments go, the old revision is superseded and its links are revoked and spent |
| `AgreementRevisions.ProposalIff` | `services/change_orders/service.py:315-390` | A reviewed draft becomes an offer exactly if it is complete and its request, scope and contact are in place: as the next revision of the order still open for the request, or as the first one of a new order |
| `AgreementRevisions.ConfirmationIff` | `services/contracts/service.py:326-377` | Candidates are confirmed exactly if there are some, all of the project and none rejected; the next version then holds exactly one item for each, in its own words, and no other version's items change |
| `AgreementDelivery.BeginSendIff` | `services/change_orders/service.py:961-981` | An email starts to leave exactly while its order is pending, it waits, and one of three attempts is left; that is its next attempt |
| `AgreementDelivery.DeliveryIff` | `services/change_orders/service.py:984-1061` | A delivery is recorded exactly for the approved content while its outcome is open or the client has confirmed it; it succeeds with its latest attempt and moves a pending order on to the client |
| `AgreementSteps.AssembleKeepsInv` | `services/change_orders/service.py:315-390` | Assembling a proposal keeps every rule that links the tables |
| `AgreementSteps.CreateRevisionKeepsInv` | `services/change_orders/service.py:393-436` | So does editing an order, also an expired or rejected one |
| `AgreementSteps.ApproveKeepsInv` | `services/change_orders/service.py:439-577` | So does the freelancer's approval |
| `AgreementSteps.FreelancerDecideKeepsInv` | `services/change_orders/service.py:1173-1229` | So does the freelancer's rejection or waiver |
| `AgreementSteps.WithdrawKeepsInv` | `services/change_orders/service.py:1232-1282` | So does a withdrawal |
| `AgreementSteps.ExchangeKeepsInv` | `services/change_orders/service.py:603-661` | So does exchanging a token for a session |
| `AgreementSteps.RefreshKeepsInv` | `services/change_orders/service.py:1374-1388` | So does refreshing a session |
| `AgreementSteps.ClientDecideKeepsInv` | `services/change_orders/service.py:1285-1371` | So does the client's rejection or request for changes |
| `AgreementSteps.AcceptAnswer` | `services/change_orders/service.py:693-883` | The exact answer of an accept call: refused without any change and never by a unique key, or a repetition on an approved order, or a fresh agreement on exactly the offered current revision at the expected row version; the branch for a stray payment request is never taken |
| `AgreementSteps.AcceptKeepsInv` | `services/change_orders/service.py:693-883` | Acceptance keeps every rule |
| `AgreementSteps.NoDealYet` | `services/change_orders/service.py:765-771` | A link that may still be accepted belongs to a revision with no client approval, payment, fact or amendment |
| `AgreementSteps.NextIsFresh` | `services/change_orders/service.py:799-807` | The next version number is one past the baseline's and is not taken |
| `AgreementSteps.ExpireOfferKeepsInv` | `services/change_orders/service.py:1395-1425` | Expiring an offer and revoking the single link it found keeps every rule: that link was the only live one |
| `AgreementSteps.ExpireUnsentKeepsInv` | `services/change_orders/service.py:1426-1465` | Expiring an unsent offer keeps every rule |
| `AgreementSteps.SweepKeepsInv` | `services/change_orders/service.py:1391-1466` | The whole sweep does, whatever rows it reads in whatever order |
| `AgreementSteps.BeginSendKeepsInv` | `services/change_orders/service.py:961-981` | Starting a send keeps every rule, also when its failure is committed |
| `AgreementSteps.RecordSentKeepsInv` | `services/change_orders/service.py:984-1061` | Recording a delivered email keeps every rule |
| `AgreementSteps.ConfirmScopeKeepsInv` | `services/contracts/service.py:326-377` | Confirming scope candidates keeps every rule |
| `AgreementRuns.ReachableInv` | `services/change_orders/service.py:230-312` | Every state of every run of all the commands satisfies all the rules |
| `AgreementService.Service.RevokeCapabilities` | `services/change_orders/service.py:1151-1154` | The loop revokes exactly the order's unrevoked links |
| `AgreementService.Service.AddRevision` | `services/change_orders/service.py:230-312` | The in-place revision code computes the specified new tables, or refuses and changes nothing |
| `AgreementService.Service.AssembleOrder` | `services/change_orders/service.py:315-390` | The in-place assembly computes the specified command, rolling back on late failures |
| `AgreementService.Service.ReviseOrder` | `services/change_orders/service.py:393-436` | The in-place edit computes the specified command |
| `AgreementService.Service.Approve` | `services/change_orders/service.py:439-577` | The in-place freelancer approval computes the specified command |
| `AgreementService.Service.DecideAsFreelancer` | `services/change_orders/service.py:1173-1229` | The in-place rejection or waiver computes the specified command |
| `AgreementService.Service.WithdrawOrder` | `services/change_orders/service.py:1232-1282` | The in-place withdrawal computes the specified command |
| `AgreementService.Service.ExchangeToken` | `services/change_orders/service.py:603-661` | The in-place exchange computes the specified command |
| `AgreementService.Service.RefreshSession` | `services/change_orders/service.py:1374-1388` | The in-place refresh computes the specified command |
| `AgreementService.Service.DecideAsClient` | `services/change_orders/service.py:1285-1371` | The in-place client decision computes the specified command |
| `AgreementService.Service.CopyItems` | `services/change_orders/service.py:821-832` | The loop links exactly the baseline's items to the new version |
| `AgreementService.Service.AcceptOffer` | `services/change_orders/service.py:693-883` | The in-place acceptance computes the specified command, one transaction or nothing |
| `AgreementService.Service.CancelSend` | `services/change_orders/service.py:1157-1170` | Cancels the latest send exactly when it has not left |
| `AgreementService.Service.ExpireStaleOffers` | `services/change_orders/service.py:1391-1466` | The two loops visit exactly the offers that are pending, and those still pending after the first loop, and compute the specified sweep |
| `AgreementService.Service.BeginGmailSend` | `services/change_orders/service.py:961-981` | Computes the specified dispatch, including what a committed failure leaves |
| `AgreementService.Service.RecordGmailSuccess` | `services/change_orders/service.py:984-1061` | Computes the specified delivery record, including the late answer |
| `AgreementService.Service.ConfirmCandidates` | `services/contracts/service.py:326-377` | The loops build one item and one link per chosen candidate and compute the specified confirmation |
| `Actions.AttemptDiscipline` | `services/workers/durable.py:398-547` | In every run attempts are numbered 1..n with n at most three, only the last can be succeeded, and an attempt that follows one recorded as unknown or under review comes after that attempt's own acknowledgement |
| `Actions.SettledNeverDispatchesAgain` | `services/workers/durable.py:62-71` | A succeeded or receipt-confirmed action stays so, and no attempt is added or rewritten again |
| `Actions.NoBlindResend` | `services/workers/durable.py:510-547` | If retries without acknowledgement are only marked while dispatching, no attempt ever follows one that was once marked uncertain without its acknowledgement in between |
| `Actions.MarkRetrySkipsAcknowledgementIff` | `services/workers/durable.py:510-531` | The table lets an unacknowledged retry mark through exactly from dispatching and from the two uncertain states, and only in the latter does it skip an acknowledgement |
| `Actions.UncertainWaitsForAcknowledgement` | `services/workers/durable.py:510-547` | Under that discipline an action once marked uncertain starts no further attempt before that attempt's acknowledgement |
| `Actions.UndisciplinedResend` | `services/workers/durable.py:510-531` | Begun, marked unknown, marked for retry and begun again: a second attempt without an acknowledgement |
| `Actions.CallTable` | `services/workers/durable.py:62-71` | For every call on every row of a run: exactly from which states it goes through, the state it leads to, and which attempt it starts or answers; a refused call changes nothing, but for a start without an attempt left |
| `Actions.LogIsComplete` | `services/workers/durable.py:398-547` | In every run the log has the start of every attempt, every attempt recorded as uncertain, and every acknowledgement |
| `Actions.ExternalAction.BeginDispatch` | `services/workers/durable.py:398-423` | Sets the state, then checks the attempt budget: the exact row after success and after failure |
| `Actions.ExternalAction.Complete` | `services/workers/durable.py:426-455` | The exact row after success and after failure |
| `Actions.ExternalAction.MarkReviewRequired` | `services/workers/durable.py:458-482` | The exact row after a definite rejection |
| `Actions.ExternalAction.MarkUnknown` | `services/workers/durable.py:484-506` | The exact row after an uncertain outcome |
| `Actions.ExternalAction.MarkRetry` | `services/workers/durable.py:510-531` | The exact row after a retry mark |
| `Actions.ExternalAction.Retry` | `services/workers/durable.py:532-547` | Only uncertain actions, and only with the acknowledgement |
| `Actions.ExternalAction.ConfirmReceipt` | `services/workers/durable.py:550-562` | The exact row after a confirmed receipt |
| `Actions.ExternalAction.Cancel` | `services/workers/durable.py:565-571` | The exact row after a cancellation |
| `Actions.ExternalAction.RecordLateSuccess` | `services/change_orders/service.py:1029-1041` | The late provider answer, written outside the transition table |
| `Actions.ExternalAction.RecordClientReceipt` | `services/change_orders/service.py:787-789` | The client's receipt, written outside the transition table |
| `Actions.ExternalAction.RecordLateSesSuccess` | `services/change_orders/service.py:1508-1510` | The late notification answer, which leaves the attempt row as it was |
| `Actions.ExternalAction.RecordAmbiguity` | `services/change_orders/service.py:1576-1580` | Several exact provider messages send the action to review |
| `Jobs.Fencing` | `services/workers/durable.py:82-276` | In every run a job is running exactly while it has an owner and a lease; its generation, its attempts and its claims are the same number, within its budget; each generation is started once, ended at most once, and ended before the next starts |
| `Jobs.OnlyTheLatestHolder` | `services/workers/durable.py:82-88` | Only the worker of the latest claim, under its own generation and before it ended, can renew, complete or fail the job |
| `Jobs.RenewableOrRecoverable` | `services/workers/durable.py:192-194` | At any moment a running job's lease is either renewable by its owner or recoverable, never both |
| `Jobs.Termination` | `services/workers/durable.py:160-276` | A job takes at most two calls per allowed attempt besides renewals, and a waiting job always has an attempt left |
| `Jobs.StepsDescend` | `services/workers/durable.py:160-276` | Every call but a renewal strictly lowers the rank |
| `Jobs.LeaseLength` | `services/workers/durable.py:167-167` | A silent claim is renewable for exactly sixty seconds and recoverable after them |
| `Jobs.CallOutcome` | `services/workers/durable.py:137-276` | For every call on every row: exactly when it applies and the whole row after it, a claim or heartbeat for sixty seconds, the live extension for four minutes, a retry one or two seconds later while attempts and time are left |
| `Jobs.PastDeadline` | `services/workers/durable.py:137-276` | In every run, after a job's deadline its state changes at most to failed for review; until then only its lease changes, and only by renewals |
| `Jobs.UnrenewedJobFails` | `services/workers/durable.py:255-276` | A job still running after its deadline fails at the first recovery after its lease unless it was renewed |
| `Jobs.LateCall` | `services/workers/durable.py:161-276` | After the deadline a renewal changes only the lease and every other call fails the job for review |
| `Jobs.Backoff` | `services/workers/durable.py:238-246` | A failed job is retried exactly while attempts and time are left, one second after the first attempt and two after the second |
| `Jobs.ClaimIsStep` | `services/workers/durable.py:137-176` | What claiming a batch does to the rows is a step of a run |
| `Jobs.RecoveryIsStep` | `services/workers/durable.py:255-276` | What the recovery sweep does to the rows is a step of a run |
| `Jobs.JobQueue.EnqueueJob` | `services/workers/durable.py:91-134` | Adds a queued job that nobody owns and nobody tried, refusing a budget outside one to three |
| `Jobs.JobQueue.ClaimJobs` | `services/workers/durable.py:137-176` | The loop claims exactly the first runnable jobs in claim order; those past their deadline fail and use up a place |
| `Jobs.JobQueue.Call` | `services/workers/durable.py:179-252` | Renewing, completing and failing in place compute the specified row or refuse |
| `Jobs.JobQueue.RecoverExpired` | `services/workers/durable.py:255-276` | The loop frees exactly the jobs whose lease ran out and counts them |
| `Outbox.PublishedMeansReturned` | `services/workers/durable.py:300-322` | An event marked published was published; every further normal return is one whose saving died; returns never exceed attempts |
| `Outbox.NothingIsLost` | `services/workers/durable.py:300-322` | An event never disappears, stays pending until a publication returns and is saved, and is never attempted again after that |
| `Outbox.PublishedByReturn` | `services/workers/durable.py:291-322` | In one pass an event is marked published, at the time of the pass, exactly when it is reached and its publisher returned, and is attempted once exactly when it is reached; without crashes a pass with room reaches all |
| `Outbox.OutboxTable.PublishPending` | `services/workers/durable.py:279-323` | The loop attempts the oldest pending events up to the first crash, and reports a crash exactly when there was one; otherwise it counts as published exactly the events whose publisher returned and as failed the others |
| `Outbox.OutboxTable.DiscoverLostWakeups` | `services/workers/recovery.py:28-71` | The sweep adds exactly one event for each due job with neither a pending nor a recent one, and touches no other |
| `Outbox.SweepSignalsAll` | `services/workers/recovery.py:38-70` | After the sweep every due job has a pending or recent event, so a second sweep at the same time adds none |
| `Outbox.WokenIff` | `services/workers/recovery.py:28-71` | The sweep wakes exactly the waiting jobs whose time has come and whose events were all published and are more than a minute old |
| `Recovery.SweepLeavesNoOrphan` | `services/workers/recovery.py:74-89` | The recovery marks exactly the dispatches untouched for a minute as unknown, with their latest attempt; it cannot fail, leaves none, and changes no other action |
| `Recovery.SweptOrphanWaits` | `services/workers/recovery.py:74-89` | In every run whose dispatchers mark retries only while dispatching, a recovered dispatch is followed by another attempt only after its own acknowledgement |
| `Recovery.ActionTable.RecoverOrphans` | `services/workers/recovery.py:74-89` | The loop marks exactly the stale dispatches and counts them |
| `Capacity.NeverOverbooked` | `services/workers/capacity.py:31-122` | Over every run with a non-decreasing clock, at every moment at most the global limit of slots are active and at most the tenant's limit for each tenant |
| `Capacity.Allocator.ReserveSlot` | `services/workers/capacity.py:31-75` | Renews the key's active slot, is refused exactly at a limit, on a reused key or under an invalid policy, and otherwise grants a full lease |
| `Capacity.Allocator.ReleaseSlot` | `services/workers/capacity.py:78-91` | Releases exactly when the slot exists and is free or held by the caller |
| `Capacity.Allocator.RecoverSlots` | `services/workers/capacity.py:94-107` | The loop releases exactly the lapsed slots and counts them |
| `Capacity.GrantLasts` | `services/workers/capacity.py:31-75` | A granted or renewed slot counts for exactly its lease, and no other slot changes |
| `Capacity.ReleaseEnds` | `services/workers/capacity.py:78-91` | A released slot counts no more, and no other slot changes |
| `Capacity.RecoveryFreesNone` | `services/workers/capacity.py:94-107` | Recovery releases exactly the slots whose lease is over, so none that still counts |
| `PaymentRuns.PaidIsJustified` | `services/payments/service.py:140-176` | In every run a paid request was paid by one step, right after which a verified, associated capture of one of its links has the link's reference, amount and currency, the request's total, and the link's own non-empty order id |
| `PaymentRuns.PaidForever` | `services/payments/service.py:146-149` | Once paid, a request's status, payment time and row version never change |
| `PaymentRuns.RedeliveryChangesNothing` | `services/payments/service.py:580-588` | Delivering a recorded event key again changes nothing, whatever the event now says |
| `PaymentRuns.ObservationPaysIff` | `services/payments/service.py:606-712` | The exact condition, checkable beforehand, under which a direct observation pays a request |
| `PaymentRuns.ReplayPaysIff` | `services/payments/service.py:728-816` | The exact condition under which replaying an orphan pays a request |
| `PaymentRuns.ReplayPaysUncaptured` | `services/payments/service.py:794-807` | A replay under its condition pays also on a charge recorded as not captured, and the charge stays so |
| `PaymentRuns.UncapturedNeverPaysDirectly` | `services/payments/service.py:633-701` | Once a provider payment was recorded before its capture, no direct observation naming it pays any more: the order of events matters |
| `PaymentRuns.LinksAreBounded` | `services/payments/service.py:216-280` | A request has at most three links, numbered 1..n, each for exactly its total, and no two links share a provider id |
| `PaymentRuns.ReplacementIff` | `services/payments/service.py:985-1010` | The exact condition under which a link is replaced: the row the caller read, not collected or under review, the latest link closed by the provider, and fewer than three links |
| `PaymentOutcomes.EventOutcome` | `services/payments/service.py:561-712` | What a new verified event for a known link does, kind by kind: an agreeing expiry lapses the link and expires a pending request, an agreeing cancellation closes it and cancels a pending one, an agreeing captured payment pays, and whatever disagrees or is not captured puts both under review; the event is recorded with the link and its provider payment |
| `PaymentOutcomes.OrphanOutcome` | `services/payments/service.py:561-689` | An event without a known link is recorded as an orphan to be settled within a day; one that is unverified, not of the test mode or in another currency leaves nothing |
| `PaymentLinkOutcomes.ReplayOutcome` | `services/payments/service.py:715-818` | A replayed orphan is adopted exactly by the link it belongs to by id or reference, with the link's reference, amount and currency; a payment on the link's own order then pays, one without an id is reviewed; any other orphan waits for its time and goes to manual review |
| `PaymentLinkOutcomes.DispatchIff` | `services/payments/service.py:325-387` | A dispatch returns exactly if the link exists already or the provider confirms its exact terms under an id of its own; a confirmation creates the link and opens the request, a wrong or refused answer puts link, request and action under review, an uncertain one makes link and action unknown |
| `PaymentLinkOutcomes.PreparationIff` | `services/payments/service.py:201-291` | A link is prepared exactly while the request is open and has an active link or fewer than three; a new one asks for the whole total in rupees |
| `PaymentLinkOutcomes.ReplacementOutcome` | `services/payments/service.py:985-1010` | A replacement reopens an expired or cancelled request, adds the next link and leaves all else alone |
| `PaymentLinkOutcomes.IdentifyOutcome` | `services/payments/service.py:846-869` | A link whose creation answer was lost gets the id and order of the last candidate with its own terms, and goes under review without one |
| `PaymentLinkOutcomes.ReconciliationIsEvent` | `services/payments/service.py:870-906` | Reconciling a known link delivers the provider's view as an event: paid by status or by amount, else expired, else cancelled, else nothing to act on |
| `PaymentActions.ReviewBlocksDispatch` | `services/payments/service.py:341-342` | In every run a request under review stays so until it is paid, and no later call on any of its links reaches the provider, not even after an acknowledged retry |
| `PaymentActions.FailedDispatchBlocks` | `services/payments/service.py:349-369` | In every run a provider call without a proper answer, whose failure the worker commits, is the last one on that request that reaches the provider |
| `PaymentActions.RefusalIsReviewed` | `services/payments/service.py:349-369` | Such a call leaves the request under review and the action uncertain |
| `PaymentActions.LinkAttempts` | `services/workers/durable.py:398-547` | In every payment run a link's attempts are numbered 1..n with n at most three, only the last can have succeeded, and one recorded as uncertain is followed by another only after an operator's acknowledgement in that run |
| `PaymentWitness.AnyTotalCanBePaid` | `services/payments/service.py:140-712` | For every allowed total there is a run that ends with the request paid |
| `PaymentWitness.OrderOfEventsMatters` | `services/payments/service.py:633-707` | One authorization and one capture of the same payment: delivered capture first the request is paid, authorization first it is not |
| `PaymentWitness.ReplayPaysUncapturedRun` | `services/payments/service.py:715-818` | A run that ends with the request paid by a replay while its charge is recorded as not captured |
| `PaymentSteps.PrepareKeeps` | `services/payments/service.py:201-291` | Preparing a link keeps the rules and pays nothing |
| `PaymentSteps.ReplaceKeeps` | `services/payments/service.py:985-1010` | Replacing a link keeps the rules and pays nothing |
| `PaymentSteps.DispatchKeeps` | `services/payments/service.py:325-387` | Dispatching keeps the rules and pays nothing, whatever the provider answers and also when its failure is committed |
| `PaymentSteps.ObserveKeeps` | `services/payments/service.py:561-712` | Observing keeps the rules and pays only with evidence |
| `PaymentSteps.ReplayKeeps` | `services/payments/service.py:715-818` | Replaying a batch keeps the rules and pays only with evidence that is still there at its end |
| `PaymentSteps.ReconcileKeeps` | `services/payments/service.py:821-906` | Reconciling keeps the rules and pays only with evidence, whether or not its queries see unsaved rows |
| `PaymentService.Service.MoveStatus` | `services/payments/service.py:140-176` | The in-place status move computes the specified one |
| `PaymentService.Service.PrepareLink` | `services/payments/service.py:201-291` | Computes the specified preparation |
| `PaymentService.Service.ReplaceLink` | `services/payments/service.py:985-1010` | Computes the specified replacement |
| `PaymentService.Service.DispatchLink` | `services/payments/service.py:325-387` | Computes the specified dispatch for every provider answer, success and failure alike |
| `PaymentService.Service.CallAction` | `services/workers/durable.py:392-395` | Computes any other specified call on a link's action |
| `PaymentService.Service.ObserveEvent` | `services/payments/service.py:561-712` | Computes the specified observation |
| `PaymentService.Service.ReplayBatch` | `services/payments/service.py:715-818` | The loop computes the specified replay up to the first failure |
| `PaymentService.Service.ReconcileRequest` | `services/payments/service.py:821-906` | Computes the specified reconciliation |
| `PaymentService.Service.LatestMatch` | `services/payments/service.py:846-854` | The loop finds the last candidate with the link's own terms |
| `Budget.Conservation` | `services/agents/persistence.py:219-293` | In every run each window's reserved and used totals are the sums over its reserved and its reconciled rows, and stay within its limits |
| `Budget.RepeatedReservation` | `services/agents/persistence.py:248-252` | Repeating a reservation key changes no row and no total, however much later; with other values it is refused |
| `Budget.SettledOnce` | `services/agents/persistence.py:278-279` | A settled reservation is never settled again |
| `Budget.ReservationIff` | `services/agents/persistence.py:219-262` | The exact condition of a reservation: within its own limits, a window of the same limits, and a new key with room left or a known one with the same values |
| `Budget.ReservationOutcome` | `services/agents/persistence.py:219-262` | A new reservation adds its row and takes exactly its amounts out of its own window |
| `Budget.SettlementIff` | `services/agents/persistence.py:265-293` | A reservation is settled exactly once and within its amounts; the row records exactly what was used, and the window turns the reservation into that use |
| `Budget.BudgetTables.ReserveBudget` | `services/agents/persistence.py:219-262` | The in-place reservation computes the specified one, rolling a new window back when it is refused |
| `Budget.BudgetTables.ReconcileBudget` | `services/agents/persistence.py:265-293` | The in-place settlement computes the specified one |
| `LiveBudget.CostMonotone` | `services/agents/costs.py:42-47` | The rounded-up cost of more tokens is never lower, at any price, through every 28-digit rounding |
| `LiveBudget.CostIsExact` | `services/agents/costs.py:42-47` | Up to 28 digits a cost is the least whole number of paise that covers input tokens at the input price and output tokens at the output price |
| `LiveBudget.ExactIffTwentyEightDigits` | `services/agents/costs.py:46-47` | All costs up to a limit are exact if and only if the limit is at most 10^28 thousandths of a paisa; one thousandth more is lost |
| `LiveBudget.ReservationIsExact` | `services/agents/live.py:455-501` | A granted live reservation holds 48000 tokens and the exact cost of 40000 input and 8000 output tokens on both rows, at a fresh price and within the daily limit |
| `LiveBudget.SettlementIsExact` | `services/agents/live.py:504-536` | In any run a settlement writes the tokens used and their exact cost on both rows that were still reserved and on no other; a conservative one writes what was reserved |
| `LiveBudget.LiveReservationHolds` | `services/agents/live.py:455-501` | A granted live reservation holds the cost of a full analysis on both rows |
| `LiveBudget.LiveReservationExtendsRun` | `services/agents/live.py:474-501` | A granted live reservation is two reserve steps of a budget run, after which both rows hold it |
| `LiveBudget.AGrantedBudgetCanGoStale` | `services/agents/live.py:504-536` | A run with a granted budget that can be settled up to thirty days after the price review and one second later only conservatively |
| `LiveBudget.SettlementIsNeverExceeded` | `services/agents/live.py:504-536` | In any run an analysis within its caps is never refused at settlement for exceeding its reservation; only a stale price can stop it, and never a conservative settlement |
| `LiveBudget.AnalysisLimits.RecordUsage` | `services/agents/limits.py:70-78` | Counts the usage, then succeeds exactly when the counters are within their caps |
| `LiveBudget.LiveLedger.Settle` | `services/agents/live.py:523-536` | The loop settles both rows with the same charge, or neither |
| `Decimals.RoundKeepsOrder` | `services/domain/money.py:42-43` | Rounding to 28 digits, half to even, never crosses a value of at most 28 digits |
| `Decimals.RoundMonotone` | `services/domain/money.py:42-43` | That rounding is monotone |
| `Decimals.RoundIsNearest` | `services/domain/money.py:42-43` | No value of at most 28 digits is closer than the rounded one |
| `Decimals.TiesGoEven` | `services/domain/money.py:42-43` | Halfway between two values of 28 digits the even one is taken |
| `Money.ParseHours` | `services/domain/money.py:11-20` | Accepts exactly the finite values above zero and up to a thousand hours |
| `Money.ExactPrice` | `services/domain/money.py:34-48` | With at most 19 fractional digits of hours the price is the least multiple of the increment that covers hours times rate and the minimum, refused exactly when it exceeds the limit |
| `Money.PriceIsLeastMultiple` | `services/domain/money.py:34-48` | With at most 19 fractional digits a price is a multiple of the increment within the limit that covers hours times rate and the minimum, and one increment less would not; without a price no multiple within the limit covers them |
| `Money.ExactIffNineteenDigits` | `services/domain/money.py:34-48` | Every price at d fractional digits is exact if and only if d is at most 19 |
| `Money.TwentyDigitsFail` | `services/domain/money.py:42-44` | 394.93694832250547974961 hours at 50641 with increment 2 are priced at 20000002, where the exact price is 20000004 |
| `Money.MonotoneInHours` | `services/domain/money.py:34-48` | More hours never cost less, whatever their digits |
| `Money.WithinOneIncrement` | `services/domain/money.py:34-48` | At any number of digits the price is the exact one or one increment below it |
| `Money.EffortIffTwentyFiveDigits` | `services/domain/money.py:23-31` | The factor-of-two check means what it says if and only if the low estimate has at most 25 fractional digits |
| `Money.TwentySixDigitsFail` | `services/domain/money.py:29-30` | A low estimate of 50 hours and one unit of the 26th digit with a high one of exactly twice as much is refused |
| `Terms.ParseWeekdays` | `services/domain/terms.py:30-35` | Accepts exactly the non-empty lists of distinct days from 0 to 6 |
| `Terms.WeekdayIs` | `services/domain/terms.py:84-84` | Weekdays follow each other from 0 to 6, and the first of January 1970 was a Thursday, 3 |
| `Terms.CountIsNumber` | `services/domain/terms.py:82-85` | The working days between two days are exactly those of an allowed weekday that are no holiday |
| `Terms.AddWorkingDays` | `services/domain/terms.py:73-86` | The loop ends within seven days for every wanted day and every holiday, at the least day with exactly that many working days behind it |
| `Terms.SumsCompose` | `services/domain/terms.py:82-85` | Adding one number of working days and then another is adding both at once |
| `Terms.SumIsUnique` | `services/domain/terms.py:82-85` | There is only one such day |
| `Terms.SumsGrow` | `services/domain/terms.py:82-85` | More working days never end earlier |
| `Terms.EnoughDays` | `services/domain/terms.py:82-85` | So many calendar days always hold the wanted number of working days |
| `Chunks.ChunkText` | `services/contracts/extraction.py:59-84` | For every text the chunks are the paragraphs in order, each at exactly its own position; the fallback branch of the search is never taken |
| `Chunks.SplitParagraphs` | `services/contracts/extraction.py:66-68` | The split and strip produce exactly the paragraphs |
| `Chunks.ParagraphsCover` | `services/contracts/extraction.py:69-84` | Paragraphs are ordered and disjoint, begin and end with something, and hold every character that is not whitespace |
| `Chunks.CutAtBlankLines` | `services/contracts/extraction.py:66-68` | The text is cut exactly at its blank lines: no paragraph holds one, and between two paragraphs there always is one |
| `Chunks.BreakIff` | `services/contracts/extraction.py:66-66` | The separator matches at a newline exactly if another one follows across nothing but whitespace, and it ends at a newline |
| `Chunks.PagesCountUp` | `services/contracts/extraction.py:80-80` | Page numbers count the paragraphs from one up to the last page, which takes the rest |
| `Chunks.BreakEnd` | `services/contracts/extraction.py:66-66` | A match of the separator is whitespace only and longer than one character |
| `Chunks.OwnPlace` | `services/contracts/extraction.py:70-73` | The search from the cursor returns the next paragraph's own position |
| `Text.StripIsTrim` | `services/contracts/extraction.py:66-66` | Stripping a stretch of a text yields its core at its place in the text |
| `Text.Find` | `services/contracts/extraction.py:70-70` | The first occurrence at or after the cursor, or -1 |
| `Structure.ValidateOutput` | `services/contracts/structure.py:25-55` | The loop accepts exactly the payloads of at most 500 acceptable items with distinct keys, and returns the very items in order |
| `Structure.AcceptableIsQuotation` | `services/contracts/structure.py:25-55` | For a chunked document stored under distinct ids, an item is acceptable exactly if it has key, type and text and quotes one paragraph of the document at its own offsets |
| `Structure.CandidatesAreBullets` | `services/contracts/structure.py:185-226` | The fallback's candidates are exactly the bullet lines of the chunks, each with its own text and with the type of the last heading before it that names one, assumption without any |
| `Structure.SlugSays` | `services/contracts/structure.py:208-208` | A slug is at most 120 letters, digits and single dashes, holds the text's first letters and digits in order, all of them unless it was cut, and is scope for a text without any |
| `Structure.LinesAreWhole` | `services/contracts/structure.py:192-192` | The lines make up the text; each has a break only at its end, and all but the last end in one |
| `Structure.FallbackOfDocument` | `services/contracts/structure.py:185-226` | For any chunked document stored under distinct ids, the validator accepts the fallback's candidates exactly when there are at most 500, their keys are unique across chunks, and every absolute span cut from the document is its text |
| `Structure.FallbackIsValid` | `services/contracts/structure.py:185-226` | Every fallback candidate is acceptable to the validator and no two have the same key |
| `Structure.LineCandidates` | `services/contracts/structure.py:185-226` | The loops emit exactly the bullets of every chunk, each under the first free key of its section and slug |
| `Structure.FreeKey` | `services/contracts/structure.py:209-213` | The suffix search ends at the first free key |
| `Structure.SuffixesDiffer` | `services/contracts/structure.py:212-213` | Different suffixes give different keys |
| `Structure.NumeralReadsBack` | `services/contracts/structure.py:212-213` | A suffix is decimal digits that stand for its number, without a leading zero |
| `Structure.ExtractCandidates` | `services/contracts/structure.py:228-253` | Whatever the provider returns, candidates that are ready are acceptable and have distinct keys; with a payload, nothing is ready only when no line is a bullet |

## Left out

- Tenants and authorization: a row of another tenant is a missing row.
- HTTP routes, web client, mail, storage and payment transport, encryption, SQL migrations, metrics and audit rows.
- Row locks: each call is atomic, and its queries see the rows it has already changed, except where reconciliation is told otherwise.
- String lengths and other column widths that the database enforces, except the unique keys and currency checks.
- Decimal and date text formats, time zones, the exponent range of decimals and the year limit of dates.
- JSON payloads of provider events: events arrive as parsed fields.
- Jobs enqueued by the agreement and payment commands, notifications, due and expiry dates of payments.
- `retry_failed_job` (services/api/operations.py:50-71) and workflow snapshots.
- The association of webhooks with ingress rows (services/payments/service.py:401-558): observation is driven directly.
- Candidate corrections and document states in scope confirmation; items are keyed by candidate.
- Table locks of `skip_locked` readers in the slot allocator.
- Lower-casing: a parameter of the line fallback.
- Update in place of individual row objects: `AgreementService.Service` and `PaymentService.Service` reassign table fields, so aliasing between loaded rows is not captured.
