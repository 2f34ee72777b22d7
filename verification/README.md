# Verification of the InnexQ workflows

A Dafny model of the governed workflows of InnexQ and proofs of what they promise. Every workflow is
several callers over one document store with atomic batches of conditional writes. A controller method is
modelled as the sequence of its atomic steps (read a document, compute, commit one batch, make one external
call). A *run* is a sequence of steps of any number of callers, so a claim about every run is a claim about
every interleaving of concurrent calls and about a caller that stops for good between any two steps. External
calls, clocks, identifiers, evaluation results and write acknowledgements are inputs of the steps; a write whose
acknowledgement is lost takes effect while its caller sees an error.

Where the source runs a loop or updates fields in place, a class does the same: its methods let the other callers
run at every point where the source awaits something, and each method is shown to be one caller's part of a run
of the machine, so everything proved about all runs holds while the method executes.

| part | files |
|---|---|
| shared | `Results`, `Traces` (runs), `DocumentStore` (entity tags, atomic batches) |
| contract renewal Run | `RunRecords`, `RunStore`, `RunController`, `RunSafety`, `RunHistory`, `RunAudit` (who wrote each event), `RunDecisions`, `RunExecution` |
| evidence broker, toolbox and team | `EvidenceBroker`, `EvidenceSafety`, `EvidenceHistory`, `EvidenceBudget`, `EvidenceService` (the broker's methods), `EvidenceToolbox`, `EvidenceTeam`, `EvidenceGuard`, `EvidenceLimits` |
| service coverage renewal | `CoverageRecords`, `InvoiceAllocator`, `CoverageRenewal`, `CoverageSafety`, `CoverageHistory`, `CoverageRuns` (runs built step by step), `CoverageLimits`, `CoverageExecution` (executor and runner), `CoverageController` (controller, review, customer) |
| certificates and Teams outbox | `Certificates`, `CertificateSafety`, `CertificateController`, `Outbox`, `OutboxSafety`, `OutboxRouting` (whose cases a dispatcher sends), `OutboxDispatch` |
| case review | `CaseReview` (both replays), `CaseDesk`, `CaseController` |
| money and calendar | `Decimals`, `Pricing`, `CoveragePeriod` |

In each machine module `Next` is one step, `Run(Next, …)` a run; the `…Safety` module holds the invariant and the
proof that every step keeps it, the `…History` module what two points of a run have to do with each other and the
results. Digests (`sha256` over canonical JSON, and over file bytes) are free constructors: equal digests have equal
preimages. `casefold` is the field `folded` of an identity.

Where the code does less than its documentation says, the model follows the code:

- The executor's header (src/api/innexq_api/coverage_executor.py:3-6) says that a retry never allocates a second
  invoice number. It does, in runs from the start: after a failed attempt (`CoverageLimits.FailureLosesANumber`), and even
  beside a receipt that is already stored (`CoverageLimits.ReceiptDoesNotStopAnAllocation`). Exactly: in a year that has
  its counter, another number can be claimed for a launched renewal if and only if a call under way can still be granted
  one, or there is no receipt and the year has a number left (`CoverageLimits.AnotherNumberExactlyWhen`).
- The runner resumes an `EXECUTING` renewal to finish it, but `execute` returns a receipt that is there and commits
  nothing. A renewal with a receipt is completed if and only if the call that issued the receipt still does it
  (`CoverageLimits.CompletionExactlyWhen`); when the acknowledgement of the receipt is lost, no later run completes it and
  nothing is ever served (`CoverageLimits.LostAcknowledgementParks`, `CoverageLimits.ParkedForGood`).
- The completing commit (src/api/innexq_api/coverage_executor.py:133-141) does not ask the state table, so an audit may
  step from `EXECUTION_FAILED` to `COMPLETED` (`CoverageLimits.FailureMeetsCompletion`); `CoverageHistory.AuditIsContiguous`
  says that this is the only such step.
- A reviewer's decision is bound to the package that was displayed if and only if no one but the customer's `start` drives
  investigations (`CoverageLimits.BindingHoldsExactlyWhen`, `CoverageLimits.RedriveBreaksTheBinding`).
- An invoice number that is reserved outright one ahead of the counter ends its year for every allocator
  (`InvoiceAllocator.ReservingAheadEndsAYear`, `InvoiceAllocator.YearGoesOnExactlyWhen`).
- An investigation may be issued for up to ten documents (src/api/innexq_api/evidence_broker.py:64), but the budget of six
  calls a role lets only those with one to five (certificates) or one to three (coverage) ever finish
  (`EvidenceBudget.BudgetIsExact`).
- The specialist team checks that every tool was used, not that every document was analysed
  (src/agent/evidence_team.py:185-194). Its proposals are all covered if and only if there is at most one document
  (`EvidenceLimits.ProposalsAreCoveredExactlyWhen`), and the broker refuses exactly the others
  (`EvidenceTeam.ProposalFinishesExactlyWhen`).
- The Run table lists `EXECUTION_FAILED -> EXECUTING`; a failed Run holds an unknown status, and `execute` never takes
  that transition (`RunHistory.FailureIsFinal`, `RunDecisions.ExecutionIsAccepted`).
- The quote contract checks its sum in the default 28-digit context, so it refuses some amounts that the 64-digit
  arithmetic computes exactly (`Pricing.QuoteIsExact`, `Pricing.SomeTotalsDoNotFit`).
- The two Run stores differ in one error: for a Run that does not exist the in-memory store raises a conflict and the
  document store a missing key (`RunStore.SameOutcomes`).
- `coverage_period` finds no day when the target year is beyond 9999 (`CoveragePeriod.NoDayAfterTheLastYear`): it counts
  down until the date constructor of the interpreter overflows (`CoveragePeriod.Period`).

## Model

| member | source | states |
|---|---|---|
| DocumentStore.TagNamesContents | src/api/innexq_api/store.py:84-128 | after any number of batches by anyone, a document that still has the tag it was read with still has the body it was read with |
| DocumentStore.FirstReplacementWins | src/api/innexq_api/certificate_store.py:92-98 | of two conditional replacements that read the same tag at most one is ever admitted, whatever happens in between |
| RunRecords.HashNamesEnvelope | src/contracts/innexq_contracts/hashing.py:62-101 | two bound envelopes with one hash are one envelope, with the same brief and the same actions |
| RunStore.MemoryStore.constructor | src/api/innexq_api/store.py:31-36 | an empty store |
| RunStore.MemoryStore.Commit | src/api/innexq_api/store.py:41-54 | a compare-and-swap on the revision of one Run: snapshot, event and a new brief version together or not at all, every other Run untouched |
| RunStore.CosmosStore.constructor | src/api/innexq_api/store.py:72-76 | an empty container |
| RunStore.CosmosStore.Commit | src/api/innexq_api/store.py:84-128 | the read and the batch, with other callers' commits in between, as two steps of the store machine, and the outcome recorded |
| RunStore.SubmitIsAppend | src/api/innexq_api/store.py:84-128 | a batch that read the current snapshot does exactly what the in-memory commit does |
| RunStore.CosmosRefinesMemory | src/api/innexq_api/store.py:84-128 | however the halves of commits interleave, the container holds what the in-memory store would hold after the same commits in the order in which they settled, and each got the same outcome |
| RunStore.LinearAcross | src/api/innexq_api/store.py:84-128 | the refinement holds across the interference inside one commit |
| RunSafety.NextKeepsInv | src/api/innexq_api/controller.py:159-702 | every step of every caller keeps the Run invariant: audit, versions, bound approval, one execution, statuses and receipts |
| RunSafety.RunsAreSafe | src/api/innexq_api/controller.py:159-702 | the invariant holds in every reachable state |
| RunHistory.HistoryOnlyGrows | src/api/innexq_api/controller.py:159-702 | between two points of a run the log, the briefs, the external calls, the receipts and a decided package only grow or stay |
| RunHistory.AuditIsTheState | src/api/innexq_api/controller.py:159-199 | event sequences are exactly one to the revision, the last event has the snapshot's state, consecutive states are equal or an allowed transition, and a command key is claimed once |
| RunHistory.EffectsAtMostOnce | src/api/innexq_api/controller.py:598-702 | over all interleavings and crashes no idempotency key reaches the external executor twice, execution is started at most once, and at most one caller is ever executing |
| RunHistory.FailureIsFinal | src/api/innexq_api/controller.py:659-690 | a failed execution holds an unknown status and keeps its state, statuses and receipts for good |
| RunHistory.DecisionFreezesThePackage | src/api/innexq_api/controller.py:529-578 | once an approval is stored the approval, envelope, evidence, proposal, brief pointer and discount never change and the state stays decided |
| RunHistory.ApprovedIsExecuted | src/api/innexq_api/controller.py:638-702 | every action handed to the executor is in the manifest whose hash the stored approval carries, of the kind and brief version its key names, approved by the configured approver on the stored evidence |
| RunHistory.VersionsOnlyRise | src/api/innexq_api/controller.py:278-375 | re-assembly yields strictly higher brief versions and never happens after an approval |
| RunHistory.ReceiptsAreConserved | src/api/innexq_api/controller.py:598-636 | whatever commits interfere, completed statuses and receipts are never lost, and an executed Run has a receipt for every action of its manifest |
| RunAudit.EveryEventIsAttributed | src/api/innexq_api/controller.py:159-199 | in every run each audit event was written by the configured approver, or by the agent where it prices, only denials aside; its kind fixes the state it was written in, and a command's event directly follows the revision the command was sent for |
| RunDecisions.DecisionIsRecordedExactlyWhen | src/api/innexq_api/controller.py:529-596 | the exact conditions under which a decision is recorded (approver, hour, whole package named by its hash, no earlier approval, discount limit), ignored as a duplicate, or raises |
| RunDecisions.RecordedIsSent | src/api/innexq_api/controller.py:563-574 | a recorded approval carries the approver, hash and decision that were sent, and the version of the stored brief |
| RunDecisions.LaunchIsAcceptedExactlyWhen | src/api/innexq_api/controller.py:638-664 | the exact condition under which the guards of `execute` pass |
| RunDecisions.ApprovalOpensExecution | src/api/innexq_api/controller.py:638-662 | the approval that `decide` records is the one `execute` accepts, exactly while facts and citations hold; a rejection is never accepted |
| RunDecisions.ExecutionIsAccepted | src/api/innexq_api/controller.py:638-662 | in every reachable state the guards of `execute` pass only for an approved, whole package in the approved state |
| RunExecution.Controller.Record | src/api/innexq_api/controller.py:159-199 | a listed target, the next revision and one event, or an error and no change |
| RunExecution.Controller.Detect | src/api/innexq_api/controller.py:201-239 | anyone but the approver is denied and changes nothing; the Run is returned as stored, created at most once however many detect it, and undisturbed exactly for an eligible renewal, with the facts given |
| RunExecution.Controller.PriceRun | src/api/innexq_api/controller.py:140-157 | the agent's callback adds an audit event to an assembling Run and changes nothing else |
| RunExecution.Controller.CommandReplayed | src/api/innexq_api/controller.py:263-276 | the scan finds the first event that claimed the key, and none exactly if no event of this kind claimed it |
| RunExecution.Controller.Assemble | src/api/innexq_api/controller.py:278-374 | anyone but the approver is denied and changes nothing; what returns is a repeated command's snapshot, or a stored, verified package of a higher version whose brief has the given body and whose manifest is exactly the file and the mail, each with its own content, kind and key; a returned command is in the log for the revision it was sent for |
| RunExecution.Controller.Version | src/api/innexq_api/controller.py:335-356 | the brief is persisted and made current by two commits; its body is the given one, its two actions are the file and the mail with their own contents, kinds and keys, and `verify_package` accepts it |
| RunExecution.Controller.Hold | src/api/innexq_api/controller.py:359-374 | what raised in the guarded part leaves the Run on hold, if its state still allows that |
| RunExecution.Controller.RequestApproval | src/api/innexq_api/controller.py:491-527 | anyone but the approver is denied and changes nothing; the request is committed on the verified package before the card is sent, a lost card is never returned as a success, and a returned command is in the log for the revision it was sent for |
| RunExecution.Controller.Consider | src/api/innexq_api/controller.py:529-596 | the checks of `decide` in their order give the verdict of the machine |
| RunExecution.Controller.Decide | src/api/innexq_api/controller.py:529-578 | `decide` with other callers in between is one caller's part of a run; it returns only a committed record, with the approval it judged |
| RunExecution.Controller.CommitReport | src/api/innexq_api/controller.py:598-636 | one commit of `execution_event`: the new status and receipt on top of the snapshot just read |
| RunExecution.Controller.ExecutionEvent | src/api/innexq_api/controller.py:598-636 | at most five attempts; a returned record is the stored one with the new status and receipt, otherwise the caller is out and nothing of it was stored |
| RunExecution.Controller.Launch | src/api/innexq_api/controller.py:638-664 | the guards and the commit that starts the execution |
| RunExecution.Controller.Perform | src/api/innexq_api/controller.py:667-695 | the start is committed before the one external call, its outcome after it |
| RunExecution.Controller.WorkThrough | src/api/innexq_api/controller.py:665-702 | the loop over the manifest ends in the executed state or returns nothing |
| RunExecution.Controller.Execute | src/api/innexq_api/controller.py:638-702 | `execute` with any interference is one caller's part of a run, keeps the invariant, and returns only an executed, stored record |
| EvidenceSafety.NextKeepsInv | src/api/innexq_api/evidence_broker.py:122-332 | every step keeps: calls against receipts, one owner per calling scope, genuine receipts, scopes closed together |
| EvidenceHistory.SettledScopesStay | src/api/innexq_api/evidence_broker.py:128-148 | a failed or closed scope is never written again and gets no receipt |
| EvidenceHistory.LostReservationStaysLost | src/api/innexq_api/evidence_broker.py:212-271 | a reservation whose owner is gone never reopens or closes the scope and leaves its receipts as they were |
| EvidenceHistory.CallsMatchReceipts | src/api/innexq_api/evidence_broker.py:212-271 | an open scope has as many calls as receipts, at most six; a calling one has one owner and one call more; both scopes are closed or neither |
| EvidenceHistory.OnlyTheHolderIsServed | src/api/innexq_api/evidence_broker.py:150-213 | in every reachable state a call that does not name the bound tenant, principal and handle is answered without a receipt and touches nothing; one that does reaches its reservation exactly while the scope is open, in time, has fewer than six receipts and the request fits, and fails the scope otherwise |
| EvidenceHistory.ReceiptsAreEvidence | src/api/innexq_api/evidence_broker.py:216-264 | every durable receipt is filed in the scope of its role, by a tool of that role on the bound source and documents, read before the investigation expired |
| EvidenceHistory.FinishedIsComplete | src/api/innexq_api/evidence_broker.py:273-332 | `finish` succeeds at most once and returns exactly the durable receipts of both roles in order: every allowed tool used, exactly the bound documents analysed |
| EvidenceHistory.AnalysesCoverDocuments | src/api/innexq_api/evidence_broker.py:305-322 | each analysis receipt covers at most one document |
| EvidenceBudget.BudgetIsExact | src/api/innexq_api/evidence_broker.py:184-190 | some run finishes if and only if there are one to five documents (certificates) or one to three (coverage) |
| EvidenceService.Service.constructor | src/api/innexq_api/evidence_broker.py:93-120 | both scopes are issued in one batch, open and unused |
| EvidenceService.Service.Fail | src/api/innexq_api/evidence_broker.py:128-140 | at most three attempts; what returns has left the scope failed or closed |
| EvidenceService.Service.Abort | src/api/innexq_api/evidence_broker.py:142-148 | what returns has compared the binding and left both scopes failed or closed, whatever ran in between |
| EvidenceService.Service.Call | src/api/innexq_api/evidence_broker.py:150-271 | a caller that does not name the bound tenant, principal and handle changes nothing; a returned receipt was asked for on an open scope in time, within the budget and for a fitting request, and is the newest one of its reopened scope; anything else went through `_fail` |
| EvidenceService.Service.Reserve | src/api/innexq_api/evidence_broker.py:212-215 | the reservation under the tag that was read, and its confirmation |
| EvidenceService.Service.Record | src/api/innexq_api/evidence_broker.py:216-264 | the scope reopens and the receipt is created in one batch, or neither |
| EvidenceService.Service.ReadScope | src/api/innexq_api/evidence_broker.py:287-322 | the loop over the receipts accepts exactly a complete role |
| EvidenceService.Service.Finish | src/api/innexq_api/evidence_broker.py:273-332 | what returns is the one result of the investigation and exactly what the two closed scopes hold |
| EvidenceToolbox.ScopedEvidenceTools.constructor | src/agent/evidence_toolbox.py:106-118 | a fresh toolbox |
| EvidenceToolbox.ScopedEvidenceTools.Call | src/agent/evidence_toolbox.py:120-190 | a call returns exactly if the toolbox had not failed, was in time before and after, within its budget, and the reply is a new receipt of its role and tool; it has then added exactly its own receipt, and any other has failed the toolbox |
| EvidenceToolbox.ReceiptsMove | src/api/innexq_api/evidence_broker.py:236-264 | the receipts of a scope change only when a stored call is admitted, and then by that one receipt |
| EvidenceToolbox.NextKeepsDesk | src/agent/evidence_toolbox.py:120-190 | every move of toolboxes, broker and others keeps client and broker in agreement |
| EvidenceToolbox.IdleToolboxesAgree | src/agent/evidence_toolbox.py:120-190 | with one client per handle, a toolbox that is idle and not failed holds exactly the durable receipts of its scope in order, whatever was lost, cancelled, revoked or finished |
| EvidenceTeam.NextKeepsTeam | src/agent/evidence_team.py:140-259 | every step of both branches, the toolboxes, the broker and the check keeps the team's invariant |
| EvidenceTeam.OneToolboxPerHandle | src/agent/evidence_team.py:147-149 | whatever the coordinator's model asks for, no specialist is ever started twice |
| EvidenceTeam.FailureLeavesNoProposal | src/agent/evidence_team.py:202-207 | once any branch has failed, no proposal follows |
| EvidenceTeam.ProposalsNameDurableReceipts | src/agent/evidence_team.py:219-250 | a proposal names, from then on, exactly the durable receipts of both scopes in order, with every allowed tool used |
| EvidenceTeam.CompleteTeamsPropose | src/agent/evidence_team.py:228-239 | two completed specialists are enough: the check for repeated receipts never refuses |
| EvidenceTeam.FinishDecides | src/api/innexq_api/evidence_broker.py:273-332 | an undisturbed `finish` succeeds exactly when both roles read as complete |
| EvidenceTeam.ProposalFinishesExactlyWhen | src/agent/evidence_team.py:185-194 | on a proposal and open scopes, an undisturbed `finish` succeeds if and only if every required document was analysed, and returns what the toolboxes hold |
| EvidenceLimits.ProposesOnOneDocument | src/agent/evidence_team.py:144-250 | a run from the start in which both specialists look at one document only and the team proposes |
| EvidenceLimits.ProposalsAreCoveredExactlyWhen | src/agent/evidence_team.py:185-194 | in every run a proposal has all its documents analysed, if and only if there is at most one document |
| EvidenceGuard.EvidenceTeamGuard.Investigate | src/agent/evidence_team.py:144-207 | a branch under any interference is part of a run; it returns only after a clean, usable run in time with a proven toolbox, once for its role, and any other end sets the latch |
| EvidenceGuard.EvidenceTeamGuard.Check | src/agent/evidence_team.py:219-259 | the check proposes what the branches completed, if and only if nothing failed, it is in time, and the coordinator acknowledged exactly the two roles that are there |
| CoverageRecords.ApprovalsNameOnePackage | src/contracts/innexq_contracts/coverage_renewal.py:393-418 | two approvals pass the final gate for one package only |
| InvoiceAllocator.NextKeeps | src/api/innexq_api/coverage_store.py:125-173 | every step keeps: reserved numbers are the granted ones, all distinct, each handed over to its caller only |
| InvoiceAllocator.NoNumberTwice | src/api/innexq_api/coverage_store.py:125-173 | with allocations and outright reservations mixed in any way, no number is granted twice, and the reserved numbers are exactly the granted ones |
| InvoiceAllocator.NumbersAreConsecutive | src/api/innexq_api/coverage_store.py:138-173 | with allocators alone, the numbers of a year rise in commit order and the reserved set is exactly one to the counter |
| InvoiceAllocator.YearGoesOnExactlyWhen | src/api/innexq_api/coverage_store.py:138-173 | whatever anyone does, a year with a counter can give out another number if and only if its next one is within the limit and not reserved outright |
| InvoiceAllocator.ReservingAheadEndsAYear | src/api/innexq_api/coverage_store.py:125-173 | after the next number was reserved outright, no allocation of that year is ever granted again |
| InvoiceAllocator.ProspectsFade | src/api/innexq_api/coverage_store.py:143-172 | a call under way that can get no number any more never can again, whatever others do |
| InvoiceAllocator.Allocator.AllocateNextInvoice | src/api/innexq_api/coverage_store.py:138-173 | the five-attempt loop under interference: a returned number is the caller's one new grant, a call that gives up on contention was granted nothing, and in a year that is over no call is granted anything |
| InvoiceAllocator.Allocator.Attempt | src/api/innexq_api/coverage_store.py:143-172 | one round of the loop, including the round spent on creating the counter |
| CoverageSafety.NextKeeps | src/api/innexq_api/coverage_controller.py:120-458 | every step of controller, review, executor, runner and downloads keeps the renewal invariant and only grows what is stored |
| CoverageSafety.OperationsDecisionOk | src/api/innexq_api/coverage_controller.py:341-389 | an Operations decision leads to a record bound to its package and hash, in a state of the table |
| CoverageSafety.ManagerDecisionOk | src/api/innexq_api/coverage_controller.py:391-437 | a Manager decision binds to package, hash, Operations decision and note, by another person |
| CoverageSafety.ClaimKeeps | src/api/innexq_api/coverage_store.py:138-173 | a number handed to an execution is claimed by no other request and carried by no document yet |
| CoverageHistory.AuditIsContiguous | src/api/innexq_api/coverage_store.py:44-103 | event documents number the revisions without a gap, the last one has the record's state, each step is in the table or is a completion after a failure |
| CoverageHistory.ExecutionIsAuthorized | src/api/innexq_api/coverage_controller.py:439-458 | every record in EXECUTING, EXECUTION_FAILED or COMPLETED has a package for its own customer, equipment and twelve months, and two approvals of exactly that package in order, by the two configured, different people |
| CoverageHistory.DecisionsFreezeThePackage | src/api/innexq_api/coverage_controller.py:341-458 | package and decisions never change once decided, a launched renewal stays launched, a completed one stays as it is |
| CoverageHistory.OneReceipt | src/api/innexq_api/coverage_store.py:175-188 | a renewal has at most one execution receipt, for good |
| CoverageHistory.ExecuteReturnsTheReceipt | src/api/innexq_api/coverage_executor.py:67-142 | every execute or retry that returns yields the stored receipt |
| CoverageHistory.CompletionIsFinal | src/api/innexq_api/coverage_executor.py:133-142 | COMPLETED never changes and has its receipt; both documents are stored under its digests and were rendered from the approved package as of the approval |
| CoverageHistory.DownloadsVerify | src/api/innexq_api/coverage_customer.py:97-106 | no download is ever refused by its hash check; what is served has the receipt's digest, belongs to a completed renewal, and both the renewal and the package in the document are those of the customer that asked |
| CoverageHistory.InvoicesAreDistinct | src/api/innexq_api/coverage_executor.py:79-131 | receipts of different renewals carry different invoice numbers |
| CoverageHistory.WritesMeetNoBlob | src/api/innexq_api/adapters.py:205-226 | a create-only artifact write never meets an existing blob |
| CoverageHistory.AllocatesIffNoReceipt | src/api/innexq_api/coverage_executor.py:67-83 | a call that passed the gate allocates if and only if it finds no receipt at its own check |
| CoverageHistory.ReceiptEndsAllocation | src/api/innexq_api/coverage_executor.py:67-83 | with a receipt stored and no call still allocating, no number is ever allocated for the renewal again |
| CoverageHistory.PackageIsDraftedOnce | src/api/innexq_api/coverage_customer.py:67-82 | driven only by `start`, a package is drafted at most once |
| CoverageHistory.DecisionsMatchWhatWasShown | src/api/innexq_api/coverage_review.py:50-99 | driven only by `start`, every stored decision carries the hash its reviewer restated |
| CoverageHistory.RecordedDecisionsReplay | src/api/innexq_api/coverage_review.py:59-99 | once a decision is stored, the identical callback, whenever and by whomever it is repeated in the run, changes nothing at all |
| CoverageHistory.LateDecisionsFail | src/api/innexq_api/coverage_review.py:50-99 | of callbacks in flight together, every one but the stored one fails at its next step and stores nothing |
| CoverageHistory.OtherCallbacksFail | src/api/innexq_api/coverage_review.py:50-99 | beside a stored decision, a callback of another person, verdict or hash, whenever it comes in a run, is refused at once or at its next step and changes nothing that is stored |
| CoverageHistory.OneDecisionEach | src/api/innexq_api/coverage_controller.py:341-437 | in any run at most one Operations and one Manager decision is ever stored for a renewal |
| CoverageRuns.ReachLaunching | src/api/innexq_api/coverage_controller.py:120-458 | from nothing there is a run to an authorized execution, whenever Operations and Manager are different people |
| CoverageLimits.FailureLosesANumber | src/api/innexq_api/coverage_executor.py:67-175 | a run from the start in which a failed attempt and its retry take two numbers |
| CoverageLimits.ReceiptDoesNotStopAnAllocation | src/api/innexq_api/coverage_executor.py:67-131 | a run from the start in which a call takes another number after the receipt is stored |
| CoverageLimits.AnotherNumberExactlyWhen | src/api/innexq_api/coverage_executor.py:67-131 | exactly when, over all runs from a state, another number can be claimed for a launched renewal in a year that has its counter |
| CoverageLimits.CompletionExactlyWhen | src/api/innexq_api/coverage_executor.py:67-142 | a renewal with a receipt can still be completed if and only if the call that issued it is still there, on the record as it is |
| CoverageLimits.ParkedForGood | src/api/innexq_api/coverage_executor.py:72-75 | otherwise no execution, retry or drain ever completes it, every one that finds the receipt only returns it, and no download is served |
| CoverageLimits.LostAcknowledgementParks | src/api/innexq_api/coverage_executor.py:128-142 | a run from the start: the receipt is stored but not acknowledged, and no later run completes the executing renewal |
| CoverageLimits.FailureMeetsCompletion | src/api/innexq_api/coverage_executor.py:133-158 | a run from the start whose audit steps from EXECUTION_FAILED to COMPLETED |
| CoverageLimits.RedriveBreaksTheBinding | src/api/innexq_api/coverage_controller.py:159-175 | when investigations may be driven otherwise, a run from the start stores a decision for a package the reviewer never restated |
| CoverageLimits.BindingHoldsExactlyWhen | src/api/innexq_api/coverage_review.py:50-99 | stored Operations decisions carry the hash their reviewer restated, in every run, if and only if only `start` drives investigations |
| CoverageController.Controller.Advance | src/api/innexq_api/coverage_controller.py:139-157 | a listed target and one conditional commit of snapshot and event, or an error |
| CoverageController.Controller.VerifyEligibility | src/api/innexq_api/coverage_controller.py:177-215 | anything but an eligible finding is held; an eligible one ends with the package of that finding presented, for the record's own customer and equipment |
| CoverageController.Controller.DraftPackage | src/api/innexq_api/coverage_controller.py:322-337 | the package is stored with its own hash and presented to Operations; driven only by `start`, it is the very package that was drafted |
| CoverageController.Controller.OperationsDecide | src/api/innexq_api/coverage_controller.py:341-389 | the stored decision is the one sent, with its identifier and time, by the configured person, and an approval waits for the Manager |
| CoverageController.Controller.ManagerDecide | src/api/innexq_api/coverage_controller.py:391-437 | the stored decision is the one sent, with its identifier, time and year, by the configured Manager, who is not the one who decided for Operations |
| CoverageController.CoverageReview.Decide | src/api/innexq_api/coverage_review.py:50-99 | what returns is the stored record, whose decision of that role has the verdict, person and (driven only by `start`) hash that were sent; beside a stored decision that differs in any of them the call returns an error; a recorded decision is acknowledged without any step, a new one restated the stored package |
| CoverageController.CoverageCustomerRuntime.Start | src/api/innexq_api/coverage_customer.py:67-82 | a repeated call changes nothing; the creating one ends held, or presented with the package of this customer, this equipment and this finding |
| CoverageController.CoverageCustomerRuntime.Progress | src/api/innexq_api/coverage_customer.py:84-95 | only the customer's own request is ever shown |
| CoverageController.CoverageCustomerRuntime.Download | src/api/innexq_api/coverage_customer.py:97-106 | bytes go out exactly to the renewal's own customer once it is completed and the storage answers, and they are a document of that customer with the receipt's digest; to anyone else nothing happens |
| CoverageExecution.Executor.CommitRecord | src/api/innexq_api/coverage_store.py:73-93 | a commit replaces the snapshot under its tag together with its event, or neither |
| CoverageExecution.Executor.Allocate | src/api/innexq_api/coverage_store.py:138-173 | the allocation loop inside an execution ends with this request's number or with nothing |
| CoverageExecution.Executor.WriteArtifact | src/api/innexq_api/adapters.py:205-226 | a create-only write, performed and acknowledged or not |
| CoverageExecution.Executor.CreateExecution | src/api/innexq_api/coverage_store.py:175-182 | the create-once receipt |
| CoverageExecution.Executor.Produce | src/api/innexq_api/coverage_executor.py:79-128 | number, documents and receipt in order, each document with the customer's name as read for it; a conflict leaves at once, any other exception leads to the failure mark |
| CoverageExecution.Executor.Fail | src/api/innexq_api/coverage_executor.py:144-158 | an executing renewal is marked failed, and nothing else is |
| CoverageExecution.Executor.Complete | src/api/innexq_api/coverage_executor.py:133-142 | the completing commit; what is returned is the stored receipt |
| CoverageExecution.Executor.Execute | src/api/innexq_api/coverage_executor.py:67-142 | `execute` under interference is one caller's part of a run and returns only the stored receipt |
| CoverageExecution.Executor.Retry | src/api/innexq_api/coverage_executor.py:160-175 | `retry` verifies both approvals again, goes back to executing, and returns only the stored receipt |
| CoverageExecution.Executor.AuthorizeAndExecute | src/api/innexq_api/coverage_runner.py:45-49 | the runner's authorization and execution of an approved renewal |
| CoverageExecution.Executor.Drain | src/api/innexq_api/coverage_runner.py:43-55 | a drain over stale listings is one caller's part of a run and keeps the invariant |
| CoverageExecution.Executor.Download | src/api/innexq_api/coverage_executor.py:177-188 | record, receipt and bytes are read in turn; for an admitted customer the bytes are returned exactly when the storage answers, under the receipt's digest |
| CertificateSafety.NextKeeps | src/api/innexq_api/certificates.py:133-285 | every step of requests and downloads keeps the certificate invariant and only grows what is stored |
| CertificateSafety.NextDraftOk | src/api/innexq_api/certificates.py:133-189 | a download extends a released log by a policy check and a prepared download, or by the hold with its case |
| CertificateSafety.LogFollowsTheLifecycle | src/api/innexq_api/certificate_store.py:132-234 | every reachable log follows the lifecycle grammar, event documents are the log, and one case and one outbox entry exist exactly when the request is held, assigned to Operations with the reasons of the checks that failed |
| CertificateSafety.HoldIsFinal | src/api/innexq_api/certificates.py:229-285 | once held, the record with its case never changes and no bytes are released |
| CertificateSafety.BytesAreReleasedArtifacts | src/api/innexq_api/certificates.py:229-285 | bytes are returned only after a committed prepared download whose policy check came after the byte read and released the artifact and hash of the first release decision |
| CertificateSafety.BytesGoToTheRequester | src/api/innexq_api/certificates.py:113-118 | over all runs, every release went to the actor of the stored request in the configured tenant, whose configured customer is the request's customer |
| CertificateSafety.ArtifactFailuresHold | src/api/innexq_api/certificates.py:243-281 | in every reachable state a changed artifact, unreadable bytes and bytes of another digest turn the download into a hold for exactly that reason, and no bytes leave |
| CertificateSafety.AnswersAgree | src/api/innexq_api/certificates.py:191-227 | one request identifier is never answered for two actors, customers or targets, and an answer that named a context has it |
| CertificateController.MakeRecord | src/api/innexq_api/certificates.py:133-189 | the events appended one at a time are the prior log and the tail of the decision |
| CertificateController.Controller.Request | src/api/innexq_api/certificates.py:191-227 | `request` under interference is one caller's part of a run; it denies an unknown tenant or actor without a change, and returns a record of the caller's own identity and context |
| CertificateController.Controller.Download | src/api/innexq_api/certificates.py:229-285 | `download` under interference is one caller's part of a run; an unknown tenant or actor changes nothing, and returned bytes belong to a recorded release to the actor and customer of the stored request |
| CertificateController.Controller.Commit | src/api/innexq_api/certificate_store.py:132-234 | the commit checks count, prior events, identity and case, and its batch needs the tag it read |
| OutboxSafety.NextKeeps | src/api/innexq_api/certificate_store.py:340-441 | every step keeps: one claimant, one call and one answer per entry, and entries that only move forward |
| OutboxSafety.SentAtMostOnce | src/api/innexq_api/certificate_notifications.py:32-98 | over any dispatchers, crashes, timeouts and recoveries, each request's message is handed to the sender at most once, under the attempt that holds the entry |
| OutboxSafety.ClaimsAreIrreversible | src/api/innexq_api/certificate_store.py:368-441 | a claim never returns to pending and keeps its attempt; delivered and ambiguous are final; the time of an entry never goes back |
| OutboxSafety.DeliveredCarriesItsReceipt | src/api/innexq_api/certificate_store.py:382-408 | a delivered entry carries the receipt of its one send |
| OutboxRouting.MessagesStayWithTheirAuthority | src/api/innexq_api/certificate_notifications.py:43-72 | over all runs of dispatchers of any authorities, every message was sent by a dispatcher whose tenant and Operations user are those of the held case, and under that case |
| OutboxRouting.ForeignEntriesStay | src/api/innexq_api/certificate_notifications.py:43-48 | in every reachable state no step of a dispatcher of another authority claims, finishes, recovers or otherwise changes an entry |
| OutboxRouting.RecoveryWaits | src/api/innexq_api/certificate_store.py:410-441 | recovery marks only a claim that was made at least five minutes before |
| OutboxDispatch.Dispatcher.Claim | src/api/innexq_api/certificate_store.py:368-380 | a claim takes a pending entry under its tag, or nothing |
| OutboxDispatch.Dispatcher.Finish | src/api/innexq_api/certificate_store.py:382-408 | only the attempt that holds the claim finishes it, with exactly the outcome and receipt given |
| OutboxDispatch.Dispatcher.RecoverStaleClaims | src/api/innexq_api/certificate_store.py:410-441 | the recovery loop skips conflicts and foreign or fresh claims; it returns the number of entries it marked, each a stale claim of its own authority that is ambiguous under its attempt when the loop ends |
| OutboxDispatch.Dispatcher.Deliver | src/api/innexq_api/certificate_notifications.py:61-98 | binding check, the one send, and its mark; a delivery that cannot be recorded is marked ambiguous |
| OutboxDispatch.Dispatcher.DispatchOnce | src/api/innexq_api/certificate_notifications.py:32-98 | `dispatch_once` under interference is one dispatcher's part of a run and keeps the invariants; every message handed over so far was for a held case of its dispatcher's own tenant and Operations user |
| CaseReview.Validate | src/contracts/innexq_contracts/case_review.py:59-80 | the service's replay loop accepts exactly the consistent reviews |
| CaseReview.Parse | src/web/src/case-review-api.ts:18-48 | the web client's loop accepts exactly the consistent reviews of its request and tenant |
| CaseReview.PrefixesAreConsistent | src/contracts/innexq_contracts/case_review.py:59-80 | every prefix of a consistent log is the log of a consistent review |
| CaseReview.ClosureIsLast | src/contracts/innexq_contracts/case_review.py:29-38 | nothing follows a closure, and no case is acknowledged twice |
| CaseDesk.NextKeeps | src/api/innexq_api/case_review.py:69-105 | every step of reads and commits keeps the review invariant |
| CaseDesk.StoredIsReplay | src/api/innexq_api/certificate_store.py:271-322 | over all interleaved commands the stored review is the replay of its log, no event is earlier than the hold, and the event documents are that log |
| CaseDesk.ClosureIsFinal | src/api/innexq_api/case_review.py:69-105 | the log only grows and a closed case never changes |
| CaseDesk.CommandsApplyOnce | src/api/innexq_api/case_review.py:75-79 | a recorded command is in the log once for good, and a call that reuses its id returns only for the very same command |
| CaseDesk.OnlyAssignedOperationsAct | src/api/innexq_api/case_review.py:69-73 | over all runs every event of the log and every answer is by the configured Operations user of the configured tenant, on a case assigned to that user |
| CaseDesk.JudgedExactlyWhen | src/api/innexq_api/case_review.py:74-103 | exactly when a command leads to a review of one event more, by this caller at this moment, and exactly when it is a repetition |
| CaseDesk.AnswersAreKept | src/api/innexq_api/case_review.py:69-105 | every returned review is consistent, holds its command, and is continued by the stored log |
| CaseController.Controller.Scan | src/api/innexq_api/case_review.py:75-79 | the scan finds the first event with the command's id |
| CaseController.Controller.Consider | src/api/innexq_api/case_review.py:73-103 | the decision on a read review: repeated, refused, or one event more |
| CaseController.Controller.Act | src/api/innexq_api/case_review.py:69-105 | `act` under interference is one caller's part of a run; anyone but the configured Operations user is denied and changes nothing, and a returned review is of a case assigned to that user, holds the command and is stored |
| CaseController.Controller.Commit | src/api/innexq_api/certificate_store.py:271-322 | the review must bind to the held case and extend the stored one by one event |
| Decimals.FixIsFaithful | src/contracts/innexq_contracts/coverage_renewal.py:190-213 | rounding to a context leaves a value unchanged exactly when the digits it would lose are zeros |
| Decimals.HundredthIsExact | src/gateway/innexq_gateway/pricing.py:108-112 | dividing a short number by one hundred is exact and ends at most two digits below the ideal exponent |
| Pricing.AcceptedExactly | src/gateway/innexq_gateway/pricing.py:56-80 | exactly the nonnegative whole-cent amounts below ten to the 28 with at most 64 digits are accepted, each as its cents |
| Pricing.NetIsNearest | src/gateway/innexq_gateway/pricing.py:108-112 | the net is the nearest cent, half up, between zero and the annual value |
| Pricing.NetIsMonotone | src/gateway/innexq_gateway/pricing.py:108-112 | the net is monotone in the annual value and antitone in the discount |
| Pricing.NetIsRoundedOnce | src/gateway/innexq_gateway/pricing.py:108-112 | in the 64-digit context only the final rounding loses anything |
| Pricing.PricingIsExact | src/gateway/innexq_gateway/pricing.py:90-121 | pricing succeeds exactly on acceptable inputs, with net plus discount equal to the annual value and the role by the limit |
| Pricing.RepricingIsStable | src/gateway/innexq_gateway/pricing.py:90-121 | pricing a reported price again gives the same price |
| Pricing.AuthorityMatchesPricing | src/gateway/innexq_gateway/pricing.py:124-146 | only an account manager is authorized, exactly up to the limit at which pricing requires that role |
| Pricing.QuoteIsExact | src/gateway/innexq_gateway/coverage.py:221-250 | VAT is 24 per cent half up, the total is exact, and the quote is refused exactly when 28 digits cannot hold the total |
| Pricing.ShortTotalsFit | src/contracts/innexq_contracts/coverage_renewal.py:209-213 | totals below ten to the 28 cents are always accepted |
| Pricing.SomeTotalsDoNotFit | src/gateway/innexq_gateway/coverage.py:221-250 | an acceptable amount whose quote the contract refuses |
| Pricing.PreviewIsExact | src/contracts/innexq_contracts/coverage_renewal.py:216-245 | the one-line invoice preview of an issued quote is accepted exactly when 28 digits hold its base amount |
| CoveragePeriod.Period | src/gateway/innexq_gateway/coverage.py:253-269 | the clamping loop ends within four tried days at the same day or the last day of the target month, and in the constructor's overflow exactly when the target year is beyond 9999 |
| CoveragePeriod.NoDayAfterTheLastYear | src/gateway/innexq_gateway/coverage.py:253-269 | the loop can find a day if and only if the target year is at most 9999 |
| CoveragePeriod.EndIsMonthsLater | src/gateway/innexq_gateway/coverage.py:253-269 | the end is exactly that many months on, clamped, and after the start |
| CoveragePeriod.EndIsMonotone | src/gateway/innexq_gateway/coverage.py:253-269 | a later approval never ends earlier |
| CoveragePeriod.TwelveMonthsAreAYear | src/gateway/innexq_gateway/coverage.py:253-269 | twelve months are 365 days, or 366 when a leap day falls in between |
| CoveragePeriod.OrdinalOrders | src/gateway/innexq_gateway/coverage.py:253-269 | day numbers of the proleptic Gregorian calendar order the dates |

## Left out

- HTTP routing, Entra tokens, the Teams SDK, Graph, Foundry, MCP and ASGI transport: external calls succeed, fail or have an unknown outcome.
- SHA-256 and `json.dumps`: digests are free constructors, the serializer is library code.
- Language model behaviour and prompts: the agent is an arbitrary caller of tools and an arbitrary source of proposals.
- PDF, HTML and OCR rendering and parsing: rendering is a deterministic function of its inputs, represented by those inputs.
- The bodies of `evaluate_renewal_eligibility` and `evaluate_certificate`, and the checks of Run facts and citations against their files: oracles constrained by the decision contracts.
- `coverage_toolbox.py` and `coverage_team.py`: the broker machine already carries the coverage roles and tools; the second toolbox differs only in its argument shapes.
- The packet checks and output filters of the evidence team, and its streaming: a specialist's or coordinator's text is usable or not.
- `customer_status`, public progress, listings and projections: they read and reformat what the invariants already describe.
- Liveness: some crashes leave records parked, and nothing is claimed about eventual completion.
- Times of Run events and renewal updates are not modelled beyond the approval window, the certificate and review audit order and the outbox clock.
- Decimal exponent limits beyond the acceptance test, and the text forms of numbers: amounts enter as the sign, coefficient and exponent that the constructor reads.
- Note length, UUID spelling and timestamp syntax of case commands: the two implementations are compared on decoded events.
- The tenant of a Run's caller: together with the actor it is one identity that is the configured approver or not.
- EvidenceToolbox.ScopedEvidenceTools.Call: does not model the waiting for the lock, only that a queued call may be cancelled while this one is awaited.
