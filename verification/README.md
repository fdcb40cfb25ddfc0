# NodeSentinel: a verified model of the job queue and its validation protocol

NodeSentinel keeps validation jobs in a SQLite table and runs each of them as Kubernetes Jobs, surviving crashes of its
own process, expired leases, ambiguous API answers and an unreliable NodeVault. This project models that core in Dafny
and proves what it promises over every run.

Check everything with `dafny verify dfyconfig.toml`.

## What is modelled

**The jobs table** (`Rows`, `Histories`, `WorkStore`). One row carries the lease generation, the execution identity, the
terminal-submission slot and the delivery ledger. `Rows.Effect` gives what each store call does to a row, guard by guard
and column by column. A `History` is any interleaving of calls by any callers, stale ones included, with the clock value
each call read and the answer its caller saw; `Legal` says that every answer is the one the table gives at that point.
The class `WorkStores.WorkStore` is the imperative store: each method updates the rows in place and is proved to be
exactly one step of a legal history, so every theorem about legal histories holds of every use of the class.
The theorems are in `Leases`, `RetryBudget`, `ExecutionIdentities`, `Deliveries` and `Enqueue`.

**The worker and the cluster** (`Protocol`, `ProtocolSafety`, `ProtocolHypotheses`). A step machine over the row's
execution identity, the Kubernetes Jobs of one logical job (unfinished or ended) and the program counter of the attempt,
with a crash possible at every point, Jobs that end or vanish on their own, and Creates whose outcome is unknown. Safety
is proved under four named hypotheses, and each of them is proved necessary by a run that breaks safety without it.

**One attempt and all attempts of a job** (`Attempts`, `Findings`, `Kubernetes`, `NodeVault`, `Tracking`, `JobRuns`,
`Redelivery`, `FailurePolicy`).
`Attempts.Attempt` is `process` with every stage, poll loop and reporting function, written against the store class. The
process may die before any effect it has outside: what is left of its code then goes on computing without reaching the
store, the cluster or NodeVault. A ghost run of `Protocol`'s machine follows the attempt: every identity call and every
cluster call, and every change of the cluster by itself, extends it by a possible step; its row is the table's row, its
Jobs are those of the API server (`Kubernetes.ApiServer`), and its record of them is the server's own. So the machine's
safety becomes a statement about the server's Jobs (`JobRuns.RunJobThroughCrashes`).
The answers themselves are on record too: `Kubernetes.ApiServer` keeps every answer it gave, `NodeVault.VaultClient`
every submission with NodeVault's answer. What an attempt does is stated of the answer it heard: what becomes of the
job, of its execution identity and of its record. `Findings` names what an attempt can find out, which answer shows it,
its failure class, and whether the identity is released.

**Arithmetic and encodings** (`Retry`, `Timestamps`, `Normalization`, `Digits`, `Text`, `Fingerprint`, `JobNames`).

## Assumptions

- A store call is one atomic step: one pooled connection and BEGIN IMMEDIATE (pkg/work/sqlite/store.go:43-90). The
  re-read after the commit in LeaseJob and CreateJob is a separate `GetJob` step.
- The clock value of each call is a parameter. Nothing assumes that clocks are monotone.
- Worker names are not empty, as cmd/nodesentinel/main.go:254-264 guarantees. `Leases.EmptyWorkerReopens` shows what
  rests on it.
- Execution identities and claim tokens come from crypto/rand and never repeat.
- SHA-256 is injective, so a fingerprint is identified with its preimage. A byte is a `char`.
- Others, OtherWorkers, Elsewhere, Anything, Meanwhile, StoreError, ClaimError, Dies, Jitter and NewExecutionId are the
  environment: their contracts say all that may happen, their bodies are one instance, and every proof uses the contracts
  alone. Other workers use the same retry policy. The API server's own behaviour is `Kubernetes.ApiServer`, NodeVault's
  is `NodeVault.VaultClient`, and `Findings.Surroundings` holds what else is decided outside an attempt.
- The protocol's four hypotheses are spelled out at `Protocol.Hypotheses`; `Kubernetes.ApiServer` has those about Create
  built in. A Job object that is absent runs nothing.
- In `Attempts`, `alone` says that no other caller but the delivery loop touches the job, `claimsAnswered` that
  ClaimTerminal meets no store error, `answered` that no store call does, and `calm` all of this and no crash. Each
  result names the weakest of them under which the code gives it; what needs none is stated without.

## Where the code differs from its comments

- pkg/worker/failureclass.go:99-103 says that maxAttempts caps the number of leases. It caps requeues
  (`RetryBudget.MaxAttemptsDoesNotCapLeases`). A lease goes past it exactly when LeaseJob reclaims an expired lease of a
  row whose attempt has reached it (`RetryBudget.LeasePassesBudgetExactlyByReclaim`).
- pkg/work/sqlite/store.go:378-386 says that normalization only rewrites. A value at a zone offset that moves it out of
  the years 0 to 9999 is rewritten into text the next open refuses (`Normalization.ReopensExactlyInRange`).
- pkg/work/sqlite/store.go:711-715 and 738 say that the separator and the separate action fields prevent collisions. A
  request shares its fingerprint with no other exactly if it names no action and has no zero byte: every other request
  has a different partner, which has a zero byte in a field if the request itself has none
  (`Fingerprint.FingerprintIsUniqueExactly`). Between two requests without zero bytes there are no collisions
  (`Fingerprint.FingerprintIdentifiesRequest`).
- pkg/worker/worker.go:802-806 says that current names never match the legacy form. They can, exactly in the case of
  `JobNames.CurrentNameTakenForLegacy`, which no ingress id meets.
- pkg/worker/worker.go:524-531 wants every job to report a terminal record. A claimed slot is never released: the record
  is stored exactly if the winner itself marks it, so a winner that dies between its claim and its submission leaves a
  job without one (`Deliveries.FinishedWithoutRecord`, `Deliveries.RecordIsLostExactlyBySilence`), and no later attempt
  begins one (`Attempts.Attempt.Process`).

## Model

| member | source | states |
|---|---|---|
| `ProtocolSafety.EveryStepIsSafe` | pkg/worker/worker.go:155-222 | In every run with crashes anywhere, a Job takes effect only while every other Job of that logical job, legacy ones included, has ended, and an identity is released only when nothing under it executes |
| `ProtocolSafety.AtMostOneExecution` | pkg/worker/worker.go:577-735 | Once an identity was minted, two unfinished Jobs of a logical job are the same Job |
| `ProtocolSafety.SpentIdentityNeverRunsAgain` | pkg/work/sqlite/store.go:1431-1464 | A released or replaced identity stays so in every continuation and nothing executes under it again |
| `ProtocolSafety.ReachableStatesAreSafe` | pkg/worker/worker.go:108-263 | The protocol invariant holds in every reachable state |
| `ProtocolSafety.StepKeepsInvariant` | pkg/worker/worker.go:577-795 | Every step of worker, cluster or crash keeps the invariant |
| `ProtocolSafety.CreateIsAlone` | pkg/worker/l5a.go:117-160 | Wherever a Create is issued, every Job but its own has ended |
| `ProtocolSafety.CreateKeepsInvariant` | pkg/worker/worker.go:690-735 | A Create of any answer, ambiguous ones included, keeps cluster, row and attempt consistent |
| `ProtocolSafety.EnsureKeepsInvariant` | pkg/work/sqlite/store.go:1355-1403 | Minting or adopting an identity keeps them consistent, even if a committed mint is reported as an error |
| `ProtocolSafety.ReportKeepsInvariant` | pkg/worker/worker.go:834-846 | Releasing an identity keeps them consistent |
| `ProtocolSafety.GetKeepsInvariant` | pkg/worker/l5a.go:286-329 | Every reaction to a poll keeps them consistent |
| `ProtocolSafety.HousekeepingKeepsInvariant` | pkg/worker/worker.go:759-797 | Retiring legacy Jobs and confirming deletions keeps them consistent |
| `ProtocolHypotheses.HypothesesAreExact` | pkg/work/sqlite/store.go:96-146 | Executions can overlap if and only if at least one of the four hypotheses is dropped |
| `ProtocolHypotheses.StalledAttemptCollides` | pkg/worker/worker.go:75-106 | Without a single live attempt, a stalled Create lands beside a newer execution |
| `ProtocolHypotheses.UnsettledCreateCollides` | pkg/worker/worker.go:718-730 | Without settled Creates, an ambiguous one lands beside a newer execution |
| `ProtocolHypotheses.FalseRejectionCollides` | pkg/worker/l5a.go:129-137 | Without honest rejections, an adopted identity is released while its Job runs |
| `ProtocolHypotheses.ChangedClientCollides` | pkg/worker/worker.go:196-222 | With a changed vault-client setting, L4 is repeated beside a running L5-a Job |
| `Attempts.Attempt.Process` | pkg/worker/worker.go:108-263 | In a calm run the job is requeued, failed or completed, and the API server's last answer decides which: a refused dry run, Create or unreadable Job requeues until attempts run out, a failed Job as its Pods are classified, a vanished one as UNKNOWN. The identity is released, so not adoptable again, after a Job that ended or is gone, a refused dry run, and a Create refused for a fresh identity; it is kept after an unreadable Job or one not seen gone. With a vault client and a free slot: exactly the records of that ending, one non-terminal record for a requeue, one terminal record for a finish, accepted or stored. In any run: no POST and no slot claim after a confirmed lease loss. With slot claims answered: at most one terminal record, and none if another attempt holds the slot. Undisturbed, with crashes and store errors anywhere: it continues the protocol machine's run, whose row is the table's row and whose Jobs, now and on record, are the API server's |
| `Attempts.Attempt.SingleAnswers` | pkg/worker/worker.go:108-263 | What follows for identity and ending from the last answer alone |
| `Attempts.Attempt.FailWith` | pkg/worker/failureclass.go:165-209 | A calm attempt that failed at L3 or L4 requeues or fails the job at that stage as the finding's class says, leaving the identity as the stage left it |
| `Attempts.Attempt.FinishAfterL4` | pkg/worker/worker.go:282-353 | Completes the job with the records of the planned L5 stages, the last of them its one terminal record; a lost lease stops it |
| `Attempts.Attempt.RunSmokeRun` | pkg/worker/worker.go:577-677 | What it returns is what the API server answered last, with that finding's failure class; in a calm run the identity is released exactly if the Job ended or is gone or its first Create was refused; no terminal record is touched and the protocol machine's run is continued; if its context ends, every heartbeat tick before was answered with a heartbeat and every poll tick with a Get |
| `Attempts.Attempt.PollSmokeJob` | pkg/worker/worker.go:626-676 | Answer by answer: Complete succeeds, Failed, unreadable, and missing after it was seen fail, no condition goes on, missing and never seen creates it; in a calm run the row is released or kept accordingly |
| `Attempts.Attempt.ReleaseAfter` | pkg/worker/worker.go:650-674 | After a poll the identity is released exactly if the Job ended or is gone, and kept after a success on which L5-a follows |
| `Attempts.Attempt.ContextEnds` | pkg/worker/worker.go:606-622 | At the end of the context the identity is released exactly if the Job is confirmed gone |
| `Attempts.Attempt.MarkTerminal` | pkg/worker/worker.go:834-846 | In a calm run the row is released under its own id; a store error is only logged |
| `Attempts.Attempt.RunL3L4` | pkg/worker/worker.go:227-262 | The dry run is made exactly for a fresh identity and its refusal releases it; then the smoke-run, with its finding, class and release |
| `Attempts.Attempt.CreateSmokeJob` | pkg/worker/worker.go:690-735 | A Job exists under the name afterwards, or the attempt fails as TRANSIENT_INFRA: refused, which releases the identity exactly if it is a fresh one, or never settled; the store is touched only in that one case |
| `Attempts.Attempt.RetireLegacy` | pkg/worker/worker.go:759-797 | Success means that every listed legacy Job was confirmed gone with the lease still held; a failure was heard from the list, a re-read or a deletion |
| `Attempts.Attempt.DeleteAndConfirmGone` | pkg/worker/worker.go:941-960 | Reports gone only when no Job of that name exists, and exactly if the one deletion was accepted and the last poll saw it gone; until then it polls as often as the wait allows |
| `Attempts.Attempt.Create` | pkg/worker/worker.go:695-734 | A Create that a living process sends is the last step of the machine's run, with the answer it got |
| `Attempts.Attempt.CallCreate` | pkg/worker/worker.go:695-734 | The API server's Jobs and the machine's change together |
| `Attempts.Attempt.Get` | pkg/worker/worker.go:626-662 | A Get by a living process is the last step of the machine's run, with the answer it got |
| `Attempts.Attempt.JobMoves` | pkg/worker/worker.go:586-597 | A Job that ends or disappears extends the run by exactly that step |
| `Kubernetes.ApiServer.Create` | pkg/worker/worker.go:690-735 | The answer is one the Jobs allow, the Jobs change as it says or, unheard, not at all or by that one Job, and Jobs and answer are recorded |
| `Kubernetes.ApiServer.Get` | pkg/worker/worker.go:976-986 | The answer is one the Jobs allow, and recorded |
| `Kubernetes.ApiServer.Absent` | pkg/worker/worker.go:941-960 | A poll that says gone is right, and every poll is recorded |
| `NodeVault.VaultClient.Post` | pkg/worker/l5a.go:427-438 | Every submission is on record with NodeVault's answer |
| `Kubernetes.ApiServer.List` | pkg/worker/worker.go:759-773 | A list that succeeds names every Job once and nothing else |
| `Kubernetes.ApiServer.Passes` | pkg/worker/worker.go:586-597 | By itself, one Job ends or one object disappears, and the record grows |
| `Attempts.Attempt.RunL5a` | pkg/worker/l5a.go:103-195 | Whatever happens to the Job, a non-terminal record of the stage is begun unless the lease was lost or the process died; asked for a terminal one in a calm run with a free slot, exactly that one is begun; what it finds out is what the API server answered last, and releases the identity accordingly |
| `Attempts.Attempt.CreateL5aJob` | pkg/worker/l5a.go:117-160 | A Job exists under the name afterwards, or L5-a ends: refused, which releases the identity, or never settled after every reconciliation the context allows, which keeps it |
| `Attempts.Attempt.ValidateL5a` | pkg/worker/l5a.go:103-195 | Ends on what the API server answered last, releasing or keeping the identity accordingly; a Create of unknown outcome is given up only after every reconciliation the context allows |
| `Attempts.Attempt.ReconcileL5aCreate` | pkg/worker/l5a.go:197-232 | It finds a Job exactly if its last Create was answered created or already exists; otherwise it issued three Creates, or as many as fit before the context ended, one at least |
| `Attempts.Attempt.WaitL5aJob` | pkg/worker/l5a.go:286-329 | Ends L5-a on what the API server answered last, unless the lease was lost, releasing the identity exactly if the Job ended or is confirmed gone; no terminal record is touched; if its context ends, every heartbeat tick before was answered with a heartbeat and every poll tick with a Get |
| `Attempts.Attempt.PollL5aJob` | pkg/worker/l5a.go:286-329 | Answer by answer: a Job that ended releases the identity, one that is missing or unreadable ends the wait and keeps it |
| `Attempts.Attempt.StageL5b` | pkg/worker/l5b.go:34-150 | With a vault client, one terminal record is begun on every path |
| `Attempts.Attempt.SubmitRecord` | pkg/worker/l5a.go:384-438 | Lease, then slot, then POST, one heartbeat before; a failed terminal POST is stored; a non-terminal record is begun unless the lease was lost or the process died; nothing is begun after a loss |
| `Attempts.Attempt.Submit` | pkg/worker/l5a.go:427-438 | The POST begun is what the client sent, with its answer; a terminal one is begun only by a winner of the slot that has begun none yet; a dead process begins none |
| `Attempts.Attempt.ClaimSlotFor` | pkg/worker/worker.go:536-549 | A free slot is won for this worker and attempt; an answered claim lets only a new winner go on |
| `Attempts.Attempt.RecordFirstFailure` | pkg/worker/delivery.go:108-121 | The slot owner's payload and NodeVault's error are stored: for redelivery after a retryable error, as a dead letter after a permanent one |
| `Attempts.Attempt.SendFirstMark` | pkg/worker/delivery.go:108-121 | The winner's mark leaves payload and error in the ledger: pending and due 10 seconds to 5 minutes later after a retryable answer, a dead letter after a permanent one |
| `Attempts.Attempt.FailAt` | pkg/worker/worker.go:441-470 | Requeues exactly the failures the policy requeues and fails the job otherwise; with a vault client one record of that stage is sent either way, terminal exactly if the job fails |
| `Attempts.Attempt.SendFailure` | pkg/work/sqlite/store.go:942-993 | In a calm run FailJob is accepted and touches no terminal record; after a loss it is refused |
| `Attempts.Attempt.SendCompletion` | pkg/work/sqlite/store.go:932-940 | In a calm run CompleteJob is accepted and touches no terminal record; after a loss it is refused |
| `Attempts.Attempt.Beat` | pkg/worker/worker.go:377-394 | Only ErrNotFound marks the lease lost, and then the generation is dead in the table; with the store answering, one heartbeat is sent |
| `Attempts.Attempt.SendBeat` | pkg/worker/worker.go:373-391 | The heartbeat asks for two more minutes under this attempt's generation |
| `Attempts.Attempt.StillLeased` | pkg/worker/worker.go:396-402 | Answers whether no loss was confirmed; a loss is never forgotten |
| `Attempts.Attempt.Identify` | pkg/worker/worker.go:170-198 | The attempt continues under the adopted or freshly minted identity, or fails |
| `Attempts.Attempt.SlotBoundsRecords` | pkg/worker/worker.go:519-549 | An attempt has begun at most one terminal record, and none if it found the slot claimed by another |
| `Attempts.PlanStages` | pkg/worker/worker.go:865-886 | L5-a and L5-b run for no actions, exactly for profile and for security_scan otherwise; an error exactly for an unknown action |
| `Attempts.AfterLeaseReport` | pkg/work/sqlite/store.go:904-1019 | A granted generation's report is accepted exactly while it holds the lease; a refusal means that it is dead for good |
| `Tracking.EnsureMatches` | pkg/work/sqlite/store.go:1355-1403 | EnsureExecution in the store is the mint or adoption of the protocol machine |
| `Tracking.ReportMatches` | pkg/work/sqlite/store.go:1431-1464 | MarkExecutionTerminal in the store is the release of the protocol machine |
| `Tracking.TrackMove` | pkg/worker/worker.go:577-795 | Every other call of the worker is a step of the machine that leaves the row alone |
| `Tracking.TrackCreate` | pkg/worker/worker.go:690-735 | A Create is the machine's Create, with the same effect on the Jobs |
| `Tracking.TrackCluster` | pkg/worker/worker.go:586-597 | A Job that ends or disappears is the machine's step |
| `Tracking.RecordNeverOverlaps` | pkg/worker/worker.go:155-222 | In the record of a possible run no Job takes effect while another is unfinished |
| `Tracking.TrackedJobsAreSafe` | pkg/worker/l5a.go:117-160 | With an identity at most one Job is unfinished, and with a released one none |
| `Tracking.OwnFailureFollowsPolicy` | pkg/worker/failureclass.go:165-209 | A failure reported with decideRetry's verdict on the leased row and RetryDelay's delay follows the retry policy and its pace |
| `JobRuns.RunJob` | pkg/worker/worker.go:75-106 | Over any number of calm attempts, a finished job has exactly one terminal record, accepted or stored as NodeVault answered, and a queued job has none; what was sent is what the client sent; failures follow the retry policy and its pace; no two Kubernetes Jobs overlap |
| `JobRuns.RunJobThroughCrashes` | pkg/worker/worker.go:75-106 | Over any number of attempts, each dying at any point and meeting any store error before or after its effect: in the API server's record no Job took effect beside an unfinished one; two unfinished Jobs are one Job once the row has an identity; none is unfinished once it is released; and the attempts continue the machine's run on this row and these Jobs |
| `JobRuns.RunJobAnyhow` | pkg/worker/worker.go:519-549 | Over any number of attempts, with crashes, lease losses, store errors and other workers' store calls at any time, as long as ClaimTerminal is answered: these attempts begin at most one terminal record, and at most maxAttempts-1 requeues happen |
| `JobRuns.UnidentifiedJobIsBetween` | pkg/worker/worker.go:155-168 | A row without an identity, with any legacy Jobs in the cluster, is where such a run begins |
| `JobRuns.TimePasses` | pkg/worker/worker.go:586-597 | Between attempts Jobs end or disappear, and the run is continued by just that |
| `JobRuns.Turn` | pkg/worker/worker.go:75-106 | One turn of the loop keeps that, and never touches a finished job |
| `JobRuns.TerminalsConcat` | pkg/worker/worker.go:503-517 | Terminal records of successive attempts add up |
| `Redelivery.RedeliverOne` | pkg/worker/delivery.go:219-269 | Posts exactly the payload the slot's winner stored, once, or nothing if it cannot be decoded; the outcome takes effect exactly while its claim is the newest change of the ledger, whatever others did meanwhile: acknowledged after NodeVault accepted it, a dead letter after a permanent error or if undecodable, and after a retryable error pending with payload and error kept, the attempt counted, and claimable exactly from the end of its backoff on |
| `Redelivery.ResolveRedelivery` | pkg/worker/delivery.go:126-139 | One outcome with the error's text: a dead letter exactly for an undecodable payload or a permanent error, otherwise the next try between the base backoff and five minutes away |
| `Redelivery.TokenNamesItsClaim` | pkg/work/sqlite/store.go:1199-1219 | A ledger that carries a claim's token is still in that claim's state |
| `FailurePolicy.DecideRetryPolicy` | pkg/worker/failureclass.go:183-209 | Which failures are requeued, class by class; a requeued UNKNOWN leaves the marker; the reason is kept |
| `RetryBudget.RequeuesAreBounded` | pkg/worker/failureclass.go:99-116 | At most maxAttempts-1 requeues and maxAttempts/2 UNKNOWN ones, with any number of reclaims |
| `RetryBudget.BudgetIsReached` | pkg/worker/failureclass.go:139-150 | Both bounds are attained by some run, for every maxAttempts |
| `RetryBudget.UnknownIsNeverRequeuedTwiceInARow` | pkg/worker/failureclass.go:131-151 | No two successive requeues are both UNKNOWN |
| `RetryBudget.ExhaustedFailureIsFinal` | pkg/worker/failureclass.go:195-206 | A failure accepted at attempt maxAttempts or later fails the job |
| `RetryBudget.MarkerStays` | pkg/worker/failureclass.go:131-151 | The marker of a requeued UNKNOWN is in the row until the next outcome |
| `RetryBudget.SnapshotIsCurrent` | pkg/worker/failureclass.go:170-174 | What the worker read at its lease is still in the row while the lease is held |
| `RetryBudget.LeaseAccounting` | pkg/work/sqlite/store.go:876-881 | Leases are requeues plus reclaims plus the one not requeued |
| `RetryBudget.LeasePassesBudgetExactlyByReclaim` | pkg/work/sqlite/store.go:852-881 | A lease goes past maxAttempts if and only if it reclaims an expired lease of a row whose attempt has reached maxAttempts |
| `RetryBudget.QueuedIsUnderBudget` | pkg/worker/failureclass.go:183-209 | Under the policy a queued job always has attempt below maxAttempts |
| `RetryBudget.SnapshotStays` | pkg/worker/failureclass.go:170-174 | What a lease was read with stays the same until the next lease |
| `RetryBudget.LeasesAreBoundedUpToReclaims` | pkg/worker/failureclass.go:99-103 | A job is leased at most maxAttempts plus reclaims times |
| `RetryBudget.RequeuedJobWaits` | pkg/worker/failureclass.go:165-174 | A job requeued at attempt n can be leased only once half of attempt n's backoff cap has passed since, and whenever the whole cap has |
| `RetryBudget.MaxAttemptsDoesNotCapLeases` | pkg/worker/failureclass.go:99-103 | For every maxAttempts some run leases the job more often |
| `Leases.AttemptCountsGrants` | pkg/work/sqlite/store.go:876-881 | attempt is the number of leases granted; a held lease is the newest one's |
| `Leases.StaleGenerationIsFenced` | pkg/work/sqlite/store.go:904-1019 | A report of an older generation, under any worker name, is refused and changes nothing |
| `Leases.AcceptedReportIsTheHolders` | pkg/work/sqlite/store.go:904-1019 | Only the newest generation's holder, while it holds, has a report accepted |
| `Leases.FinishedIsAbsorbing` | pkg/work/sqlite/store.go:995-1019 | succeeded and failed never change, although their guards look at no status |
| `Leases.EmptyWorkerReopens` | cmd/nodesentinel/main.go:254-264 | A finished row is reopened exactly by the empty worker name and its own attempt |
| `Leases.ConfirmedLossIsFinal` | pkg/work/sqlite/store.go:904-928 | After a refused heartbeat no report of that generation is ever accepted or changes anything |
| `Leases.DeadStaysDead` | pkg/worker/worker.go:357-375 | A generation that no longer matches the row never matches it again |
| `Leases.GrantedWasCounted` | pkg/work/sqlite/store.go:876-881 | A granted generation has a number between 1 and the count of grants; the newest number is its holder's |
| `Leases.LastLeaseEventMirrors` | pkg/work/sqlite/store.go:852-993 | The lease columns are what the newest accepted lease call wrote |
| `Leases.LeasableExactly` | pkg/work/sqlite/store.go:852-872 | LeaseJob may hand out a row if and only if nothing leased it yet, its written deadline has strictly passed, or its requeue's delay is over |
| `Leases.RowTellsTheOutcome` | pkg/work/sqlite/store.go:932-1019 | last_error and result_summary are those of the newest accepted outcome |
| `Leases.GrantsAreSeparated` | pkg/work/sqlite/store.go:852-899 | Two grants are separated by the holder's last deadline strictly passing, or its own requeue and delay |
| `Leases.UnfinishedJobsAreNotStranded` | pkg/work/sqlite/store.go:852-872 | Every unfinished job is leasable at all late enough times; a finished one never |
| `Leases.GrantTakesOne` | pkg/work/sqlite/store.go:852-899 | A lease removes its job, an oldest one, and no other from the eligible set |
| `Leases.GrantTakesTheEarliestCreated` | pkg/work/sqlite/store.go:852-872 | A lease takes a job whose CreateJob call read no later clock value than that of any other eligible job |
| `Leases.DrainHandsOutEveryEligibleJob` | pkg/work/sqlite/store.go:840-899 | Repeated leases at one instant hand out each eligible job once, in the order of the accepted CreateJob calls' clock values, before none is available |
| `ExecutionIdentities.RowHoldsNewestIdentity` | pkg/work/sqlite/store.go:1355-1403 | The row holds the newest of pairwise distinct identities; its flag says that this id was reported while current |
| `ExecutionIdentities.MintFollowsReport` | pkg/work/sqlite/store.go:1370-1403 | A second identity is minted only after the one before was reported by its own id |
| `ExecutionIdentities.EveryReplacedIdentityWasReported` | pkg/work/sqlite/store.go:1355-1464 | Every identity a job ever had but the newest was reported while current |
| `ExecutionIdentities.CallersShareTheIdentity` | pkg/work/sqlite/store.go:1355-1403 | All callers between two mints get the same id; adoption happens exactly for a live one |
| `ExecutionIdentities.StaleReportReleasesNothing` | pkg/work/sqlite/store.go:1431-1464 | A report about another id changes nothing and is told apart from an unknown job |
| `Deliveries.OnlyDocumentedEdges` | pkg/work/store.go:78-95 | Every change of a ledger follows an edge of the documented graph |
| `Deliveries.ResolvedLedgerIsFinal` | pkg/work/store.go:90-95 | Acknowledged and DeadLetter ledgers never change |
| `Deliveries.OutcomeNeedsTheNewestClaim` | pkg/work/sqlite/store.go:1123-1181 | An outcome is accepted exactly under the token of the newest ledger change; refused ones change nothing |
| `Deliveries.TokenResolvesAtMostOnce` | pkg/work/sqlite/store.go:1123-1181 | Over the whole run each token resolves at most once |
| `Deliveries.LiveTokenIsUnique` | pkg/work/sqlite/store.go:1199-1219 | A live token is in one row and nothing was resolved under it |
| `Deliveries.LastLedgerEventMirrors` | pkg/work/sqlite/store.go:1084-1297 | The ledger's state, payload, error, token and deadlines are what its newest change wrote |
| `Deliveries.ClaimsAreSeparated` | pkg/work/sqlite/store.go:1228-1291 | A claim is replaced only strictly after its expiry or after its holder resolved it |
| `Deliveries.PendingDeliveriesAreNotStranded` | pkg/work/sqlite/store.go:1228-1236 | Pending and Delivering rows are claimable at all late enough times, others never |
| `Deliveries.ClaimableExactly` | pkg/work/sqlite/store.go:1228-1236 | A row is due if and only if its newest mark's retry time has come or its newest claim has strictly expired |
| `Deliveries.BatchTakesTheLongestUntouched` | pkg/work/sqlite/store.go:1228-1236 | A due row is left out of a batch only if the limit is used up by rows whose newest write was no later |
| `Deliveries.ClaimsReachEveryDueDelivery` | pkg/work/sqlite/store.go:1221-1297 | Repeated claims at one instant hand out every due delivery exactly once before one comes back empty |
| `Deliveries.SlotIsWonOnce` | pkg/work/sqlite/store.go:1308-1335 | At most one attempt ever wins the slot, and the row names it |
| `Deliveries.FirstMarkNeedsTheSlot` | pkg/work/sqlite/store.go:1078-1121 | A first mark is accepted exactly from the slot's winner and only once |
| `Deliveries.RecordIsLostExactlyBySilence` | pkg/work/sqlite/store.go:1308-1335 | From the claim on, nothing is stored for delivery if and only if the winner sends no mark; the slot is never won again |
| `Deliveries.FinishedWithoutRecord` | pkg/worker/worker.go:519-549 | A run in which the slot's winner dies, a second attempt completes the job, and no record is stored |
| `Deliveries.SlotStays` | pkg/work/sqlite/store.go:1308-1335 | A claimed slot is never released or taken over |
| `Deliveries.WinsAmongAreWins` | pkg/work/sqlite/store.go:1308-1335 | The wins of any set of generations are bounded by the slot's wins, and are the winner's own |
| `Deliveries.PayloadIsConserved` | pkg/work/sqlite/store.go:1084-1181 | The stored payload survives until acknowledged; attempts counts the accepted marks |
| `Deliveries.FiledDeadLetterStays` | pkg/work/sqlite/store.go:1103-1121 | A record filed as a dead letter stays one with its payload and error |
| `Deliveries.RedeliveryCarriesTheStoredPayload` | pkg/work/sqlite/store.go:1221-1297 | Every claimed row carries exactly the payload the winner stored |
| `Deliveries.DeliveryAndLeaseAreIndependent` | pkg/work/sqlite/store.go:904-1464 | Lease and execution calls leave slot and ledger alone, delivery calls lease and identity |
| `Enqueue.RequestIdIsUnique` | pkg/work/sqlite/store.go:754-821 | A non-empty validation_request_id owns at most one row |
| `Enqueue.CreatedJobHoldsTheRequest` | pkg/work/sqlite/store.go:754-821 | A successful call's job holds its key and fingerprint from then on |
| `Enqueue.EnqueueIsIdempotent` | pkg/work/store.go:66-71 | All successful calls with one key, anywhere in a run, name one job and one request |
| `Enqueue.RepeatedRequestIsDecided` | pkg/work/sqlite/store.go:798-821 | A repeated key returns the owner for the same request, a conflict for another, and changes nothing |
| `Histories.ReachableRowsAreValid` | pkg/work/sqlite/store.go:833-1464 | The row invariant in every reachable row: owner, deadline, token, slot and key columns agree |
| `Histories.RowInvariantKept` | pkg/work/sqlite/store.go:833-1464 | Every call of any caller keeps it |
| `Histories.RowsPersist` | pkg/work/sqlite/store.go:754-821 | Rows are never deleted and what they were created with never changes |
| `Histories.RowRemembersItsCreation` | pkg/work/sqlite/store.go:754-821 | created_at is the clock value of the one accepted CreateJob call for that job_id, and request, key and fingerprint are that call's |
| `Histories.RowRemembersItsLastWrite` | pkg/work/sqlite/store.go:754-1464 | updated_at is the clock value of the newest call that wrote to the row |
| `WorkStores.WorkStore.CreateJob` | pkg/work/sqlite/store.go:754-821 | Is the Create step: insert, existing, conflict or primary-key error, as the table decides |
| `WorkStores.WorkStore.LeaseJob` | pkg/work/sqlite/store.go:833-899 | Is the Grant step on an oldest eligible job, or finds none |
| `WorkStores.WorkStore.Heartbeat` | pkg/work/sqlite/store.go:904-928 | Is the Heartbeat step under its fence |
| `WorkStores.WorkStore.CompleteJob` | pkg/work/sqlite/store.go:932-940 | Is the Complete step under its fence |
| `WorkStores.WorkStore.FailJob` | pkg/work/sqlite/store.go:942-1019 | Is the Fail step, requeuing or final, each under its own fence |
| `WorkStores.WorkStore.EnsureExecution` | pkg/work/sqlite/store.go:1355-1403 | Adopts, mints, or changes nothing on an unknown job or a failed mint |
| `WorkStores.WorkStore.MarkExecutionTerminal` | pkg/work/sqlite/store.go:1431-1464 | Is the report step with its four answers |
| `WorkStores.WorkStore.ClaimTerminal` | pkg/work/sqlite/store.go:1308-1335 | Is the slot step; tells an unknown job from a taken slot |
| `WorkStores.WorkStore.MarkFirstDeliveryPending` | pkg/work/sqlite/store.go:1084-1101 | Is the first pending mark under the slot's fence |
| `WorkStores.WorkStore.MarkFirstDeliveryDeadLetter` | pkg/work/sqlite/store.go:1103-1121 | Is the first dead-letter mark under the slot's fence |
| `WorkStores.WorkStore.MarkResultDeliveryPending` | pkg/work/sqlite/store.go:1131-1149 | Is the redelivery failure under the claim token |
| `WorkStores.WorkStore.MarkResultDeliveryAcknowledged` | pkg/work/sqlite/store.go:1151-1167 | Is the acknowledgement under the claim token |
| `WorkStores.WorkStore.MarkResultDeliveryDeadLetter` | pkg/work/sqlite/store.go:1169-1181 | Is the dead letter under the claim token |
| `WorkStores.WorkStore.ClaimPendingDeliveries` | pkg/work/sqlite/store.go:1221-1297 | Every due row if the limit does not bind, exactly limit of them if it does, distinct, oldest update first, each now delivering under its own new token with payload and attempts kept, none left out older than one taken, every other row unchanged; rolled back exactly when some token of the batch cannot be minted |
| `WorkStores.WorkStore.ClaimEach` | pkg/work/sqlite/store.go:1266-1291 | The UPDATE loop has the effect of one claim on the whole batch |
| `WorkStores.Oldest` | pkg/work/sqlite/store.go:852-872 | A candidate with the least key |
| `WorkStores.OldestFirstUpTo` | pkg/work/sqlite/store.go:1228-1236 | The n candidates with the least keys, distinct and in order |
| `Fingerprint.RequestFingerprint` | pkg/work/sqlite/store.go:716-741 | The field-by-field loop feeds the hash the specified preimage |
| `Fingerprint.FingerprintLayout` | pkg/work/sqlite/store.go:716-741 | The preimage is the seven fields in order, the sorted actions and the fixture set, a zero byte after each |
| `Fingerprint.FingerprintIgnoresActionOrder` | pkg/work/sqlite/store.go:716-741 | Reordering the actions changes nothing |
| `Fingerprint.FingerprintIdentifiesRequest` | pkg/work/sqlite/store.go:716-741 | Without zero bytes, equal fingerprints if and only if the same request up to action order |
| `Fingerprint.JoinIsInjective` | pkg/work/sqlite/store.go:716-741 | The separator makes zero-free field lists uniquely decodable |
| `Fingerprint.NulFieldsCollide` | pkg/work/sqlite/store.go:736-739 | Every request without actions that has a zero byte in a field shares its fingerprint with a different request |
| `Fingerprint.ActionsCollide` | pkg/work/sqlite/store.go:734-739 | Every request with an action shares its fingerprint with a different one: the first action moved behind a zero byte into the CAS hash |
| `Fingerprint.PlainRequestIsAlone` | pkg/work/sqlite/store.go:716-741 | A request without actions and zero bytes shares its fingerprint with no other |
| `Fingerprint.FingerprintIsUniqueExactly` | pkg/work/sqlite/store.go:716-741 | A request's fingerprint is its own, up to action order, if and only if it names no action and has no zero byte |
| `Fingerprint.CollidingPair` | pkg/work/sqlite/store.go:734-739 | The action smoke_run, and the same text behind the CAS hash, hash alike |
| `Fingerprint.SeparatorsCount` | pkg/work/sqlite/store.go:736-739 | The preimage has as many zero bytes as fields exactly when no field contains one |
| `Text.SortStringsSorts` | pkg/work/sqlite/store.go:717-721 | sort.Strings yields a sorted permutation |
| `Text.SortedIsUnique` | pkg/work/sqlite/store.go:717-721 | A multiset of strings has one sorted arrangement |
| `RetryPacing.RetryDelay` | pkg/work/retry.go:30-40 | The doubling loop is min(30s, 1s*2^(attempt-1)) for every attempt, stays in int64, and the delay is in [cap/2, cap] |
| `RetryPacing.CapSaturates` | pkg/work/retry.go:30-40 | Once past the maximum the schedule stays at it |
| `RetryPacing.RetrySchedule` | pkg/work/retry.go:12-40 | The caps are 1, 2, 4, 8, 16 and then 30 seconds |
| `DeliveryBackoff.BackoffDuration` | pkg/worker/delivery.go:47-69 | The clamped shift equals the unclamped schedule, the overflow guard is dead, the total is between base and 300s and exactly 300s from the sixth attempt on |
| `DeliveryBackoff.ClampedShiftAgrees` | pkg/worker/delivery.go:47-69 | Clamping the shift changes no result and the product stays in int64 |
| `DeliveryBackoff.BaseSaturates` | pkg/worker/delivery.go:47-69 | The schedule is flat from the sixth attempt on |
| `DeliveryBackoff.BackoffSchedule` | pkg/worker/delivery.go:17-69 | The bases are 10, 20, 40, 80, 160 and then 300 seconds |
| `Timestamps.TextOrderIsTimeOrder` | pkg/work/sqlite/store.go:23-33 | For years 0 to 9999, byte order of the text is time order and equal texts are equal instants |
| `Timestamps.ParseInvertsFormat` | pkg/work/sqlite/store.go:26-33 | Reading back what was written gives the same instant exactly for years 0 to 9999 and an error otherwise |
| `Timestamps.TrimmedTextIsRead` | pkg/work/sqlite/store.go:26-30 | The trimmed form of earlier binaries, at any zone offset, is read as the instant it names |
| `Timestamps.CivilOfIsInverse` | pkg/work/sqlite/store.go:33-33 | Every instant has exactly one UTC date and time |
| `Timestamps.CivilOrder` | pkg/work/sqlite/store.go:23-30 | Dates and times compare field by field as their instants do |
| `Normalization.TimestampTable.NormalizeTimestamps` | pkg/work/sqlite/store.go:387-403 | Succeeds exactly when every populated value parses; then every value is canonical, otherwise nothing changed |
| `Normalization.NormalizeColumn` | pkg/work/sqlite/store.go:411-422 | Rewrites one column to canonical text, or fails exactly on an unreadable value |
| `Normalization.NonCanonicalTimestamps` | pkg/work/sqlite/store.go:426-455 | Collects a fix for every non-canonical value and for no other row |
| `Normalization.InstantsAreKept` | pkg/work/sqlite/store.go:378-386 | A cell names an instant after normalization exactly when it did before |
| `Normalization.NormalizationIsIdempotent` | pkg/work/sqlite/store.go:378-386 | A second open changes nothing |
| `Normalization.ReopensExactlyInRange` | pkg/work/sqlite/store.go:378-386 | A normalized table is readable again exactly when every instant has a four-digit UTC year |
| `Normalization.OutOfRangeOffsetIsNotReopened` | pkg/work/sqlite/store.go:378-386 | Every text whose offset leaves the four-digit years is accepted once and refused after its rewrite |
| `Normalization.OffsetIntoYearMinusOne` | pkg/work/sqlite/store.go:378-386 | 0000-01-01T00:00:00+01:00 is such a text |
| `Normalization.StoredTextSortsByTime` | pkg/work/sqlite/store.go:23-30 | After normalization, comparing stored texts compares instants |
| `JobNames.SanitizeDnsLabelMax` | pkg/worker/jobspec.go:136-152 | The byte loop maps each byte and cuts to the limit |
| `JobNames.CurrentNamesAreLabels` | pkg/worker/jobspec.go:100-122 | For every job id and attempt below 10^8 both names are DNS labels; a long id's smoke name exactly then |
| `JobNames.CurrentNamesAreDistinct` | pkg/worker/jobspec.go:100-104 | Names are equal if and only if kind and identity are |
| `JobNames.DistinctSuffixesGiveDistinctIds` | pkg/work/sqlite/store.go:1411-1417 | Distinct random suffixes give distinct identities whatever the attempts |
| `JobNames.LegacyNamesAreRecognised` | pkg/worker/worker.go:812-823 | Every legacy name is recognised |
| `JobNames.CurrentNameTakenForLegacy` | pkg/worker/worker.go:812-823 | A current name is taken for a legacy one if and only if the id goes on with this identity's stem and the suffix is all digits |
| `JobNames.ConfusableId` | pkg/worker/worker.go:812-823 | Such an id exists |
| `JobNames.IngressNamesAreNeverLegacy` | pkg/ingress/server.go:77-88 | No current name of an ingress id, or of any id without a dash after its 30th character, is taken for a legacy one |

## Left out

- SQL text, schema creation, column migrations, the writer-lock pragmas and the directory write probe: behaviour of SQLite; only the atomic-step and single-process assumptions are used.
- Rows written by earlier binaries: store runs start from an empty table, so migrated rows without slot owner or claim token are not covered; legacy Kubernetes Jobs are.
- Ties in ORDER BY: the model allows any order among equal keys.
- The int64 range of time values: instants and durations are unbounded except in the two backoff functions.
- Kubernetes, HTTP, gRPC and JSON libraries: their answers are arbitrary, a payload is an abstract string, and a payload that cannot be marshalled is not modelled.
- classify.go, vaultclient.Retryable and wireStatus: what the Pods tell and the retryability of an answer are arbitrary inputs; alone they are case tables.
- Job objects are deleted, best effort, after their end was observed: no result rests on it, and an object may disappear at any time.
- Redelivery.RedeliverOne: covers an outcome write that the store answers; one that meets a store error changes nothing, and the claim expires.
- The batch loop of retryPendingDeliveries and its concurrency: each claimed job is redelivered by itself, and Redelivery.RedeliverOne allows any calls in between.
- Attempts.Attempt.ClaimSlotFor: says nothing about a claim that met a store error, where the code proceeds without the slot; the one-record promise is not made there.
- JobRuns.RunJobAnyhow: speaks of attempts that run one after another beside arbitrary store calls of other workers; the records of attempts in other processes are bounded by the same slot, through Deliveries.WinsAmongAreWins.
- Attempts.Attempt.RetireLegacy: a job id that is no valid label value, for which no legacy Job can exist and none is listed, is modelled as an empty list.
- Attempts.Attempt.RunSmokeRun: which ticks fire before a context ends is given from outside (Findings.Surroundings); real time is not modelled.
- JobRuns.RunJob: the exactly-one half covers runs without crash, store error and lease loss; with a crash between the claim and the submission the record can be lost, as Deliveries.FinishedWithoutRecord shows; the at-most-one half holds in every run, as JobRuns.RunJobAnyhow states.
- ProtocolSafety.AtMostOneExecution: is about Job objects; Pods that outlive a deleted Job object are assumed away by foreground deletion.
- Trivy report parsing, metrics, logging, readiness, the HTTP and gRPC servers, ingress validation and manifests: plumbing or easy members.
