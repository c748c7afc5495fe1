# Verified model of the incident worker

The incident worker lets several processes share one PostgreSQL store. Any of them may crash or lose its
lease at any point, users may stop a run at any moment, and still no Kubernetes write may be sent twice, and
the verification of a repair may only report what an observation window has shown. This project models the
logic behind those promises and proves them with Dafny. `dafny verify dfyconfig.toml` checks everything.

## How the model is built

| files | part of the system |
|---|---|
| `Ledger`, `LedgerInvariants`, `TransactionTheorems`, `Repository` | The row-locked transactions as functions from tables to tables, what each keeps and when exactly it does what, and the same transactions done in place by a class. |
| `Recovery`, `RecoveryTheorems` | The classification of saved state, and the one condition under which each answer is given. |
| `Protocol`, `ProtocolInvariants`, `ProtocolTheorems`, `QuietSteps`, `DispatchTheorems`, `ApprovalTheorems`, `PublicationTheorems`, `ExecutorTheorems`, `WorkerTheorems`, `StaleWorker` | Workers (also stale ones), clients, the clock and the cluster as one transition system whose steps are single transactions, unlocked reads and patch calls. A crash removes a worker at any point. |
| `Targets`, `Observation`, `ObservationStreaks`, `ObservationRuns`, `ObservationTurns`, `ObservationLoop`, `Verification` | The timed sampling window: its data, when it passes and when it is given up, all interleavings of invocations over one stored row, the loop itself with its clocks, and the verification step of a repair. |
| `Budget`, `BudgetTheorems`, `RunBudget`, `Resampling`, `SamplingTheorems` | The durable budget with its charges, and the grants that let a query be read again. |
| `Investigation`, `InvestigationProofs`, `InvestigationTheorems`, `InvestigationHistory`, `DecisionTheorems`, `CollectTheorems` | The bounded decide, collect and ask loop, driven by arbitrary model replies, as a machine of single durable edits, and the history of budget edits it makes. |
| `LogProjection`, `LogViews` | Grouping of probe lines in sampled logs. |
| `Evidence`, `Collection`, `Diagnosis`, `FactTheorems`, `AssessmentTheorems` | How rows of evidence are made, the fold of observations into current evidence, the facts derived from it, the gates a diagnosis passes, and what both say about the rows themselves. |
| `Policy`, `PolicyTheorems`, `PlanTheorems`, `PolicyExample` | Allowed actions, plan validation and preparation, the plan the program builds itself, a worked example and one in which it builds none. |
| `Json`, `Patches` | JSON Patch (RFC 6902) and JSON Merge Patch (RFC 7396), and the two kinds of write requests. |
| `DelayedRecheck`, `DelayedTheorems`, `DelayedBasis` | The follow-up of a passed window, how each one ends, and its link to the ledger. |

Conventions: equal digests stand for equal contents, and the binding of an approval is represented by what its
digest is taken over. Formatted request ids are represented by what they are formatted from. Clocks never run backwards, and a sleep advances both clocks by at least its length.
Database transactions are atomic and see the current tables. Runs are ordered by a commit counter. The
journal state the code calls `succeeded` is `Applied` here, because runs have a `Succeeded` of their own.

An executor call that fails, also for a lost lease, ends the graph call and not the worker: the node around it
catches every exception and the graph stops (backend/app/agent/nodes.py:1061-1122,
backend/app/agent/graph.py:432-439).

Three promises hold only under a condition:

* The worker keeps away from the graph while a write is uncertain as long as its lease is current
  (`GraphOnlyWhenCertain`). A worker that lost its lease between its last ownership check and the graph call
  may still enter (`StaleWorkerMayEnter`); it is the fence, not this check, that keeps it from writing.
* The ledger's patch applies to the object it was built from exactly when that object has a selector
  (`SelectorPatchOnOwnObject`). For a Service without one the snapshot records an empty selector, and testing
  a missing member fails (`SelectorlessIsRefused`). For the same reason a merge rollback leaves such a
  Service with an empty selector instead of none (`RollbackRestores`).
* An allowed selector repair gets a plan only if all labels involved have 1 to 63 characters
  (`DeterministicExactly`). Kubernetes allows an empty label value, and longer keys with a prefix; for those the
  plan's constructor fails and the repair is dropped (`EmptyLabelIsRefused`).

The conservative report passes all gates after any observations (`FallbackAccepted`). That rests on how rows are
made: only tool observations ever carry an error. For rows as such the facts could be out of reach
(`FactsFailExactly`).

## Model

| member | source | states |
|---|---|---|
| `ProtocolInvariants.StepKeeps` | backend/app/runtime/worker.py:149-271 | Every step of every worker, client, clock tick and crash keeps the protocol invariant, and no row of a run or of the journal is ever taken back. |
| `ProtocolTheorems.AtMostOnePatch` | backend/app/runtime/operations.py:95-143 | In every continuation of every reachable state a run occurs at most once among the issued patch calls, and once it occurs its journal row exists and is never `prepared` again. |
| `ProtocolTheorems.StopBeforeDispatch` | backend/app/persistence/controls.py:54-107 | A control that commits while the write of an active run is absent, prepared or refused leaves that run cancelled for good; no later step of any worker dispatches it or patches for it. |
| `ProtocolTheorems.StopAfterDispatch` | backend/app/persistence/leases.py:84-122 | When the dispatch committed first, the run keeps its stop mark and is never published as succeeded or failed, nor newly as waiting. |
| `ProtocolTheorems.ControlHitsActive` | backend/app/persistence/controls.py:54-70 | The latest diagnosis run a control names is the active one whenever there is an active one. |
| `ProtocolTheorems.OneUnresolvedPerIncident` | backend/app/persistence/operations.py:78-126 | Two unresolved journal rows of one incident are the same row, in every reachable state, although attributed writes may fall back to manual. |
| `ProtocolTheorems.ConfirmedExactlyWhenAttributed` | backend/app/persistence/operations.py:112-138 | Attribution is confirmed exactly in the two attributed states, and then the journaled response is that of an issued patch and shows the approved target. |
| `ProtocolTheorems.ManualIsFinal` | backend/app/persistence/operations.py:119-126 | A row that requires manual handling requires it for ever. |
| `ProtocolTheorems.RecordsAreValid` | backend/app/runtime/operations.py:177-216 | With a current lease neither reconciliation nor the recording of a patch result is ever refused as an invalid transition. |
| `ProtocolTheorems.GraphOnlyWhenCertain` | backend/app/runtime/worker.py:149-251 | A worker with a current lease calls the graph, and is inside it outside an executor call, only when the journal is not uncertain, and after a write saved under another lease only if its own read equalled the journaled response. |
| `DispatchTheorems.DispatchNeedsMatchingRead` | backend/app/runtime/operations.py:113-134 | Whenever a write becomes dispatching, the dispatching worker held its own fresh read, equal to the snapshot of the prepared row and showing the object that the decision saved on the run approves, in the configuration the plan was made for and, for a Deployment, in the version just validated. No other step dispatches. |
| `DispatchTheorems.WritesAreApproved` | backend/app/runtime/operations.py:95-134 | In every reachable state each journal row belongs to a run whose saved decision approves it, and asks for exactly the planned change of its snapshot; once dispatched, that snapshot is the approved object in the configuration the plan was made for. `EveryWriteWasApproved` follows the decision back to the user. |
| `ApprovalTheorems.EveryWriteWasApproved` | backend/app/persistence/operations.py:43-65 | In every interleaving each journal row goes back to an earlier step in which the user approved just this run while it waited for a decision, and asks for what that decision is bound to. |
| `ApprovalTheorems.RefusalIsFinal` | backend/app/persistence/operations.py:43-65 | Once a refusal is the first decision of a run, no later step of any worker journals, dispatches or patches a write for it. |
| `ApprovalTheorems.DecisionWasSent` | backend/app/persistence/operations.py:43-65 | In every interleaving the decision saved on a run is, value for value, one that was sent to it while it waited and had none. |
| `ApprovalTheorems.FirstDecisionExactly` | backend/app/persistence/operations.py:43-65 | A first decision is taken exactly for a waiting run with current input and no open write in its incident; the row then holds the decision as sent, and only that run changes. |
| `ApprovalTheorems.LaterDecisionExactly` | backend/app/persistence/operations.py:53-56 | A further decision is accepted exactly when it is the saved one, and changes nothing. |
| `ExecutorTheorems.ApprovedWriteIsSent` | backend/app/runtime/operations.py:95-175 | An undisturbed executor sends an approved write whose target is as planned exactly once and journals it as applied exactly when the response shows the requested change, as rejected when the cluster refused it, and as unknown otherwise; nothing else changes. |
| `ExecutorTheorems.OtherTargetIsRefused` | backend/app/runtime/operations.py:119-134 | When the target is not as planned, the row is journaled as rejected and no patch is issued. |
| `ExecutorTheorems.ReconcilesExactly` | backend/app/runtime/operations.py:195-216 | In every reachable state reading the target confirms a write exactly when its journaled response is attributed and still what the target shows; everything else goes to a human. |
| `WorkerTheorems.ConsultsExactly` | backend/app/runtime/worker.py:149-171 | A worker reads a write back exactly when its outcome is uncertain or, on taking over, when another worker saved it; otherwise it goes on. |
| `WorkerTheorems.EntersExactly` | backend/app/runtime/worker.py:222-251 | A worker enters the graph exactly when saved state warrants a start, a continuation or an answer, its lease allows work and it still owns the run. |
| `WorkerTheorems.ExecutorReplaysExactly` | backend/app/runtime/operations.py:109-117 | The executor hands back a journaled result without touching the cluster, goes on with a write that is new or only prepared, and leaves every other write to reconciliation. |
| `WorkerTheorems.ErrorsExactly` | backend/app/runtime/worker.py:254-277 | An error of the owner is retried exactly when it was temporary, attempts are left and the write cannot be out; a write that may be out is left to a human, every other error fails the run or follows an earlier stop. |
| `WorkerTheorems.ManualIsPublished` | backend/app/runtime/worker.py:162-170 | The owner of a write nobody can explain publishes that a human has to look, and is done. |
| `WorkerTheorems.RaisesExactly` | backend/app/runtime/worker.py:252-277 | An exception leads from the executor to a look at the journal, from elsewhere into the handler, and out of the handler nowhere; it changes no table. |
| `StaleWorker.StaleWorkerMayEnter` | backend/app/runtime/worker.py:185-251 | The same does not hold without a current lease: a concrete interleaving of three workers has the first one at the graph call while the third has dispatched. |
| `ProtocolTheorems.VerifiedOnlyWithWrite` | backend/app/runtime/recovery.py:71-117 | A run is published as a verified repair only if its journal row is attributed at the moment of publication; `SuccessIsPublished` is the other direction. |
| `RecoveryTheorems.ClassifiesExactly` | backend/app/runtime/recovery.py:38-130 | Every input has its one answer: start, continue, resume with a decision or an answer, wait, reconcile and succeed are each given exactly under a condition on checkpoint, input and journal, and a failure exactly when none of them holds. |
| `PublicationTheorems.WarrantedIsPublished` | backend/app/runtime/worker.py:173-187 | Whatever end a checkpoint warrants is what its owner publishes, except that a stop turns it into a cancellation or a reconciliation. |
| `PublicationTheorems.SuccessIsPublished` | backend/app/runtime/recovery.py:107-117 | A finished checkpoint that belongs to the run and shows a refused plan, a verified repair with its attributed write, or a plan that needs no approval makes the run succeed, unless a stop was requested. |
| `PublicationTheorems.SuccessWasDue` | backend/app/runtime/recovery.py:107-117 | In every interleaving the success of a diagnosis goes back to one publication by its owner for which one of these three ends was due, with the journal as it was then. |
| `Recovery.UncertainNeverEnters` | backend/app/runtime/recovery.py:38-117 | Helper, by unfolding `classify`: an uncertain journal lets only a first start without any checkpoint pass. |
| `Recovery.WriteNodesNeedApproval` | backend/app/runtime/recovery.py:79-88 | Helper, by unfolding `classify`: going on past a write needs a saved approving decision and the journaled result. |
| `Recovery.VerifiedNeedsJournal` | backend/app/runtime/recovery.py:107-117 | Helper, by unfolding `classify`: a finished checkpoint counts as a verified repair only with an attributed journal row; `ClassifiesExactly` gives both directions. |
| `ProtocolTheorems.OldLeaseIsFenced` | backend/app/persistence/leases.py:51-65 | Once a newer claim committed, nothing under the older epoch ever passes the fence again. |
| `ProtocolTheorems.ClaimRaisesEpoch` | backend/app/persistence/leases.py:28-48 | A claim hands out an epoch above those of all threads still running for the run. |
| `ProtocolTheorems.AttemptsBounded` | backend/app/persistence/leases.py:28-48 | Attempts stay within the base plus the maximum, and in total within the maximum times one plus the accepted approvals and answers. |
| `LedgerInvariants.ClaimKeeps` | backend/app/persistence/leases.py:28-48 | A claim keeps the table invariant (one active run per incident and kind, one unresolved write, attempts) and only moves rows on. |
| `LedgerInvariants.FinishKeeps` | backend/app/persistence/leases.py:84-122 | So does a fenced publication, whatever status is requested. |
| `LedgerInvariants.QueueApprovalKeeps` | backend/app/persistence/operations.py:43-65 | So does saving a decision; which one is saved is `FirstDecisionExactly`. |
| `LedgerInvariants.PrepareKeeps` | backend/app/persistence/operations.py:78-100 | So does preparing a write. |
| `LedgerInvariants.DispatchKeeps` | backend/app/persistence/operations.py:102-110 | So does dispatching it. |
| `LedgerInvariants.RecordKeeps` | backend/app/persistence/operations.py:112-138 | So does recording its outcome. |
| `LedgerInvariants.ControlKeeps` | backend/app/persistence/controls.py:54-107 | So does a control. |
| `LedgerInvariants.AnswerKeeps` | backend/app/persistence/controls.py:144-195 | So does an answer. |
| `LedgerInvariants.AcceptRoundKeeps` | backend/app/persistence/rounds.py:37-105 | So does a new round. |
| `LedgerInvariants.ActivatePendingKeeps` | backend/app/persistence/controls.py:110-141 | So does activating a deferred investigation. |
| `LedgerInvariants.CompleteInteractionKeeps` | backend/app/persistence/interactions.py:103-119 | So does completing an interaction, with or without a child round. |
| `Repository.Store.ClaimOldest` | backend/app/persistence/leases.py:28-48 | Claims the oldest claimable run, and nothing when there is none; the tables become those of the claim transaction. |
| `Repository.Store.FinishRun` | backend/app/persistence/leases.py:84-122 | In-place publication: result and tables are those of the transaction, refusals change nothing. |
| `Repository.Store.SaveApproval` | backend/app/persistence/operations.py:43-65 | In-place saving of a decision, same statement as the transaction; `FirstDecisionExactly` says what that saves. |
| `Repository.Store.PrepareOperation` | backend/app/persistence/operations.py:78-100 | In-place preparation, same statement. |
| `Repository.Store.DispatchOperation` | backend/app/persistence/operations.py:102-110 | In-place dispatch, same statement. |
| `Repository.Store.RecordOperation` | backend/app/persistence/operations.py:112-138 | In-place record, same statement. |
| `Repository.Store.AcceptControl` | backend/app/persistence/controls.py:54-107 | In-place control, same statement. |
| `Repository.Store.OpenRound` | backend/app/persistence/rounds.py:37-105 | In-place round, same statement. |
| `Repository.Store.ActivateCandidates` | backend/app/persistence/controls.py:110-141 | For any list of candidates, each with its own earlier state, the loop leaves the tables of activating them one after the other. |
| `Repository.Store.AcceptAnswer` | backend/app/persistence/controls.py:144-195 | In-place answer, same statement. |
| `TransactionTheorems.ClaimsExactly` | backend/app/persistence/leases.py:28-48 | A run is claimed exactly when queued, due or abandoned; the claimant owns it at once, whoever held it no longer does, and an attempt is counted while some are left. |
| `TransactionTheorems.HeartbeatExactly` | backend/app/persistence/leases.py:78-82 | A heartbeat moves the end of the lease, for its owner alone. |
| `TransactionTheorems.FinishesExactly` | backend/app/persistence/leases.py:84-122 | A result is published exactly by the owner, unless it asks to retry a write that may be out; the run is given back as reported or, after a stop, cancelled or to be reconciled. |
| `TransactionTheorems.PreparesExactly` | backend/app/persistence/operations.py:78-100 | A write is journaled exactly by the owner, with current input and no other open write in the incident; the same plan and approval find their row again. |
| `TransactionTheorems.DispatchesExactly` | backend/app/persistence/operations.py:102-110 | A prepared write is dispatched exactly by the owner with current input, and not a second time. |
| `TransactionTheorems.RecordsExactly` | backend/app/persistence/operations.py:112-138 | An outcome is recorded exactly by the owner on a state it may follow, never replacing a saved response or result; what it does not bring stays. |
| `TransactionTheorems.ControlsExactly` | backend/app/persistence/controls.py:54-107 | A control is accepted exactly about the latest diagnosis; it raises the revision, stops diagnosis and interactions, withdraws a prepared write, takes back waiting investigations unless it only supplements, and is stored, pending exactly for an investigation. Everything else stays. |
| `TransactionTheorems.ControlReplays` | backend/app/persistence/controls.py:60-64 | A message key is used once: the same request finds its control, another is refused. |
| `TransactionTheorems.AnswersExactly` | backend/app/persistence/controls.py:144-195 | An answer is accepted exactly for the open question of a run; the run holds it, is queued with all attempts back and is current again, while it is newer input for every other run of the incident. |
| `TransactionTheorems.RoundOpensExactly` | backend/app/persistence/rounds.py:37-105 | A round is opened exactly on the latest diagnosis, over and done, with nothing under way and no open write; its diagnosis is then the latest and current. |
| `TransactionTheorems.ActivatesExactly` | backend/app/persistence/controls.py:110-141 | A waiting investigation is dropped exactly when its run is no longer the latest, started exactly when a round can be opened on it, and otherwise left alone. |
| `TransactionTheorems.CompletesExactly` | backend/app/persistence/interactions.py:103-119 | The interaction of the owner succeeds together with the round it asks for, or not at all. |
| `TransactionTheorems.IncidentExactly` | backend/app/persistence/runs.py:130-175 | A new incident comes with its first diagnosis, current and the latest from the start; ids are used once. |
| `TransactionTheorems.InteractsExactly` | backend/app/persistence/interactions.py:32-75 | An interaction is accepted exactly on the latest diagnosis, over or (about the past) waiting, without another one and, for a new look, without an open write. |
| `TransactionTheorems.DelayedStartsExactly` | backend/app/persistence/delayed_rechecks.py:73-92 | The run of a delayed recheck is inserted exactly while its incident is quiet. |
| `Repository.ActivateAllKeeps` | backend/app/persistence/controls.py:110-141 | Treating any list of candidates keeps the table invariant. |
| `Observation.AbsorbReady` | backend/app/agent/observation.py:78-83 | The first ready sample is taken in only when it finished before the resource deadline, and it starts the business time. |
| `Observation.AbsorbOk` | backend/app/agent/observation.py:73-95 | Helper: taking in a sample keeps the window sound, and deadlines and target stay; `AbsorbExactly` says what becomes of the window. |
| `ObservationStreaks.AbsorbExactly` | backend/app/agent/observation.py:73-95 | A sample invalidates the window exactly when the target moved, gives it up exactly when it was late, passes it exactly when it and the samples of the invocation just before it make up the required number of counting ones, and otherwise leaves it running. |
| `ObservationStreaks.AbsorbEnds` | backend/app/agent/observation.py:73-105 | After every sample the window is still open with its counter the longest run of counting samples, or passed for the first time, or given up for a reason its samples and the clocks show. |
| `ObservationStreaks.WaitsExactly` | backend/app/agent/observation.py:63-65 | The wait asked for before a sample ends exactly one interval after the last finished one. |
| `ObservationRuns.PassedWasObserved` | backend/app/agent/observation.py:31-105 | Whatever crashes, restarts and takeovers came before, a stored window that says passed ends with the required number of passing samples of one segment, on its target, before its deadlines, each spaced by the interval, and its first ready sample finished before the resource deadline. |
| `ObservationTurns.TurnIsStored` | backend/app/agent/observation.py:62-100 | An owner with time and room left reads the cluster once, stores what the sample made of the window, and goes on exactly while the window runs. |
| `ObservationTurns.HeadsExactly` | backend/app/agent/observation.py:62-66 | At the head of the loop a sample is taken exactly with time and room left; otherwise the window is closed. |
| `ObservationTurns.OpensExactly` | backend/app/agent/observation.py:31-51 | A new invocation takes the stored window over and works on it exactly while it runs under the supported policy, in a segment in which nothing counts yet. |
| `ObservationRuns.DeadlinesNeverMove` | backend/app/persistence/observations.py:24-43 | Total and resource deadline never change, the business deadline is set at most once and never past the total one, samples are only added. |
| `ObservationRuns.SupersededNeverWrites` | backend/app/persistence/observations.py:34-43 | A superseded invocation never owns the row again, so it never overwrites it. |
| `ObservationRuns.ReadsBounded` | backend/app/agent/observation.py:67-72 | Over all invocations at most `max_samples` external reads are made. |
| `ObservationLoop.Run` | backend/app/agent/observation.py:31-105 | The loop terminates. It passes the window exactly with the first sample that completes the required streak of this invocation in time; when it gives up, no earlier sample completed it, and the samples or the time were used up or the target had moved. Superseded or unsupported windows are left alone, and the stored row only moves on. |
| `ObservationLoop.NextTurn` | backend/app/agent/observation.py:59-66 | A sample is taken only with time left and at least one interval after the previous one finished, although the sleep may be cut short; none is taken only when the samples or the time are used up. |
| `ObservationLoop.TakeTurn` | backend/app/agent/observation.py:67-99 | One sample is saved before and after its external read, as it was reported; the window is then still open, passed or given up as `AbsorbExactly` says. |
| `Verification.VerifyRecovery` | backend/app/agent/stability.py:20-52 | The verification step of a recorded repair succeeds exactly when the stored window passed under its token, with all its evidence; it fails only because another worker took over, the policy is unsupported, the window was decided against before, or this invocation gave it up. |
| `ObservationLoop.WindowStore.OpenRow` | backend/app/persistence/observations.py:24-32 | Opening inserts the initial window or takes over the stored one under a new token. |
| `ObservationLoop.WindowStore.SaveRow` | backend/app/persistence/observations.py:34-43 | Saving writes exactly when the token still owns the row; saving a passed window schedules its recheck for its target in the same transaction. |
| `Budget.AlwaysConserved` | backend/app/runtime/budget.py:42-117 | After every history the three totals equal the sum over calls of the settled charge, else the reservation, and every counted limit holds. |
| `BudgetTheorems.ChargesAreReported` | backend/app/runtime/budget.py:53-117 | In every history each call keeps the figures of the edit that reserved it and is charged what the first edit that settled it reported, time from zero and unreported tokens as reserved; unsettled calls stay charged their reservation. |
| `BudgetTheorems.ReservesExactly` | backend/app/runtime/budget.py:53-97 | A new call is made exactly when the reservation is well formed, unknown and within every limit; it is charged and counted as reserved, and otherwise no call is made. |
| `BudgetTheorems.RefusalNamesLimit` | backend/app/runtime/budget.py:67-80 | A refusal names a limit that stands in the way and is kept as the reason. |
| `BudgetTheorems.WriteStartsExactly` | backend/app/runtime/budget.py:136-143 | A write may start exactly while its reserve fits into the remaining time and no token is overdrawn. |
| `BudgetTheorems.DecisionCountsExactly` | backend/app/runtime/budget.py:124-134 | A decision is counted exactly when it is new and there is room for it; a known one is accepted for free. |
| `Budget.SettleTwice` | backend/app/runtime/budget.py:99-103 | Helper, by unfolding: settling a second time changes nothing. |
| `Budget.FreshAtMostOnce` | backend/app/runtime/budget.py:60-65 | Over all replays a request id is granted a fresh call at most once. |
| `Budget.ReplayIsFree` | backend/app/runtime/budget.py:60-65 | Helper, by unfolding: asking for a known request charges nothing and returns its ticket exactly when the input is the same. |
| `Budget.RefusalIsFree` | backend/app/runtime/budget.py:80-96 | Helper, by unfolding: a refused reservation changes nothing but the recorded reason. |
| `RunBudgets.ReserveIn` | backend/app/runtime/budget.py:53-97 | The step-by-step edit of the stored payload computes the reservation. |
| `RunBudgets.SettleIn` | backend/app/runtime/budget.py:99-115 | The step-by-step edit computes the settlement. |
| `RunBudgets.RunBudget.TakeReservation` | backend/app/runtime/budget.py:53-97 | In-place reservation: payload and ticket are those of the reservation, and the totals stay conserved. |
| `RunBudgets.RunBudget.SettleCall` | backend/app/runtime/budget.py:99-117 | In-place settlement; the measured time grows only for calls that are not overhead. |
| `RunBudgets.RunBudget.Decide` | backend/app/runtime/budget.py:124-134 | In-place counting of a decision, once per key. |
| `RunBudgets.RunBudget.StartActivity` | backend/app/runtime/budget.py:159-171 | Control overhead is charged five seconds when it starts; other edits may follow. |
| `RunBudgets.RunBudget.EndActivity` | backend/app/runtime/budget.py:174-176 | It is corrected when it ends, less what the stages in between measured. |
| `RunBudgets.RunBudget.AddReferences` | backend/app/runtime/budget.py:178-185 | All references are added, or none when one of them changed. |
| `RunBudgets.RunBudget.ChooseTerminal` | backend/app/investigation/model.py:32-45 | In-place choice of the mode of a model request. |
| `RunBudgets.RunBudget.TakeCorrection` | backend/app/investigation/records.py:32-46 | In-place allocation of a correction slot. |
| `Resampling.RepeatsHaveOwnGround` | backend/app/investigation/resampling.py:68-75 | In every history two reads of one query have different generations and rest on different grounds. |
| `Resampling.RepeatsRestOnPrevious` | backend/app/investigation/resampling.py:36-57 | Every repeated read follows a successful read of the previous generation, and its ground speaks about that read: a confirmed change accepted after it, or its staleness. |
| `Resampling.ReadingWasJustified` | backend/app/investigation/resampling.py:24-75 | In every history, every reading was authorised at one moment, when its ground held and was unused: a confirmed change, a sample older than its freshness, or a window larger than that of every earlier reading. |
| `Resampling.GrantWasJustified` | backend/app/investigation/resampling.py:24-75 | The same for every grant. |
| `Resampling.RepeatGrantedExactly` | backend/app/investigation/resampling.py:24-75 | A new request for a read query is granted exactly when its latest read succeeded and a ground holds that no earlier grant of the query used. |
| `SamplingTheorems.FirstReadExactly` | backend/app/investigation/resampling.py:24-39 | A query nobody read yet is granted exactly without a reason to read it again. |
| `SamplingTheorems.RefusalsExactly` | backend/app/investigation/resampling.py:39-67 | Each refusal of a repeat is given exactly for its cause: an unexplained or failed reading, history, a missing reason, freshness by tool, or no confirmed change. |
| `SamplingTheorems.WidensExactly` | backend/app/investigation/resampling.py:11-21 | Logs may be read for a wider window exactly when every reading so far succeeded with a narrower one and none was itself a widening. |
| `SamplingTheorems.ReadsExactly` | backend/app/tools/investigation.py:146-168 | A reading is made exactly once for its grant, as an extra call of fifteen seconds; a request made before finds its call again. |
| `SamplingTheorems.AnswersExactly` | backend/app/investigation/dialogue.py:48-72 | An answer is taken exactly when its question has none and its message answered nothing else; sent again it is the saved one. |
| `Resampling.GrantReplays` | backend/app/investigation/resampling.py:29-33 | Replaying a request returns its grant at any later time and changes nothing. |
| `Resampling.AlwaysOk` | backend/app/tools/investigation.py:146-168 | Reads are only ever made through grants, under the key of their generation. |
| `RunBudgets.RunBudget.AuthorizeSample` | backend/app/investigation/resampling.py:24-75 | The in-place edit of the stored payload computes the authorisation. |
| `RunBudgets.FindLast` | backend/app/investigation/resampling.py:34-38 | The loop finds the read of the query with the highest generation, the first of several. |
| `RunBudgets.RepeatSample` | backend/app/investigation/resampling.py:39-75 | The checks for a query that was read before, one after the other, compute the repeat. |
| `RunBudgets.RunBudget.TakeAnswer` | backend/app/investigation/dialogue.py:58-72 | In-place acceptance of an answer: once per question, one question per message. |
| `InvestigationTheorems.InvestigationIsBounded` | backend/app/investigation/graph.py:153-303 | For every sequence of model outputs, tool results, answers and crashes: at most six completed decisions, six provider calls of which the sixth is terminal, five counted decisions, two questions on different slots, two corrected attempts. |
| `DecisionTheorems.DecisionsAreSound` | backend/app/investigation/graph.py:153-303 | In every run the steps, questions and answers are those of a record in which each counted decision had no flaw that matters to it, ended when it had to, asked a new question, and after a human answer neither proposed a plan nor called anything healthy; nothing is recorded after an end. |
| `DecisionTheorems.NothingHealthyAfterAnswer` | backend/app/investigation/graph.py:195-204 | In every run no plan and no conclusion of health follows a human answer. |
| `DecisionTheorems.AcceptedExactly` | backend/app/investigation/graph.py:56-121 | A decision is counted exactly when it is sound in its mode, and then it alone decides how the investigation goes on. |
| `DecisionTheorems.FirstFailureIsCorrected` | backend/app/investigation/graph.py:206-228 | A first failure of a step is corrected exactly when its slot is free, a rejected diagnosis only by a repaired report; otherwise the investigation ends undecided. |
| `DecisionTheorems.LastFailureEnds` | backend/app/investigation/graph.py:206-228 | A second failure, a crossed boundary or a failed call ends the investigation undecided. |
| `DecisionTheorems.AttemptExactly` | backend/app/investigation/model.py:32-96 | A new attempt calls the provider exactly when a call is left, in terminal mode exactly when it has to, and its reply is saved before it is judged. |
| `DecisionTheorems.ReplayExactly` | backend/app/investigation/model.py:68-69 | Repeated after a crash, an attempt takes the saved reply in the saved mode without another call. |
| `DecisionTheorems.LostCallEnds` | backend/app/investigation/records.py:16-21 | A call without a saved outcome is not repeated. |
| `DecisionTheorems.AnswerExactly` | backend/app/investigation/graph.py:291-303 | An accepted answer to the open question is counted; a skip ends the investigation, anything else resumes it. |
| `CollectTheorems.SchedulesExactly` | backend/app/investigation/graph.py:261-266 | All requests are authorised before the first is read, and the first denial ends the investigation. |
| `CollectTheorems.FetchesExactly` | backend/app/investigation/graph.py:267-280 | A reading is made on its grant and awaited, taken over when it was answered before, and anything else ends the investigation. |
| `CollectTheorems.ReturnsExactly` | backend/app/tools/investigation.py:169-200 | An answer is saved as it came, failed or not; only a changed target ends the investigation. |
| `InvestigationTheorems.SlotsAreFinal` | backend/app/investigation/records.py:32-46 | A correction slot belongs to one step for good. |
| `InvestigationTheorems.InvestigationTerminates` | backend/app/investigation/graph.py:153-303 | A run that accepted n requests makes at most 223 + 3n steps of its own, reads included, and for every crash at most 11 + 3n more. |
| `InvestigationTheorems.NeverStuck` | backend/app/investigation/graph.py:340-350 | Until it is finished or waits for its user the running node waits for some event, and whatever that event brings, it moves the investigation on. |
| `InvestigationTheorems.ReadingsAreBounded` | backend/app/investigation/graph.py:258-289 | Every reading ever reserved is a request of an accepted collect decision, and there are at most five such decisions. |
| `InvestigationProofs.ScheduleKeeps` | backend/app/investigation/graph.py:261-266 | Authorising one request of the decision keeps the invariant. |
| `InvestigationProofs.FetchKeeps` | backend/app/investigation/graph.py:267-280 | So does reserving or replaying its reading. |
| `InvestigationProofs.NextReadsOk` | backend/app/investigation/graph.py:258-289 | Every event keeps readings tied to accepted decisions. |
| `InvestigationHistory.BudgetIsHistory` | backend/app/investigation/graph.py:153-303 | For every sequence of events the budget of the investigation is the result of a history of grants, granted reads, answers and other edits, so all results about such histories hold for it. |
| `InvestigationHistory.InvestigationSamplesOk` | backend/app/tools/investigation.py:146-168 | In every run each grant has its ground, each reading its grant, and the totals are conserved. |
| `InvestigationHistory.ReadingsHaveOwnGround` | backend/app/investigation/resampling.py:68-75 | In every run two readings of one query have different generations and rest on different grounds. |
| `InvestigationHistory.ReadingsWereJustified` | backend/app/investigation/resampling.py:24-75 | In every run each reading was authorised by an earlier edit of that run, on a ground that held then and was unused. |
| `InvestigationProofs.ChooseModeKeeps` | backend/app/investigation/model.py:32-45 | Choosing a mode keeps the invariant: a mode that still allows collecting is only handed out while two model calls are left. |
| `InvestigationProofs.ReserveCallKeeps` | backend/app/investigation/model.py:48-70 | So does reserving, replaying or refusing a model call. |
| `InvestigationProofs.ConclusionKeeps` | backend/app/investigation/graph.py:177-249 | Helper: judging a reply keeps the invariant; which replies are accepted is `AcceptedExactly`. |
| `InvestigationProofs.RespondKeeps` | backend/app/investigation/dialogue.py:48-72 | So does accepting an answer. |
| `LogViews.ProjectLogs` | backend/app/investigation/log_projection.py:44-84 | Returns the one view that meets the specification if a probe line repeats and the view encodes shorter, and nothing otherwise. |
| `LogViews.GroupLines` | backend/app/investigation/log_projection.py:47-64 | The grouping loop: every group holds exactly the lines of its message, in sorted ranges that do not touch, with count, example and timestamps of those lines. |
| `LogViews.CollectSpans` | backend/app/investigation/log_projection.py:68-76 | The span loop: the spans hold exactly the lines that do not repeat, verbatim. |
| `LogViews.ViewUnique` | backend/app/investigation/log_projection.py:77-83 | At most one view meets the specification, so the result is determined. |
| `LogViews.LinesArePartitioned` | backend/app/investigation/log_projection.py:44-84 | Each line lies in one range of one group or in one span, never in both. |
| `LogViews.SpansAreTheRest` | backend/app/investigation/log_projection.py:68-76 | The spans together are exactly the ungrouped lines, verbatim and in order. |
| `LogViews.GroupedMessage` | backend/app/investigation/log_projection.py:53-64 | Each grouped line parses to the message of its group's example. |
| `LogViews.SameViewSameText` | backend/app/investigation/log_projection.py:44-84 | Samples with the same view group the same lines and have the same text elsewhere: only timestamps of grouped lines can differ. |
| `LogViews.SameViewSameMessage` | backend/app/investigation/log_projection.py:44-84 | Samples with the same view have the same message in every grouped line. |
| `LogProjection.RepeatedMeans` | backend/app/investigation/log_projection.py:65-71 | A message counts as repeated exactly when two different lines carry it. |
| `Evidence.ActiveEvidence` | backend/app/investigation/evidence.py:12-47 | The two nested loops compute the fold of the observations. |
| `Evidence.NeverEmpty` | backend/app/investigation/evidence.py:12-47 | From a non-empty baseline the active evidence is never empty. |
| `Evidence.EvictionIsJustified` | backend/app/investigation/evidence.py:17-46 | A row disappears only for a matching observation that is not older and not of another object or namespace. |
| `Evidence.TakenInExactly` | backend/app/investigation/evidence.py:35-46 | An observation is taken in exactly when no row it would replace was sampled later. |
| `Evidence.ObservedExactly` | backend/app/investigation/evidence.py:12-47 | After an observation a row is active exactly when it was and the observation does not replace it or comes too late itself, with replacement spelled out on namespaces, objects, slots and what readings retire. |
| `Evidence.BaselineRowsLeaveForNewer` | backend/app/investigation/evidence.py:12-47 | Over any list of observations, a baseline row that is gone was rightfully replaced by one of them. |
| `Evidence.ActiveIsCurrent` | backend/app/investigation/evidence.py:45-46 | No active observation stands beside an earlier row it replaces. |
| `Evidence.Historical` | backend/app/investigation/evidence.py:93-99 | The historical ids are exactly the ids of rows that are no longer active, each once. |
| `Collection.NormalizeEvidence` | backend/app/agent/collector_adapter.py:53-78 | Every entry of the baseline becomes one row under its number, with its data and without an error. |
| `Collection.Adapt` | backend/app/investigation/evidence.py:50-90 | Each kind of tool reading becomes exactly its rows, with the data it brought under the name of what was read; only tool observations carry errors, and the first row retires what the tool read. |
| `Diagnosis.ConservativeAccepted` | backend/app/investigation/production.py:63-105 | The conservative report passes its schema and both validators exactly when there is evidence and every row has an id. |
| `Diagnosis.FallbackAccepted` | backend/app/investigation/production.py:86-105 | From a non-empty baseline, after any observations, it always passes its schema and both validators, for rows as the two producers of rows make them. |
| `Diagnosis.CollectedFactsExist` | backend/app/agent/diagnosis_policy.py:113-119 | For such rows the facts can always be computed. |
| `Diagnosis.FactsFailExactly` | backend/app/agent/diagnosis_policy.py:113-119 | For rows as such, computing the facts fails exactly when the profile matches a deployment row that carries an error. |
| `Diagnosis.FailedDeploymentHasNoFacts` | backend/app/agent/diagnosis_policy.py:118 | There is such a state, though neither producer of rows makes it. |
| `PlanTheorems.MatchedExactly` | backend/app/service_profiles/registry.py:62-133 | A profile is used exactly when its snapshot still matches: same request and digest, and one row of its deployment, as registered in version, labels and images, with the recorded identity. |
| `FactTheorems.FaultsExactly` | backend/app/agent/diagnosis_policy.py:157-193 | A runtime fault is reported exactly when the evidence has a usable row of a pod of the registered Deployment, in the namespace, with a container waiting or terminated for a reason of that category. |
| `FactTheorems.BusinessExactly` | backend/app/agent/diagnosis_policy.py:231-269 | The business counts as failed exactly when a bound result of a registered check is a failure, and as passed exactly when there are checks and each has a bound result that passes in full. |
| `FactTheorems.ConfigurationExactly` | backend/app/agent/diagnosis_policy.py:113-155 | Selector and probe drift, agreement, completeness and the rows to cite are those the Service and Deployment rows show. |
| `FactTheorems.ResourceExactly` | backend/app/agent/diagnosis_policy.py:194-229 | Ready and not ready are reported exactly when replicas, configuration, pods and endpoints in the evidence show it. |
| `AssessmentTheorems.AcceptedExactly` | backend/app/agent/diagnosis_policy.py:272-427 | With a matched profile a report passes the gates exactly when the evidence bears it out, category by category: statuses, citations, drift, failures and faults, read off the rows. |
| `AssessmentTheorems.UnmatchedExactly` | backend/app/agent/diagnosis_policy.py:272-427 | Without one, only the conclusion that the cause is unknown passes. |
| `AssessmentTheorems.ReferencesExactly` | backend/app/agent/nodes.py:412-480 | The references of a report hold exactly when it cites every id it mentions anywhere, each of a collected row, only retrieved runbooks, and one of these where the category needs it. |
| `AssessmentTheorems.ConservativeShows` | backend/app/investigation/production.py:63-105 | The conservative report repeats the statuses, cites every row, adopts no cause and no runbook, and points at the first twenty rows behind each status. |
| `PolicyTheorems.PreparedWriteIsSound` | backend/app/agent/remediation_policy.py:637-718 | A prepared write proposes exactly the registered value, names the one observed UID, really changes the observed configuration, and differs from the plan only in citations and UID; no container of a pod of the registered Deployment is down for a named fault and no bound result of a registered check is a failure. |
| `PolicyTheorems.PreparingAgainIsNoOp` | backend/app/agent/remediation_policy.py:567-718 | Preparing a prepared plan changes nothing and validating it against the same state succeeds. |
| `PolicyTheorems.ValidatedWriteIsSound` | backend/app/agent/remediation_policy.py:567-634 | Every bound write plan that validates is sound in the same sense, read off the evidence. |
| `PolicyTheorems.DeterministicExactly` | backend/app/investigation/production.py:35-60 | The program builds a plan for an allowed write exactly when references, namespace and target identity are in order and, for a selector, the observed and the registered labels have 1 to 63 characters; that plan is sound, and otherwise the error is one its caller turns into a failed plan. |
| `PolicyTheorems.DraftConstructible` | backend/app/agent/schemas.py:137-147 | The plan schema has room for the drafted plan exactly when it has room for the labels of both selectors. |
| `PolicyTheorems.AllowedWrite` | backend/app/agent/remediation_policy.py:134-184 | Helper, by unfolding: what an allowed write rests on in terms of the facts; `AllowedExactly` says it of the evidence. |
| `PolicyTheorems.AllowedExactly` | backend/app/agent/remediation_policy.py:134-184 | A write is allowed exactly when the profile matches and the evidence warrants it: a justified diagnosis of just this drift, the configuration seen, a supported hypothesis that cites it, no failed check and no container down. |
| `PlanTheorems.PreparedExactly` | backend/app/agent/remediation_policy.py:567-718 | A write plan is prepared exactly when the evidence warrants the write and the plan conforms to it: citations, registered values on the observed configuration, namespace, risk, one target with its UID, and identities that agree. |
| `PlanTheorems.RelationshipsExactly` | backend/app/agent/target_identity.py:29-65 | The identity check passes exactly when no two rows contradict each other about which objects belong together, whatever their order. |
| `PolicyTheorems.PatchableMeans` | backend/app/agent/diagnosis_policy.py:48-79 | The probe can be patched exactly when it is complete, of the registered scheme and at another address. |
| `PolicyTheorems.PairsRoundTrip` | backend/app/investigation/production.py:44-45 | Labels turned into pairs and back are the same labels. |
| `Policy.LabelsOf` | backend/app/agent/remediation_policy.py:83-96 | The loop returns the labels, or refuses exactly when a key repeats. |
| `PolicyTheorems.TargetUidExactly` | backend/app/agent/target_identity.py:18-26 | A UID is returned exactly when one usable row alone is the target and carries a UID of legal length. |
| `PolicyExample.RepairIsPossible` | backend/app/investigation/production.py:35-60 | A concrete state in which the selector repair is allowed and its plan prepared, so the guarantees about write plans are not empty. |
| `PolicyExample.EmptyLabelIsRefused` | backend/app/investigation/production.py:44-55 | The same state with an empty label value in the selector of the Service: the repair is allowed and the program builds no plan. |
| `Patches.SelectorPatchMeans` | backend/app/runtime/operations.py:67-82 | The selector patch is applied exactly when UID, version and old selector are those of the snapshot; then the selector is the proposed one and nothing else changed, otherwise nothing changed (sections 4.3, 4.6 and 5 of RFC 6902). |
| `Patches.ProbePatchMeans` | backend/app/runtime/operations.py:67-82 | The probe patch likewise, for exactly its two fields of exactly its container. |
| `Patches.SelectorPatchOnOwnObject` | backend/app/runtime/operations.py:67-82 | On the object it was built from the selector patch applies exactly when that object has a selector, and a fresh read then shows the desired one. |
| `Patches.SelectorlessIsRefused` | backend/app/tools/remediation_tools.py:200-219 | A Service without a selector is such an object: it reads as empty, matches the plan, and its patch fails. |
| `Patches.ProbePatchOnOwnObject` | backend/app/runtime/operations.py:25-39 | On its own object the probe patch applies exactly when both fields exist, and a fresh read then shows the desired configuration of the same container. |
| `Patches.SelectorMergeMeans` | backend/app/tools/remediation_tools.py:558-614 | The merge patch is sent exactly under the approved preconditions; it turns the selector into exactly the proposed one and leaves the rest of the specification alone (section 2 of RFC 7396). |
| `Patches.RollbackRestores` | backend/app/tools/remediation_tools.py:655-667 | The rollback restores the selector that was read, and the specification itself exactly when it had one. |
| `DelayedRecheck.PassedWasJustified` | backend/app/runtime/delayed_rechecks.py:24-95 | A passed recheck was scheduled by the step that stored its window as passed, and published at a later one: in time, healthy, of the very target of the window; in between revision and latest diagnosis never differed from those recorded. |
| `DelayedTheorems.EndingWasCaused` | backend/app/runtime/delayed_rechecks.py:24-95 | In every run a recheck that is over was ended by one step, for the reason its status names: basis changed, time over, another target, healthy, faulty, or nothing decided. |
| `DelayedTheorems.EndsInOneStep` | backend/app/persistence/delayed_rechecks.py:58-96 | An open recheck ends in a step with a status exactly when that step gives it just this end. |
| `DelayedTheorems.ClassifiesExactly` | backend/app/runtime/delayed_rechecks.py:79-88 | A sample shows another target, or the recorded one healthy or faulty, or decides nothing, each exactly under its condition. |
| `DelayedTheorems.StartsExactly` | backend/app/persistence/delayed_rechecks.py:73-96 | A waiting recheck is started exactly in its turn, on its basis, in time and while its incident is quiet. |
| `DelayedTheorems.SchedulesExactly` | backend/app/persistence/delayed_rechecks.py:17-34 | A recheck is scheduled exactly by the save that stores its window as passed with a bound target, once, due after 30 and expiring after 330 seconds. |
| `DelayedTheorems.TurnExactly` | backend/app/persistence/delayed_rechecks.py:58-80 | In its turn an ended recheck has its active run cancelled, and one that has to wait has its next turn in five seconds. |
| `DelayedRecheck.RechecksFollowPassedWindows` | backend/app/persistence/observations.py:34-43 | At any time every recheck belongs to a window stored as passed, with its target, policy and incident, and with all the evidence of a pass. |
| `DelayedRecheck.OneRecheckPerWindow` | backend/app/persistence/delayed_rechecks.py:17-34 | A window has at most one recheck and a run belongs to at most one recheck. |
| `DelayedRecheck.TerminalIsFinal` | backend/app/persistence/delayed_rechecks.py:47-96 | A terminal status and the run of a started recheck never change. |
| `DelayedRecheck.PassesExactly` | backend/app/runtime/delayed_rechecks.py:15-21 | Helper, by unfolding: a sample passes exactly when it is healthy and its complete identity is the recorded one. |
| `DelayedRecheck.PassedInOneStep` | backend/app/runtime/delayed_rechecks.py:76-95 | Helper, by unfolding: a row becomes passed exactly in a publishing step with all conditions met at commit. |
| `DelayedRecheck.DueRows` | backend/app/persistence/delayed_rechecks.py:55-57 | The selection loop returns the first due rows in order, at most twenty, and leaves out none that comes before one of them. |
| `DelayedRecheck.DelayedStore.ActivateDue` | backend/app/persistence/delayed_rechecks.py:58-96 | For any list of rows, the loop leaves the tables of treating them one after the other. |
| `DelayedRecheck.DelayedStore.ActivatePass` | backend/app/persistence/delayed_rechecks.py:52-96 | A whole pass treats exactly the selected rows. |
| `DelayedBasis.InvocationsSave` | backend/app/agent/observation.py:31-105 | Whatever its invocations do, a stored window is only ever replaced as the recheck assumes. |
| `DelayedBasis.ProtocolMovesOn` | backend/app/persistence/delayed_rechecks.py:37-44 | Every step of the worker protocol is one the delayed recheck tolerates: runs keep what they are and revisions only grow. |

## Left out

- Repository.Store.FinishRun: does not model the incident phase, the saved output and the adopted messages.
- Repository.Store.AcceptControl: does not model the message row and the sequence conflict of the client.
- Repository.Store.OpenRound: does not model the idempotent round key and the check of the user's message.
- Repository.Store.ActivateCandidates: takes the candidates and their order as given, for any list.
- DelayedRecheck.DelayedStore.ActivateDue: takes the rows and their order as given; `ActivatePass` selects them.
- Repository.Store.AcceptAnswer: does not model the changed resource references and the message row.
- TransactionTheorems.FinishesExactly: leaves out the same as `FinishRun`.
- TransactionTheorems.ControlsExactly: leaves out the same as `AcceptControl`.
- TransactionTheorems.AnswersExactly: leaves out the same as `AcceptAnswer`.
- TransactionTheorems.RoundOpensExactly: leaves out the same as `OpenRound`.
- TransactionTheorems.InteractsExactly: does not model the replay by message key and the phases that the saved state or the incident must be in; they can only refuse more.
- TransactionTheorems.IncidentExactly: does not model the replay by idempotency key.
- ExecutorTheorems.ApprovedWriteIsSent: speaks of a call that nothing disturbs; the time budget checked before dispatch is one of the exceptions that may end it.
- ProtocolTheorems.VerifiedOnlyWithWrite: the checkpoint's phase is an input; that it comes from a passed window is stated of the verification step alone, because the checkpointer between the two is left out.
- SQL text, connections, lock timeouts and the migration runner: a transaction is one step that may also not happen.
- Message rows and their sequence numbers, saved output snapshots and the incident phase: a phase that matters is a parameter of the step that reads it.
- LangGraph and its checkpointer: a checkpoint is a value with pending nodes and tasks, and the graph is code between two program points. The investigation graph is modelled for the production workflow only, not for the older read-only one.
- Prompts, context assembly, retrieval and the provider: a reply is an arbitrary decision, an unusable output or an error; what the checks find wrong with it is arbitrary as well.
- Kubernetes reads, the HTTP probe and evidence collection: observations are arbitrary values of the shapes shown.
- Regular expressions for commands, probe lines and evidence ids, and redaction: `commandFree`, the parser argument of `ProjectLogs` and `mentioned` stand for their results. White space in a probe path is blank, tab, line feed or carriage return.
- Input schemas beyond the bounds used; of string lengths only those of UIDs and labels are modelled. Names are bounded by registration as by the plan schema, and only one namespace is accepted.
- `execute_delayed_recheck`: the collection between its two transactions is an arbitrary observation.
- The readiness patch of `remediation_tools.py`: it is a strategic merge patch of Kubernetes, outside RFC 7396; only its selector counterpart is modelled.
- Trimming of selector keys and values before a patch; changes the API server makes on its own, such as the new resource version.
- The legacy synchronous executor, its approval nodes and `diagnosis/rules.py`: first-match rules with only easy claims.
- In-place building of the facts dictionary, of the resource dictionary in `validate_relationships` and of the allowed actions: these are functions on values here, and so are the decide and collect nodes, whose local lists do not outlive a crash.
- FastAPI routes, the frontend, the demo application, scripts, failpoints and telemetry.
- ObservationRuns.ReadsBounded: a failed save after a read leaves that read counted; reads made by a sample function that retries inside itself are one read here.
