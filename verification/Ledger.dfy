/** The durable tables of the incident worker and the transactions on them, as functions on values.

    Every row-locked transaction of the repository classes is one function from a database value to
    either a new database value and a result, or an error that leaves the database untouched. The class
    in `Repository.dfy` performs the same transactions by updating its tables in place.
 */
module Ledger {
  import opened Wrappers

  type IncidentId = nat
  type RunId = nat
  type WorkerId = nat

  datatype RunKind = Diagnosis | Interaction

  datatype RunStatus =
    | Queued | Running | WaitingUser | WaitingApproval | RetryScheduled | Reconciling
    | Succeeded | Failed | Cancelled

  predicate Terminal(s: RunStatus) {
    s == Succeeded || s == Failed || s == Cancelled
  }

  /** Results that tell a client the run needs or delivered something. */
  predicate Published(s: RunStatus) {
    s == Succeeded || s == Failed || s == WaitingUser || s == WaitingApproval
  }

  datatype OperationState =
    | Prepared | Dispatching | Applied | Rejected | OutcomeUnknown | Reconciled | ManualRequired

  predicate Unresolved(s: OperationState) {
    s == Prepared || s == Dispatching || s == OutcomeUnknown || s == ManualRequired
  }

  /** The write may be on its way or its result is not attributable. */
  predicate Uncertain(s: OperationState) {
    s == Dispatching || s == OutcomeUnknown || s == ManualRequired
  }

  /** What one read or one patch response of the target shows. */
  datatype Snapshot = Snapshot(uid: string, resourceVersion: string, generation: Option<int>,
                               configuration: map<string, string>)

  datatype ResourceKind = Service | Deployment

  /** The single write a run is allowed: identity of the approval and of the plan, and the target. */
  datatype WriteRequest = WriteRequest(approvalId: nat, planRevision: nat, kind: ResourceKind, before: Snapshot,
                                       target: Snapshot)

  /** The saved execution report of an operation. */
  datatype ExecutionResult = ExecutionResult(succeeded: bool, after: Option<Snapshot>)

  datatype Operation = Operation(
    incident: IncidentId,
    write: WriteRequest,
    state: OperationState,
    epoch: nat,
    response: Option<Snapshot>,
    observed: Option<Snapshot>,
    result: Option<ExecutionResult>,
    confirmed: bool)

  /** The write a plan asks for: the object as it was identified, its configuration when the plan was made and
      the one to give it. */
  datatype PlannedWrite = PlannedWrite(revision: nat, kind: ResourceKind, uid: Option<string>,
                                       prior: map<string, string>, desired: map<string, string>)

  /** What the digest saved with a decision is taken over: the plan with the identity of its target, and the
      request, the diagnosis and the evidence. Digests are taken to tell these apart. */
  datatype Binding = Binding(plan: PlannedWrite, rest: nat)

  datatype Approval = Approval(approved: bool, approvalId: nat, binding: Binding)

  /** operations.py:119-123: the request for a saved approval, from the state `before` the target was read in. */
  function RequestOf(saved: Approval, before: Snapshot): (write: WriteRequest) {
    var plan := saved.binding.plan;
    WriteRequest(saved.approvalId, plan.revision, plan.kind, before, before.(configuration := plan.desired))
  }

  datatype Question = Question(id: nat, version: nat, slots: set<string>)

  datatype AnswerPayload = AnswerPayload(questionId: nat, version: nat, messageId: nat)

  datatype Run = Run(
    incident: IncidentId,
    kind: RunKind,
    created: nat,
    status: RunStatus,
    owner: Option<WorkerId>,
    expires: Option<nat>,
    epoch: nat,
    attempt: nat,
    attemptBase: nat,
    retryAt: Option<nat>,
    stopRequested: bool,
    invalidated: bool,
    revision: nat,
    approval: Option<Approval>,
    question: Option<Question>,
    answer: Option<AnswerPayload>,
    inputsAccepted: nat)    // approvals and answers accepted so far

  datatype Incident = Incident(revision: nat)

  datatype ControlAction = Stop | Supplement | Investigate

  datatype ControlStatus = Saved | Pending | Started | Superseded

  datatype ControlRequest =
    | ControlRequest(action: ControlAction, content: string)
    | AnswerRequest(run: RunId, questionId: nat, version: nat, skip: bool, slots: set<string>, messageId: nat)

  datatype Control = Control(incident: IncidentId, request: ControlRequest, parent: RunId, status: ControlStatus)

  /** Client message keys are unique per incident. */
  datatype ControlKey = ControlKey(incident: IncidentId, clientMessage: nat)

  datatype Db = Db(
    now: nat,
    commits: nat,
    incidents: map<IncidentId, Incident>,
    runs: map<RunId, Run>,
    ops: map<RunId, Operation>,
    controls: map<ControlKey, Control>)

  /** The run row as the claiming worker saw it. */
  datatype Lease = Lease(run: RunId, row: Run, recoveryOnly: bool)

  datatype Error =
    | LeaseLost | ApprovalConflict | RoundConflict | RoundNotFound | IdempotencyConflict
    | InvalidStatus | InvalidTransition | ImmutableResponse | UnsafeRetry | UniqueViolation | Nothing

  datatype Outcome<+T> = Ok(db: Db, value: T) | Err(error: Error)

  predicate Active(r: Run) {
    !Terminal(r.status)
  }

  /** The partial unique index on operations per incident. */
  predicate HasUnresolved(db: Db, incident: IncidentId) {
    exists r <- db.ops :: db.ops[r].incident == incident && Unresolved(db.ops[r].state)
  }

  /** A row the partial unique index over (incident, kind) would collide with. */
  predicate HasActive(db: Db, incident: IncidentId, kind: RunKind) {
    exists r <- db.runs :: db.runs[r].incident == incident && db.runs[r].kind == kind && Active(db.runs[r])
  }

  /** `run` is the diagnosis run of the incident that was created last. */
  predicate IsLatest(db: Db, incident: IncidentId, run: RunId) {
    && run in db.runs
    && db.runs[run].incident == incident
    && db.runs[run].kind == Diagnosis
    && forall r <- db.runs :: db.runs[r].incident == incident && db.runs[r].kind == Diagnosis ==>
                              db.runs[r].created <= db.runs[run].created
  }

  predicate NoDiagnosis(db: Db, incident: IncidentId) {
    forall r <- db.runs :: !(db.runs[r].incident == incident && db.runs[r].kind == Diagnosis)
  }

  /** The parent a client names must be the latest diagnosis run, or none when there is none. */
  predicate ParentIsLatest(db: Db, incident: IncidentId, parent: Option<RunId>) {
    if parent.Some? then IsLatest(db, incident, parent.value) else NoDiagnosis(db, incident)
  }

  // ----- leases.py ---------------------------------------------------------------------------

  predicate Claimable(db: Db, run: RunId) {
    && run in db.runs
    && var r := db.runs[run];
       || r.status == Queued
       || (r.status == RetryScheduled && r.retryAt.Some? && r.retryAt.value <= db.now)
       || (r.status == Running && r.expires.Some? && r.expires.value <= db.now)
  }

  function ClaimedRow(r: Run, owner: WorkerId, expires: nat, maxAttempts: nat): (c: Run) {
    r.(status := Running, owner := Some(owner), epoch := r.epoch + 1,
       attempt := if r.attempt - r.attemptBase >= maxAttempts then r.attempt else r.attempt + 1,
       expires := Some(expires), retryAt := None)
  }

  function Claim(db: Db, run: RunId, owner: WorkerId, seconds: nat, maxAttempts: nat): (o: Outcome<Lease>) {
    if !Claimable(db, run) then Err(Nothing)
    else
      var r := db.runs[run];
      var c := ClaimedRow(r, owner, db.now + seconds, maxAttempts);
      Ok(db.(runs := db.runs[run := c]), Lease(run, c, r.attempt - r.attemptBase >= maxAttempts))
  }

  /** The lease still names the running row, its owner and its epoch, and has not expired. */
  predicate Fenced(db: Db, lease: Lease) {
    && lease.run in db.runs
    && var r := db.runs[lease.run];
       && r.owner.Some? && r.owner == lease.row.owner
       && r.epoch == lease.row.epoch
       && r.status == Running
       && r.expires.Some? && r.expires.value > db.now
  }

  function Heartbeat(db: Db, lease: Lease, seconds: nat): (o: Outcome<()>) {
    if !Fenced(db, lease) then Err(LeaseLost)
    else Ok(db.(runs := db.runs[lease.run := db.runs[lease.run].(expires := Some(db.now + seconds))]), ())
  }

  /** The status a worker result turns into once a stop has been requested. */
  function FinishStatus(requested: RunStatus, stopRequested: bool, op: Option<Operation>): (s: RunStatus) {
    if stopRequested && Published(requested) then
      if op.Some? && Uncertain(op.value.state) then Reconciling else Cancelled
    else requested
  }

  function OperationOf(db: Db, run: RunId): (op: Option<Operation>) {
    if run in db.ops then Some(db.ops[run]) else None
  }

  function FinishedRow(r: Run, status: RunStatus, retryAt: Option<nat>, question: Option<Question>): (f: Run) {
    var asked := if status == WaitingUser && question.Some? then r.(question := question, answer := None)
                 else if Terminal(status) then r.(question := None)
                 else r;
    asked.(status := status, owner := None, expires := None, retryAt := retryAt)
  }

  function Finish(db: Db, lease: Lease, requested: RunStatus, retrySeconds: Option<nat>, question: Option<Question>)
    : (o: Outcome<RunStatus>)
  {
    if requested == Queued || requested == Running || (requested == RetryScheduled) != retrySeconds.Some?
    then Err(InvalidStatus)
    else if !Fenced(db, lease) then Err(LeaseLost)
    else
      var r := db.runs[lease.run];
      var op := OperationOf(db, lease.run);
      var status := FinishStatus(requested, r.stopRequested, op);
      if status == RetryScheduled && Dispatched(op) then Err(UnsafeRetry)
      else
        var retryAt := if retrySeconds.Some? then Some(db.now + retrySeconds.value) else None;
        Ok(db.(runs := db.runs[lease.run := FinishedRow(r, status, retryAt, question)]), status)
  }

  // ----- operations.py -----------------------------------------------------------------------

  /** No stop and no newer user input since this run was accepted or last answered. */
  predicate RevisionCurrent(db: Db, run: RunId) {
    && run in db.runs
    && db.runs[run].incident in db.incidents
    && !db.runs[run].stopRequested
    && db.runs[run].revision == db.incidents[db.runs[run].incident].revision
  }

  function QueueApproval(db: Db, run: RunId, approval: Approval): (o: Outcome<()>) {
    if run !in db.runs || !RevisionCurrent(db, run) then Err(ApprovalConflict)
    else
      var r := db.runs[run];
      if r.approval.Some? then
        if r.approval.value == approval then Ok(db, ()) else Err(ApprovalConflict)
      else if r.status != WaitingApproval || HasUnresolved(db, r.incident) then Err(ApprovalConflict)
      else
        var q := r.(approval := Some(approval), status := Queued, attemptBase := r.attempt,
                    inputsAccepted := r.inputsAccepted + 1);
        Ok(db.(runs := db.runs[run := q]), ())
  }

  predicate OtherUnresolved(db: Db, incident: IncidentId, run: RunId) {
    exists r <- db.ops :: r != run && db.ops[r].incident == incident && Unresolved(db.ops[r].state)
  }

  function FreshOperation(lease: Lease, write: WriteRequest): (op: Operation) {
    Operation(lease.row.incident, write, Prepared, lease.row.epoch, None, None, None, false)
  }

  /** Insert the journal row, or hand back the row an earlier attempt inserted for the same plan and approval. */
  function Prepare(db: Db, lease: Lease, write: WriteRequest): (o: Outcome<Operation>) {
    if !Fenced(db, lease) then Err(LeaseLost)
    else if OtherUnresolved(db, lease.row.incident, lease.run) || !RevisionCurrent(db, lease.run)
    then Err(ApprovalConflict)
    else if lease.run in db.ops then
      var existing := db.ops[lease.run];
      if existing.write.approvalId != write.approvalId || existing.write.planRevision != write.planRevision
      then Err(ApprovalConflict)
      else Ok(db, existing)
    else
      var op := FreshOperation(lease, write);
      Ok(db.(ops := db.ops[lease.run := op]), op)
  }

  function Dispatch(db: Db, lease: Lease): (o: Outcome<()>) {
    if !Fenced(db, lease) then Err(LeaseLost)
    else if !RevisionCurrent(db, lease.run) then Err(ApprovalConflict)
    else if lease.run !in db.ops || db.ops[lease.run].state != Prepared then Err(LeaseLost)
    else Ok(db.(ops := db.ops[lease.run := db.ops[lease.run].(state := Dispatching, epoch := lease.row.epoch)]), ())
  }

  /** `record` may move an operation from `before` to `next`. */
  predicate Allowed(before: OperationState, next: OperationState) {
    match next
    case Applied => before == Dispatching
    case Rejected => before == Prepared || before == Dispatching
    case OutcomeUnknown => before == Dispatching
    case Reconciled => before == Applied || before == Reconciled
    case ManualRequired => before != Prepared && before != Rejected
    case Prepared => false
    case Dispatching => false
  }

  /** The journal names an attributable write. */
  predicate Attributed(s: OperationState) {
    s == Applied || s == Reconciled
  }

  /** One call of `record`: the new state and the columns the caller supplies. */
  datatype JournalEntry = JournalEntry(state: OperationState, response: Option<Snapshot>, observed: Option<Snapshot>,
                                       result: Option<ExecutionResult>, confirmed: bool)

  function OrElse<T>(a: Option<T>, b: Option<T>): (c: Option<T>) {
    if a.Some? then a else b
  }

  function RecordedRow(op: Operation, e: JournalEntry): (r: Operation) {
    op.(state := e.state, response := OrElse(e.response, op.response), observed := OrElse(e.observed, op.observed),
        result := OrElse(e.result, op.result), confirmed := e.confirmed)
  }

  function Record(db: Db, lease: Lease, e: JournalEntry): (o: Outcome<()>) {
    if e.state == Prepared || e.state == Dispatching then Err(InvalidStatus)
    else if !Fenced(db, lease) then Err(LeaseLost)
    else if lease.run !in db.ops || !Allowed(db.ops[lease.run].state, e.state) then Err(InvalidTransition)
    else
      var op := db.ops[lease.run];
      if (e.response.Some? && op.response.Some?) || (e.result.Some? && op.result.Some?) then Err(ImmutableResponse)
      else Ok(db.(ops := db.ops[lease.run := RecordedRow(op, e)]), ())
  }

  // ----- controls.py and rounds.py -----------------------------------------------------------

  /** The write of the run has left `prepared` and was not refused. */
  predicate Dispatched(op: Option<Operation>) {
    op.Some? && op.value.state != Prepared && op.value.state != Rejected
  }

  function StoppedRow(r: Run): (s: Run) {
    r.(stopRequested := true, invalidated := true)
  }

  function CancelledRow(r: Run): (c: Run) {
    r.(status := Cancelled, owner := None, expires := None, question := None)
  }

  /** A stop marks the latest run; before dispatch it also cancels it. */
  function StopRun(r: Run, op: Option<Operation>): (s: Run) {
    if Terminal(r.status) then r
    else if Dispatched(op) then StoppedRow(r)
    else CancelledRow(StoppedRow(r))
  }

  /** Waiting interactions of the incident are cancelled by every control. */
  function StopInteractions(runs: map<RunId, Run>, incident: IncidentId): (m: map<RunId, Run>)
    ensures m.Keys == runs.Keys
  {
    map r | r in runs ::
      if runs[r].incident == incident && runs[r].kind == Interaction && Active(runs[r])
      then StoppedRow(runs[r]).(status := Cancelled, owner := None, expires := None)
      else runs[r]
  }

  function SupersedePending(controls: map<ControlKey, Control>, incident: IncidentId): (m: map<ControlKey, Control>)
    ensures m.Keys == controls.Keys
  {
    map k | k in controls ::
      if controls[k].incident == incident && controls[k].status == Pending
      then controls[k].(status := Superseded) else controls[k]
  }

  function RejectPrepared(ops: map<RunId, Operation>, run: RunId): (m: map<RunId, Operation>) {
    if run in ops && ops[run].state == Prepared then ops[run := ops[run].(state := Rejected)] else ops
  }

  function BumpRevision(incidents: map<IncidentId, Incident>, incident: IncidentId): (m: map<IncidentId, Incident>)
    requires incident in incidents
  {
    incidents[incident := Incident(incidents[incident].revision + 1)]
  }

  function ControlStop(db: Db, incident: IncidentId, clientMessage: nat, action: ControlAction, content: string,
                       parent: RunId)
    : (o: Outcome<Control>)
  {
    var key := ControlKey(incident, clientMessage);
    var request := ControlRequest(action, content);
    if incident !in db.incidents then Err(RoundNotFound)
    else if key in db.controls then
      if db.controls[key].request != request then Err(IdempotencyConflict) else Ok(db, db.controls[key])
    else if !IsLatest(db, incident, parent) then Err(RoundConflict)
    else
      var latest := db.runs[parent];
      var op := OperationOf(db, parent);
      var stopped := StopInteractions(db.runs[parent := StopRun(latest, op)], incident);
      var ops := if Active(latest) && !Dispatched(op) then RejectPrepared(db.ops, parent) else db.ops;
      var kept := if action == Supplement then db.controls else SupersedePending(db.controls, incident);
      var control := Control(incident, request, parent, if action == Investigate then Pending else Saved);
      Ok(db.(incidents := BumpRevision(db.incidents, incident), runs := stopped, ops := ops,
             controls := kept[key := control]), control)
  }

  function AnswerQuestion(db: Db, incident: IncidentId, clientMessage: nat, run: RunId, questionId: nat, version: nat,
                          skip: bool, slots: set<string>, messageId: nat)
    : (o: Outcome<Control>)
  {
    var key := ControlKey(incident, clientMessage);
    var request := AnswerRequest(run, questionId, version, skip, slots, messageId);
    if incident !in db.incidents then Err(RoundNotFound)
    else if key in db.controls then
      if db.controls[key].request != request then Err(IdempotencyConflict) else Ok(db, db.controls[key])
    else if run !in db.runs || db.runs[run].incident != incident then Err(RoundNotFound)
    else
      var r := db.runs[run];
      if r.status != WaitingUser || r.stopRequested || r.question.None?
         || r.question.value.id != questionId || r.question.value.version != version
         || (!skip && slots != r.question.value.slots)
      then Err(RoundConflict)
      else
        var incidents := BumpRevision(db.incidents, incident);
        var q := r.(answer := Some(AnswerPayload(questionId, version, messageId)), status := Queued,
                    revision := incidents[incident].revision, attemptBase := r.attempt,
                        inputsAccepted := r.inputsAccepted + 1);
        var control := Control(incident, request, run, Saved);
        Ok(db.(incidents := incidents, runs := db.runs[run := q], controls := db.controls[key := control]), control)
  }

  function NewRun(incident: IncidentId, kind: RunKind, created: nat, revision: nat): (r: Run) {
    Run(incident, kind, created, Queued, None, None, 0, 0, 0, None, false, false, revision, None, None, None, 0)
  }

  /** Inserting an active row is refused by the partial unique index and by a taken primary key. */
  function InsertRun(db: Db, run: RunId, incident: IncidentId, kind: RunKind, revision: nat): (o: Outcome<RunId>) {
    if run in db.runs || HasActive(db, incident, kind) then Err(UniqueViolation)
    else Ok(db.(runs := db.runs[run := NewRun(incident, kind, db.commits, revision)], commits := db.commits + 1), run)
  }

  /** A new diagnosis round. `resumable` says that the previous state shown to the user still waits for
      an approval, or (without any earlier run) is not a finished legacy state. */
  function AcceptRound(db: Db, incident: IncidentId, parent: Option<RunId>, run: RunId,
                       resumable: bool): (o: Outcome<RunId>) {
    if incident !in db.incidents then Err(RoundNotFound)
    else if !ParentIsLatest(db, incident, parent) then Err(RoundConflict)
    else if HasActive(db, incident, Interaction) then Err(RoundConflict)
    else if parent.Some? && !Terminal(db.runs[parent.value].status) then Err(RoundConflict)
    else if resumable
         && !(parent.Some? && db.runs[parent.value].status == Cancelled && db.runs[parent.value].invalidated)
    then Err(RoundConflict)
    else if HasUnresolved(db, incident) then Err(RoundConflict)
    else InsertRun(db, run, incident, Diagnosis, db.incidents[incident].revision)
  }

  /** One candidate of `activate_pending`: start the deferred investigation, retire it, or leave it. */
  function ActivatePending(db: Db, key: ControlKey, run: RunId, resumable: bool): (o: Outcome<()>) {
    if key !in db.controls || db.controls[key].status != Pending then Err(Nothing)
    else
      var control := db.controls[key];
      if !IsLatest(db, control.incident, control.parent) then
        Ok(db.(controls := db.controls[key := control.(status := Superseded)]), ())
      else if !Terminal(db.runs[control.parent].status) || HasUnresolved(db, control.incident)
              || HasActive(db, control.incident, Interaction) then Err(Nothing)
      else
        match AcceptRound(db, control.incident, Some(control.parent), run, resumable)
        case Err(e) => Err(e)
        case Ok(next, _) => Ok(next.(controls := next.controls[key := control.(status := Started)]), ())
  }

  // ----- runs.py, interactions.py and delayed_rechecks.py ------------------------------------

  function AcceptIncident(db: Db, incident: IncidentId, run: RunId): (o: Outcome<RunId>) {
    if incident in db.incidents || run in db.runs then Err(UniqueViolation)
    else InsertRun(db.(incidents := db.incidents[incident := Incident(0)]), run, incident, Diagnosis, 0)
  }

  function AcceptInteraction(db: Db, incident: IncidentId, parent: Option<RunId>, run: RunId,
                             historical: bool): (o: Outcome<RunId>) {
    if incident !in db.incidents then Err(RoundNotFound)
    else if !ParentIsLatest(db, incident, parent) then Err(RoundConflict)
    else if parent.Some? && !Terminal(db.runs[parent.value].status)
            && !(historical && (db.runs[parent.value].status == WaitingApproval
                                || db.runs[parent.value].status == WaitingUser)) then Err(RoundConflict)
    else if HasActive(db, incident, Interaction) || (!historical && HasUnresolved(db, incident)) then Err(RoundConflict)
    else InsertRun(db, run, incident, Interaction, 0)
  }

  /** Publish an interaction result and, in the same transaction, possibly accept a child diagnosis. */
  function CompleteInteraction(db: Db, lease: Lease, child: Option<RunId>, parent: Option<RunId>,
                               resumable: bool): (o: Outcome<()>) {
    if !Fenced(db, lease) then Err(LeaseLost)
    else
      var done := db.runs[lease.run].(status := Succeeded, owner := None, expires := None);
      var released := db.(runs := db.runs[lease.run := done]);
      if child.None? then Ok(released, ())
      else
        match AcceptRound(released, lease.row.incident, parent, child.value, resumable)
        case Err(e) => Err(e)
        case Ok(next, _) => Ok(next, ())
  }

  /** The delayed recheck lane: an interaction run, only while nothing else of the incident is active. */
  function ActivateDelayed(db: Db, incident: IncidentId, run: RunId): (o: Outcome<RunId>) {
    if incident !in db.incidents || HasActive(db, incident, Diagnosis) || HasActive(db, incident, Interaction)
        || HasUnresolved(db, incident)
    then Err(Nothing)
    else InsertRun(db, run, incident, Interaction, db.incidents[incident].revision)
  }

  function CancelDelayed(db: Db, run: RunId): (o: Outcome<()>) {
    if run !in db.runs || db.runs[run].kind != Interaction || Terminal(db.runs[run].status) then Err(Nothing)
    else Ok(db.(runs := db.runs[run := db.runs[run].(status := Cancelled, owner := None, expires := None)]), ())
  }
}
