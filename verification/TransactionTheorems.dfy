/** When each transaction succeeds and which rows it changes, and how one transaction answers another. */
module TransactionTheorems {
  import opened Wrappers
  import opened Ledger

  // ----- rows --------------------------------------------------------------------------------

  /** Every row but this one is as before; none is added or lost. */
  ghost predicate OnlyRun(db: Db, db': Db, run: RunId) {
    && run in db.runs && db'.runs.Keys == db.runs.Keys
    && forall r :: r in db.runs && r != run ==> db'.runs[r] == db.runs[r]
  }

  /** The journal and the tables of incidents and controls are as before. */
  predicate OnlyRuns(db: Db, db': Db) {
    db'.ops == db.ops && db'.incidents == db.incidents && db'.controls == db.controls && db'.now == db.now
  }

  predicate OnlyJournal(db: Db, db': Db) {
    db'.runs == db.runs && db'.incidents == db.incidents && db'.controls == db.controls && db'.now == db.now
    && db'.commits == db.commits
  }

  /** No active run of that kind belongs to the incident. */
  ghost predicate Idle(db: Db, incident: IncidentId, kind: RunKind) {
    forall r :: r in db.runs && db.runs[r].incident == incident && db.runs[r].kind == kind ==>
      db.runs[r].status in {Succeeded, Failed, Cancelled}
  }

  /** No write of the incident is prepared, on its way or unexplained. */
  ghost predicate Settled(db: Db, incident: IncidentId) {
    forall r :: r in db.ops && db.ops[r].incident == incident ==>
      db.ops[r].state in {Applied, Rejected, Reconciled}
  }

  // ----- leases ------------------------------------------------------------------------------

  /** The worker of the lease still owns its row: owner, epoch, status and time all agree. */
  predicate Owns(db: Db, lease: Lease) {
    && lease.run in db.runs && lease.row.owner.Some? && db.runs[lease.run].owner == lease.row.owner
    && db.runs[lease.run].epoch == lease.row.epoch && db.runs[lease.run].status == Running
    && db.runs[lease.run].expires.Some? && db.now < db.runs[lease.run].expires.value
  }

  /** A run is claimed exactly when it is queued, due for a retry, or abandoned. The claimant owns it at once, whoever
      held it before no longer does, and an attempt is counted while there are attempts left. */
  lemma ClaimsExactly(db: Db, run: RunId, owner: WorkerId, seconds: nat, maxAttempts: nat, other: Lease)
    requires run in db.runs && other.run == run && other.row.epoch <= db.runs[run].epoch && seconds > 0
    ensures var r := db.runs[run]; var o := Claim(db, run, owner, seconds, maxAttempts);
            && (o.Ok? <==> || r.status == Queued
                           || (r.status == RetryScheduled && r.retryAt.Some? && r.retryAt.value <= db.now)
                           || (r.status == Running && r.expires.Some? && r.expires.value <= db.now))
            && (o.Ok? ==>
                  && OnlyRun(db, o.db, run) && OnlyRuns(db, o.db) && o.db.commits == db.commits
                  && Owns(o.db, o.value) && !Owns(o.db, other)
                  && o.value.run == run && o.value.row == o.db.runs[run]
                  && (o.value.recoveryOnly <==> r.attempt >= r.attemptBase + maxAttempts)
                  && o.db.runs[run].attempt == r.attempt + (if o.value.recoveryOnly then 0 else 1)
                  && o.db.runs[run].owner == Some(owner) && o.db.runs[run].expires == Some(db.now + seconds)
                  && o.db.runs[run].retryAt == None
                  && SameCase(r, o.db.runs[run]))
  {
  }

  /** What no worker changes about its run. */
  predicate SameCase(a: Run, b: Run) {
    && b.incident == a.incident && b.kind == a.kind && b.created == a.created && b.revision == a.revision
    && b.stopRequested == a.stopRequested && b.invalidated == a.invalidated && b.approval == a.approval
    && b.question == a.question && b.answer == a.answer && b.inputsAccepted == a.inputsAccepted
    && b.attemptBase == a.attemptBase
  }

  /** A heartbeat moves the end of the lease, for the owner alone. */
  lemma HeartbeatExactly(db: Db, lease: Lease, seconds: nat)
    ensures var o := Heartbeat(db, lease, seconds);
            && (o.Ok? <==> Owns(db, lease))
            && (o.Ok? ==> OnlyRun(db, o.db, lease.run) && OnlyRuns(db, o.db) && o.db.commits == db.commits
                          && o.db.runs[lease.run] == db.runs[lease.run].(expires := Some(db.now + seconds)))
  {
  }

  /** The write of a run may have left for the cluster. */
  predicate MayBeOut(db: Db, run: RunId) {
    run in db.ops && db.ops[run].state in {Dispatching, Applied, OutcomeUnknown, Reconciled, ManualRequired}
  }

  predicate IsUncertain(db: Db, run: RunId) {
    run in db.ops && db.ops[run].state in {Dispatching, OutcomeUnknown, ManualRequired}
  }

  /** What a worker's report becomes: as reported, unless a stop was requested before it. */
  function ReportedAs(db: Db, run: RunId, requested: RunStatus): (s: RunStatus)
    requires run in db.runs
  {
    if !db.runs[run].stopRequested || requested in {RetryScheduled, Reconciling, Cancelled} then requested
    else if IsUncertain(db, run) then Reconciling
    else Cancelled
  }

  lemma ReportIs(db: Db, run: RunId, requested: RunStatus)
    requires run in db.runs && requested != Queued && requested != Running
    ensures FinishStatus(requested, db.runs[run].stopRequested, OperationOf(db, run)) == ReportedAs(db, run, requested)
    ensures Dispatched(OperationOf(db, run)) <==> MayBeOut(db, run)
  {
  }

  /** The run is given back with this status; everything the worker does not report stays. */
  predicate Released(a: Run, b: Run, status: RunStatus, retryAt: Option<nat>, question: Option<Question>) {
    && b.status == status && b.owner == None && b.expires == None && b.retryAt == retryAt
    && (status == WaitingUser && question.Some? ==> b.question == question && b.answer == None)
    && (status == WaitingUser && question.None? ==> b.question == a.question && b.answer == a.answer)
    && (status in {Succeeded, Failed, Cancelled} ==> b.question == None && b.answer == a.answer)
    && (status in {WaitingApproval, RetryScheduled, Reconciling} ==> b.question == a.question && b.answer == a.answer)
    && SameCase(a, b.(question := a.question, answer := a.answer))
    && b.attempt == a.attempt && b.epoch == a.epoch
  }

  lemma ReleasedIs(a: Run, status: RunStatus, retryAt: Option<nat>, question: Option<Question>)
    ensures Released(a, FinishedRow(a, status, retryAt, question), status, retryAt, question)
  {
  }

  /** A worker's result is published exactly for the owner, unless it asks to retry a write that may be out. The run
      is released; a new question is stored only with the status that waits for its answer and removed at the end. */
  lemma FinishesExactly(db: Db, lease: Lease, requested: RunStatus, retry: Option<nat>, question: Option<Question>)
    requires requested != Queued && requested != Running && (requested == RetryScheduled <==> retry.Some?)
    ensures var o := Finish(db, lease, requested, retry, question);
            && (o.Ok? <==> Owns(db, lease) && !(requested == RetryScheduled && MayBeOut(db, lease.run)))
            && (o.Ok? ==>
                  && OnlyRun(db, o.db, lease.run) && OnlyRuns(db, o.db) && o.db.commits == db.commits
                  && o.value == ReportedAs(db, lease.run, requested)
                  && Released(db.runs[lease.run], o.db.runs[lease.run], o.value,
                              if retry.Some? then Some(db.now + retry.value) else None, question))
            && (!o.Ok? && Owns(db, lease) ==> o.error == UnsafeRetry)
  {
    if lease.run in db.runs {
      ReportIs(db, lease.run, requested);
      ReleasedIs(db.runs[lease.run], ReportedAs(db, lease.run, requested),
                 if retry.Some? then Some(db.now + retry.value) else None, question);
    }
    hide FinishStatus, ReportedAs, OperationOf, Dispatched, MayBeOut, Released, FinishedRow;
  }

  // ----- the journal -------------------------------------------------------------------------

  /** The owner journals its write exactly while its input is current and no other write of the incident is open; the
      same plan and approval find their row again, others are refused. */
  lemma PreparesExactly(db: Db, lease: Lease, write: WriteRequest)
    ensures var o := Prepare(db, lease, write);
            && (o.Ok? <==>
                  && Owns(db, lease) && RevisionCurrent(db, lease.run)
                  && (forall r :: r in db.ops && r != lease.run && db.ops[r].incident == lease.row.incident ==>
                        db.ops[r].state in {Applied, Rejected, Reconciled})
                  && (lease.run in db.ops ==>
                        db.ops[lease.run].write.approvalId == write.approvalId
                        && db.ops[lease.run].write.planRevision == write.planRevision))
            && (o.Ok? && lease.run in db.ops ==> o.db == db && o.value == db.ops[lease.run])
            && (o.Ok? && lease.run !in db.ops ==>
                  && OnlyJournal(db, o.db) && o.db.ops == db.ops[lease.run := o.value]
                  && o.value == Operation(lease.row.incident, write, Prepared, lease.row.epoch, None, None, None,
                                          false))
  {
  }

  /** A prepared write is dispatched exactly once: by the owner, while its input is current. */
  lemma DispatchesExactly(db: Db, lease: Lease)
    ensures var o := Dispatch(db, lease);
            && (o.Ok? <==> && Owns(db, lease) && RevisionCurrent(db, lease.run)
                           && lease.run in db.ops && db.ops[lease.run].state == Prepared)
            && (o.Ok? ==>
                  && OnlyJournal(db, o.db) && Dispatch(o.db, lease).Err?
                  && o.db.ops == db.ops[lease.run := db.ops[lease.run].(state := Dispatching,
                                                                        epoch := lease.row.epoch)])
  {
  }

  /** The states an outcome may be recorded on. */
  function RecordedOn(next: OperationState): (states: set<OperationState>) {
    match next
    case Applied => {Dispatching}
    case OutcomeUnknown => {Dispatching}
    case Rejected => {Prepared, Dispatching}
    case Reconciled => {Applied, Reconciled}
    case ManualRequired => {Dispatching, OutcomeUnknown, Applied, Reconciled, ManualRequired}
    case Prepared => {}
    case Dispatching => {}
  }

  /** An outcome is recorded exactly by the owner, on a state it may follow, and without replacing a saved response or
      result; what it does not bring stays as it was. */
  lemma RecordsExactly(db: Db, lease: Lease, e: JournalEntry)
    ensures var o := Record(db, lease, e);
            && (o.Ok? <==>
                  && Owns(db, lease) && lease.run in db.ops && db.ops[lease.run].state in RecordedOn(e.state)
                  && !(e.response.Some? && db.ops[lease.run].response.Some?)
                  && !(e.result.Some? && db.ops[lease.run].result.Some?))
            && (o.Ok? ==>
                  && OnlyJournal(db, o.db) && o.db.ops.Keys == db.ops.Keys
                  && (forall r :: r in db.ops && r != lease.run ==> o.db.ops[r] == db.ops[r])
                  && var a, b := db.ops[lease.run], o.db.ops[lease.run];
                     && b.state == e.state && b.confirmed == e.confirmed
                     && (a.response.Some? ==> b.response == a.response)
                     && (a.response.None? ==> b.response == e.response)
                     && (a.result.Some? ==> b.result == a.result) && (a.result.None? ==> b.result == e.result)
                     && b.observed == (if e.observed.Some? then e.observed else a.observed)
                     && b.write == a.write && b.incident == a.incident && b.epoch == a.epoch)
  {
  }

  // ----- controls and answers ----------------------------------------------------------------

  /** What a control does to one run. */
  predicate Stopped(db: Db, parent: RunId, r: RunId, b: Run)
    requires r in db.runs && parent in db.runs
  {
    var a := db.runs[r];
    var incident := db.runs[parent].incident;
    if a.status in {Succeeded, Failed, Cancelled} then b == a
    else if r == parent && MayBeOut(db, parent) then b == a.(stopRequested := true, invalidated := true)
    else if r == parent then
      b == a.(stopRequested := true, invalidated := true, status := Cancelled, owner := None, expires := None,
              question := None)
    else if a.incident == incident && a.kind == Interaction then
      b == a.(stopRequested := true, invalidated := true, status := Cancelled, owner := None, expires := None)
    else b == a
  }

  lemma LatestIs(db: Db, incident: IncidentId, parent: RunId)
    requires IsLatest(db, incident, parent)
    ensures parent in db.runs && db.runs[parent].incident == incident && db.runs[parent].kind == Diagnosis
  {
  }

  lemma RunsStopped(db: Db, parent: RunId)
    requires parent in db.runs && db.runs[parent].kind == Diagnosis
    ensures var incident, op := db.runs[parent].incident, OperationOf(db, parent);
            var stopped := StopInteractions(db.runs[parent := StopRun(db.runs[parent], op)], incident);
            stopped.Keys == db.runs.Keys && forall r :: r in db.runs ==> Stopped(db, parent, r, stopped[r])
  {
  }

  lemma JournalStopped(db: Db, parent: RunId, r: RunId)
    requires parent in db.runs && r in db.ops
    ensures var latest := db.runs[parent];
            var ops := if Active(latest) && !Dispatched(OperationOf(db, parent)) then RejectPrepared(db.ops, parent)
                       else db.ops;
            ops.Keys == db.ops.Keys
            && ops[r] == if r == parent && db.ops[r].state == Prepared
                            && latest.status !in {Succeeded, Failed, Cancelled}
                         then db.ops[r].(state := Rejected) else db.ops[r]
  {
  }

  /** A new control is accepted exactly when it was made about the latest diagnosis run. It raises the revision of its
      incident and of no other, stops the diagnosis and the interactions, withdraws a write that was only prepared,
      takes back investigations still waiting unless it only supplements, and is stored, waiting itself exactly when
      it asks for an investigation. */
  lemma ControlsExactly(db: Db, incident: IncidentId, message: nat, action: ControlAction, content: string,
                        parent: RunId)
    requires incident in db.incidents && ControlKey(incident, message) !in db.controls
    ensures var o := ControlStop(db, incident, message, action, content, parent);
            && (o.Ok? <==> IsLatest(db, incident, parent))
            && (o.Ok? ==>
                  && o.db.now == db.now && o.db.commits == db.commits
                  && o.db.incidents == db.incidents[incident := Incident(db.incidents[incident].revision + 1)]
                  && o.db.runs.Keys == db.runs.Keys
                  && (forall r :: r in db.runs ==> Stopped(db, parent, r, o.db.runs[r]))
                  && o.db.ops.Keys == db.ops.Keys
                  && (forall r :: r in db.ops ==>
                        o.db.ops[r] ==
                        if r == parent && db.ops[r].state == Prepared
                           && db.runs[parent].status !in {Succeeded, Failed, Cancelled}
                        then db.ops[r].(state := Rejected) else db.ops[r])
                  && var key := ControlKey(incident, message);
                     && o.db.controls.Keys == db.controls.Keys + {key} && o.db.controls[key] == o.value
                     && o.value == Control(incident, ControlRequest(action, content), parent,
                                           if action == Investigate then Pending else Saved)
                     && (forall k :: k in db.controls ==>
                           o.db.controls[k] ==
                           if db.controls[k].incident == incident && db.controls[k].status == Pending
                              && action != Supplement
                           then db.controls[k].(status := Superseded) else db.controls[k]))
  {
    if IsLatest(db, incident, parent) {
      LatestIs(db, incident, parent);
      RunsStopped(db, parent);
      forall r | r in db.ops { JournalStopped(db, parent, r); }
    }
    hide IsLatest, Stopped, StopInteractions, StopRun, RejectPrepared, OperationOf;
  }

  /** A message key is used once: the same request finds its control again and changes nothing, another is refused. */
  lemma ControlReplays(db: Db, incident: IncidentId, message: nat, action: ControlAction, content: string,
                       parent: RunId)
    requires incident in db.incidents && ControlKey(incident, message) in db.controls
    ensures var o := ControlStop(db, incident, message, action, content, parent);
            var saved := db.controls[ControlKey(incident, message)];
            o == if saved.request == ControlRequest(action, content) then Ok(db, saved) else Err(IdempotencyConflict)
  {
  }

  /** The open question of the run is this one, and it is answered in full or skipped. */
  predicate Answers(r: Run, questionId: nat, version: nat, skip: bool, slots: set<string>) {
    && r.status == WaitingUser && !r.stopRequested && r.question.Some?
    && r.question.value.id == questionId && r.question.value.version == version
    && (skip || slots == r.question.value.slots)
  }

  /** A new answer is accepted exactly when it answers the open question of a run of its incident. The run then holds
      the answer, is queued with all its attempts back and is current again, although the answer is newer input for
      every other run of the incident. */
  lemma AnswersExactly(db: Db, incident: IncidentId, message: nat, run: RunId, questionId: nat, version: nat,
                       skip: bool, slots: set<string>, messageId: nat)
    requires incident in db.incidents && ControlKey(incident, message) !in db.controls
    ensures var o := AnswerQuestion(db, incident, message, run, questionId, version, skip, slots, messageId);
            && (o.Ok? <==> && run in db.runs && db.runs[run].incident == incident
                           && Answers(db.runs[run], questionId, version, skip, slots))
            && (o.Ok? ==>
                  && OnlyRun(db, o.db, run) && o.db.ops == db.ops && o.db.now == db.now && o.db.commits == db.commits
                  && o.db.incidents == db.incidents[incident := Incident(db.incidents[incident].revision + 1)]
                  && var a, b := db.runs[run], o.db.runs[run];
                     && b.answer == Some(AnswerPayload(questionId, version, messageId)) && b.question == a.question
                     && b.status == Queued && b.attempt == a.attempt && b.attemptBase == a.attempt
                     && b.inputsAccepted == a.inputsAccepted + 1
                     && SameCase(a, b.(answer := a.answer, revision := a.revision, attemptBase := a.attemptBase,
                                       inputsAccepted := a.inputsAccepted))
                     && b.epoch == a.epoch
                     && RevisionCurrent(o.db, run)
                     && (forall r :: r in db.runs && r != run && db.runs[r].incident == incident
                                     && db.runs[r].revision <= db.incidents[incident].revision ==>
                           !RevisionCurrent(o.db, r))
                     && o.value == Control(incident, AnswerRequest(run, questionId, version, skip, slots, messageId),
                                           run, Saved)
                     && o.db.controls == db.controls[ControlKey(incident, message) := o.value])
  {
  }

  lemma AnswerReplays(db: Db, incident: IncidentId, message: nat, run: RunId, questionId: nat, version: nat,
                      skip: bool, slots: set<string>, messageId: nat)
    requires incident in db.incidents && ControlKey(incident, message) in db.controls
    ensures var o := AnswerQuestion(db, incident, message, run, questionId, version, skip, slots, messageId);
            var saved := db.controls[ControlKey(incident, message)];
            o == if saved.request == AnswerRequest(run, questionId, version, skip, slots, messageId)
                 then Ok(db, saved) else Err(IdempotencyConflict)
  {
  }

  // ----- new runs ----------------------------------------------------------------------------

  /** A run no one has worked on, created after all others. */
  predicate IsNew(db: Db, db': Db, run: RunId, incident: IncidentId, kind: RunKind, revision: nat) {
    && run !in db.runs && db'.commits == db.commits + 1 && OnlyRuns(db, db')
    && db'.runs == db.runs[run := Run(incident, kind, db.commits, Queued, None, None, 0, 0, 0, None, false, false,
                                      revision, None, None, None, 0)]
  }

  /** A round is opened exactly on top of the latest diagnosis, over and done, with nothing else under way and no write
      open; a state that still waits may only be left behind when it was cancelled by newer input. The new diagnosis
      is current and the latest. */
  lemma RoundOpensExactly(db: Db, incident: IncidentId, parent: Option<RunId>, run: RunId, resumable: bool)
    requires incident in db.incidents && forall r :: r in db.runs ==> db.runs[r].created < db.commits
    ensures var o := AcceptRound(db, incident, parent, run, resumable);
            && (o.Ok? <==>
                  && ParentIsLatest(db, incident, parent) && run !in db.runs
                  && (parent.Some? ==> db.runs[parent.value].status in {Succeeded, Failed, Cancelled})
                  && (resumable ==> parent.Some? && db.runs[parent.value].status == Cancelled
                                    && db.runs[parent.value].invalidated)
                  && Idle(db, incident, Interaction) && Idle(db, incident, Diagnosis) && Settled(db, incident))
            && (o.Ok? ==>
                  && IsNew(db, o.db, run, incident, Diagnosis, db.incidents[incident].revision)
                  && IsLatest(o.db, incident, run) && RevisionCurrent(o.db, run))
  {
  }

  /** A waiting investigation is started, dropped or left alone: dropped exactly when its run is no longer the latest,
      started exactly when a round can be opened on that run. */
  lemma ActivatesExactly(db: Db, key: ControlKey, run: RunId, resumable: bool)
    requires key in db.controls && db.controls[key].status == Pending
    ensures var c := db.controls[key]; var o := ActivatePending(db, key, run, resumable);
            var round := AcceptRound(db, c.incident, Some(c.parent), run, resumable);
            if !IsLatest(db, c.incident, c.parent) then
              o == Ok(db.(controls := db.controls[key := c.(status := Superseded)]), ())
            else if round.Ok? then
              o == Ok(round.db.(controls := round.db.controls[key := c.(status := Started)]), ())
            else o.Err?
  {
    hide IsLatest, HasUnresolved, HasActive, InsertRun;
  }

  /** The interaction of the owner succeeds and, in the same transaction, opens the round it asks for; when the round
      cannot be opened, neither happens. */
  lemma CompletesExactly(db: Db, lease: Lease, child: Option<RunId>, parent: Option<RunId>, resumable: bool)
    ensures var o := CompleteInteraction(db, lease, child, parent, resumable);
            && (!Owns(db, lease) ==> o == Err(LeaseLost))
            && (Owns(db, lease) ==>
                  var done := db.(runs := db.runs[lease.run := db.runs[lease.run].(status := Succeeded, owner := None,
                                                                                   expires := None)]);
                  if child.None? then o == Ok(done, ())
                  else
                    var round := AcceptRound(done, lease.row.incident, parent, child.value, resumable);
                    (o.Ok? <==> round.Ok?) && (o.Ok? ==> o.db == round.db)
                    && (round.Err? ==> o == Err(round.error)))
  {
    hide AcceptRound;
  }

  /** A delayed recheck gets its run exactly when its incident is quiet. */
  lemma DelayedStartsExactly(db: Db, incident: IncidentId, run: RunId)
    ensures var o := ActivateDelayed(db, incident, run);
            && (o.Ok? <==>
                  && incident in db.incidents && run !in db.runs && Idle(db, incident, Diagnosis)
                  && Idle(db, incident, Interaction) && Settled(db, incident))
            && (o.Ok? ==> IsNew(db, o.db, run, incident, Interaction, db.incidents[incident].revision))
  {
  }

  /** An interaction is accepted exactly on the latest diagnosis, which is over or, for a question about the past, may
      still wait; while another interaction runs it is refused, and a new look also while a write is open. */
  lemma InteractsExactly(db: Db, incident: IncidentId, parent: Option<RunId>, run: RunId, historical: bool)
    requires incident in db.incidents
    ensures var o := AcceptInteraction(db, incident, parent, run, historical);
            && (o.Ok? <==>
                  && ParentIsLatest(db, incident, parent) && run !in db.runs && Idle(db, incident, Interaction)
                  && (historical || Settled(db, incident))
                  && (parent.Some? ==>
                        || db.runs[parent.value].status in {Succeeded, Failed, Cancelled}
                        || (historical && db.runs[parent.value].status in {WaitingApproval, WaitingUser})))
            && (o.Ok? ==> IsNew(db, o.db, run, incident, Interaction, 0))
  {
  }

  /** A new incident comes with its first diagnosis, current from the start; ids are used once. */
  lemma IncidentExactly(db: Db, incident: IncidentId, run: RunId)
    requires forall r :: r in db.runs ==> db.runs[r].incident in db.incidents
    ensures var o := AcceptIncident(db, incident, run);
            && (o.Ok? <==> incident !in db.incidents && run !in db.runs)
            && (o.Ok? ==>
                  && o.db.incidents == db.incidents[incident := Incident(0)] && o.db.ops == db.ops
                  && o.db.controls == db.controls && o.db.now == db.now && o.db.commits == db.commits + 1
                  && o.db.runs == db.runs[run := o.db.runs[run]] && o.db.runs[run].status == Queued
                  && o.db.runs[run].kind == Diagnosis && o.db.runs[run].approval == None
                  && IsLatest(o.db, incident, run) && RevisionCurrent(o.db, run))
  {
  }

  /** A delayed recheck that is no longer wanted is cancelled exactly while it is active. */
  lemma DelayedDropsExactly(db: Db, run: RunId)
    ensures var o := CancelDelayed(db, run);
            && (o.Ok? <==> run in db.runs && db.runs[run].kind == Interaction
                           && db.runs[run].status !in {Succeeded, Failed, Cancelled})
            && (o.Ok? ==>
                  && OnlyRun(db, o.db, run) && OnlyRuns(db, o.db) && o.db.commits == db.commits
                  && o.db.runs[run] == db.runs[run].(status := Cancelled, owner := None, expires := None))
  {
  }
}
