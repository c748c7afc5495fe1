/** The repository classes: transactions that update the tables in place.

    Every method commits exactly the transaction that `Ledger` defines on values, or leaves all tables
    as they were. The lemmas about those functions therefore hold of this class.
 */
module Repository {
  import opened Wrappers
  import opened Ledger
  import opened LedgerInvariants

  datatype Result<+T> = Done(value: T) | Refused(error: Error)

  /** The result a caller sees of a transaction on values. */
  function ResultOf<T>(o: Outcome<T>): (r: Result<T>) {
    match o case Ok(_, v) => Done(v) case Err(e) => Refused(e)
  }

  /** The tables after a transaction; a refused one changes nothing. */
  function Committed<T>(db: Db, o: Outcome<T>): (after: Db) {
    match o case Ok(next, _) => next case Err(_) => db
  }

  /** `run` is the row that `ORDER BY created_at LIMIT 1 FOR UPDATE SKIP LOCKED` returns. */
  ghost predicate OldestClaimable(db: Db, locked: set<RunId>, run: RunId) {
    && Claimable(db, run) && run !in locked
    && forall r :: r !in locked && Claimable(db, r) ==> db.runs[run].created <= db.runs[r].created
  }

  /** A deferred investigation, the run it would start, and whether the state shown to the user still waits. */
  datatype Candidate = Candidate(key: ControlKey, child: RunId, resumable: bool)

  /** All candidates of one `activate_pending` pass, in order. */
  function ActivateAll(db: Db, candidates: seq<Candidate>): (after: Db)
    decreases |candidates|
  {
    if candidates == [] then db
    else
      var before, c := ActivateAll(db, candidates[..|candidates| - 1]), candidates[|candidates| - 1];
      Committed(before, ActivatePending(before, c.key, c.child, c.resumable))
  }

  /** A whole pass keeps the table invariant and takes nothing back that is final. */
  lemma {:induction false} ActivateAllKeeps(db: Db, candidates: seq<Candidate>, maxAttempts: nat)
    requires DbOk(db, maxAttempts)
    ensures DbOk(ActivateAll(db, candidates), maxAttempts) && ActivateAll(db, candidates).ops == db.ops
    decreases |candidates|
  {
    if candidates != [] {
      var c := candidates[|candidates| - 1];
      ActivateAllKeeps(db, candidates[..|candidates| - 1], maxAttempts);
      var before := ActivateAll(db, candidates[..|candidates| - 1]);
      if ActivatePending(before, c.key, c.child, c.resumable).Ok? {
        ActivatePendingKeeps(before, c.key, c.child, c.resumable, maxAttempts);
      }
    }
  }

  class Store {
    var now: nat
    var commits: nat
    var incidents: map<IncidentId, Incident>
    var runs: map<RunId, Run>
    var ops: map<RunId, Operation>
    var controls: map<ControlKey, Control>

    function Tables(): (db: Db)
      reads this
    {
      Db(now, commits, incidents, runs, ops, controls)
    }

    constructor ()
      ensures Tables() == Db(0, 0, map[], map[], map[], map[])
    {
      now, commits := 0, 0;
      incidents, runs, ops, controls := map[], map[], map[], map[];
    }

    /** leases.py:28-48 */
    method ClaimOldest(owner: WorkerId, seconds: nat, maxAttempts: nat, locked: set<RunId>)
        returns (lease: Option<Lease>)
      modifies this
      ensures lease.None? ==> Tables() == old(Tables()) && forall r :: r !in locked ==> !Claimable(old(Tables()), r)
      ensures lease.Some? ==>
                && OldestClaimable(old(Tables()), locked, lease.value.run)
                && Claim(old(Tables()), lease.value.run, owner, seconds, maxAttempts) == Ok(Tables(), lease.value)
    {
      var rest := runs.Keys - locked;
      var best: Option<RunId> := None;
      while rest != {}
        invariant rest <= runs.Keys - locked
        invariant best.Some? ==> Claimable(Tables(), best.value) && best.value !in locked
        invariant forall r :: r in runs.Keys - locked - rest && Claimable(Tables(), r) ==>
                    best.Some? && runs[best.value].created <= runs[r].created
        decreases |rest|
      {
        var r :| r in rest;
        rest := rest - {r};
        if Claimable(Tables(), r) && (best.None? || runs[r].created < runs[best.value].created) {
          best := Some(r);
        }
      }
      if best.None? {
        return None;
      }
      var row := runs[best.value];
      var recoveryOnly := row.attempt - row.attemptBase >= maxAttempts;
      row := row.(status := Running, owner := Some(owner), epoch := row.epoch + 1, expires := Some(now + seconds),
                  retryAt := None);
      if !recoveryOnly {
        row := row.(attempt := row.attempt + 1);
      }
      runs := runs[best.value := row];
      lease := Some(Lease(best.value, row, recoveryOnly));
    }

    /** leases.py:78-82 */
    method Beat(lease: Lease, seconds: nat) returns (r: Result<()>)
      modifies this
      ensures r == ResultOf(Heartbeat(old(Tables()), lease, seconds))
      ensures Tables() == Committed(old(Tables()), Heartbeat(old(Tables()), lease, seconds))
    {
      if !Fenced(Tables(), lease) {
        return Refused(LeaseLost);
      }
      runs := runs[lease.run := runs[lease.run].(expires := Some(now + seconds))];
      r := Done(());
    }

    /** leases.py:84-122 */
    method FinishRun(lease: Lease, requested: RunStatus, retrySeconds: Option<nat>, question: Option<Question>)
        returns (r: Result<RunStatus>)
      modifies this
      ensures r == ResultOf(Finish(old(Tables()), lease, requested, retrySeconds, question))
      ensures Tables() == Committed(old(Tables()), Finish(old(Tables()), lease, requested, retrySeconds, question))
    {
      if requested == Queued || requested == Running || (requested == RetryScheduled) != retrySeconds.Some? {
        return Refused(InvalidStatus);
      }
      if !Fenced(Tables(), lease) {
        return Refused(LeaseLost);
      }
      var status, row := requested, runs[lease.run];
      if row.stopRequested
          && (status == Succeeded || status == Failed || status == WaitingUser || status == WaitingApproval) {
        if lease.run in ops && Uncertain(ops[lease.run].state) {
          status := Reconciling;
        } else {
          status := Cancelled;
        }
      }
      assert status == FinishStatus(requested, row.stopRequested, OperationOf(Tables(), lease.run));
      var asked, answer := row.question, row.answer;
      if status == WaitingUser && question.Some? {
        asked, answer := question, None;
      } else if Terminal(status) {
        asked := None;
      }
      if status == RetryScheduled && lease.run in ops && ops[lease.run].state != Prepared
          && ops[lease.run].state != Rejected {
        return Refused(UnsafeRetry);
      }
      var retryAt := if retrySeconds.Some? then Some(now + retrySeconds.value) else None;
      runs := runs[lease.run := row.(status := status, owner := None, expires := None, retryAt := retryAt,
                                     question := asked, answer := answer)];
      r := Done(status);
    }

    /** operations.py:43-64 */
    method SaveApproval(run: RunId, approval: Approval) returns (r: Result<()>)
      modifies this
      ensures r == ResultOf(QueueApproval(old(Tables()), run, approval))
      ensures Tables() == Committed(old(Tables()), QueueApproval(old(Tables()), run, approval))
    {
      if run !in runs || !RevisionCurrent(Tables(), run) {
        return Refused(ApprovalConflict);
      }
      var row := runs[run];
      if row.approval.Some? {
        if row.approval.value == approval {
          return Done(());
        }
        return Refused(ApprovalConflict);
      }
      if row.status != WaitingApproval || HasUnresolved(Tables(), row.incident) {
        return Refused(ApprovalConflict);
      }
      runs := runs[run := row.(approval := Some(approval), status := Queued, attemptBase := row.attempt,
                               inputsAccepted := row.inputsAccepted + 1)];
      r := Done(());
    }

    /** operations.py:78-100 */
    method PrepareOperation(lease: Lease, write: WriteRequest) returns (r: Result<Operation>)
      modifies this
      ensures r == ResultOf(Prepare(old(Tables()), lease, write))
      ensures Tables() == Committed(old(Tables()), Prepare(old(Tables()), lease, write))
    {
      if !Fenced(Tables(), lease) {
        return Refused(LeaseLost);
      }
      if OtherUnresolved(Tables(), lease.row.incident, lease.run) || !RevisionCurrent(Tables(), lease.run) {
        return Refused(ApprovalConflict);
      }
      if lease.run in ops {
        var existing := ops[lease.run];
        if existing.write.approvalId != write.approvalId || existing.write.planRevision != write.planRevision {
          return Refused(ApprovalConflict);
        }
        return Done(existing);
      }
      var op := Operation(lease.row.incident, write, Prepared, lease.row.epoch, None, None, None, false);
      ops := ops[lease.run := op];
      r := Done(op);
    }

    /** operations.py:102-110 */
    method DispatchOperation(lease: Lease) returns (r: Result<()>)
      modifies this
      ensures r == ResultOf(Dispatch(old(Tables()), lease))
      ensures Tables() == Committed(old(Tables()), Dispatch(old(Tables()), lease))
    {
      if !Fenced(Tables(), lease) {
        return Refused(LeaseLost);
      }
      if !RevisionCurrent(Tables(), lease.run) {
        return Refused(ApprovalConflict);
      }
      if lease.run !in ops || ops[lease.run].state != Prepared {
        return Refused(LeaseLost);
      }
      ops := ops[lease.run := ops[lease.run].(state := Dispatching, epoch := lease.row.epoch)];
      r := Done(());
    }

    /** operations.py:112-138 */
    method RecordOperation(lease: Lease, e: JournalEntry) returns (r: Result<()>)
      modifies this
      ensures r == ResultOf(Record(old(Tables()), lease, e))
      ensures Tables() == Committed(old(Tables()), Record(old(Tables()), lease, e))
    {
      if e.state == Prepared || e.state == Dispatching {
        return Refused(InvalidStatus);
      }
      if !Fenced(Tables(), lease) {
        return Refused(LeaseLost);
      }
      if lease.run !in ops || !Allowed(ops[lease.run].state, e.state) {
        return Refused(InvalidTransition);
      }
      var op := ops[lease.run];
      if (e.response.Some? && op.response.Some?) || (e.result.Some? && op.result.Some?) {
        return Refused(ImmutableResponse);
      }
      op := op.(state := e.state, confirmed := e.confirmed);
      if e.response.Some? {
        op := op.(response := e.response);
      }
      if e.observed.Some? {
        op := op.(observed := e.observed);
      }
      if e.result.Some? {
        op := op.(result := e.result);
      }
      ops := ops[lease.run := op];
      r := Done(());
    }

    /** controls.py:54-107 */
    method AcceptControl(incident: IncidentId, clientMessage: nat, action: ControlAction, content: string,
                         parent: RunId)
      returns (r: Result<Control>)
      modifies this
      ensures r == ResultOf(ControlStop(old(Tables()), incident, clientMessage, action, content, parent))
      ensures Tables() == Committed(old(Tables()),
                                    ControlStop(old(Tables()), incident, clientMessage, action, content, parent))
    {
      hide StopInteractions, SupersedePending;
      var key, request := ControlKey(incident, clientMessage), ControlRequest(action, content);
      if incident !in incidents {
        return Refused(RoundNotFound);
      }
      if key in controls {
        if controls[key].request != request {
          return Refused(IdempotencyConflict);
        }
        return Done(controls[key]);
      }
      if !IsLatest(Tables(), incident, parent) {
        return Refused(RoundConflict);
      }
      var latest := runs[parent];
      hide IsLatest;
      var dispatched := parent in ops && ops[parent].state != Prepared && ops[parent].state != Rejected;
      incidents := incidents[incident := Incident(incidents[incident].revision + 1)];
      if !Terminal(latest.status) {
        latest := latest.(stopRequested := true, invalidated := true);
        if !dispatched {
          if parent in ops && ops[parent].state == Prepared {
            ops := ops[parent := ops[parent].(state := Rejected)];
          }
          latest := latest.(status := Cancelled, owner := None, expires := None, question := None);
        }
      }
      ghost var op := OperationOf(old(Tables()), parent);
      assert latest == StopRun(runs[parent], op);
      assert ops == if Active(runs[parent]) && !Dispatched(op) then RejectPrepared(old(ops), parent) else old(ops);
      hide StopRun, RejectPrepared;
      runs := StopInteractions(runs[parent := latest], incident);
      if action != Supplement {
        controls := SupersedePending(controls, incident);
      }
      var control := Control(incident, request, parent, if action == Investigate then Pending else Saved);
      controls := controls[key := control];
      r := Done(control);
    }

    /** rounds.py:37-105 */
    method OpenRound(incident: IncidentId, parent: Option<RunId>, run: RunId, resumable: bool)
        returns (r: Result<RunId>)
      modifies this
      ensures r == ResultOf(AcceptRound(old(Tables()), incident, parent, run, resumable))
      ensures Tables() == Committed(old(Tables()), AcceptRound(old(Tables()), incident, parent, run, resumable))
    {
      if incident !in incidents {
        return Refused(RoundNotFound);
      }
      if !ParentIsLatest(Tables(), incident, parent) || HasActive(Tables(), incident, Interaction) {
        return Refused(RoundConflict);
      }
      if parent.Some? && !Terminal(runs[parent.value].status) {
        return Refused(RoundConflict);
      }
      var invalidated := parent.Some? && runs[parent.value].status == Cancelled && runs[parent.value].invalidated;
      if (resumable && !invalidated) || HasUnresolved(Tables(), incident) {
        return Refused(RoundConflict);
      }
      if run in runs || HasActive(Tables(), incident, Diagnosis) {
        return Refused(UniqueViolation);
      }
      runs := runs[run := NewRun(incident, Diagnosis, commits, incidents[incident].revision)];
      commits := commits + 1;
      r := Done(run);
    }

    /** controls.py:110-141: every candidate is arbitrated in its own transaction. */
    method ActivateCandidates(candidates: seq<Candidate>)
      modifies this
      ensures Tables() == ActivateAll(old(Tables()), candidates)
    {
      for k := 0 to |candidates|
        invariant Tables() == ActivateAll(old(Tables()), candidates[..k])
      {
        assert candidates[..k + 1][..k] == candidates[..k];
        ghost var before := Tables();
        var Candidate(key, run, resumable) := candidates[k];
        if key !in controls || controls[key].status != Pending {
          continue;
        }
        var control := controls[key];
        if !IsLatest(Tables(), control.incident, control.parent) {
          controls := controls[key := control.(status := Superseded)];
          continue;
        }
        if !Terminal(runs[control.parent].status) || HasUnresolved(Tables(), control.incident)
           || HasActive(Tables(), control.incident, Interaction)
        {
          continue;
        }
        var child := OpenRound(control.incident, Some(control.parent), run, resumable);
        if child.Done? {
          controls := controls[key := control.(status := Started)];
        }
        assert Tables() == Committed(before, ActivatePending(before, key, run, resumable));
      }
      assert candidates[..|candidates|] == candidates;
    }

    /** controls.py:144-195 */
    method AcceptAnswer(incident: IncidentId, clientMessage: nat, run: RunId, questionId: nat, version: nat, skip: bool,
                        slots: set<string>, messageId: nat)
      returns (r: Result<Control>)
      modifies this
      ensures r == ResultOf(AnswerQuestion(old(Tables()), incident, clientMessage, run, questionId, version, skip,
                                           slots, messageId))
      ensures Tables() == Committed(old(Tables()),
                                    AnswerQuestion(old(Tables()), incident, clientMessage, run, questionId, version,
                                                   skip, slots, messageId))
    {
      var key, request := ControlKey(incident, clientMessage),
          AnswerRequest(run, questionId, version, skip, slots, messageId);
      if incident !in incidents {
        return Refused(RoundNotFound);
      }
      if key in controls {
        if controls[key].request != request {
          return Refused(IdempotencyConflict);
        }
        return Done(controls[key]);
      }
      if run !in runs || runs[run].incident != incident {
        return Refused(RoundNotFound);
      }
      var row := runs[run];
      if row.status != WaitingUser || row.stopRequested || row.question.None? || row.question.value.id != questionId
         || row.question.value.version != version || (!skip && slots != row.question.value.slots)
      {
        return Refused(RoundConflict);
      }
      var revision := incidents[incident].revision + 1;
      incidents := incidents[incident := Incident(revision)];
      runs := runs[run := row.(answer := Some(AnswerPayload(questionId, version, messageId)), status := Queued,
                               revision := revision,
                               attemptBase := row.attempt, inputsAccepted := row.inputsAccepted + 1)];
      var control := Control(incident, request, run, Saved);
      controls := controls[key := control];
      r := Done(control);
    }
  }
}
