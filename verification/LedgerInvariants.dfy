/** What every transaction keeps of the tables, and what no transaction ever takes back. */
module LedgerInvariants {
  import opened Wrappers
  import opened Ledger

  /** The journaled response is the one the approved write was meant to produce. */
  predicate ResponseMatches(op: Operation) {
    && op.response.Some?
    && op.response.value.uid == op.write.before.uid
    && op.response.value.configuration == op.write.target.configuration
    && op.result == Some(ExecutionResult(true, op.response))
  }

  predicate OperationOk(op: Operation) {
    && (op.confirmed <==> Attributed(op.state))
    && (op.state == Prepared || op.state == Dispatching ==> op.response.None? && op.result.None?)
    && (Attributed(op.state) ==> ResponseMatches(op))
  }

  predicate AttemptsOk(r: Run, maxAttempts: nat) {
    && r.attemptBase <= r.attempt <= r.attemptBase + maxAttempts
    && r.attemptBase <= maxAttempts * r.inputsAccepted
  }

  predicate RunOk(r: Run, maxAttempts: nat) {
    && AttemptsOk(r, maxAttempts)
    && (r.status == Running ==> r.owner.Some? && 1 <= r.epoch)
    && (r.kind == Interaction && r.stopRequested ==> Terminal(r.status))
  }

  ghost predicate RunsOk(db: Db, maxAttempts: nat) {
    forall r :: r in db.runs ==>
      RunOk(db.runs[r], maxAttempts) && db.runs[r].created < db.commits && db.runs[r].incident in db.incidents
  }

  ghost predicate OperationsOk(db: Db) {
    forall r :: r in db.ops ==>
      && r in db.runs
      && db.runs[r].kind == Diagnosis
      && db.ops[r].incident == db.runs[r].incident
      && db.ops[r].epoch <= db.runs[r].epoch
      && OperationOk(db.ops[r])
  }

  predicate BothActive(db: Db, a: RunId, b: RunId) {
    && a in db.runs && b in db.runs && a != b
    && db.runs[a].incident == db.runs[b].incident && db.runs[a].kind == db.runs[b].kind
    && Active(db.runs[a]) && Active(db.runs[b])
  }

  /** The partial unique index over active runs. */
  ghost predicate OneActive(db: Db) {
    forall a, b :: !BothActive(db, a, b)
  }

  predicate ActiveButOlder(db: Db, a: RunId, b: RunId) {
    && a in db.runs && b in db.runs && a != b
    && db.runs[a].incident == db.runs[b].incident && db.runs[a].kind == Diagnosis && db.runs[b].kind == Diagnosis
    && Active(db.runs[a]) && db.runs[a].created <= db.runs[b].created
  }

  /** An active diagnosis is the latest one. */
  ghost predicate ActiveIsLatest(db: Db) {
    forall a, b :: !ActiveButOlder(db, a, b)
  }

  predicate ActiveBesideUnresolved(db: Db, a: RunId, o: RunId) {
    && a in db.runs && o in db.ops && a != o
    && db.runs[a].kind == Diagnosis && Active(db.runs[a])
    && db.ops[o].incident == db.runs[a].incident && Unresolved(db.ops[o].state)
  }

  /** While a diagnosis is active, no other run of its incident has an unresolved write. */
  ghost predicate OthersResolved(db: Db) {
    forall a, o :: !ActiveBesideUnresolved(db, a, o)
  }

  predicate BothUnresolved(db: Db, a: RunId, b: RunId) {
    && a in db.ops && b in db.ops && a != b
    && db.ops[a].incident == db.ops[b].incident
    && Unresolved(db.ops[a].state) && Unresolved(db.ops[b].state)
  }

  ghost predicate OneUnresolved(db: Db) {
    forall a, b :: !BothUnresolved(db, a, b)
  }

  ghost predicate DbOk(db: Db, maxAttempts: nat) {
    && RunsOk(db, maxAttempts)
    && OperationsOk(db)
    && OneActive(db)
    && ActiveIsLatest(db)
    && OthersResolved(db)
    && OneUnresolved(db)
  }

  // ----- what is never taken back ------------------------------------------------------------

  predicate RunEvolves(a: Run, b: Run) {
    && b.incident == a.incident && b.kind == a.kind && b.created == a.created
    && a.epoch <= b.epoch
    && (Terminal(a.status) ==> b.status == a.status)
    && (a.stopRequested ==> b.stopRequested && (Published(b.status) ==> b.status == a.status))
    && (b.epoch == a.epoch && b.status == Running ==> a.status == Running && b.owner == a.owner)
    && a.attempt <= b.attempt && a.inputsAccepted <= b.inputsAccepted
    && (a.approval.Some? ==> b.approval == a.approval)
  }

  predicate StateEvolves(a: OperationState, b: OperationState) {
    || a == b
    || Allowed(a, b)
    || (a == Prepared && b == Dispatching)
  }

  predicate OperationEvolves(a: Operation, b: Operation) {
    && b.incident == a.incident && b.write == a.write
    && StateEvolves(a.state, b.state)
    && (a.state != Prepared ==> b.epoch == a.epoch)
    && a.epoch <= b.epoch
    && (a.response.Some? ==> b.response == a.response)
    && (a.result.Some? ==> b.result == a.result)
  }

  /** Two consecutive versions of the tables. */
  ghost predicate Evolves(a: Db, b: Db) {
    && a.now <= b.now
    && a.runs.Keys <= b.runs.Keys
    && a.ops.Keys <= b.ops.Keys
    && (forall r :: r in a.runs ==> RunEvolves(a.runs[r], b.runs[r]))
    && (forall r :: r in a.ops ==> OperationEvolves(a.ops[r], b.ops[r]))
    && (forall r :: r in b.ops && r !in a.ops ==> b.ops[r].state == Prepared)
    && (forall r :: r in a.runs && Terminal(a.runs[r].status) ==> OperationOf(b, r) == OperationOf(a, r))
  }

  lemma EvolvesTransitive(a: Db, b: Db, c: Db)
    requires Evolves(a, b) && Evolves(b, c)
    requires forall r :: r in c.ops && r !in a.ops ==> c.ops[r].state == Prepared
    requires forall r :: r in a.ops ==> StateEvolves(a.ops[r].state, c.ops[r].state)
    ensures Evolves(a, c)
  {
  }

  // ----- generic updates ---------------------------------------------------------------------

  /** No run comes to life and no journal row is touched. */
  ghost predicate OnlyRunsEvolve(db: Db, db': Db) {
    && db'.runs.Keys == db.runs.Keys && db'.ops == db.ops && db'.commits == db.commits
    && db.incidents.Keys <= db'.incidents.Keys && db.now <= db'.now
    && (forall r :: r in db.runs ==> RunEvolves(db.runs[r], db'.runs[r]))
  }

  lemma OnlyRunsEvolveRuns(db: Db, db': Db, maxAttempts: nat)
    requires DbOk(db, maxAttempts) && OnlyRunsEvolve(db, db')
    requires forall r :: r in db.runs ==> RunOk(db'.runs[r], maxAttempts)
    ensures RunsOk(db', maxAttempts) && OneActive(db') && ActiveIsLatest(db')
  {
    forall a, b ensures !BothActive(db', a, b) { assert !BothActive(db, a, b); }
    forall a, b ensures !ActiveButOlder(db', a, b) { assert !ActiveButOlder(db, a, b); }
  }

  lemma OnlyRunsEvolveJournal(db: Db, db': Db, maxAttempts: nat)
    requires DbOk(db, maxAttempts) && OnlyRunsEvolve(db, db')
    ensures OperationsOk(db') && OthersResolved(db') && OneUnresolved(db') && Evolves(db, db')
  {
    forall a, o ensures !ActiveBesideUnresolved(db', a, o) { assert !ActiveBesideUnresolved(db, a, o); }
    forall a, b ensures !BothUnresolved(db', a, b) { assert !BothUnresolved(db, a, b); }
  }

  lemma OnlyRunsEvolveKeeps(db: Db, db': Db, maxAttempts: nat)
    requires DbOk(db, maxAttempts) && OnlyRunsEvolve(db, db')
    requires forall r :: r in db.runs ==> RunOk(db'.runs[r], maxAttempts)
    ensures DbOk(db', maxAttempts) && Evolves(db, db')
  {
    hide OnlyRunsEvolve, Evolves, RunsOk, OperationsOk, OneActive, ActiveIsLatest, OthersResolved, OneUnresolved;
    OnlyRunsEvolveRuns(db, db', maxAttempts);
    OnlyRunsEvolveJournal(db, db', maxAttempts);
  }

  lemma RunFacts(db: Db, maxAttempts: nat)
    requires DbOk(db, maxAttempts)
    ensures forall r :: r in db.runs ==> RunOk(db.runs[r], maxAttempts)
  {
  }

  lemma SameRowsKeeps(db: Db, db': Db, maxAttempts: nat)
    requires DbOk(db, maxAttempts) && db'.runs == db.runs && db'.ops == db.ops && db'.commits == db.commits
    requires db.incidents.Keys <= db'.incidents.Keys && db.now <= db'.now
    ensures DbOk(db', maxAttempts) && Evolves(db, db')
  {
    hide DbOk, Evolves;
    RunFacts(db, maxAttempts);
    OnlyRunsEvolveKeeps(db, db', maxAttempts);
  }

  /** Replacing one row by a later version of itself. */
  lemma UpdateRunKeeps(db: Db, db': Db, run: RunId, maxAttempts: nat)
    requires DbOk(db, maxAttempts)
    requires run in db.runs && run in db'.runs && db'.runs == db.runs[run := db'.runs[run]]
    requires db'.ops == db.ops && db'.commits == db.commits && db.incidents.Keys <= db'.incidents.Keys
             && db.now <= db'.now
    requires RunEvolves(db.runs[run], db'.runs[run]) && RunOk(db'.runs[run], maxAttempts)
    ensures DbOk(db', maxAttempts) && Evolves(db, db')
  {
    hide DbOk, Evolves;
    RunFacts(db, maxAttempts);
    OnlyRunsEvolveKeeps(db, db', maxAttempts);
  }

  /** The journal row of an active diagnosis appears as prepared or moves on. */
  ghost predicate RowMoves(db: Db, db': Db, run: RunId) {
    && run in db.runs && db.runs[run].kind == Diagnosis && Active(db.runs[run])
    && run in db'.ops && db' == db.(ops := db.ops[run := db'.ops[run]])
    && OperationOk(db'.ops[run]) && db'.ops[run].incident == db.runs[run].incident
    && db'.ops[run].epoch <= db.runs[run].epoch
    && (if run in db.ops then OperationEvolves(db.ops[run], db'.ops[run]) else db'.ops[run].state == Prepared)
  }

  lemma RowMovesRuns(db: Db, db': Db, run: RunId, maxAttempts: nat)
    requires DbOk(db, maxAttempts) && RowMoves(db, db', run)
    ensures RunsOk(db', maxAttempts) && OperationsOk(db') && OneActive(db') && ActiveIsLatest(db') && Evolves(db, db')
  {
    assert db'.runs == db.runs;
    forall a, b ensures !BothActive(db', a, b) { assert !BothActive(db, a, b); }
    forall a, b ensures !ActiveButOlder(db', a, b) { assert !ActiveButOlder(db, a, b); }
  }

  /** The incident of an active diagnosis has no unresolved row but its own. */
  lemma RowMovesResolved(db: Db, db': Db, run: RunId)
    requires OneActive(db) && OthersResolved(db) && OneUnresolved(db) && OperationsOk(db) && RowMoves(db, db', run)
    ensures OthersResolved(db') && OneUnresolved(db')
  {
    forall a, o ensures !ActiveBesideUnresolved(db', a, o) {
      assert !ActiveBesideUnresolved(db, a, o);
      assert !BothActive(db, a, run);
    }
    forall a, b ensures !BothUnresolved(db', a, b) {
      assert !BothUnresolved(db, a, b);
      assert !ActiveBesideUnresolved(db, run, a) && !ActiveBesideUnresolved(db, run, b);
    }
  }

  lemma UpdateOperationKeeps(db: Db, db': Db, run: RunId, maxAttempts: nat)
    requires DbOk(db, maxAttempts) && RowMoves(db, db', run)
    ensures DbOk(db', maxAttempts) && Evolves(db, db')
  {
    hide RowMoves, Evolves, RunsOk, OperationsOk, OneActive, ActiveIsLatest, OthersResolved, OneUnresolved;
    RowMovesRuns(db, db', run, maxAttempts);
    RowMovesResolved(db, db', run);
  }

  /** One row more, the newest of its incident and the only active one of its kind. */
  ghost predicate RunInserted(db: Db, db': Db, run: RunId) {
    && run !in db.runs && run in db'.runs && db'.runs == db.runs[run := db'.runs[run]]
    && db'.ops == db.ops && db'.commits == db.commits + 1 && db'.now == db.now && db'.incidents == db.incidents
    && var r := db'.runs[run];
       && r == NewRun(r.incident, r.kind, db.commits, r.revision) && r.incident in db.incidents
       && !HasActive(db, r.incident, r.kind) && (r.kind == Diagnosis ==> !HasUnresolved(db, r.incident))
  }

  lemma InsertedIsOneActive(db: Db, db': Db, run: RunId)
    requires RunInserted(db, db', run) && OneActive(db)
    ensures OneActive(db')
  {
    forall a, b ensures !BothActive(db', a, b) { assert !BothActive(db, a, b); }
  }

  lemma InsertedIsLatest(db: Db, db': Db, run: RunId, maxAttempts: nat)
    requires RunInserted(db, db', run) && ActiveIsLatest(db) && RunsOk(db, maxAttempts)
    ensures ActiveIsLatest(db') && RunsOk(db', maxAttempts)
  {
    forall a, b ensures !ActiveButOlder(db', a, b) { assert !ActiveButOlder(db, a, b); }
  }

  lemma InsertedIsResolved(db: Db, db': Db, run: RunId)
    requires RunInserted(db, db', run) && OthersResolved(db) && OneUnresolved(db) && OperationsOk(db)
    ensures OthersResolved(db') && OneUnresolved(db') && OperationsOk(db')
  {
    forall a, o ensures !ActiveBesideUnresolved(db', a, o) { assert !ActiveBesideUnresolved(db, a, o); }
    forall a, b ensures !BothUnresolved(db', a, b) { assert !BothUnresolved(db, a, b); }
  }

  lemma InsertedKeeps(db: Db, db': Db, run: RunId, maxAttempts: nat)
    requires DbOk(db, maxAttempts) && RunInserted(db, db', run)
    ensures DbOk(db', maxAttempts)
  {
    hide RunInserted, RunsOk, OperationsOk, OneActive, ActiveIsLatest, OthersResolved, OneUnresolved;
    InsertedIsOneActive(db, db', run);
    InsertedIsLatest(db, db', run, maxAttempts);
    InsertedIsResolved(db, db', run);
  }

  lemma InsertedEvolves(db: Db, db': Db, run: RunId, maxAttempts: nat)
    requires DbOk(db, maxAttempts) && RunInserted(db, db', run)
    ensures Evolves(db, db')
  {
  }

  /** A new active row. */
  lemma InsertRunKeeps(db: Db, run: RunId, incident: IncidentId, kind: RunKind, revision: nat, maxAttempts: nat)
    requires DbOk(db, maxAttempts) && incident in db.incidents
    requires kind == Diagnosis ==> !HasUnresolved(db, incident)
    requires InsertRun(db, run, incident, kind, revision).Ok?
    ensures var db' := InsertRun(db, run, incident, kind, revision).db; DbOk(db', maxAttempts) && Evolves(db, db')
  {
    hide DbOk, Evolves;
    InsertedKeeps(db, InsertRun(db, run, incident, kind, revision).db, run, maxAttempts);
    InsertedEvolves(db, InsertRun(db, run, incident, kind, revision).db, run, maxAttempts);
  }

  // ----- one lemma per transaction -----------------------------------------------------------

  lemma ClaimKeeps(db: Db, run: RunId, owner: WorkerId, seconds: nat, maxAttempts: nat)
    requires DbOk(db, maxAttempts) && Claim(db, run, owner, seconds, maxAttempts).Ok?
    ensures var db' := Claim(db, run, owner, seconds, maxAttempts).db; DbOk(db', maxAttempts) && Evolves(db, db')
  {
    var db' := Claim(db, run, owner, seconds, maxAttempts).db;
    UpdateRunKeeps(db, db', run, maxAttempts);
  }

  lemma HeartbeatKeeps(db: Db, lease: Lease, seconds: nat, maxAttempts: nat)
    requires DbOk(db, maxAttempts) && Heartbeat(db, lease, seconds).Ok?
    ensures var db' := Heartbeat(db, lease, seconds).db; DbOk(db', maxAttempts) && Evolves(db, db')
  {
    UpdateRunKeeps(db, Heartbeat(db, lease, seconds).db, lease.run, maxAttempts);
  }

  lemma FinishKeeps(db: Db, lease: Lease, requested: RunStatus, retrySeconds: Option<nat>, question: Option<Question>,
                    maxAttempts: nat)
    requires DbOk(db, maxAttempts) && Finish(db, lease, requested, retrySeconds, question).Ok?
    ensures var db' := Finish(db, lease, requested, retrySeconds, question).db;
            DbOk(db', maxAttempts) && Evolves(db, db')
  {
    hide DbOk, Evolves;
    RowFacts(db, lease.run, maxAttempts);
    UpdateRunKeeps(db, Finish(db, lease, requested, retrySeconds, question).db, lease.run, maxAttempts);
  }

  lemma ResetAttempts(r: Run, q: Run, maxAttempts: nat)
    requires AttemptsOk(r, maxAttempts)
    requires q.attempt == r.attempt && q.attemptBase == r.attempt && q.inputsAccepted == r.inputsAccepted + 1
    ensures AttemptsOk(q, maxAttempts)
  {
    assert maxAttempts * q.inputsAccepted == maxAttempts * r.inputsAccepted + maxAttempts;
  }

  lemma QueueApprovalKeeps(db: Db, run: RunId, approval: Approval, maxAttempts: nat)
    requires DbOk(db, maxAttempts) && QueueApproval(db, run, approval).Ok?
    ensures var db' := QueueApproval(db, run, approval).db; DbOk(db', maxAttempts) && Evolves(db, db')
  {
    var db' := QueueApproval(db, run, approval).db;
    if db' != db {
      ResetAttempts(db.runs[run], db'.runs[run], maxAttempts);
      UpdateRunKeeps(db, db', run, maxAttempts);
    }
  }

  lemma AnswerKeeps(db: Db, incident: IncidentId, key: nat, run: RunId, questionId: nat, version: nat, skip: bool,
                    slots: set<string>, messageId: nat, maxAttempts: nat)
    requires DbOk(db, maxAttempts)
    requires AnswerQuestion(db, incident, key, run, questionId, version, skip, slots, messageId).Ok?
    ensures var db' := AnswerQuestion(db, incident, key, run, questionId, version, skip, slots, messageId).db;
            DbOk(db', maxAttempts) && Evolves(db, db')
  {
    var db' := AnswerQuestion(db, incident, key, run, questionId, version, skip, slots, messageId).db;
    if ControlKey(incident, key) !in db.controls {
      ResetAttempts(db.runs[run], db'.runs[run], maxAttempts);
      UpdateRunKeeps(db, db', run, maxAttempts);
    }
  }

  lemma PrepareKeeps(db: Db, lease: Lease, write: WriteRequest, maxAttempts: nat)
    requires DbOk(db, maxAttempts) && Prepare(db, lease, write).Ok?
    requires lease.run in db.runs && db.runs[lease.run].kind == Diagnosis
             && db.runs[lease.run].incident == lease.row.incident
    ensures var db' := Prepare(db, lease, write).db; DbOk(db', maxAttempts) && Evolves(db, db')
  {
    if lease.run !in db.ops {
      UpdateOperationKeeps(db, Prepare(db, lease, write).db, lease.run, maxAttempts);
    }
  }

  lemma DispatchKeeps(db: Db, lease: Lease, maxAttempts: nat)
    requires DbOk(db, maxAttempts) && Dispatch(db, lease).Ok?
    ensures var db' := Dispatch(db, lease).db; DbOk(db', maxAttempts) && Evolves(db, db')
  {
    UpdateOperationKeeps(db, Dispatch(db, lease).db, lease.run, maxAttempts);
  }

  /** What a caller of `record` has to supply for the row to stay consistent. */
  predicate EntryOk(op: Operation, e: JournalEntry) {
    && (e.confirmed <==> Attributed(e.state))
    && (e.state == Applied ==> ResponseMatches(RecordedRow(op, e)))
  }

  lemma RecordKeeps(db: Db, lease: Lease, e: JournalEntry, maxAttempts: nat)
    requires DbOk(db, maxAttempts) && Record(db, lease, e).Ok?
    requires lease.run in db.ops ==> EntryOk(db.ops[lease.run], e)
    ensures var db' := Record(db, lease, e).db; DbOk(db', maxAttempts) && Evolves(db, db')
  {
    UpdateOperationKeeps(db, Record(db, lease, e).db, lease.run, maxAttempts);
  }

  lemma StopInteractionsKeeps(db: Db, incident: IncidentId, maxAttempts: nat)
    requires DbOk(db, maxAttempts)
    ensures var db' := db.(runs := StopInteractions(db.runs, incident)); DbOk(db', maxAttempts) && Evolves(db, db')
  {
    OnlyRunsEvolveKeeps(db, db.(runs := StopInteractions(db.runs, incident)), maxAttempts);
  }

  lemma JournalFacts(db: Db, run: RunId, maxAttempts: nat)
    requires DbOk(db, maxAttempts) && run in db.ops
    ensures OperationOk(db.ops[run]) && run in db.runs
  {
  }

  lemma RowFacts(db: Db, run: RunId, maxAttempts: nat)
    requires DbOk(db, maxAttempts) && run in db.runs
    ensures RunOk(db.runs[run], maxAttempts)
    ensures run in db.ops ==>
              db.ops[run].incident == db.runs[run].incident && db.ops[run].epoch <= db.runs[run].epoch
              && OperationOk(db.ops[run])
  {
  }

  /** The run after a stop, and the journal row with it. */
  lemma StopRunKeeps(db: Db, run: RunId, maxAttempts: nat)
    requires DbOk(db, maxAttempts) && run in db.runs && db.runs[run].kind == Diagnosis && Active(db.runs[run])
    ensures var op := OperationOf(db, run);
            var db' := db.(runs := db.runs[run := StopRun(db.runs[run], op)],
                           ops := if !Dispatched(op) then RejectPrepared(db.ops, run) else db.ops);
            DbOk(db', maxAttempts) && Evolves(db, db')
  {
    hide DbOk, Evolves;
    var op := OperationOf(db, run);
    var db1 := db.(ops := if !Dispatched(op) then RejectPrepared(db.ops, run) else db.ops);
    RowFacts(db, run, maxAttempts);
    if db1.ops != db.ops {
      UpdateOperationKeeps(db, db1, run, maxAttempts);
    } else {
      SameRowsKeeps(db, db1, maxAttempts);
    }
    var db2 := db1.(runs := db1.runs[run := StopRun(db.runs[run], op)]);
    UpdateRunKeeps(db1, db2, run, maxAttempts);
    EvolvesTransitive(db, db1, db2);
  }

  /** The tables right after the stop of the parent, before waiting interactions are cancelled. */
  ghost function ParentStopped(db: Db, parent: RunId): (db': Db)
    requires parent in db.runs
  {
    var op := OperationOf(db, parent);
    db.(runs := db.runs[parent := StopRun(db.runs[parent], op)],
        ops := if Active(db.runs[parent]) && !Dispatched(op) then RejectPrepared(db.ops, parent) else db.ops)
  }

  lemma ParentStoppedKeeps(db: Db, parent: RunId, maxAttempts: nat)
    requires DbOk(db, maxAttempts) && parent in db.runs && db.runs[parent].kind == Diagnosis
    ensures var db' := ParentStopped(db, parent); DbOk(db', maxAttempts) && Evolves(db, db')
  {
    if Active(db.runs[parent]) {
      StopRunKeeps(db, parent, maxAttempts);
    } else {
      assert db.runs[parent := db.runs[parent]] == db.runs;
      SameRowsKeeps(db, db, maxAttempts);
    }
  }

  lemma ControlKeeps(db: Db, incident: IncidentId, key: nat, action: ControlAction, content: string, parent: RunId,
                     maxAttempts: nat)
    requires DbOk(db, maxAttempts) && ControlStop(db, incident, key, action, content, parent).Ok?
    ensures var db' := ControlStop(db, incident, key, action, content, parent).db;
            DbOk(db', maxAttempts) && Evolves(db, db')
  {
    hide DbOk, Evolves;
    var db' := ControlStop(db, incident, key, action, content, parent).db;
    if ControlKey(incident, key) in db.controls {
      SameRowsKeeps(db, db', maxAttempts);
    } else {
      ParentStoppedKeeps(db, parent, maxAttempts);
      var db1 := ParentStopped(db, parent);
      StopInteractionsKeeps(db1, incident, maxAttempts);
      var db2 := db1.(runs := StopInteractions(db1.runs, incident));
      EvolvesTransitive(db, db1, db2);
      SameRowsKeeps(db2, db', maxAttempts);
      EvolvesTransitive(db, db2, db');
    }
  }

  lemma AcceptRoundKeeps(db: Db, incident: IncidentId, parent: Option<RunId>, run: RunId, resumable: bool,
                         maxAttempts: nat)
    requires DbOk(db, maxAttempts) && AcceptRound(db, incident, parent, run, resumable).Ok?
    ensures var db' := AcceptRound(db, incident, parent, run, resumable).db; DbOk(db', maxAttempts) && Evolves(db, db')
  {
    InsertRunKeeps(db, run, incident, Diagnosis, db.incidents[incident].revision, maxAttempts);
  }

  lemma RoundJournal(db: Db, incident: IncidentId, parent: Option<RunId>, run: RunId, resumable: bool)
    ensures var o := AcceptRound(db, incident, parent, run, resumable); o.Ok? ==> o.db.ops == db.ops
  {
  }

  lemma ActivatePendingIs(db: Db, key: ControlKey, run: RunId, resumable: bool)
    requires ActivatePending(db, key, run, resumable).Ok?
    ensures key in db.controls
    ensures var control, db' := db.controls[key], ActivatePending(db, key, run, resumable).db;
            if IsLatest(db, control.incident, control.parent) then
              var o := AcceptRound(db, control.incident, Some(control.parent), run, resumable);
              o.Ok? && db' == o.db.(controls := db'.controls) && o.db.ops == db.ops
            else db' == db.(controls := db'.controls)
  {
  }

  lemma ActivatePendingKeeps(db: Db, key: ControlKey, run: RunId, resumable: bool, maxAttempts: nat)
    requires DbOk(db, maxAttempts) && ActivatePending(db, key, run, resumable).Ok?
    ensures var db' := ActivatePending(db, key, run, resumable).db;
            DbOk(db', maxAttempts) && Evolves(db, db') && db'.ops == db.ops
  {
    hide DbOk, Evolves, ActivatePending, AcceptRound, IsLatest;
    ActivatePendingIs(db, key, run, resumable);
    var control, db' := db.controls[key], ActivatePending(db, key, run, resumable).db;
    if IsLatest(db, control.incident, control.parent) {
      AcceptRoundKeeps(db, control.incident, Some(control.parent), run, resumable, maxAttempts);
      var next := AcceptRound(db, control.incident, Some(control.parent), run, resumable).db;
      SameRowsKeeps(next, db', maxAttempts);
      EvolvesTransitive(db, next, db');
    } else {
      SameRowsKeeps(db, db', maxAttempts);
    }
  }

  lemma AcceptIncidentKeeps(db: Db, incident: IncidentId, run: RunId, maxAttempts: nat)
    requires DbOk(db, maxAttempts) && AcceptIncident(db, incident, run).Ok?
    ensures var db' := AcceptIncident(db, incident, run).db; DbOk(db', maxAttempts) && Evolves(db, db')
  {
    var db1 := db.(incidents := db.incidents[incident := Incident(0)]);
    SameRowsKeeps(db, db1, maxAttempts);
    assert !HasUnresolved(db1, incident);
    InsertRunKeeps(db1, run, incident, Diagnosis, 0, maxAttempts);
  }

  lemma AcceptInteractionKeeps(db: Db, incident: IncidentId, parent: Option<RunId>, run: RunId, historical: bool,
                               maxAttempts: nat)
    requires DbOk(db, maxAttempts) && AcceptInteraction(db, incident, parent, run, historical).Ok?
    ensures var db' := AcceptInteraction(db, incident, parent, run, historical).db;
            DbOk(db', maxAttempts) && Evolves(db, db')
  {
    InsertRunKeeps(db, run, incident, Interaction, 0, maxAttempts);
  }

  lemma CompleteInteractionKeeps(db: Db, lease: Lease, child: Option<RunId>, parent: Option<RunId>, resumable: bool,
                                 maxAttempts: nat)
    requires DbOk(db, maxAttempts) && CompleteInteraction(db, lease, child, parent, resumable).Ok?
    requires lease.row.kind == Interaction && db.runs[lease.run].kind == Interaction
    ensures var db' := CompleteInteraction(db, lease, child, parent, resumable).db;
            DbOk(db', maxAttempts) && Evolves(db, db')
  {
    hide DbOk, Evolves, AcceptRound;
    var done := db.runs[lease.run].(status := Succeeded, owner := None, expires := None);
    var released := db.(runs := db.runs[lease.run := done]);
    RowFacts(db, lease.run, maxAttempts);
    UpdateRunKeeps(db, released, lease.run, maxAttempts);
    if child.Some? {
      AcceptRoundKeeps(released, lease.row.incident, parent, child.value, resumable, maxAttempts);
      RoundJournal(released, lease.row.incident, parent, child.value, resumable);
      EvolvesTransitive(db, released, CompleteInteraction(db, lease, child, parent, resumable).db);
    }
  }

  lemma ActivateDelayedKeeps(db: Db, incident: IncidentId, run: RunId, maxAttempts: nat)
    requires DbOk(db, maxAttempts) && ActivateDelayed(db, incident, run).Ok?
    ensures var db' := ActivateDelayed(db, incident, run).db; DbOk(db', maxAttempts) && Evolves(db, db')
  {
    InsertRunKeeps(db, run, incident, Interaction, db.incidents[incident].revision, maxAttempts);
  }

  lemma CancelDelayedKeeps(db: Db, run: RunId, maxAttempts: nat)
    requires DbOk(db, maxAttempts) && CancelDelayed(db, run).Ok?
    ensures var db' := CancelDelayed(db, run).db; DbOk(db', maxAttempts) && Evolves(db, db')
  {
    UpdateRunKeeps(db, CancelDelayed(db, run).db, run, maxAttempts);
  }
}
