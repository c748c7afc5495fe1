/** Which steps leave the decision and the success of every run alone. */
module QuietSteps {
  import opened Wrappers
  import opened Ledger
  import opened LedgerInvariants
  import opened Recovery
  import opened Protocol
  import opened ProtocolInvariants

  /** The run keeps its decision, and a diagnosis does not become succeeded. A new run has neither. */
  predicate RowKept(a: Option<Run>, b: Run) {
    && (a.Some? ==> b.kind == a.value.kind)
    && b.approval == (if a.Some? then a.value.approval else None)
    && (b.kind == Diagnosis && b.status == Succeeded ==> a.Some? && a.value.status == Succeeded)
  }

  function RunOf(db: Db, run: RunId): (row: Option<Run>) {
    if run in db.runs then Some(db.runs[run]) else None
  }

  ghost predicate RowsKept(a: Db, b: Db) {
    forall r :: r in b.runs ==> RowKept(RunOf(a, r), b.runs[r])
  }

  /** No run gets or changes a decision. */
  ghost predicate DecisionsKept(a: Db, b: Db) {
    forall r :: r in b.runs ==> b.runs[r].approval == if r in a.runs then a.runs[r].approval else None
  }

  lemma SameRunsKeep(a: Db, b: Db)
    requires b.runs == a.runs
    ensures RowsKept(a, b)
  {
  }

  lemma InsertRunKept(db: Db, run: RunId, incident: IncidentId, kind: RunKind, revision: nat)
    ensures var o := InsertRun(db, run, incident, kind, revision); o.Ok? ==> RowsKept(db, o.db)
  {
  }

  lemma ControlKept(db: Db, incident: IncidentId, key: nat, action: ControlAction, content: string, parent: RunId)
    ensures var o := ControlStop(db, incident, key, action, content, parent); o.Ok? ==> RowsKept(db, o.db)
  {
  }

  lemma AnswerKept(db: Db, incident: IncidentId, key: nat, run: RunId, questionId: nat, version: nat, skip: bool,
                   slots: set<string>, messageId: nat)
    ensures var o := AnswerQuestion(db, incident, key, run, questionId, version, skip, slots, messageId);
            o.Ok? ==> RowsKept(db, o.db)
  {
  }

  lemma RoundKept(db: Db, incident: IncidentId, parent: Option<RunId>, run: RunId, resumable: bool)
    ensures var o := AcceptRound(db, incident, parent, run, resumable); o.Ok? ==> RowsKept(db, o.db)
  {
    if incident in db.incidents { InsertRunKept(db, run, incident, Diagnosis, db.incidents[incident].revision); }
  }

  lemma ActivateKept(db: Db, key: ControlKey, run: RunId, resumable: bool)
    ensures var o := ActivatePending(db, key, run, resumable); o.Ok? ==> RowsKept(db, o.db)
  {
    if ActivatePending(db, key, run, resumable).Ok? {
      ActivatePendingIs(db, key, run, resumable);
      RoundKept(db, db.controls[key].incident, Some(db.controls[key].parent), run, resumable);
    }
  }

  lemma IncidentKept(db: Db, incident: IncidentId, run: RunId)
    ensures var o := AcceptIncident(db, incident, run); o.Ok? ==> RowsKept(db, o.db)
  {
    InsertRunKept(db.(incidents := db.incidents[incident := Incident(0)]), run, incident, Diagnosis, 0);
  }

  lemma InteractionKept(db: Db, incident: IncidentId, parent: Option<RunId>, run: RunId, historical: bool)
    ensures var o := AcceptInteraction(db, incident, parent, run, historical); o.Ok? ==> RowsKept(db, o.db)
  {
    InsertRunKept(db, run, incident, Interaction, 0);
  }

  lemma DelayedKept(db: Db, incident: IncidentId, run: RunId)
    ensures var o := ActivateDelayed(db, incident, run); o.Ok? ==> RowsKept(db, o.db)
    ensures var o := CancelDelayed(db, run); o.Ok? ==> RowsKept(db, o.db)
  {
    if incident in db.incidents { InsertRunKept(db, run, incident, Interaction, db.incidents[incident].revision); }
  }

  lemma ClientKept(s: State, step: Step)
    requires IsClient(step) && !step.SendApproval?
    ensures RowsKept(s.db, ClientStep(s, step).db)
  {
    hide AcceptIncident, AcceptRound, AcceptInteraction, ActivateDelayed, CancelDelayed, ControlStop, AnswerQuestion,
         ActivatePending, RowsKept;
    SameRunsKeep(s.db, s.db);
    match step
    case Tick(d) => SameRunsKeep(s.db, s.db.(now := s.db.now + d));
    case NewIncident(i, r) => IncidentKept(s.db, i, r);
    case NewRound(i, p, r, resumable) => RoundKept(s.db, i, p, r, resumable);
    case NewInteraction(i, p, r, h) => InteractionKept(s.db, i, p, r, h);
    case NewDelayed(i, r) => DelayedKept(s.db, i, r);
    case DropDelayed(r) => DelayedKept(s.db, 0, r);
    case SendControl(i, k, a, c, p) => ControlKept(s.db, i, k, a, c, p);
    case SendAnswer(i, k, r, q, v, skip, slots, m) => AnswerKept(s.db, i, k, r, q, v, skip, slots, m);
    case Activate(k, r, resumable) => ActivateKept(s.db, k, r, resumable);
  }

  lemma FinishKept(db: Db, lease: Lease, requested: RunStatus, delay: Option<nat>, question: Option<Question>)
    requires requested != Succeeded
    ensures var o := Finish(db, lease, requested, delay, question); o.Ok? ==> RowsKept(db, o.db)
  {
  }

  lemma FinishDecidesNothing(db: Db, lease: Lease, requested: RunStatus, delay: Option<nat>, question: Option<Question>)
    ensures var o := Finish(db, lease, requested, delay, question); o.Ok? ==> DecisionsKept(db, o.db)
  {
  }

  lemma CompleteKept(db: Db, lease: Lease, child: Option<RunId>, parent: Option<RunId>, resumable: bool)
    requires lease.run in db.runs ==> db.runs[lease.run].kind == Interaction
    ensures var o := CompleteInteraction(db, lease, child, parent, resumable); o.Ok? ==> RowsKept(db, o.db)
  {
    hide AcceptRound;
    if Fenced(db, lease) {
      var done := db.runs[lease.run].(status := Succeeded, owner := None, expires := None);
      var released := db.(runs := db.runs[lease.run := done]);
      if child.Some? { RoundKept(released, lease.row.incident, parent, child.value, resumable); }
    }
  }

  /** The executor leaves the runs alone. */
  lemma ExecutorKept(s: State, t: ThreadId, step: Step)
    requires t in s.threads && IsExecutor(step)
    ensures ExecutorStep(s, t, step).db.runs == s.db.runs
  {
    hide Silent, OperationOf, OwnEntry, PreconditionMet, AfterRecord;
  }

  lemma HandleKept(s: State, t: ThreadId, temporary: bool, delay: nat)
    requires t in s.threads
    ensures RowsKept(s.db, HandleStep(s, t, temporary, delay).db)
  {
    hide RowsKept, Finish, FenceEnd;
    SameRunsKeep(s.db, s.db);
    FinishEndKept(s, t, RetryScheduled, Some(delay), None);
    FinishEndKept(s, t, Failed, None, None);
    if s.threads[t].pc == Retry { HandleCases(s, t, temporary, delay); }
  }

  lemma FinishEndKept(s: State, t: ThreadId, requested: RunStatus, delay: Option<nat>, question: Option<Question>)
    requires t in s.threads && requested != Succeeded
    ensures RowsKept(s.db, FenceEnd(s, t, Finish(s.db, s.threads[t].lease, requested, delay, question)).db)
  {
    FinishKept(s.db, s.threads[t].lease, requested, delay, question);
  }

  lemma InteractKept(s: State, t: ThreadId, child: Option<RunId>, parent: Option<RunId>, resumable: bool)
    requires t in s.threads && ThreadOk(s, t)
    ensures RowsKept(s.db, InteractStep(s, t, child, parent, resumable).db)
  {
    hide CompleteInteraction;
    if s.threads[t].pc == Interact { CompleteKept(s.db, s.threads[t].lease, child, parent, resumable); }
  }

  lemma ReadTargetKept(s: State, t: ThreadId, observed: Option<Snapshot>)
    requires t in s.threads
    ensures ReadTargetStep(s, t, observed).db.runs == s.db.runs
  {
  }

  lemma BeatKept(s: State, lease: Lease, seconds: nat)
    ensures RowsKept(s.db, Commit(s, Heartbeat(s.db, lease, seconds)).db)
  {
  }

  lemma MovingKept(s: State, t: ThreadId, d: Decision, values: Option<Values>, from: Pc, to: Pc)
    requires t in s.threads
    ensures AdmitStep(s, t, d).db == s.db && ProjectStep(s, t, d, values).db == s.db
    ensures GoStep(s, t, from, to).db == s.db
    ensures RaiseStep(s, t).db == s.db && ConsultStep(s, t).db == s.db
  {
  }

  lemma GraphKept(s: State, t: ThreadId, step: Step)
    requires t in s.threads && !IsClient(step) && !step.ClaimRun? && !IsExecutor(step) && !step.PublishResult?
    requires ThreadOk(s, t)
    ensures RowsKept(s.db, GraphStep(s, t, step).db)
  {
    hide ThreadOk, RowsKept, Silent, Decided, Heartbeat, Commit, RaiseStep, ConsultStep, ReadTargetStep, AdmitStep,
         GoStep, ProjectStep, HandleStep, InteractStep, Finish, FenceEnd;
    SameRunsKeep(s.db, s.db);
    MovingKept(s, t, Start, None, Invoke, InGraph);
    match step
    case Beat(_, seconds) => BeatKept(s, s.threads[t].lease, seconds);
    case Crash(_) =>
    case Raise(_) =>
    case ReadJournal(_) =>
    case ReadTarget(_, observed) =>
      ReadTargetKept(s, t, observed);
      SameRunsKeep(s.db, ReadTargetStep(s, t, observed).db);
    case FinishManual(_) => FinishEndKept(s, t, Reconciling, None, None);
    case ClassifyInitial(_, input, started, temporary, ck) =>
      MovingKept(s, t, Decided(s, t, input, started, temporary, ck), None, Invoke, InGraph);
    case EnterGraph(_) =>
    case GraphReturns(_) => MovingKept(s, t, Start, None, InGraph, Consult(Projecting));
    case ClassifyFinal(_, input, started, temporary, ck) =>
      MovingKept(s, t, Decided(s, t, input, started, temporary, ck), ck.values, Invoke, InGraph);
    case HandleError(_, temporary, delay) => HandleKept(s, t, temporary, delay);
    case FinishInteraction(_, child, parent, resumable) => InteractKept(s, t, child, parent, resumable);
  }

  lemma ClaimKept(s: State, t: ThreadId, run: RunId, owner: WorkerId, seconds: nat)
    ensures RowsKept(s.db, ClaimStep(s, t, run, owner, seconds).db)
  {
  }

  lemma PublishDecidesNothing(s: State, t: ThreadId, question: Option<Question>)
    requires t in s.threads
    ensures DecisionsKept(s.db, PublishStep(s, t, question).db)
    ensures !(s.threads[t].pc.Publish? && s.threads[t].pc.status == Succeeded) ==>
              RowsKept(s.db, PublishStep(s, t, question).db)
  {
    hide Finish;
    if s.threads[t].pc.Publish? {
      FinishDecidesNothing(s.db, s.threads[t].lease, s.threads[t].pc.status, None, question);
      if s.threads[t].pc.status != Succeeded {
        FinishKept(s.db, s.threads[t].lease, s.threads[t].pc.status, None, question);
      }
    }
  }

  /** Decisions are sent by users and successes are published by workers; every other step keeps both. */
  lemma OtherStepsKeep(s: State, step: Step)
    requires Inv(s) && !step.SendApproval? && !step.PublishResult?
    ensures RowsKept(s.db, Apply(s, step).db)
  {
    hide Inv, ThreadOk, RowsKept, ClientStep, ClaimStep, ExecutorStep, GraphStep;
    SameRunsKeep(s.db, s.db);
    if IsClient(step) { ClientKept(s, step); }
    else if step.ClaimRun? { ClaimKept(s, step.thread, step.run, step.owner, step.seconds); }
    else if step.thread in s.threads {
      if IsExecutor(step) {
        ExecutorKept(s, step.thread, step);
        SameRunsKeep(s.db, ExecutorStep(s, step.thread, step).db);
      } else {
        ThreadFacts(s, step.thread);
        GraphKept(s, step.thread, step);
      }
    }
  }
}
