/** A worker that lost its lease may still be about to call the graph while its successor is writing. */
module StaleWorker {
  import opened Wrappers
  import opened Ledger
  import opened Recovery
  import opened Protocol
  import opened ProtocolInvariants
  import opened ProtocolTheorems

  const INPUT := RunInput(IncidentV1, 0, true, None, true)

  /** Nothing was checkpointed yet. */
  const EMPTY := Checkpoint(None, [], [], false)

  /** The target as it was planned for and as it is read. */
  const BLANK := Snapshot("u", "1", None, map[])
  const BINDING := Binding(PlannedWrite(0, Service, Some("u"), map[], map["app" := "web"]), 0)

  /** The graph waits for an approval. */
  const WAITING := Checkpoint(
    Some(Values(0, 0, None, None, None, BINDING, None, ApprovalPending, false, true, None, "awaiting_approval", None,
                {}, {})),
    [RequestHumanApproval], [Task(RequestHumanApproval, true, false)], true)

  const APPROVAL := Approval(true, 0, BINDING)
  const WRITE := RequestOf(APPROVAL, BLANK)
  const OWN := OwnRead(APPROVAL, BLANK, "1")

  const START := State(Db(0, 0, map[], map[], map[], map[]), map[], [], 3)

  /** The run row in the course of the story. */
  const R0 := NewRun(0, Diagnosis, 0, 0)
  const R1 := ClaimedRow(R0, 1, 10, 3)
  const R2 := ClaimedRow(R1, 2, 30, 3)
  const R3 := FinishedRow(R2, WaitingApproval, None, None)
  const R4 := R3.(approval := Some(APPROVAL), status := Queued, attemptBase := R3.attempt,
                  inputsAccepted := R3.inputsAccepted + 1)
  const R5 := ClaimedRow(R4, 3, 40, 3)

  function Tables(now: nat, row: Run): (db: Db) {
    Db(now, 1, map[0 := Incident(0)], map[0 := row], map[], map[])
  }

  function Old(): (th: Thread) {
    Thread(Lease(0, R1, false), Invoke, None)
  }

  lemma Reaches(s: State, step: Step)
    requires Reachable(s)
    ensures Reachable(Apply(s, step))
  {
    ReachableOn(s, [step]);
    assert After(s, [step]) == Apply(s, step) by { assert [step][..0] == []; }
  }

  // ----- single moves ------------------------------------------------------------------------

  lemma StartReachable()
    ensures Reachable(START)
  {
    assert START == After(START, []);
  }

  lemma IncidentReaches()
    ensures Reachable(State(Tables(0, R0), map[], [], 3))
  {
    hide Reachable;
    StartReachable();
    Reaches(START, NewIncident(0, 0));
    assert AcceptIncident(START.db, 0, 0) == Ok(Tables(0, R0), 0);
  }

  lemma TickReaches(s: State, seconds: nat)
    requires Reachable(s)
    ensures Reachable(s.(db := s.db.(now := s.db.now + seconds)))
  {
    hide Reachable;
    Reaches(s, Tick(seconds));
  }

  lemma ClaimReaches(s: State, t: ThreadId, owner: WorkerId, seconds: nat, db: Db, lease: Lease)
    requires Reachable(s) && t !in s.threads && Claim(s.db, 0, owner, seconds, s.maxAttempts) == Ok(db, lease)
             && lease.row.kind == Diagnosis
    ensures Reachable(State(db, s.threads[t := Thread(lease, Consult(Recovering), None)], s.issued, s.maxAttempts))
  {
    hide Reachable;
    Reaches(s, ClaimRun(t, 0, owner, seconds));
  }

  lemma ConsultReaches(s: State, t: ThreadId, ctx: Context)
    requires Reachable(s) && t in s.threads && s.threads[t].pc == Consult(ctx) && s.db.ops == map[]
    ensures Reachable(Move(s, t, AfterConsult(ctx)))
  {
    hide Reachable;
    Reaches(s, ReadJournal(t));
    assert ConsultStep(s, t) == Move(s, t, AfterConsult(ctx));
  }

  lemma InvokeReaches(s: State, t: ThreadId)
    requires Reachable(s) && t in s.threads && s.threads[t].pc == Ready && !s.threads[t].lease.recoveryOnly
             && Fenced(s.db, s.threads[t].lease)
    ensures Reachable(Move(s, t, Invoke))
  {
    hide Reachable;
    Reaches(s, ClassifyInitial(t, INPUT, false, false, EMPTY));
    assert Decided(s, t, INPUT, false, false, EMPTY) == Start;
  }

  lemma WaitingIsWaiting(s: State, t: ThreadId)
    requires t in s.threads && s.threads[t].lease.run == 0 && s.threads[t].lease.row.incident == 0
             && s.threads[t].lease.row.approval.None? && s.db.ops == map[]
    ensures Decided(s, t, INPUT, true, false, WAITING) == Halt(WaitingApproval)
  {
    assert WAITING.tasks[0].interrupted && WAITING.tasks[0] in WAITING.tasks;
  }

  lemma HaltReaches(s: State, t: ThreadId)
    requires Reachable(s) && t in s.threads && s.threads[t].pc == Ready
             && Decided(s, t, INPUT, true, false, WAITING) == Halt(WaitingApproval)
    ensures Reachable(Move(s, t, Consult(Projecting)))
  {
    hide Reachable;
    Reaches(s, ClassifyInitial(t, INPUT, true, false, WAITING));
  }

  lemma ProjectReaches(s: State, t: ThreadId)
    requires Reachable(s) && t in s.threads && s.threads[t].pc == Project
             && Decided(s, t, INPUT, true, false, WAITING) == Halt(WaitingApproval)
    ensures Reachable(Move(s, t, Publish(WaitingApproval, OperationOf(s.db, s.threads[t].lease.run),
                                         WAITING.values)))
  {
    hide Reachable;
    Reaches(s, ClassifyFinal(t, INPUT, true, false, WAITING));
  }

  lemma PublishReaches(s: State, t: ThreadId, db: Db, status: RunStatus)
    requires Reachable(s) && t in s.threads && s.threads[t].pc.Publish?
    requires Finish(s.db, s.threads[t].lease, s.threads[t].pc.status, None, None) == Ok(db, status)
    ensures Reachable(End(s.(db := db), t))
  {
    hide Reachable;
    Reaches(s, PublishResult(t, None));
  }

  lemma ApprovalReaches(s: State, db: Db)
    requires Reachable(s) && QueueApproval(s.db, 0, APPROVAL) == Ok(db, ())
    ensures Reachable(s.(db := db))
  {
    hide Reachable;
    Reaches(s, SendApproval(0, APPROVAL));
  }

  lemma EnterReaches(s: State, t: ThreadId)
    requires Reachable(s) && t in s.threads && s.threads[t].pc == Invoke
    ensures Reachable(Move(s, t, InGraph))
  {
    hide Reachable;
    Reaches(s, EnterGraph(t));
  }

  lemma CallReaches(s: State, t: ThreadId)
    requires Reachable(s) && t in s.threads && s.threads[t].pc == InGraph && Fenced(s.db, s.threads[t].lease)
    ensures Reachable(Move(s, t, ExecuteRead))
  {
    hide Reachable;
    Reaches(s, CallExecutor(t));
  }

  lemma ExecuteReaches(s: State, t: ThreadId)
    requires Reachable(s) && t in s.threads && s.threads[t].pc == ExecuteRead && ApprovedSaved(s.threads[t].lease.row)
             && s.db.ops == map[]
    ensures Reachable(Move(s, t, ExecutePrepare(s.threads[t].lease.row.approval.value)))
  {
    hide Reachable;
    Reaches(s, ExecuteReadJournal(t, true));
    assert ExecuteReadStep(s, t, true) == Move(s, t, ExecutePrepare(s.threads[t].lease.row.approval.value));
  }

  lemma PrepareReaches(s: State, t: ThreadId, db: Db, op: Operation)
    requires Reachable(s) && t in s.threads && s.threads[t].pc == ExecutePrepare(APPROVAL)
             && Prepare(s.db, s.threads[t].lease, WRITE) == Ok(db, op)
    ensures Reachable(Move(s.(db := db), t, ExecutePrepared(op, OWN)))
  {
    hide Reachable;
    Reaches(s, PrepareWrite(t, BLANK, "1"));
  }

  lemma CheckReaches(s: State, t: ThreadId)
    requires Reachable(s) && t in s.threads && s.threads[t].pc.ExecutePrepared? && s.threads[t].pc.own == OWN
    requires s.threads[t].pc.view.write == WRITE
    ensures Reachable(Move(s, t, ExecuteReady(s.threads[t].pc.view, OWN)))
  {
    hide Reachable;
    Reaches(s, CheckPrecondition(t));
    assert CheckStep(s, t) == Move(s, t, ExecuteReady(s.threads[t].pc.view, OWN));
  }

  lemma DispatchReaches(s: State, t: ThreadId, db: Db)
    requires Reachable(s) && t in s.threads && s.threads[t].pc.ExecuteReady?
             && Dispatch(s.db, s.threads[t].lease) == Ok(db, ())
    ensures Reachable(Move(s.(db := db), t, ExecuteDispatched(s.threads[t].pc.view)))
  {
    hide Reachable;
    Reaches(s, DispatchWrite(t));
  }

  // ----- the story ---------------------------------------------------------------------------

  /** Thread `t` in its second lease or a later one, beside the first worker. */
  function Beside(now: nat, row: Run, t: ThreadId, pc: Pc): (s: State) {
    State(Tables(now, row), map[0 := Old(), t := Thread(Lease(0, row, false), pc, None)], [], 3)
  }

  lemma BesideMoves(now: nat, row: Run, t: ThreadId, from: Pc, to: Pc)
    requires t != 0
    ensures Move(Beside(now, row, t, from), t, to) == Beside(now, row, t, to)
  {
    assert Move(Beside(now, row, t, from), t, to).threads == Beside(now, row, t, to).threads;
  }

  /** The first worker claims the run and is about to call the graph. */
  lemma OldWorkerStarts()
    ensures Reachable(State(Tables(0, R1), map[0 := Old()], [], 3))
  {
    hide Reachable;
    IncidentReaches();
    var s := State(Tables(0, R0), map[], [], 3);
    ClaimReaches(s, 0, 1, 10, Tables(0, R1), Lease(0, R1, false));
    s := State(Tables(0, R1), map[0 := Thread(Lease(0, R1, false), Consult(Recovering), None)], [], 3);
    ConsultReaches(s, 0, Recovering);
    s := Move(s, 0, Ready);
    InvokeReaches(s, 0);
    assert Move(s, 0, Invoke) == State(Tables(0, R1), map[0 := Old()], [], 3);
  }

  /** Its lease expires and a second worker takes over. */
  lemma SecondWorkerStarts()
    ensures Reachable(Beside(20, R2, 1, Consult(Recovering)))
  {
    hide Reachable;
    OldWorkerStarts();
    TickReaches(State(Tables(0, R1), map[0 := Old()], [], 3), 20);
    ClaimReaches(State(Tables(20, R1), map[0 := Old()], [], 3), 1, 2, 10, Tables(20, R2), Lease(0, R2, false));
  }

  lemma SecondWorkerHalts()
    ensures Reachable(Beside(20, R2, 1, Consult(Projecting)))
  {
    hide Reachable;
    SecondWorkerStarts();
    ConsultReaches(Beside(20, R2, 1, Consult(Recovering)), 1, Recovering);
    BesideMoves(20, R2, 1, Consult(Recovering), Ready);
    WaitingIsWaiting(Beside(20, R2, 1, Ready), 1);
    HaltReaches(Beside(20, R2, 1, Ready), 1);
    BesideMoves(20, R2, 1, Ready, Consult(Projecting));
  }

  lemma SecondWorkerProjects()
    ensures Reachable(Beside(20, R2, 1, Publish(WaitingApproval, None, WAITING.values)))
  {
    hide Reachable;
    SecondWorkerHalts();
    ConsultReaches(Beside(20, R2, 1, Consult(Projecting)), 1, Projecting);
    BesideMoves(20, R2, 1, Consult(Projecting), Project);
    WaitingIsWaiting(Beside(20, R2, 1, Project), 1);
    ProjectReaches(Beside(20, R2, 1, Project), 1);
    BesideMoves(20, R2, 1, Project, Publish(WaitingApproval, None, WAITING.values));
  }

  /** The run comes to wait for an approval. */
  lemma ApprovalIsAsked()
    ensures Reachable(State(Tables(20, R3), map[0 := Old()], [], 3))
  {
    hide Reachable;
    SecondWorkerProjects();
    var s := Beside(20, R2, 1, Publish(WaitingApproval, None, WAITING.values));
    PublishReaches(s, 1, Tables(20, R3), WaitingApproval);
    assert End(s.(db := Tables(20, R3)), 1) == State(Tables(20, R3), map[0 := Old()], [], 3);
  }

  /** After the approval a third worker resumes. */
  lemma ThirdWorkerStarts()
    ensures Reachable(Beside(20, R5, 2, Consult(Recovering)))
  {
    hide Reachable;
    ApprovalIsAsked();
    var s := State(Tables(20, R3), map[0 := Old()], [], 3);
    assert RevisionCurrent(s.db, 0) && !HasUnresolved(s.db, 0);
    ApprovalReaches(s, Tables(20, R4));
    ClaimReaches(State(Tables(20, R4), map[0 := Old()], [], 3), 2, 3, 20, Tables(20, R5), Lease(0, R5, false));
  }

  lemma ThirdWorkerConsults()
    ensures Reachable(Beside(20, R5, 2, Ready))
  {
    hide Reachable;
    ThirdWorkerStarts();
    ConsultReaches(Beside(20, R5, 2, Consult(Recovering)), 2, Recovering);
    BesideMoves(20, R5, 2, Consult(Recovering), Ready);
  }

  lemma ThirdWorkerIsAdmitted()
    ensures Reachable(Beside(20, R5, 2, Invoke))
  {
    hide Reachable;
    ThirdWorkerConsults();
    InvokeReaches(Beside(20, R5, 2, Ready), 2);
    BesideMoves(20, R5, 2, Ready, Invoke);
  }

  lemma ThirdWorkerEnters()
    ensures Reachable(Beside(20, R5, 2, InGraph))
  {
    hide Reachable;
    ThirdWorkerIsAdmitted();
    EnterReaches(Beside(20, R5, 2, Invoke), 2);
    BesideMoves(20, R5, 2, Invoke, InGraph);
  }

  lemma ThirdWorkerExecutes()
    ensures Reachable(Beside(20, R5, 2, ExecutePrepare(APPROVAL)))
  {
    hide Reachable;
    ThirdWorkerEnters();
    CallReaches(Beside(20, R5, 2, InGraph), 2);
    BesideMoves(20, R5, 2, InGraph, ExecuteRead);
    ExecuteReaches(Beside(20, R5, 2, ExecuteRead), 2);
    BesideMoves(20, R5, 2, ExecuteRead, ExecutePrepare(APPROVAL));
  }

  function Journaled(state: OperationState): (db: Db) {
    Tables(20, R5).(ops := map[0 := FreshOperation(Lease(0, R5, false), WRITE).(state := state)])
  }

  lemma ThirdWorkerPrepares()
    ensures Reachable(Move(Beside(20, R5, 2, ExecutePrepare(APPROVAL)).(db := Journaled(Prepared)), 2,
                           ExecutePrepared(FreshOperation(Lease(0, R5, false), WRITE), OWN)))
  {
    hide Reachable;
    ThirdWorkerExecutes();
    PrepareReaches(Beside(20, R5, 2, ExecutePrepare(APPROVAL)), 2, Journaled(Prepared),
                   FreshOperation(Lease(0, R5, false), WRITE));
  }

  lemma ThirdWorkerIsReady()
    ensures Reachable(Move(Beside(20, R5, 2, ExecutePrepare(APPROVAL)).(db := Journaled(Prepared)), 2,
                           ExecuteReady(FreshOperation(Lease(0, R5, false), WRITE), OWN)))
  {
    hide Reachable;
    ThirdWorkerPrepares();
    var op := FreshOperation(Lease(0, R5, false), WRITE);
    var s := Move(Beside(20, R5, 2, ExecutePrepare(APPROVAL)).(db := Journaled(Prepared)), 2, ExecutePrepared(op, OWN));
    CheckReaches(s, 2);
    assert Move(s, 2, ExecuteReady(op, OWN))
        == Move(Beside(20, R5, 2, ExecutePrepare(APPROVAL)).(db := Journaled(Prepared)), 2, ExecuteReady(op, OWN));
  }

  /** It dispatches the write while the first worker is still about to call the graph: without a current
      lease the guarantee of `GraphOnlyWhenCertain` does not hold. */
  lemma StaleWorkerMayEnter()
    ensures exists s: State :: Reachable(s) && 0 in s.threads && s.threads[0].pc == Invoke && !Current(s, 0)
                               && OperationOf(s.db, s.threads[0].lease.run).Some?
                               && OperationOf(s.db, s.threads[0].lease.run).value.state == Dispatching
  {
    ThirdWorkerIsReady();
    var op := FreshOperation(Lease(0, R5, false), WRITE);
    var s := Move(Beside(20, R5, 2, ExecutePrepare(APPROVAL)).(db := Journaled(Prepared)), 2, ExecuteReady(op, OWN));
    DispatchReaches(s, 2, Journaled(Dispatching));
    var later := Move(s.(db := Journaled(Dispatching)), 2, ExecuteDispatched(op));
    OldIsStale(later);
  }

  lemma OldIsStale(s: State)
    requires 0 in s.threads && s.threads[0] == Old() && s.db == Journaled(Dispatching)
    ensures s.threads[0].pc == Invoke && !Current(s, 0)
    ensures OperationOf(s.db, s.threads[0].lease.run).Some?
            && OperationOf(s.db, s.threads[0].lease.run).value.state == Dispatching
  {
  }
}
