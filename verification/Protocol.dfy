/** Workers, clients, the clock and the cluster as one transition system over the tables.

    A thread is one `Worker.execute` of one lease. It keeps running after its lease is lost, it may raise,
    and it may vanish at any point. Every transaction, every unlocked journal read and every patch call
    is one step, so all interleavings are sequences of steps.
 */
module Protocol {
  import opened Wrappers
  import opened Ledger
  import opened Recovery

  type ThreadId = nat

  /** Where `_reconcile_pending` was called from. */
  datatype Context = Recovering | Projecting | Handling

  /** The answer of the patch call as the worker sees it. */
  datatype Reply = Refused | Lost | Answered(after: Snapshot)

  datatype Pc =
    | Consult(ctx: Context)                     // about to read the journal
    | Reconcile(ctx: Context, view: Operation)  // about to read the target and record the finding
    | PublishManual(ctx: Context)               // about to publish `reconciling`
    | Ready                                     // about to read the checkpoint and classify
    | Invoke                                    // about to call the graph
    | InGraph                                   // inside the graph, outside the executor
    | ExecuteRead                               // executor: about to read the journal
    | ExecutePrepare(saved: Approval)           // executor: about to read the target and insert the journal row
    | ExecutePrepared(view: Operation, own: OwnRead) // executor: about to compare the row with its own read
    | ExecuteReady(view: Operation, own: OwnRead)    // executor: precondition met, about to dispatch
    | ExecuteConflict(view: Operation)          // executor: precondition failed, about to record it
    | ExecuteDispatched(view: Operation)        // executor: dispatch committed, ownership to be checked
    | ExecutePatch(view: Operation)             // executor: about to call the cluster
    | ExecuteReplied(view: Operation, reply: Reply)
    | Project                                   // graph returned; about to classify for publication
    | Publish(status: RunStatus, basis: Option<Operation>, values: Option<Values>)
    | Retry                                     // exception handler, journal not uncertain
    | Interact                                  // interaction runs never reach the executor

  /** What one executor call found out: the target as it read it, and the version of the deployment that was just
      validated against the profile. It acts for the decision saved on the run. */
  datatype OwnRead = OwnRead(saved: Approval, before: Snapshot, liveVersion: string)

  datatype Thread = Thread(lease: Lease, pc: Pc, readBack: Option<Snapshot>)

  datatype State = State(db: Db, threads: map<ThreadId, Thread>, issued: seq<RunId>, maxAttempts: nat)

  ghost predicate Init(s: State) {
    s.db == Db(0, 0, map[], map[], map[], map[]) && s.threads == map[] && s.issued == []
  }

  datatype Step =
    // clock and clients
    | Tick(seconds: nat)
    | NewIncident(incident: IncidentId, run: RunId)
    | NewRound(incident: IncidentId, parent: Option<RunId>, run: RunId, resumable: bool)
    | NewInteraction(incident: IncidentId, parent: Option<RunId>, run: RunId, historical: bool)
    | NewDelayed(incident: IncidentId, run: RunId)
    | DropDelayed(run: RunId)
    | SendControl(incident: IncidentId, clientMessage: nat, action: ControlAction, content: string, latest: RunId)
    | SendAnswer(incident: IncidentId, clientMessage: nat, run: RunId, questionId: nat, version: nat, skip: bool,
                 slots: set<string>, messageId: nat)
    | SendApproval(run: RunId, approval: Approval)
    | Activate(key: ControlKey, run: RunId, resumable: bool)
    // workers
    | ClaimRun(thread: ThreadId, run: RunId, owner: WorkerId, seconds: nat)
    | Beat(thread: ThreadId, seconds: nat)
    | Crash(thread: ThreadId)
    | Raise(thread: ThreadId)
    | ReadJournal(thread: ThreadId)
    | ReadTarget(thread: ThreadId, observed: Option<Snapshot>)
    | FinishManual(thread: ThreadId)
    | ClassifyInitial(thread: ThreadId, input: RunInput, started: bool, temporary: bool, ck: Checkpoint)
    | EnterGraph(thread: ThreadId)
    | CallExecutor(thread: ThreadId)
    | GraphReturns(thread: ThreadId)
    | ExecuteReadJournal(thread: ThreadId, authorized: bool)
    | PrepareWrite(thread: ThreadId, before: Snapshot, liveVersion: string)
    | CheckPrecondition(thread: ThreadId)
    | DispatchWrite(thread: ThreadId)
    | ConfirmOwner(thread: ThreadId)
    | PatchCluster(thread: ThreadId, reply: Reply)
    | RecordReply(thread: ThreadId)
    | ClassifyFinal(thread: ThreadId, input: RunInput, started: bool, temporary: bool, ck: Checkpoint)
    | PublishResult(thread: ThreadId, question: Option<Question>)
    | HandleError(thread: ThreadId, temporary: bool, delay: nat)
    | FinishInteraction(thread: ThreadId, child: Option<RunId>, parent: Option<RunId>, resumable: bool)

  function Commit<T>(s: State, o: Outcome<T>): (s': State) {
    match o case Ok(db, _) => s.(db := db) case Err(_) => s
  }

  function Move(s: State, t: ThreadId, pc: Pc): (s': State)
    requires t in s.threads
  {
    s.(threads := s.threads[t := s.threads[t].(pc := pc)])
  }

  function End(s: State, t: ThreadId): (s': State) {
    s.(threads := s.threads - {t})
  }

  /** A transaction of the executor: on success go on at `pc`. The graph node catches every exception of the
      executor, a lost lease included (nodes.py:1063-1122), so on an error the graph call returns. */
  function Fence<T>(s: State, t: ThreadId, o: Outcome<T>, pc: Pc): (s': State)
    requires t in s.threads
  {
    match o
    case Ok(db, _) => Move(s.(db := db), t, pc)
    case Err(_) => Move(s, t, Consult(Projecting))
  }

  /** A lease-fenced publication; the thread ends with it. */
  function FenceEnd<T>(s: State, t: ThreadId, o: Outcome<T>): (s': State)
    requires t in s.threads
  {
    match o
    case Ok(db, _) => End(s.(db := db), t)
    case Err(_) => End(s, t)
  }

  /** No patch is issued and no user input is accepted. */
  predicate Silent(s: State, s': State) {
    s'.issued == s.issued && s'.db.incidents == s.db.incidents
  }

  // ----- worker.py: _reconcile_pending -------------------------------------------------------

  /** A saved response from another lease has to be read back before anything goes on. */
  predicate NeedsReadBack(ctx: Context, lease: Lease, op: Operation) {
    ctx == Recovering && Attributed(op.state) && op.epoch != lease.row.epoch
  }

  function AfterConsult(ctx: Context): (pc: Pc) {
    match ctx case Recovering => Ready case Projecting => Project case Handling => Retry
  }

  function ConsultStep(s: State, t: ThreadId): (s': State)
    requires t in s.threads
    ensures Silent(s, s')
    ensures s'.db.ops == s.db.ops
  {
    var th := s.threads[t];
    if !th.pc.Consult? then s
    else
      var op := OperationOf(s.db, th.lease.run);
      if op.Some? && (Uncertain(op.value.state) || NeedsReadBack(th.pc.ctx, th.lease, op.value))
      then Move(s, t, Reconcile(th.pc.ctx, op.value))
      else Move(s, t, AfterConsult(th.pc.ctx))
  }

  /** operations.py, reconcile: only a write whose own response was journaled and is still what the
      target shows counts as confirmed. */
  predicate Confirmed(op: Operation, observed: Snapshot) {
    && op.confirmed
    && op.response == Some(observed)
    && observed.configuration == op.write.target.configuration
    && observed.uid == op.write.before.uid
    && op.result.Some?
  }

  function Finding(op: Operation, observed: Option<Snapshot>): (e: JournalEntry) {
    if observed.Some? && Confirmed(op, observed.value) then JournalEntry(Reconciled, None, observed, None, true)
    else JournalEntry(ManualRequired, None, observed, None, false)
  }

  /** Only a lost lease can refuse the record here; see `RecordsAreValid`. */
  function ReadTargetStep(s: State, t: ThreadId, observed: Option<Snapshot>): (s': State)
    requires t in s.threads
    ensures Silent(s, s')
  {
    var th := s.threads[t];
    if !th.pc.Reconcile? then s
    else
      var e := Finding(th.pc.view, observed);
      match Record(s.db, th.lease, e)
      case Ok(db, _) =>
        if e.state == Reconciled && !Uncertain(th.pc.view.state)
        then State(db, s.threads[t := Thread(th.lease, AfterConsult(th.pc.ctx), observed)], s.issued, s.maxAttempts)
        else Move(s.(db := db), t, PublishManual(th.pc.ctx))
      case Err(_) => End(s, t)
  }

  function FinishManualStep(s: State, t: ThreadId): (s': State)
    requires t in s.threads
    ensures Silent(s, s')
    ensures s'.db.ops == s.db.ops
  {
    if !s.threads[t].pc.PublishManual? then s
    else FenceEnd(s, t, Finish(s.db, s.threads[t].lease, Reconciling, None, None))
  }

  // ----- worker.py: execute ------------------------------------------------------------------

  function AdmitStep(s: State, t: ThreadId, d: Decision): (s': State)
    requires t in s.threads
    ensures Silent(s, s')
    ensures s'.db.ops == s.db.ops
  {
    if s.threads[t].pc != Ready then s
    else if d.Halt? then Move(s, t, Consult(Projecting))
    else if s.threads[t].lease.recoveryOnly
    then Move(s, t, Publish(Failed, OperationOf(s.db, s.threads[t].lease.run), None))
    else if Fenced(s.db, s.threads[t].lease) then Move(s, t, Invoke)
    else End(s, t)
  }

  /** Go from one program point to another without touching the tables. */
  function GoStep(s: State, t: ThreadId, from: Pc, to: Pc): (s': State)
    requires t in s.threads
    ensures Silent(s, s')
    ensures s'.db.ops == s.db.ops
  {
    if s.threads[t].pc == from then Move(s, t, to) else s
  }

  // ----- operations.py: LedgerExecutor.execute -----------------------------------------------

  /** A bare ownership check of the executor; a lost lease makes the graph call return, as in `Fence`. */
  function OwnedStep(s: State, t: ThreadId, to: Pc): (s': State)
    requires t in s.threads
    ensures Silent(s, s')
    ensures s'.db.ops == s.db.ops
  {
    Move(s, t, if Fenced(s.db, s.threads[t].lease) then to else Consult(Projecting))
  }

  function CallExecutorStep(s: State, t: ThreadId): (s': State)
    requires t in s.threads
    ensures Silent(s, s')
    ensures s'.db.ops == s.db.ops
  {
    if s.threads[t].pc == InGraph then OwnedStep(s, t, ExecuteRead) else s
  }

  function ExecuteReadStep(s: State, t: ThreadId, authorized: bool): (s': State)
    requires t in s.threads
    ensures Silent(s, s')
    ensures s'.db.ops == s.db.ops
  {
    var th := s.threads[t];
    var op := OperationOf(s.db, th.lease.run);
    if th.pc != ExecuteRead then s
    else if !authorized || !ApprovedSaved(th.lease.row) then Move(s, t, Consult(Projecting))
    else if op.Some? && (Attributed(op.value.state) || op.value.state == Rejected)
         && op.value.result.Some? then Move(s, t, InGraph)
    else if op.Some? && op.value.state != Prepared then Move(s, t, Consult(Projecting))
    else Move(s, t, ExecutePrepare(th.lease.row.approval.value))
  }

  /** The request is made from the saved decision and the executor's own read. */
  function PrepareStep(s: State, t: ThreadId, before: Snapshot, liveVersion: string): (s': State)
    requires t in s.threads
    ensures Silent(s, s')
  {
    var th := s.threads[t];
    if !th.pc.ExecutePrepare? then s
    else
      match Prepare(s.db, th.lease, RequestOf(th.pc.saved, before))
      case Ok(db, op) => Move(s.(db := db), t, ExecutePrepared(op, OwnRead(th.pc.saved, before, liveVersion)))
      case Err(_) => Move(s, t, Consult(Projecting))
  }

  /** The snapshot is the approved object in the configuration the plan was made for. */
  predicate ApprovedBefore(plan: PlannedWrite, before: Snapshot) {
    plan.uid == Some(before.uid) && before.configuration == plan.prior
  }

  /** operations.py:125-129: the own read is the snapshot the row was prepared with, and what was approved. */
  predicate PreconditionMet(write: WriteRequest, own: OwnRead) {
    && own.before == write.before
    && ApprovedBefore(own.saved.binding.plan, own.before)
    && (own.saved.binding.plan.kind == Deployment ==> own.before.resourceVersion == own.liveVersion)
  }

  function CheckStep(s: State, t: ThreadId): (s': State)
    requires t in s.threads
    ensures Silent(s, s')
    ensures s'.db.ops == s.db.ops
  {
    var pc := s.threads[t].pc;
    if !pc.ExecutePrepared? then s
    else if PreconditionMet(pc.view.write, pc.own) then Move(s, t, ExecuteReady(pc.view, pc.own))
    else Move(s, t, ExecuteConflict(pc.view))
  }

  function DispatchStep(s: State, t: ThreadId): (s': State)
    requires t in s.threads
    ensures Silent(s, s')
  {
    var th := s.threads[t];
    if th.pc.ExecuteReady? then Fence(s, t, Dispatch(s.db, th.lease), ExecuteDispatched(th.pc.view)) else s
  }

  function ConfirmOwnerStep(s: State, t: ThreadId): (s': State)
    requires t in s.threads
    ensures Silent(s, s')
    ensures s'.db.ops == s.db.ops
  {
    var pc := s.threads[t].pc;
    if pc.ExecuteDispatched? then OwnedStep(s, t, ExecutePatch(pc.view)) else s
  }

  /** The only step that writes to the cluster. */
  function PatchStep(s: State, t: ThreadId, reply: Reply): (s': State)
    requires t in s.threads
    ensures s'.db == s.db
  {
    var th := s.threads[t];
    if !th.pc.ExecutePatch? then s
    else Move(s, t, ExecuteReplied(th.pc.view, reply)).(issued := s.issued + [th.lease.run])
  }

  /** operations.py:170-172 */
  predicate Attributable(write: WriteRequest, after: Snapshot) {
    && after.uid == write.before.uid
    && after.configuration == write.target.configuration
    && (write.kind == Deployment ==> after.generation.Some?)
    && after.resourceVersion != ""
    && after.resourceVersion != write.before.resourceVersion
  }

  function ReplyEntry(write: WriteRequest, reply: Reply): (e: JournalEntry) {
    match reply
    case Refused => JournalEntry(Rejected, None, None, Some(ExecutionResult(false, None)), false)
    case Lost => JournalEntry(OutcomeUnknown, None, None, None, false)
    case Answered(after) =>
      if Attributable(write, after)
      then JournalEntry(Applied, Some(after), None, Some(ExecutionResult(true, Some(after))), true)
      else JournalEntry(OutcomeUnknown, Some(after), None, None, false)
  }

  function ConflictEntry(): (e: JournalEntry) {
    JournalEntry(Rejected, None, None, Some(ExecutionResult(false, None)), false)
  }

  /** The entry an executor thread is about to record. */
  function OwnEntry(pc: Pc): (e: JournalEntry)
    requires pc.ExecuteReplied? || pc.ExecuteConflict?
  {
    if pc.ExecuteReplied? then ReplyEntry(pc.view.write, pc.reply) else ConflictEntry()
  }

  function AfterRecord(e: JournalEntry): (pc: Pc) {
    if e.state == OutcomeUnknown then Consult(Projecting) else InGraph
  }

  function RecordStep(s: State, t: ThreadId): (s': State)
    requires t in s.threads
    ensures Silent(s, s')
  {
    var th := s.threads[t];
    if th.pc.ExecuteReplied? || th.pc.ExecuteConflict? then
      var e := OwnEntry(th.pc);
      Fence(s, t, Record(s.db, th.lease, e), AfterRecord(e))
    else s
  }

  // ----- worker.py: _project and the exception handler ---------------------------------------

  function ProjectStep(s: State, t: ThreadId, d: Decision, values: Option<Values>): (s': State)
    requires t in s.threads
    ensures Silent(s, s')
    ensures s'.db.ops == s.db.ops
  {
    var op := OperationOf(s.db, s.threads[t].lease.run);
    if s.threads[t].pc != Project then s
    else if d.Halt? then Move(s, t, Publish(d.status, op, values))
    else Move(s, t, Publish(Failed, op, None))
  }

  function PublishStep(s: State, t: ThreadId, question: Option<Question>): (s': State)
    requires t in s.threads
    ensures Silent(s, s')
    ensures s'.db.ops == s.db.ops
  {
    var th := s.threads[t];
    if th.pc.Publish? then FenceEnd(s, t, Finish(s.db, th.lease, th.pc.status, None, question)) else s
  }

  function HandleStep(s: State, t: ThreadId, temporary: bool, delay: nat): (s': State)
    requires t in s.threads
    ensures Silent(s, s')
    ensures s'.db.ops == s.db.ops
  {
    var lease := s.threads[t].lease;
    if s.threads[t].pc != Retry then s
    else if temporary && lease.row.attempt - lease.row.attemptBase < s.maxAttempts then
      match Finish(s.db, lease, RetryScheduled, Some(delay), None)
      case Ok(db, _) => End(s.(db := db), t)
      case Err(UnsafeRetry) => Move(s, t, PublishManual(Handling))
      case Err(_) => End(s, t)
    else FenceEnd(s, t, Finish(s.db, lease, Failed, None, None))
  }

  predicate InHandler(pc: Pc) {
    || pc.Retry?
    || (pc.Consult? && pc.ctx == Handling)
    || (pc.Reconcile? && pc.ctx == Handling)
    || (pc.PublishManual? && pc.ctx == Handling)
  }

  predicate InExecutor(pc: Pc) {
    || pc.ExecuteRead? || pc.ExecutePrepare? || pc.ExecutePrepared? || pc.ExecuteReady? || pc.ExecuteConflict?
    || pc.ExecuteDispatched? || pc.ExecutePatch? || pc.ExecuteReplied?
  }

  /** Any other exception. One raised in the handler is only logged. */
  function RaiseStep(s: State, t: ThreadId): (s': State)
    requires t in s.threads
    ensures Silent(s, s')
    ensures s'.db.ops == s.db.ops
  {
    var pc := s.threads[t].pc;
    if InHandler(pc) then End(s, t)
    else Move(s, t, Consult(if InExecutor(pc) then Projecting else Handling))
  }

  function InteractStep(s: State, t: ThreadId, child: Option<RunId>, parent: Option<RunId>,
                        resumable: bool): (s': State)
    requires t in s.threads
    ensures Silent(s, s')
    ensures s'.db.ops == s.db.ops
  {
    if s.threads[t].pc != Interact then s
    else FenceEnd(s, t, CompleteInteraction(s.db, s.threads[t].lease, child, parent, resumable))
  }

  function ClaimStep(s: State, t: ThreadId, run: RunId, owner: WorkerId, seconds: nat): (s': State) {
    if t in s.threads then s
    else
      match Claim(s.db, run, owner, seconds, s.maxAttempts)
      case Ok(db, lease) =>
        var pc := if lease.row.kind == Diagnosis then Consult(Recovering) else Interact;
        State(db, s.threads[t := Thread(lease, pc, None)], s.issued, s.maxAttempts)
      case Err(_) => s
  }

  // ----- all steps ---------------------------------------------------------------------------

  predicate IsClient(step: Step) {
    || step.Tick? || step.NewIncident? || step.NewRound? || step.NewInteraction? || step.NewDelayed?
    || step.DropDelayed? || step.SendControl? || step.SendAnswer? || step.SendApproval? || step.Activate?
  }

  function ClientStep(s: State, step: Step): (s': State)
    requires IsClient(step)
  {
    match step
    case Tick(d) => s.(db := s.db.(now := s.db.now + d))
    case NewIncident(i, r) => Commit(s, AcceptIncident(s.db, i, r))
    case NewRound(i, p, r, resumable) => Commit(s, AcceptRound(s.db, i, p, r, resumable))
    case NewInteraction(i, p, r, h) => Commit(s, AcceptInteraction(s.db, i, p, r, h))
    case NewDelayed(i, r) => Commit(s, ActivateDelayed(s.db, i, r))
    case DropDelayed(r) => Commit(s, CancelDelayed(s.db, r))
    case SendControl(i, k, a, c, p) => Commit(s, ControlStop(s.db, i, k, a, c, p))
    case SendAnswer(i, k, r, q, v, skip, slots, m) => Commit(s, AnswerQuestion(s.db, i, k, r, q, v, skip, slots, m))
    case SendApproval(r, a) => Commit(s, QueueApproval(s.db, r, a))
    case Activate(k, r, resumable) => Commit(s, ActivatePending(s.db, k, r, resumable))
  }

  /** The decision of `classify` on a checkpoint and on the journal as it is now. */
  function Decided(s: State, t: ThreadId, input: RunInput, started: bool, temporary: bool,
                   ck: Checkpoint): (d: Decision)
    requires t in s.threads
  {
    Classify(s.threads[t].lease, input, started, temporary, ck, OperationOf(s.db, s.threads[t].lease.run))
  }

  predicate IsExecutor(step: Step) {
    || step.CallExecutor? || step.ExecuteReadJournal? || step.PrepareWrite? || step.CheckPrecondition?
    || step.DispatchWrite? || step.ConfirmOwner? || step.PatchCluster? || step.RecordReply?
  }

  function ExecutorStep(s: State, t: ThreadId, step: Step): (s': State)
    requires t in s.threads && IsExecutor(step)
  {
    match step
    case CallExecutor(_) => CallExecutorStep(s, t)
    case ExecuteReadJournal(_, authorized) => ExecuteReadStep(s, t, authorized)
    case PrepareWrite(_, before, liveVersion) => PrepareStep(s, t, before, liveVersion)
    case CheckPrecondition(_) => CheckStep(s, t)
    case DispatchWrite(_) => DispatchStep(s, t)
    case ConfirmOwner(_) => ConfirmOwnerStep(s, t)
    case PatchCluster(_, reply) => PatchStep(s, t, reply)
    case RecordReply(_) => RecordStep(s, t)
  }

  function GraphStep(s: State, t: ThreadId, step: Step): (s': State)
    requires t in s.threads && !IsClient(step) && !step.ClaimRun? && !IsExecutor(step)
  {
    match step
    case Beat(_, seconds) => Commit(s, Heartbeat(s.db, s.threads[t].lease, seconds))
    case Crash(_) => End(s, t)
    case Raise(_) => RaiseStep(s, t)
    case ReadJournal(_) => ConsultStep(s, t)
    case ReadTarget(_, observed) => ReadTargetStep(s, t, observed)
    case FinishManual(_) => FinishManualStep(s, t)
    case ClassifyInitial(_, input, started, temporary, ck) =>
      AdmitStep(s, t, Decided(s, t, input, started, temporary, ck))
    case EnterGraph(_) => GoStep(s, t, Invoke, InGraph)
    case GraphReturns(_) => GoStep(s, t, InGraph, Consult(Projecting))
    case ClassifyFinal(_, input, started, temporary, ck) =>
      ProjectStep(s, t, Decided(s, t, input, started, temporary, ck), ck.values)
    case PublishResult(_, question) => PublishStep(s, t, question)
    case HandleError(_, temporary, delay) => HandleStep(s, t, temporary, delay)
    case FinishInteraction(_, child, parent, resumable) => InteractStep(s, t, child, parent, resumable)
  }

  function WorkerStep(s: State, t: ThreadId, step: Step): (s': State)
    requires t in s.threads && !IsClient(step) && !step.ClaimRun?
  {
    if IsExecutor(step) then ExecutorStep(s, t, step) else GraphStep(s, t, step)
  }

  function Apply(s: State, step: Step): (s': State) {
    if IsClient(step) then ClientStep(s, step)
    else if step.ClaimRun? then ClaimStep(s, step.thread, step.run, step.owner, step.seconds)
    else if step.thread in s.threads then WorkerStep(s, step.thread, step)
    else s
  }

  /** The state after a sequence of steps. */
  function After(s: State, steps: seq<Step>): (s': State)
    decreases |steps|
  {
    if steps == [] then s else Apply(After(s, steps[..|steps| - 1]), steps[|steps| - 1])
  }
}
