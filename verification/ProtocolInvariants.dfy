/** The invariant of all interleavings, and the proof that every step keeps it. */
module ProtocolInvariants {
  import opened Wrappers
  import opened Ledger
  import opened LedgerInvariants
  import opened Recovery
  import opened RecoveryTheorems
  import opened Protocol

  /** The thread's lease is the newest one and its run is still running. */
  predicate Current(s: State, t: ThreadId) {
    && t in s.threads
    && var lease := s.threads[t].lease;
       lease.run in s.db.runs && s.db.runs[lease.run].status == Running && s.db.runs[lease.run].epoch == lease.row.epoch
  }

  predicate LeaseOk(s: State, t: ThreadId)
    requires t in s.threads
  {
    var lease := s.threads[t].lease;
    && lease.run in s.db.runs
    && lease.row.incident == s.db.runs[lease.run].incident
    && lease.row.kind == s.db.runs[lease.run].kind
    && lease.row.epoch <= s.db.runs[lease.run].epoch
    && (lease.row.approval.Some? ==> s.db.runs[lease.run].approval == lease.row.approval)
  }

  /** Program points of interaction runs and of the shared exception handler. */
  predicate AnyKind(pc: Pc) {
    pc.Interact? || pc.Retry? || (pc.Consult? && pc.ctx == Handling) || (pc.PublishManual? && pc.ctx == Handling)
  }

  /** Between the committed dispatch and the patch call. */
  predicate HoldsPermit(pc: Pc) {
    pc.ExecuteDispatched? || pc.ExecutePatch?
  }

  predicate PermitState(state: OperationState) {
    state == Dispatching || state == ManualRequired
  }

  /** Facts about the journal that hold even for threads that lost their lease. */
  predicate PermitOk(s: State, t: ThreadId)
    requires t in s.threads
  {
    var run, epoch, pc := s.threads[t].lease.run, s.threads[t].lease.row.epoch, s.threads[t].pc;
    && (HoldsPermit(pc) ==> run in s.db.ops && PermitState(s.db.ops[run].state) && s.db.ops[run].epoch == epoch
                            && run !in s.issued)
    && (pc.ExecuteReplied? ==> run in s.issued && run in s.db.ops && s.db.ops[run].state != Prepared
                               && s.db.ops[run].epoch == epoch)
    && (pc == Consult(Recovering) && run in s.db.ops ==> s.db.ops[run].epoch != epoch)
  }

  /** Nothing uncertain is in the journal, and a response saved under another lease was read back. */
  predicate SafeToGoOn(op: Option<Operation>, epoch: nat, readBack: Option<Snapshot>) {
    op.Some? ==>
      && !Uncertain(op.value.state)
      && (Attributed(op.value.state) && op.value.epoch != epoch ==> readBack == op.value.response)
  }

  /** What the thread read is still what the journal says. Holds while its lease is current. */
  predicate ViewOk(op: Option<Operation>, th: Thread) {
    match th.pc
    case Reconcile(ctx, view) =>
      op == Some(view) && (Uncertain(view.state) || (ctx == Recovering && Attributed(view.state)))
    case Ready => SafeToGoOn(op, th.lease.row.epoch, th.readBack)
    case Invoke => SafeToGoOn(op, th.lease.row.epoch, th.readBack)
    case InGraph => SafeToGoOn(op, th.lease.row.epoch, th.readBack)
    case ExecuteRead => SafeToGoOn(op, th.lease.row.epoch, th.readBack)
    case ExecutePrepare(_) => op.Some? ==> op.value.state == Prepared
    case ExecutePrepared(view, _) => op == Some(view) && view.state == Prepared
    case ExecuteReady(view, _) => op == Some(view) && view.state == Prepared
    case ExecuteConflict(view) => op == Some(view) && view.state == Prepared
    case ExecuteDispatched(view) => op.Some? && op.value.state == Dispatching && op.value.write == view.write
    case ExecutePatch(view) => op.Some? && op.value.state == Dispatching && op.value.write == view.write
    case ExecuteReplied(view, _) => op.Some? && op.value.state == Dispatching && op.value.write == view.write
    case Publish(_, basis, _) => op == basis
    case _ => true
  }

  /** The executor acts for the approving decision the run was claimed with. */
  predicate ActsFor(lease: Lease, saved: Approval) {
    saved.approved && lease.row.approval == Some(saved)
  }

  /** What a program point carries from earlier decisions. */
  predicate DecisionOk(lease: Lease, pc: Pc) {
    && (pc.Publish? && pc.status == Succeeded ==> pc.values.Some? && SuccessDue(lease, pc.values.value, pc.basis))
    && (pc.ExecutePrepare? ==> ActsFor(lease, pc.saved))
    && (pc.ExecutePrepared? || pc.ExecuteReady? ==> ActsFor(lease, pc.own.saved))
    && (pc.ExecuteReady? ==> PreconditionMet(pc.view.write, pc.own))
  }

  predicate ThreadOk(s: State, t: ThreadId)
    requires t in s.threads
  {
    var th := s.threads[t];
    && LeaseOk(s, t)
    && (!AnyKind(th.pc) ==> th.lease.row.kind == Diagnosis)
    && (th.pc.Interact? ==> th.lease.row.kind == Interaction)
    && PermitOk(s, t)
    && DecisionOk(th.lease, th.pc)
    && (Current(s, t) ==> ViewOk(OperationOf(s.db, th.lease.run), th))
  }

  predicate SharedLease(s: State, a: ThreadId, b: ThreadId) {
    && a in s.threads && b in s.threads && a != b
    && s.threads[a].lease.run == s.threads[b].lease.run && s.threads[a].lease.row.epoch == s.threads[b].lease.row.epoch
  }

  /** Every claim hands out a new epoch, so no two threads hold the same lease. */
  ghost predicate LeasesDistinct(s: State) {
    forall a, b :: !SharedLease(s, a, b)
  }

  predicate IssuedTwice(s: State, i: nat, j: nat) {
    i < j < |s.issued| && s.issued[i] == s.issued[j]
  }

  /** States that only the reply to a patch call leads to. */
  predicate Answered(state: OperationState) {
    Attributed(state) || state == OutcomeUnknown
  }

  /** No run is patched twice, a patched run has left `prepared`, and an answer needs a patch call. */
  ghost predicate IssuedOk(s: State) {
    && (forall i, j :: !IssuedTwice(s, i, j))
    && (forall r :: r in s.issued ==> r in s.db.ops && s.db.ops[r].state != Prepared)
    && (forall r :: r in s.db.ops && Answered(s.db.ops[r].state) ==> r in s.issued)
  }

  ghost predicate Inv(s: State) {
    && DbOk(s.db, s.maxAttempts)
    && (forall t :: t in s.threads ==> ThreadOk(s, t))
    && LeasesDistinct(s)
    && IssuedOk(s)
  }

  lemma ThreadFacts(s: State, t: ThreadId)
    requires Inv(s) && t in s.threads
    ensures ThreadOk(s, t)
  {
  }

  lemma SharedFacts(s: State)
    requires Inv(s)
    ensures DbOk(s.db, s.maxAttempts) && LeasesDistinct(s) && IssuedOk(s)
  {
  }

  lemma InitOk(s: State)
    requires Init(s)
    ensures Inv(s)
  {
  }

  // ----- threads that do not move ------------------------------------------------------------

  /** A step that leaves a waiting thread's facts alone. */
  predicate Quiet(s: State, s': State, u: ThreadId)
    requires u in s.threads
  {
    var run, epoch, pc := s.threads[u].lease.run, s.threads[u].lease.row.epoch, s.threads[u].pc;
    && u in s'.threads && s'.threads[u] == s.threads[u]
    && (Current(s', u) ==> OperationOf(s'.db, run) == OperationOf(s.db, run))
    && (HoldsPermit(pc) && run in s.db.ops ==> run in s'.db.ops && PermitState(s'.db.ops[run].state))
    && (HoldsPermit(pc) ==> run !in s'.issued)
    && (run in s'.db.ops && run !in s.db.ops ==> s'.db.ops[run].epoch != epoch)
    && (run in s'.db.ops && run in s.db.ops ==>
          s'.db.ops[run].epoch == s.db.ops[run].epoch || s'.db.ops[run].epoch != epoch)
  }

  lemma QuietKeeps(s: State, s': State, u: ThreadId)
    requires u in s.threads && ThreadOk(s, u) && Quiet(s, s', u)
    requires Evolves(s.db, s'.db) && s.issued <= s'.issued
    ensures ThreadOk(s', u)
  {
    var th := s.threads[u];
    assert RunEvolves(s.db.runs[th.lease.run], s'.db.runs[th.lease.run]);
    if Current(s', u) {
      assert Current(s, u);
    }
    assert PermitOk(s', u) by {
      if th.lease.run in s.db.ops {
        assert OperationEvolves(s.db.ops[th.lease.run], s'.db.ops[th.lease.run]);
      }
    }
  }

  ghost predicate NobodyElseHolds(s: State, t: ThreadId, lease: Lease) {
    forall u :: u in s.threads && u != t && s.threads[u].lease.run == lease.run ==>
                s.threads[u].lease.row.epoch != lease.row.epoch
  }

  lemma OwnLeaseUnique(s: State, t: ThreadId)
    requires LeasesDistinct(s) && t in s.threads
    ensures NobodyElseHolds(s, t, s.threads[t].lease)
  {
    forall u | u in s.threads && u != t && s.threads[u].lease.run == s.threads[t].lease.run
      ensures s.threads[u].lease.row.epoch != s.threads[t].lease.row.epoch
    {
      assert !SharedLease(s, u, t);
    }
  }

  /** The state after a step of thread `t`, from its parts. */
  lemma Reassemble(s: State, s': State, t: ThreadId)
    requires Inv(s) && DbOk(s'.db, s'.maxAttempts) && Evolves(s.db, s'.db) && s.issued <= s'.issued
    requires s'.maxAttempts == s.maxAttempts && IssuedOk(s')
    requires s'.threads.Keys <= s.threads.Keys + {t}
    requires forall u :: u in s'.threads && u != t ==> u in s.threads && Quiet(s, s', u)
    requires t in s'.threads ==> ThreadOk(s', t)
    requires t in s'.threads ==> NobodyElseHolds(s, t, s'.threads[t].lease)
    ensures Inv(s')
  {
    forall u | u in s'.threads ensures ThreadOk(s', u) {
      if u != t {
        QuietKeeps(s, s', u);
      }
    }
    forall a, b ensures !SharedLease(s', a, b) {
      assert !SharedLease(s, a, b);
    }
  }

  /** Steps that do not touch the journal are quiet for everyone. */
  lemma QuietWhenJournalSame(s: State, s': State, u: ThreadId)
    requires u in s.threads && u in s'.threads && s'.threads[u] == s.threads[u] && ThreadOk(s, u)
    requires s'.db.ops == s.db.ops && s'.issued == s.issued
    ensures Quiet(s, s', u)
  {
  }

  lemma SameIssued(s: State, s': State)
    requires IssuedOk(s) && Evolves(s.db, s'.db) && s'.issued == s.issued
    requires forall r :: r in s'.db.ops && Answered(s'.db.ops[r].state) ==>
                         (r in s.db.ops && Answered(s.db.ops[r].state)) || r in s.issued
    ensures IssuedOk(s')
  {
    forall i, j ensures !IssuedTwice(s', i, j) { assert !IssuedTwice(s, i, j); }
    forall r | r in s'.issued ensures r in s'.db.ops && s'.db.ops[r].state != Prepared {
      assert r in s.issued;
      assert OperationEvolves(s.db.ops[r], s'.db.ops[r]);
    }
  }

  lemma JournalSameIssued(s: State, s': State)
    requires IssuedOk(s) && Evolves(s.db, s'.db) && s'.issued == s.issued && s'.db.ops == s.db.ops
    ensures IssuedOk(s')
  {
    SameIssued(s, s');
  }

  lemma EvolvesRefl(db: Db)
    ensures Evolves(db, db)
  {
  }

  // ----- steps that only change run rows -----------------------------------------------------

  /** Thread `t` ends or moves on; the journal stays as it is. */
  lemma JournalSameKeeps(s: State, s': State, t: ThreadId)
    requires Inv(s) && DbOk(s'.db, s'.maxAttempts) && Evolves(s.db, s'.db)
    requires s'.db.ops == s.db.ops && s'.issued == s.issued && s'.maxAttempts == s.maxAttempts
    requires s'.threads.Keys <= s.threads.Keys
    requires forall u :: u in s'.threads && u != t ==> s'.threads[u] == s.threads[u]
    requires t in s'.threads ==> s'.threads[t].lease == s.threads[t].lease && ThreadOk(s', t)
    ensures Inv(s')
  {
    SameIssued(s, s');
    forall u | u in s'.threads && u != t ensures u in s.threads && Quiet(s, s', u) {
      QuietWhenJournalSame(s, s', u);
    }
    if t in s'.threads { OwnLeaseUnique(s, t); }
    Reassemble(s, s', t);
  }

  /** A thread moves without a transaction. */
  lemma MoveKeeps(s: State, t: ThreadId, pc: Pc)
    requires Inv(s) && t in s.threads && ThreadOk(Move(s, t, pc), t)
    ensures Inv(Move(s, t, pc)) && Evolves(s.db, Move(s, t, pc).db)
  {
    EvolvesRefl(s.db);
    JournalSameKeeps(s, Move(s, t, pc), t);
  }

  lemma EndKeeps(s: State, t: ThreadId, db: Db)
    requires Inv(s) && DbOk(db, s.maxAttempts) && Evolves(s.db, db) && db.ops == s.db.ops
    ensures Inv(End(s.(db := db), t))
  {
    JournalSameKeeps(s, End(s.(db := db), t), t);
  }

  lemma EndOnlyKeeps(s: State, t: ThreadId)
    requires Inv(s)
    ensures Inv(End(s, t)) && Evolves(s.db, End(s, t).db)
  {
    EvolvesRefl(s.db);
    EndKeeps(s, t, s.db);
  }

  lemma ToHandlerKeeps(s: State, t: ThreadId)
    requires Inv(s) && t in s.threads
    ensures Inv(Move(s, t, Consult(Handling))) && Evolves(s.db, Move(s, t, Consult(Handling)).db)
  {
    MoveKeeps(s, t, Consult(Handling));
  }

  /** An exception of the executor ends the graph call. */
  lemma ToProjectionKeeps(s: State, t: ThreadId)
    requires Inv(s) && t in s.threads && !AnyKind(s.threads[t].pc)
    ensures Inv(Move(s, t, Consult(Projecting))) && Evolves(s.db, Move(s, t, Consult(Projecting)).db)
  {
    assert ThreadOk(s, t);
    MoveKeeps(s, t, Consult(Projecting));
  }

  lemma FencedEndKeeps<T>(s: State, t: ThreadId, o: Outcome<T>)
    requires Inv(s) && t in s.threads
             && (o.Ok? ==> DbOk(o.db, s.maxAttempts) && Evolves(s.db, o.db) && o.db.ops == s.db.ops)
    ensures var s' := FenceEnd(s, t, o); Inv(s') && Evolves(s.db, s'.db)
  {
    hide Inv, Evolves, DbOk;
    if o.Ok? { EndKeeps(s, t, o.db); } else { EndOnlyKeeps(s, t); }
  }

  lemma FinishJournal(db: Db, lease: Lease, requested: RunStatus, delay: Option<nat>, question: Option<Question>)
    ensures var o := Finish(db, lease, requested, delay, question); o.Ok? ==> o.db.ops == db.ops
  {
  }

  lemma FinishEndKeeps(s: State, t: ThreadId, requested: RunStatus, delay: Option<nat>, question: Option<Question>)
    requires Inv(s) && t in s.threads
    ensures var s' := FenceEnd(s, t, Finish(s.db, s.threads[t].lease, requested, delay, question));
            Inv(s') && Evolves(s.db, s'.db)
  {
    hide Inv, Evolves, DbOk, Finish, FenceEnd;
    var o := Finish(s.db, s.threads[t].lease, requested, delay, question);
    if o.Ok? {
      SharedFacts(s);
      FinishKeeps(s.db, s.threads[t].lease, requested, delay, question, s.maxAttempts);
      FinishJournal(s.db, s.threads[t].lease, requested, delay, question);
    }
    FencedEndKeeps(s, t, o);
  }

  // ----- fenced steps that change the journal row of their run --------------------------------

  /** A transaction under `lease` that changed at most the journal row of its own run. A row dispatched
      under another lease stays dispatching or becomes manual. */
  ghost predicate OwnRowOnly(db: Db, db': Db, lease: Lease) {
    var run, epoch := lease.run, lease.row.epoch;
    && db'.runs == db.runs
    && (forall r :: r in db.ops && r != run ==> r in db'.ops && db'.ops[r] == db.ops[r])
    && (forall r :: r in db'.ops && r != run ==> r in db.ops)
    && (run in db.ops ==>
          && run in db'.ops
          && (db'.ops[run].epoch == db.ops[run].epoch || db'.ops[run].epoch == epoch)
          && (PermitState(db.ops[run].state) && db.ops[run].epoch != epoch ==> PermitState(db'.ops[run].state)))
    && (run in db'.ops && run !in db.ops ==> db'.ops[run].epoch == epoch)
  }

  /** A fenced change of the own journal row cannot be seen by a thread whose lease is current. */
  lemma QuietUnderFence(s: State, s': State, t: ThreadId, u: ThreadId)
    requires t in s.threads && u in s.threads && !SharedLease(s, u, t) && u != t && Fenced(s.db, s.threads[t].lease)
    requires ThreadOk(s, u)
    requires u in s'.threads && s'.threads[u] == s.threads[u] && s'.issued == s.issued
    requires OwnRowOnly(s.db, s'.db, s.threads[t].lease)
    ensures Quiet(s, s', u)
  {
  }

  /** The part of `Reassemble` shared by all such steps. */
  lemma FencedKeeps(s: State, s': State, t: ThreadId)
    requires Inv(s) && t in s.threads && Fenced(s.db, s.threads[t].lease)
    requires DbOk(s'.db, s.maxAttempts) && Evolves(s.db, s'.db) && OwnRowOnly(s.db, s'.db, s.threads[t].lease)
    requires s'.issued == s.issued && s'.maxAttempts == s.maxAttempts
    requires t in s'.threads && s'.threads == s.threads[t := s'.threads[t]] && s'.threads[t].lease == s.threads[t].lease
    requires var r := s.threads[t].lease.run;
             r in s'.db.ops && Answered(s'.db.ops[r].state) ==>
                   (r in s.db.ops && Answered(s.db.ops[r].state)) || r in s.issued
    requires ThreadOk(s', t)
    ensures Inv(s')
  {
    SameIssued(s, s');
    forall u | u in s'.threads && u != t ensures u in s.threads && Quiet(s, s', u) {
      assert !SharedLease(s, u, t);
      QuietUnderFence(s, s', t, u);
    }
    OwnLeaseUnique(s, t);
    Reassemble(s, s', t);
  }

  lemma FencedIsCurrent(s: State, t: ThreadId)
    requires t in s.threads && Fenced(s.db, s.threads[t].lease)
    ensures Current(s, t)
  {
  }

  // ----- the executor ------------------------------------------------------------------------

  /** Program points that share their facts with their predecessor. */
  predicate Follows(from: Pc, to: Pc) {
    || (from == Invoke && to == InGraph)
    || (from == InGraph && (to == Consult(Projecting) || to == ExecuteRead))
    || (from.ExecutePrepared? && to == ExecuteConflict(from.view))
    || (from.ExecutePrepared? && to == ExecuteReady(from.view, from.own) && PreconditionMet(from.view.write, from.own))
    || (from.ExecuteDispatched? && to == ExecutePatch(from.view))
  }

  lemma GoThreadOk(s: State, t: ThreadId, from: Pc, to: Pc)
    requires t in s.threads && ThreadOk(s, t) && s.threads[t].pc == from && Follows(from, to)
    ensures ThreadOk(Move(s, t, to), t)
  {
  }

  lemma GoKeeps(s: State, t: ThreadId, from: Pc, to: Pc)
    requires Inv(s) && t in s.threads && s.threads[t].pc == from && Follows(from, to)
    ensures ThreadOk(Move(s, t, to), t)
    ensures Inv(Move(s, t, to)) && Evolves(s.db, Move(s, t, to).db)
  {
    GoThreadOk(s, t, from, to);
    MoveKeeps(s, t, to);
  }

  lemma OwnedKeeps(s: State, t: ThreadId, from: Pc, to: Pc)
    requires Inv(s) && t in s.threads && s.threads[t].pc == from && Follows(from, to) && !AnyKind(from)
    ensures var s' := OwnedStep(s, t, to); Inv(s') && Evolves(s.db, s'.db)
  {
    hide Inv, Evolves, Follows, Fenced, ThreadOk;
    if Fenced(s.db, s.threads[t].lease) { GoKeeps(s, t, from, to); } else { ToProjectionKeeps(s, t); }
  }

  lemma ExecuteReadThreadOk(s: State, t: ThreadId, authorized: bool)
    requires t in s.threads && ThreadOk(s, t) && s.threads[t].pc == ExecuteRead
    ensures var s' := ExecuteReadStep(s, t, authorized);
            t in s'.threads && s' == Move(s, t, s'.threads[t].pc) && ThreadOk(s', t)
  {
  }

  lemma ExecuteReadKeeps(s: State, t: ThreadId, authorized: bool)
    requires Inv(s) && t in s.threads
    ensures var s' := ExecuteReadStep(s, t, authorized); Inv(s') && Evolves(s.db, s'.db)
  {
    hide Inv, Evolves, ThreadOk;
    EvolvesRefl(s.db);
    if s.threads[t].pc == ExecuteRead {
      ThreadFacts(s, t);
      ExecuteReadThreadOk(s, t, authorized);
      MoveKeeps(s, t, ExecuteReadStep(s, t, authorized).threads[t].pc);
    }
  }

  lemma PrepareThreadOk(s: State, t: ThreadId, before: Snapshot, liveVersion: string)
    requires t in s.threads && ThreadOk(s, t) && s.threads[t].pc.ExecutePrepare?
    requires Prepare(s.db, s.threads[t].lease, RequestOf(s.threads[t].pc.saved, before)).Ok?
    ensures ThreadOk(PrepareStep(s, t, before, liveVersion), t)
    ensures OwnRowOnly(s.db, PrepareStep(s, t, before, liveVersion).db, s.threads[t].lease)
    ensures var lease := s.threads[t].lease;
            lease.run in s.db.runs && s.db.runs[lease.run].kind == Diagnosis
            && s.db.runs[lease.run].incident == lease.row.incident
  {
    FencedIsCurrent(s, t);
  }

  lemma PrepareFenced(db: Db, lease: Lease, write: WriteRequest)
    requires Prepare(db, lease, write).Ok?
    ensures Fenced(db, lease)
  {
  }

  lemma PrepareShape(s: State, t: ThreadId, before: Snapshot, liveVersion: string)
    requires t in s.threads && s.threads[t].pc.ExecutePrepare?
    ensures var saved := s.threads[t].pc.saved;
            var o, s' := Prepare(s.db, s.threads[t].lease, RequestOf(saved, before)),
            PrepareStep(s, t, before, liveVersion);
            if o.Ok? then
              s' == Move(s.(db := o.db), t, ExecutePrepared(o.value, OwnRead(saved, before, liveVersion)))
              && var r := s.threads[t].lease.run;
                 r in o.db.ops && (Answered(o.db.ops[r].state) ==> r in s.db.ops && Answered(s.db.ops[r].state))
            else s' == Move(s, t, Consult(Projecting))
  {
  }

  lemma PrepareStepKeeps(s: State, t: ThreadId, before: Snapshot, liveVersion: string)
    requires Inv(s) && t in s.threads
    ensures var s' := PrepareStep(s, t, before, liveVersion); Inv(s') && Evolves(s.db, s'.db)
  {
    hide Inv, Evolves, ThreadOk, Prepare, OwnRowOnly, Fenced, DbOk;
    EvolvesRefl(s.db);
    if s.threads[t].pc.ExecutePrepare? {
      var lease, write := s.threads[t].lease, RequestOf(s.threads[t].pc.saved, before);
      ThreadFacts(s, t);
      PrepareShape(s, t, before, liveVersion);
      if Prepare(s.db, lease, write).Ok? {
        SharedFacts(s);
        PrepareThreadOk(s, t, before, liveVersion);
        PrepareKeeps(s.db, lease, write, s.maxAttempts);
        PrepareFenced(s.db, lease, write);
        FencedKeeps(s, PrepareStep(s, t, before, liveVersion), t);
      } else {
        ToProjectionKeeps(s, t);
      }
    }
  }

  lemma CheckKeeps(s: State, t: ThreadId)
    requires Inv(s) && t in s.threads
    ensures var s' := CheckStep(s, t); Inv(s') && Evolves(s.db, s'.db)
  {
    hide Inv, Evolves, ThreadOk;
    EvolvesRefl(s.db);
    if s.threads[t].pc.ExecutePrepared? { GoKeeps(s, t, s.threads[t].pc, CheckStep(s, t).threads[t].pc); }
  }

  lemma DispatchThreadOk(s: State, t: ThreadId)
    requires t in s.threads && ThreadOk(s, t) && s.threads[t].pc.ExecuteReady?
    requires Dispatch(s.db, s.threads[t].lease).Ok?
    requires s.threads[t].lease.run !in s.issued
    ensures ThreadOk(DispatchStep(s, t), t)
    ensures OwnRowOnly(s.db, DispatchStep(s, t).db, s.threads[t].lease)
  {
    FencedIsCurrent(s, t);
  }

  /** Nothing was issued for a run whose row is still prepared. */
  lemma DispatchShape(s: State, t: ThreadId)
    requires t in s.threads && s.threads[t].pc.ExecuteReady? && IssuedOk(s)
    ensures var o, s' := Dispatch(s.db, s.threads[t].lease), DispatchStep(s, t);
            if o.Ok? then
              && s' == Move(s.(db := o.db), t, ExecuteDispatched(s.threads[t].pc.view))
              && Fenced(s.db, s.threads[t].lease)
              && var r := s.threads[t].lease.run;
                 r !in s.issued && r in o.db.ops && o.db.ops[r].state == Dispatching
            else s' == Move(s, t, Consult(Projecting))
  {
  }

  lemma DispatchStepKeeps(s: State, t: ThreadId)
    requires Inv(s) && t in s.threads
    ensures var s' := DispatchStep(s, t); Inv(s') && Evolves(s.db, s'.db)
  {
    hide Inv, Evolves, ThreadOk, Dispatch, OwnRowOnly, Fenced, DbOk, IssuedOk;
    EvolvesRefl(s.db);
    if s.threads[t].pc.ExecuteReady? {
      ThreadFacts(s, t);
      SharedFacts(s);
      DispatchShape(s, t);
      if Dispatch(s.db, s.threads[t].lease).Ok? {
        DispatchKeeps(s.db, s.threads[t].lease, s.maxAttempts);
        DispatchThreadOk(s, t);
        FencedKeeps(s, DispatchStep(s, t), t);
      } else {
        ToProjectionKeeps(s, t);
      }
    }
  }

  lemma ConfirmKeeps(s: State, t: ThreadId)
    requires Inv(s) && t in s.threads
    ensures var s' := ConfirmOwnerStep(s, t); Inv(s') && Evolves(s.db, s'.db)
  {
    hide Inv, Evolves, ThreadOk;
    EvolvesRefl(s.db);
    var pc := s.threads[t].pc;
    if pc.ExecuteDispatched? { OwnedKeeps(s, t, pc, ExecutePatch(pc.view)); }
  }

  lemma CallKeeps(s: State, t: ThreadId)
    requires Inv(s) && t in s.threads
    ensures var s' := CallExecutorStep(s, t); Inv(s') && Evolves(s.db, s'.db)
  {
    hide Inv, Evolves, ThreadOk;
    EvolvesRefl(s.db);
    if s.threads[t].pc == InGraph { OwnedKeeps(s, t, InGraph, ExecuteRead); }
  }

  /** What the executor records is consistent with the row it dispatched or prepared. */
  lemma OwnEntryOk(op: Operation, pc: Pc)
    requires pc.ExecuteReplied? || pc.ExecuteConflict?
    requires OperationOk(op) && op.write == pc.view.write
    requires pc.ExecuteReplied? ==> op.state == Dispatching
    ensures EntryOk(op, OwnEntry(pc))
  {
  }

  lemma RecordThreadOk(s: State, t: ThreadId)
    requires t in s.threads && ThreadOk(s, t) && (s.threads[t].pc.ExecuteReplied? || s.threads[t].pc.ExecuteConflict?)
    requires Record(s.db, s.threads[t].lease, OwnEntry(s.threads[t].pc)).Ok?
    ensures ThreadOk(RecordStep(s, t), t)
  {
    FencedIsCurrent(s, t);
  }

  lemma RecordOwnRow(s: State, t: ThreadId)
    requires t in s.threads && ThreadOk(s, t) && (s.threads[t].pc.ExecuteReplied? || s.threads[t].pc.ExecuteConflict?)
    requires Record(s.db, s.threads[t].lease, OwnEntry(s.threads[t].pc)).Ok?
    ensures OwnRowOnly(s.db, RecordStep(s, t).db, s.threads[t].lease)
  {
    FencedIsCurrent(s, t);
  }

  /** The row a fenced executor records into, and the run's state after it. */
  lemma RecordShape(s: State, t: ThreadId)
    requires t in s.threads && (s.threads[t].pc.ExecuteReplied? || s.threads[t].pc.ExecuteConflict?)
    requires ThreadOk(s, t)
    ensures var th := s.threads[t];
            var o, s' := Record(s.db, th.lease, OwnEntry(th.pc)), RecordStep(s, t);
            if o.Ok? then
              && s' == Move(s.(db := o.db), t, AfterRecord(OwnEntry(th.pc))) && Fenced(s.db, th.lease)
              && th.lease.run in s.db.ops && s.db.ops[th.lease.run].write == th.pc.view.write
              && (th.pc.ExecuteReplied? ==> s.db.ops[th.lease.run].state == Dispatching && th.lease.run in s.issued)
              && th.lease.run in o.db.ops && (Answered(o.db.ops[th.lease.run].state) ==> th.pc.ExecuteReplied?)
            else s' == Move(s, t, Consult(Projecting))
  {
    if Fenced(s.db, s.threads[t].lease) { FencedIsCurrent(s, t); }
  }

  lemma RecordStepKeeps(s: State, t: ThreadId)
    requires Inv(s) && t in s.threads
    ensures var s' := RecordStep(s, t); Inv(s') && Evolves(s.db, s'.db)
  {
    hide Inv, Evolves, ThreadOk, Record, OwnRowOnly, Fenced, OwnEntry, EntryOk, OperationOk;
    EvolvesRefl(s.db);
    var lease, pc := s.threads[t].lease, s.threads[t].pc;
    if pc.ExecuteReplied? || pc.ExecuteConflict? {
      ThreadFacts(s, t);
      RecordShape(s, t);
      if Record(s.db, lease, OwnEntry(pc)).Ok? {
        SharedFacts(s);
        OwnEntryOk(s.db.ops[lease.run], pc);
        RecordKeeps(s.db, lease, OwnEntry(pc), s.maxAttempts);
        RecordThreadOk(s, t);
        RecordOwnRow(s, t);
        FencedKeeps(s, RecordStep(s, t), t);
      } else {
        ToProjectionKeeps(s, t);
      }
    }
  }

  lemma PatchQuiet(s: State, t: ThreadId, reply: Reply, u: ThreadId)
    requires t in s.threads && s.threads[t].pc.ExecutePatch? && ThreadOk(s, t)
    requires u in s.threads && u != t && ThreadOk(s, u) && !SharedLease(s, u, t)
    ensures Quiet(s, PatchStep(s, t, reply), u)
  {
  }

  lemma PatchIssued(s: State, t: ThreadId, reply: Reply)
    requires IssuedOk(s) && t in s.threads && s.threads[t].pc.ExecutePatch? && ThreadOk(s, t)
    ensures IssuedOk(PatchStep(s, t, reply)) && ThreadOk(PatchStep(s, t, reply), t)
  {
    var s' := PatchStep(s, t, reply);
    forall i, j ensures !IssuedTwice(s', i, j) { assert !IssuedTwice(s, i, j); }
  }

  lemma PatchKeeps(s: State, t: ThreadId, reply: Reply)
    requires Inv(s) && t in s.threads
    ensures var s' := PatchStep(s, t, reply); Inv(s') && Evolves(s.db, s'.db)
  {
    hide Inv, Evolves, ThreadOk, Quiet, IssuedOk, DbOk;
    EvolvesRefl(s.db);
    if s.threads[t].pc.ExecutePatch? {
      var s' := PatchStep(s, t, reply);
      ThreadFacts(s, t);
      SharedFacts(s);
      PatchIssued(s, t, reply);
      forall u | u in s'.threads && u != t ensures u in s.threads && Quiet(s, s', u) {
        ThreadFacts(s, u);
        assert !SharedLease(s, u, t);
        PatchQuiet(s, t, reply, u);
      }
      OwnLeaseUnique(s, t);
      Reassemble(s, s', t);
    }
  }

  // ----- the worker around the graph ---------------------------------------------------------

  lemma ConsultThreadOk(s: State, t: ThreadId)
    requires t in s.threads && ThreadOk(s, t) && s.threads[t].pc.Consult? && DbOk(s.db, s.maxAttempts)
    ensures var s' := ConsultStep(s, t); t in s'.threads && s' == Move(s, t, s'.threads[t].pc) && ThreadOk(s', t)
  {
  }

  lemma ConsultKeeps(s: State, t: ThreadId)
    requires Inv(s) && t in s.threads
    ensures var s' := ConsultStep(s, t); Inv(s') && Evolves(s.db, s'.db)
  {
    hide Inv, Evolves, ThreadOk, DbOk;
    EvolvesRefl(s.db);
    if s.threads[t].pc.Consult? {
      ThreadFacts(s, t);
      SharedFacts(s);
      ConsultThreadOk(s, t);
      MoveKeeps(s, t, ConsultStep(s, t).threads[t].pc);
    }
  }

  lemma FindingOk(op: Operation, observed: Option<Snapshot>)
    ensures EntryOk(op, Finding(op, observed))
  {
  }

  lemma ReadTargetThreadOk(s: State, t: ThreadId, observed: Option<Snapshot>)
    requires t in s.threads && ThreadOk(s, t) && s.threads[t].pc.Reconcile?
    requires s.threads[t].lease.run in s.db.ops ==> OperationOk(s.db.ops[s.threads[t].lease.run])
    requires Record(s.db, s.threads[t].lease, Finding(s.threads[t].pc.view, observed)).Ok?
    ensures ThreadOk(ReadTargetStep(s, t, observed), t)
  {
    FencedIsCurrent(s, t);
  }

  lemma ReadTargetOwnRow(s: State, t: ThreadId, observed: Option<Snapshot>)
    requires t in s.threads && ThreadOk(s, t) && s.threads[t].pc.Reconcile?
    requires Record(s.db, s.threads[t].lease, Finding(s.threads[t].pc.view, observed)).Ok?
    ensures OwnRowOnly(s.db, ReadTargetStep(s, t, observed).db, s.threads[t].lease)
  {
    FencedIsCurrent(s, t);
  }

  lemma ReadTargetShape(s: State, t: ThreadId, observed: Option<Snapshot>)
    requires t in s.threads && s.threads[t].pc.Reconcile?
    ensures var o, s' := Record(s.db, s.threads[t].lease, Finding(s.threads[t].pc.view, observed)),
            ReadTargetStep(s, t, observed);
            if o.Ok? then
              && s'.db == o.db && s'.issued == s.issued && s'.maxAttempts == s.maxAttempts
              && t in s'.threads && s'.threads == s.threads[t := s'.threads[t]]
              && s'.threads[t].lease == s.threads[t].lease
            else s' == End(s, t)
  {
  }

  /** A finding that attributes a write is one about a row that already was. */
  lemma ReadTargetAnswers(s: State, t: ThreadId, observed: Option<Snapshot>)
    requires t in s.threads && s.threads[t].pc.Reconcile? && ThreadOk(s, t) && IssuedOk(s)
    requires Record(s.db, s.threads[t].lease, Finding(s.threads[t].pc.view, observed)).Ok?
    ensures var lease, db := s.threads[t].lease, ReadTargetStep(s, t, observed).db;
            Fenced(s.db, lease) && lease.run in s.db.ops && s.db.ops[lease.run] == s.threads[t].pc.view
            && (lease.run in db.ops && Answered(db.ops[lease.run].state) ==> lease.run in s.issued)
  {
    FencedIsCurrent(s, t);
  }

  lemma ReadTargetKeeps(s: State, t: ThreadId, observed: Option<Snapshot>)
    requires Inv(s) && t in s.threads
    ensures var s' := ReadTargetStep(s, t, observed); Inv(s') && Evolves(s.db, s'.db)
  {
    hide Inv, Evolves, ThreadOk, Record, OwnRowOnly, Fenced, Finding, EntryOk, OperationOk, IssuedOk;
    EvolvesRefl(s.db);
    var lease, pc := s.threads[t].lease, s.threads[t].pc;
    if pc.Reconcile? {
      ReadTargetShape(s, t, observed);
      if Record(s.db, lease, Finding(pc.view, observed)).Ok? {
        ThreadFacts(s, t);
        SharedFacts(s);
        FindingOk(pc.view, observed);
        ReadTargetAnswers(s, t, observed);
        RecordKeeps(s.db, lease, Finding(pc.view, observed), s.maxAttempts);
        ReadTargetThreadOk(s, t, observed);
        ReadTargetOwnRow(s, t, observed);
        FencedKeeps(s, ReadTargetStep(s, t, observed), t);
      } else {
        EndOnlyKeeps(s, t);
      }
    }
  }

  lemma HandleCases(s: State, t: ThreadId, temporary: bool, delay: nat)
    requires t in s.threads && s.threads[t].pc == Retry
    ensures var s', lease := HandleStep(s, t, temporary, delay), s.threads[t].lease;
            || s' == FenceEnd(s, t, Finish(s.db, lease, RetryScheduled, Some(delay), None))
            || s' == FenceEnd(s, t, Finish(s.db, lease, Failed, None, None))
            || s' == Move(s, t, PublishManual(Handling))
  {
  }

  lemma ManualMoveKeeps(s: State, t: ThreadId)
    requires Inv(s) && t in s.threads && s.threads[t].pc == Retry
    ensures var s' := Move(s, t, PublishManual(Handling)); Inv(s') && Evolves(s.db, s'.db)
  {
    ThreadFacts(s, t);
    MoveKeeps(s, t, PublishManual(Handling));
  }

  lemma HandleKeeps(s: State, t: ThreadId, temporary: bool, delay: nat)
    requires Inv(s) && t in s.threads
    ensures var s' := HandleStep(s, t, temporary, delay); Inv(s') && Evolves(s.db, s'.db)
  {
    hide Inv, Evolves, Finish, FenceEnd, Move;
    EvolvesRefl(s.db);
    if s.threads[t].pc == Retry {
      HandleCases(s, t, temporary, delay);
      FinishEndKeeps(s, t, RetryScheduled, Some(delay), None);
      FinishEndKeeps(s, t, Failed, None, None);
      ManualMoveKeeps(s, t);
    }
  }

  lemma FinishManualKeeps(s: State, t: ThreadId)
    requires Inv(s) && t in s.threads
    ensures var s' := FinishManualStep(s, t); Inv(s') && Evolves(s.db, s'.db)
  {
    hide Inv, Evolves, Finish, FenceEnd;
    EvolvesRefl(s.db);
    FinishEndKeeps(s, t, Reconciling, None, None);
  }

  lemma PublishKeeps(s: State, t: ThreadId, question: Option<Question>)
    requires Inv(s) && t in s.threads
    ensures var s' := PublishStep(s, t, question); Inv(s') && Evolves(s.db, s'.db)
  {
    hide Inv, Evolves, Finish, FenceEnd;
    EvolvesRefl(s.db);
    if s.threads[t].pc.Publish? { FinishEndKeeps(s, t, s.threads[t].pc.status, None, question); }
  }

  lemma AdmitThreadOk(s: State, t: ThreadId)
    requires t in s.threads && ThreadOk(s, t) && s.threads[t].pc == Ready
    ensures ThreadOk(Move(s, t, Invoke), t)
    ensures ThreadOk(Move(s, t, Publish(Failed, OperationOf(s.db, s.threads[t].lease.run), None)), t)
  {
  }

  lemma AdmitKeeps(s: State, t: ThreadId, d: Decision)
    requires Inv(s) && t in s.threads
    ensures var s' := AdmitStep(s, t, d); Inv(s') && Evolves(s.db, s'.db)
  {
    hide Inv, Evolves, ThreadOk, Fenced, Move, End;
    EvolvesRefl(s.db);
    if s.threads[t].pc == Ready {
      ThreadFacts(s, t);
      AdmitThreadOk(s, t);
      if d.Halt? { ToProjectionKeeps(s, t); }
      else if s.threads[t].lease.recoveryOnly {
        MoveKeeps(s, t, Publish(Failed, OperationOf(s.db, s.threads[t].lease.run), None));
      }
      else if Fenced(s.db, s.threads[t].lease) { MoveKeeps(s, t, Invoke); }
      else { EndOnlyKeeps(s, t); }
    }
  }

  /** Success may only be published when it is due. */
  predicate Publishable(lease: Lease, op: Option<Operation>, d: Decision, values: Option<Values>) {
    d == Halt(Succeeded) ==> values.Some? && SuccessDue(lease, values.value, op)
  }

  lemma DecidedPublishable(s: State, t: ThreadId, input: RunInput, started: bool, temporary: bool, ck: Checkpoint)
    requires t in s.threads
    ensures Publishable(s.threads[t].lease, OperationOf(s.db, s.threads[t].lease.run),
                        Decided(s, t, input, started, temporary, ck), ck.values)
  {
    hide Classify;
    ClassifiesExactly(s.threads[t].lease, input, started, temporary, ck, OperationOf(s.db, s.threads[t].lease.run));
  }

  lemma ProjectThreadOk(s: State, t: ThreadId, d: Decision, values: Option<Values>)
    requires t in s.threads && ThreadOk(s, t) && s.threads[t].pc == Project
    requires Publishable(s.threads[t].lease, OperationOf(s.db, s.threads[t].lease.run), d, values)
    ensures var s' := ProjectStep(s, t, d, values);
            t in s'.threads && s' == Move(s, t, s'.threads[t].pc) && ThreadOk(s', t)
  {
  }

  lemma ProjectKeeps(s: State, t: ThreadId, d: Decision, values: Option<Values>)
    requires Inv(s) && t in s.threads
    requires Publishable(s.threads[t].lease, OperationOf(s.db, s.threads[t].lease.run), d, values)
    ensures var s' := ProjectStep(s, t, d, values); Inv(s') && Evolves(s.db, s'.db)
  {
    hide Inv, Evolves, ThreadOk;
    EvolvesRefl(s.db);
    if s.threads[t].pc == Project {
      ThreadFacts(s, t);
      ProjectThreadOk(s, t, d, values);
      MoveKeeps(s, t, ProjectStep(s, t, d, values).threads[t].pc);
    }
  }

  lemma InteractionJournal(db: Db, lease: Lease, child: Option<RunId>, parent: Option<RunId>, resumable: bool)
    ensures var o := CompleteInteraction(db, lease, child, parent, resumable); o.Ok? ==> o.db.ops == db.ops
  {
  }

  lemma InteractKeeps(s: State, t: ThreadId, child: Option<RunId>, parent: Option<RunId>, resumable: bool)
    requires Inv(s) && t in s.threads
    ensures var s' := InteractStep(s, t, child, parent, resumable); Inv(s') && Evolves(s.db, s'.db)
  {
    hide Inv, Evolves, DbOk, CompleteInteraction, FenceEnd;
    EvolvesRefl(s.db);
    var lease := s.threads[t].lease;
    if s.threads[t].pc == Interact {
      if CompleteInteraction(s.db, lease, child, parent, resumable).Ok? {
        SharedFacts(s);
        InteractingKeeps(s, t, child, parent, resumable);
      }
      InteractionJournal(s.db, lease, child, parent, resumable);
      FencedEndKeeps(s, t, CompleteInteraction(s.db, lease, child, parent, resumable));
    }
  }

  lemma InteractingKeeps(s: State, t: ThreadId, child: Option<RunId>, parent: Option<RunId>, resumable: bool)
    requires Inv(s) && t in s.threads && s.threads[t].pc == Interact
    requires CompleteInteraction(s.db, s.threads[t].lease, child, parent, resumable).Ok?
    ensures var db := CompleteInteraction(s.db, s.threads[t].lease, child, parent, resumable).db;
            DbOk(db, s.maxAttempts) && Evolves(s.db, db)
  {
    hide CompleteInteraction, DbOk, Evolves;
    ThreadFacts(s, t);
    CompleteInteractionKeeps(s.db, s.threads[t].lease, child, parent, resumable, s.maxAttempts);
  }

  lemma BeatKeeps(s: State, t: ThreadId, seconds: nat)
    requires Inv(s) && t in s.threads
    ensures var s' := Commit(s, Heartbeat(s.db, s.threads[t].lease, seconds)); Inv(s') && Evolves(s.db, s'.db)
  {
    hide Inv, Evolves, DbOk;
    var o := Heartbeat(s.db, s.threads[t].lease, seconds);
    if o.Ok? {
      SharedFacts(s);
      HeartbeatKeeps(s.db, s.threads[t].lease, seconds, s.maxAttempts);
    }
    CommitSameKeeps(s, o);
  }

  lemma RaiseKeeps(s: State, t: ThreadId)
    requires Inv(s) && t in s.threads
    ensures var s' := RaiseStep(s, t); Inv(s') && Evolves(s.db, s'.db)
  {
    hide Inv, Evolves, Move, End;
    var pc := s.threads[t].pc;
    if InHandler(pc) { EndOnlyKeeps(s, t); }
    else if InExecutor(pc) { ToProjectionKeeps(s, t); }
    else { ToHandlerKeeps(s, t); }
  }

  lemma GraphKeeps(s: State, t: ThreadId, from: Pc, to: Pc)
    requires Inv(s) && t in s.threads && Follows(from, to)
    ensures var s' := GoStep(s, t, from, to); Inv(s') && Evolves(s.db, s'.db)
  {
    hide Inv, Evolves, Follows, ThreadOk;
    EvolvesRefl(s.db);
    if s.threads[t].pc == from { GoKeeps(s, t, from, to); }
  }

  lemma ExecutorStepKeeps(s: State, t: ThreadId, step: Step)
    requires Inv(s) && t in s.threads && IsExecutor(step)
    ensures var s' := ExecutorStep(s, t, step); Inv(s') && Evolves(s.db, s'.db)
  {
    hide Inv, Evolves, Silent, CallExecutorStep, ExecuteReadStep, PrepareStep, CheckStep, DispatchStep,
         ConfirmOwnerStep, PatchStep, RecordStep;
    match step
    case CallExecutor(_) => CallKeeps(s, t);
    case ExecuteReadJournal(_, authorized) => ExecuteReadKeeps(s, t, authorized);
    case PrepareWrite(_, before, liveVersion) => PrepareStepKeeps(s, t, before, liveVersion);
    case CheckPrecondition(_) => CheckKeeps(s, t);
    case DispatchWrite(_) => DispatchStepKeeps(s, t);
    case ConfirmOwner(_) => ConfirmKeeps(s, t);
    case PatchCluster(_, reply) => PatchKeeps(s, t, reply);
    case RecordReply(_) => RecordStepKeeps(s, t);
  }

  lemma GraphStepKeeps(s: State, t: ThreadId, step: Step)
    requires Inv(s) && t in s.threads && !IsClient(step) && !step.ClaimRun? && !IsExecutor(step)
    ensures var s' := GraphStep(s, t, step); Inv(s') && Evolves(s.db, s'.db)
  {
    hide Inv, Evolves, Silent, Decided, Publishable, Heartbeat, Commit, End, RaiseStep, ConsultStep,
         ReadTargetStep, FinishManualStep, AdmitStep, GoStep, ProjectStep, PublishStep, HandleStep, InteractStep;
    match step
    case Beat(_, seconds) => BeatKeeps(s, t, seconds);
    case Crash(_) => EndOnlyKeeps(s, t);
    case Raise(_) => RaiseKeeps(s, t);
    case ReadJournal(_) => ConsultKeeps(s, t);
    case ReadTarget(_, observed) => ReadTargetKeeps(s, t, observed);
    case FinishManual(_) => FinishManualKeeps(s, t);
    case ClassifyInitial(_, input, started, temporary, ck) =>
      AdmitKeeps(s, t, Decided(s, t, input, started, temporary, ck));
    case EnterGraph(_) => GraphKeeps(s, t, Invoke, InGraph);
    case GraphReturns(_) => GraphKeeps(s, t, InGraph, Consult(Projecting));
    case ClassifyFinal(_, input, started, temporary, ck) =>
      DecidedPublishable(s, t, input, started, temporary, ck);
      ProjectKeeps(s, t, Decided(s, t, input, started, temporary, ck), ck.values);
    case PublishResult(_, question) => PublishKeeps(s, t, question);
    case HandleError(_, temporary, delay) => HandleKeeps(s, t, temporary, delay);
    case FinishInteraction(_, child, parent, resumable) => InteractKeeps(s, t, child, parent, resumable);
  }

  lemma WorkerStepKeeps(s: State, t: ThreadId, step: Step)
    requires Inv(s) && t in s.threads && !IsClient(step) && !step.ClaimRun?
    ensures var s' := WorkerStep(s, t, step); Inv(s') && Evolves(s.db, s'.db)
  {
    hide Inv, Evolves, ExecutorStep, GraphStep;
    if IsExecutor(step) { ExecutorStepKeeps(s, t, step); } else { GraphStepKeeps(s, t, step); }
  }

  // ----- claims and clients ------------------------------------------------------------------

  lemma ClaimShape(s: State, t: ThreadId, run: RunId, owner: WorkerId, seconds: nat)
    requires t !in s.threads && Claim(s.db, run, owner, seconds, s.maxAttempts).Ok?
    ensures var o, s' := Claim(s.db, run, owner, seconds, s.maxAttempts), ClaimStep(s, t, run, owner, seconds);
            && s'.db == o.db && s'.issued == s.issued && s'.maxAttempts == s.maxAttempts && s'.db.ops == s.db.ops
            && s'.threads.Keys == s.threads.Keys + {t} && s'.threads[t].lease == o.value
            && forall u :: u in s.threads ==> s'.threads[u] == s.threads[u]
  {
  }

  /** The new lease is above everything any thread or journal row of the run knows. */
  lemma ClaimThreadOk(s: State, t: ThreadId, run: RunId, owner: WorkerId, seconds: nat)
    requires t !in s.threads && Claim(s.db, run, owner, seconds, s.maxAttempts).Ok? && DbOk(s.db, s.maxAttempts)
    ensures ThreadOk(ClaimStep(s, t, run, owner, seconds), t)
  {
  }

  lemma ClaimIsNewer(s: State, run: RunId, owner: WorkerId, seconds: nat, u: ThreadId)
    requires Claim(s.db, run, owner, seconds, s.maxAttempts).Ok? && u in s.threads && ThreadOk(s, u)
    ensures var lease := Claim(s.db, run, owner, seconds, s.maxAttempts).value;
            s.threads[u].lease.run == lease.run ==> s.threads[u].lease.row.epoch < lease.row.epoch
  {
  }

  lemma ClaimIsNew(s: State, t: ThreadId, run: RunId, owner: WorkerId, seconds: nat)
    requires Inv(s) && Claim(s.db, run, owner, seconds, s.maxAttempts).Ok?
    ensures NobodyElseHolds(s, t, Claim(s.db, run, owner, seconds, s.maxAttempts).value)
  {
    hide Inv, ThreadOk, Claim;
    var lease := Claim(s.db, run, owner, seconds, s.maxAttempts).value;
    forall u | u in s.threads && u != t && s.threads[u].lease.run == lease.run
      ensures s.threads[u].lease.row.epoch != lease.row.epoch
    {
      ThreadFacts(s, u);
      ClaimIsNewer(s, run, owner, seconds, u);
    }
  }

  lemma ClaimStepKeeps(s: State, t: ThreadId, run: RunId, owner: WorkerId, seconds: nat)
    requires Inv(s)
    ensures var s' := ClaimStep(s, t, run, owner, seconds); Inv(s') && Evolves(s.db, s'.db)
  {
    hide Inv, Evolves, ThreadOk, Claim, Quiet, DbOk, IssuedOk, NobodyElseHolds;
    EvolvesRefl(s.db);
    if t !in s.threads && Claim(s.db, run, owner, seconds, s.maxAttempts).Ok? {
      var s' := ClaimStep(s, t, run, owner, seconds);
      SharedFacts(s);
      ClaimShape(s, t, run, owner, seconds);
      ClaimKeeps(s.db, run, owner, seconds, s.maxAttempts);
      SameIssued(s, s');
      forall u | u in s'.threads && u != t ensures u in s.threads && Quiet(s, s', u) {
        ThreadFacts(s, u);
        QuietWhenJournalSame(s, s', u);
      }
      ClaimThreadOk(s, t, run, owner, seconds);
      ClaimIsNew(s, t, run, owner, seconds);
      Reassemble(s, s', t);
    }
  }

  /** A client transaction that leaves the journal alone. */
  lemma ClientJournalSame(s: State, db: Db)
    requires Inv(s) && DbOk(db, s.maxAttempts) && Evolves(s.db, db) && db.ops == s.db.ops
    ensures Inv(s.(db := db))
  {
    hide Quiet, ThreadOk, DbOk, Evolves, IssuedOk;
    var s' := s.(db := db);
    JournalSameIssued(s, s');
    forall u | u in s'.threads ensures ThreadOk(s', u) {
      QuietWhenJournalSame(s, s', u);
      QuietKeeps(s, s', u);
    }
    forall a, b ensures !SharedLease(s', a, b) { assert !SharedLease(s, a, b); }
  }

  /** A control changes a journal row only by rejecting a prepared write of a run it cancels. */
  lemma ControlJournal(db: Db, incident: IncidentId, key: nat, action: ControlAction, content: string, parent: RunId)
    requires ControlStop(db, incident, key, action, content, parent).Ok?
    ensures var db' := ControlStop(db, incident, key, action, content, parent).db;
            && db'.ops.Keys == db.ops.Keys
            && forall r :: r in db.ops && db'.ops[r] != db.ops[r] ==>
                 r == parent && db.ops[r].state == Prepared && db'.ops[r] == db.ops[r].(state := Rejected)
                 && r in db'.runs && db'.runs[r].status == Cancelled
  {
  }

  lemma ControlQuiet(s: State, db: Db, parent: RunId, u: ThreadId)
    requires u in s.threads && ThreadOk(s, u)
    requires db.ops.Keys == s.db.ops.Keys
    requires forall r :: r in s.db.ops && db.ops[r] != s.db.ops[r] ==>
               r == parent && s.db.ops[r].state == Prepared && db.ops[r] == s.db.ops[r].(state := Rejected)
               && r in db.runs && db.runs[r].status == Cancelled
    ensures Quiet(s, s.(db := db), u)
  {
  }

  lemma ControlStepKeeps(s: State, incident: IncidentId, key: nat, action: ControlAction, content: string,
                         parent: RunId)
    requires Inv(s) && ControlStop(s.db, incident, key, action, content, parent).Ok?
    ensures var s' := s.(db := ControlStop(s.db, incident, key, action, content, parent).db);
            Inv(s') && Evolves(s.db, s'.db)
  {
    var db := ControlStop(s.db, incident, key, action, content, parent).db;
    ControlKeeps(s.db, incident, key, action, content, parent, s.maxAttempts);
    ControlJournal(s.db, incident, key, action, content, parent);
    AllQuietKeeps(s, db, parent);
  }

  lemma ControlIssued(s: State, db: Db, parent: RunId)
    requires IssuedOk(s) && Evolves(s.db, db) && db.ops.Keys == s.db.ops.Keys
    requires forall r :: r in s.db.ops && db.ops[r] != s.db.ops[r] ==> db.ops[r].state == Rejected
    ensures IssuedOk(s.(db := db))
  {
    SameIssued(s, s.(db := db));
  }

  lemma AllQuietKeeps(s: State, db: Db, parent: RunId)
    requires Inv(s) && DbOk(db, s.maxAttempts) && Evolves(s.db, db) && db.ops.Keys == s.db.ops.Keys
    requires forall r :: r in s.db.ops && db.ops[r] != s.db.ops[r] ==>
               r == parent && s.db.ops[r].state == Prepared && db.ops[r] == s.db.ops[r].(state := Rejected)
               && r in db.runs && db.runs[r].status == Cancelled
    ensures Inv(s.(db := db))
  {
    hide Quiet, ThreadOk, DbOk, Evolves, IssuedOk;
    var s' := s.(db := db);
    ControlIssued(s, db, parent);
    forall u | u in s'.threads ensures ThreadOk(s', u) {
      ControlQuiet(s, db, parent, u);
      QuietKeeps(s, s', u);
    }
    forall a, b ensures !SharedLease(s', a, b) { assert !SharedLease(s, a, b); }
  }

  lemma CommitSameKeeps<T>(s: State, o: Outcome<T>)
    requires Inv(s) && (o.Ok? ==> DbOk(o.db, s.maxAttempts) && Evolves(s.db, o.db) && o.db.ops == s.db.ops)
    ensures Inv(Commit(s, o)) && Evolves(s.db, Commit(s, o).db)
  {
    EvolvesRefl(s.db);
    if o.Ok? { ClientJournalSame(s, o.db); }
  }

  lemma NewIncidentKeeps(s: State, step: Step)
    requires Inv(s) && step.NewIncident?
    ensures var s' := ClientStep(s, step); Inv(s') && Evolves(s.db, s'.db)
  {
    hide Inv, Evolves, DbOk;
    SharedFacts(s);
    var o := AcceptIncident(s.db, step.incident, step.run);
    if o.Ok? { AcceptIncidentKeeps(s.db, step.incident, step.run, s.maxAttempts); }
    CommitSameKeeps(s, o);
  }

  lemma NewRoundKeeps(s: State, step: Step)
    requires Inv(s) && step.NewRound?
    ensures var s' := ClientStep(s, step); Inv(s') && Evolves(s.db, s'.db)
  {
    hide Inv, Evolves, DbOk;
    SharedFacts(s);
    var o := AcceptRound(s.db, step.incident, step.parent, step.run, step.resumable);
    if o.Ok? { AcceptRoundKeeps(s.db, step.incident, step.parent, step.run, step.resumable, s.maxAttempts); }
    CommitSameKeeps(s, o);
  }

  lemma NewInteractionKeeps(s: State, step: Step)
    requires Inv(s) && step.NewInteraction?
    ensures var s' := ClientStep(s, step); Inv(s') && Evolves(s.db, s'.db)
  {
    hide Inv, Evolves, DbOk;
    SharedFacts(s);
    var o := AcceptInteraction(s.db, step.incident, step.parent, step.run, step.historical);
    if o.Ok? { AcceptInteractionKeeps(s.db, step.incident, step.parent, step.run, step.historical, s.maxAttempts); }
    CommitSameKeeps(s, o);
  }

  lemma NewDelayedKeeps(s: State, step: Step)
    requires Inv(s) && step.NewDelayed?
    ensures var s' := ClientStep(s, step); Inv(s') && Evolves(s.db, s'.db)
  {
    hide Inv, Evolves, DbOk;
    SharedFacts(s);
    var o := ActivateDelayed(s.db, step.incident, step.run);
    if o.Ok? { ActivateDelayedKeeps(s.db, step.incident, step.run, s.maxAttempts); }
    CommitSameKeeps(s, o);
  }

  lemma DropDelayedKeeps(s: State, step: Step)
    requires Inv(s) && step.DropDelayed?
    ensures var s' := ClientStep(s, step); Inv(s') && Evolves(s.db, s'.db)
  {
    hide Inv, Evolves, DbOk;
    SharedFacts(s);
    var o := CancelDelayed(s.db, step.run);
    if o.Ok? { CancelDelayedKeeps(s.db, step.run, s.maxAttempts); }
    CommitSameKeeps(s, o);
  }

  lemma ActivateKeeps(s: State, step: Step)
    requires Inv(s) && step.Activate?
    ensures var s' := ClientStep(s, step); Inv(s') && Evolves(s.db, s'.db)
  {
    if ActivatePending(s.db, step.key, step.run, step.resumable).Ok? {
      ActivatePendingKeeps(s.db, step.key, step.run, step.resumable, s.maxAttempts);
      ClientJournalSame(s, ActivatePending(s.db, step.key, step.run, step.resumable).db);
    } else {
      EvolvesRefl(s.db);
    }
  }

  lemma SendApprovalKeeps(s: State, step: Step)
    requires Inv(s) && step.SendApproval?
    ensures var s' := ClientStep(s, step); Inv(s') && Evolves(s.db, s'.db)
  {
    hide Inv, Evolves, DbOk;
    SharedFacts(s);
    var o := QueueApproval(s.db, step.run, step.approval);
    if o.Ok? { QueueApprovalKeeps(s.db, step.run, step.approval, s.maxAttempts); }
    SendApprovalIs(s, step);
    CommitSameKeeps(s, o);
  }

  lemma SendApprovalIs(s: State, step: Step)
    requires step.SendApproval?
    ensures var o := QueueApproval(s.db, step.run, step.approval);
            ClientStep(s, step) == Commit(s, o) && (o.Ok? ==> o.db.ops == s.db.ops)
  {
  }

  lemma SendAnswerKeeps(s: State, step: Step)
    requires Inv(s) && step.SendAnswer?
    ensures var s' := ClientStep(s, step); Inv(s') && Evolves(s.db, s'.db)
  {
    hide Inv, Evolves, DbOk;
    SharedFacts(s);
    var o := AnswerQuestion(s.db, step.incident, step.clientMessage, step.run, step.questionId, step.version,
                            step.skip, step.slots, step.messageId);
    if o.Ok? { AnswerKeeps(s.db, step.incident, step.clientMessage, step.run, step.questionId, step.version,
                           step.skip, step.slots, step.messageId, s.maxAttempts); }
    CommitSameKeeps(s, o);
  }

  lemma SendControlKeeps(s: State, step: Step)
    requires Inv(s) && step.SendControl?
    ensures var s' := ClientStep(s, step); Inv(s') && Evolves(s.db, s'.db)
  {
    EvolvesRefl(s.db);
    if ControlStop(s.db, step.incident, step.clientMessage, step.action, step.content, step.latest).Ok? {
      ControlStepKeeps(s, step.incident, step.clientMessage, step.action, step.content, step.latest);
    }
  }

  lemma TickKeeps(s: State, seconds: nat)
    requires Inv(s)
    ensures var s' := s.(db := s.db.(now := s.db.now + seconds)); Inv(s') && Evolves(s.db, s'.db)
  {
    SameRowsKeeps(s.db, s.db.(now := s.db.now + seconds), s.maxAttempts);
    ClientJournalSame(s, s.db.(now := s.db.now + seconds));
  }

  lemma ClientStepKeeps(s: State, step: Step)
    requires Inv(s) && IsClient(step)
    ensures var s' := ClientStep(s, step); Inv(s') && Evolves(s.db, s'.db)
  {
    hide Inv, Evolves;
    match step
    case Tick(d) => TickKeeps(s, d);
    case NewIncident(_, _) => NewIncidentKeeps(s, step);
    case NewRound(_, _, _, _) => NewRoundKeeps(s, step);
    case NewInteraction(_, _, _, _) => NewInteractionKeeps(s, step);
    case NewDelayed(_, _) => NewDelayedKeeps(s, step);
    case DropDelayed(_) => DropDelayedKeeps(s, step);
    case SendControl(_, _, _, _, _) => SendControlKeeps(s, step);
    case SendAnswer(_, _, _, _, _, _, _, _) => SendAnswerKeeps(s, step);
    case SendApproval(_, _) => SendApprovalKeeps(s, step);
    case Activate(_, _, _) => ActivateKeeps(s, step);
  }

  /** Every step keeps the invariant, and the tables only evolve. */
  lemma StepKeeps(s: State, step: Step)
    requires Inv(s)
    ensures Inv(Apply(s, step)) && Evolves(s.db, Apply(s, step).db)
  {
    hide Inv, Evolves, ClientStep, ClaimStep, WorkerStep;
    EvolvesRefl(s.db);
    if IsClient(step) { ClientStepKeeps(s, step); }
    else if step.ClaimRun? { ClaimStepKeeps(s, step.thread, step.run, step.owner, step.seconds); }
    else if step.thread in s.threads { WorkerStepKeeps(s, step.thread, step); }
  }
}
