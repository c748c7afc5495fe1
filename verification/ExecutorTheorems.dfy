/** What an undisturbed executor does with an approved write, and what reconciliation finds out about it. */
module ExecutorTheorems {
  import opened Wrappers
  import opened Ledger
  import opened LedgerInvariants
  import opened Recovery
  import opened Protocol
  import opened ProtocolInvariants
  import opened ProtocolTheorems

  // ----- up to the patch call ----------------------------------------------------------------

  /** A worker with a current lease enters the executor for an approved write that nobody journaled yet. */
  ghost predicate MayWrite(s: State, t: ThreadId, saved: Approval) {
    && t in s.threads && s.threads[t].pc == ExecuteRead && Fenced(s.db, s.threads[t].lease)
    && s.threads[t].lease.row.approval == Some(saved) && saved.approved
    && s.threads[t].lease.run !in s.db.ops && RevisionCurrent(s.db, s.threads[t].lease.run)
    && forall r :: r in s.db.ops && s.db.ops[r].incident == s.threads[t].lease.row.incident ==>
         !Unresolved(s.db.ops[r].state)
  }

  /** The read shows the approved object in the configuration the plan was made for and, for a deployment, in the
      version just validated. */
  predicate AsPlanned(plan: PlannedWrite, before: Snapshot, liveVersion: string) {
    && plan.uid == Some(before.uid) && plan.prior == before.configuration
    && (plan.kind == Deployment ==> before.resourceVersion == liveVersion)
  }

  /** The journal row of the write in some state of it. */
  function Row(s: State, t: ThreadId, saved: Approval, before: Snapshot, state: OperationState): (op: Operation)
    requires t in s.threads
  {
    Operation(s.threads[t].lease.row.incident, RequestOf(saved, before), state, s.threads[t].lease.row.epoch, None,
              None, None, false)
  }

  /** The state with that row in the journal and the worker at `pc`. */
  function With(s: State, t: ThreadId, op: Operation, pc: Pc): (s': State)
    requires t in s.threads
  {
    Move(s.(db := s.db.(ops := s.db.ops[s.threads[t].lease.run := op])), t, pc)
  }

  lemma AfterFirst(s: State, step: Step, rest: seq<Step>)
    ensures After(s, [step] + rest) == After(Apply(s, step), rest)
  {
    hide Apply;
    AfterConcat(s, [step], rest);
    assert [step][..0] == [];
    assert After(s, [step]) == Apply(After(s, []), step);
  }

  lemma ReadsJournal(s: State, t: ThreadId, saved: Approval)
    requires MayWrite(s, t, saved)
    ensures Apply(s, ExecuteReadJournal(t, true)) == Move(s, t, ExecutePrepare(saved))
  {
  }

  lemma Prepares(s: State, t: ThreadId, saved: Approval, before: Snapshot, liveVersion: string)
    requires MayWrite(s, t, saved)
    ensures var op := Row(s, t, saved, before, Prepared);
            Apply(Move(s, t, ExecutePrepare(saved)), PrepareWrite(t, before, liveVersion))
            == With(s, t, op, ExecutePrepared(op, OwnRead(saved, before, liveVersion)))
  {
    var m := Move(s, t, ExecutePrepare(saved));
    assert !OtherUnresolved(m.db, s.threads[t].lease.row.incident, s.threads[t].lease.run);
    assert Apply(m, PrepareWrite(t, before, liveVersion)) == PrepareStep(m, t, before, liveVersion);
  }

  lemma Checks(s: State, t: ThreadId, op: Operation, own: OwnRead)
    requires t in s.threads && op.write == RequestOf(own.saved, own.before)
    ensures Apply(With(s, t, op, ExecutePrepared(op, own)), CheckPrecondition(t))
            == With(s, t, op, if AsPlanned(own.saved.binding.plan, own.before, own.liveVersion)
                              then ExecuteReady(op, own) else ExecuteConflict(op))
  {
    var m := With(s, t, op, ExecutePrepared(op, own));
    assert Apply(m, CheckPrecondition(t)) == CheckStep(m, t);
    assert m.threads[t].pc == ExecutePrepared(op, own);
    assert CheckStep(m, t).threads == With(s, t, op, CheckStep(m, t).threads[t].pc).threads;
  }

  lemma Dispatches(s: State, t: ThreadId, op: Operation, own: OwnRead)
    requires t in s.threads && Fenced(s.db, s.threads[t].lease) && RevisionCurrent(s.db, s.threads[t].lease.run)
    requires op.state == Prepared && op.epoch == s.threads[t].lease.row.epoch
    ensures Apply(With(s, t, op, ExecuteReady(op, own)), DispatchWrite(t))
            == With(s, t, op.(state := Dispatching), ExecuteDispatched(op))
  {
    var m := With(s, t, op, ExecuteReady(op, own));
    assert Apply(m, DispatchWrite(t)) == DispatchStep(m, t);
    assert DispatchStep(m, t).threads == With(s, t, op.(state := Dispatching), ExecuteDispatched(op)).threads;
    assert DispatchStep(m, t).db.ops == With(s, t, op.(state := Dispatching), ExecuteDispatched(op)).db.ops;
  }

  lemma Confirms(s: State, t: ThreadId, op: Operation, view: Operation)
    requires t in s.threads && Fenced(s.db, s.threads[t].lease)
    ensures Apply(With(s, t, op, ExecuteDispatched(view)), ConfirmOwner(t)) == With(s, t, op, ExecutePatch(view))
  {
    var m := With(s, t, op, ExecuteDispatched(view));
    assert Apply(m, ConfirmOwner(t)) == ConfirmOwnerStep(m, t);
    assert ConfirmOwnerStep(m, t).threads == With(s, t, op, ExecutePatch(view)).threads;
  }

  lemma Calls(s: State, t: ThreadId, op: Operation, view: Operation, reply: Reply)
    requires t in s.threads
    ensures Apply(With(s, t, op, ExecutePatch(view)), PatchCluster(t, reply))
            == With(s, t, op, ExecuteReplied(view, reply)).(issued := s.issued + [s.threads[t].lease.run])
  {
    var m := With(s, t, op, ExecutePatch(view));
    assert Apply(m, PatchCluster(t, reply)) == PatchStep(m, t, reply);
    assert PatchStep(m, t, reply).threads == With(s, t, op, ExecuteReplied(view, reply)).threads;
  }

  // ----- after the patch call ----------------------------------------------------------------

  /** The response is that of the requested change: the same object, in the requested configuration, in a new version
      and, for a deployment, with a generation. */
  predicate ShowsChange(saved: Approval, before: Snapshot, after: Snapshot) {
    && after.uid == before.uid && after.configuration == saved.binding.plan.desired
    && after.resourceVersion != "" && after.resourceVersion != before.resourceVersion
    && (saved.binding.plan.kind == Deployment ==> after.generation.Some?)
  }

  /** The row once the answer of the cluster is journaled. */
  function Answer(op: Operation, saved: Approval, before: Snapshot, reply: Reply): (row: Operation) {
    match reply
    case Refused => op.(state := Rejected, result := Some(ExecutionResult(false, None)))
    case Lost => op.(state := OutcomeUnknown)
    case Answered(after) =>
      if ShowsChange(saved, before, after)
      then op.(state := Applied, response := Some(after), result := Some(ExecutionResult(true, Some(after))),
               confirmed := true)
      else op.(state := OutcomeUnknown, response := Some(after))
  }

  /** What the worker records is one transaction on the journal. */
  lemma RecordIs(s: State, t: ThreadId, e: JournalEntry)
    requires t in s.threads && (s.threads[t].pc.ExecuteReplied? || s.threads[t].pc.ExecuteConflict?)
    requires e == OwnEntry(s.threads[t].pc) && Record(s.db, s.threads[t].lease, e).Ok?
    ensures Apply(s, RecordReply(t)) == Move(s.(db := Record(s.db, s.threads[t].lease, e).db), t, AfterRecord(e))
  {
    hide Record, OwnEntry;
    assert Apply(s, RecordReply(t)) == RecordStep(s, t);
  }

  lemma Replied(s: State, t: ThreadId, op: Operation, row: Operation, pc: Pc, next: Pc, issued: seq<RunId>)
    requires t in s.threads
    ensures var m := With(s, t, op, pc).(issued := issued);
            && m.db.ops == s.db.ops[s.threads[t].lease.run := op] && m.threads[t].pc == pc
            && m.threads[t].lease == s.threads[t].lease && t in m.threads
            && (Fenced(s.db, s.threads[t].lease) ==> Fenced(m.db, s.threads[t].lease))
            && Move(m.(db := m.db.(ops := m.db.ops[s.threads[t].lease.run := row])), t, next)
               == With(s, t, row, next).(issued := issued)
  {
    var m := With(s, t, op, pc).(issued := issued);
    var run := s.threads[t].lease.run;
    assert s.db.ops[run := op][run := row] == s.db.ops[run := row];
    assert s.threads[t := m.threads[t]][t := s.threads[t].(pc := next)] == s.threads[t := s.threads[t].(pc := next)];
  }

  lemma Records(s: State, t: ThreadId, saved: Approval, before: Snapshot, reply: Reply, issued: seq<RunId>)
    requires t in s.threads && Fenced(s.db, s.threads[t].lease)
    ensures var op := Row(s, t, saved, before, Dispatching);
            var row := Answer(op, saved, before, reply);
            Apply(With(s, t, op, ExecuteReplied(op.(state := Prepared), reply)).(issued := issued), RecordReply(t))
            == With(s, t, row, if row.state == OutcomeUnknown then Consult(Projecting) else InGraph).(issued := issued)
  {
    var op := Row(s, t, saved, before, Dispatching);
    var row := Answer(op, saved, before, reply);
    var pc := ExecuteReplied(op.(state := Prepared), reply);
    var m := With(s, t, op, pc).(issued := issued);
    var e := ReplyEntry(op.write, reply);
    EntryState(op, saved, before, reply);
    hide With, Record, Fenced, Answer, Apply, ReplyEntry, Move;
    Replied(s, t, op, row, pc, AfterRecord(e), issued);
    RecordsAnswer(m.db, s.threads[t].lease, op, saved, before, reply);
    RecordIs(m, t, e);
  }

  lemma EntryState(op: Operation, saved: Approval, before: Snapshot, reply: Reply)
    requires op.write == RequestOf(saved, before)
    ensures ReplyEntry(op.write, reply).state == Answer(op, saved, before, reply).state
  {
  }

  lemma RecordsAnswer(db: Db, lease: Lease, op: Operation, saved: Approval, before: Snapshot, reply: Reply)
    requires Fenced(db, lease) && lease.run in db.ops && db.ops[lease.run] == op && op.state == Dispatching
    requires op.write == RequestOf(saved, before) && op.response.None? && op.result.None? && op.observed.None?
             && !op.confirmed
    ensures Record(db, lease, ReplyEntry(op.write, reply))
            == Ok(db.(ops := db.ops[lease.run := Answer(op, saved, before, reply)]), ())
  {
  }

  /** The steps of one executor call. */
  function Call(t: ThreadId, before: Snapshot, liveVersion: string, reply: Reply): (steps: seq<Step>) {
    [ExecuteReadJournal(t, true), PrepareWrite(t, before, liveVersion), CheckPrecondition(t), DispatchWrite(t),
     ConfirmOwner(t), PatchCluster(t, reply), RecordReply(t)]
  }

  lemma CallSteps(s: State, t: ThreadId, before: Snapshot, liveVersion: string, reply: Reply)
    ensures After(s, Call(t, before, liveVersion, reply))
            == Apply(Apply(Apply(Apply(Apply(Apply(Apply(s, ExecuteReadJournal(t, true)),
                                                   PrepareWrite(t, before, liveVersion)), CheckPrecondition(t)),
                                       DispatchWrite(t)), ConfirmOwner(t)), PatchCluster(t, reply)), RecordReply(t))
  {
    hide Apply, After;
    var a, b, c := ExecuteReadJournal(t, true), PrepareWrite(t, before, liveVersion), CheckPrecondition(t);
    var d, e, f, g := DispatchWrite(t), ConfirmOwner(t), PatchCluster(t, reply), RecordReply(t);
    assert Call(t, before, liveVersion, reply) == [a] + ([b] + ([c] + ([d] + ([e] + ([f] + ([g] + []))))));
    AfterFirst(s, a, [b] + ([c] + ([d] + ([e] + ([f] + ([g] + []))))));
    var s1 := Apply(s, a);
    AfterFirst(s1, b, [c] + ([d] + ([e] + ([f] + ([g] + [])))));
    var s2 := Apply(s1, b);
    AfterFirst(s2, c, [d] + ([e] + ([f] + ([g] + []))));
    var s3 := Apply(s2, c);
    AfterFirst(s3, d, [e] + ([f] + ([g] + [])));
    var s4 := Apply(s3, d);
    AfterFirst(s4, e, [f] + ([g] + []));
    var s5 := Apply(s4, e);
    AfterFirst(s5, f, [g] + []);
    var s6 := Apply(s5, f);
    AfterFirst(s6, g, []);
    NoSteps(Apply(s6, g));
  }

  lemma NoSteps(s: State)
    ensures After(s, []) == s
  {
  }

  /** An undisturbed executor sends an approved write whose target is as planned exactly once and journals what the
      cluster answered: applied exactly when the response shows the requested change, refused when the cluster
      refused it, and unknown otherwise. Nothing else changes. */
  lemma ApprovedWriteIsSent(s: State, t: ThreadId, saved: Approval, before: Snapshot, liveVersion: string, reply: Reply)
    requires MayWrite(s, t, saved) && AsPlanned(saved.binding.plan, before, liveVersion)
    ensures var row := Answer(Row(s, t, saved, before, Dispatching), saved, before, reply);
            After(s, Call(t, before, liveVersion, reply))
            == With(s, t, row, if row.state == OutcomeUnknown then Consult(Projecting) else InGraph)
               .(issued := s.issued + [s.threads[t].lease.run])
  {
    hide Apply, After, With, Answer, Fenced;
    var own := OwnRead(saved, before, liveVersion);
    var op := Row(s, t, saved, before, Prepared);
    WriteFacts(s, t, saved);
    CallSteps(s, t, before, liveVersion, reply);
    ReadsJournal(s, t, saved);
    Prepares(s, t, saved, before, liveVersion);
    Checks(s, t, op, own);
    Dispatches(s, t, op, own);
    Confirms(s, t, op.(state := Dispatching), op);
    Calls(s, t, op.(state := Dispatching), op, reply);
    Records(s, t, saved, before, reply, s.issued + [s.threads[t].lease.run]);
    assert op.(state := Dispatching) == Row(s, t, saved, before, Dispatching);
    assert op == Row(s, t, saved, before, Dispatching).(state := Prepared);
  }

  lemma WriteFacts(s: State, t: ThreadId, saved: Approval)
    requires MayWrite(s, t, saved)
    ensures t in s.threads && Fenced(s.db, s.threads[t].lease) && RevisionCurrent(s.db, s.threads[t].lease.run)
  {
  }

  lemma RefusesConflict(s: State, t: ThreadId, saved: Approval, before: Snapshot)
    requires t in s.threads && Fenced(s.db, s.threads[t].lease)
    ensures var op := Row(s, t, saved, before, Prepared);
            Apply(With(s, t, op, ExecuteConflict(op)), RecordReply(t))
            == With(s, t, op.(state := Rejected, result := Some(ExecutionResult(false, None))), InGraph)
  {
    var op := Row(s, t, saved, before, Prepared);
    var m := With(s, t, op, ExecuteConflict(op));
    var after := With(s, t, op.(state := Rejected, result := Some(ExecutionResult(false, None))), InGraph);
    assert Apply(m, RecordReply(t)) == RecordStep(m, t);
    assert RecordStep(m, t).threads == after.threads;
    assert RecordStep(m, t).db.ops == after.db.ops;
  }

  /** A target that is not as planned is refused in the journal, and no patch is issued. */
  lemma OtherTargetIsRefused(s: State, t: ThreadId, saved: Approval, before: Snapshot, liveVersion: string)
    requires MayWrite(s, t, saved) && !AsPlanned(saved.binding.plan, before, liveVersion)
    ensures var op := Row(s, t, saved, before, Rejected).(result := Some(ExecutionResult(false, None)));
            After(s, [ExecuteReadJournal(t, true), PrepareWrite(t, before, liveVersion), CheckPrecondition(t),
                      RecordReply(t)]) == With(s, t, op, InGraph)
  {
    hide Apply, After, With, Fenced;
    var a, b, c, d := ExecuteReadJournal(t, true), PrepareWrite(t, before, liveVersion), CheckPrecondition(t),
        RecordReply(t);
    assert [a, b, c, d] == [a] + ([b] + ([c] + ([d] + [])));
    AfterFirst(s, a, [b] + ([c] + ([d] + [])));
    AfterFirst(Apply(s, a), b, [c] + ([d] + []));
    AfterFirst(Apply(Apply(s, a), b), c, [d] + []);
    AfterFirst(Apply(Apply(Apply(s, a), b), c), d, []);
    NoSteps(Apply(Apply(Apply(Apply(s, a), b), c), d));
    WriteFacts(s, t, saved);
    ReadsJournal(s, t, saved);
    Prepares(s, t, saved, before, liveVersion);
    Checks(s, t, Row(s, t, saved, before, Prepared), OwnRead(saved, before, liveVersion));
    RefusesConflict(s, t, saved, before);
  }

  // ----- reconciliation ----------------------------------------------------------------------

  /** Reading the target confirms a journaled response exactly when the target still shows it; everything else needs a
      human. A write without an attributed response is never confirmed, whatever the target shows. */
  lemma ReconcilesExactly(s: State, t: ThreadId, observed: Option<Snapshot>)
    requires Reachable(s) && t in s.threads && s.threads[t].pc.Reconcile? && Fenced(s.db, s.threads[t].lease)
    ensures var run := s.threads[t].lease.run;
            var later := Apply(s, ReadTarget(t, observed));
            && run in s.db.ops && run in later.db.ops && later.issued == s.issued
            && later.db == s.db.(ops := s.db.ops[run := later.db.ops[run]])
            && (later.db.ops[run].state == Reconciled <==>
                  (s.db.ops[run].state == Applied || s.db.ops[run].state == Reconciled)
                  && observed.Some? && observed == s.db.ops[run].response)
            && (later.db.ops[run].state != Reconciled ==> later.db.ops[run].state == ManualRequired)
            && later.db.ops[run].write == s.db.ops[run].write && later.db.ops[run].response == s.db.ops[run].response
  {
    hide Reachable, Inv;
    ReachableOk(s);
    ThreadFacts(s, t);
    SharedFacts(s);
    ReconcileIs(s, t, observed);
  }

  lemma FindingRecorded(s: State, t: ThreadId, observed: Option<Snapshot>)
    requires t in s.threads && s.threads[t].pc.Reconcile?
    ensures var later, o := Apply(s, ReadTarget(t, observed)),
                            Record(s.db, s.threads[t].lease, Finding(s.threads[t].pc.view, observed));
            later.issued == s.issued && later.db == (if o.Ok? then o.db else s.db)
  {
    hide Record, Finding;
    assert Apply(s, ReadTarget(t, observed)) == ReadTargetStep(s, t, observed);
  }

  /** The finding about a journaled row, once recorded. */
  lemma FindingIs(db: Db, lease: Lease, observed: Option<Snapshot>)
    requires Fenced(db, lease) && lease.run in db.ops
    requires db.ops[lease.run].state != Prepared && db.ops[lease.run].state != Rejected
    requires OperationOk(db.ops[lease.run])
    ensures var op, o := db.ops[lease.run], Record(db, lease, Finding(db.ops[lease.run], observed));
            && o.Ok? && lease.run in o.db.ops && o.db == db.(ops := db.ops[lease.run := o.db.ops[lease.run]])
            && (o.db.ops[lease.run].state == Reconciled <==>
                  (op.state == Applied || op.state == Reconciled) && observed.Some? && observed == op.response)
            && (o.db.ops[lease.run].state != Reconciled ==> o.db.ops[lease.run].state == ManualRequired)
            && o.db.ops[lease.run].write == op.write && o.db.ops[lease.run].response == op.response
  {
  }

  lemma ReconcileIs(s: State, t: ThreadId, observed: Option<Snapshot>)
    requires t in s.threads && s.threads[t].pc.Reconcile? && Fenced(s.db, s.threads[t].lease)
    requires ThreadOk(s, t) && DbOk(s.db, s.maxAttempts)
    ensures var run := s.threads[t].lease.run;
            var later := Apply(s, ReadTarget(t, observed));
            && run in s.db.ops && run in later.db.ops && later.issued == s.issued
            && later.db == s.db.(ops := s.db.ops[run := later.db.ops[run]])
            && (later.db.ops[run].state == Reconciled <==>
                  (s.db.ops[run].state == Applied || s.db.ops[run].state == Reconciled)
                  && observed.Some? && observed == s.db.ops[run].response)
            && (later.db.ops[run].state != Reconciled ==> later.db.ops[run].state == ManualRequired)
            && later.db.ops[run].write == s.db.ops[run].write && later.db.ops[run].response == s.db.ops[run].response
  {
    FencedIsCurrent(s, t);
    var run := s.threads[t].lease.run;
    JournalFacts(s.db, run, s.maxAttempts);
    assert s.threads[t].pc.view == s.db.ops[run];
    hide DbOk, ThreadOk, Apply, Fenced, Record, Finding;
    FindingRecorded(s, t, observed);
    FindingIs(s.db, s.threads[t].lease, observed);
  }
}
