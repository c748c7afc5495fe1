/** A write is only dispatched on the strength of a fresh read that matches its journal row and the approval. */
module DispatchTheorems {
  import opened Wrappers
  import opened Ledger
  import opened LedgerInvariants
  import opened Recovery
  import opened Protocol
  import opened ProtocolInvariants
  import opened ProtocolTheorems

  /** No row becomes dispatching. */
  ghost predicate NoneDispatched(a: Db, b: Db) {
    forall r :: r in b.ops && b.ops[r].state == Dispatching ==> r in a.ops && a.ops[r].state == Dispatching
  }

  /** No row appears and none becomes dispatching. */
  ghost predicate Settled(a: Db, b: Db) {
    b.ops.Keys <= a.ops.Keys && NoneDispatched(a, b)
  }

  lemma SameJournalSettles(a: Db, b: Db)
    requires b.ops == a.ops
    ensures Settled(a, b)
  {
  }

  lemma RecordSettles(db: Db, lease: Lease, e: JournalEntry)
    requires Record(db, lease, e).Ok? && e.state != Dispatching
    ensures Settled(db, Record(db, lease, e).db)
  {
  }

  lemma ControlSettles(db: Db, incident: IncidentId, clientMessage: nat, action: ControlAction, content: string,
                       parent: RunId)
    requires ControlStop(db, incident, clientMessage, action, content, parent).Ok?
    ensures Settled(db, ControlStop(db, incident, clientMessage, action, content, parent).db)
  {
  }

  lemma ActivateJournal(db: Db, key: ControlKey, run: RunId, resumable: bool)
    ensures var o := ActivatePending(db, key, run, resumable); o.Ok? ==> o.db.ops == db.ops
  {
  }

  lemma ClientSettles(s: State, step: Step)
    requires IsClient(step)
    ensures Settled(s.db, ClientStep(s, step).db)
  {
    hide ControlStop, ActivatePending, Settled;
    if step.SendControl? {
      if ControlStop(s.db, step.incident, step.clientMessage, step.action, step.content, step.latest).Ok? {
        ControlSettles(s.db, step.incident, step.clientMessage, step.action, step.content, step.latest);
      } else {
        SameJournalSettles(s.db, s.db);
      }
    } else {
      if step.Activate? { ActivateJournal(s.db, step.key, step.run, step.resumable); }
      SameJournalSettles(s.db, ClientStep(s, step).db);
    }
  }

  lemma ReadTargetSettles(s: State, t: ThreadId, observed: Option<Snapshot>)
    requires t in s.threads
    ensures Settled(s.db, ReadTargetStep(s, t, observed).db)
  {
    if s.threads[t].pc.Reconcile? {
      var e := Finding(s.threads[t].pc.view, observed);
      if Record(s.db, s.threads[t].lease, e).Ok? { RecordSettles(s.db, s.threads[t].lease, e); }
    }
  }

  lemma RecordStepSettles(s: State, t: ThreadId)
    requires t in s.threads
    ensures Settled(s.db, RecordStep(s, t).db)
  {
    if s.threads[t].pc.ExecuteReplied? || s.threads[t].pc.ExecuteConflict? {
      var e := OwnEntry(s.threads[t].pc);
      if Record(s.db, s.threads[t].lease, e).Ok? { RecordSettles(s.db, s.threads[t].lease, e); }
    }
  }

  /** Only the row of the own run appears, and it asks for what the executor acts for. */
  lemma PrepareAdds(s: State, t: ThreadId, before: Snapshot, liveVersion: string, run: RunId)
    requires t in s.threads
    ensures var db := PrepareStep(s, t, before, liveVersion).db;
            && NoneDispatched(s.db, db)
            && (run in db.ops && run !in s.db.ops ==>
                  && s.threads[t].pc.ExecutePrepare? && run == s.threads[t].lease.run
                  && db.ops[run].write == RequestOf(s.threads[t].pc.saved, before))
  {
  }

  lemma ExecutorSettles(s: State, t: ThreadId, step: Step)
    requires t in s.threads && IsExecutor(step) && !step.DispatchWrite? && !step.PrepareWrite?
    ensures Settled(s.db, ExecutorStep(s, t, step).db)
  {
    hide CallExecutorStep, ExecuteReadStep, CheckStep, ConfirmOwnerStep, PatchStep, RecordStep, Settled, Silent;
    if step.RecordReply? { RecordStepSettles(s, t); } else { SameJournalSettles(s.db, ExecutorStep(s, t, step).db); }
  }

  lemma GraphSettles(s: State, t: ThreadId, step: Step)
    requires t in s.threads && !IsClient(step) && !step.ClaimRun? && !IsExecutor(step)
    ensures Settled(s.db, GraphStep(s, t, step).db)
  {
    hide RaiseStep, ConsultStep, ReadTargetStep, FinishManualStep, AdmitStep, GoStep, ProjectStep, PublishStep,
         HandleStep, InteractStep, Decided, Settled, Silent;
    if step.ReadTarget? { ReadTargetSettles(s, t, step.observed); }
    else { SameJournalSettles(s.db, GraphStep(s, t, step).db); }
  }

  lemma OnlyTwoUnsettle(s: State, step: Step)
    requires !step.DispatchWrite? && !step.PrepareWrite?
    ensures Settled(s.db, Apply(s, step).db)
  {
    hide ClientStep, ExecutorStep, GraphStep, Settled;
    if IsClient(step) { ClientSettles(s, step); }
    else if step.ClaimRun? { SameJournalSettles(s.db, Apply(s, step).db); }
    else if step.thread !in s.threads { SameJournalSettles(s.db, s.db); }
    else if IsExecutor(step) { ExecutorSettles(s, step.thread, step); }
    else { GraphSettles(s, step.thread, step); }
  }

  // ----- the read behind a dispatch ----------------------------------------------------------

  /** The worker's own read is the snapshot of the row, and it shows the object the run's saved decision approves, in
      the configuration the plan was made for and, for a deployment, in the version just validated. */
  ghost predicate ReadMatched(s: State, t: ThreadId, op: Operation) {
    && t in s.threads && s.threads[t].pc.ExecuteReady?
    && var run, own := s.threads[t].lease.run, s.threads[t].pc.own;
       && own.before == op.write.before
       && run in s.db.runs && s.db.runs[run].approval == Some(own.saved) && own.saved.approved
       && own.saved.binding.plan.uid == Some(own.before.uid)
       && own.before.configuration == own.saved.binding.plan.prior
       && (own.saved.binding.plan.kind == Deployment ==> own.before.resourceVersion == own.liveVersion)
  }

  lemma DispatchFromReady(s: State, t: ThreadId, run: RunId)
    requires t in s.threads && ThreadOk(s, t)
    requires var later := DispatchStep(s, t).db;
             run in later.ops && later.ops[run].state == Dispatching
             && !(run in s.db.ops && s.db.ops[run].state == Dispatching)
    ensures run in s.db.ops && s.db.ops[run].state == Prepared && s.threads[t].lease.run == run
    ensures ReadMatched(s, t, s.db.ops[run])
  {
    FencedIsCurrent(s, t);
  }

  lemma DispatchIs(s: State, step: Step)
    requires step.DispatchWrite? && step.thread in s.threads
    ensures Apply(s, step) == DispatchStep(s, step.thread)
  {
    hide DispatchStep;
  }

  lemma PrepareIs(s: State, step: Step)
    requires step.PrepareWrite? && step.thread in s.threads
    ensures Apply(s, step) == PrepareStep(s, step.thread, step.before, step.liveVersion)
  {
    hide PrepareStep;
  }

  lemma DispatchStepMatched(s: State, step: Step, run: RunId)
    requires Inv(s)
    requires var later := Apply(s, step).db;
             run in later.ops && later.ops[run].state == Dispatching
             && !(run in s.db.ops && s.db.ops[run].state == Dispatching)
    ensures step.DispatchWrite? && run in s.db.ops && s.db.ops[run].state == Prepared
    ensures step.thread in s.threads && s.threads[step.thread].lease.run == run
    ensures ReadMatched(s, step.thread, s.db.ops[run])
  {
    hide Inv, Apply, DispatchStep, PrepareStep, ReadMatched, ThreadOk;
    if !step.DispatchWrite? && !step.PrepareWrite? {
      OnlyTwoUnsettle(s, step);
    } else if step.thread !in s.threads {
      UnknownThread(s, step);
    } else if step.PrepareWrite? {
      PrepareIs(s, step);
      PrepareAdds(s, step.thread, step.before, step.liveVersion, run);
    } else {
      DispatchIs(s, step);
      ThreadFacts(s, step.thread);
      DispatchFromReady(s, step.thread, run);
    }
  }

  lemma UnknownThread(s: State, step: Step)
    requires (step.DispatchWrite? || step.PrepareWrite?) && step.thread !in s.threads
    ensures Apply(s, step) == s
  {
  }

  /** Whenever a write becomes dispatching, the dispatching worker had found its own fresh read equal to the
      snapshot of the prepared row: the object the saved decision approves, in its prior configuration. */
  lemma DispatchNeedsMatchingRead(s: State, step: Step, run: RunId)
    requires Reachable(s)
    requires var later := Apply(s, step).db;
             run in later.ops && later.ops[run].state == Dispatching
             && !(run in s.db.ops && s.db.ops[run].state == Dispatching)
    ensures step.DispatchWrite? && run in s.db.ops && s.db.ops[run].state == Prepared
    ensures step.thread in s.threads && s.threads[step.thread].lease.run == run
    ensures ReadMatched(s, step.thread, s.db.ops[run])
  {
    hide Reachable, Inv, Apply, ReadMatched;
    ReachableOk(s);
    DispatchStepMatched(s, step, run);
  }

  // ----- the journal and the approvals -------------------------------------------------------

  /** The row asks for what the saved decision of its run approves, and once it was dispatched its snapshot shows
      the approved object in the configuration the plan was made for. */
  ghost predicate AsApproved(db: Db, run: RunId) {
    && run in db.runs && run in db.ops && db.runs[run].approval.Some? && db.runs[run].approval.value.approved
    && var saved, write := db.runs[run].approval.value, db.ops[run].write;
       && write == RequestOf(saved, write.before)
       && (Dispatched(OperationOf(db, run)) ==>
             saved.binding.plan.uid == Some(write.before.uid) && write.before.configuration == saved.binding.plan.prior)
  }

  ghost predicate JournalAsApproved(db: Db) {
    forall r :: r in db.ops ==> AsApproved(db, r)
  }

  lemma AddedAsApproved(s: State, step: Step, run: RunId)
    requires Inv(s) && run in Apply(s, step).db.ops && run !in s.db.ops
    ensures AsApproved(Apply(s, step).db, run)
  {
    hide Inv, Apply, PrepareStep, Evolves, ThreadOk;
    StepKeeps(s, step);
    if !step.DispatchWrite? && !step.PrepareWrite? {
      OnlyTwoUnsettle(s, step);
    } else if step.thread !in s.threads {
      UnknownThread(s, step);
    } else if step.DispatchWrite? {
      DispatchIs(s, step);
    } else {
      PrepareIs(s, step);
      PrepareAdds(s, step.thread, step.before, step.liveVersion, run);
      NewRowIsPrepared(s.db, Apply(s, step).db, run);
      ActingFor(s, step.thread);
      ApprovalStays(s.db, Apply(s, step).db, run);
    }
  }

  lemma NewRowIsPrepared(a: Db, b: Db, run: RunId)
    requires Evolves(a, b) && run in b.ops && run !in a.ops
    ensures b.ops[run].state == Prepared
  {
  }

  lemma ApprovalStays(a: Db, b: Db, run: RunId)
    requires Evolves(a, b) && run in a.runs && a.runs[run].approval.Some?
    ensures run in b.runs && b.runs[run].approval == a.runs[run].approval
  {
    assert RunEvolves(a.runs[run], b.runs[run]);
  }

  lemma ActingFor(s: State, t: ThreadId)
    requires Inv(s) && t in s.threads && s.threads[t].pc.ExecutePrepare?
    ensures var run, saved := s.threads[t].lease.run, s.threads[t].pc.saved;
            run in s.db.runs && s.db.runs[run].approval == Some(saved) && saved.approved
  {
    assert ThreadOk(s, t);
  }

  lemma RowMovesOn(a: Db, b: Db, run: RunId)
    requires Evolves(a, b) && run in a.ops
    ensures run in b.ops && b.ops[run].write == a.ops[run].write
    ensures Dispatched(OperationOf(b, run)) && !Dispatched(OperationOf(a, run)) ==> b.ops[run].state == Dispatching
  {
    assert OperationEvolves(a.ops[run], b.ops[run]);
  }

  lemma KeptAsApproved(s: State, step: Step, run: RunId)
    requires Inv(s) && run in s.db.ops && AsApproved(s.db, run)
    ensures AsApproved(Apply(s, step).db, run)
  {
    hide Inv, Apply, Evolves;
    StepKeeps(s, step);
    var later := Apply(s, step).db;
    RowMovesOn(s.db, later, run);
    ApprovalStays(s.db, later, run);
    if Dispatched(OperationOf(later, run)) && !Dispatched(OperationOf(s.db, run)) { DispatchStepMatched(s, step, run); }
  }

  lemma {:induction false} AfterAsApproved(start: State, steps: seq<Step>)
    requires Init(start)
    ensures Inv(After(start, steps)) && JournalAsApproved(After(start, steps).db)
    decreases |steps|
  {
    hide Inv, Apply, AsApproved;
    InitOk(start);
    if steps != [] {
      var s, step := After(start, steps[..|steps| - 1]), steps[|steps| - 1];
      AfterAsApproved(start, steps[..|steps| - 1]);
      StepKeeps(s, step);
      forall r | r in Apply(s, step).db.ops ensures AsApproved(Apply(s, step).db, r) {
        if r in s.db.ops { KeptAsApproved(s, step, r); } else { AddedAsApproved(s, step, r); }
      }
    }
  }

  /** In every reachable state, each journal row belongs to a run with an approving decision and asks for exactly the
      planned change of it; a row that left `prepared` and was not refused was taken from the approved object in the
      configuration the plan was made for. */
  lemma WritesAreApproved(s: State, run: RunId)
    requires Reachable(s) && run in s.db.ops
    ensures AsApproved(s.db, run)
  {
    var start: State, steps: seq<Step> :| Init(start) && s == After(start, steps);
    AfterAsApproved(start, steps);
  }
}
