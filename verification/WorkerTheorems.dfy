/** What one worker does with the run it claimed: when it reconciles, enters the graph, repeats a write, retries. */
module WorkerTheorems {
  import opened Wrappers
  import opened Ledger
  import opened Recovery
  import opened RecoveryTheorems
  import opened Protocol
  import opened TransactionTheorems

  // ----- before anything else ----------------------------------------------------------------

  /** The write of the run has to be read back: its outcome is uncertain, or another worker was told it succeeded and
      this one has just taken over. */
  predicate MustReadBack(s: State, t: ThreadId, ctx: Context)
    requires t in s.threads
  {
    var run := s.threads[t].lease.run;
    || IsUncertain(s.db, run)
    || (ctx == Recovering && run in s.db.ops && s.db.ops[run].state in {Applied, Reconciled}
        && s.db.ops[run].epoch != s.threads[t].lease.row.epoch)
  }

  /** A worker looks at the journal first and goes on exactly when nothing has to be read back. */
  lemma ConsultsExactly(s: State, t: ThreadId)
    requires t in s.threads && s.threads[t].pc.Consult?
    ensures var run, ctx, s' := s.threads[t].lease.run, s.threads[t].pc.ctx, Apply(s, ReadJournal(t));
            if MustReadBack(s, t, ctx) then run in s.db.ops && s' == Move(s, t, Reconcile(ctx, s.db.ops[run]))
            else s' == Move(s, t, if ctx == Recovering then Ready else if ctx == Projecting then Project else Retry)
  {
  }

  /** Two steps of one thread. */
  lemma TwoSteps(s: State, a: Step, b: Step)
    ensures After(s, [a, b]) == Apply(Apply(s, a), b)
  {
    hide Apply;
    assert [a, b][..1] == [a] && [a][..0] == [];
    assert After(s, [a]) == Apply(After(s, []), a);
  }

  lemma AdmitsIs(s: State, t: ThreadId, input: RunInput, started: bool, temporary: bool, ck: Checkpoint)
    requires t in s.threads && s.threads[t].pc == Ready
    ensures var th, s' := s.threads[t], Apply(s, ClassifyInitial(t, input, started, temporary, ck));
            var op := OperationOf(s.db, th.lease.run);
            var answer := Classify(th.lease, input, started, temporary, ck, op);
            s' == if answer.Halt? then Move(s, t, Consult(Projecting))
                  else if th.lease.recoveryOnly then Move(s, t, Publish(Failed, op, None))
                  else if Owns(s.db, th.lease) then Move(s, t, Invoke)
                  else End(s, t)
  {
    hide Classify;
  }

  lemma EntersIs(s: State, t: ThreadId)
    requires t in s.threads
    ensures Apply(s, EnterGraph(t)) == if s.threads[t].pc == Invoke then Move(s, t, InGraph) else s
  {
  }

  /** The worker enters the graph exactly when saved state warrants a start, a continuation or an answer, its lease
      allows work and it still owns the run. */
  lemma EntersExactly(s: State, t: ThreadId, input: RunInput, started: bool, temporary: bool, ck: Checkpoint)
    requires t in s.threads && s.threads[t].pc == Ready
    ensures var lease, op := s.threads[t].lease, OperationOf(s.db, s.threads[t].lease.run);
            var s' := After(s, [ClassifyInitial(t, input, started, temporary, ck), EnterGraph(t)]);
            && (t in s'.threads && s'.threads[t].pc == InGraph <==>
                  && !lease.recoveryOnly && Owns(s.db, lease)
                  && (|| Warranted(Start, lease, input, started, temporary, ck, op)
                      || Warranted(Continue, lease, input, started, temporary, ck, op)
                      || Warranted(Resume, lease, input, started, temporary, ck, op)
                      || Warranted(ResumeUser, lease, input, started, temporary, ck, op)))
            && s'.db == s.db && s'.issued == s.issued
  {
    hide Classify, Apply, Warranted, Owns, OperationOf;
    var lease, op := s.threads[t].lease, OperationOf(s.db, s.threads[t].lease.run);
    var first, second := ClassifyInitial(t, input, started, temporary, ck), EnterGraph(t);
    TwoSteps(s, first, second);
    AdmitsIs(s, t, input, started, temporary, ck);
    ClassifiesExactly(lease, input, started, temporary, ck, op);
    if t in Apply(s, first).threads { EntersIs(Apply(s, first), t); } else { GoneIsGone(Apply(s, first), t); }
  }

  lemma GoneIsGone(s: State, t: ThreadId)
    requires t !in s.threads
    ensures Apply(s, EnterGraph(t)) == s
  {
  }

  // ----- inside the executor -----------------------------------------------------------------

  /** The executor of an approved run hands back a journaled result without touching the cluster, goes on with a write
      that is new or only prepared, and leaves every other write to reconciliation. */
  lemma ExecutorReplaysExactly(s: State, t: ThreadId)
    requires t in s.threads && s.threads[t].pc == ExecuteRead
    requires s.threads[t].lease.row.approval.Some? && s.threads[t].lease.row.approval.value.approved
    ensures var lease, s' := s.threads[t].lease, Apply(s, ExecuteReadJournal(t, true));
            var ops := s.db.ops;
            s' == Move(s, t,
                       if lease.run !in ops || ops[lease.run].state == Prepared
                       then ExecutePrepare(lease.row.approval.value)
                       else if ops[lease.run].state in {Applied, Reconciled, Rejected} && ops[lease.run].result.Some?
                       then InGraph
                       else Consult(Projecting))
  {
  }

  /** Without a saved approving decision, or when the checks of the approval fail, the executor does nothing. */
  lemma UnapprovedDoesNothing(s: State, t: ThreadId, authorized: bool)
    requires t in s.threads && s.threads[t].pc == ExecuteRead
    requires !authorized || s.threads[t].lease.row.approval.None? || !s.threads[t].lease.row.approval.value.approved
    ensures Apply(s, ExecuteReadJournal(t, authorized)) == Move(s, t, Consult(Projecting))
  {
  }

  // ----- errors ------------------------------------------------------------------------------

  /** How many attempts the lease has left. */
  predicate MayTryAgain(s: State, lease: Lease) {
    lease.row.attempt < lease.row.attemptBase + s.maxAttempts
  }

  /** An error ends the attempt of the owner: it is retried exactly when the failure was temporary, attempts are left
      and the write cannot be out; a write that may be out is left to a human instead; every other error fails the
      run, or follows an earlier stop. Without ownership nothing is published. */
  lemma ErrorsExactly(s: State, t: ThreadId, temporary: bool, delay: nat)
    requires t in s.threads && s.threads[t].pc == Retry
    ensures var lease, s' := s.threads[t].lease, Apply(s, HandleError(t, temporary, delay));
            if !Owns(s.db, lease) then s' == End(s, t)
            else if temporary && MayTryAgain(s, lease) && MayBeOut(s.db, lease.run) then
              s' == Move(s, t, PublishManual(Handling))
            else
              var wanted := if temporary && MayTryAgain(s, lease) then RetryScheduled else Failed;
              && t !in s'.threads && s'.issued == s.issued && lease.run in s'.db.runs
              && s'.db == s.db.(runs := s.db.runs[lease.run := s'.db.runs[lease.run]])
              && Released(s.db.runs[lease.run], s'.db.runs[lease.run], ReportedAs(s.db, lease.run, wanted),
                          if wanted == RetryScheduled then Some(s.db.now + delay) else None, None)
  {
    var lease := s.threads[t].lease;
    HandleIs(s, t, temporary, delay);
    hide Apply, Finish, Owns, MayBeOut, Released, ReportedAs;
    FinishOwned(s.db, lease, RetryScheduled, Some(delay), None);
    FinishOwned(s.db, lease, Failed, None, None);
  }

  lemma HandleIs(s: State, t: ThreadId, temporary: bool, delay: nat)
    requires t in s.threads && s.threads[t].pc == Retry
    ensures var lease, s' := s.threads[t].lease, Apply(s, HandleError(t, temporary, delay));
            var retry, fail := Finish(s.db, lease, RetryScheduled, Some(delay), None),
                               Finish(s.db, lease, Failed, None, None);
            s' == if temporary && MayTryAgain(s, lease) then
                    (if retry.Ok? then End(s.(db := retry.db), t)
                     else if retry.error == UnsafeRetry then Move(s, t, PublishManual(Handling)) else End(s, t))
                  else if fail.Ok? then End(s.(db := fail.db), t) else End(s, t)
  {
    hide Finish;
  }

  lemma FinishOwned(db: Db, lease: Lease, requested: RunStatus, retry: Option<nat>, question: Option<Question>)
    requires requested != Queued && requested != Running && (requested == RetryScheduled <==> retry.Some?)
    ensures var o := Finish(db, lease, requested, retry, question);
            && (o.Ok? <==> Owns(db, lease) && !(requested == RetryScheduled && MayBeOut(db, lease.run)))
            && (!o.Ok? ==> (o.error == UnsafeRetry <==> Owns(db, lease)))
            && (o.Ok? ==>
                  && lease.run in db.runs && lease.run in o.db.runs
                  && o.db == db.(runs := db.runs[lease.run := o.db.runs[lease.run]])
                  && Released(db.runs[lease.run], o.db.runs[lease.run], ReportedAs(db, lease.run, requested),
                              if retry.Some? then Some(db.now + retry.value) else None, question))
  {
    FinishesExactly(db, lease, requested, retry, question);
    FinishTable(db, lease, requested, retry, question);
    hide Finish, Released, ReportedAs, MayBeOut;
  }

  lemma FinishTable(db: Db, lease: Lease, requested: RunStatus, retry: Option<nat>, question: Option<Question>)
    requires requested != Queued && requested != Running && (requested == RetryScheduled <==> retry.Some?)
    ensures var o := Finish(db, lease, requested, retry, question);
            && (o.Ok? ==> lease.run in o.db.runs && o.db == db.(runs := db.runs[lease.run := o.db.runs[lease.run]]))
            && (o.Err? && o.error == UnsafeRetry ==> Owns(db, lease))
  {
    hide FinishStatus, FinishedRow;
  }

  /** Where an exception leads: from the executor back to a look at the journal, from anywhere else into the handler,
      and out of the handler nowhere. */
  lemma RaisesExactly(s: State, t: ThreadId)
    requires t in s.threads
    ensures var pc, s' := s.threads[t].pc, Apply(s, Raise(t));
            && s'.db == s.db && s'.issued == s.issued
            && (t !in s'.threads <==>
                  pc == Retry || (pc.Consult? && pc.ctx == Handling) || (pc.Reconcile? && pc.ctx == Handling)
                  || (pc.PublishManual? && pc.ctx == Handling))
            && (t in s'.threads ==>
                  s'.threads[t].pc == if InExecutor(pc) then Consult(Projecting) else Consult(Handling))
  {
  }

  /** The owner of a write nobody can explain publishes that a human has to. */
  lemma ManualIsPublished(s: State, t: ThreadId)
    requires t in s.threads && s.threads[t].pc.PublishManual? && Owns(s.db, s.threads[t].lease)
    ensures var run, s' := s.threads[t].lease.run, Apply(s, FinishManual(t));
            && t !in s'.threads && run in s'.db.runs && s'.db.ops == s.db.ops
            && Released(s.db.runs[run], s'.db.runs[run], Reconciling, None, None)
  {
    var lease := s.threads[t].lease;
    assert Apply(s, FinishManual(t)) == FinishManualStep(s, t);
    FinishesExactly(s.db, lease, Reconciling, None, None);
    hide Finish, Released;
  }
}
