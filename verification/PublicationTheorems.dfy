/** What a worker publishes is what the checkpoint and the journal warrant, and success only when it is due. */
module PublicationTheorems {
  import opened Wrappers
  import opened Ledger
  import opened LedgerInvariants
  import opened Recovery
  import opened RecoveryTheorems
  import opened Protocol
  import opened ProtocolInvariants
  import opened ProtocolTheorems
  import opened QuietSteps

  // ----- one publication ---------------------------------------------------------------------

  /** What the run row becomes when its owner publishes `wanted`: a stop turns every result shown to the user into a
      cancellation, or into a reconciliation while the write is uncertain. */
  predicate PublishedAs(before: Run, after: Run, wanted: RunStatus, op: Option<Operation>, question: Option<Question>) {
    && (!before.stopRequested ==> after.status == wanted)
    && (before.stopRequested ==>
          after.status == if wanted == Reconciling || wanted == Cancelled then wanted
                          else if op.Some? && (op.value.state == Dispatching || op.value.state == OutcomeUnknown
                                               || op.value.state == ManualRequired) then Reconciling
                          else Cancelled)
    && after.owner.None? && after.expires.None? && after.retryAt.None?
    && (after.status == WaitingUser && question.Some? ==> after.question == question && after.answer.None?)
    && (after.status == Reconciling || after.status == WaitingApproval ==>
          after.question == before.question && after.answer == before.answer)
    && (Terminal(after.status) ==> after.question.None? && after.answer == before.answer)
    && after.(status := before.status, owner := before.owner, expires := before.expires, retryAt := before.retryAt,
              question := before.question, answer := before.answer) == before
  }

  lemma FinishPublishes(db: Db, lease: Lease, wanted: RunStatus, question: Option<Question>)
    requires Fenced(db, lease) && wanted != Queued && wanted != Running && wanted != RetryScheduled
    ensures var o := Finish(db, lease, wanted, None, question);
            && o.Ok? && o.db == db.(runs := db.runs[lease.run := o.db.runs[lease.run]])
            && PublishedAs(db.runs[lease.run], o.db.runs[lease.run], wanted, OperationOf(db, lease.run), question)
  {
  }

  /** The result is published by the classification of the final checkpoint and the transaction after it. */
  lemma Publishes(s: State, t: ThreadId, wanted: RunStatus, input: RunInput, started: bool, temporary: bool,
                  ck: Checkpoint, question: Option<Question>)
    requires t in s.threads && s.threads[t].pc == Project && Fenced(s.db, s.threads[t].lease)
    requires Decided(s, t, input, started, temporary, ck) == Halt(wanted)
    requires wanted != Queued && wanted != Running && wanted != RetryScheduled
    ensures var run := s.threads[t].lease.run;
            var later := After(s, [ClassifyFinal(t, input, started, temporary, ck), PublishResult(t, question)]);
            && later.threads == s.threads - {t} && later.issued == s.issued && run in later.db.runs
            && later.db == s.db.(runs := s.db.runs[run := later.db.runs[run]])
            && PublishedAs(s.db.runs[run], later.db.runs[run], wanted, OperationOf(s.db, run), question)
  {
    hide Decided, Finish, PublishedAs;
    var run := s.threads[t].lease.run;
    var first, second := ClassifyFinal(t, input, started, temporary, ck), PublishResult(t, question);
    var mid := Move(s, t, Publish(wanted, OperationOf(s.db, run), ck.values));
    FinalIs(s, t, input, started, temporary, ck);
    FinishPublishes(s.db, s.threads[t].lease, wanted, question);
    PublishIs(mid, t, question);
    TwoSteps(s, first, second);
  }

  lemma FinalIs(s: State, t: ThreadId, input: RunInput, started: bool, temporary: bool, ck: Checkpoint)
    requires t in s.threads && s.threads[t].pc == Project && Decided(s, t, input, started, temporary, ck).Halt?
    ensures Apply(s, ClassifyFinal(t, input, started, temporary, ck))
            == Move(s, t, Publish(Decided(s, t, input, started, temporary, ck).status,
                                  OperationOf(s.db, s.threads[t].lease.run), ck.values))
  {
  }

  lemma PublishIs(s: State, t: ThreadId, question: Option<Question>)
    requires t in s.threads && s.threads[t].pc.Publish?
    ensures Apply(s, PublishResult(t, question))
            == FenceEnd(s, t, Finish(s.db, s.threads[t].lease, s.threads[t].pc.status, None, question))
  {
  }

  lemma TwoSteps(s: State, first: Step, second: Step)
    ensures After(s, [first, second]) == Apply(Apply(s, first), second)
  {
    hide Apply;
    assert [first, second][..1] == [first] && [first][..0] == [];
    assert After(s, [first]) == Apply(After(s, []), first);
  }

  /** A result that is warranted by the final checkpoint and the journal is what a current worker publishes. */
  lemma WarrantedIsPublished(s: State, t: ThreadId, wanted: RunStatus, input: RunInput, started: bool, temporary: bool,
                             ck: Checkpoint, question: Option<Question>)
    requires t in s.threads && s.threads[t].pc == Project && Fenced(s.db, s.threads[t].lease)
    requires Warranted(Halt(wanted), s.threads[t].lease, input, started, temporary, ck,
                       OperationOf(s.db, s.threads[t].lease.run))
    ensures var run := s.threads[t].lease.run;
            var later := After(s, [ClassifyFinal(t, input, started, temporary, ck), PublishResult(t, question)]);
            && run in later.db.runs && later.db == s.db.(runs := s.db.runs[run := later.db.runs[run]])
            && PublishedAs(s.db.runs[run], later.db.runs[run], wanted, OperationOf(s.db, run), question)
  {
    hide PublishedAs, Classify, After, Fenced, Trusted;
    ClassifiesExactly(s.threads[t].lease, input, started, temporary, ck, OperationOf(s.db, s.threads[t].lease.run));
    Publishes(s, t, wanted, input, started, temporary, ck, question);
  }

  /** A finished checkpoint that belongs to the run and shows a refused plan, a verified repair with its attributed
      write, or a diagnosis that needs no approval makes the run succeed unless a stop was requested. */
  lemma SuccessIsPublished(s: State, t: ThreadId, input: RunInput, started: bool, temporary: bool, ck: Checkpoint,
                           question: Option<Question>)
    requires t in s.threads && s.threads[t].pc == Project && Fenced(s.db, s.threads[t].lease)
    requires !s.db.runs[s.threads[t].lease.run].stopRequested
    requires Trusted(s.threads[t].lease, input, ck, OperationOf(s.db, s.threads[t].lease.run))
             && !Asks(ck) && ck.pending == []
             && SuccessDue(s.threads[t].lease, ck.values.value, OperationOf(s.db, s.threads[t].lease.run))
    ensures var later := After(s, [ClassifyFinal(t, input, started, temporary, ck), PublishResult(t, question)]);
            s.threads[t].lease.run in later.db.runs && later.db.runs[s.threads[t].lease.run].status == Succeeded
  {
    hide After, Fenced, Trusted, SuccessDue, Asks;
    WarrantedIsPublished(s, t, Succeeded, input, started, temporary, ck, question);
  }

  // ----- where a success comes from ----------------------------------------------------------

  /** The step publishes the success of the run: what its owner was shown makes it due, with the journal as it is. */
  ghost predicate Succeeds(s: State, step: Step, run: RunId) {
    && step.PublishResult? && step.thread in s.threads
    && var th := s.threads[step.thread];
       && th.pc.Publish? && th.lease.run == run && Fenced(s.db, th.lease) && !s.db.runs[run].stopRequested
       && th.pc.values.Some? && SuccessDue(th.lease, th.pc.values.value, OperationOf(s.db, run))
  }

  lemma SucceededByOwner(s: State, t: ThreadId, question: Option<Question>, run: RunId)
    requires t in s.threads && ThreadOk(s, t)
    requires run in s.db.runs && s.db.runs[run].status != Succeeded && s.db.runs[run].kind == Diagnosis
    requires var later := PublishStep(s, t, question); run in later.db.runs && later.db.runs[run].status == Succeeded
    ensures Succeeds(s, PublishResult(t, question), run)
  {
    if Fenced(s.db, s.threads[t].lease) { FencedIsCurrent(s, t); }
  }

  lemma SucceedsInOneStep(s: State, step: Step, run: RunId)
    requires Inv(s)
    requires run in Apply(s, step).db.runs && Apply(s, step).db.runs[run].kind == Diagnosis
             && Apply(s, step).db.runs[run].status == Succeeded
    requires !(run in s.db.runs && s.db.runs[run].status == Succeeded)
    ensures Succeeds(s, step, run)
  {
    hide Inv, ThreadOk, Succeeds, PublishStep;
    if step.SendApproval? {
      SendingSucceedsNothing(s, step);
    } else if !step.PublishResult? {
      OtherStepsKeep(s, step);
    } else {
      PublishKeepsRows(s, step, run);
      ThreadFacts(s, step.thread);
      SucceededByOwner(s, step.thread, step.question, run);
    }
  }

  lemma SendingSucceedsNothing(s: State, step: Step)
    requires step.SendApproval?
    ensures forall r :: r in Apply(s, step).db.runs && Apply(s, step).db.runs[r].status == Succeeded ==>
              r in s.db.runs && s.db.runs[r].status == Succeeded
  {
  }

  lemma PublishKeepsRows(s: State, step: Step, run: RunId)
    requires step.PublishResult? && run in Apply(s, step).db.runs
    requires !(run in s.db.runs && s.db.runs[run] == Apply(s, step).db.runs[run])
    ensures step.thread in s.threads && Apply(s, step) == PublishStep(s, step.thread, step.question)
    ensures run in s.db.runs && s.db.runs[run].kind == Apply(s, step).db.runs[run].kind
  {
  }

  /** In every interleaving, the success of a diagnosis goes back to one publication for which it was due. */
  lemma {:induction false} SuccessWasDue(start: State, steps: seq<Step>, run: RunId) returns (k: nat)
    requires Init(start) && run in After(start, steps).db.runs
    requires After(start, steps).db.runs[run].kind == Diagnosis && After(start, steps).db.runs[run].status == Succeeded
    ensures k < |steps| && Succeeds(After(start, steps[..k]), steps[k], run)
    decreases |steps|
  {
    hide Apply, Succeeds, Inv, Evolves;
    var n := |steps| - 1;
    var before := After(start, steps[..n]);
    InitOk(start);
    AfterKeeps(start, steps[..n]);
    if run in before.db.runs && before.db.runs[run].status == Succeeded {
      StepKeeps(before, steps[n]);
      KindStays(before.db, After(start, steps).db, run);
      k := SuccessWasDue(start, steps[..n], run);
      assert steps[..n][..k] == steps[..k];
    } else {
      SucceedsInOneStep(before, steps[n], run);
      k := n;
    }
  }

  lemma KindStays(a: Db, b: Db, run: RunId)
    requires Evolves(a, b) && run in a.runs
    ensures run in b.runs && b.runs[run].kind == a.runs[run].kind
  {
    assert RunEvolves(a.runs[run], b.runs[run]);
  }
}
