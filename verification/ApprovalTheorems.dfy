/** A run acts on the decision its user sent, and on nothing else. */
module ApprovalTheorems {
  import opened Wrappers
  import opened Ledger
  import opened LedgerInvariants
  import opened Recovery
  import opened Protocol
  import opened ProtocolInvariants
  import opened ProtocolTheorems
  import opened QuietSteps
  import opened DispatchTheorems

  // ----- one decision ------------------------------------------------------------------------

  /** A first decision is taken exactly for a run that waits for one, with no newer input and no unresolved write in
      its incident. Then the run holds the very decision that was sent and is queued, and nothing else changes. */
  lemma FirstDecisionExactly(db: Db, run: RunId, a: Approval)
    requires run in db.runs && db.runs[run].approval.None?
    ensures QueueApproval(db, run, a).Ok? <==>
              && RevisionCurrent(db, run) && db.runs[run].status == WaitingApproval
              && forall o :: o in db.ops && db.ops[o].incident == db.runs[run].incident ==> !Unresolved(db.ops[o].state)
    ensures QueueApproval(db, run, a).Ok? ==>
              var db' := QueueApproval(db, run, a).db;
              && run in db'.runs && db'.runs[run].approval == Some(a) && db'.runs[run].status == Queued
              && db'.runs[run].attemptBase == db.runs[run].attempt
              && db'.runs[run].(approval := None, status := WaitingApproval, attemptBase := db.runs[run].attemptBase,
                                inputsAccepted := db.runs[run].inputsAccepted) == db.runs[run]
              && db' == db.(runs := db.runs[run := db'.runs[run]])
  {
  }

  /** A further decision is accepted exactly when it is the saved one, and changes nothing. */
  lemma LaterDecisionExactly(db: Db, run: RunId, a: Approval)
    requires run in db.runs && db.runs[run].approval.Some?
    ensures QueueApproval(db, run, a).Ok? <==> RevisionCurrent(db, run) && db.runs[run].approval == Some(a)
    ensures QueueApproval(db, run, a).Ok? ==> QueueApproval(db, run, a).db == db
  {
  }

  // ----- where a saved decision comes from ---------------------------------------------------

  /** A saved decision was sent for this run, as it is, when the run waited for one and had none. */
  ghost predicate Decides(s: State, step: Step, run: RunId, a: Approval) {
    && step == SendApproval(run, a) && run in s.db.runs && s.db.runs[run].approval.None?
    && s.db.runs[run].status == WaitingApproval && RevisionCurrent(s.db, run)
  }

  lemma OnlySendingDecides(s: State, step: Step)
    requires Inv(s) && !step.SendApproval?
    ensures DecisionsKept(s.db, Apply(s, step).db)
  {
    hide Inv;
    if !step.PublishResult? {
      OtherStepsKeep(s, step);
    } else if step.thread in s.threads {
      PublishDecidesNothing(s, step.thread, step.question);
    }
  }

  lemma DecidedInOneStep(s: State, step: Step, run: RunId)
    requires Inv(s) && run in Apply(s, step).db.runs && Apply(s, step).db.runs[run].approval.Some?
    requires run in s.db.runs ==> s.db.runs[run].approval.None?
    ensures Decides(s, step, run, Apply(s, step).db.runs[run].approval.value)
  {
    if !step.SendApproval? { OnlySendingDecides(s, step); }
  }

  lemma {:induction false} DecisionWasSent(start: State, steps: seq<Step>, run: RunId) returns (k: nat)
    requires Init(start) && run in After(start, steps).db.runs && After(start, steps).db.runs[run].approval.Some?
    ensures k < |steps|
    ensures Decides(After(start, steps[..k]), steps[k], run, After(start, steps).db.runs[run].approval.value)
    decreases |steps|
  {
    hide Apply, Decides, Inv;
    var n := |steps| - 1;
    var before := After(start, steps[..n]);
    InitOk(start);
    AfterKeeps(start, steps[..n]);
    if run in before.db.runs && before.db.runs[run].approval.Some? {
      StepKeeps(before, steps[n]);
      ApprovalStays(before.db, After(start, steps).db, run);
      k := DecisionWasSent(start, steps[..n], run);
      assert steps[..n][..k] == steps[..k];
    } else {
      DecidedInOneStep(before, steps[n], run);
      k := n;
    }
  }

  // ----- what follows from it ----------------------------------------------------------------

  /** In every interleaving, each journal row goes back to an earlier step that sent an approving decision for its
      run; the row asks for exactly what that decision is bound to. */
  lemma EveryWriteWasApproved(start: State, steps: seq<Step>, run: RunId) returns (k: nat)
    requires Init(start) && run in After(start, steps).db.ops
    ensures k < |steps| && steps[k].SendApproval? && steps[k].run == run && steps[k].approval.approved
    ensures Decides(After(start, steps[..k]), steps[k], run, steps[k].approval)
    ensures var write := After(start, steps).db.ops[run].write; write == RequestOf(steps[k].approval, write.before)
  {
    hide Apply, Decides;
    assert Reachable(After(start, steps));
    WritesAreApproved(After(start, steps), run);
    k := DecisionWasSent(start, steps, run);
    DecidesIs(After(start, steps[..k]), steps[k], run, After(start, steps).db.runs[run].approval.value);
  }

  lemma DecidesIs(s: State, step: Step, run: RunId, a: Approval)
    requires Decides(s, step, run, a)
    ensures step == SendApproval(run, a)
  {
  }

  /** Once a refusal is the first decision of a run, no step of any worker ever journals, dispatches or patches a
      write for it. */
  lemma RefusalIsFinal(s: State, run: RunId, a: Approval, steps: seq<Step>)
    requires Reachable(s) && run in s.db.runs && s.db.runs[run].approval.None?
    requires QueueApproval(s.db, run, a).Ok? && !a.approved
    ensures var later := After(Apply(s, SendApproval(run, a)), steps);
            run !in later.db.ops && run !in later.issued
  {
    hide Reachable, Inv, QueueApproval, Persists;
    var next := Apply(s, SendApproval(run, a));
    var later := After(next, steps);
    SavedBySending(s, run, a);
    ReachableOn(s, [SendApproval(run, a)]);
    assert After(s, [SendApproval(run, a)]) == next by { assert [SendApproval(run, a)][..0] == []; }
    ReachableOn(next, steps);
    ReachableOk(next);
    RunPersists(next, steps);
    DecisionPersists(next, later, run);
    if run in later.db.ops { WritesAreApproved(later, run); }
    ReachableOk(later);
    SharedFacts(later);
  }

  lemma SavedBySending(s: State, run: RunId, a: Approval)
    requires run in s.db.runs && s.db.runs[run].approval.None? && QueueApproval(s.db, run, a).Ok?
    ensures var next := Apply(s, SendApproval(run, a)); run in next.db.runs && next.db.runs[run].approval == Some(a)
  {
    FirstDecisionExactly(s.db, run, a);
  }

  lemma DecisionPersists(a: State, b: State, run: RunId)
    requires Persists(a, b) && run in a.db.runs && a.db.runs[run].approval.Some?
    ensures run in b.db.runs && b.db.runs[run].approval == a.db.runs[run].approval
  {
    assert RunEvolves(a.db.runs[run], b.db.runs[run]);
  }
}
