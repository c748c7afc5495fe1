/** The worker protocol moves the tables only as the delayed recheck assumes. */
module DelayedBasis {
  import opened Ledger
  import opened Recovery
  import opened Protocol
  import LedgerInvariants
  import opened ProtocolInvariants
  import opened ProtocolTheorems
  import DelayedRecheck
  import Observation
  import ObservationRuns

  ghost predicate RevisionsGrow(a: Db, b: Db) {
    forall i :: i in a.incidents ==> i in b.incidents && a.incidents[i].revision <= b.incidents[i].revision
  }

  lemma ClientRevisions(s: State, step: Step)
    requires IsClient(step)
    ensures RevisionsGrow(s.db, ClientStep(s, step).db)
  {
    hide IsLatest, HasActive, HasUnresolved, ParentIsLatest, StopInteractions, SupersedePending, RejectPrepared,
         StopRun;
    match step
    case Tick(d) =>
    case NewIncident(i, r) =>
    case NewRound(i, p, r, resumable) =>
    case NewInteraction(i, p, r, h) =>
    case NewDelayed(i, r) =>
    case DropDelayed(r) =>
    case SendControl(i, k, a, c, p) =>
    case SendAnswer(i, k, r, q, v, skip, slots, m) =>
    case SendApproval(r, a) =>
    case Activate(k, r, resumable) =>
  }

  /** Whatever its invocations do, a stored window is only ever replaced as the delayed recheck assumes. */
  lemma InvocationsSave(s: ObservationRuns.State, step: ObservationRuns.Step, l: DelayedRecheck.Lane, key: string)
    requires ObservationRuns.Inv(s) && ObservationRuns.Apply(s, step).row.Some?
    requires key in l.windows ==> s.row.Some? && s.row.value.payload == l.windows[key].window
    ensures DelayedRecheck.Saveable(l, key, ObservationRuns.Apply(s, step).row.value.payload)
  {
    ObservationRuns.StepKeeps(s, step);
  }

  /** Every step of the protocol, by clients and by workers, is one the delayed recheck tolerates. */
  lemma ProtocolMovesOn(s: State, step: Step)
    requires Inv(s)
    ensures DelayedRecheck.MovesOn(s.db, Apply(s, step).db)
  {
    StepKeeps(s, step);
    if IsClient(step) { ClientRevisions(s, step); }
    else if !step.ClaimRun? && step.thread in s.threads { WorkerIssues(s, step.thread, step); }
    assert RevisionsGrow(s.db, Apply(s, step).db);
  }
}
