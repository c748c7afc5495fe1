/** What holds in every interleaving of workers, crashes, expiries, takeovers and user input. */
module ProtocolTheorems {
  import opened Wrappers
  import opened Ledger
  import opened LedgerInvariants
  import opened Recovery
  import opened RecoveryTheorems
  import opened Protocol
  import opened ProtocolInvariants

  /** `s` is a state some interleaving reaches. */
  ghost predicate Reachable(s: State) {
    exists start: State, steps: seq<Step> :: Init(start) && s == After(start, steps)
  }

  lemma {:induction false} AfterKeeps(s: State, steps: seq<Step>)
    requires Inv(s)
    ensures Inv(After(s, steps))
    decreases |steps|
  {
    if steps != [] {
      AfterKeeps(s, steps[..|steps| - 1]);
      StepKeeps(After(s, steps[..|steps| - 1]), steps[|steps| - 1]);
    }
  }

  lemma ReachableOk(s: State)
    requires Reachable(s)
    ensures Inv(s)
  {
    var start: State, steps: seq<Step> :| Init(start) && s == After(start, steps);
    InitOk(start);
    AfterKeeps(start, steps);
  }

  lemma {:induction false} AfterConcat(s: State, first: seq<Step>, second: seq<Step>)
    ensures After(s, first + second) == After(After(s, first), second)
    decreases |second|
  {
    if second == [] {
      assert first + second == first;
    } else {
      var all := first + second;
      assert all[..|all| - 1] == first + second[..|second| - 1];
      AfterConcat(s, first, second[..|second| - 1]);
    }
  }

  lemma ReachableOn(s: State, steps: seq<Step>)
    requires Reachable(s)
    ensures Reachable(After(s, steps))
  {
    var start: State, before: seq<Step> :| Init(start) && s == After(start, before);
    AfterConcat(start, before, steps);
    assert After(s, steps) == After(start, before + steps);
  }

  // ----- long runs ---------------------------------------------------------------------------

  predicate OperationPersists(a: Operation, b: Operation) {
    && b.incident == a.incident && b.write == a.write
    && (a.state != Prepared ==> b.state != Prepared && b.epoch == a.epoch)
    && (a.state == ManualRequired ==> b.state == ManualRequired)
    && (a.state == Rejected ==> b.state == Rejected)
    && (a.response.Some? ==> b.response == a.response)
    && (a.result.Some? ==> b.result == a.result)
  }

  /** What no number of further steps takes back. */
  ghost predicate Persists(a: State, b: State) {
    && a.db.runs.Keys <= b.db.runs.Keys
    && a.db.ops.Keys <= b.db.ops.Keys
    && a.issued <= b.issued
    && (forall r :: r in a.db.runs ==> RunEvolves(a.db.runs[r], b.db.runs[r]))
    && (forall r :: r in a.db.ops ==> OperationPersists(a.db.ops[r], b.db.ops[r]))
    && (forall r :: r in a.db.runs && Terminal(a.db.runs[r].status) ==> OperationOf(b.db, r) == OperationOf(a.db, r))
  }

  /** The step adds at most the write of its own thread, and only by patching. */
  ghost predicate IssuesOwn(s: State, step: Step, s': State) {
    && s.issued <= s'.issued
    && (s'.issued != s.issued ==>
          step.PatchCluster? && step.thread in s.threads && s.threads[step.thread].pc.ExecutePatch?
          && s'.issued == s.issued + [s.threads[step.thread].lease.run])
  }

  lemma WorkerIssues(s: State, t: ThreadId, step: Step)
    requires t in s.threads && !IsClient(step) && !step.ClaimRun?
    ensures !step.PatchCluster? ==> Silent(s, WorkerStep(s, t, step))
    ensures step.PatchCluster? ==> WorkerStep(s, t, step) == PatchStep(s, t, step.reply)
  {
    hide RaiseStep, ConsultStep, ReadTargetStep, FinishManualStep, AdmitStep, GoStep, CallExecutorStep,
         ExecuteReadStep, PrepareStep, CheckStep, DispatchStep, ConfirmOwnerStep, PatchStep, RecordStep, ProjectStep,
         PublishStep, HandleStep, InteractStep;
  }

  lemma IssuedGrows(s: State, step: Step)
    ensures IssuesOwn(s, step, Apply(s, step))
  {
    hide WorkerStep;
    if !IsClient(step) && !step.ClaimRun? && step.thread in s.threads { WorkerIssues(s, step.thread, step); }
  }

  lemma PersistsRefl(s: State)
    ensures Persists(s, s)
  {
  }

  lemma PersistsTrans(a: State, b: State, c: State)
    requires Persists(a, b) && Persists(b, c)
    ensures Persists(a, c)
  {
    forall r | r in a.db.runs ensures RunEvolves(a.db.runs[r], c.db.runs[r]) {
      assert RunEvolves(a.db.runs[r], b.db.runs[r]) && RunEvolves(b.db.runs[r], c.db.runs[r]);
    }
    forall r | r in a.db.ops ensures OperationPersists(a.db.ops[r], c.db.ops[r]) {
      assert OperationPersists(a.db.ops[r], b.db.ops[r]) && OperationPersists(b.db.ops[r], c.db.ops[r]);
    }
  }

  lemma StepPersists(s: State, step: Step)
    requires Inv(s)
    ensures Persists(s, Apply(s, step))
  {
    StepKeeps(s, step);
    IssuedGrows(s, step);
    EvolvesPersists(s, Apply(s, step));
  }

  lemma EvolvesPersists(a: State, b: State)
    requires Evolves(a.db, b.db) && a.issued <= b.issued
    ensures Persists(a, b)
  {
    forall r | r in a.db.ops ensures OperationPersists(a.db.ops[r], b.db.ops[r]) {
      assert OperationEvolves(a.db.ops[r], b.db.ops[r]);
    }
  }

  lemma {:induction false} RunPersists(s: State, steps: seq<Step>)
    requires Inv(s)
    ensures Inv(After(s, steps)) && Persists(s, After(s, steps))
    decreases |steps|
  {
    hide Inv, Apply, Persists, Evolves;
    if steps == [] {
      PersistsRefl(s);
    } else {
      var before := steps[..|steps| - 1];
      RunPersists(s, before);
      StepPersists(After(s, before), steps[|steps| - 1]);
      PersistsTrans(s, After(s, before), After(s, steps));
      StepKeeps(After(s, before), steps[|steps| - 1]);
    }
  }

  // ----- at most one write -------------------------------------------------------------------

  /** In every interleaving at most one patch call is ever issued per run, and a run that was patched
      is never `prepared` again. */
  lemma AtMostOnePatch(s: State, steps: seq<Step>)
    requires Reachable(s)
    ensures var later := After(s, steps);
            && (forall i, j :: 0 <= i < j < |later.issued| ==> later.issued[i] != later.issued[j])
            && (forall r :: r in s.issued ==>
                  r in later.issued && r in later.db.ops && later.db.ops[r].state != Prepared)
  {
    hide Reachable, Inv, DbOk;
    ReachableOk(s);
    RunPersists(s, steps);
    var later := After(s, steps);
    SharedFacts(later);
    forall i, j | 0 <= i < j < |later.issued| ensures later.issued[i] != later.issued[j] {
      assert !IssuedTwice(later, i, j);
    }
  }

  // ----- stop against dispatch ---------------------------------------------------------------

  /** The control names the active diagnosis of the incident whenever there is one. */
  lemma ControlHitsActive(s: State, incident: IncidentId, latest: RunId, active: RunId)
    requires Reachable(s) && IsLatest(s.db, incident, latest)
    requires active in s.db.runs && s.db.runs[active].incident == incident && s.db.runs[active].kind == Diagnosis
             && Active(s.db.runs[active])
    ensures latest == active
  {
    ReachableOk(s);
    assert !ActiveButOlder(s.db, active, latest);
  }

  lemma {:induction false} FrozenRun(s: State, steps: seq<Step>, run: RunId)
    requires Inv(s) && run in s.db.runs && Terminal(s.db.runs[run].status)
    requires !Dispatched(OperationOf(s.db, run))
    ensures run in After(s, steps).issued <==> run in s.issued
    decreases |steps|
  {
    hide Inv, Apply;
    if steps != [] {
      var before := steps[..|steps| - 1];
      FrozenRun(s, before, run);
      RunPersists(s, before);
      var mid := After(s, before);
      IssuedGrows(mid, steps[|steps| - 1]);
      if Apply(mid, steps[|steps| - 1]).issued != mid.issued { IssuerHasDispatched(mid, steps[|steps| - 1]); }
    }
  }

  /** A patch is only issued for a run whose dispatch was journaled. */
  lemma IssuerHasDispatched(s: State, step: Step)
    requires Inv(s) && IssuesOwn(s, step, Apply(s, step)) && Apply(s, step).issued != s.issued
    ensures Dispatched(OperationOf(s.db, s.threads[step.thread].lease.run))
  {
    assert ThreadOk(s, step.thread);
  }

  /** A control that commits while the write is absent, prepared or refused cancels the active run for
      good: its journal row stays refused or absent, and no patch for it is issued afterwards, not even
      by a worker that still believes it owns the run. */
  lemma StopBeforeDispatch(s: State, incident: IncidentId, key: nat, action: ControlAction, content: string,
                           latest: RunId, steps: seq<Step>)
    requires Reachable(s) && ControlKey(incident, key) !in s.db.controls
    requires ControlStop(s.db, incident, key, action, content, latest).Ok?
    requires Active(s.db.runs[latest]) && !Dispatched(OperationOf(s.db, latest))
    ensures var later := After(Apply(s, SendControl(incident, key, action, content, latest)), steps);
            && latest in later.db.runs && later.db.runs[latest].status == Cancelled
            && !Dispatched(OperationOf(later.db, latest))
            && (latest in later.issued <==> latest in s.issued)
  {
    hide Reachable, Inv, Apply, Evolves, Persists;
    var step := SendControl(incident, key, action, content, latest);
    var next := Apply(s, step);
    ReachableOk(s);
    StepKeeps(s, step);
    SendControlIs(s, incident, key, action, content, latest);
    ControlOutcome(s.db, incident, key, action, content, latest);
    FrozenRun(next, steps, latest);
    RunPersists(next, steps);
    StaysCancelled(next, After(next, steps), latest);
  }

  lemma SendControlIs(s: State, incident: IncidentId, key: nat, action: ControlAction, content: string, latest: RunId)
    requires ControlStop(s.db, incident, key, action, content, latest).Ok?
    ensures Apply(s, SendControl(incident, key, action, content, latest))
            == s.(db := ControlStop(s.db, incident, key, action, content, latest).db)
  {
  }

  lemma StaysCancelled(a: State, b: State, run: RunId)
    requires Persists(a, b) && run in a.db.runs && a.db.runs[run].status == Cancelled
    ensures run in b.db.runs && b.db.runs[run].status == Cancelled && OperationOf(b.db, run) == OperationOf(a.db, run)
  {
    assert RunEvolves(a.db.runs[run], b.db.runs[run]);
  }

  /** The parent row after a fresh control. */
  lemma ControlOutcome(db: Db, incident: IncidentId, key: nat, action: ControlAction, content: string, latest: RunId)
    requires ControlKey(incident, key) !in db.controls && ControlStop(db, incident, key, action, content, latest).Ok?
    ensures var db' := ControlStop(db, incident, key, action, content, latest).db;
            && latest in db.runs && latest in db'.runs
            && db'.runs[latest] == StopRun(db.runs[latest], OperationOf(db, latest))
            && (Active(db.runs[latest]) && !Dispatched(OperationOf(db, latest)) ==>
                  !Dispatched(OperationOf(db', latest)))
            && (Dispatched(OperationOf(db, latest)) ==> OperationOf(db', latest) == OperationOf(db, latest))
  {
  }

  /** A control that commits after the dispatch: the run is never published again. It keeps the waiting
      status it may already have had, and otherwise can only be running, retried, reconciling or cancelled. */
  lemma StopAfterDispatch(s: State, incident: IncidentId, key: nat, action: ControlAction, content: string,
                          latest: RunId, steps: seq<Step>)
    requires Reachable(s) && ControlKey(incident, key) !in s.db.controls
    requires ControlStop(s.db, incident, key, action, content, latest).Ok?
    requires Active(s.db.runs[latest]) && Dispatched(OperationOf(s.db, latest))
    ensures var later := After(Apply(s, SendControl(incident, key, action, content, latest)), steps);
            && latest in later.db.runs && later.db.runs[latest].stopRequested
            && later.db.runs[latest].status != Succeeded && later.db.runs[latest].status != Failed
            && (Published(later.db.runs[latest].status) ==> later.db.runs[latest].status == s.db.runs[latest].status)
  {
    hide Reachable, Inv, Apply, Evolves, ControlStop;
    var step := SendControl(incident, key, action, content, latest);
    var next := Apply(s, step);
    ReachableOk(s);
    StepKeeps(s, step);
    SendControlIs(s, incident, key, action, content, latest);
    ControlOutcome(s.db, incident, key, action, content, latest);
    RunPersists(next, steps);
    assert RunEvolves(next.db.runs[latest], After(next, steps).db.runs[latest]);
  }

  // ----- one unresolved write per incident ---------------------------------------------------

  lemma OneUnresolvedPerIncident(s: State, a: RunId, b: RunId)
    requires Reachable(s) && a in s.db.ops && b in s.db.ops
    requires s.db.ops[a].incident == s.db.ops[b].incident && Unresolved(s.db.ops[a].state)
             && Unresolved(s.db.ops[b].state)
    ensures a == b
  {
    ReachableOk(s);
    assert !BothUnresolved(s.db, a, b);
  }

  // ----- attribution -------------------------------------------------------------------------

  /** A write is confirmed exactly when it succeeded or was reconciled; then its own response is in the
      journal, that response carries the approved configuration on the approved object, and the one patch
      call of the run was really issued. */
  lemma ConfirmedExactlyWhenAttributed(s: State, run: RunId)
    requires Reachable(s) && run in s.db.ops
    ensures s.db.ops[run].confirmed <==> Attributed(s.db.ops[run].state)
    ensures Attributed(s.db.ops[run].state) ==> ResponseMatches(s.db.ops[run]) && run in s.issued
  {
    ReachableOk(s);
  }

  /** A write that needs a human stays so, and a journaled response or result is never overwritten. */
  lemma ManualIsFinal(s: State, steps: seq<Step>, run: RunId)
    requires Reachable(s) && run in s.db.ops
    ensures var later := After(s, steps);
            && run in later.db.ops
            && (s.db.ops[run].state == ManualRequired ==> later.db.ops[run].state == ManualRequired)
            && (s.db.ops[run].response.Some? ==> later.db.ops[run].response == s.db.ops[run].response)
            && (s.db.ops[run].result.Some? ==> later.db.ops[run].result == s.db.ops[run].result)
  {
    hide Reachable, Inv;
    ReachableOk(s);
    RunPersists(s, steps);
    assert OperationPersists(s.db.ops[run], After(s, steps).db.ops[run]);
  }

  lemma RecordAccepted(s: State, t: ThreadId, observed: Option<Snapshot>)
    requires t in s.threads && ThreadOk(s, t) && Fenced(s.db, s.threads[t].lease)
    requires s.threads[t].lease.run in s.db.ops ==> OperationOk(s.db.ops[s.threads[t].lease.run])
    ensures s.threads[t].pc.Reconcile? ==> Record(s.db, s.threads[t].lease, Finding(s.threads[t].pc.view, observed)).Ok?
    ensures s.threads[t].pc.ExecuteReplied? || s.threads[t].pc.ExecuteConflict? ==>
              Record(s.db, s.threads[t].lease, OwnEntry(s.threads[t].pc)).Ok?
  {
    FencedIsCurrent(s, t);
  }

  /** Workers record from a row they read earlier without a lock. Still no record is ever refused as an
      invalid transition or a second response: whoever passes the fence finds the row it read. */
  lemma RecordsAreValid(s: State, t: ThreadId, observed: Option<Snapshot>)
    requires Reachable(s) && t in s.threads && Fenced(s.db, s.threads[t].lease)
    ensures s.threads[t].pc.Reconcile? ==> Record(s.db, s.threads[t].lease, Finding(s.threads[t].pc.view, observed)).Ok?
    ensures s.threads[t].pc.ExecuteReplied? || s.threads[t].pc.ExecuteConflict? ==>
              Record(s.db, s.threads[t].lease, OwnEntry(s.threads[t].pc)).Ok?
  {
    ReachableOk(s);
    RecordAccepted(s, t, observed);
  }

  // ----- what the worker does ----------------------------------------------------------------

  /** A worker whose lease is current calls the graph only when nothing uncertain is in the journal, and
      goes on after a write saved under another lease only after its own read showed exactly the
      journaled response. */
  lemma GraphOnlyWhenCertain(s: State, t: ThreadId)
    requires Reachable(s) && t in s.threads && (s.threads[t].pc == Invoke || s.threads[t].pc == InGraph)
             && Current(s, t)
    ensures var op := OperationOf(s.db, s.threads[t].lease.run);
            op.Some? ==> !Uncertain(op.value.state)
                         && (Attributed(op.value.state) && op.value.epoch != s.threads[t].lease.row.epoch ==>
                               op.value.response.Some? && s.threads[t].readBack == op.value.response)
  {
    hide Reachable, Inv, DbOk;
    ReachableOk(s);
    ThreadFacts(s, t);
    SharedFacts(s);
    var run := s.threads[t].lease.run;
    if run in s.db.ops { JournalFacts(s.db, run, s.maxAttempts); }
  }

  lemma PublishNeedsFence(s: State, t: ThreadId, question: Option<Question>)
    requires t in s.threads && s.threads[t].pc.Publish?
    ensures var later := Apply(s, PublishResult(t, question));
            later.issued == s.issued
                && (later.db != s.db ==> Fenced(s.db, s.threads[t].lease) && later.db.ops == s.db.ops)
  {
    assert Apply(s, PublishResult(t, question)) == PublishStep(s, t, question);
  }

  predicate ShowsVerified(values: Option<Values>) {
    values.Some? && values.value.phase == "verification_succeeded"
  }

  /** Whatever a lagging worker does, a verified repair is committed as succeeded only with an
      attributable write in the journal at that moment. */
  lemma VerifiedOnlyWithWrite(s: State, t: ThreadId, question: Option<Question>)
    requires Reachable(s) && t in s.threads && s.threads[t].pc.Publish?
    requires s.threads[t].pc.status == Succeeded && ShowsVerified(s.threads[t].pc.values)
    ensures var later := Apply(s, PublishResult(t, question));
            later.db != s.db ==>
              var run := s.threads[t].lease.run;
              run in later.db.ops && Attributed(later.db.ops[run].state) && ResponseMatches(later.db.ops[run])
                  && run in later.issued
  {
    ReachableOk(s);
    PublishNeedsFence(s, t, question);
    if Fenced(s.db, s.threads[t].lease) {
      FencedIsCurrent(s, t);
      PublishBasis(s, t);
    }
  }

  lemma PublishBasis(s: State, t: ThreadId)
    requires t in s.threads && ThreadOk(s, t) && Current(s, t) && s.threads[t].pc.Publish?
    requires s.threads[t].pc.status == Succeeded && ShowsVerified(s.threads[t].pc.values)
    ensures s.threads[t].lease.run in s.db.ops && Attributed(s.db.ops[s.threads[t].lease.run].state)
  {
  }

  // ----- leases and attempts -----------------------------------------------------------------

  /** After a newer claim nothing commits under an older epoch any more. */
  lemma OldLeaseIsFenced(s: State, steps: seq<Step>, lease: Lease)
    requires Reachable(s) && lease.run in s.db.runs && lease.row.epoch < s.db.runs[lease.run].epoch
    ensures !Fenced(After(s, steps).db, lease)
  {
    ReachableOk(s);
    RunPersists(s, steps);
    assert RunEvolves(s.db.runs[lease.run], After(s, steps).db.runs[lease.run]);
  }

  /** Every claim hands out an epoch above all epochs any thread holds for the run. */
  lemma ClaimRaisesEpoch(s: State, t: ThreadId, run: RunId, owner: WorkerId, seconds: nat, u: ThreadId)
    requires Reachable(s) && t !in s.threads && Claim(s.db, run, owner, seconds, s.maxAttempts).Ok?
    requires u in s.threads && s.threads[u].lease.run == run
    ensures var next := Apply(s, ClaimRun(t, run, owner, seconds));
            t in next.threads
                && s.threads[u].lease.row.epoch < next.threads[t].lease.row.epoch == next.db.runs[run].epoch
  {
    ReachableOk(s);
    assert ThreadOk(s, u);
  }

  lemma AttemptsOf(r: Run, maxAttempts: nat)
    requires RunOk(r, maxAttempts)
    ensures r.attempt <= r.attemptBase + maxAttempts && r.attempt <= maxAttempts * (1 + r.inputsAccepted)
  {
  }

  lemma RunInvariant(s: State, run: RunId)
    requires Inv(s) && run in s.db.runs
    ensures RunOk(s.db.runs[run], s.maxAttempts)
  {
  }

  lemma AttemptsBounded(s: State, run: RunId)
    requires Reachable(s) && run in s.db.runs
    ensures s.db.runs[run].attempt <= s.db.runs[run].attemptBase + s.maxAttempts
    ensures s.db.runs[run].attempt <= s.maxAttempts * (1 + s.db.runs[run].inputsAccepted)
  {
    ReachableOk(s);
    RunInvariant(s, run);
    AttemptsOf(s.db.runs[run], s.maxAttempts);
  }
}
