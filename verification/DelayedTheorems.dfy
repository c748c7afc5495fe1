/** How each delayed recheck ends: the one step that ends it, and why. */
module DelayedTheorems {
  import opened Wrappers
  import opened Ledger
  import opened Targets
  import opened DelayedRecheck

  /** Two answers that are both given and differ. */
  predicate Differ<T(==)>(a: Option<T>, b: Option<T>) {
    a.Some? && b.Some? && a != b
  }

  /** The sample shows another Service, Deployment or profile than the recorded one, in whole or in a part. */
  predicate ShowsOther(target: Identity, o: TargetRead) {
    var one := |o.services| == 1;
    || Differ(target.digest, o.digest) || Differ(target.deploymentUid, o.deploymentUid)
    || Differ(target.generation, o.generation)
    || (one && (|| Differ(target.serviceUid, o.services[0].uid) || Differ(target.selector, o.services[0].selector)
                || Differ(target.ports, o.services[0].ports)))
    || (ShowsAll(o) && target != Identity(o.digest, o.deploymentUid, o.generation, o.services[0].uid,
                                          o.services[0].selector, o.services[0].ports))
  }

  /** A matched profile and exactly one Service, with nothing missing. */
  predicate ShowsAll(o: TargetRead) {
    && o.matched && |o.services| == 1
    && o.digest.Some? && o.generation.Some? && o.deploymentUid.Some? && o.deploymentUid.value != ""
    && o.services[0].uid.Some? && o.services[0].uid.value != "" && o.services[0].selector.Some?
    && o.services[0].ports.Some?
  }

  /** Every sample has one of four meanings: it is of another target, it is of the recorded target and healthy or
      faulty, or it decides nothing. */
  lemma ClassifiesExactly(target: Identity, o: TargetRead)
    ensures Classify(target, o) == Invalidated <==> ShowsOther(target, o)
    ensures Classify(target, o) == RowPassed <==> !ShowsOther(target, o) && ShowsAll(o) && o.health == Healthy
    ensures Classify(target, o) == Relapsed <==> !ShowsOther(target, o) && ShowsAll(o) && o.health == Faulty
    ensures Classify(target, o) == RowUnknown <==>
              !ShowsOther(target, o) && (!ShowsAll(o) || o.health == Unclear)
  {
  }

  // ----- one step ----------------------------------------------------------------------------

  /** The recheck still has the basis it was scheduled on. */
  ghost predicate Current(db: Db, row: Row) {
    && BasisHolds(db, row)
    && (row.source.Some? ==>
          && row.source.value in db.runs && !db.runs[row.source.value].invalidated
          && db.runs[row.source.value].status != Cancelled)
  }

  /** The step looks at the open row: the scheduler in its turn, or the worker of its run. */
  ghost predicate Visits(l: Lane, step: Step, i: nat)
    requires i < |l.rows|
  {
    match step
    case DoActivate(j, _, _) => j == i
    case DoOpen(holder, j, _) => j == i && Holds(l, holder, i) && l.rows[i].status == RowRunning
    case DoPublish(holder, j, _) => j == i && Holds(l, holder, i) && l.rows[i].status == RowRunning
    case _ => false
  }

  /** The run of the recheck ended without a result. */
  ghost predicate RunEnded(db: Db, row: Row) {
    row.run.Some? && row.run.value in db.runs && db.runs[row.run.value].status in {Succeeded, Failed, Cancelled}
  }

  /** The step ends the open row with this status. */
  ghost predicate Ends(l: Lane, step: Step, i: nat, status: RowStatus)
    requires i < |l.rows|
  {
    var row := l.rows[i];
    var intime := Current(l.db, row) && l.db.now < row.expires;
    && Visits(l, step, i)
    && match status
       case RowPending => false
       case RowRunning => false
       case Expired => Current(l.db, row) && l.db.now >= row.expires
       case Invalidated =>
         !Current(l.db, row) || (intime && step.DoPublish? && ShowsOther(row.target, step.observed))
       case RowPassed =>
         && intime && step.DoPublish? && !ShowsOther(row.target, step.observed) && ShowsAll(step.observed)
         && step.observed.health == Healthy
       case Relapsed =>
         && intime && step.DoPublish? && !ShowsOther(row.target, step.observed) && ShowsAll(step.observed)
         && step.observed.health == Faulty
       case RowUnknown =>
         && intime
         && match step
            case DoPublish(_, _, o) =>
              !ShowsOther(row.target, o) && (!ShowsAll(o) || o.health == Unclear)
            case DoOpen(_, _, recoveryOnly) => recoveryOnly
            case _ => row.status == RowRunning && RunEnded(l.db, row)
  }

  lemma StaleMeans(db: Db, row: Row)
    ensures IsStale(db, row) <==> !Current(db, row)
  {
  }

  lemma ActivateEnds(l: Lane, i: nat, quiet: bool, run: RunId, j: nat, status: RowStatus)
    requires i < |l.rows| && j < |l.rows| && Open(l.rows[j].status) && !Open(status)
    ensures Activate(l, i, quiet, run).rows[j].status == status <==> Ends(l, DoActivate(i, quiet, run), j, status)
  {
    StaleMeans(l.db, l.rows[i]);
    hide IsStale, Current, Cancelling, ActivateDelayed, ShowsOther;
  }

  lemma OpenEnds(l: Lane, lease: Lease, i: nat, recoveryOnly: bool, j: nat, status: RowStatus)
    requires j < |l.rows| && Open(l.rows[j].status) && !Open(status)
    ensures OpenRow(l, lease, i, recoveryOnly).rows[j].status == status
            <==> Ends(l, DoOpen(lease, i, recoveryOnly), j, status)
  {
    StaleMeans(l.db, l.rows[j]);
    hide IsStale, Current, Fenced, ShowsOther;
  }

  lemma PublishEnds(l: Lane, lease: Lease, i: nat, o: TargetRead, j: nat, status: RowStatus)
    requires j < |l.rows| && Open(l.rows[j].status) && !Open(status)
    ensures Publish(l, lease, i, o).rows[j].status == status <==> Ends(l, DoPublish(lease, i, o), j, status)
  {
    StaleMeans(l.db, l.rows[j]);
    ClassifiesExactly(l.rows[j].target, o);
    hide IsStale, Current, Fenced, ShowsOther, ShowsAll, Classify;
  }

  /** An open recheck ends in a step with a status exactly when that step ends it so. */
  lemma EndsInOneStep(l: Lane, step: Step, i: nat, status: RowStatus)
    requires i < |l.rows| && Open(l.rows[i].status) && !Open(status)
    ensures i < |Next(l, step).rows| && (Next(l, step).rows[i].status == status <==> Ends(l, step, i, status))
  {
    match step
    case DoActivate(j, quiet, run) =>
      if j < |l.rows| { ActivateEnds(l, j, quiet, run, i, status); ActivateLength(l, j, quiet, run); }
    case DoPublish(lease, j, o) => PublishEnds(l, lease, j, o, i, status);
    case DoSave(_, _, _, _, _) =>
    case DoOpen(lease, j, recoveryOnly) => OpenEnds(l, lease, j, recoveryOnly, i, status);
    case Outside(_) =>
  }

  lemma ActivateLength(l: Lane, i: nat, quiet: bool, run: RunId)
    requires i < |l.rows|
    ensures |Activate(l, i, quiet, run).rows| == |l.rows|
  {
    hide IsStale, Cancelling, ActivateDelayed;
  }

  // ----- starting ----------------------------------------------------------------------------

  /** Nothing is under way for the incident and the new id is free. */
  ghost predicate MayStart(db: Db, incident: IncidentId, run: RunId) {
    ActivateDelayed(db, incident, run).Ok?
  }

  /** A waiting recheck is started exactly in its turn, on its basis, in time, while its incident is quiet and the
      ledger takes the new run; the run is then bound to it. Otherwise it waits for its next turn. */
  lemma StartsExactly(l: Lane, step: Step, i: nat)
    requires i < |l.rows| && l.rows[i].status == RowPending && LaneOk(l)
    ensures i < |Next(l, step).rows|
    ensures Next(l, step).rows[i].status == RowRunning <==>
              && step.DoActivate? && step.row == i && Current(l.db, l.rows[i]) && l.db.now < l.rows[i].expires
              && step.quiet && MayStart(l.db, l.rows[i].incident, step.run)
    ensures Next(l, step).rows[i].status == RowRunning ==>
              && Next(l, step).rows[i].run == Some(step.run)
              && Next(l, step).db == ActivateDelayed(l.db, l.rows[i].incident, step.run).db
  {
    match step
    case DoActivate(j, quiet, run) =>
      if j < |l.rows| { ActivateStarts(l, j, quiet, run, i); ActivateLength(l, j, quiet, run); }
    case DoPublish(lease, j, o) =>
      assert RunOk(l.db, l.rows[i]);
    case DoSave(_, _, _, _, _) =>
    case DoOpen(lease, j, recoveryOnly) =>
      assert RunOk(l.db, l.rows[i]);
    case Outside(_) =>
  }

  lemma ActivateStarts(l: Lane, i: nat, quiet: bool, run: RunId, j: nat)
    requires i < |l.rows| && j < |l.rows| && l.rows[j].status == RowPending
    ensures var l' := Activate(l, i, quiet, run);
            && |l'.rows| == |l.rows|
            && (l'.rows[j].status == RowRunning <==>
                  && i == j && Current(l.db, l.rows[j]) && l.db.now < l.rows[j].expires && quiet
                  && MayStart(l.db, l.rows[j].incident, run))
            && (l'.rows[j].status == RowRunning ==>
                  l'.rows[j].run == Some(run) && l'.db == ActivateDelayed(l.db, l.rows[j].incident, run).db)
  {
    StaleMeans(l.db, l.rows[i]);
    hide IsStale, Current, Cancelling, ActivateDelayed;
  }

  /** A recheck is scheduled exactly by a save that stores its window as passed with a bound target, on the basis it was
      asked for and not twice; it is due after half a minute and expires five minutes later. */
  lemma SchedulesExactly(l: Lane, key: string, incident: IncidentId, w: Observation.Window, lease: Option<Lease>,
                         basis: Option<RunId>)
    requires lease.Some? ==> Fenced(l.db, lease.value)
    ensures var l' := SaveWindow(l, key, incident, w, lease, basis);
            var owner := if key in l.windows then l.windows[key].incident else incident;
            var due := && w.status == Observation.Passed && w.target.Some? && owner in l.db.incidents
                       && ParentIsLatest(l.db, owner, basis)
                       && forall i :: 0 <= i < |l.rows| ==>
                            l.rows[i].key != key || l.rows[i].policy != w.policy.version;
            && l'.db == l.db && l'.windows == l.windows[key := Stored(owner, w)]
            && l'.rows == l.rows + (if due
                                    then [Row(key, w.policy.version, owner,
                                              if lease.Some? then Some(lease.value.run) else None, basis,
                                              l.db.incidents[owner].revision, w.target.value, l.db.now + 330,
                                              l.db.now + 30, RowPending, None, None)]
                                    else [])
  {
    hide ParentIsLatest, Fenced;
  }

  /** What the scheduler leaves behind when it does not start a recheck: the run of an ended one is cancelled while it
      is active, and an open one has its next turn in five seconds, unless another transaction got in its way. */
  lemma TurnExactly(l: Lane, i: nat, quiet: bool, run: RunId)
    requires i < |l.rows| && Open(l.rows[i].status)
    ensures var row := l.rows[i]; var l' := Activate(l, i, quiet, run);
            && |l'.rows| == |l.rows| && l'.windows == l.windows
            && (forall j :: 0 <= j < |l.rows| && j != i ==> l'.rows[j] == l.rows[j])
            && (!Current(l.db, row) || row.expires <= l.db.now ==>
                  && l'.rows[i] == row.(status := l'.rows[i].status)
                  && l'.db == (if row.run.Some? && CancelDelayed(l.db, row.run.value).Ok?
                               then CancelDelayed(l.db, row.run.value).db else l.db))
            && (Open(l'.rows[i].status) && l'.rows[i].status == row.status ==>
                  && l'.db == l.db
                  && (l'.rows[i] == row.(next := l.db.now + 5)
                      || (l'.rows[i] == row && ActivateDelayed(l.db, row.incident, run) == Err(UniqueViolation))))
  {
    StaleMeans(l.db, l.rows[i]);
    hide IsStale, Current, ActivateDelayed, CancelDelayed;
  }

  /** What the worker of a recheck saw is kept with it, however the recheck ended. */
  lemma ResultIsKept(l: Lane, lease: Lease, i: nat, o: TargetRead)
    ensures var l' := Publish(l, lease, i, o);
            && l'.db == l.db && l'.windows == l.windows && |l'.rows| == |l.rows|
            && (Holds(l, lease, i) ==> l'.rows[i].result == Some(o))
            && (!Holds(l, lease, i) ==> l' == l)
            && (forall j :: 0 <= j < |l.rows| && j != i ==> l'.rows[j] == l.rows[j])
  {
    hide Fenced, IsStale, Classify;
  }

  // ----- whole runs --------------------------------------------------------------------------

  lemma {:induction false} FindEnding(db: Db, steps: seq<Step>, i: nat, n: nat) returns (k: nat)
    requires n <= |steps| && i < |At(db, steps, n).rows| && !Open(At(db, steps, n).rows[i].status)
    ensures k < n && i < |At(db, steps, k).rows| && Open(At(db, steps, k).rows[i].status)
    ensures Ends(At(db, steps, k), steps[k], i, At(db, steps, n).rows[i].status)
    decreases n
  {
    hide Next, Ends;
    if n > 0 {
      var before := At(db, steps, n - 1);
      AtNext(db, steps, n - 1);
      AlwaysLaneOk(db, steps[..n - 1]);
      if i >= |before.rows| {
        ScheduledInOneStep(before, steps[n - 1], i);
        assert false;
      } else if Open(before.rows[i].status) {
        EndsInOneStep(before, steps[n - 1], i, At(db, steps, n).rows[i].status);
        k := n - 1;
      } else {
        k := FindEnding(db, steps, i, n - 1);
        TerminalIsFinal(db, steps, n - 1, n, i);
      }
    }
  }

  /** In every run, a recheck that is over was ended by one step of it, for the reason its status names. */
  lemma EndingWasCaused(db: Db, steps: seq<Step>, i: nat) returns (k: nat)
    requires i < |After(db, steps).rows| && !Open(After(db, steps).rows[i].status)
    ensures k < |steps| && i < |At(db, steps, k).rows| && Open(At(db, steps, k).rows[i].status)
    ensures Ends(At(db, steps, k), steps[k], i, After(db, steps).rows[i].status)
  {
    hide Next, Ends;
    assert At(db, steps, |steps|) == After(db, steps) by { assert steps[..|steps|] == steps; }
    k := FindEnding(db, steps, i, |steps|);
  }
}
