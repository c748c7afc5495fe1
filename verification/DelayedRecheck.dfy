/** The delayed follow-up of a passed observation window, bound to its basis and target. */
module DelayedRecheck {
  import opened Wrappers
  import opened Ledger
  import opened Targets
  import Observation
  import ObservationRuns

  const DUE_SECONDS := 30
  const EXPIRY_SECONDS := 330
  const RETRY_SECONDS := 5

  // ----- target identity ---------------------------------------------------------------------

  predicate Clash<T(==)>(expected: Option<T>, shown: Option<T>) {
    shown.Some? && expected.Some? && expected.value != shown.value
  }

  predicate TargetChanged(expected: Identity, o: TargetRead) {
    var s := Shown(o);
    || Clash(expected.digest, s.digest) || Clash(expected.deploymentUid, s.deploymentUid)
       || Clash(expected.generation, s.generation)
    || Clash(expected.serviceUid, s.serviceUid) || Clash(expected.selector, s.selector)
       || Clash(expected.ports, s.ports)
  }

  // ----- rows --------------------------------------------------------------------------------

  datatype RowStatus = RowPending | RowRunning | RowPassed | Relapsed | RowUnknown | Invalidated | Expired

  predicate Open(s: RowStatus) {
    s == RowPending || s == RowRunning
  }

  datatype Row = Row(key: string, policy: string, incident: IncidentId, source: Option<RunId>, basis: Option<RunId>,
                     revision: nat, target: Identity, expires: nat, next: nat, status: RowStatus, run: Option<RunId>,
                     result: Option<TargetRead>)

  /** A stored observation window. */
  datatype Stored = Stored(incident: IncidentId, window: Observation.Window)

  /** The ledger tables, the observation windows by key, and the table of delayed rechecks. */
  datatype Lane = Lane(db: Db, windows: map<string, Stored>, rows: seq<Row>)

  /** runtime/delayed_rechecks.py:79-88 */
  function Classify(target: Identity, o: TargetRead): (s: RowStatus) {
    if TargetChanged(target, o) || (Bound(o).Some? && Bound(o).value != target) then Invalidated
    else if Bound(o).None? then RowUnknown
    else match o.health
         case Healthy => RowPassed
         case Faulty => Relapsed
         case Unclear => RowUnknown
  }

  /** A sample passes exactly when it is healthy and its complete identity is the recorded one. */
  lemma PassesExactly(target: Identity, o: TargetRead)
    ensures Classify(target, o) == RowPassed <==> o.health == Healthy && Bound(o) == Some(target)
  {
  }

  /** persistence/delayed_rechecks.py:37-44 */
  predicate IsStale(db: Db, row: Row) {
    || row.incident !in db.incidents || db.incidents[row.incident].revision != row.revision
    || !ParentIsLatest(db, row.incident, row.basis)
    || (row.source.Some?
        && (row.source.value !in db.runs || db.runs[row.source.value].invalidated
            || db.runs[row.source.value].status == Cancelled))
  }

  predicate Taken(rows: seq<Row>, key: string, policy: string) {
    exists i | 0 <= i < |rows| :: rows[i].key == key && rows[i].policy == policy
  }

  /** persistence/delayed_rechecks.py:17-34 */
  function Schedule(l: Lane, key: string, lease: Option<Lease>, basis: Option<RunId>): (l': Lane)
    requires key in l.windows
  {
    var incident, w := l.windows[key].incident, l.windows[key].window;
    if w.status != Observation.Passed || w.target.None? || incident !in l.db.incidents
        || !ParentIsLatest(l.db, incident, basis)
       || Taken(l.rows, key, w.policy.version) then l
    else
      var source := if lease.Some? then Some(lease.value.run) else None;
      l.(rows := l.rows + [Row(key, w.policy.version, incident, source, basis, l.db.incidents[incident].revision,
                               w.target.value, l.db.now + EXPIRY_SECONDS, l.db.now + DUE_SECONDS, RowPending, None,
                               None)])
  }

  /** persistence/observations.py:34-43: saving a window and scheduling its recheck are one transaction. The
      first save of a key fixes the incident. */
  function SaveWindow(l: Lane, key: string, incident: IncidentId, w: Observation.Window, lease: Option<Lease>,
                      basis: Option<RunId>): (l': Lane) {
    if lease.Some? && !Fenced(l.db, lease.value) then l
    else
      var owner := if key in l.windows then l.windows[key].incident else incident;
      Schedule(l.(windows := l.windows[key := Stored(owner, w)]), key, lease, basis)
  }

  function Ended(db: Db, row: Row): (r: Row) {
    row.(status := if IsStale(db, row) then Invalidated else Expired)
  }

  function Cancelling(db: Db, run: Option<RunId>): (db': Db) {
    if run.Some? && CancelDelayed(db, run.value).Ok? then CancelDelayed(db, run.value).db else db
  }

  /** One candidate of activate_due (persistence/delayed_rechecks.py:58-96). `quiet` says that the phase of
      the incident allows a new read. */
  function Activate(l: Lane, i: nat, quiet: bool, run: RunId): (l': Lane)
    requires i < |l.rows|
  {
    var row := l.rows[i];
    var retry := l.(rows := l.rows[i := row.(next := l.db.now + RETRY_SECONDS)]);
    if !Open(row.status) then l
    else if IsStale(l.db, row) || row.expires <= l.db.now then
      l.(db := Cancelling(l.db, row.run), rows := l.rows[i := Ended(l.db, row)])
    else if row.status == RowRunning then
      if row.run.Some? && row.run.value in l.db.runs && Terminal(l.db.runs[row.run.value].status)
      then l.(rows := l.rows[i := row.(status := RowUnknown)]) else retry
    else if !quiet then retry
    else
      match ActivateDelayed(l.db, row.incident, run)
      case Err(e) => if e == UniqueViolation then l else retry
      case Ok(db, _) =>
          l.(db := db, rows :=
             l.rows[i := row.(status := RowRunning, run := Some(run), next := l.db.now + RETRY_SECONDS)])
  }

  predicate Holds(l: Lane, lease: Lease, i: nat) {
    i < |l.rows| && Fenced(l.db, lease) && l.rows[i].run == Some(lease.run)
  }

  /** runtime/delayed_rechecks.py:24-36 */
  function Locked(db: Db, row: Row): (r: Row) {
    if row.status == RowRunning && (IsStale(db, row) || row.expires <= db.now) then Ended(db, row) else row
  }

  function OpenRow(l: Lane, lease: Lease, i: nat, recoveryOnly: bool): (l': Lane) {
    if !Holds(l, lease, i) then l
    else
      var row := Locked(l.db, l.rows[i]);
      l.(rows := l.rows[i := if recoveryOnly && row.status == RowRunning then row.(status := RowUnknown) else row])
  }

  /** runtime/delayed_rechecks.py:76-95 */
  function Publish(l: Lane, lease: Lease, i: nat, o: TargetRead): (l': Lane) {
    if !Holds(l, lease, i) then l
    else
      var row := Locked(l.db, l.rows[i]);
      var status := if row.status == RowRunning then Classify(row.target, o) else row.status;
      l.(rows := l.rows[i := row.(status := status, result := Some(o))])
  }

  /** The candidates of one pass, each with the phase of its incident and the id of a possible new run. */
  datatype Candidate = Candidate(row: nat, quiet: bool, run: RunId)

  function ActivateAll(l: Lane, candidates: seq<Candidate>): (l': Lane)
    decreases |candidates|
  {
    if candidates == [] then l
    else
      var n := |candidates| - 1;
      var before := ActivateAll(l, candidates[..n]);
      if candidates[n].row < |before.rows|
      then Activate(before, candidates[n].row, candidates[n].quiet, candidates[n].run) else before
  }

  function CandidatesOf(due: seq<nat>, quiet: nat -> bool, run: nat -> RunId): (c: seq<Candidate>)
    ensures |c| == |due| && forall k :: 0 <= k < |due| ==> c[k] == Candidate(due[k], quiet(due[k]), run(due[k]))
  {
    seq(|due|, k requires 0 <= k < |due| => Candidate(due[k], quiet(due[k]), run(due[k])))
  }

  const PASS_LIMIT := 20

  predicate IsDue(rows: seq<Row>, now: nat, i: nat) {
    i < |rows| && Open(rows[i].status) && rows[i].next <= now
  }

  /** Ordered by the next attempt, then by insertion. */
  predicate Precedes(rows: seq<Row>, i: nat, j: nat)
    requires i < |rows| && j < |rows|
  {
    rows[i].next < rows[j].next || (rows[i].next == rows[j].next && i < j)
  }

  /** The first due rows in order, up to the limit of one pass. */
  ghost predicate DueList(rows: seq<Row>, now: nat, due: seq<nat>) {
    && |due| <= PASS_LIMIT && (forall k :: 0 <= k < |due| ==> IsDue(rows, now, due[k]))
    && (forall a, b :: 0 <= a < b < |due| ==> Precedes(rows, due[a], due[b]))
    && (forall i :: IsDue(rows, now, i) && i !in due ==>
          |due| == PASS_LIMIT && forall k :: 0 <= k < |due| ==> Precedes(rows, due[k], i))
  }

  /** The first due row after `last`, if there is one. */
  method NextDue(rows: seq<Row>, now: nat, last: Option<nat>) returns (best: Option<nat>)
    requires last.Some? ==> last.value < |rows|
    ensures best.Some? ==> IsDue(rows, now, best.value) && (last.Some? ==> Precedes(rows, last.value, best.value))
    ensures forall i :: IsDue(rows, now, i) && (last.Some? ==> Precedes(rows, last.value, i)) ==>
              best.Some? && (i == best.value || Precedes(rows, best.value, i))
  {
    best := None;
    for n := 0 to |rows|
      invariant best.Some? ==> best.value < n && IsDue(rows, now, best.value)
                               && (last.Some? ==> Precedes(rows, last.value, best.value))
      invariant forall i :: 0 <= i < n && IsDue(rows, now, i) && (last.Some? ==> Precedes(rows, last.value, i)) ==>
                  best.Some? && (i == best.value || Precedes(rows, best.value, i))
    {
      if IsDue(rows, now, n) && (last.None? || Precedes(rows, last.value, n))
          && (best.None? || Precedes(rows, n, best.value)) {
        best := Some(n);
      }
    }
  }

  method DueRows(rows: seq<Row>, now: nat) returns (due: seq<nat>)
    ensures DueList(rows, now, due)
  {
    due := [];
    var next := NextDue(rows, now, None);
    while |due| < PASS_LIMIT && next.Some?
      invariant |due| <= PASS_LIMIT && (forall k :: 0 <= k < |due| ==> IsDue(rows, now, due[k]))
      invariant forall a, b :: 0 <= a < b < |due| ==> Precedes(rows, due[a], due[b])
      invariant next.Some? ==>
                  IsDue(rows, now, next.value) && forall k :: 0 <= k < |due| ==> Precedes(rows, due[k], next.value)
      invariant forall i :: IsDue(rows, now, i) && i !in due ==>
                  && next.Some? && (i == next.value || Precedes(rows, next.value, i))
                  && forall k :: 0 <= k < |due| ==> Precedes(rows, due[k], i)
      decreases PASS_LIMIT - |due|
    {
      due := due + [next.value];
      next := NextDue(rows, now, next);
    }
  }

  class DelayedStore {
    var db: Db
    var windows: map<string, Stored>
    var rows: seq<Row>

    constructor (db: Db)
      ensures this.db == db && windows == map[] && rows == []
    {
      this.db, windows, rows := db, map[], [];
    }

    /** persistence/delayed_rechecks.py:52-96, with the order of the candidates given. */
    method ActivateDue(candidates: seq<Candidate>)
      modifies this
      ensures Lane(db, windows, rows) == ActivateAll(old(Lane(db, windows, rows)), candidates)
    {
      for k := 0 to |candidates|
        invariant Lane(db, windows, rows) == ActivateAll(old(Lane(db, windows, rows)), candidates[..k])
      {
        assert candidates[..k + 1][..k] == candidates[..k];
        var c := candidates[k];
        if c.row >= |rows| {
          continue;
        }
        ActivateOne(c.row, c.quiet, c.run);
      }
      assert candidates[..|candidates|] == candidates;
    }

    /** persistence/delayed_rechecks.py:53-96: select the due rows, then treat them one after the other. */
    method ActivatePass(quiet: nat -> bool, run: nat -> RunId) returns (ghost due: seq<nat>)
      modifies this
      ensures DueList(old(rows), old(db).now, due)
      ensures Lane(db, windows, rows) == ActivateAll(old(Lane(db, windows, rows)), CandidatesOf(due, quiet, run))
    {
      var selected := DueRows(rows, db.now);
      due := selected;
      ActivateDue(CandidatesOf(selected, quiet, run));
    }

    method ActivateOne(i: nat, quiet: bool, run: RunId)
      requires i < |rows|
      modifies this
      ensures Lane(db, windows, rows) == Activate(old(Lane(db, windows, rows)), i, quiet, run)
    {
      var row := rows[i];
      if !Open(row.status) {
        return;
      }
      var invalid := IsStale(db, row);
      if invalid || row.expires <= db.now {
        rows := rows[i := row.(status := if invalid then Invalidated else Expired)];
        if row.run.Some? {
          var o := CancelDelayed(db, row.run.value);
          if o.Ok? { db := o.db; }
        }
        return;
      }
      if row.status == RowRunning {
        var over := row.run.Some? && row.run.value in db.runs && Terminal(db.runs[row.run.value].status);
        rows := rows[i := if over then row.(status := RowUnknown) else row.(next := db.now + RETRY_SECONDS)];
        return;
      }
      var busy := HasActive(db, row.incident, Diagnosis) || HasActive(db, row.incident, Interaction);
      if busy || HasUnresolved(db, row.incident) || !quiet {
        rows := rows[i := row.(next := db.now + RETRY_SECONDS)];
        return;
      }
      var o := ActivateDelayed(db, row.incident, run);
      if o.Ok? {
        rows := rows[i := row.(status := RowRunning, run := Some(run), next := db.now + RETRY_SECONDS)];
        db := o.db;
      }
    }
  }

  // ----- runs --------------------------------------------------------------------------------

  datatype Step =
    | DoSave(key: string, incident: IncidentId, window: Observation.Window, lease: Option<Lease>, basis: Option<RunId>)
    | DoActivate(row: nat, quiet: bool, run: RunId)
    | DoOpen(holder: Lease, row: nat, recoveryOnly: bool)
    | DoPublish(holder: Lease, row: nat, observed: TargetRead)
    | Outside(db: Db)

  /** What any other transaction may do to the ledger: runs are added and never change what they are, and
      revisions only grow. */
  ghost predicate MovesOn(a: Db, b: Db) {
    && a.now <= b.now && a.runs.Keys <= b.runs.Keys
    && (forall r :: r in a.runs ==>
          b.runs[r].incident == a.runs[r].incident && b.runs[r].kind == a.runs[r].kind
              && b.runs[r].created == a.runs[r].created)
    && (forall i :: i in a.incidents ==> i in b.incidents && a.incidents[i].revision <= b.incidents[i].revision)
  }

  /** What the invocations of a window ever save: a sound window that descends from the stored one. */
  ghost predicate Saveable(l: Lane, key: string, w: Observation.Window) {
    Observation.WindowOk(w) && (key in l.windows ==> ObservationRuns.Descends(l.windows[key].window, w))
  }

  ghost function Next(l: Lane, step: Step): (l': Lane) {
    match step
    case DoSave(key, incident, w, lease, basis) =>
        if Saveable(l, key, w) then SaveWindow(l, key, incident, w, lease, basis) else l
    case DoActivate(i, quiet, run) => if i < |l.rows| then Activate(l, i, quiet, run) else l
    case DoOpen(lease, i, recoveryOnly) => OpenRow(l, lease, i, recoveryOnly)
    case DoPublish(lease, i, o) => Publish(l, lease, i, o)
    case Outside(db) => if MovesOn(l.db, db) then l.(db := db) else l
  }

  ghost function After(db: Db, steps: seq<Step>): (l: Lane)
    decreases |steps|
  {
    if steps == [] then Lane(db, map[], []) else Next(After(db, steps[..|steps| - 1]), steps[|steps| - 1])
  }

  // ----- what one step may change ------------------------------------------------------------

  /** Everything recorded when the window passed stays; a terminal status and a started run stay too. */
  ghost predicate RowMoves(a: Row, b: Row) {
    && b == a.(next := b.next, status := b.status, run := b.run, result := b.result)
    && (!Open(a.status) ==> b.status == a.status)
    && (a.run.Some? ==> b.run == a.run)
    && (b.status == RowPending ==> a.status == RowPending)
  }

  ghost predicate RowsMove(a: seq<Row>, b: seq<Row>) {
    |a| <= |b| && forall i :: 0 <= i < |a| ==> RowMoves(a[i], b[i])
  }

  /** A row waits without a run, every run belongs to one row, a window has one row, and every row belongs to a
      window stored as passed. */
  ghost predicate LaneOk(l: Lane) {
    && (forall key :: key in l.windows ==> Observation.WindowOk(l.windows[key].window))
    && (forall i :: 0 <= i < |l.rows| ==> RunOk(l.db, l.rows[i]))
    && (forall i :: 0 <= i < |l.rows| ==> OfPassedWindow(l, l.rows[i]))
    && (forall i, j :: 0 <= i < j < |l.rows| ==> Apart(l.rows[i], l.rows[j]))
  }

  /** The window of the row is stored as passed, with the target, policy and incident of the row. */
  ghost predicate OfPassedWindow(l: Lane, row: Row) {
    && row.key in l.windows && l.windows[row.key].incident == row.incident
    && var w := l.windows[row.key].window;
       w.status == Observation.Passed && w.target == Some(row.target) && w.policy.version == row.policy
  }

  ghost predicate RunOk(db: Db, row: Row) {
    (row.status == RowPending ==> row.run.None?) && (row.run.Some? ==> row.run.value in db.runs)
  }

  ghost predicate Apart(a: Row, b: Row) {
    && a.key != b.key
    && (a.run.Some? ==> b.run != a.run)
  }

  lemma CancelMovesOn(db: Db, run: Option<RunId>)
    ensures MovesOn(db, Cancelling(db, run))
  {
  }

  lemma ActivateMovesOn(l: Lane, i: nat, quiet: bool, run: RunId)
    requires i < |l.rows|
    ensures MovesOn(l.db, Activate(l, i, quiet, run).db)
    ensures Activate(l, i, quiet, run).rows[i].run != l.rows[i].run ==>
            run !in l.db.runs && run in Activate(l, i, quiet, run).db.runs
  {
    CancelMovesOn(l.db, l.rows[i].run);
  }

  lemma ActivateRow(l: Lane, i: nat, quiet: bool, run: RunId)
    requires i < |l.rows| && RunOk(l.db, l.rows[i])
    ensures var l' := Activate(l, i, quiet, run);
            && l'.rows == l.rows[i := l'.rows[i]] && RowMoves(l.rows[i], l'.rows[i])
            && (l'.rows[i].status == RowPassed ==> l.rows[i].status == RowPassed)
            && (l'.rows[i].run != l.rows[i].run ==> l'.rows[i].run == Some(run))
            && (l'.rows[i].status == RowPending ==> l'.rows[i].run.None?)
  {
  }

  lemma ActivateMoves(l: Lane, i: nat, quiet: bool, run: RunId)
    requires i < |l.rows| && RunOk(l.db, l.rows[i])
    ensures MovesOn(l.db, Activate(l, i, quiet, run).db)
    ensures RowsMove(l.rows, Activate(l, i, quiet, run).rows) && |Activate(l, i, quiet, run).rows| == |l.rows|
    ensures forall j :: 0 <= j < |l.rows| && j != i ==> Activate(l, i, quiet, run).rows[j] == l.rows[j]
    ensures var b := Activate(l, i, quiet, run).rows[i];
            && RunOk(Activate(l, i, quiet, run).db, b) && (b.status == RowPassed ==> l.rows[i].status == RowPassed)
            && (b.run != l.rows[i].run ==> b.run == Some(run) && run !in l.db.runs)
  {
    ActivateMovesOn(l, i, quiet, run);
    ActivateRow(l, i, quiet, run);
  }

  lemma StepMovesOn(l: Lane, step: Step)
    requires LaneOk(l)
    ensures MovesOn(l.db, Next(l, step).db)
  {
    if step.DoActivate? && step.row < |l.rows| { ActivateMoves(l, step.row, step.quiet, step.run); }
  }

  lemma StepMovesRows(l: Lane, step: Step)
    requires LaneOk(l)
    ensures RowsMove(l.rows, Next(l, step).rows)
  {
    match step
    case DoSave(key, incident, w, lease, basis) =>
    case DoActivate(i, quiet, run) => if i < |l.rows| { ActivateMoves(l, i, quiet, run); }
    case DoOpen(lease, i, recoveryOnly) => OpenMoves(l, lease, i, recoveryOnly);
    case DoPublish(lease, i, o) => PublishMoves(l, lease, i, o);
    case Outside(db) =>
  }

  lemma OpenMoves(l: Lane, lease: Lease, i: nat, recoveryOnly: bool)
    ensures RowsMove(l.rows, OpenRow(l, lease, i, recoveryOnly).rows)
  {
  }

  lemma PublishMoves(l: Lane, lease: Lease, i: nat, o: TargetRead)
    ensures RowsMove(l.rows, Publish(l, lease, i, o).rows)
  {
  }

  /** Only saving touches windows. */
  lemma OtherStepsKeepWindows(l: Lane, step: Step)
    requires !step.DoSave?
    ensures Next(l, step).windows == l.windows && |Next(l, step).rows| == |l.rows|
  {
    match step
    case DoActivate(i, quiet, run) =>
    case DoOpen(_, _, _) =>
    case DoPublish(_, _, _) =>
    case Outside(_) =>
  }

  /** Saving keeps the windows of all rows passed, and a row it adds is that of the saved window. */
  lemma SaveKeepsWindows(l: Lane, step: Step)
    requires LaneOk(l) && step.DoSave?
    ensures var l' := Next(l, step);
            && (forall key :: key in l'.windows ==> Observation.WindowOk(l'.windows[key].window))
            && l'.rows[..|l.rows|] == l.rows && |l'.rows| <= |l.rows| + 1
            && forall i :: 0 <= i < |l'.rows| ==> OfPassedWindow(l', l'.rows[i])
  {
    hide Observation.WindowOk, Apart, RunOk, Taken, ParentIsLatest, Fenced;
    var l' := Next(l, step);
    forall i | 0 <= i < |l.rows| ensures OfPassedWindow(l', l.rows[i]) { assert OfPassedWindow(l, l.rows[i]); }
  }

  /** A window saved as passed for the first time has no row yet. */
  lemma SaveAddsNew(l: Lane, step: Step)
    requires LaneOk(l) && step.DoSave? && |Next(l, step).rows| > |l.rows|
    ensures var row := Next(l, step).rows[|l.rows|];
            row.key == step.key && row.run.None? && forall i :: 0 <= i < |l.rows| ==> l.rows[i].key != row.key
  {
    forall i | 0 <= i < |l.rows| ensures l.rows[i].key != step.key { assert OfPassedWindow(l, l.rows[i]); }
  }

  lemma StepWindowsOk(l: Lane, step: Step)
    requires LaneOk(l)
    ensures var l' := Next(l, step);
            && (forall key :: key in l'.windows ==> Observation.WindowOk(l'.windows[key].window))
            && forall i :: 0 <= i < |l'.rows| ==> OfPassedWindow(l', l'.rows[i])
  {
    if step.DoSave? {
      SaveKeepsWindows(l, step);
    } else {
      OtherStepsKeepWindows(l, step);
      StepMovesRows(l, step);
      forall i | 0 <= i < |l.rows| ensures OfPassedWindow(Next(l, step), Next(l, step).rows[i]) {
        assert OfPassedWindow(l, l.rows[i]);
      }
    }
  }

  /** A row gets a run only by its own activation, and then a new one. */
  lemma StepRowRun(l: Lane, step: Step, i: nat)
    requires i < |l.rows| && RunOk(l.db, l.rows[i]) && i < |Next(l, step).rows|
    requires step.DoActivate? && step.row < |l.rows| ==> RunOk(l.db, l.rows[step.row])
    ensures var l' := Next(l, step);
            && (l'.rows[i].status == RowPending ==> l'.rows[i].run.None?)
            && (l'.rows[i].run != l.rows[i].run ==>
                  step.DoActivate? && step.row == i && l'.rows[i].run == Some(step.run) && step.run !in l.db.runs
                      && step.run in l'.db.runs)
  {
    if step.DoActivate? && step.row < |l.rows| { ActivateMoves(l, step.row, step.quiet, step.run); }
  }

  lemma StepRunsOk(l: Lane, step: Step)
    requires LaneOk(l)
    ensures forall i :: 0 <= i < |Next(l, step).rows| ==> RunOk(Next(l, step).db, Next(l, step).rows[i])
  {
    hide Observation.WindowOk, Apart, OfPassedWindow, MovesOn;
    StepMovesOn(l, step);
    StepMovesRows(l, step);
    if step.DoSave? {
      SaveKeepsWindows(l, step);
      if |Next(l, step).rows| > |l.rows| { SaveAddsNew(l, step); }
    } else {
      OtherStepsKeepWindows(l, step);
    }
    forall i | 0 <= i < |l.rows| ensures RunOk(Next(l, step).db, Next(l, step).rows[i]) {
      assert RunOk(l.db, l.rows[i]);
      StepRowRun(l, step, i);
    }
  }

  lemma StepPairApart(l: Lane, step: Step, i: nat, j: nat)
    requires i < j < |l.rows| && Apart(l.rows[i], l.rows[j]) && RunOk(l.db, l.rows[i]) && RunOk(l.db, l.rows[j])
    requires step.DoActivate? && step.row < |l.rows| ==> RunOk(l.db, l.rows[step.row])
    requires RowsMove(l.rows, Next(l, step).rows)
    ensures Apart(Next(l, step).rows[i], Next(l, step).rows[j])
  {
    StepRowRun(l, step, i);
    StepRowRun(l, step, j);
    assert RowMoves(l.rows[i], Next(l, step).rows[i]) && RowMoves(l.rows[j], Next(l, step).rows[j]);
  }

  lemma StepApart(l: Lane, step: Step)
    requires LaneOk(l)
    ensures forall i, j :: 0 <= i < j < |Next(l, step).rows| ==> Apart(Next(l, step).rows[i], Next(l, step).rows[j])
  {
    StepMovesRows(l, step);
    if step.DoSave? {
      SaveKeepsWindows(l, step);
      if |Next(l, step).rows| > |l.rows| { SaveAddsNew(l, step); }
    } else {
      OtherStepsKeepWindows(l, step);
    }
    forall i, j | 0 <= i < j < |l.rows| ensures Apart(Next(l, step).rows[i], Next(l, step).rows[j]) {
      assert RunOk(l.db, l.rows[i]) && RunOk(l.db, l.rows[j]) && Apart(l.rows[i], l.rows[j]);
      StepPairApart(l, step, i, j);
    }
  }

  lemma StepLaneOk(l: Lane, step: Step)
    requires LaneOk(l)
    ensures LaneOk(Next(l, step))
  {
    StepWindowsOk(l, step);
    StepRunsOk(l, step);
    StepApart(l, step);
  }

  lemma {:induction false} AlwaysLaneOk(db: Db, steps: seq<Step>)
    ensures LaneOk(After(db, steps))
    decreases |steps|
  {
    if steps != [] {
      AlwaysLaneOk(db, steps[..|steps| - 1]);
      StepLaneOk(After(db, steps[..|steps| - 1]), steps[|steps| - 1]);
    }
  }

  // ----- whole runs --------------------------------------------------------------------------

  /** The state before step k. */
  ghost function At(db: Db, steps: seq<Step>, k: nat): (l: Lane)
    requires k <= |steps|
  {
    After(db, steps[..k])
  }

  lemma AtNext(db: Db, steps: seq<Step>, k: nat)
    requires k < |steps|
    ensures At(db, steps, k + 1) == Next(At(db, steps, k), steps[k])
  {
    assert steps[..k + 1][..k] == steps[..k];
  }

  lemma MovesReflexive(l: Lane)
    ensures MovesOn(l.db, l.db) && RowsMove(l.rows, l.rows)
  {
  }

  lemma MovesTransitive(a: Lane, b: Lane, c: Lane)
    requires MovesOn(a.db, b.db) && RowsMove(a.rows, b.rows) && MovesOn(b.db, c.db) && RowsMove(b.rows, c.rows)
    ensures MovesOn(a.db, c.db) && RowsMove(a.rows, c.rows)
  {
    forall i | 0 <= i < |a.rows| ensures RowMoves(a.rows[i], c.rows[i]) {
      assert RowMoves(a.rows[i], b.rows[i]) && RowMoves(b.rows[i], c.rows[i]);
    }
  }

  /** Between two points of a run rows and tables only move on. */
  lemma {:induction false} RunMoves(db: Db, steps: seq<Step>, j: nat, k: nat)
    requires j <= k <= |steps|
    ensures MovesOn(At(db, steps, j).db, At(db, steps, k).db) && RowsMove(At(db, steps, j).rows, At(db, steps, k).rows)
    decreases k - j
  {
    hide Next, LaneOk, MovesOn, RowsMove;
    if j == k {
      MovesReflexive(At(db, steps, j));
    } else {
      var before := At(db, steps, k - 1);
      RunMoves(db, steps, j, k - 1);
      AtNext(db, steps, k - 1);
      AlwaysLaneOk(db, steps[..k - 1]);
      StepMovesOn(before, steps[k - 1]);
      StepMovesRows(before, steps[k - 1]);
      MovesTransitive(At(db, steps, j), before, At(db, steps, k));
    }
  }

  /** At any time a window has at most one recheck, and a recheck is started at most once. */
  lemma OneRecheckPerWindow(db: Db, steps: seq<Step>, i: nat, j: nat)
    requires i < |After(db, steps).rows| && j < |After(db, steps).rows| && i != j
    ensures var rows := After(db, steps).rows;
            rows[i].key != rows[j].key && (rows[i].run.Some? ==> rows[i].run != rows[j].run)
  {
    AlwaysLaneOk(db, steps);
    var rows := After(db, steps).rows;
    if i < j { assert Apart(rows[i], rows[j]); } else { assert Apart(rows[j], rows[i]); }
  }

  /** At any time every recheck belongs to a window stored as passed, with its target and all its evidence. */
  lemma RechecksFollowPassedWindows(db: Db, steps: seq<Step>, i: nat)
    requires i < |After(db, steps).rows|
    ensures OfPassedWindow(After(db, steps), After(db, steps).rows[i])
    ensures exists segment ::
            Observation.EvidenceFrom(After(db, steps).windows[After(db, steps).rows[i].key].window, segment)
  {
    AlwaysLaneOk(db, steps);
    assert OfPassedWindow(After(db, steps), After(db, steps).rows[i]);
    Observation.PassedMeans(After(db, steps).windows[After(db, steps).rows[i].key].window);
  }

  /** A terminal status, and the run of a started recheck, never change again. */
  lemma TerminalIsFinal(db: Db, steps: seq<Step>, j: nat, k: nat, i: nat)
    requires j <= k <= |steps| && i < |At(db, steps, j).rows|
    ensures i < |At(db, steps, k).rows|
    ensures !Open(At(db, steps, j).rows[i].status) ==>
            At(db, steps, k).rows[i].status == At(db, steps, j).rows[i].status
    ensures At(db, steps, j).rows[i].run.Some? ==> At(db, steps, k).rows[i].run == At(db, steps, j).rows[i].run
  {
    RunMoves(db, steps, j, k);
    assert RowMoves(At(db, steps, j).rows[i], At(db, steps, k).rows[i]);
  }

  /** What must hold in the tables when a row is created, and again when it is passed. */
  ghost predicate BasisHolds(db: Db, row: Row) {
    row.incident in db.incidents && db.incidents[row.incident].revision == row.revision
        && ParentIsLatest(db, row.incident, row.basis)
  }

  /** The step publishes a healthy sample of the recorded target, in time and on the recorded basis. */
  ghost predicate PassesRow(l: Lane, step: Step, i: nat) {
    && step.DoPublish? && step.row == i && Holds(l, step.holder, i)
    && l.rows[i].status == RowRunning && l.db.now < l.rows[i].expires && BasisHolds(l.db, l.rows[i])
    && (l.rows[i].source.Some? ==>
          && l.rows[i].source.value in l.db.runs
          && !l.db.runs[l.rows[i].source.value].invalidated && l.db.runs[l.rows[i].source.value].status != Cancelled)
    && step.observed.health == Healthy && Bound(step.observed) == Some(l.rows[i].target)
  }

  lemma PassedByPublishing(l: Lane, lease: Lease, j: nat, o: TargetRead, i: nat)
    requires i < |l.rows| && l.rows[i].status != RowPassed
    ensures Publish(l, lease, j, o).rows[i].status == RowPassed <==> PassesRow(l, DoPublish(lease, j, o), i)
  {
    if i == j { PassesExactly(l.rows[i].target, o); }
  }

  lemma PassedInOneStep(l: Lane, step: Step, i: nat)
    requires LaneOk(l) && i < |l.rows| && i < |Next(l, step).rows|
    ensures l.rows[i].status != RowPassed ==> (Next(l, step).rows[i].status == RowPassed <==> PassesRow(l, step, i))
  {
    match step
    case DoActivate(j, quiet, run) => if j < |l.rows| { ActivateMoves(l, j, quiet, run); }
    case DoPublish(lease, j, o) => if l.rows[i].status != RowPassed { PassedByPublishing(l, lease, j, o, i); }
    case DoSave(_, _, _, _, _) =>
    case DoOpen(_, _, _) =>
    case Outside(_) =>
  }

  lemma ScheduledInOneStep(l: Lane, step: Step, i: nat)
    requires LaneOk(l) && i >= |l.rows| && i < |Next(l, step).rows|
    ensures var row := Next(l, step).rows[i];
            step.DoSave? && step.window.status == Observation.Passed && step.window.target == Some(row.target)
                && row.key == step.key
            && Observation.WindowOk(step.window) && BasisHolds(l.db, row) && row.status == RowPending
            && row.expires == l.db.now + EXPIRY_SECONDS
  {
    if step.DoActivate? && step.row < |l.rows| { ActivateMoves(l, step.row, step.quiet, step.run); }
  }

  lemma {:induction false} FindPassing(db: Db, steps: seq<Step>, i: nat, n: nat) returns (k: nat)
    requires n <= |steps| && i < |At(db, steps, n).rows| && At(db, steps, n).rows[i].status == RowPassed
    ensures k < n && i < |At(db, steps, k).rows| && PassesRow(At(db, steps, k), steps[k], i)
    decreases n
  {
    if n > 0 {
      var before := At(db, steps, n - 1);
      AtNext(db, steps, n - 1);
      AlwaysLaneOk(db, steps[..n - 1]);
      if i >= |before.rows| {
        ScheduledInOneStep(before, steps[n - 1], i);
        assert false;
      } else if before.rows[i].status == RowPassed {
        k := FindPassing(db, steps, i, n - 1);
      } else {
        PassedInOneStep(before, steps[n - 1], i);
        k := n - 1;
      }
    }
  }

  /** The step saves the window of the row as passed, sound and with the target of the row. */
  ghost predicate SavesPassed(step: Step, row: Row) {
    && step.DoSave? && step.key == row.key && step.window.status == Observation.Passed
       && step.window.target == Some(row.target)
    && Observation.WindowOk(step.window)
  }

  lemma {:induction false} FindScheduling(db: Db, steps: seq<Step>, i: nat, n: nat) returns (k: nat)
    requires n <= |steps| && i < |At(db, steps, n).rows|
    ensures k < n && SavesPassed(steps[k], At(db, steps, n).rows[i]) && i >= |At(db, steps, k).rows|
    ensures BasisHolds(At(db, steps, k).db, At(db, steps, n).rows[i])
    decreases n
  {
    if n > 0 {
      var before := At(db, steps, n - 1);
      AtNext(db, steps, n - 1);
      AlwaysLaneOk(db, steps[..n - 1]);
      if i >= |before.rows| {
        ScheduledInOneStep(before, steps[n - 1], i);
        k := n - 1;
      } else {
        k := FindScheduling(db, steps, i, n - 1);
        StepMovesRows(before, steps[n - 1]);
        assert RowMoves(before.rows[i], At(db, steps, n).rows[i]);
      }
    }
  }

  /** A basis that holds at two points of a run held all the time in between. */
  lemma BasisHeldBetween(a: Db, b: Db, c: Db, row: Row)
    requires MovesOn(a, b) && MovesOn(b, c) && BasisHolds(a, row) && BasisHolds(c, row)
    ensures BasisHolds(b, row)
  {
  }

  /** A passed recheck was scheduled by the step that stored its window as passed, with all the evidence that
      takes, and published at a later step; in between the revision of the incident and its latest diagnosis
      never differed from those recorded, and the published sample was a healthy one, taken of the very
      target of the window and committed in time. */
  lemma PassedWasJustified(db: Db, steps: seq<Step>, i: nat) returns (j: nat, k: nat)
    requires i < |After(db, steps).rows| && After(db, steps).rows[i].status == RowPassed
    ensures j < k < |steps| && SavesPassed(steps[j], After(db, steps).rows[i])
    ensures exists segment :: Observation.EvidenceFrom(steps[j].window, segment)
    ensures PassesRow(At(db, steps, k), steps[k], i) && steps[k].observed.health == Healthy
    ensures Bound(steps[k].observed) == steps[j].window.target
    ensures forall l :: j <= l <= k ==> BasisHolds(At(db, steps, l).db, After(db, steps).rows[i])
  {
    assert At(db, steps, |steps|) == After(db, steps) by { assert steps[..|steps|] == steps; }
    k := FindPassing(db, steps, i, |steps|);
    j := FindScheduling(db, steps, i, k);
    Observation.PassedMeans(steps[j].window);
    RunMoves(db, steps, k, |steps|);
    var row := After(db, steps).rows[i];
    assert RowMoves(At(db, steps, k).rows[i], row);
    SameBasis(At(db, steps, j).db, At(db, steps, k).rows[i], row);
    SameBasis(At(db, steps, k).db, At(db, steps, k).rows[i], row);
    forall l | j <= l <= k ensures BasisHolds(At(db, steps, l).db, row) {
      RunMoves(db, steps, j, l);
      RunMoves(db, steps, l, k);
      BasisHeldBetween(At(db, steps, j).db, At(db, steps, l).db, At(db, steps, k).db, row);
    }
  }

  lemma SameBasis(db: Db, a: Row, b: Row)
    requires RowMoves(a, b) && BasisHolds(db, a)
    ensures BasisHolds(db, b)
  {
  }
}
