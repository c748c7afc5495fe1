/** The current view of collected evidence: an observation replaces only the rows it is newer than. */
module Evidence {
  import opened Wrappers

  datatype Kind =
    | ServiceRow | DeploymentRow | OwnerChain | PodStatus | EndpointSlice | PodLogs | BusinessCheck
    | ToolObservation | PodKind | OtherKind

  datatype PortRef = PortNumber(number: int) | PortName(name: string)

  datatype ServicePort = ServicePort(name: string, number: int, tcp: bool)

  /** What a container's readiness probe looks like: the field is absent, explicitly none, unusable, or complete. */
  datatype ProbeView = FieldMissing | NoProbe | Incomplete | Probe(path: string, port: PortRef, scheme: Option<string>)

  datatype Container = Container(name: string, image: string, probe: ProbeView)

  datatype PodContainer = Waiting(reason: string) | Terminated(reason: string) | OtherState

  datatype Endpoint = Endpoint(ready: bool, isPod: bool, targetName: string, targetUid: Option<string>,
                               targetNamespace: Option<string>)

  datatype CheckStatus = CheckPassed | CheckFailed | CheckUnknown

  /** The wire target of a business check; the profile digest is represented by what it digests. */
  datatype CheckTarget = CheckTarget(profile: nat, clusterIp: string, port: int, check: string)

  datatype Body =
    | ServiceBody(serviceName: string, selector: Option<map<string, string>>, clusterIp: Option<string>,
                  ports: seq<ServicePort>)
    | DeploymentBody(deploymentName: string, generation: Option<int>, labels: map<string, string>,
                     containers: seq<Container>,
                     desired: Option<int>, ready: int, available: int)
    | OwnerBody(deployment: string, chainNamespace: string, podUid: Option<string>, deploymentUid: Option<string>)
    | PodBody(podContainers: seq<PodContainer>, podReady: Option<bool>)
    | EndpointBody(service: string, serviceUid: Option<string>, endpoints: seq<Endpoint>)
    | LogBody(hasContent: bool)
    | CheckBody(checkId: string, status: CheckStatus, bound: bool, target: Option<CheckTarget>, httpStatus: Option<int>,
                contentMatches: Option<bool>, errorFree: bool)
    | OtherBody

  /** A row; namespace, uid, container and previous come from its data and are absent when empty there. The
      time is absent when it cannot be parsed or has no zone. */
  datatype Row = Row(id: string, kind: Kind, name: string, failed: bool, namespace: Option<string>, uid: Option<string>,
                     container: Option<string>, previous: Option<bool>, sampled: Option<int>,
                     invalidates: seq<(Kind, string)>, invalidatesLog: Option<(string, string, bool)>, body: Body)

  predicate StartsWith(s: string, prefix: string) {
    |prefix| <= |s| && s[..|prefix|] == prefix
  }

  predicate OtherObject(item: Row, value: Row) {
    value.kind == item.kind && value.uid.Some? && item.uid.Some? && value.uid.value != item.uid.value
  }

  predicate OtherNamespace(item: Row, value: Row) {
    value.namespace.Some? && item.namespace.Some? && value.namespace.value != item.namespace.value
  }

  predicate SameSlot(a: Row, b: Row) {
    a.kind == b.kind && a.name == b.name && a.container == b.container && a.previous == b.previous
  }

  predicate Invalidated(entry: (Kind, string), value: Row) {
    value.kind == entry.0
        && (value.name == entry.1 || (entry.0 == BusinessCheck && StartsWith(value.name, entry.1 + "/")))
  }

  /** evidence.py:17-34 */
  predicate Matches(item: Row, value: Row) {
    && !OtherNamespace(item, value) && !OtherObject(item, value)
    && (|| SameSlot(value, item)
        || (exists k | 0 <= k < |item.invalidates| :: Invalidated(item.invalidates[k], value))
        || (item.invalidatesLog.Some?
            && var (name, container, previous) := item.invalidatesLog.value;
               value.kind == PodLogs && value.name == name
                   && (value.container.None? || value.container.value == container)
               && (if value.previous.Some? then value.previous.value else false) == previous))
  }

  predicate Later(value: Row, item: Row) {
    value.sampled.Some? && item.sampled.Some? && value.sampled.value > item.sampled.value
  }

  /** An out-of-order replay changes nothing. */
  predicate Outdated(rows: seq<Row>, item: Row) {
    exists k | 0 <= k < |rows| :: Matches(item, rows[k]) && Later(rows[k], item)
  }

  function Unmatched(rows: seq<Row>, item: Row): (r: seq<Row>)
    ensures forall v :: v in r <==> v in rows && !Matches(item, v)
  {
    if rows == [] then []
    else
      var before := Unmatched(rows[..|rows| - 1], item);
      var last := rows[|rows| - 1];
      if Matches(item, last) then before else before + [last]
  }

  function Observe(rows: seq<Row>, item: Row): (r: seq<Row>) {
    if Outdated(rows, item) then rows else Unmatched(rows, item) + [item]
  }

  function Active(baseline: seq<Row>, observations: seq<Row>): (r: seq<Row>)
    decreases |observations|
  {
    if observations == [] then baseline
    else Observe(Active(baseline, observations[..|observations| - 1]), observations[|observations| - 1])
  }

  method ActiveEvidence(baseline: seq<Row>, observations: seq<Row>) returns (current: seq<Row>)
    ensures current == Active(baseline, observations)
  {
    current := baseline;
    for n := 0 to |observations|
      invariant current == Active(baseline, observations[..n])
    {
      var item := observations[n];
      assert observations[..n + 1][..n] == observations[..n];
      var newer, kept, k := false, [], 0;
      while k < |current|
        invariant 0 <= k <= |current|
        invariant newer <==> Outdated(current[..k], item)
        invariant kept == Unmatched(current[..k], item)
      {
        assert current[..k + 1][..k] == current[..k];
        OutdatedStep(current, k, item);
        if Matches(item, current[k]) {
          newer := newer || Later(current[k], item);
        } else {
          kept := kept + [current[k]];
        }
        k := k + 1;
      }
      assert current[..k] == current;
      if newer {
        continue;
      }
      current := kept + [item];
    }
    assert observations[..|observations|] == observations;
  }

  lemma OutdatedStep(rows: seq<Row>, k: nat, item: Row)
    requires k < |rows|
    ensures Outdated(rows[..k + 1], item) <==>
            Outdated(rows[..k], item) || (Matches(item, rows[k]) && Later(rows[k], item))
  {
    if Outdated(rows[..k], item) {
      var j :| 0 <= j < k && Matches(item, rows[..k][j]) && Later(rows[..k][j], item);
      assert rows[..k + 1][j] == rows[j];
    }
    if Matches(item, rows[k]) && Later(rows[k], item) { assert rows[..k + 1][k] == rows[k]; }
    if Outdated(rows[..k + 1], item) {
      var j :| 0 <= j <= k && Matches(item, rows[..k + 1][j]) && Later(rows[..k + 1][j], item);
      if j < k { assert rows[..k][j] == rows[j]; }
    }
  }

  // ----- what an observation may evict -------------------------------------------------------

  /** A row disappears only for an observation that matches it, is of the same object as far as both say, and
      was not sampled before it. */
  lemma EvictionIsJustified(rows: seq<Row>, item: Row, v: Row)
    requires v in rows && v !in Observe(rows, item)
    ensures Matches(item, v) && !Later(v, item) && !OtherObject(item, v) && !OtherNamespace(item, v)
  {
    var k :| 0 <= k < |rows| && rows[k] == v;
    assert v !in Unmatched(rows, item);
  }

  /** An observation is taken in exactly when no row it would replace was sampled later. */
  lemma TakenInExactly(rows: seq<Row>, item: Row)
    ensures item !in rows ==>
              (item in Observe(rows, item) <==> forall v :: v in rows && Matches(item, v) ==> !Later(v, item))
  {
    if Outdated(rows, item) {
      var k :| 0 <= k < |rows| && Matches(item, rows[k]) && Later(rows[k], item);
      assert rows[k] in rows;
    }
  }

  predicate Agree<T(==)>(a: Option<T>, b: Option<T>) {
    a.None? || b.None? || a == b
  }

  /** The observation is about the same place as the row: not of another namespace or another object of the kind, and
      in its slot, named in what the observation retires, or a log of the container it read. */
  ghost predicate Replaces(item: Row, v: Row) {
    && Agree(item.namespace, v.namespace) && (item.kind == v.kind ==> Agree(item.uid, v.uid))
    && (|| (item.kind == v.kind && item.name == v.name && item.container == v.container && item.previous == v.previous)
        || (exists name :: (v.kind, name) in item.invalidates
              && (v.name == name || (v.kind == BusinessCheck && name + "/" <= v.name)))
        || (item.invalidatesLog.Some? && v.kind == PodLogs && v.name == item.invalidatesLog.value.0
            && Agree(v.container, Some(item.invalidatesLog.value.1))
            && item.invalidatesLog.value.2 == (v.previous == Some(true))))
  }

  predicate SampledAfter(v: Row, item: Row) {
    v.sampled.Some? && item.sampled.Some? && item.sampled.value < v.sampled.value
  }

  lemma MatchesExactly(item: Row, v: Row)
    ensures Matches(item, v) <==> Replaces(item, v)
    ensures Later(v, item) <==> SampledAfter(v, item)
  {
    forall name ensures StartsWith(v.name, name + "/") <==> name + "/" <= v.name { }
    if exists k | 0 <= k < |item.invalidates| :: Invalidated(item.invalidates[k], v) {
      var k :| 0 <= k < |item.invalidates| && Invalidated(item.invalidates[k], v);
      assert item.invalidates[k] == (v.kind, item.invalidates[k].1);
    }
    forall name | (v.kind, name) in item.invalidates
                  && (v.name == name || (v.kind == BusinessCheck && name + "/" <= v.name))
      ensures exists k | 0 <= k < |item.invalidates| :: Invalidated(item.invalidates[k], v)
    {
      var k :| 0 <= k < |item.invalidates| && item.invalidates[k] == (v.kind, name);
      assert Invalidated(item.invalidates[k], v);
    }
  }

  /** After an observation a row is active exactly when it was and the observation does not replace it, or replaces
      some row that was sampled after it and so comes too late itself. */
  lemma ObservedExactly(rows: seq<Row>, item: Row, v: Row)
    requires v != item
    ensures v in Observe(rows, item) <==>
              v in rows && (!Replaces(item, v)
                            || exists r :: r in rows && Replaces(item, r) && SampledAfter(r, item))
  {
    hide Matches, Later, Replaces, SampledAfter;
    MatchesExactly(item, v);
    forall r ensures (Matches(item, r) <==> Replaces(item, r)) && (Later(r, item) <==> SampledAfter(r, item)) {
      MatchesExactly(item, r);
    }
    if Outdated(rows, item) {
      var k :| 0 <= k < |rows| && Matches(item, rows[k]) && Later(rows[k], item);
      assert rows[k] in rows && Replaces(item, rows[k]) && SampledAfter(rows[k], item);
    }
    forall r | r in rows && Replaces(item, r) && SampledAfter(r, item) ensures Outdated(rows, item) {
      var k :| 0 <= k < |rows| && rows[k] == r;
    }
  }

  lemma {:induction false} NeverEmpty(baseline: seq<Row>, observations: seq<Row>)
    requires baseline != []
    ensures Active(baseline, observations) != []
    decreases |observations|
  {
    if observations != [] { NeverEmpty(baseline, observations[..|observations| - 1]); }
  }

  /** Every active row was collected. */
  lemma {:induction false} ActiveAreCollected(baseline: seq<Row>, observations: seq<Row>, v: Row)
    ensures v in Active(baseline, observations) ==> v in baseline || v in observations
    decreases |observations|
  {
    if observations != [] {
      var n := |observations| - 1;
      ActiveAreCollected(baseline, observations[..n], v);
    }
  }

  /** If a baseline row is gone at the end, one of the observations replaced it rightfully. */
  lemma {:induction false} BaselineRowsLeaveForNewer(baseline: seq<Row>, observations: seq<Row>, v: Row)
      returns (k: nat)
    requires v in baseline && v !in Active(baseline, observations)
    ensures k < |observations| && Matches(observations[k], v) && !Later(v, observations[k])
            && !OtherObject(observations[k], v)
    decreases |observations|
  {
    var n := |observations| - 1;
    if v in Active(baseline, observations[..n]) {
      EvictionIsJustified(Active(baseline, observations[..n]), observations[n], v);
      k := n;
    } else {
      k := BaselineRowsLeaveForNewer(baseline, observations[..n], v);
    }
  }

  /** No active observation stands beside an earlier row of its own slot, object and namespace. */
  ghost predicate NoneSuperseded(baseline: seq<Row>, rows: seq<Row>) {
    forall i, j :: 0 <= i < j < |rows| && rows[j] !in baseline ==> !Matches(rows[j], rows[i])
  }

  lemma {:induction false} UnmatchedKeepsOrder(baseline: seq<Row>, rows: seq<Row>, item: Row)
    requires NoneSuperseded(baseline, rows)
    ensures NoneSuperseded(baseline, Unmatched(rows, item))
    decreases |rows|
  {
    if rows != [] {
      var n := |rows| - 1;
      UnmatchedKeepsOrder(baseline, rows[..n], item);
      var before, r := Unmatched(rows[..n], item), Unmatched(rows, item);
      forall i, j | 0 <= i < j < |r| && r[j] !in baseline ensures !Matches(r[j], r[i]) {
        if j == |before| {
          assert before[i] in before;
          var k :| 0 <= k < n && rows[k] == before[i];
        } else {
          assert r[j] == before[j] && r[i] == before[i];
        }
      }
    }
  }

  lemma {:induction false} ActiveIsCurrent(baseline: seq<Row>, observations: seq<Row>)
    ensures NoneSuperseded(baseline, baseline) && NoneSuperseded(baseline, Active(baseline, observations))
    decreases |observations|
  {
    forall j | 0 <= j < |baseline| ensures baseline[j] in baseline { }
    if observations != [] {
      var n := |observations| - 1;
      ActiveIsCurrent(baseline, observations[..n]);
      var rows, item := Active(baseline, observations[..n]), observations[n];
      if !Outdated(rows, item) {
        UnmatchedKeepsOrder(baseline, rows, item);
        var kept := Unmatched(rows, item);
        forall i | 0 <= i < |kept| ensures !Matches(item, kept[i]) { assert kept[i] in kept; }
      }
    }
  }

  // ----- history -----------------------------------------------------------------------------

  function Ids(rows: seq<Row>): (ids: set<string>) {
    set k | 0 <= k < |rows| :: rows[k].id
  }

  /** The ids of rows that are no longer active, each once, in order of collection (evidence.py:93-99). */
  function Historical(rows: seq<Row>, active: set<string>): (ids: seq<string>)
    ensures forall id :: id in ids <==> id in Ids(rows) && id !in active
    ensures forall i, j :: 0 <= i < j < |ids| ==> ids[i] != ids[j]
  {
    if rows == [] then []
    else
      var n := |rows| - 1;
      var before := Historical(rows[..n], active);
      assert Ids(rows) == Ids(rows[..n]) + {rows[n].id} by { IdsAppend(rows, n); }
      if rows[n].id in active || rows[n].id in before then before else before + [rows[n].id]
  }

  lemma IdsAppend(rows: seq<Row>, n: nat)
    requires |rows| == n + 1
    ensures Ids(rows) == Ids(rows[..n]) + {rows[n].id}
  {
    forall id | id in Ids(rows) ensures id in Ids(rows[..n]) + {rows[n].id} {
      var k :| 0 <= k < |rows| && rows[k].id == id;
      if k < n { assert rows[..n][k].id == id; }
    }
    forall id | id in Ids(rows[..n]) ensures id in Ids(rows) {
      var k :| 0 <= k < n && rows[..n][k].id == id;
      assert rows[k].id == id;
    }
  }
}
