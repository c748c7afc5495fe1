/** How collected resources and tool readings become evidence rows. */
module Collection {
  import opened Wrappers
  import opened Evidence
  import Budget

  /** What both producers of rows keep to: a row has an id, and only a tool observation carries an error. */
  predicate Produced(r: Row) {
    r.id != "" && (r.failed ==> r.kind == ToolObservation)
  }

  /** A resource as a collector or a tool returns it. */
  datatype Resource = Resource(namespace: Option<string>, uid: Option<string>, body: Body)

  datatype Entry = Entry(kind: Kind, name: string, container: Option<string>, previous: Option<bool>,
                         resource: Resource)

  // ----- the baseline (agent/collector_adapter.py) -------------------------------------------

  /** The row of an entry: what was collected, without an error, under its number. */
  function Numbered(e: Entry, short: string, number: string, collectedAt: Option<int>): (r: Row) {
    Row("ev-" + short + "-" + number, e.kind, e.name, false, e.resource.namespace, e.resource.uid, e.container,
        e.previous, collectedAt, [], None, e.resource.body)
  }

  /** agent/collector_adapter.py:53-78: every entry of the bundle becomes one numbered row without an error. */
  method NormalizeEvidence(entries: seq<Entry>, short: string, number: nat -> string, collectedAt: Option<int>)
      returns (evidence: seq<Row>)
    ensures |evidence| == |entries|
    ensures forall i :: 0 <= i < |evidence| ==>
              Produced(evidence[i]) && evidence[i] == Numbered(entries[i], short, number(i + 1), collectedAt)
  {
    evidence := [];
    var sequence := 0;
    while sequence < |entries|
      invariant 0 <= sequence == |evidence| <= |entries|
      invariant forall i :: 0 <= i < sequence ==>
                  Produced(evidence[i]) && evidence[i] == Numbered(entries[i], short, number(i + 1), collectedAt)
    {
      var e := entries[sequence];
      sequence := sequence + 1;
      var row := Row("ev-" + short + "-" + number(sequence), e.kind, e.name, false, e.resource.namespace,
                     e.resource.uid, e.container, e.previous,
                     collectedAt, [], None, e.resource.body);
      assert row.id[0] == 'e';
      evidence := evidence + [row];
    }
  }

  // ----- tool readings (investigation/evidence.py) -------------------------------------------

  datatype Coverage = NotCovered | PartlyCovered | FullyCovered

  datatype Payload =
    | TextPayload(hasContent: bool)
    | SummaryPayload(service: Resource, deployment: Resource)
    | ConfigPayload(deployment: Resource)
    | ChecksPayload(checks: seq<Resource>)
    | OtherPayload

  datatype Reading = Reading(coverage: Coverage, failed: bool, sampled: Option<int>, payload: Payload)

  datatype Ref = Ref(name: string, namespace: string, uid: string, container: string, service: string,
                     deployment: string)

  function CheckName(ref: Ref, check: Resource): (name: string) {
    ref.service + "/" + (if check.body.CheckBody? then check.body.checkId else "None")
  }

  /** What a reading says about older rows, whether it succeeded or not. */
  function Retires(tool: Budget.Tool, ref: Ref): (entries: seq<(Kind, string)>) {
    match tool
    case RegisteredBusiness => [(BusinessCheck, ref.service)]
    case ResourceSummary => [(ServiceRow, ref.service), (DeploymentRow, ref.deployment)]
    case DeploymentConfig => [(DeploymentRow, ref.deployment)]
    case _ => []
  }

  /** Row `n` of a reading; the digest of the request and the position is never empty text around it. */
  function ReadingRow(n: nat, kind: Kind, name: string, failed: bool, reading: Reading, resource: Resource,
                      container: Option<string>, previous: Option<bool>, digest: nat -> string): (r: Row)
    requires failed ==> kind == ToolObservation
    ensures Produced(r) && IsRow(r, kind, name, resource) && r.failed == failed && r.sampled == reading.sampled
    ensures r.container == container && r.previous == previous && r.invalidates == [] && r.invalidatesLog.None?
  {
    var id := "ev-" + digest(n) + "-001";
    assert id[0] == 'e';
    Row(id, kind, name, failed, resource.namespace, resource.uid, container, previous, reading.sampled, [], None,
        resource.body)
  }

  const NOTHING := Resource(None, None, OtherBody)

  /** The row is about this resource, under this name. */
  predicate IsRow(r: Row, kind: Kind, name: string, resource: Resource) {
    r.kind == kind && r.name == name && r.namespace == resource.namespace && r.uid == resource.uid
    && r.body == resource.body
  }

  predicate ShowsBoth(reading: Reading, tool: Budget.Tool) {
    tool == Budget.ResourceSummary && reading.coverage == FullyCovered && reading.payload.SummaryPayload?
  }

  predicate ShowsDeployment(reading: Reading, tool: Budget.Tool) {
    tool == Budget.DeploymentConfig && reading.coverage == FullyCovered && reading.payload.ConfigPayload?
  }

  predicate ShowsChecks(reading: Reading, tool: Budget.Tool) {
    tool == Budget.RegisteredBusiness && reading.coverage != NotCovered && reading.payload.ChecksPayload?
  }

  /** investigation/evidence.py:50-90 */
  method Adapt(reading: Reading, tool: Budget.Tool, previous: bool, ref: Ref, digest: nat -> string)
      returns (rows: seq<Row>)
    ensures rows != [] && forall i :: 0 <= i < |rows| ==> Produced(rows[i]) && rows[i].sampled == reading.sampled
    ensures rows[0].invalidates == Retires(tool, ref)
    ensures rows[0].invalidatesLog == if tool == Budget.PodLogs then Some((ref.name, ref.container, previous)) else None
    ensures forall i :: 1 <= i < |rows| ==> rows[i].invalidates == [] && rows[i].invalidatesLog.None?
    ensures reading.coverage == NotCovered ==>
              |rows| == 1 && IsRow(rows[0], ToolObservation, ref.name, NOTHING) && rows[0].failed == reading.failed
    ensures reading.coverage != NotCovered && tool == Budget.PodLogs ==>
              && |rows| == 1 && !rows[0].failed
              && IsRow(rows[0], PodLogs, ref.name,
                       Resource(Some(ref.namespace), Some(ref.uid),
                                LogBody(reading.payload.TextPayload? && reading.payload.hasContent)))
              && rows[0].container == Some(ref.container) && rows[0].previous == Some(previous)
    ensures ShowsBoth(reading, tool) ==>
              && |rows| == 2 && !rows[0].failed && !rows[1].failed
              && IsRow(rows[0], ServiceRow, ref.service, reading.payload.service)
              && IsRow(rows[1], DeploymentRow, ref.deployment, reading.payload.deployment)
    ensures ShowsDeployment(reading, tool) ==>
              && |rows| == 1 && !rows[0].failed
              && IsRow(rows[0], DeploymentRow, ref.deployment, reading.payload.deployment)
    ensures ShowsChecks(reading, tool) ==>
              var checks := reading.payload.checks;
              if checks == [] then |rows| == 1 && IsRow(rows[0], ToolObservation, ref.name, NOTHING) && rows[0].failed
              else |rows| == |checks| && forall i :: 0 <= i < |rows| ==>
                     !rows[i].failed && IsRow(rows[i], BusinessCheck, CheckName(ref, checks[i]), checks[i])
    ensures reading.coverage != NotCovered && tool != Budget.PodLogs && !ShowsBoth(reading, tool)
            && !ShowsDeployment(reading, tool) && !ShowsChecks(reading, tool) ==>
              && |rows| == 1 && !rows[0].failed
              && IsRow(rows[0], ToolObservation, ref.name + "/" + ToolName(tool),
                       Resource(Some(ref.namespace), Some(ref.uid), OtherBody))
  {
    if reading.coverage == NotCovered {
      rows := [ReadingRow(0, ToolObservation, ref.name, reading.failed, reading, NOTHING, None, None, digest)];
    } else if tool == Budget.PodLogs {
      var text := Resource(Some(ref.namespace), Some(ref.uid), LogBody(reading.payload.TextPayload?
          && reading.payload.hasContent));
      rows := [ReadingRow(0, PodLogs, ref.name, false, reading, text, Some(ref.container), Some(previous), digest)];
    } else if tool == Budget.ResourceSummary && reading.coverage == FullyCovered && reading.payload.SummaryPayload? {
      rows := [ReadingRow(0, ServiceRow, ref.service, false, reading, reading.payload.service, None, None, digest),
               ReadingRow(1, DeploymentRow, ref.deployment, false, reading, reading.payload.deployment, None, None,
                          digest)];
    } else if tool == Budget.DeploymentConfig && reading.coverage == FullyCovered && reading.payload.ConfigPayload? {
      rows := [ReadingRow(0, DeploymentRow, ref.deployment, false, reading, reading.payload.deployment, None, None,
                          digest)];
    } else if tool == Budget.RegisteredBusiness && reading.payload.ChecksPayload? {
      rows := AdaptChecks(reading, ref, digest);
    } else {
      var seen := Resource(Some(ref.namespace), Some(ref.uid), OtherBody);
      rows := [ReadingRow(0, ToolObservation, ref.name + "/" + ToolName(tool), false, reading, seen, None, None,
                          digest)];
    }
    if rows == [] {
      rows := [ReadingRow(0, ToolObservation, ref.name, true, reading, NOTHING, None, None, digest)];
    }
    rows := rows[0 := rows[0].(invalidates := Retires(tool, ref))];
    if tool == Budget.PodLogs {
      rows := rows[0 := rows[0].(invalidatesLog := Some((ref.name, ref.container, previous)))];
    }
  }

  method AdaptChecks(reading: Reading, ref: Ref, digest: nat -> string) returns (rows: seq<Row>)
    requires reading.payload.ChecksPayload?
    ensures |rows| == |reading.payload.checks|
    ensures forall i :: 0 <= i < |rows| ==>
              Produced(rows[i]) && rows[i].sampled == reading.sampled && !rows[i].failed
              && IsRow(rows[i], BusinessCheck, CheckName(ref, reading.payload.checks[i]), reading.payload.checks[i])
              && rows[i].invalidates == [] && rows[i].invalidatesLog.None?
  {
    rows := [];
    for i := 0 to |reading.payload.checks|
      invariant |rows| == i
      invariant forall j :: 0 <= j < i ==>
                  Produced(rows[j]) && rows[j].sampled == reading.sampled && !rows[j].failed
                  && IsRow(rows[j], BusinessCheck, CheckName(ref, reading.payload.checks[j]),
                           reading.payload.checks[j])
                  && rows[j].invalidates == [] && rows[j].invalidatesLog.None?
    {
      var check := reading.payload.checks[i];
      rows := rows + [ReadingRow(i, BusinessCheck, CheckName(ref, check), false, reading, check, None, None, digest)];
    }
  }

  function ToolName(tool: Budget.Tool): (name: string) {
    match tool
    case ResourceSummary => "resource_summary"
    case RegisteredBusiness => "registered_business"
    case EndpointSlice => "endpoint_slice"
    case PodLogs => "pod_logs"
    case PodEvents => "pod_events"
    case DeploymentConfig => "deployment"
    case ReplicaSet => "replica_set"
  }
}
