/** From a diagnosis to a write plan: which actions are allowed, how a plan is prepared and checked. */
module Policy {
  import opened Wrappers
  import opened Evidence
  import opened Diagnosis

  const SAFE_NAMESPACE := "agent-demo"

  datatype Action = Manual | PatchProbe | PatchSelector

  datatype Risk = Low | Medium | High

  datatype ResourceKind = AService | ADeployment | APod

  datatype LabelPair = LabelPair(key: string, value: string)

  /** `commandFree` says that no text of the plan contains a shell command token. */
  datatype Plan = Plan(action: Action, targetUid: Option<string>, namespace: string, kind: ResourceKind, name: string,
                       container: Option<string>, currentPath: Option<string>, proposedPath: Option<string>,
                       currentPort: Option<PortRef>, proposedPort: Option<PortRef>, currentSelector: seq<LabelPair>,
                       proposedSelector: seq<LabelPair>, steps: seq<string>, risk: Risk, approval: bool,
                       evidenceIds: seq<string>, runbookIds: seq<string>, commandFree: bool)

  datatype Result<+T> = Ok(value: T) | Refused | Crashed

  predicate Executable(a: Action) {
    a == PatchProbe || a == PatchSelector
  }

  /** No value twice, as the size of the set shows it. */
  predicate NoRepeats(s: seq<string>) {
    forall i, j | 0 <= i < j < |s| :: s[i] != s[j]
  }

  // ----- target identity (target_identity.py) ------------------------------------------------

  function KindOf(k: ResourceKind): (r: Kind) {
    match k
    case AService => ServiceRow
    case ADeployment => DeploymentRow
    case APod => PodKind
  }

  predicate IsTarget(p: Plan, r: Row) {
    r.kind == KindOf(p.kind) && r.name == p.name && r.namespace == Some(p.namespace) && !r.failed
  }

  /** The UID is refused unless exactly one usable row is the target's and carries one; see `TargetUidExactly`. */
  function TargetUid(s: State, p: Plan): (u: Option<string>)
    ensures u.Some? ==> exists r :: r in s.evidence && IsTarget(p, r) && r.uid == u
    ensures u.Some? ==> forall r :: r in s.evidence && IsTarget(p, r) ==> r.uid == u
  {
    var rows := Select(s.evidence, (r: Row) => IsTarget(p, r));
    if |rows| == 1 && rows[0].uid.Some? && 1 <= |rows[0].uid.value| <= 128 then
      assert rows[0] in rows;
      assert forall r :: r in s.evidence && IsTarget(p, r) ==> r in rows;
      rows[0].uid
    else None
  }

  /** The last row of that kind and name. */
  function Resource(rows: seq<Row>, kind: Kind, name: string): (r: Option<Row>) {
    if rows == [] then None
    else
      var n := |rows| - 1;
      if rows[n].kind == kind && rows[n].name == name then Some(rows[n]) else Resource(rows[..n], kind, name)
  }

  predicate Unambiguous(rows: seq<Row>) {
    forall i, j | 0 <= i < j < |rows| :: rows[i].kind == rows[j].kind && rows[i].name == rows[j].name ==>
      rows[i].uid == rows[j].uid && rows[i].namespace == rows[j].namespace
  }

  predicate Contradicts(a: Option<string>, b: Option<string>) {
    a.Some? && b.Some? && a.value != b.value
  }

  function UidOf(r: Option<Row>): (u: Option<string>) {
    if r.Some? then r.value.uid else None
  }

  predicate ChainHolds(rows: seq<Row>, r: Row) {
    r.kind == OwnerChain && r.body.OwnerBody? ==>
      var pod := UidOf(Resource(rows, PodStatus, r.name));
      var deployment := UidOf(Resource(rows, DeploymentRow, r.body.deployment));
      && !(pod.Some? && r.body.deployment != "" && (r.body.podUid.None? || r.body.deploymentUid.None?))
      && !Contradicts(r.body.podUid, pod) && !Contradicts(r.body.deploymentUid, deployment)
  }

  predicate EndpointHolds(rows: seq<Row>, slice: Row, e: Endpoint) {
    && !(slice.uid.Some? && e.isPod && e.targetUid.None?)
    && (var pod := Resource(rows, PodStatus, e.targetName);
        e.isPod && pod.Some? ==>
          !Contradicts(e.targetUid, pod.value.uid)
              && (e.targetNamespace.Some? ==> e.targetNamespace == pod.value.namespace))
  }

  predicate SliceHolds(rows: seq<Row>, r: Row) {
    r.kind == EndpointSlice && r.body.EndpointBody? ==>
      && !(r.uid.Some? && r.body.serviceUid.None?)
      && !Contradicts(r.body.serviceUid, UidOf(Resource(rows, ServiceRow, r.body.service)))
      && (forall j | 0 <= j < |r.body.endpoints| :: EndpointHolds(rows, r, r.body.endpoints[j]))
  }

  /** target_identity.py:29-65 */
  predicate RelationshipsHold(rows: seq<Row>) {
    Unambiguous(rows) && forall i | 0 <= i < |rows| :: ChainHolds(rows, rows[i]) && SliceHolds(rows, rows[i])
  }

  function BindTarget(p: Plan, s: State): (b: Option<Plan>) {
    var uid := TargetUid(s, p);
    if uid.None? || (p.targetUid.Some? && p.targetUid != uid) || !RelationshipsHold(s.evidence) then None
    else Some(p.(targetUid := uid))
  }

  // ----- allowed actions ---------------------------------------------------------------------

  predicate NamedService(profile: Profile, r: Row) {
    r.kind == ServiceRow && r.name == profile.service
  }

  /** remediation_policy.py:122-131 */
  predicate SelectorCandidate(s: State) {
    var profile := MatchedProfile(s);
    profile.Some?
    && var rows := Select(s.evidence, (r: Row) => NamedService(profile.value, r));
       |rows| == 1 && rows[0].body.ServiceBody? && rows[0].body.selector.Some?
           && rows[0].body.selector.value != profile.value.selector
  }

  function CategoryOf(s: State): (c: Option<Category>) {
    if s.diagnosis.Some? then Some(s.diagnosis.value.category) else None
  }

  /** The write an action for this category could be, before any fact is looked at. */
  function WriteFor(c: Option<Category>): (a: Option<Action>) {
    if c == Some(ReadinessProbeError) then Some(PatchProbe)
    else if c == Some(SelectorMismatch) then Some(PatchSelector)
    else None
  }

  predicate AllowsManual(c: Option<Category>) {
    c.Some? && c.value != UnknownCause && c.value != NoFault
  }

  /** The candidate check of one category; facts decide it for the probe. */
  predicate Candidate(s: State, f: Facts, a: Action) {
    match a
    case Manual => true
    case PatchProbe => f.readiness.patchable
    case PatchSelector => SelectorCandidate(s)
  }

  predicate WriteGrounded(d: Report, f: Facts) {
    AssessmentValid(d, f) && f.complete && f.business != CheckFailed && f.faults == {}
        && SomeGrounded(d.assessment.value, f)
  }

  /** remediation_policy.py:134-184 */
  function Allowed(s: State): (r: Result<set<Action>>) {
    var c := CategoryOf(s);
    var manual: set<Action> := if AllowsManual(c) then {Manual} else {};
    var write := WriteFor(c);
    if write.None? then Ok(manual)
    else if write.value == PatchSelector && (!SelectorCandidate(s) || s.diagnosis.value.assessment.None?)
    then Ok(manual)
    else
      var f := FactsOf(s);
      if f.None? then Crashed
      else if !Candidate(s, f.value, write.value) || !WriteGrounded(s.diagnosis.value, f.value) then Ok(manual)
      else Ok(manual + {write.value})
  }

  // ----- checks ------------------------------------------------------------------------------

  /** remediation_policy.py:186-273 */
  predicate ReferencesOk(p: Plan, s: State) {
    && NoRepeats(p.evidenceIds) && NoRepeats(p.runbookIds)
    && SetOf(p.evidenceIds) <= Available(s) && SetOf(p.runbookIds) <= s.runbooks - {""}
    && (if s.diagnosis.Some?
        then SetOf(p.evidenceIds) <= SetOf(s.diagnosis.value.evidenceIds)
             && SetOf(p.runbookIds) <= SetOf(s.diagnosis.value.runbookIds)
        else p.evidenceIds == [] && p.runbookIds == [])
  }

  function EvidenceKind(k: ResourceKind): (r: Kind) {
    match k
    case AService => ServiceRow
    case ADeployment => DeploymentRow
    case APod => PodStatus
  }

  predicate TargetOk(p: Plan, s: State) {
    p.namespace == SAFE_NAMESPACE && p.namespace == s.namespace
    && exists i | 0 <= i < |s.evidence| :: s.evidence[i].kind == EvidenceKind(p.kind) && s.evidence[i].name == p.name
  }

  predicate MetadataOk(p: Plan) {
    if Executable(p.action) then p.approval && p.risk == Medium else !p.approval && p.risk == Low
  }

  function Labels(pairs: seq<LabelPair>): (m: map<string, string>) {
    if pairs == [] then map[] else Labels(pairs[..|pairs| - 1])[pairs[|pairs| - 1].key := pairs[|pairs| - 1].value]
  }

  predicate DistinctKeys(pairs: seq<LabelPair>) {
    forall i, j | 0 <= i < j < |pairs| :: pairs[i].key != pairs[j].key
  }

  /** remediation_policy.py:83-96 */
  method LabelsOf(pairs: seq<LabelPair>) returns (r: Result<map<string, string>>)
    ensures r == if DistinctKeys(pairs) then Ok(Labels(pairs)) else Refused
  {
    var m: map<string, string> := map[];
    for k := 0 to |pairs|
      invariant DistinctKeys(pairs[..k]) && m == Labels(pairs[..k])
      invariant forall key :: key in m <==> exists i :: 0 <= i < k && pairs[i].key == key
    {
      assert pairs[..k + 1][..k] == pairs[..k];
      if pairs[k].key in m {
        return Refused;
      }
      m := m[pairs[k].key := pairs[k].value];
    }
    assert pairs[..|pairs|] == pairs;
    r := Ok(m);
  }

  /** registry.py:136-151 */
  predicate RegisteredAction(profile: Profile, p: Plan) {
    && p.namespace == profile.namespace
    && (p.action == PatchSelector ==>
          p.kind == AService && p.name == profile.service && DistinctKeys(p.proposedSelector)
              && Labels(p.proposedSelector) == profile.selector)
    && (p.action == PatchProbe ==>
          p.kind == ADeployment && p.name == profile.deployment && p.container == Some(profile.container)
          && p.proposedPath == Some(profile.probe.path) && p.proposedPort == Some(profile.probe.port))
  }

  predicate IsSpace(c: char) {
    c == ' ' || c == '\t' || c == '\n' || c == '\r'
  }

  function FirstNamed(rows: seq<Row>, kind: Kind, name: string): (r: Option<Row>)
    ensures r.Some? ==> r.value in rows && r.value.kind == kind && r.value.name == name
    ensures r.None? ==> forall v :: v in rows ==> !(v.kind == kind && v.name == name)
  {
    if rows == [] then None
    else if rows[0].kind == kind && rows[0].name == name then Some(rows[0]) else FirstNamed(rows[1..], kind, name)
  }

  /** remediation_policy.py:409-513 */
  predicate ProbePlanOk(p: Plan, s: State) {
    && p.kind == ADeployment && p.container.Some? && p.container.value != ""
    && p.currentPath.Some? && p.currentPath.value != "" && p.proposedPath.Some? && p.proposedPath.value != ""
    && p.proposedPath.value[0] == '/'
       && (forall i | 0 <= i < |p.proposedPath.value| :: !IsSpace(p.proposedPath.value[i]))
    && var row := FirstNamed(s.evidence, DeploymentRow, p.name);
       row.Some? && row.value.body.DeploymentBody?
       && var c := FindContainer(row.value.body.containers, p.container.value);
          c.Some? && c.value.probe.Probe? && Some(c.value.probe.path) == p.currentPath
              && Some(c.value.probe.port) == p.currentPort
          && !(p.currentPath == p.proposedPath && p.currentPort == p.proposedPort)
  }

  /** remediation_policy.py:517-563 */
  predicate SelectorPlanOk(p: Plan, s: State) {
    && p.kind == AService && p.name == s.service
    && DistinctKeys(p.currentSelector) && DistinctKeys(p.proposedSelector) && p.proposedSelector != []
    && var row := FirstNamed(s.evidence, ServiceRow, p.name);
       row.Some? && row.value.body.ServiceBody? && row.value.body.selector == Some(Labels(p.currentSelector))
  }

  predicate ManualPlanOk(p: Plan) {
    p.steps != [] && p.proposedPath.None? && p.proposedPort.None? && p.proposedSelector == []
  }

  predicate ActionOk(p: Plan, s: State) {
    match p.action
    case Manual => ManualPlanOk(p)
    case PatchProbe => ProbePlanOk(p, s)
    case PatchSelector => SelectorPlanOk(p, s)
  }

  /** What a write plan must cite and propose (remediation_policy.py:608-617). */
  predicate WriteOk(p: Plan, s: State) {
    Executable(p.action) ==>
      && FactsOf(s).Some? && SetOf(FactsOf(s).value.configurationIds) <= SetOf(p.evidenceIds) && p.runbookIds != []
      && MatchedProfile(s).Some? && RegisteredAction(MatchedProfile(s).value, p)
  }

  /** remediation_policy.py:567-634 */
  function Validate(p: Plan, s: State): (r: Result<Plan>) {
    match Allowed(s)
    case Crashed => Crashed
    case Refused => Refused
    case Ok(actions) =>
      if p.action in actions && ReferencesOk(p, s) && TargetOk(p, s) && (p.targetUid.Some? ==> BindTarget(p, s).Some?)
         && p.commandFree && MetadataOk(p) && WriteOk(p, s) && ActionOk(p, s)
      then Ok(p) else Refused
  }

  // ----- preparation -------------------------------------------------------------------------

  function Missing(required: seq<string>, cited: seq<string>): (m: seq<string>)
    ensures forall x :: x in m <==> x in required && x !in cited
    ensures NoRepeats(m)
  {
    if required == [] then []
    else
      var n := |required| - 1;
      var before := Missing(required[..n], cited);
      if required[n] in cited || required[n] in before then before else before + [required[n]]
  }

  /** Rows that can be cited: with an id and without an error. */
  function Citable(s: State): (ids: set<string>) {
    (set r | r in s.evidence && !r.failed :: r.id) - {""}
  }

  predicate CanAttach(p: Plan, s: State, f: Facts) {
    && f.complete && f.configurationIds != []
    && SetOf(f.configurationIds) <= Citable(s)
    && s.diagnosis.Some? && SetOf(f.configurationIds) <= SetOf(s.diagnosis.value.evidenceIds)
    && SetOf(p.evidenceIds) * SetOf(f.configurationIds) != {}
  }

  /** remediation_policy.py:637-718 */
  function Prepare(p: Plan, s: State): (r: Result<(Plan, seq<string>)>) {
    if !ReferencesOk(p, s) then Refused
    else if !Executable(p.action) then Published(Validate(p, s), [])
    else
      match Allowed(s)
      case Crashed => Crashed
      case Refused => Refused
      case Ok(actions) =>
        if p.action !in actions || MatchedProfile(s).None? || !RegisteredAction(MatchedProfile(s).value, p) then Refused
        else if FactsOf(s).None? then Crashed
        else if !CanAttach(p, s, FactsOf(s).value) then Refused
        else
          var added := Missing(FactsOf(s).value.configurationIds, p.evidenceIds);
          var bound := BindTarget(p.(evidenceIds := p.evidenceIds + added), s);
          if bound.None? then Refused else Published(Validate(bound.value, s), added)
  }

  function Published(v: Result<Plan>, added: seq<string>): (r: Result<(Plan, seq<string>)>) {
    match v
    case Ok(p) => Ok((p, added))
    case Refused => Refused
    case Crashed => Crashed
  }
}
