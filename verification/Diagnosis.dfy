/** Facts derived from evidence, and the gates a diagnosis has to pass. */
module Diagnosis {
  import opened Wrappers
  import opened Evidence
  import Collection

  datatype ProbeContract = ProbeContract(path: string, port: PortRef, scheme: string)

  datatype CheckContract = CheckContract(id: string, port: PortRef, expectedStatus: int)

  /** A registered service. `digest` stands for the injective digest of its contents. */
  datatype Profile = Profile(
    digest: nat,
    namespace: string,
    service: string,
    deployment: string,
    container: string,
    versionLabel: string,
    version: string,
    images: map<string, string>,
    selector: map<string, string>,
    replicas: Option<int>,
    probe: ProbeContract,
    checks: seq<CheckContract>)

  datatype ProfileSnapshot = ProfileSnapshot(
    matched: bool,
    profile: Profile,
    digest: nat,
    deploymentUid: Option<string>,
    generation: Option<int>)

  datatype Category =
    | SelectorMismatch | ReadinessProbeError | ApplicationError | DependencyError | UnknownCause | NoFault
    | CrashLoop | OomKilled | ImagePull

  datatype Domain = DeploymentConfiguration | ApplicationRuntime | Dependency | InsufficientEvidence | NoDomain

  datatype ResourceStatus = Ready | NotReady | ResourceUnknown

  datatype Finding = Finding(evidenceIds: seq<string>)

  datatype Hypothesis = Hypothesis(evidenceIds: seq<string>, supported: bool)

  datatype Assessment = Assessment(domain: Domain, symptoms: seq<Finding>, hypotheses: seq<Hypothesis>,
                                   missing: seq<string>, next: seq<string>, resource: ResourceStatus,
                                   business: CheckStatus)

  /** `mentioned` are the evidence ids found in the texts. */
  datatype Report = Report(category: Category, confidence: real, evidenceIds: seq<string>, runbookIds: seq<string>,
                           assessment: Option<Assessment>, mentioned: set<string>)

  datatype State = State(namespace: string, service: string, evidence: seq<Row>, profile: Option<ProfileSnapshot>,
                         runbooks: set<string>, diagnosis: Option<Report>)

  function SetOf<T>(s: seq<T>): (r: set<T>) {
    set x | x in s
  }

  // ----- the registered profile (registry.py) ------------------------------------------------

  function Select(rows: seq<Row>, keep: Row -> bool): (r: seq<Row>)
    ensures forall v :: v in r <==> v in rows && keep(v)
    ensures |r| <= |rows|
  {
    if rows == [] then []
    else
      var n := |rows| - 1;
      if keep(rows[n]) then Select(rows[..n], keep) + [rows[n]] else Select(rows[..n], keep)
  }

  function Images(containers: seq<Container>): (m: map<string, string>)
    ensures forall k :: k in m <==> exists i :: 0 <= i < |containers| && containers[i].name == k
  {
    if containers == [] then map[]
    else
      var n := |containers| - 1;
      var m := Images(containers[..n])[containers[n].name := containers[n].image];
      assert containers == containers[..n] + [containers[n]];
      m
  }

  /** registry.py:62-78: no reason against the deployment. */
  predicate Fits(profile: Profile, row: Row) {
    && row.body.DeploymentBody?
    && row.namespace == Some(profile.namespace) && row.body.deploymentName == profile.deployment
    && row.uid.Some? && row.body.generation.Some?
    && profile.versionLabel in row.body.labels && row.body.labels[profile.versionLabel] == profile.version
    && Images(row.body.containers) == profile.images && |profile.images| == |row.body.containers|
    && (forall k <- profile.selector :: k in row.body.labels && row.body.labels[k] == profile.selector[k])
  }

  predicate IsDeployment(profile: Profile, r: Row) {
    r.kind == DeploymentRow && r.name == profile.deployment
  }

  /** registry.py:112-133 */
  function MatchedProfile(s: State): (p: Option<Profile>)
    ensures p.Some? ==> p.value.namespace == s.namespace && p.value.service == s.service
  {
    if s.profile.None? || !s.profile.value.matched then None
    else
      var snapshot := s.profile.value;
      var profile := snapshot.profile;
      var rows := Select(s.evidence, (r: Row) => IsDeployment(profile, r));
      if profile.namespace == s.namespace && profile.service == s.service && snapshot.digest == profile.digest
         && |rows| == 1 && Fits(profile, rows[0])
         && snapshot.deploymentUid == rows[0].uid && snapshot.generation == rows[0].body.generation
      then Some(profile) else None
  }

  // ----- facts (diagnosis_policy.py) ---------------------------------------------------------

  datatype ReadinessStatus = Matched | Drifted | ReadinessUnknown

  datatype Readiness = Readiness(status: ReadinessStatus, drift: bool, patchable: bool)

  /** diagnosis_policy.py:48-79 */
  function ReadinessOf(view: ProbeView, expected: ProbeContract): (r: Readiness) {
    match view
    case FieldMissing => Readiness(ReadinessUnknown, false, false)
    case NoProbe => Readiness(Drifted, true, false)
    case Incomplete => Readiness(ReadinessUnknown, false, false)
    case Probe(path, port, scheme) =>
      if path == "" then Readiness(ReadinessUnknown, false, false)
      else
        var sameScheme := (if scheme.Some? && scheme.value != "" then scheme.value else "HTTP") == expected.scheme;
        var sameAddress := path == expected.path && port == expected.port;
        var same := sameScheme && sameAddress;
        Readiness(if same then Matched else Drifted, !same, sameScheme && !sameAddress)
  }

  datatype Facts = Facts(matched: bool, resource: ResourceStatus, business: CheckStatus, selectorDrift: bool,
                         readiness: Readiness, configurationIds: seq<string>, businessIds: seq<string>,
                         resourceIds: seq<string>, faults: set<Category>, complete: bool, logIds: seq<string>)

  const NO_FACTS := Facts(false, ResourceUnknown, CheckUnknown, false, Readiness(ReadinessUnknown, false, false), [],
                          [], [], {}, false, [])

  function FindContainer(containers: seq<Container>, name: string): (c: Option<Container>)
    ensures c.Some? ==> c.value in containers && c.value.name == name
    ensures c.None? ==> forall i :: 0 <= i < |containers| ==> containers[i].name != name
  {
    if containers == [] then None
    else if containers[0].name == name then Some(containers[0]) else FindContainer(containers[1..], name)
  }

  function IdsOf(rows: seq<Row>): (ids: seq<string>)
    ensures |ids| == |rows| && forall i :: 0 <= i < |rows| ==> ids[i] == rows[i].id
  {
    seq(|rows|, i requires 0 <= i < |rows| => rows[i].id)
  }

  predicate Owned(s: State, profile: Profile, name: string) {
    exists i | 0 <= i < |s.evidence| ::
      var r := s.evidence[i];
      !r.failed && r.kind == OwnerChain && r.name == name && r.body.OwnerBody?
          && r.body.deployment == profile.deployment && r.body.chainNamespace == s.namespace
  }

  predicate OwnedPod(s: State, profile: Profile, r: Row) {
    !r.failed && r.kind == PodStatus && r.body.PodBody? && r.namespace == Some(s.namespace) && Owned(s, profile, r.name)
  }

  predicate OwnEndpoints(s: State, r: Row) {
    !r.failed && r.kind == EndpointSlice && r.body.EndpointBody? && r.namespace == Some(s.namespace)
        && r.body.service == s.service
  }

  predicate OwnLogs(s: State, profile: Profile, r: Row) {
    !r.failed && r.kind == PodLogs && r.body.LogBody? && r.previous == Some(false) && r.body.hasContent
        && Owned(s, profile, r.name)
  }

  predicate IsService(s: State, r: Row) {
    !r.failed && r.kind == ServiceRow && r.name == s.service
  }

  /** The one usable row of the requested Service. */
  function ServiceOf(s: State): (r: Option<Row>)
    ensures r.Some? ==> r.value in s.evidence && IsService(s, r.value)
  {
    var rows := Select(s.evidence, (r: Row) => IsService(s, r));
    if |rows| == 1 then assert rows[0] in rows; Some(rows[0]) else None
  }

  predicate ServiceValid(s: State, r: Option<Row>) {
    r.Some? && r.value.namespace == Some(s.namespace) && r.value.body.ServiceBody?
        && r.value.body.serviceName == s.service && r.value.body.selector.Some?
  }

  function FaultOf(c: PodContainer): (f: Option<Category>) {
    match c
    case OtherState => None
    case Waiting(reason) => NamedFault(reason)
    case Terminated(reason) => NamedFault(reason)
  }

  function NamedFault(reason: string): (f: Option<Category>) {
    if reason == "CrashLoopBackOff" then Some(CrashLoop)
    else if reason == "ImagePullBackOff" || reason == "ErrImagePull" then Some(ImagePull)
    else if reason == "OOMKilled" then Some(OomKilled) else None
  }

  function FaultsOf(pods: seq<Row>): (f: set<Category>) {
    set p, c | p in pods && p.body.PodBody? && c in p.body.podContainers && FaultOf(c).Some? :: FaultOf(c).value
  }

  function TargetPorts(ports: seq<ServicePort>, wanted: PortRef): (r: seq<ServicePort>) {
    if ports == [] then []
    else
      var n := |ports| - 1;
      var fits := ports[n].tcp
          && (match wanted case PortNumber(k) => ports[n].number == k case PortName(name) => ports[n].name == name);
      if fits then TargetPorts(ports[..n], wanted) + [ports[n]] else TargetPorts(ports[..n], wanted)
  }

  /** business_checks/collector.py:20-32; none where the source raises. */
  function BuildTarget(profile: Profile, check: CheckContract, service: Option<Row>): (t: Option<CheckTarget>) {
    if service.None? || service.value.namespace != Some(profile.namespace) || !service.value.body.ServiceBody?
       || service.value.body.serviceName != profile.service || service.value.body.clusterIp.None? then None
    else
      var ports := TargetPorts(service.value.body.ports, check.port);
      if |ports| != 1 then None
      else Some(CheckTarget(profile.digest, service.value.body.clusterIp.value, ports[0].number, check.id))
  }

  predicate IsCheck(check: CheckContract, r: Row) {
    !r.failed && r.kind == BusinessCheck && r.body.CheckBody? && r.body.checkId == check.id
  }

  /** diagnosis_policy.py:238-263: the id of the one result of a check, and what it is worth. */
  function CheckFact(s: State, profile: Profile, check: CheckContract): (f: (Option<string>, CheckStatus))
    ensures f.0.Some? ==> f.0.value in Ids(s.evidence)
  {
    var rows := Select(s.evidence, (r: Row) => IsCheck(check, r));
    if |rows| != 1 then (None, CheckUnknown)
    else
      assert rows[0] in rows;
      IdIn(s.evidence, rows[0]);
      var body, target := rows[0].body, BuildTarget(profile, check, ServiceOf(s));
      var status := if body.bound && target.Some? && body.target == target then body.status else CheckUnknown;
      (Some(rows[0].id),
       if status == CheckPassed
           && !(body.httpStatus == Some(check.expectedStatus) && body.contentMatches == Some(true) && body.errorFree)
       then CheckUnknown else status)
  }

  lemma IdIn(rows: seq<Row>, r: Row)
    requires r in rows
    ensures r.id in Ids(rows)
  {
  }

  function BusinessIds(s: State, profile: Profile, checks: seq<CheckContract>): (ids: seq<string>)
    ensures forall id :: id in ids ==> id in Ids(s.evidence)
  {
    if checks == [] then []
    else
      var n := |checks| - 1;
      var f := CheckFact(s, profile, checks[n]);
      if f.0.Some? then BusinessIds(s, profile, checks[..n]) + [f.0.value] else BusinessIds(s, profile, checks[..n])
  }

  /** Any trusted failure fails; only all registered checks together pass. */
  function BusinessOf(s: State, profile: Profile): (b: CheckStatus) {
    if exists i | 0 <= i < |profile.checks| :: CheckFact(s, profile, profile.checks[i]).1 == CheckFailed
    then CheckFailed
    else if profile.checks != []
            && forall i | 0 <= i < |profile.checks| :: CheckFact(s, profile, profile.checks[i]).1 == CheckPassed
    then CheckPassed
    else CheckUnknown
  }

  predicate Serving(s: State, profile: Profile, slices: seq<Row>) {
    exists i | 0 <= i < |slices| :: slices[i].body.EndpointBody?
      && exists j | 0 <= j < |slices[i].body.endpoints| ::
            slices[i].body.endpoints[j].ready && Owned(s, profile, slices[i].body.endpoints[j].targetName)
  }

  /** diagnosis_policy.py:200-229 */
  function ResourceOf(s: State, profile: Profile, dep: Row, pods: seq<Row>, slices: seq<Row>, valid: bool,
                      selectorDrift: bool, readiness: Readiness)
    : (r: ResourceStatus)
    requires dep.body.DeploymentBody?
    requires forall p :: p in pods ==> p.body.PodBody?
  {
    var d := dep.body;
    if d.desired.None? || d.desired.value < 0 then ResourceUnknown
    else if d.desired.value == 0 || (profile.replicas.Some? && d.desired.value != profile.replicas.value)
            || d.ready < d.desired.value || d.available < d.desired.value || selectorDrift || readiness.drift
            || exists i | 0 <= i < |pods| :: pods[i].body.podReady == Some(false) then NotReady
    else if valid && readiness.status == Matched && |pods| >= d.desired.value
            && (forall i | 0 <= i < |pods| :: pods[i].body.podReady == Some(true)) && Serving(s, profile, slices)
    then Ready
    else ResourceUnknown
  }

  /** The usable row of the registered deployment; indexing fails when its only row carries an error. */
  function DeploymentOf(s: State, profile: Profile): (r: Option<Row>)
    ensures r.Some? ==> r.value in s.evidence && !r.value.failed && IsDeployment(profile, r.value)
  {
    var rows := Select(s.evidence, (r: Row) => !r.failed && IsDeployment(profile, r));
    if rows == [] then None else assert rows[0] in rows; Some(rows[0])
  }

  /** diagnosis_policy.py:82-269; none where the source fails with an index error. */
  function FactsOf(s: State): (f: Option<Facts>) {
    var matched := MatchedProfile(s);
    if matched.None? then Some(NO_FACTS)
    else
      var profile := matched.value;
      var dep := DeploymentOf(s, profile);
      if dep.None? || !dep.value.body.DeploymentBody? then None else Some(MatchedFacts(s, profile, dep.value))
  }

  function MatchedFacts(s: State, profile: Profile, dep: Row): (f: Facts)
    requires dep.body.DeploymentBody?
  {
    var service := ServiceOf(s);
    var valid := ServiceValid(s, service);
    var selectorDrift := valid && service.value.body.selector.value != profile.selector;
    var container := FindContainer(dep.body.containers, profile.container);
    var view := if container.Some? then container.value.probe else FieldMissing;
    var readiness := ReadinessOf(view, profile.probe);
    var pods := Select(s.evidence, (r: Row) => OwnedPod(s, profile, r));
    var slices := Select(s.evidence, (r: Row) => OwnEndpoints(s, r));
    Facts(true,
          ResourceOf(s, profile, dep, pods, slices, valid, selectorDrift, readiness),
          BusinessOf(s, profile), selectorDrift, readiness,
          (if valid then [service.value.id] else []) + [dep.id],
          BusinessIds(s, profile, profile.checks),
          [dep.id] + IdsOf(pods) + IdsOf(slices),
          FaultsOf(pods),
          valid && container.Some? && view.Probe? && view.path != "",
          IdsOf(Select(s.evidence, (r: Row) => OwnLogs(s, profile, r))))
  }

  // ----- the gates ---------------------------------------------------------------------------

  /** diagnosis_policy.py:16-26 */
  predicate DomainFits(c: Category, d: Domain) {
    match c
    case SelectorMismatch => d == DeploymentConfiguration
    case ReadinessProbeError => d == DeploymentConfiguration
    case ApplicationError => d == ApplicationRuntime
    case DependencyError => d == Dependency
    case UnknownCause => d == InsufficientEvidence
    case NoFault => d == NoDomain
    case CrashLoop => d == ApplicationRuntime
    case OomKilled => d == ApplicationRuntime
    case ImagePull => d == DeploymentConfiguration || d == Dependency || d == InsufficientEvidence
  }

  predicate Configurational(c: Category) {
    c == SelectorMismatch || c == ReadinessProbeError
  }

  predicate Drift(f: Facts, c: Category) {
    if c == SelectorMismatch then f.selectorDrift else c == ReadinessProbeError && f.readiness.drift
  }

  predicate Grounded(h: Hypothesis, f: Facts) {
    h.supported && SetOf(f.configurationIds) <= SetOf(h.evidenceIds)
  }

  predicate SomeGrounded(a: Assessment, f: Facts) {
    exists i | 0 <= i < |a.hypotheses| :: Grounded(a.hypotheses[i], f)
  }

  /** diagnosis_policy.py:272-427 */
  predicate AssessmentValid(d: Report, f: Facts) {
    && d.assessment.Some?
    && var a := d.assessment.value;
       && a.resource == f.resource && a.business == f.business
       && (forall i | 0 <= i < |a.symptoms| :: SetOf(a.symptoms[i].evidenceIds) <= SetOf(d.evidenceIds))
       && (forall i | 0 <= i < |a.hypotheses| :: SetOf(a.hypotheses[i].evidenceIds) <= SetOf(d.evidenceIds))
       && SetOf(f.businessIds) <= SetOf(d.evidenceIds)
       && DomainFits(d.category, a.domain)
       && (Configurational(d.category) ==>
             && Drift(f, d.category) && SetOf(f.configurationIds) <= SetOf(d.evidenceIds)
             && forall i | 0 <= i < |a.hypotheses| ::
                  a.hypotheses[i].supported ==> SetOf(f.configurationIds) <= SetOf(a.hypotheses[i].evidenceIds))
       && (d.category == NoFault ==>
             && f.resource == Ready && f.business == CheckPassed && !f.readiness.drift && f.faults == {}
             && SetOf(f.resourceIds) <= SetOf(d.evidenceIds) && a.hypotheses == [])
       && (d.category != NoFault ==>
             || (Configurational(d.category) && f.complete && Drift(f, d.category) && f.business != CheckFailed
                 && f.faults == {} && SomeGrounded(a, f))
             || (a.missing != [] && a.next != []))
       && (d.category == UnknownCause ==> d.confidence <= 0.6)
       && (d.category == ApplicationError ==> f.business == CheckFailed || f.faults != {})
       && (d.category == CrashLoop || d.category == ImagePull || d.category == OomKilled ==> d.category in f.faults)
       && (d.category == DependencyError ==>
             && (f.resource == NotReady || f.business == CheckFailed)
             && SetOf(f.logIds) * SetOf(d.evidenceIds) != {} && a.hypotheses != [])
       && (!Configurational(d.category) ==> forall i | 0 <= i < |a.hypotheses| :: !a.hypotheses[i].supported)
  }

  function Available(s: State): (ids: set<string>) {
    Ids(s.evidence) - {""}
  }

  /** Every evidence id the saved diagnosis contains anywhere. */
  function AllMentioned(d: Report): (ids: set<string>) {
    d.mentioned + SetOf(d.evidenceIds)
    + (if d.assessment.None? then {} else
         (set i, x | 0 <= i < |d.assessment.value.symptoms| && x in d.assessment.value.symptoms[i].evidenceIds :: x)
         + (set i, x | 0 <= i < |d.assessment.value.hypotheses|
            && x in d.assessment.value.hypotheses[i].evidenceIds :: x))
  }

  /** agent/nodes.py:412-480 */
  predicate ReferencesValid(d: Report, s: State) {
    && SetOf(d.evidenceIds) <= Available(s)
    && SetOf(d.runbookIds) <= s.runbooks - {""}
    && AllMentioned(d) <= SetOf(d.evidenceIds)
    && (d.category == UnknownCause || d.category == NoFault || d.category == ApplicationError
        || d.category == DependencyError || d.runbookIds != [])
  }

  /** The bounds of the report's schema. */
  predicate WellFormedReport(d: Report) {
    && d.evidenceIds != [] && 0.0 <= d.confidence <= 1.0
    && (d.assessment.Some? ==>
          && (forall i | 0 <= i < |d.assessment.value.symptoms| :: d.assessment.value.symptoms[i].evidenceIds != [])
          && (forall i | 0 <= i < |d.assessment.value.hypotheses| ::
                d.assessment.value.hypotheses[i].evidenceIds != []))
  }

  // ----- the conservative fallback -----------------------------------------------------------

  function Cited(ids: seq<string>): (f: seq<Finding>) {
    if ids == [] then [] else [Finding(if |ids| > 20 then ids[..20] else ids)]
  }

  /** production.py:63-105. Its fixed texts mention no evidence id. */
  function Conservative(s: State, f: Facts): (d: Report) {
    Report(UnknownCause, 0.0, IdsOf(s.evidence), [],
           Some(Assessment(InsufficientEvidence, Cited(f.resourceIds) + Cited(f.businessIds), [],
                           ["missing evidence"], ["next round"], f.resource, f.business)), {})
  }

  predicate Accepted(d: Report, s: State, f: Facts) {
    WellFormedReport(d) && ReferencesValid(d, s) && AssessmentValid(d, f)
  }

  lemma EvidenceIds(rows: seq<Row>)
    ensures SetOf(IdsOf(rows)) == Ids(rows)
  {
    forall id | id in Ids(rows) ensures id in IdsOf(rows) {
      var k :| 0 <= k < |rows| && rows[k].id == id;
      assert IdsOf(rows)[k] == id;
    }
  }

  lemma SelectedIds(s: State, keep: Row -> bool)
    ensures SetOf(IdsOf(Select(s.evidence, keep))) <= Ids(s.evidence)
  {
    var rows := Select(s.evidence, keep);
    forall id | id in IdsOf(rows) ensures id in Ids(s.evidence) {
      var k :| 0 <= k < |rows| && IdsOf(rows)[k] == id;
      assert rows[k] in rows;
      IdIn(s.evidence, rows[k]);
    }
  }

  /** The cited facts are about collected evidence. */
  lemma FactIdsCollected(s: State)
    requires FactsOf(s).Some?
    ensures SetOf(FactsOf(s).value.resourceIds) <= Ids(s.evidence)
            && SetOf(FactsOf(s).value.businessIds) <= Ids(s.evidence)
  {
    if MatchedProfile(s).Some? {
      var profile := MatchedProfile(s).value;
      var dep := DeploymentOf(s, profile).value;
      IdIn(s.evidence, dep);
      SelectedIds(s, (r: Row) => OwnedPod(s, profile, r));
      SelectedIds(s, (r: Row) => OwnEndpoints(s, r));
    }
  }

  lemma CitedWithin(ids: seq<string>, all: set<string>)
    requires SetOf(ids) <= all
    ensures forall i :: 0 <= i < |Cited(ids)| ==>
              SetOf(Cited(ids)[i].evidenceIds) <= all && Cited(ids)[i].evidenceIds != []
  {
  }

  ghost predicate FindingsWithin(symptoms: seq<Finding>, all: set<string>) {
    forall i :: 0 <= i < |symptoms| ==> SetOf(symptoms[i].evidenceIds) <= all && symptoms[i].evidenceIds != []
  }

  lemma SymptomsWithin(s: State, f: Facts)
    requires SetOf(f.resourceIds) <= Ids(s.evidence) && SetOf(f.businessIds) <= Ids(s.evidence)
    ensures FindingsWithin(Conservative(s, f).assessment.value.symptoms, Ids(s.evidence))
  {
    CitedWithin(f.resourceIds, Ids(s.evidence));
    CitedWithin(f.businessIds, Ids(s.evidence));
  }

  lemma MentionsWithin(d: Report, all: set<string>)
    requires d.assessment.Some? && FindingsWithin(d.assessment.value.symptoms, all)
             && d.assessment.value.hypotheses == []
    requires d.mentioned <= all && SetOf(d.evidenceIds) <= all
    ensures AllMentioned(d) <= all
  {
    var symptoms := d.assessment.value.symptoms;
    forall i, x | 0 <= i < |symptoms|
        && x in symptoms[i].evidenceIds ensures x in all { assert x in SetOf(symptoms[i].evidenceIds); }
  }

  lemma ConservativeReferences(s: State, f: Facts)
    requires SetOf(f.resourceIds) <= Ids(s.evidence) && SetOf(f.businessIds) <= Ids(s.evidence)
    ensures ReferencesValid(Conservative(s, f), s) <==> "" !in Ids(s.evidence)
    ensures WellFormedReport(Conservative(s, f)) <==> s.evidence != []
  {
    EvidenceIds(s.evidence);
    SymptomsWithin(s, f);
    MentionsWithin(Conservative(s, f), Ids(s.evidence));
  }

  lemma ConservativeAssessment(s: State, f: Facts)
    requires SetOf(f.resourceIds) <= Ids(s.evidence) && SetOf(f.businessIds) <= Ids(s.evidence)
    ensures AssessmentValid(Conservative(s, f), f)
  {
    EvidenceIds(s.evidence);
    SymptomsWithin(s, f);
  }

  /** The conservative report is accepted exactly when there is evidence and every row has an id. */
  lemma ConservativeAccepted(s: State)
    requires FactsOf(s).Some?
    ensures Accepted(Conservative(s, FactsOf(s).value), s, FactsOf(s).value) <==>
            s.evidence != [] && "" !in Ids(s.evidence)
  {
    FactIdsCollected(s);
    ConservativeReferences(s, FactsOf(s).value);
    ConservativeAssessment(s, FactsOf(s).value);
  }

  /** Computing the facts fails exactly when the profile matches a deployment row that carries an error. */
  lemma FactsFailExactly(s: State)
    ensures FactsOf(s).None? <==>
              && MatchedProfile(s).Some?
              && forall r :: r in s.evidence && IsDeployment(MatchedProfile(s).value, r) ==> r.failed
  {
    if MatchedProfile(s).Some? {
      var profile := MatchedProfile(s).value;
      var rows := Select(s.evidence, (r: Row) => IsDeployment(profile, r));
      assert rows[0] in rows;
      var usable := Select(s.evidence, (r: Row) => !r.failed && IsDeployment(profile, r));
      if usable != [] {
        assert usable[0] in usable && usable[0] in rows;
        var k :| 0 <= k < |rows| && rows[k] == usable[0];
      }
      forall r | r in s.evidence && IsDeployment(profile, r) && !r.failed ensures usable != [] { assert r in usable; }
    }
  }

  /** Rows of the baseline and of tool readings always let the facts be computed. */
  lemma CollectedFactsExist(s: State)
    requires forall r :: r in s.evidence ==> Collection.Produced(r)
    ensures FactsOf(s).Some?
  {
    FactsFailExactly(s);
    if MatchedProfile(s).Some? {
      var profile := MatchedProfile(s).value;
      var rows := Select(s.evidence, (r: Row) => IsDeployment(profile, r));
      assert rows[0] in rows;
    }
  }

  /** From a non-empty baseline, after any observations, the fallback report is accepted by its schema and by
      both validators. */
  lemma FallbackAccepted(s: State, baseline: seq<Row>, observations: seq<Row>)
    requires baseline != [] && s.evidence == Active(baseline, observations)
    requires forall r :: r in baseline || r in observations ==> Collection.Produced(r)
    ensures FactsOf(s).Some? && Accepted(Conservative(s, FactsOf(s).value), s, FactsOf(s).value)
  {
    NeverEmpty(baseline, observations);
    forall r | r in s.evidence ensures Collection.Produced(r) { ActiveAreCollected(baseline, observations, r); }
    CollectedFactsExist(s);
    forall k | 0 <= k < |s.evidence| ensures s.evidence[k].id != "" { assert s.evidence[k] in s.evidence; }
    ConservativeAccepted(s);
  }

  /** For rows as such the hypothesis is needed: a single deployment row that fits its profile but carries an
      error, which neither producer of rows makes, would leave no facts. */
  lemma FailedDeploymentHasNoFacts()
    ensures exists s: State :: |s.evidence| == 1 && s.evidence[0].id != "" && FactsOf(s).None?
  {
    var profile := Profile(0, "n", "s", "d", "c", "version", "1", map["c" := "i"], map["version" := "1"], None,
                           ProbeContract("/", PortNumber(80), "HTTP"), []);
    var containers := [Container("c", "i", NoProbe)];
    var body := DeploymentBody("d", Some(1), map["version" := "1"], containers, Some(1), 1, 1);
    var row := Row("ev", DeploymentRow, "d", true, Some("n"), Some("u"), None, None, None, [], None, body);
    var s := State("n", "s", [row], Some(ProfileSnapshot(true, profile, 0, Some("u"), Some(1))), {}, None);
    assert containers[..0] == [] && Images([]) == map[];
    assert Images(containers) == map["c" := "i"];
    assert Fits(profile, row) && IsDeployment(profile, row);
    var rows := Select(s.evidence, (r: Row) => IsDeployment(profile, r));
    assert row in s.evidence && row in rows;
    assert |rows| == 1 && rows[0] == row;
    FactsFailExactly(s);
    assert FactsOf(s).None?;
    assert s.evidence[0].id != "";
  }
}
