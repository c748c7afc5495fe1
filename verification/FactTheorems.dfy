/** What the computed facts say about the evidence itself, in both directions. */
module FactTheorems {
  import opened Wrappers
  import opened Evidence
  import opened Diagnosis

  // ----- single rows -------------------------------------------------------------------------

  /** Row `k` is the only one to keep. */
  ghost predicate OnlyAt(rows: seq<Row>, keep: Row -> bool, k: int) {
    0 <= k < |rows| && keep(rows[k]) && forall i :: 0 <= i < |rows| && i != k ==> !keep(rows[i])
  }

  lemma {:induction false} SelectNone(rows: seq<Row>, keep: Row -> bool)
    requires forall i :: 0 <= i < |rows| ==> !keep(rows[i])
    ensures Select(rows, keep) == []
  {
    if rows != [] { SelectNone(rows[..|rows| - 1], keep); }
  }

  lemma {:induction false} SelectOnly(rows: seq<Row>, keep: Row -> bool, k: int)
    requires OnlyAt(rows, keep, k)
    ensures Select(rows, keep) == [rows[k]]
  {
    var n := |rows| - 1;
    if k == n { SelectNone(rows[..n], keep); } else { SelectOnly(rows[..n], keep, k); }
  }

  lemma {:induction false} OnlySelected(rows: seq<Row>, keep: Row -> bool) returns (k: int)
    requires |Select(rows, keep)| == 1
    ensures OnlyAt(rows, keep, k) && Select(rows, keep)[0] == rows[k]
  {
    var n := |rows| - 1;
    if keep(rows[n]) {
      k := n;
      assert Select(rows[..n], keep) == [];
      forall i | 0 <= i < n ensures !keep(rows[i]) { assert rows[i] in rows[..n]; }
    } else {
      k := OnlySelected(rows[..n], keep);
    }
  }

  /** The one row of its kind: usable, of that name, at position `k`. */
  ghost predicate OnlyUsable(rows: seq<Row>, kind: Kind, name: string, k: int) {
    && 0 <= k < |rows| && rows[k].kind == kind && rows[k].name == name && !rows[k].failed
    && forall i :: 0 <= i < |rows| && i != k ==> rows[i].kind != kind || rows[i].name != name || rows[i].failed
  }

  lemma ServiceOfExactly(s: State, r: Row)
    ensures ServiceOf(s) == Some(r) <==>
              exists k :: OnlyUsable(s.evidence, ServiceRow, s.service, k) && s.evidence[k] == r
  {
    var keep := (r: Row) => IsService(s, r);
    if ServiceOf(s) == Some(r) {
      var k := OnlySelected(s.evidence, keep);
      assert OnlyUsable(s.evidence, ServiceRow, s.service, k);
    }
    forall k | OnlyUsable(s.evidence, ServiceRow, s.service, k) ensures ServiceOf(s) == Some(s.evidence[k]) {
      assert OnlyAt(s.evidence, keep, k);
      SelectOnly(s.evidence, keep, k);
    }
  }

  /** The only deployment row of the profile, as the facts see it. */
  lemma DeploymentRowUnique(s: State, profile: Profile, r: Row)
    requires MatchedProfile(s) == Some(profile) && DeploymentOf(s, profile).Some?
    requires r in s.evidence && IsDeployment(profile, r)
    ensures r == DeploymentOf(s, profile).value && r.body.DeploymentBody?
  {
    var rows := Select(s.evidence, (r: Row) => IsDeployment(profile, r));
    assert r in rows && DeploymentOf(s, profile).value in rows;
  }

  // ----- pods of the registered deployment ---------------------------------------------------

  /** The evidence has a usable ownership chain from the pod to the registered deployment. */
  ghost predicate PartOf(s: State, profile: Profile, pod: string) {
    exists r :: r in s.evidence && !r.failed && r.kind == OwnerChain && r.name == pod && r.body.OwnerBody?
                && r.body.deployment == profile.deployment && r.body.chainNamespace == s.namespace
  }

  /** A usable row about a pod of the registered deployment, in the namespace of the request. */
  ghost predicate PodRow(s: State, profile: Profile, r: Row) {
    r in s.evidence && !r.failed && r.kind == PodStatus && r.body.PodBody? && r.namespace == Some(s.namespace)
        && PartOf(s, profile, r.name)
  }

  /** A container of such a pod waits or was terminated for the reason. */
  ghost predicate Stopped(s: State, profile: Profile, reason: string) {
    exists r :: PodRow(s, profile, r) && (Waiting(reason) in r.body.podContainers
                                          || Terminated(reason) in r.body.podContainers)
  }

  /** A container of such a pod is down for one of the four reasons that name a fault. */
  ghost predicate Faulty(s: State, profile: Profile) {
    exists reason :: Stopped(s, profile, reason)
                     && reason in {"CrashLoopBackOff", "ImagePullBackOff", "ErrImagePull", "OOMKilled"}
  }

  lemma OwnedMeans(s: State, profile: Profile, pod: string)
    ensures Owned(s, profile, pod) <==> PartOf(s, profile, pod)
  {
    if PartOf(s, profile, pod) {
      var r :| r in s.evidence && !r.failed && r.kind == OwnerChain && r.name == pod && r.body.OwnerBody?
               && r.body.deployment == profile.deployment && r.body.chainNamespace == s.namespace;
      var i :| 0 <= i < |s.evidence| && s.evidence[i] == r;
    }
  }

  function PodsOf(s: State, profile: Profile): (pods: seq<Row>) {
    Select(s.evidence, (r: Row) => OwnedPod(s, profile, r))
  }

  lemma PodsMean(s: State, profile: Profile, r: Row)
    ensures r in PodsOf(s, profile) <==> PodRow(s, profile, r)
  {
    OwnedMeans(s, profile, r.name);
  }

  lemma ReasonReported(s: State, profile: Profile, reason: string, c: Category)
    requires Stopped(s, profile, reason)
    requires NamedFault(reason) == Some(c)
    ensures c in FaultsOf(PodsOf(s, profile))
  {
    var r :| PodRow(s, profile, r) && (Waiting(reason) in r.body.podContainers
                                       || Terminated(reason) in r.body.podContainers);
    PodsMean(s, profile, r);
    var container := if Waiting(reason) in r.body.podContainers then Waiting(reason) else Terminated(reason);
    assert FaultOf(container) == Some(c);
  }

  lemma ReportedReason(s: State, profile: Profile, c: Category) returns (reason: string)
    requires c in FaultsOf(PodsOf(s, profile))
    ensures Stopped(s, profile, reason) && NamedFault(reason) == Some(c)
  {
    var r, container :| r in PodsOf(s, profile) && r.body.PodBody? && container in r.body.podContainers
                        && FaultOf(container) == Some(c);
    PodsMean(s, profile, r);
    reason := if container.Waiting? then container.reason else container.reason;
  }

  lemma FaultNames(reason: string)
    ensures NamedFault(reason) == Some(CrashLoop) <==> reason == "CrashLoopBackOff"
    ensures NamedFault(reason) == Some(ImagePull) <==> reason == "ImagePullBackOff" || reason == "ErrImagePull"
    ensures NamedFault(reason) == Some(OomKilled) <==> reason == "OOMKilled"
    ensures NamedFault(reason).Some? ==> NamedFault(reason).value in {CrashLoop, ImagePull, OomKilled}
  {
  }

  lemma FaultsFact(s: State, profile: Profile)
    requires MatchedProfile(s) == Some(profile) && FactsOf(s).Some?
    ensures FactsOf(s).value.faults == FaultsOf(PodsOf(s, profile))
  {
  }

  /** A runtime fault is reported exactly when a container of a pod of the registered deployment is down for a reason
      of that category. */
  lemma FaultsExactly(s: State, profile: Profile)
    requires MatchedProfile(s) == Some(profile) && FactsOf(s).Some?
    ensures var faults := FactsOf(s).value.faults;
            && (CrashLoop in faults <==> Stopped(s, profile, "CrashLoopBackOff"))
            && (ImagePull in faults <==>
                  Stopped(s, profile, "ImagePullBackOff") || Stopped(s, profile, "ErrImagePull"))
            && (OomKilled in faults <==> Stopped(s, profile, "OOMKilled"))
            && faults <= {CrashLoop, ImagePull, OomKilled}
            && (faults == {} <==> !Faulty(s, profile))
  {
    hide FactsOf, MatchedProfile, FaultsOf, NamedFault, Stopped, PodsOf;
    FaultsFact(s, profile);
    var faults := FactsOf(s).value.faults;
    FaultNames("CrashLoopBackOff");
    FaultNames("ImagePullBackOff");
    FaultNames("ErrImagePull");
    FaultNames("OOMKilled");
    forall reason | Stopped(s, profile, reason) && NamedFault(reason).Some?
      ensures NamedFault(reason).value in faults
    {
      ReasonReported(s, profile, reason, NamedFault(reason).value);
    }
    forall c | c in faults
      ensures exists reason :: Stopped(s, profile, reason) && NamedFault(reason) == Some(c)
      ensures c in {CrashLoop, ImagePull, OomKilled} && Faulty(s, profile)
    {
      var reason := ReportedReason(s, profile, c);
      FaultNames(reason);
    }
    forall c, reason | c in faults && Stopped(s, profile, reason) && NamedFault(reason) == Some(c)
      ensures c == CrashLoop ==> reason == "CrashLoopBackOff"
      ensures c == ImagePull ==> reason == "ImagePullBackOff" || reason == "ErrImagePull"
      ensures c == OomKilled ==> reason == "OOMKilled"
    {
      FaultNames(reason);
    }
  }

  // ----- the registered business checks ------------------------------------------------------

  /** A TCP port of the number or name the check is registered for. */
  predicate Serves(port: ServicePort, wanted: PortRef) {
    port.tcp && if wanted.PortNumber? then port.number == wanted.number else port.name == wanted.name
  }

  /** Port `j` is the only one that serves the check. */
  ghost predicate OnlyPort(ports: seq<ServicePort>, wanted: PortRef, j: int) {
    0 <= j < |ports| && Serves(ports[j], wanted) && forall i :: 0 <= i < |ports| && i != j ==> !Serves(ports[i], wanted)
  }

  lemma {:induction false} NoPort(ports: seq<ServicePort>, wanted: PortRef)
    requires forall i :: 0 <= i < |ports| ==> !Serves(ports[i], wanted)
    ensures TargetPorts(ports, wanted) == []
  {
    if ports != [] { NoPort(ports[..|ports| - 1], wanted); }
  }

  lemma {:induction false} PortFound(ports: seq<ServicePort>, wanted: PortRef, j: int)
    requires OnlyPort(ports, wanted, j)
    ensures TargetPorts(ports, wanted) == [ports[j]]
  {
    var n := |ports| - 1;
    if j == n { NoPort(ports[..n], wanted); } else { PortFound(ports[..n], wanted, j); }
  }

  lemma {:induction false} FoundPort(ports: seq<ServicePort>, wanted: PortRef) returns (j: int)
    requires |TargetPorts(ports, wanted)| == 1
    ensures OnlyPort(ports, wanted, j) && TargetPorts(ports, wanted)[0] == ports[j]
  {
    var n := |ports| - 1;
    if Serves(ports[n], wanted) {
      j := n;
      forall i | 0 <= i < n ensures !Serves(ports[i], wanted) { PortMissing(ports[..n], wanted, i); }
    } else {
      j := FoundPort(ports[..n], wanted);
    }
  }

  lemma {:induction false} PortMissing(ports: seq<ServicePort>, wanted: PortRef, i: nat)
    requires TargetPorts(ports, wanted) == [] && i < |ports|
    ensures !Serves(ports[i], wanted)
  {
    if i < |ports| - 1 { PortMissing(ports[..|ports| - 1], wanted, i); }
  }

  /** The check belongs to this target: the cluster address of the one usable row of the registered Service and the
      one port that serves the check. */
  ghost predicate Addresses(profile: Profile, check: CheckContract, service: Row, target: CheckTarget) {
    && service.namespace == Some(profile.namespace) && service.body.ServiceBody?
    && service.body.serviceName == profile.service && service.body.clusterIp == Some(target.clusterIp)
    && target.profile == profile.digest && target.check == check.id
    && exists j :: OnlyPort(service.body.ports, check.port, j) && service.body.ports[j].number == target.port
  }

  lemma TargetExactly(profile: Profile, check: CheckContract, service: Option<Row>, target: CheckTarget)
    ensures BuildTarget(profile, check, service) == Some(target) <==>
              service.Some? && Addresses(profile, check, service.value, target)
  {
    if BuildTarget(profile, check, service) == Some(target) {
      var j := FoundPort(service.value.body.ports, check.port);
    }
    if service.Some? && Addresses(profile, check, service.value, target) {
      var j :| OnlyPort(service.value.body.ports, check.port, j) && service.value.body.ports[j].number == target.port;
      PortFound(service.value.body.ports, check.port, j);
    }
  }

  predicate ResultRow(check: CheckContract, r: Row) {
    !r.failed && r.kind == BusinessCheck && r.body.CheckBody? && r.body.checkId == check.id
  }

  /** Row `k` is the only usable result of the check, and it was taken from the target the check belongs to. */
  ghost predicate BoundResult(s: State, profile: Profile, check: CheckContract, k: int) {
    && 0 <= k < |s.evidence| && ResultRow(check, s.evidence[k])
    && (forall i :: 0 <= i < |s.evidence| && i != k ==> !ResultRow(check, s.evidence[i]))
    && s.evidence[k].body.bound && s.evidence[k].body.target.Some?
    && exists v :: OnlyUsable(s.evidence, ServiceRow, s.service, v)
                   && Addresses(profile, check, s.evidence[v], s.evidence[k].body.target.value)
  }

  ghost predicate CheckFails(s: State, profile: Profile, check: CheckContract) {
    exists k :: BoundResult(s, profile, check, k) && s.evidence[k].body.status == CheckFailed
  }

  /** The result says so and shows the registered status, the expected content and no error. */
  ghost predicate CheckPasses(s: State, profile: Profile, check: CheckContract) {
    exists k :: BoundResult(s, profile, check, k) && s.evidence[k].body.status == CheckPassed
                && s.evidence[k].body.httpStatus == Some(check.expectedStatus)
                && s.evidence[k].body.contentMatches == Some(true) && s.evidence[k].body.errorFree
  }

  lemma BoundMeans(s: State, profile: Profile, check: CheckContract, k: int)
    requires 0 <= k < |s.evidence| && s.evidence[k].body.CheckBody?
    ensures (var target := BuildTarget(profile, check, ServiceOf(s));
             target.Some? && s.evidence[k].body.target == target) <==>
            s.evidence[k].body.target.Some?
            && exists v :: OnlyUsable(s.evidence, ServiceRow, s.service, v)
                           && Addresses(profile, check, s.evidence[v], s.evidence[k].body.target.value)
  {
    hide Addresses, BuildTarget, ServiceOf;
    var target := s.evidence[k].body.target;
    if target.Some? {
      TargetExactly(profile, check, ServiceOf(s), target.value);
      if ServiceOf(s).Some? { ServiceOfExactly(s, ServiceOf(s).value); }
      forall v | OnlyUsable(s.evidence, ServiceRow, s.service, v) ensures ServiceOf(s) == Some(s.evidence[v]) {
        ServiceOfExactly(s, s.evidence[v]);
      }
    }
  }

  lemma ResultIs(s: State, profile: Profile, check: CheckContract, k: int)
    requires 0 <= k < |s.evidence| && ResultRow(check, s.evidence[k])
    requires forall i :: 0 <= i < |s.evidence| && i != k ==> !ResultRow(check, s.evidence[i])
    ensures CheckFact(s, profile, check).1 == CheckFailed <==>
              BoundResult(s, profile, check, k) && s.evidence[k].body.status == CheckFailed
    ensures CheckFact(s, profile, check).1 == CheckPassed <==>
              && BoundResult(s, profile, check, k) && s.evidence[k].body.status == CheckPassed
              && s.evidence[k].body.httpStatus == Some(check.expectedStatus)
              && s.evidence[k].body.contentMatches == Some(true) && s.evidence[k].body.errorFree
    ensures CheckFact(s, profile, check).0 == Some(s.evidence[k].id)
  {
    var keep := (r: Row) => IsCheck(check, r);
    assert OnlyAt(s.evidence, keep, k);
    SelectOnly(s.evidence, keep, k);
    BoundMeans(s, profile, check, k);
    hide Addresses, BuildTarget, ServiceOf, OnlyUsable;
  }

  lemma ResultExists(s: State, profile: Profile, check: CheckContract) returns (k: int)
    requires CheckFact(s, profile, check).0.Some?
    ensures 0 <= k < |s.evidence| && ResultRow(check, s.evidence[k])
    ensures forall i :: 0 <= i < |s.evidence| && i != k ==> !ResultRow(check, s.evidence[i])
  {
    hide BuildTarget, ServiceOf;
    var keep := (r: Row) => IsCheck(check, r);
    k := OnlySelected(s.evidence, keep);
    forall i | 0 <= i < |s.evidence| && i != k ensures !ResultRow(check, s.evidence[i]) {
      assert !keep(s.evidence[i]);
    }
  }

  lemma NoResult(s: State, profile: Profile, check: CheckContract)
    requires CheckFact(s, profile, check).0.None?
    ensures CheckFact(s, profile, check).1 == CheckUnknown
  {
    hide BuildTarget, ServiceOf;
  }

  lemma CheckExactly(s: State, profile: Profile, check: CheckContract)
    ensures CheckFact(s, profile, check).1 == CheckFailed <==> CheckFails(s, profile, check)
    ensures CheckFact(s, profile, check).1 == CheckPassed <==> CheckPasses(s, profile, check)
  {
    hide CheckFact, BoundResult;
    if CheckFact(s, profile, check).0.Some? {
      var k := ResultExists(s, profile, check);
      ResultIs(s, profile, check, k);
      forall i | BoundResult(s, profile, check, i) ensures i == k { BoundIsResult(s, profile, check, i); }
    } else {
      NoResult(s, profile, check);
      forall i | BoundResult(s, profile, check, i) ensures false {
        BoundIsResult(s, profile, check, i);
        ResultIs(s, profile, check, i);
      }
    }
  }

  lemma BoundIsResult(s: State, profile: Profile, check: CheckContract, k: int)
    requires BoundResult(s, profile, check, k)
    ensures 0 <= k < |s.evidence| && ResultRow(check, s.evidence[k])
    ensures forall i :: 0 <= i < |s.evidence| && i != k ==> !ResultRow(check, s.evidence[i])
  {
  }

  lemma BusinessFact(s: State, profile: Profile)
    requires MatchedProfile(s) == Some(profile) && FactsOf(s).Some?
    ensures FactsOf(s).value.business == BusinessOf(s, profile)
  {
  }

  lemma BusinessFails(s: State, profile: Profile)
    ensures BusinessOf(s, profile) == CheckFailed <==>
              exists check :: check in profile.checks && CheckFails(s, profile, check)
  {
    hide CheckFact, CheckFails, CheckPasses;
    if BusinessOf(s, profile) == CheckFailed {
      var i :| 0 <= i < |profile.checks| && CheckFact(s, profile, profile.checks[i]).1 == CheckFailed;
      CheckExactly(s, profile, profile.checks[i]);
      assert profile.checks[i] in profile.checks;
    }
    forall check | check in profile.checks && CheckFails(s, profile, check)
      ensures BusinessOf(s, profile) == CheckFailed
    {
      var i :| 0 <= i < |profile.checks| && profile.checks[i] == check;
      CheckExactly(s, profile, check);
    }
  }

  lemma BusinessPasses(s: State, profile: Profile)
    ensures BusinessOf(s, profile) == CheckPassed <==>
              profile.checks != [] && forall check :: check in profile.checks ==> CheckPasses(s, profile, check)
  {
    hide CheckFact, CheckFails, CheckPasses;
    forall i | 0 <= i < |profile.checks|
      ensures CheckFact(s, profile, profile.checks[i]).1 == CheckPassed <==> CheckPasses(s, profile, profile.checks[i])
      ensures profile.checks[i] in profile.checks
    {
      CheckExactly(s, profile, profile.checks[i]);
    }
  }

  /** The business is reported as failed exactly when a bound result of a registered check is a failure, and as
      passed exactly when there are checks and each has a bound result that passes. */
  lemma BusinessExactly(s: State, profile: Profile)
    requires MatchedProfile(s) == Some(profile) && FactsOf(s).Some?
    ensures FactsOf(s).value.business == CheckFailed <==>
              exists check :: check in profile.checks && CheckFails(s, profile, check)
    ensures FactsOf(s).value.business == CheckPassed <==>
              profile.checks != [] && forall check :: check in profile.checks ==> CheckPasses(s, profile, check)
  {
    hide FactsOf, MatchedProfile, BusinessOf, CheckFails, CheckPasses;
    BusinessFact(s, profile);
    BusinessFails(s, profile);
    BusinessPasses(s, profile);
  }

  // ----- the observed configuration ----------------------------------------------------------

  /** The one usable row of the requested Service is about it and has these labels as its selector. */
  ghost predicate SelectsBy(s: State, labels: map<string, string>) {
    exists v :: OnlyUsable(s.evidence, ServiceRow, s.service, v)
                && s.evidence[v].namespace == Some(s.namespace) && s.evidence[v].body.ServiceBody?
                && s.evidence[v].body.serviceName == s.service && s.evidence[v].body.selector == Some(labels)
  }

  /** The first container of that name has this probe. */
  ghost predicate ProbedBy(containers: seq<Container>, name: string, view: ProbeView) {
    exists i :: 0 <= i < |containers| && containers[i].name == name && containers[i].probe == view
                && forall j :: 0 <= j < i ==> containers[j].name != name
  }

  predicate CompleteProbe(view: ProbeView) {
    view.Probe? && view.path != ""
  }

  /** An unset scheme is plain HTTP. */
  predicate SameScheme(view: ProbeView, expected: ProbeContract)
    requires view.Probe?
  {
    if view.scheme.Some? && view.scheme.value != "" then view.scheme.value == expected.scheme
    else expected.scheme == "HTTP"
  }

  predicate SameAddress(view: ProbeView, expected: ProbeContract)
    requires view.Probe?
  {
    view.path == expected.path && view.port == expected.port
  }

  ghost predicate SelectorDrifts(s: State, profile: Profile) {
    exists labels :: SelectsBy(s, labels) && labels != profile.selector
  }

  ghost predicate ProbeDrifts(dep: Row, profile: Profile)
    requires dep.body.DeploymentBody?
  {
    exists view :: ProbedBy(dep.body.containers, profile.container, view)
                   && (view.NoProbe? || (CompleteProbe(view)
                                         && !(SameScheme(view, profile.probe) && SameAddress(view, profile.probe))))
  }

  ghost predicate ProbeAgrees(dep: Row, profile: Profile)
    requires dep.body.DeploymentBody?
  {
    exists view :: ProbedBy(dep.body.containers, profile.container, view) && CompleteProbe(view)
                   && SameScheme(view, profile.probe) && SameAddress(view, profile.probe)
  }

  lemma FactsAre(s: State, profile: Profile)
    requires MatchedProfile(s) == Some(profile) && FactsOf(s).Some?
    ensures DeploymentOf(s, profile).Some? && DeploymentOf(s, profile).value.body.DeploymentBody?
    ensures FactsOf(s).value == MatchedFacts(s, profile, DeploymentOf(s, profile).value)
  {
    hide MatchedFacts, MatchedProfile, DeploymentOf;
  }

  function Selected(s: State): (labels: Option<map<string, string>>) {
    var service := ServiceOf(s);
    if ServiceValid(s, service) then service.value.body.selector else None
  }

  lemma UsableIsService(s: State, v: int)
    requires OnlyUsable(s.evidence, ServiceRow, s.service, v)
    ensures 0 <= v < |s.evidence| && ServiceOf(s) == Some(s.evidence[v])
  {
    ServiceOfExactly(s, s.evidence[v]);
  }

  lemma SelectedMeans(s: State, labels: map<string, string>)
    ensures Selected(s) == Some(labels) <==> SelectsBy(s, labels)
  {
    hide ServiceOf, OnlyUsable;
    if ServiceOf(s).Some? { ServiceOfExactly(s, ServiceOf(s).value); }
    forall v | OnlyUsable(s.evidence, ServiceRow, s.service, v)
      ensures 0 <= v < |s.evidence| && ServiceOf(s) == Some(s.evidence[v])
    {
      UsableIsService(s, v);
    }
  }

  function ViewOf(dep: Row, profile: Profile): (view: ProbeView)
    requires dep.body.DeploymentBody?
  {
    var c := FindContainer(dep.body.containers, profile.container);
    if c.Some? then c.value.probe else FieldMissing
  }

  lemma {:induction false} FirstFound(containers: seq<Container>, name: string, i: nat)
    requires i < |containers| && containers[i].name == name && forall j :: 0 <= j < i ==> containers[j].name != name
    ensures FindContainer(containers, name) == Some(containers[i])
  {
    if i > 0 {
      FirstFound(containers[1..], name, i - 1);
    }
  }

  lemma {:induction false} FoundFirst(containers: seq<Container>, name: string)
    requires FindContainer(containers, name).Some?
    ensures ProbedBy(containers, name, FindContainer(containers, name).value.probe)
  {
    if containers[0].name != name {
      FoundFirst(containers[1..], name);
      var view := FindContainer(containers, name).value.probe;
      var i :| 0 <= i < |containers| - 1 && containers[1..][i].name == name && containers[1..][i].probe == view
               && forall j :: 0 <= j < i ==> containers[1..][j].name != name;
      assert containers[i + 1].name == name && containers[i + 1].probe == view;
      assert forall j :: 0 <= j < i + 1 ==> containers[j].name != name by {
        forall j | 0 <= j < i + 1 ensures containers[j].name != name {
          if j > 0 { assert containers[j] == containers[1..][j - 1]; }
        }
      }
    }
  }

  lemma ViewMeans(dep: Row, profile: Profile, view: ProbeView)
    requires dep.body.DeploymentBody? && !view.FieldMissing?
    ensures ViewOf(dep, profile) == view <==> ProbedBy(dep.body.containers, profile.container, view)
  {
    var containers := dep.body.containers;
    if FindContainer(containers, profile.container).Some? { FoundFirst(containers, profile.container); }
    if ProbedBy(containers, profile.container, view) {
      var i :| 0 <= i < |containers| && containers[i].name == profile.container && containers[i].probe == view
               && forall j :: 0 <= j < i ==> containers[j].name != profile.container;
      FirstFound(containers, profile.container, i);
    }
  }

  lemma ReadinessMeans(dep: Row, profile: Profile)
    requires dep.body.DeploymentBody?
    ensures var r := ReadinessOf(ViewOf(dep, profile), profile.probe);
            (r.drift <==> ProbeDrifts(dep, profile)) && (r.status == Matched <==> ProbeAgrees(dep, profile))
  {
    hide ViewOf, ProbedBy;
    if !ViewOf(dep, profile).FieldMissing? { ViewMeans(dep, profile, ViewOf(dep, profile)); }
    forall view: ProbeView | !view.FieldMissing? && ProbedBy(dep.body.containers, profile.container, view)
      ensures ViewOf(dep, profile) == view
    {
      ViewMeans(dep, profile, view);
    }
  }

  lemma MatchedFactsAre(s: State, profile: Profile, dep: Row)
    requires dep.body.DeploymentBody?
    ensures var f := MatchedFacts(s, profile, dep);
            && f.matched
            && (f.selectorDrift <==> Selected(s).Some? && Selected(s).value != profile.selector)
            && f.readiness == ReadinessOf(ViewOf(dep, profile), profile.probe)
            && (f.complete <==> Selected(s).Some? && CompleteProbe(ViewOf(dep, profile)))
            && f.configurationIds ==
                 (if Selected(s).Some? then [ServiceOf(s).value.id] else []) + [dep.id]
  {
    hide ResourceOf, BusinessOf, FaultsOf, BusinessIds;
  }

  /** The id of the one usable row of the requested Service, if that row has a selector. */
  ghost predicate NamesService(s: State, id: string) {
    exists v, labels :: OnlyUsable(s.evidence, ServiceRow, s.service, v) && SelectsBy(s, labels)
                        && s.evidence[v].id == id
  }

  /** The configuration drifts, agrees and is complete exactly when the rows about it show that; what has to be cited
      for it are the row of the deployment and, if usable, that of the Service. */
  lemma ConfigurationExactly(s: State, profile: Profile)
    requires MatchedProfile(s) == Some(profile) && FactsOf(s).Some?
    ensures var f, dep := FactsOf(s).value, DeploymentOf(s, profile);
            && dep.Some? && dep.value.body.DeploymentBody?
            && (f.selectorDrift <==> SelectorDrifts(s, profile))
            && (f.readiness.drift <==> ProbeDrifts(dep.value, profile))
            && (f.readiness.status == Matched <==> ProbeAgrees(dep.value, profile))
            && (f.complete <==>
                  && (exists labels :: SelectsBy(s, labels))
                  && exists view :: ProbedBy(dep.value.body.containers, profile.container, view) && CompleteProbe(view))
            && (forall id :: id in f.configurationIds <==> id == dep.value.id || NamesService(s, id))
  {
    hide FactsOf, MatchedProfile, MatchedFacts, Selected, ViewOf, SelectsBy, ProbedBy, ReadinessOf, NamesService;
    if Selected(s).Some? { ServiceCited(s, ""); }
    FactsAre(s, profile);
    var dep := DeploymentOf(s, profile).value;
    MatchedFactsAre(s, profile, dep);
    ReadinessMeans(dep, profile);
    SelectionMeans(s, profile);
    CompletenessMeans(dep, profile);
    forall id ensures Selected(s).Some? && ServiceOf(s).value.id == id <==> NamesService(s, id) {
      ServiceCited(s, id);
    }
  }

  lemma SelectionMeans(s: State, profile: Profile)
    ensures Selected(s).Some? <==> exists labels :: SelectsBy(s, labels)
    ensures Selected(s).Some? && Selected(s).value != profile.selector <==> SelectorDrifts(s, profile)
  {
    hide Selected, SelectsBy;
    if Selected(s).Some? { SelectedMeans(s, Selected(s).value); }
    forall labels | SelectsBy(s, labels) ensures Selected(s) == Some(labels) { SelectedMeans(s, labels); }
  }

  lemma CompletenessMeans(dep: Row, profile: Profile)
    requires dep.body.DeploymentBody?
    ensures CompleteProbe(ViewOf(dep, profile)) <==>
              exists view :: ProbedBy(dep.body.containers, profile.container, view) && CompleteProbe(view)
  {
    hide ViewOf, ProbedBy;
    if CompleteProbe(ViewOf(dep, profile)) { ViewMeans(dep, profile, ViewOf(dep, profile)); }
    forall view | ProbedBy(dep.body.containers, profile.container, view) && CompleteProbe(view)
      ensures ViewOf(dep, profile) == view
    {
      ViewMeans(dep, profile, view);
    }
  }

  lemma ServiceCited(s: State, id: string)
    ensures Selected(s).Some? ==> ServiceOf(s).Some?
    ensures Selected(s).Some? && ServiceOf(s).value.id == id <==> NamesService(s, id)
  {
    if Selected(s).Some? {
      SelectedMeans(s, Selected(s).value);
      ServiceOfExactly(s, ServiceOf(s).value);
    }
    forall v, labels | OnlyUsable(s.evidence, ServiceRow, s.service, v) && SelectsBy(s, labels)
      ensures 0 <= v < |s.evidence| && Selected(s) == Some(labels) && ServiceOf(s) == Some(s.evidence[v])
    {
      SelectedMeans(s, labels);
      UsableIsService(s, v);
    }
  }

  // ----- the resource status -----------------------------------------------------------------

  /** A usable endpoint row of the Service shows a ready endpoint that is a pod of the registered deployment. */
  ghost predicate ServedByPod(s: State, profile: Profile) {
    exists r, e :: r in s.evidence && !r.failed && r.kind == EndpointSlice && r.body.EndpointBody?
                   && r.namespace == Some(s.namespace) && r.body.service == s.service
                   && e in r.body.endpoints && e.ready && PartOf(s, profile, e.targetName)
  }

  /** The positions of the rows about pods of the registered deployment. */
  ghost function PodPositions(s: State, profile: Profile): (ks: set<nat>) {
    set k: nat | k < |s.evidence| && PodRow(s, profile, s.evidence[k])
  }

  ghost function Kept(rows: seq<Row>, keep: Row -> bool): (ks: set<nat>) {
    set k: nat | k < |rows| && keep(rows[k])
  }

  lemma KeptGrows(rows: seq<Row>, keep: Row -> bool, n: nat)
    requires n + 1 == |rows|
    ensures Kept(rows, keep) == Kept(rows[..n], keep) + (if keep(rows[n]) then {n} else {})
    ensures n !in Kept(rows[..n], keep)
  {
    forall k: nat ensures k in Kept(rows, keep) <==> k in Kept(rows[..n], keep) || (k == n && keep(rows[n])) {
      if k < n { assert rows[..n][k] == rows[k]; }
    }
  }

  lemma {:induction false} SelectCounts(rows: seq<Row>, keep: Row -> bool)
    ensures |Select(rows, keep)| == |Kept(rows, keep)|
  {
    if rows != [] {
      var n: nat := |rows| - 1;
      SelectCounts(rows[..n], keep);
      KeptGrows(rows, keep, n);
      hide Kept;
    }
  }

  lemma PodsCounted(s: State, profile: Profile)
    ensures |PodsOf(s, profile)| == |PodPositions(s, profile)|
  {
    var keep := (r: Row) => OwnedPod(s, profile, r);
    SelectCounts(s.evidence, keep);
    forall k: nat | k < |s.evidence| ensures keep(s.evidence[k]) <==> PodRow(s, profile, s.evidence[k]) {
      OwnedMeans(s, profile, s.evidence[k].name);
    }
    assert Kept(s.evidence, keep) == PodPositions(s, profile);
  }

  function SlicesOf(s: State): (slices: seq<Row>) {
    Select(s.evidence, (r: Row) => OwnEndpoints(s, r))
  }

  lemma ServingMeans(s: State, profile: Profile)
    ensures Serving(s, profile, SlicesOf(s)) <==> ServedByPod(s, profile)
  {
    var slices := SlicesOf(s);
    if Serving(s, profile, slices) {
      var i :| 0 <= i < |slices| && slices[i].body.EndpointBody?
               && exists j | 0 <= j < |slices[i].body.endpoints| ::
                 slices[i].body.endpoints[j].ready && Owned(s, profile, slices[i].body.endpoints[j].targetName);
      var j :| 0 <= j < |slices[i].body.endpoints| && slices[i].body.endpoints[j].ready
               && Owned(s, profile, slices[i].body.endpoints[j].targetName);
      OwnedMeans(s, profile, slices[i].body.endpoints[j].targetName);
      assert slices[i] in slices && slices[i].body.endpoints[j] in slices[i].body.endpoints;
    }
    if ServedByPod(s, profile) {
      var r, e :| r in s.evidence && !r.failed && r.kind == EndpointSlice && r.body.EndpointBody?
                  && r.namespace == Some(s.namespace) && r.body.service == s.service
                  && e in r.body.endpoints && e.ready && PartOf(s, profile, e.targetName);
      assert r in slices;
      OwnedMeans(s, profile, e.targetName);
    }
  }

  /** The deployment misses its replicas, its configuration drifts, or one of its pods says it is not ready. */
  ghost predicate Short(s: State, profile: Profile, dep: Row)
    requires dep.body.DeploymentBody? && dep.body.desired.Some?
  {
    var wanted := dep.body.desired.value;
    || wanted == 0 || (profile.replicas.Some? && wanted != profile.replicas.value)
    || dep.body.ready < wanted || dep.body.available < wanted
    || SelectorDrifts(s, profile) || ProbeDrifts(dep, profile)
    || exists r :: PodRow(s, profile, r) && r.body.podReady == Some(false)
  }

  /** Nothing is short, the configuration is verified, and enough ready pods are seen, one of them serving. */
  ghost predicate Complete(s: State, profile: Profile, dep: Row)
    requires dep.body.DeploymentBody? && dep.body.desired.Some?
  {
    && !Short(s, profile, dep)
    && (exists labels :: SelectsBy(s, labels)) && ProbeAgrees(dep, profile)
    && |PodPositions(s, profile)| >= dep.body.desired.value
    && (forall r :: PodRow(s, profile, r) ==> r.body.podReady == Some(true))
    && ServedByPod(s, profile)
  }

  lemma PodsSay(s: State, profile: Profile, answer: bool)
    ensures (exists i :: 0 <= i < |PodsOf(s, profile)| && PodsOf(s, profile)[i].body.PodBody?
                         && PodsOf(s, profile)[i].body.podReady == Some(answer)) <==>
            exists r :: PodRow(s, profile, r) && r.body.podReady == Some(answer)
    ensures (forall i :: 0 <= i < |PodsOf(s, profile)| ==>
                           PodsOf(s, profile)[i].body.PodBody?
                           && PodsOf(s, profile)[i].body.podReady == Some(answer)) <==>
            forall r :: PodRow(s, profile, r) ==> r.body.podReady == Some(answer)
  {
    var pods := PodsOf(s, profile);
    forall i | 0 <= i < |pods| ensures PodRow(s, profile, pods[i]) {
      assert pods[i] in pods;
      PodsMean(s, profile, pods[i]);
    }
    forall r | PodRow(s, profile, r) ensures exists i :: 0 <= i < |pods| && pods[i] == r {
      PodsMean(s, profile, r);
    }
  }

  lemma ResourceFact(s: State, profile: Profile, dep: Row)
    requires dep.body.DeploymentBody?
    ensures forall p :: p in PodsOf(s, profile) ==> p.body.PodBody?
    ensures MatchedFacts(s, profile, dep).resource ==
              ResourceOf(s, profile, dep, PodsOf(s, profile), SlicesOf(s), Selected(s).Some?,
                         Selected(s).Some? && Selected(s).value != profile.selector,
                         ReadinessOf(ViewOf(dep, profile), profile.probe))
  {
    hide BusinessOf, FaultsOf, BusinessIds, Serving;
  }

  lemma ResourceMeans(s: State, profile: Profile, dep: Row)
    requires dep.body.DeploymentBody?
    ensures var d, r := dep.body.desired, MatchedFacts(s, profile, dep).resource;
            && (r == NotReady <==> d.Some? && d.value >= 0 && Short(s, profile, dep))
            && (r == Ready <==> d.Some? && d.value >= 0 && Complete(s, profile, dep))
  {
    hide MatchedFacts, Selected, ViewOf, SelectsBy, ProbeDrifts, ProbeAgrees, SelectorDrifts, ServedByPod, Serving;
    hide PodsOf, PodRow, SlicesOf, ReadinessOf, PodPositions;
    ResourceFact(s, profile, dep);
    ReadinessMeans(dep, profile);
    SelectionMeans(s, profile);
    ServingMeans(s, profile);
    PodsCounted(s, profile);
    PodsSay(s, profile, true);
    PodsSay(s, profile, false);
  }

  /** The resource is reported as ready exactly when the evidence shows it complete, as not ready exactly when it
      shows something short, and as unknown otherwise or without a usable number of wanted replicas. */
  lemma ResourceExactly(s: State, profile: Profile)
    requires MatchedProfile(s) == Some(profile) && FactsOf(s).Some?
    ensures DeploymentOf(s, profile).Some? && DeploymentOf(s, profile).value.body.DeploymentBody?
    ensures var dep, r := DeploymentOf(s, profile).value, FactsOf(s).value.resource;
            var d := dep.body.desired;
            && (r == NotReady <==> d.Some? && d.value >= 0 && Short(s, profile, dep))
            && (r == Ready <==> d.Some? && d.value >= 0 && Complete(s, profile, dep))
  {
    hide FactsOf, MatchedProfile, MatchedFacts, Short, Complete;
    FactsAre(s, profile);
    ResourceMeans(s, profile, DeploymentOf(s, profile).value);
  }
}
