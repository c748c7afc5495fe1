/** A state in which a repair is allowed, prepared and bound: the guarantees about write plans are not empty. */
module PolicyExample {
  import opened Wrappers
  import opened Evidence
  import opened Diagnosis
  import opened Policy
  import opened PolicyTheorems

  const REGISTERED := map["version" := "1"]
  const PROBE := ProbeContract("/ready", PortNumber(80), "HTTP")
  const PROFILE := Profile(0, SAFE_NAMESPACE, "web", "web", "app", "version", "1", map["app" := "image"], REGISTERED,
                           None, PROBE, [])
  const CONTAINERS := [Container("app", "image", Probe("/ready", PortNumber(80), None))]

  /** The Service selects by other labels than the registered ones; the Deployment is as registered. */
  function ServiceSelecting(labels: map<string, string>): (r: Row) {
    Row("ev-1", ServiceRow, "web", false, Some(SAFE_NAMESPACE), Some("uid-1"), None, None, None, [], None,
        ServiceBody("web", Some(labels), None, []))
  }

  const DEPLOYMENT := Row("ev-2", DeploymentRow, "web", false, Some(SAFE_NAMESPACE), Some("uid-2"), None, None, None,
                          [], None, DeploymentBody("web", Some(1), REGISTERED, CONTAINERS, Some(1), 1, 1))

  const CITED := ["ev-1", "ev-2"]
  const REPORT := Report(SelectorMismatch, 0.9, CITED, ["runbook"],
                         Some(Assessment(DeploymentConfiguration, [], [Hypothesis(CITED, true)], [], [], NotReady,
                                         CheckUnknown)), {})

  function Example(labels: map<string, string>): (s: State) {
    State(SAFE_NAMESPACE, "web", [ServiceSelecting(labels), DEPLOYMENT],
          Some(ProfileSnapshot(true, PROFILE, 0, Some("uid-2"), Some(1))), {"runbook"}, Some(REPORT))
  }

  lemma SelectTwo(a: Row, b: Row, keep: Row -> bool)
    ensures Select([a, b], keep) == (if keep(a) then [a] else []) + (if keep(b) then [b] else [])
  {
    assert [a, b][..1] == [a];
    assert [a][..0] == [];
  }

  lemma ExampleFits()
    ensures Fits(PROFILE, DEPLOYMENT) && Registrable(PROFILE)
  {
    assert CONTAINERS[..0] == [] && Images([]) == map[];
    assert Images(CONTAINERS) == map["app" := "image"];
  }

  lemma ExampleProfile(labels: map<string, string>)
    ensures MatchedProfile(Example(labels)) == Some(PROFILE) && Registrable(PROFILE)
  {
    hide Fits, Registrable;
    ExampleFits();
    SelectTwo(ServiceSelecting(labels), DEPLOYMENT, (r: Row) => IsDeployment(PROFILE, r));
  }

  lemma ExampleRows(labels: map<string, string>)
    ensures DeploymentOf(Example(labels), PROFILE) == Some(DEPLOYMENT)
    ensures ServiceOf(Example(labels)) == Some(ServiceSelecting(labels))
    ensures ServiceValid(Example(labels), Some(ServiceSelecting(labels)))
  {
    var s := Example(labels);
    SelectTwo(ServiceSelecting(labels), DEPLOYMENT, (r: Row) => !r.failed && IsDeployment(PROFILE, r));
    SelectTwo(ServiceSelecting(labels), DEPLOYMENT, (r: Row) => IsService(s, r));
  }

  lemma ExampleFaults(s: State, labels: map<string, string>)
    requires s == Example(labels)
    ensures FaultsOf(Select(s.evidence, (r: Row) => OwnedPod(s, PROFILE, r))) == {}
  {
    SelectTwo(ServiceSelecting(labels), DEPLOYMENT, (r: Row) => OwnedPod(s, PROFILE, r));
  }

  lemma ExampleMatched(labels: map<string, string>)
    requires labels != REGISTERED
    ensures var f := MatchedFacts(Example(labels), PROFILE, DEPLOYMENT);
            && f.configurationIds == CITED && f.complete && f.selectorDrift && f.business == CheckUnknown
               && f.businessIds == []
  {
    ExampleRows(labels);
    assert FindContainer(CONTAINERS, "app") == Some(CONTAINERS[0]);
  }

  lemma ExampleStatus(labels: map<string, string>)
    requires labels != REGISTERED
    ensures var f := MatchedFacts(Example(labels), PROFILE, DEPLOYMENT); f.resource == NotReady && f.faults == {}
  {
    ExampleRows(labels);
    ExampleFaults(Example(labels), labels);
  }

  lemma ExampleFacts(labels: map<string, string>)
    ensures FactsOf(Example(labels)) == Some(MatchedFacts(Example(labels), PROFILE, DEPLOYMENT))
  {
    ExampleProfile(labels);
    ExampleRows(labels);
  }

  lemma ExampleReport(f: Facts)
    requires f.configurationIds == CITED && f.complete && f.selectorDrift && f.resource == NotReady
             && f.business == CheckUnknown
    requires f.businessIds == [] && f.faults == {}
    ensures WriteGrounded(REPORT, f)
  {
    assert Grounded(REPORT.assessment.value.hypotheses[0], f);
  }

  lemma ExampleCandidate(labels: map<string, string>)
    requires labels != REGISTERED
    ensures SelectorCandidate(Example(labels))
  {
    ExampleProfile(labels);
    SelectTwo(ServiceSelecting(labels), DEPLOYMENT, (r: Row) => NamedService(PROFILE, r));
  }

  lemma AllowedFollows(s: State, f: Facts)
    requires s.diagnosis == Some(REPORT) && FactsOf(s) == Some(f) && SelectorCandidate(s) && WriteGrounded(REPORT, f)
    ensures Allowed(s).Ok? && PatchSelector in Allowed(s).value
  {
  }

  lemma ExampleAllowed(labels: map<string, string>)
    requires labels != REGISTERED
    ensures Allowed(Example(labels)).Ok? && PatchSelector in Allowed(Example(labels)).value
  {
    var f := MatchedFacts(Example(labels), PROFILE, DEPLOYMENT);
    ExampleMatched(labels);
    ExampleStatus(labels);
    ExampleFacts(labels);
    ExampleReport(f);
    ExampleCandidate(labels);
    AllowedFollows(Example(labels), f);
  }

  lemma ExampleTarget(labels: map<string, string>, p: Plan)
    requires p.kind == AService && p.name == "web" && p.namespace == SAFE_NAMESPACE
    ensures TargetUid(Example(labels), p) == Some("uid-1")
  {
    SelectTwo(ServiceSelecting(labels), DEPLOYMENT, (r: Row) => IsTarget(p, r));
  }

  lemma ExampleReferences(labels: map<string, string>)
    ensures SetOf(CITED) <= Available(Example(labels)) && RelationshipsHold(Example(labels).evidence)
  {
    var s := Example(labels);
    IdIn(s.evidence, ServiceSelecting(labels));
    IdIn(s.evidence, DEPLOYMENT);
  }

  lemma ExampleConditions(labels: map<string, string>, p: Plan)
    requires p.kind == AService && p.name == "web" && p.namespace == SAFE_NAMESPACE && Nameable(labels)
    ensures PlanConditions(Example(labels), p)
  {
    hide MatchedProfile, Registrable, TargetUid, RelationshipsHold, Available;
    ExampleProfile(labels);
    ExampleTarget(labels, p);
    ExampleReferences(labels);
  }

  /** The program's own plan for such a state is prepared. */
  lemma RepairIsPossible()
    ensures var s := Example(map["app" := "other"]);
            Deterministic(s, PatchSelector).Ok? && SoundWrite(s, Deterministic(s, PatchSelector).value)
  {
    hide MatchedProfile, Allowed, Registrable, Deterministic, SoundWrite, PlanConditions;
    var labels := map["app" := "other"];
    assert "version" !in labels;
    ExampleProfile(labels);
    ExampleAllowed(labels);
    DeterministicExactly(Example(labels), PatchSelector);
    ExampleConditions(labels, Draft(Example(labels), PROFILE, PatchSelector).value);
  }

  /** A label the cluster accepts and the plan schema does not: the repair is allowed and the plan is refused. */
  lemma EmptyLabelIsRefused()
    ensures var s := Example(map["app" := ""]);
            Allowed(s).Ok? && PatchSelector in Allowed(s).value && Deterministic(s, PatchSelector) == Refused
  {
    hide MatchedProfile, Allowed, Registrable, Deterministic, SoundWrite;
    var labels := map["app" := ""];
    assert "version" !in labels && "app" in labels;
    ExampleProfile(labels);
    ExampleAllowed(labels);
    DeterministicExactly(Example(labels), PatchSelector);
    assert NamedService(PROFILE, ServiceSelecting(labels)) && ServiceSelecting(labels) in Example(labels).evidence;
    assert !Nameable(labels);
  }
}
