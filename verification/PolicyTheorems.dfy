/** What a prepared write plan guarantees, and when the program can build one itself. */
module PolicyTheorems {
  import opened Wrappers
  import opened Evidence
  import opened Diagnosis
  import opened Policy
  import opened FactTheorems
  import opened AssessmentTheorems

  // ----- the observed configuration ----------------------------------------------------------

  lemma ServiceRowUnique(s: State, profile: Profile) returns (row: Row)
    requires MatchedProfile(s) == Some(profile) && SelectorCandidate(s)
    ensures row in s.evidence && NamedService(profile, row)
    ensures row.body.ServiceBody? && row.body.selector.Some? && row.body.selector.value != profile.selector
    ensures forall r :: r in s.evidence && NamedService(profile, r) ==> r == row
  {
    var rows := Select(s.evidence, (r: Row) => NamedService(profile, r));
    row := rows[0];
    assert row in rows;
    forall r | r in s.evidence && NamedService(profile, r) ensures r == row { assert r in rows; }
  }

  /** Facts that let the probe be patched show a complete probe of the registered scheme at another address. */
  lemma PatchableMeans(view: ProbeView, expected: ProbeContract)
    ensures ReadinessOf(view, expected).patchable <==>
              && view.Probe? && view.path != ""
                 && (if view.scheme.Some? && view.scheme.value != "" then view.scheme.value else "HTTP")
                    == expected.scheme
              && (view.path != expected.path || view.port != expected.port)
  {
  }

  /** What an allowed write rests on. */
  lemma AllowedWrite(s: State, a: Action)
    requires Allowed(s).Ok? && a in Allowed(s).value && Executable(a)
    ensures FactsOf(s).Some? && s.diagnosis.Some? && WriteFor(CategoryOf(s)) == Some(a)
    ensures Candidate(s, FactsOf(s).value, a) && WriteGrounded(s.diagnosis.value, FactsOf(s).value)
  {
  }

  /** The one row of the registered Service, whatever became of its collection, has other labels than the registered
      ones as its selector. */
  ghost predicate SelectorDiffers(s: State, profile: Profile) {
    exists k :: 0 <= k < |s.evidence| && NamedService(profile, s.evidence[k])
                && s.evidence[k].body.ServiceBody? && s.evidence[k].body.selector.Some?
                && s.evidence[k].body.selector.value != profile.selector
                && forall i :: 0 <= i < |s.evidence| && i != k ==> !NamedService(profile, s.evidence[i])
  }

  /** The registered container is probed under the registered scheme at another address. */
  ghost predicate AddressDiffers(dep: Row, profile: Profile)
    requires dep.body.DeploymentBody?
  {
    exists view :: ProbedBy(dep.body.containers, profile.container, view) && CompleteProbe(view)
                   && SameScheme(view, profile.probe) && !SameAddress(view, profile.probe)
  }

  /** The evidence bears out the diagnosis and the write: it is the one for the diagnosed drift, the configuration was
      seen, a supported hypothesis cites it, and no check fails and no container is down. */
  ghost predicate Warranted(s: State, profile: Profile, dep: Row, a: Action)
    requires dep.body.DeploymentBody?
  {
    && s.diagnosis.Some? && Justified(s, profile, dep, s.diagnosis.value)
    && ((a == PatchSelector && s.diagnosis.value.category == SelectorMismatch && SelectorDiffers(s, profile))
        || (a == PatchProbe && s.diagnosis.value.category == ReadinessProbeError && AddressDiffers(dep, profile)))
    && ConfigurationSeen(s, profile, dep) && Undisputed(s, profile)
    && Founded(s, dep, s.diagnosis.value.assessment.value)
  }

  lemma SelectorCandidateExactly(s: State, profile: Profile)
    requires MatchedProfile(s) == Some(profile)
    ensures SelectorCandidate(s) <==> SelectorDiffers(s, profile)
  {
    hide MatchedProfile;
    var keep := (r: Row) => NamedService(profile, r);
    if SelectorCandidate(s) {
      var k := OnlySelected(s.evidence, keep);
      assert forall i :: 0 <= i < |s.evidence| && i != k ==> !keep(s.evidence[i]);
    }
    forall k | OnlyAt(s.evidence, keep, k)
      ensures 0 <= k < |s.evidence| && Select(s.evidence, keep) == [s.evidence[k]]
    {
      SelectOnly(s.evidence, keep, k);
    }
    if SelectorDiffers(s, profile) {
      var k :| 0 <= k < |s.evidence| && NamedService(profile, s.evidence[k])
               && s.evidence[k].body.ServiceBody? && s.evidence[k].body.selector.Some?
               && s.evidence[k].body.selector.value != profile.selector
               && forall i :: 0 <= i < |s.evidence| && i != k ==> !NamedService(profile, s.evidence[i]);
      assert OnlyAt(s.evidence, keep, k);
    }
  }

  lemma PatchableExactly(dep: Row, profile: Profile)
    requires dep.body.DeploymentBody?
    ensures ReadinessOf(ViewOf(dep, profile), profile.probe).patchable <==> AddressDiffers(dep, profile)
  {
    PatchableMeans(ViewOf(dep, profile), profile.probe);
    hide ViewOf, ProbedBy, ReadinessOf;
    if !ViewOf(dep, profile).FieldMissing? { ViewMeans(dep, profile, ViewOf(dep, profile)); }
    forall view: ProbeView | !view.FieldMissing? && ProbedBy(dep.body.containers, profile.container, view)
      ensures ViewOf(dep, profile) == view
    {
      ViewMeans(dep, profile, view);
    }
  }

  lemma FoundedMeans(s: State, dep: Row, d: Report, f: Facts)
    requires d.assessment.Some?
    requires forall i :: 0 <= i < |d.assessment.value.hypotheses| ==>
               (SetOf(f.configurationIds) <= SetOf(d.assessment.value.hypotheses[i].evidenceIds) <==>
                CitesConfiguration(s, dep, d.assessment.value.hypotheses[i].evidenceIds))
    ensures SomeGrounded(d.assessment.value, f) <==> Founded(s, dep, d.assessment.value)
  {
    hide SetOf, CitesConfiguration;
  }

  lemma GroundedExactly(s: State, profile: Profile, d: Report)
    requires MatchedProfile(s) == Some(profile) && FactsOf(s).Some?
    ensures DeploymentOf(s, profile).Some? && DeploymentOf(s, profile).value.body.DeploymentBody?
    ensures var dep := DeploymentOf(s, profile).value;
            WriteGrounded(d, FactsOf(s).value) <==>
              && Justified(s, profile, dep, d) && ConfigurationSeen(s, profile, dep) && Undisputed(s, profile)
              && Founded(s, dep, d.assessment.value)
    ensures FactsOf(s).value.readiness.patchable <==> AddressDiffers(DeploymentOf(s, profile).value, profile)
  {
    hide FactsOf, MatchedProfile, MatchedFacts, DeploymentOf, AssessmentValid, SomeGrounded, Founded, AddressDiffers;
    hide ConfigurationSeen, Faulty, SomeCheckFails, ResourceReady, ResourceShort, EveryCheckPasses, Stopped;
    hide CitesResults, CitesResources, CitesLogs, CitesConfiguration, ReadinessOf, ViewOf;
    AcceptedExactly(s, profile, d);
    FactsShown(s, profile);
    FactsAre(s, profile);
    var dep := DeploymentOf(s, profile).value;
    MatchedFactsAre(s, profile, dep);
    PatchableExactly(dep, profile);
    if d.assessment.Some? {
      CitationsAreShown(s, profile, d);
      FoundedMeans(s, dep, d, FactsOf(s).value);
    }
  }

  lemma ValidIsAssessed(d: Report, f: Facts)
    requires AssessmentValid(d, f)
    ensures d.assessment.Some?
  {
  }

  lemma AllowedIs(s: State, a: Action)
    requires Executable(a)
    ensures Allowed(s).Ok? && a in Allowed(s).value <==>
              && FactsOf(s).Some? && s.diagnosis.Some? && WriteFor(CategoryOf(s)) == Some(a)
              && Candidate(s, FactsOf(s).value, a) && WriteGrounded(s.diagnosis.value, FactsOf(s).value)
    ensures Allowed(s).Ok? ==>
              (Manual in Allowed(s).value <==>
               s.diagnosis.Some? && s.diagnosis.value.category != UnknownCause && s.diagnosis.value.category != NoFault)
    ensures Allowed(s).Ok? || (Allowed(s).Crashed? && FactsOf(s).None?)
  {
    hide FactsOf, AssessmentValid, SomeGrounded, SelectorCandidate;
    if FactsOf(s).Some? && s.diagnosis.Some? && AssessmentValid(s.diagnosis.value, FactsOf(s).value) {
      ValidIsAssessed(s.diagnosis.value, FactsOf(s).value);
    }
  }

  /** A write is allowed exactly when the profile matches and the evidence warrants it. */
  lemma AllowedExactly(s: State, a: Action)
    requires Executable(a)
    ensures (Allowed(s).Ok? && a in Allowed(s).value) <==>
              && MatchedProfile(s).Some? && DeploymentOf(s, MatchedProfile(s).value).Some?
              && var dep := DeploymentOf(s, MatchedProfile(s).value).value;
                 dep.body.DeploymentBody? && Warranted(s, MatchedProfile(s).value, dep, a)
  {
    AllowedIs(s, a);
    if MatchedProfile(s).Some? {
      MatchedAllowed(s, MatchedProfile(s).value, a);
    } else {
      UnmatchedNothing(s);
    }
  }

  lemma UnmatchedNothing(s: State)
    requires MatchedProfile(s).None?
    ensures FactsOf(s).Some? && !FactsOf(s).value.complete
  {
    hide MatchedProfile;
  }

  lemma FactsExist(s: State, profile: Profile)
    requires MatchedProfile(s) == Some(profile)
    ensures FactsOf(s).Some? <==>
              DeploymentOf(s, profile).Some? && DeploymentOf(s, profile).value.body.DeploymentBody?
  {
    hide MatchedProfile, DeploymentOf, MatchedFacts;
  }

  lemma MatchedAllowed(s: State, profile: Profile, a: Action)
    requires MatchedProfile(s) == Some(profile) && Executable(a)
    ensures (&& FactsOf(s).Some? && s.diagnosis.Some? && WriteFor(CategoryOf(s)) == Some(a)
             && Candidate(s, FactsOf(s).value, a) && WriteGrounded(s.diagnosis.value, FactsOf(s).value)) <==>
              && DeploymentOf(s, profile).Some? && DeploymentOf(s, profile).value.body.DeploymentBody?
              && Warranted(s, profile, DeploymentOf(s, profile).value, a)
  {
    hide FactsOf, MatchedProfile, DeploymentOf, WriteGrounded, Justified, ConfigurationSeen, Undisputed, Founded;
    hide SelectorCandidate, SelectorDiffers, AddressDiffers;
    FactsExist(s, profile);
    SelectorCandidateExactly(s, profile);
    if FactsOf(s).Some? && s.diagnosis.Some? { GroundedExactly(s, profile, s.diagnosis.value); }
  }

  // ----- what validation establishes ---------------------------------------------------------

  /** The configuration a write plan replaces, read from the rows it is about. */
  ghost predicate ReplacesSelector(s: State, p: Plan, profile: Profile) {
    && p.kind == AService && p.name == profile.service && p.namespace == profile.namespace
    && Labels(p.proposedSelector) == profile.selector && DistinctKeys(p.proposedSelector)
    && (exists r :: r in s.evidence && NamedService(profile, r))
    && (forall r :: r in s.evidence && NamedService(profile, r) ==>
          r.body.ServiceBody? && r.body.selector == Some(Labels(p.currentSelector))
              && r.body.selector.value != profile.selector)
  }

  ghost predicate ReplacesProbe(s: State, p: Plan, profile: Profile) {
    && p.kind == ADeployment && p.name == profile.deployment && p.namespace == profile.namespace
       && p.container == Some(profile.container)
    && p.proposedPath == Some(profile.probe.path) && p.proposedPort == Some(profile.probe.port)
    && (exists r :: r in s.evidence && IsDeployment(profile, r))
    && (forall r :: r in s.evidence && IsDeployment(profile, r) ==>
          && r.body.DeploymentBody?
          && var c := FindContainer(r.body.containers, profile.container);
             c.Some? && c.value.probe.Probe? && Some(c.value.probe.path) == p.currentPath
                 && Some(c.value.probe.port) == p.currentPort
             && (c.value.probe.path != profile.probe.path || c.value.probe.port != profile.probe.port))
  }

  lemma SelectorPlanReplaces(s: State, p: Plan, profile: Profile)
    requires MatchedProfile(s) == Some(profile) && SelectorCandidate(s) && p.action == PatchSelector
    requires RegisteredAction(profile, p) && SelectorPlanOk(p, s)
    ensures ReplacesSelector(s, p, profile)
  {
    var only := ServiceRowUnique(s, profile);
    var row := FirstNamed(s.evidence, ServiceRow, p.name).value;
    assert NamedService(profile, row) && row == only;
  }

  lemma ProbePlanReplaces(s: State, p: Plan, profile: Profile)
    requires MatchedProfile(s) == Some(profile) && DeploymentOf(s, profile).Some? && p.action == PatchProbe
    requires RegisteredAction(profile, p) && ProbePlanOk(p, s)
    ensures ReplacesProbe(s, p, profile)
  {
    var row := FirstNamed(s.evidence, DeploymentRow, p.name).value;
    assert IsDeployment(profile, row);
    DeploymentRowUnique(s, profile, row);
    forall r | r in s.evidence && IsDeployment(profile, r) ensures r == row { DeploymentRowUnique(s, profile, r); }
  }

  /** Everything a reader of a write plan may rely on. */
  ghost predicate SoundWrite(s: State, p: Plan) {
    && MatchedProfile(s).Some? && FactsOf(s).Some?
    && Undisputed(s, MatchedProfile(s).value)
    && (p.action == PatchSelector ==> ReplacesSelector(s, p, MatchedProfile(s).value))
    && (p.action == PatchProbe ==> ReplacesProbe(s, p, MatchedProfile(s).value))
    && p.targetUid.Some?
    && (exists r :: r in s.evidence && IsTarget(p, r))
    && (forall r :: r in s.evidence && IsTarget(p, r) ==> r.uid == p.targetUid)
  }

  lemma FactsHaveDeployment(s: State)
    requires FactsOf(s).Some? && MatchedProfile(s).Some?
    ensures DeploymentOf(s, MatchedProfile(s).value).Some?
  {
  }

  lemma BoundTarget(p: Plan, s: State)
    requires p.targetUid.Some? && BindTarget(p, s).Some?
    ensures BindTarget(p, s).value == p
    ensures exists r :: r in s.evidence && IsTarget(p, r)
    ensures forall r :: r in s.evidence && IsTarget(p, r) ==> r.uid == p.targetUid
  {
  }

  lemma ValidatedWriteIsSound(p: Plan, s: State)
    requires Validate(p, s).Ok? && Executable(p.action) && p.targetUid.Some?
    ensures SoundWrite(s, p)
  {
    AllowedWrite(s, p.action);
    BoundTarget(p, s);
    var profile := MatchedProfile(s).value;
    FactsHaveDeployment(s);
    FactsShown(s, profile);
    if p.action == PatchSelector { SelectorPlanReplaces(s, p, profile); } else { ProbePlanReplaces(s, p, profile); }
  }

  // ----- preparation -------------------------------------------------------------------------

  /** The plan that preparation hands to validation. */
  function Completed(p: Plan, s: State): (b: Option<Plan>)
    requires FactsOf(s).Some?
  {
    BindTarget(p.(evidenceIds := p.evidenceIds + Missing(FactsOf(s).value.configurationIds, p.evidenceIds)), s)
  }

  lemma PreparedIs(p: Plan, s: State)
    requires Prepare(p, s).Ok? && Executable(p.action)
    ensures FactsOf(s).Some? && Allowed(s).Ok? && p.action in Allowed(s).value && ReferencesOk(p, s)
    ensures MatchedProfile(s).Some? && RegisteredAction(MatchedProfile(s).value, p) && CanAttach(p, s, FactsOf(s).value)
    ensures Completed(p, s).Some? && Prepare(p, s).value.0 == Completed(p, s).value
            && Validate(Completed(p, s).value, s) == Ok(Completed(p, s).value)
    ensures Prepare(p, s).value.1 == Missing(FactsOf(s).value.configurationIds, p.evidenceIds)
  {
  }

  /** A prepared write changes nothing of what was planned but the added citations and the target's UID, and
      it is sound: it proposes exactly the registered value, names the one observed UID, really changes what
      was observed, and nothing observed contradicts it. */
  lemma PreparedWriteIsSound(p: Plan, s: State)
    requires Prepare(p, s).Ok? && Executable(p.action)
    ensures var (q, added) := Prepare(p, s).value;
            && SoundWrite(s, q)
            && q == p.(targetUid := q.targetUid, evidenceIds := p.evidenceIds + added)
            && (p.targetUid.Some? ==> q.targetUid == p.targetUid)
  {
    PreparedIs(p, s);
    ValidatedWriteIsSound(Prepare(p, s).value.0, s);
  }

  lemma NothingMissing(required: seq<string>, cited: seq<string>)
    requires SetOf(required) <= SetOf(cited)
    ensures Missing(required, cited) == []
  {
    var m := Missing(required, cited);
    forall x ensures x !in m {
      assert x in SetOf(required) <==> x in required;
    }
  }

  lemma CompletedTwice(q: Plan, s: State)
    requires FactsOf(s).Some? && SetOf(FactsOf(s).value.configurationIds) <= SetOf(q.evidenceIds) && q.targetUid.Some?
             && BindTarget(q, s).Some?
    ensures Completed(q, s) == Some(q)
  {
    NothingMissing(FactsOf(s).value.configurationIds, q.evidenceIds);
    BoundTarget(q, s);
    assert q.(evidenceIds := q.evidenceIds + []) == q by { assert q.evidenceIds + [] == q.evidenceIds; }
  }

  lemma PrepareFollows(q: Plan, s: State)
    requires Executable(q.action) && ReferencesOk(q, s) && Allowed(s).Ok? && q.action in Allowed(s).value
    requires MatchedProfile(s).Some? && RegisteredAction(MatchedProfile(s).value, q) && FactsOf(s).Some?
             && CanAttach(q, s, FactsOf(s).value)
    requires Completed(q, s).Some?
    ensures Prepare(q, s) == Published(Validate(Completed(q, s).value, s),
                                       Missing(FactsOf(s).value.configurationIds, q.evidenceIds))
  {
  }

  /** Preparing a prepared plan changes nothing, and validating it against the same state succeeds. */
  lemma PreparingAgainIsNoOp(p: Plan, s: State)
    requires Prepare(p, s).Ok?
    ensures var q := Prepare(p, s).value.0;
            Validate(q, s) == Ok(q) && Prepare(q, s) == Ok((q, []))
  {
    if Executable(p.action) {
      PreparedIs(p, s);
      var q, f := Prepare(p, s).value.0, FactsOf(s).value;
      ValidatedFacts(q, s);
      CompletedTwice(q, s);
      NothingMissing(f.configurationIds, q.evidenceIds);
      assert SetOf(p.evidenceIds) <= SetOf(q.evidenceIds);
      PrepareFollows(q, s);
    }
  }

  lemma ValidatedFacts(q: Plan, s: State)
    requires Validate(q, s).Ok? && Executable(q.action)
    ensures ReferencesOk(q, s) && (q.targetUid.Some? ==> BindTarget(q, s).Some?) && FactsOf(s).Some?
            && MatchedProfile(s).Some?
    ensures SetOf(FactsOf(s).value.configurationIds) <= SetOf(q.evidenceIds)
            && RegisteredAction(MatchedProfile(s).value, q)
  {
  }

  // ----- the plan built by the program -------------------------------------------------------

  /** The labels of a map as pairs. */
  ghost function PairsOf(m: map<string, string>): (pairs: seq<LabelPair>)
    decreases |m|
  {
    if m == map[] then []
    else
      var k :| k in m;
      PairsOf(m - {k}) + [LabelPair(k, m[k])]
  }

  lemma LabelsAppend(pairs: seq<LabelPair>, k: string, v: string)
    ensures Labels(pairs + [LabelPair(k, v)]) == Labels(pairs)[k := v]
  {
    assert (pairs + [LabelPair(k, v)])[..|pairs|] == pairs;
  }

  lemma {:induction false} LabelKeys(pairs: seq<LabelPair>, i: nat)
    requires i < |pairs|
    ensures pairs[i].key in Labels(pairs)
  {
    if i < |pairs| - 1 { LabelKeys(pairs[..|pairs| - 1], i); }
  }

  lemma PairsAppend(rest: seq<LabelPair>, m: map<string, string>, k: string)
    requires k in m && DistinctKeys(rest) && Labels(rest) == m - {k}
    ensures DistinctKeys(rest + [LabelPair(k, m[k])]) && Labels(rest + [LabelPair(k, m[k])]) == m
  {
    LabelsAppend(rest, k, m[k]);
    assert (m - {k})[k := m[k]] == m;
    forall i | 0 <= i < |rest| ensures rest[i].key != k { LabelKeys(rest, i); }
  }

  /** Turning labels into pairs and back gives the same labels. */
  lemma {:induction false} PairsRoundTrip(m: map<string, string>)
    ensures DistinctKeys(PairsOf(m)) && Labels(PairsOf(m)) == m && (m != map[] ==> PairsOf(m) != [])
    decreases |m|
  {
    if m != map[] {
      var k :| k in m && PairsOf(m) == PairsOf(m - {k}) + [LabelPair(k, m[k])];
      PairsRoundTrip(m - {k});
      PairsAppend(PairsOf(m - {k}), m, k);
    }
  }

  /** production.py:35-60; none where the source finds no row, container or probe to take values from. */
  ghost function Draft(s: State, profile: Profile, a: Action): (p: Option<Plan>)
    requires s.diagnosis.Some?
  {
    var d := s.diagnosis.value;
    var base := Plan(a, None, profile.namespace, AService, profile.service, None, None, None, None, None, [], [], [],
                     Medium, true,
                     d.evidenceIds, d.runbookIds, true);
    if a == PatchSelector then
      var row := FirstNamed(s.evidence, ServiceRow, profile.service);
      if row.None? || !row.value.body.ServiceBody? || row.value.body.selector.None? then None
      else Some(base.(currentSelector := PairsOf(row.value.body.selector.value),
                      proposedSelector := PairsOf(profile.selector)))
    else
      var row := FirstNamed(s.evidence, DeploymentRow, profile.deployment);
      if row.None? || !row.value.body.DeploymentBody? then None
      else
        var c := FindContainer(row.value.body.containers, profile.container);
        if c.None? || !c.value.probe.Probe? then None
        else Some(base.(kind := ADeployment, name := profile.deployment, container := Some(profile.container),
                        currentPath := Some(c.value.probe.path), currentPort := Some(c.value.probe.port),
                        proposedPath := Some(profile.probe.path), proposedPort := Some(profile.probe.port)))
  }

  predicate NameableText(text: string) {
    1 <= |text| <= 63
  }

  /** Labels the plan schema has room for (schemas.py:137-147). */
  predicate Nameable(labels: map<string, string>) {
    forall k <- labels :: NameableText(k) && NameableText(labels[k])
  }

  predicate NameablePairs(pairs: seq<LabelPair>) {
    forall i | 0 <= i < |pairs| :: NameableText(pairs[i].key) && NameableText(pairs[i].value)
  }

  /** The bounds of the plan schema that a draft can miss; the constructor refuses such a draft. */
  predicate Constructible(p: Plan) {
    NameablePairs(p.currentSelector) && NameablePairs(p.proposedSelector) && p.evidenceIds != []
  }

  lemma {:induction false} PairsNameable(pairs: seq<LabelPair>)
    requires DistinctKeys(pairs)
    ensures NameablePairs(pairs) <==> Nameable(Labels(pairs))
  {
    if pairs != [] {
      var n := |pairs| - 1;
      var rest, last := pairs[..n], pairs[n];
      PairsNameable(rest);
      AbsentLabel(rest, last.key);
      var m := Labels(rest);
      assert Labels(pairs) == m[last.key := last.value];
      if Nameable(Labels(pairs)) {
        assert forall k <- m :: k in Labels(pairs) && Labels(pairs)[k] == m[k];
        assert last.key in Labels(pairs);
      }
    }
  }

  lemma {:induction false} AbsentLabel(pairs: seq<LabelPair>, key: string)
    requires forall i | 0 <= i < |pairs| :: pairs[i].key != key
    ensures key !in Labels(pairs)
  {
    if pairs != [] { AbsentLabel(pairs[..|pairs| - 1], key); }
  }

  ghost function Deterministic(s: State, a: Action): (r: Result<Plan>) {
    if !Executable(a) then Refused
    else
      match Allowed(s)
      case Crashed => Crashed
      case Refused => Refused
      case Ok(actions) =>
        if a !in actions || MatchedProfile(s).None? then Refused
        else
          var draft := Draft(s, MatchedProfile(s).value, a);
          if draft.None? then Crashed
          else if !Constructible(draft.value) then Refused
          else match Prepare(draft.value, s)
               case Ok(q) => Ok(q.0)
               case Refused => Refused
               case Crashed => Crashed
  }

  /** The registration schema (service_profiles/models.py:18-81). */
  predicate Registrable(profile: Profile) {
    && profile.selector != map[] && profile.container != ""
    && profile.probe.path != "" && profile.probe.path[0] == '/' && forall i | 0 <= i < |profile.probe.path| ::
          !IsSpace(profile.probe.path[i])
  }

  /** An allowed write always has a draft, which proposes what is registered and fits what was observed. */
  lemma DraftFits(s: State, a: Action)
    requires Executable(a) && Allowed(s).Ok? && a in Allowed(s).value
    requires MatchedProfile(s).Some? ==> Registrable(MatchedProfile(s).value)
    ensures MatchedProfile(s).Some? && FactsOf(s).Some? && s.diagnosis.Some?
            && Draft(s, MatchedProfile(s).value, a).Some?
    ensures var profile, p := MatchedProfile(s).value, Draft(s, MatchedProfile(s).value, a).value;
            RegisteredAction(profile, p) && ActionOk(p, s) && MetadataOk(p) && p.action == a && p.targetUid.None?
                && p.commandFree
  {
    AllowedWrite(s, a);
    var profile := MatchedProfile(s).value;
    if a == PatchSelector { SelectorDraftFits(s, profile); } else { ProbeDraftFits(s, profile); }
  }

  ghost predicate DraftIsFine(s: State, profile: Profile, a: Action)
    requires s.diagnosis.Some?
  {
    && Draft(s, profile, a).Some?
    && var p := Draft(s, profile, a).value;
       RegisteredAction(profile, p) && ActionOk(p, s) && MetadataOk(p) && p.action == a && p.targetUid.None?
           && p.commandFree
  }

  lemma SelectorDraftFits(s: State, profile: Profile)
    requires s.diagnosis.Some? && MatchedProfile(s) == Some(profile) && Registrable(profile) && SelectorCandidate(s)
    ensures DraftIsFine(s, profile, PatchSelector)
  {
    var row := ServiceRowUnique(s, profile);
    assert FirstNamed(s.evidence, ServiceRow, profile.service) == Some(row);
    PairsRoundTrip(row.body.selector.value);
    PairsRoundTrip(profile.selector);
  }

  lemma ProbeDraftFits(s: State, profile: Profile)
    requires s.diagnosis.Some? && MatchedProfile(s) == Some(profile) && Registrable(profile)
    requires FactsOf(s).Some? && FactsOf(s).value.readiness.patchable
    ensures DraftIsFine(s, profile, PatchProbe)
  {
    FactsHaveDeployment(s);
    var row := DeploymentOf(s, profile).value;
    DeploymentRowUnique(s, profile, row);
    assert FirstNamed(s.evidence, DeploymentRow, profile.deployment).Some?;
    DeploymentRowUnique(s, profile, FirstNamed(s.evidence, DeploymentRow, profile.deployment).value);
    ProbeObserved(s, profile);
  }

  lemma ProbeObserved(s: State, profile: Profile)
    requires MatchedProfile(s) == Some(profile) && FactsOf(s).Some? && FactsOf(s).value.readiness.patchable
             && DeploymentOf(s, profile).Some?
    ensures DeploymentOf(s, profile).value.body.DeploymentBody?
    ensures var c := FindContainer(DeploymentOf(s, profile).value.body.containers, profile.container);
            c.Some? && c.value.probe.Probe? && c.value.probe.path != ""
                && (c.value.probe.path != profile.probe.path || c.value.probe.port != profile.probe.port)
  {
    DeploymentRowUnique(s, profile, DeploymentOf(s, profile).value);
    var c := FindContainer(DeploymentOf(s, profile).value.body.containers, profile.container);
    PatchableMeans(if c.Some? then c.value.probe else FieldMissing, profile.probe);
  }

  /** The observed and the registered labels have room in a plan. */
  ghost predicate SelectorsNameable(s: State, profile: Profile) {
    && Nameable(profile.selector)
    && (forall r :: r in s.evidence && NamedService(profile, r) && r.body.ServiceBody? && r.body.selector.Some? ==>
          Nameable(r.body.selector.value))
  }

  /** What the program's own plan needs beyond being allowed: usable references in the diagnosis, the safe
      namespace, one unambiguous identity of the target and, for a selector, labels of 1 to 63 characters. */
  ghost predicate PlanConditions(s: State, p: Plan) {
    && (p.action == PatchSelector ==> MatchedProfile(s).Some? && SelectorsNameable(s, MatchedProfile(s).value))
    && s.diagnosis.Some?
    && NoRepeats(s.diagnosis.value.evidenceIds) && NoRepeats(s.diagnosis.value.runbookIds)
       && s.diagnosis.value.runbookIds != []
    && SetOf(s.diagnosis.value.evidenceIds) <= Available(s) && SetOf(s.diagnosis.value.runbookIds) <= s.runbooks - {""}
    && s.namespace == SAFE_NAMESPACE && TargetUid(s, p).Some? && RelationshipsHold(s.evidence)
  }

  lemma {:induction false} SelectAgrees(rows: seq<Row>, f: Row -> bool, g: Row -> bool)
    requires forall r :: f(r) == g(r)
    ensures Select(rows, f) == Select(rows, g)
  {
    if rows != [] { SelectAgrees(rows[..|rows| - 1], f, g); }
  }

  lemma SameTarget(s: State, p: Plan, q: Plan)
    requires p.kind == q.kind && p.name == q.name && p.namespace == q.namespace
    ensures TargetUid(s, p) == TargetUid(s, q)
  {
    var f, g := (r: Row) => IsTarget(p, r), (r: Row) => IsTarget(q, r);
    forall r ensures f(r) == g(r) { }
    SelectAgrees(s.evidence, f, g);
  }

  /** A UID is returned exactly when one row alone is the target's and carries a usable one, and it is that. */
  lemma TargetUidExactly(s: State, p: Plan, uid: string)
    ensures TargetUid(s, p) == Some(uid) <==>
              exists k :: 0 <= k < |s.evidence| && IsTarget(p, s.evidence[k]) && s.evidence[k].uid == Some(uid)
                          && 1 <= |uid| <= 128
                          && forall i :: 0 <= i < |s.evidence| && i != k ==> !IsTarget(p, s.evidence[i])
  {
    var keep := (r: Row) => IsTarget(p, r);
    if TargetUid(s, p) == Some(uid) {
      var k := OnlySelected(s.evidence, keep);
      assert IsTarget(p, s.evidence[k]) && forall i :: 0 <= i < |s.evidence| && i != k ==> !keep(s.evidence[i]);
    }
    forall k | 0 <= k < |s.evidence| && IsTarget(p, s.evidence[k])
               && forall i :: 0 <= i < |s.evidence| && i != k ==> !IsTarget(p, s.evidence[i])
      ensures Select(s.evidence, keep) == [s.evidence[k]]
    {
      assert OnlyAt(s.evidence, keep, k);
      SelectOnly(s.evidence, keep, k);
    }
  }

  lemma ConfigurationIdsCitable(s: State)
    requires FactsOf(s).Some? && MatchedProfile(s).Some? && SetOf(FactsOf(s).value.configurationIds) <= Available(s)
    ensures SetOf(FactsOf(s).value.configurationIds) <= Citable(s) && FactsOf(s).value.configurationIds != []
  {
    var profile := MatchedProfile(s).value;
    var dep := DeploymentOf(s, profile).value;
    assert dep in s.evidence && !dep.failed;
    var service := ServiceOf(s);
    forall id | id in SetOf(FactsOf(s).value.configurationIds) ensures id in Citable(s) {
      assert id == dep.id || (service.Some? && id == service.value.id && service.value in s.evidence
                              && !service.value.failed);
    }
  }

  lemma DraftCites(s: State, a: Action)
    requires s.diagnosis.Some? && MatchedProfile(s).Some? && Draft(s, MatchedProfile(s).value, a).Some?
    ensures var p, d := Draft(s, MatchedProfile(s).value, a).value, s.diagnosis.value;
            p.evidenceIds == d.evidenceIds && p.runbookIds == d.runbookIds && p.namespace == s.namespace
  {
  }

  lemma DraftAttaches(s: State, a: Action, p: Plan)
    requires Executable(a) && Allowed(s).Ok? && a in Allowed(s).value && FactsOf(s).Some? && MatchedProfile(s).Some?
    requires s.diagnosis.Some? && p.evidenceIds == s.diagnosis.value.evidenceIds && SetOf(p.evidenceIds) <= Available(s)
    ensures SetOf(FactsOf(s).value.configurationIds) <= SetOf(p.evidenceIds) && CanAttach(p, s, FactsOf(s).value)
  {
    AllowedWrite(s, a);
    var f := FactsOf(s).value;
    assert Configurational(s.diagnosis.value.category);
    ConfigurationIdsCitable(s);
    assert f.configurationIds[0] in SetOf(p.evidenceIds) * SetOf(f.configurationIds);
  }

  lemma DraftTargetExists(s: State, p: Plan)
    requires TargetUid(s, p).Some? && p.kind != APod
    ensures exists i :: 0 <= i < |s.evidence| && s.evidence[i].kind == EvidenceKind(p.kind)
                        && s.evidence[i].name == p.name
  {
    var r :| r in s.evidence && IsTarget(p, r);
  }

  /** A cited draft has room in the schema exactly when the labels it names do. */
  lemma DraftConstructible(s: State, a: Action)
    requires Executable(a) && Allowed(s).Ok? && a in Allowed(s).value
    requires MatchedProfile(s).Some? && Registrable(MatchedProfile(s).value) && s.diagnosis.Some?
    requires Draft(s, MatchedProfile(s).value, a).Some? && Draft(s, MatchedProfile(s).value, a).value.evidenceIds != []
    ensures Constructible(Draft(s, MatchedProfile(s).value, a).value)
            <==> (a == PatchSelector ==> SelectorsNameable(s, MatchedProfile(s).value))
  {
    hide MatchedProfile, FactsOf, Allowed, PairsOf, Labels, WriteGrounded, Registrable;
    var profile := MatchedProfile(s).value;
    if a == PatchSelector {
      AllowedWrite(s, a);
      var row := ServiceRowUnique(s, profile);
      assert FirstNamed(s.evidence, ServiceRow, profile.service) == Some(row);
      PairsRoundTrip(row.body.selector.value);
      PairsRoundTrip(profile.selector);
      PairsNameable(PairsOf(row.body.selector.value));
      PairsNameable(PairsOf(profile.selector));
    }
  }

  /** With all conditions met, the draft binds, validates and is returned. */
  lemma DraftSucceeds(s: State, a: Action)
    requires Executable(a) && Allowed(s).Ok? && a in Allowed(s).value
    requires MatchedProfile(s).Some? && Registrable(MatchedProfile(s).value)
    requires s.diagnosis.Some? && Draft(s, MatchedProfile(s).value, a).Some?
             && PlanConditions(s, Draft(s, MatchedProfile(s).value, a).value)
    ensures Prepare(Draft(s, MatchedProfile(s).value, a).value, s).Ok?
            && Constructible(Draft(s, MatchedProfile(s).value, a).value)
  {
    var p := Draft(s, MatchedProfile(s).value, a).value;
    DraftFits(s, a);
    DraftCites(s, a);
    DraftAttaches(s, a, p);
    DraftConstructible(s, a);
    DraftTargetExists(s, p);
    var q := p.(targetUid := TargetUid(s, p));
    DraftBinds(s, p, q);
    BoundDraftValid(s, a, p, q);
    PrepareFollows(p, s);
  }

  lemma DraftBinds(s: State, p: Plan, q: Plan)
    requires FactsOf(s).Some? && SetOf(FactsOf(s).value.configurationIds) <= SetOf(p.evidenceIds) && p.targetUid.None?
    requires q == p.(targetUid := TargetUid(s, p)) && TargetUid(s, p).Some? && RelationshipsHold(s.evidence)
    ensures Completed(p, s) == Some(q)
  {
    NothingMissing(FactsOf(s).value.configurationIds, p.evidenceIds);
    assert p.(evidenceIds := p.evidenceIds + []) == p by { assert p.evidenceIds + [] == p.evidenceIds; }
  }

  lemma ActionStillOk(s: State, p: Plan, q: Plan)
    requires q == p.(targetUid := q.targetUid) && ActionOk(p, s) && ReferencesOk(p, s) && TargetOk(p, s)
             && MetadataOk(p)
    ensures ActionOk(q, s) && ReferencesOk(q, s) && TargetOk(q, s) && MetadataOk(q)
  {
  }

  lemma RegisteredStill(profile: Profile, p: Plan, q: Plan)
    requires q == p.(targetUid := q.targetUid) && RegisteredAction(profile, p)
    ensures RegisteredAction(profile, q)
  {
  }

  lemma BindsAgain(s: State, p: Plan, q: Plan)
    requires q == p.(targetUid := TargetUid(s, p)) && TargetUid(s, p).Some? && RelationshipsHold(s.evidence)
    ensures BindTarget(q, s).Some?
  {
    SameTarget(s, p, q);
  }

  lemma ValidateFollows(s: State, q: Plan, actions: set<Action>)
    requires Allowed(s) == Ok(actions) && q.action in actions && ReferencesOk(q, s) && TargetOk(q, s)
             && BindTarget(q, s).Some?
    requires q.commandFree && MetadataOk(q) && WriteOk(q, s) && ActionOk(q, s)
    ensures Validate(q, s) == Ok(q)
  {
  }

  lemma BoundDraftValid(s: State, a: Action, p: Plan, q: Plan)
    requires Executable(a) && Allowed(s).Ok? && a in Allowed(s).value && FactsOf(s).Some? && MatchedProfile(s).Some?
    requires p.action == a && p.commandFree && MetadataOk(p) && ActionOk(p, s)
             && RegisteredAction(MatchedProfile(s).value, p)
    requires ReferencesOk(p, s) && TargetOk(p, s) && p.runbookIds != []
             && SetOf(FactsOf(s).value.configurationIds) <= SetOf(p.evidenceIds)
    requires q == p.(targetUid := TargetUid(s, p)) && TargetUid(s, p).Some? && RelationshipsHold(s.evidence)
    ensures Validate(q, s) == Ok(q)
  {
    BindsAgain(s, p, q);
    ActionStillOk(s, p, q);
    RegisteredStill(MatchedProfile(s).value, p, q);
    ValidateFollows(s, q, Allowed(s).value);
  }

  /** The program builds a plan for an allowed write exactly when those conditions hold; the plan is sound. When they
      fail, the error is one the caller turns into a failed plan. */
  lemma DeterministicExactly(s: State, a: Action)
    requires Executable(a) && Allowed(s).Ok? && a in Allowed(s).value
    requires MatchedProfile(s).Some? ==> Registrable(MatchedProfile(s).value)
    ensures MatchedProfile(s).Some? && s.diagnosis.Some? && Draft(s, MatchedProfile(s).value, a).Some?
    ensures Deterministic(s, a).Ok? <==> PlanConditions(s, Draft(s, MatchedProfile(s).value, a).value)
    ensures Deterministic(s, a).Ok? ==> SoundWrite(s, Deterministic(s, a).value)
    ensures !Deterministic(s, a).Crashed?
  {
    DraftFits(s, a);
    DraftCites(s, a);
    var p := Draft(s, MatchedProfile(s).value, a).value;
    DeterministicIs(s, a, p);
    PrepareNeverCrashes(s, p);
    if PlanConditions(s, p) { DraftSucceeds(s, a); }
    if Prepare(p, s).Ok? && Constructible(p) {
      DraftConstructible(s, a);
      PreparedIs(p, s);
      PreparedWriteIsSound(p, s);
      PreparedConditions(s, p);
    }
  }

  lemma PrepareNeverCrashes(s: State, p: Plan)
    requires Executable(p.action) && Allowed(s).Ok? && p.action in Allowed(s).value && FactsOf(s).Some?
    ensures !Prepare(p, s).Crashed?
  {
  }

  lemma DeterministicIs(s: State, a: Action, p: Plan)
    requires Executable(a) && Allowed(s).Ok? && a in Allowed(s).value && MatchedProfile(s).Some? && s.diagnosis.Some?
    requires Draft(s, MatchedProfile(s).value, a) == Some(p)
    ensures Deterministic(s, a).Ok? <==> Prepare(p, s).Ok? && Constructible(p)
    ensures Deterministic(s, a).Ok? ==> Deterministic(s, a) == Ok(Prepare(p, s).value.0)
    ensures Deterministic(s, a).Crashed? ==> Prepare(p, s).Crashed?
  {
  }

  lemma PreparedConditions(s: State, p: Plan)
    requires Prepare(p, s).Ok? && Executable(p.action) && s.diagnosis.Some?
    requires p.action == PatchSelector ==> MatchedProfile(s).Some? && SelectorsNameable(s, MatchedProfile(s).value)
    requires p.evidenceIds == s.diagnosis.value.evidenceIds && p.runbookIds == s.diagnosis.value.runbookIds
             && p.namespace == s.namespace
    ensures PlanConditions(s, p)
  {
    PreparedIs(p, s);
    var c := p.(evidenceIds := p.evidenceIds + Missing(FactsOf(s).value.configurationIds, p.evidenceIds));
    SameTarget(s, c, p);
    ValidatedTarget(s, Completed(p, s).value);
  }

  lemma ValidatedTarget(s: State, q: Plan)
    requires Validate(q, s).Ok? && Executable(q.action)
    ensures q.namespace == SAFE_NAMESPACE && q.runbookIds != []
  {
  }
}
