/** Exactly which plans are prepared, and exactly when a profile matches and the observed identities agree. */
module PlanTheorems {
  import opened Wrappers
  import opened Evidence
  import opened Diagnosis
  import opened Policy
  import opened FactTheorems
  import opened AssessmentTheorems
  import opened PolicyTheorems

  // ----- the matched profile -----------------------------------------------------------------

  predicate DistinctNames(containers: seq<Container>) {
    forall i, j | 0 <= i < j < |containers| :: containers[i].name != containers[j].name
  }

  lemma ImagesStep(containers: seq<Container>, n: nat)
    requires n + 1 == |containers|
    ensures var before := Images(containers[..n]);
            && Images(containers) == before[containers[n].name := containers[n].image]
            && |Images(containers)| == |before| + (if containers[n].name in before then 0 else 1)
  {
    var before := Images(containers[..n]);
    var after := before[containers[n].name := containers[n].image];
    assert after.Keys == before.Keys + {containers[n].name};
    assert |after| == |after.Keys| && |before| == |before.Keys|;
    if containers[n].name in before { assert after.Keys == before.Keys; }
  }

  lemma DistinctStep(containers: seq<Container>, n: nat)
    requires n + 1 == |containers|
    ensures DistinctNames(containers) <==>
              DistinctNames(containers[..n]) && containers[n].name !in Images(containers[..n])
  {
    var rest := containers[..n];
    assert forall i :: 0 <= i < n ==> rest[i] == containers[i];
    assert containers[n].name in Images(rest) <==> exists i :: 0 <= i < n && rest[i].name == containers[n].name;
    hide Images;
  }

  lemma {:induction false} ImagesSize(containers: seq<Container>)
    ensures |Images(containers)| <= |containers|
    ensures |Images(containers)| == |containers| <==> DistinctNames(containers)
  {
    if containers != [] {
      var n: nat := |containers| - 1;
      ImagesSize(containers[..n]);
      ImagesStep(containers, n);
      DistinctStep(containers, n);
      hide Images, DistinctNames;
    }
  }

  lemma {:induction false} ImageAt(containers: seq<Container>, i: nat)
    requires DistinctNames(containers) && i < |containers|
    ensures containers[i].name in Images(containers) && Images(containers)[containers[i].name] == containers[i].image
  {
    var n: nat := |containers| - 1;
    ImagesStep(containers, n);
    if i < n {
      DistinctStep(containers, n);
      ImageAt(containers[..n], i);
    }
    hide Images, DistinctNames;
  }

  /** Each registered image runs in exactly one container, and nothing else runs. */
  ghost predicate RunsExactly(containers: seq<Container>, images: map<string, string>) {
    && DistinctNames(containers)
    && (forall i :: 0 <= i < |containers| ==>
          containers[i].name in images && images[containers[i].name] == containers[i].image)
    && (forall name :: name in images ==> exists i :: 0 <= i < |containers| && containers[i].name == name)
  }

  lemma RunsThese(containers: seq<Container>)
    requires DistinctNames(containers)
    ensures RunsExactly(containers, Images(containers))
  {
    forall i | 0 <= i < |containers|
      ensures containers[i].name in Images(containers) && Images(containers)[containers[i].name] == containers[i].image
    {
      ImageAt(containers, i);
    }
  }

  lemma RunsOnlyThese(containers: seq<Container>, images: map<string, string>)
    requires RunsExactly(containers, images)
    ensures Images(containers) == images
  {
    forall name ensures name in Images(containers) <==> name in images { }
    forall name | name in images ensures Images(containers)[name] == images[name] {
      var i :| 0 <= i < |containers| && containers[i].name == name;
      ImageAt(containers, i);
    }
  }

  lemma ImagesExactly(containers: seq<Container>, images: map<string, string>)
    ensures Images(containers) == images && |images| == |containers| <==> RunsExactly(containers, images)
  {
    ImagesSize(containers);
    if DistinctNames(containers) { RunsThese(containers); }
    if RunsExactly(containers, images) {
      RunsOnlyThese(containers, images);
    }
    hide Images, DistinctNames;
  }

  /** The row is the registered deployment in the registered version. */
  ghost predicate AsRegistered(profile: Profile, r: Row) {
    && r.kind == DeploymentRow && r.name == profile.deployment && r.body.DeploymentBody?
    && r.body.deploymentName == profile.deployment && r.namespace == Some(profile.namespace)
    && r.uid.Some? && r.body.generation.Some?
    && (profile.versionLabel in r.body.labels && r.body.labels[profile.versionLabel] == profile.version)
    && (forall k :: k in profile.selector ==> k in r.body.labels && r.body.labels[k] == profile.selector[k])
    && RunsExactly(r.body.containers, profile.images)
  }

  /** The snapshot was matched for this very request and still describes the one row of its deployment. */
  ghost predicate StillMatches(s: State, snapshot: ProfileSnapshot) {
    && snapshot.matched && snapshot.digest == snapshot.profile.digest
    && snapshot.profile.namespace == s.namespace && snapshot.profile.service == s.service
    && exists k :: 0 <= k < |s.evidence| && AsRegistered(snapshot.profile, s.evidence[k])
                   && s.evidence[k].uid == snapshot.deploymentUid
                   && s.evidence[k].body.generation == snapshot.generation
                   && forall i :: 0 <= i < |s.evidence| && i != k ==>
                        s.evidence[i].kind != DeploymentRow || s.evidence[i].name != snapshot.profile.deployment
  }

  lemma FitsMeans(profile: Profile, r: Row)
    ensures IsDeployment(profile, r) && Fits(profile, r) <==> AsRegistered(profile, r)
  {
    hide Images, RunsExactly;
    if r.body.DeploymentBody? { ImagesExactly(r.body.containers, profile.images); }
  }

  /** A profile is used exactly when its snapshot still matches; any difference leaves the request without one. */
  lemma MatchedExactly(s: State, profile: Profile)
    ensures MatchedProfile(s) == Some(profile) <==>
              s.profile.Some? && s.profile.value.profile == profile && StillMatches(s, s.profile.value)
  {
    hide Fits, AsRegistered;
    if s.profile.Some? {
      var p := s.profile.value.profile;
      var keep := (r: Row) => IsDeployment(p, r);
      if |Select(s.evidence, keep)| == 1 {
        var k := OnlySelected(s.evidence, keep);
        FitsMeans(p, s.evidence[k]);
        forall i | 0 <= i < |s.evidence| && i != k
          ensures s.evidence[i].kind != DeploymentRow || s.evidence[i].name != p.deployment
        {
          assert !keep(s.evidence[i]);
        }
      }
      forall k | 0 <= k < |s.evidence| && AsRegistered(p, s.evidence[k])
                 && forall i :: 0 <= i < |s.evidence| && i != k ==>
                      s.evidence[i].kind != DeploymentRow || s.evidence[i].name != p.deployment
        ensures Select(s.evidence, keep) == [s.evidence[k]] && Fits(p, s.evidence[k])
      {
        FitsMeans(p, s.evidence[k]);
        assert OnlyAt(s.evidence, keep, k);
        SelectOnly(s.evidence, keep, k);
      }
    }
  }

  // ----- identities --------------------------------------------------------------------------

  lemma {:induction false} ResourceFound(rows: seq<Row>, kind: Kind, name: string)
    ensures var r := Resource(rows, kind, name);
            && (r.Some? ==> r.value in rows && r.value.kind == kind && r.value.name == name)
            && (r.None? ==> forall v :: v in rows ==> v.kind != kind || v.name != name)
  {
    if rows != [] { ResourceFound(rows[..|rows| - 1], kind, name); }
  }

  /** Rows about one object of a kind agree on its UID and namespace. */
  ghost predicate OneIdentity(rows: seq<Row>) {
    forall a, b :: a in rows && b in rows && a.kind == b.kind && a.name == b.name ==>
      a.uid == b.uid && a.namespace == b.namespace
  }

  predicate SameOrUnknown(a: Option<string>, b: Option<string>) {
    a.Some? && b.Some? ==> a == b
  }

  /** The ownership chain names the pod and the deployment that were observed, and names both when it ends at a
      deployment and the pod has a UID. */
  ghost predicate ChainAgrees(rows: seq<Row>, r: Row)
    requires r.body.OwnerBody?
  {
    && (forall pod :: pod in rows && pod.kind == PodStatus && pod.name == r.name ==>
          && SameOrUnknown(r.body.podUid, pod.uid)
          && (pod.uid.Some? && r.body.deployment != "" ==> r.body.podUid.Some? && r.body.deploymentUid.Some?))
    && (forall d :: d in rows && d.kind == DeploymentRow && d.name == r.body.deployment ==>
          SameOrUnknown(r.body.deploymentUid, d.uid))
  }

  ghost predicate EndpointAgrees(rows: seq<Row>, slice: Row, e: Endpoint) {
    e.isPod ==>
      && (slice.uid.Some? ==> e.targetUid.Some?)
      && (forall pod :: pod in rows && pod.kind == PodStatus && pod.name == e.targetName ==>
            SameOrUnknown(e.targetUid, pod.uid) && (e.targetNamespace.Some? ==> e.targetNamespace == pod.namespace))
  }

  ghost predicate SliceAgrees(rows: seq<Row>, r: Row)
    requires r.body.EndpointBody?
  {
    && (r.uid.Some? ==> r.body.serviceUid.Some?)
    && (forall v :: v in rows && v.kind == ServiceRow && v.name == r.body.service ==>
          SameOrUnknown(r.body.serviceUid, v.uid))
    && (forall e :: e in r.body.endpoints ==> EndpointAgrees(rows, r, e))
  }

  /** No two observations contradict each other about which objects belong together. */
  ghost predicate IdentitiesAgree(rows: seq<Row>) {
    && OneIdentity(rows)
    && (forall r :: r in rows && r.kind == OwnerChain && r.body.OwnerBody? ==> ChainAgrees(rows, r))
    && (forall r :: r in rows && r.kind == EndpointSlice && r.body.EndpointBody? ==> SliceAgrees(rows, r))
  }

  lemma UnambiguousMeans(rows: seq<Row>)
    ensures Unambiguous(rows) <==> OneIdentity(rows)
  {
    if Unambiguous(rows) {
      forall a, b | a in rows && b in rows && a.kind == b.kind && a.name == b.name
        ensures a.uid == b.uid && a.namespace == b.namespace
      {
        var i :| 0 <= i < |rows| && rows[i] == a;
        var j :| 0 <= j < |rows| && rows[j] == b;
      }
    }
  }

  lemma ChainMeans(rows: seq<Row>, r: Row)
    requires OneIdentity(rows) && r.kind == OwnerChain && r.body.OwnerBody?
    ensures ChainHolds(rows, r) <==> ChainAgrees(rows, r)
  {
    ResourceFound(rows, PodStatus, r.name);
    ResourceFound(rows, DeploymentRow, r.body.deployment);
    hide Resource;
  }

  lemma EndpointMeans(rows: seq<Row>, slice: Row, e: Endpoint)
    requires OneIdentity(rows)
    ensures EndpointHolds(rows, slice, e) <==> EndpointAgrees(rows, slice, e)
  {
    ResourceFound(rows, PodStatus, e.targetName);
    hide Resource;
  }

  lemma SliceMeans(rows: seq<Row>, r: Row)
    requires OneIdentity(rows) && r.kind == EndpointSlice && r.body.EndpointBody?
    ensures SliceHolds(rows, r) <==> SliceAgrees(rows, r)
  {
    hide Resource, EndpointHolds, EndpointAgrees;
    ResourceFound(rows, ServiceRow, r.body.service);
    forall e ensures EndpointHolds(rows, r, e) <==> EndpointAgrees(rows, r, e) { EndpointMeans(rows, r, e); }
  }

  /** The order in which rows of one object were collected makes no difference to the identity check. */
  lemma RelationshipsExactly(rows: seq<Row>)
    ensures RelationshipsHold(rows) <==> IdentitiesAgree(rows)
  {
    hide Unambiguous, OneIdentity, ChainHolds, SliceHolds, ChainAgrees, SliceAgrees;
    UnambiguousMeans(rows);
    if OneIdentity(rows) {
      forall r: Row | r.kind == OwnerChain && r.body.OwnerBody? ensures ChainHolds(rows, r) <==> ChainAgrees(rows, r) {
        ChainMeans(rows, r);
      }
      forall r: Row | r.kind == EndpointSlice && r.body.EndpointBody?
        ensures SliceHolds(rows, r) <==> SliceAgrees(rows, r)
      {
        SliceMeans(rows, r);
      }
      forall r: Row ensures !(r.kind == OwnerChain && r.body.OwnerBody?) ==> ChainHolds(rows, r)
        ensures !(r.kind == EndpointSlice && r.body.EndpointBody?) ==> SliceHolds(rows, r)
      {
        OtherRowsHold(rows, r);
      }
    }
  }

  lemma OtherRowsHold(rows: seq<Row>, r: Row)
    ensures !(r.kind == OwnerChain && r.body.OwnerBody?) ==> ChainHolds(rows, r)
    ensures !(r.kind == EndpointSlice && r.body.EndpointBody?) ==> SliceHolds(rows, r)
  {
  }

  // ----- prepared plans ----------------------------------------------------------------------

  /** Checks whose answer does not depend on the added citations and the bound UID. */
  predicate Checked(p: Plan, s: State) {
    TargetOk(p, s) && p.commandFree && MetadataOk(p) && ActionOk(p, s) && p.runbookIds != []
  }

  predicate Bindable(p: Plan, s: State) {
    TargetUid(s, p).Some? && (p.targetUid.Some? ==> p.targetUid == TargetUid(s, p)) && RelationshipsHold(s.evidence)
  }

  predicate MayAttach(p: Plan, s: State) {
    && MatchedProfile(s).Some? && RegisteredAction(MatchedProfile(s).value, p)
    && FactsOf(s).Some? && CanAttach(p, s, FactsOf(s).value)
  }

  predicate IsAllowed(p: Plan, s: State) {
    Allowed(s).Ok? && p.action in Allowed(s).value
  }

  lemma CompletedIs(p: Plan, s: State)
    requires FactsOf(s).Some?
    ensures Completed(p, s).Some? <==> Bindable(p, s)
    ensures Completed(p, s).Some? ==>
              Completed(p, s).value == p.(targetUid := TargetUid(s, p),
                                          evidenceIds := p.evidenceIds + Missing(FactsOf(s).value.configurationIds,
                                                                                 p.evidenceIds))
  {
    var c := p.(evidenceIds := p.evidenceIds + Missing(FactsOf(s).value.configurationIds, p.evidenceIds));
    SameTarget(s, c, p);
    hide FactsOf, TargetUid, RelationshipsHold, Missing;
  }

  lemma SameChecks(p: Plan, q: Plan, s: State)
    requires q == p.(targetUid := q.targetUid, evidenceIds := q.evidenceIds)
    ensures Checked(p, s) <==> Checked(q, s)
    ensures forall profile :: RegisteredAction(profile, p) <==> RegisteredAction(profile, q)
  {
  }

  lemma RepeatsAppend(a: seq<string>, b: seq<string>)
    requires NoRepeats(a) && NoRepeats(b) && forall x :: x in b ==> x !in a
    ensures NoRepeats(a + b)
  {
    forall i, j | 0 <= i < j < |a + b| ensures (a + b)[i] != (a + b)[j] {
      if i < |a| <= j { assert (a + b)[j] in b && (a + b)[i] in a; }
    }
  }

  lemma AttachedReferences(p: Plan, q: Plan, s: State, added: seq<string>)
    requires ReferencesOk(p, s) && s.diagnosis.Some? && NoRepeats(added)
    requires forall x :: x in added ==> x !in p.evidenceIds
    requires forall x :: x in added ==> x in Available(s) && x in s.diagnosis.value.evidenceIds
    requires q == p.(targetUid := q.targetUid, evidenceIds := p.evidenceIds + added)
    ensures ReferencesOk(q, s)
  {
    RepeatsAppend(p.evidenceIds, added);
    forall x | x in q.evidenceIds ensures x in Available(s) && x in s.diagnosis.value.evidenceIds {
      assert x in p.evidenceIds ==> x in SetOf(p.evidenceIds);
    }
  }

  lemma CitableIsAvailable(s: State)
    ensures Citable(s) <= Available(s)
  {
    forall id | id in Citable(s) ensures id in Available(s) {
      var r :| r in s.evidence && !r.failed && r.id == id;
      IdIn(s.evidence, r);
    }
  }

  lemma ValidExactly(q: Plan, s: State)
    requires Executable(q.action) && BindTarget(q, s).Some?
    ensures Validate(q, s).Ok? <==>
              && IsAllowed(q, s) && ReferencesOk(q, s) && Checked(q, s) && FactsOf(s).Some?
              && SetOf(FactsOf(s).value.configurationIds) <= SetOf(q.evidenceIds)
              && MatchedProfile(s).Some? && RegisteredAction(MatchedProfile(s).value, q)
  {
    hide Allowed, ReferencesOk, TargetOk, MetadataOk, ActionOk, FactsOf, MatchedProfile, RegisteredAction, BindTarget;
  }

  lemma AttachedCites(p: Plan, s: State)
    requires FactsOf(s).Some?
    ensures var ids := FactsOf(s).value.configurationIds;
            SetOf(ids) <= SetOf(p.evidenceIds + Missing(ids, p.evidenceIds))
  {
    hide FactsOf;
    var ids := FactsOf(s).value.configurationIds;
    forall x | x in SetOf(ids) ensures x in SetOf(p.evidenceIds + Missing(ids, p.evidenceIds)) {
      assert x in p.evidenceIds || x in Missing(ids, p.evidenceIds);
    }
  }

  lemma PreparedParts(p: Plan, s: State)
    requires Executable(p.action)
    ensures Prepare(p, s).Ok? ==>
              ReferencesOk(p, s) && IsAllowed(p, s) && MayAttach(p, s) && Bindable(p, s) && Checked(p, s)
  {
    if Prepare(p, s).Ok? {
      PreparedIs(p, s);
      CompletedIs(p, s);
      var q := Completed(p, s).value;
      SameChecks(p, q, s);
      BindsCompleted(p, s);
      ValidExactly(q, s);
      hide ReferencesOk, Allowed, Checked, Bindable, FactsOf, MatchedProfile, CanAttach, RegisteredAction, Validate;
    }
  }

  lemma BindsCompleted(p: Plan, s: State)
    requires FactsOf(s).Some? && Bindable(p, s)
    ensures Completed(p, s).Some? && BindTarget(Completed(p, s).value, s).Some?
  {
    CompletedIs(p, s);
    SameTarget(s, Completed(p, s).value, p);
    hide FactsOf, TargetUid, RelationshipsHold, Completed;
  }

  lemma PartsPrepare(p: Plan, s: State)
    requires Executable(p.action)
    requires ReferencesOk(p, s) && IsAllowed(p, s) && MayAttach(p, s) && Bindable(p, s) && Checked(p, s)
    ensures Prepare(p, s).Ok?
  {
    hide ReferencesOk, Allowed, Checked, Bindable, FactsOf, MatchedProfile, RegisteredAction, Validate, Citable;
    hide Available, Completed, BindTarget;
    CompletedIs(p, s);
    BindsCompleted(p, s);
    var q, ids := Completed(p, s).value, FactsOf(s).value.configurationIds;
    SameChecks(p, q, s);
    CitableIsAvailable(s);
    AttachedCites(p, s);
    forall x | x in Missing(ids, p.evidenceIds) ensures x in Available(s) && x in s.diagnosis.value.evidenceIds {
      assert x in SetOf(ids);
    }
    AttachedReferences(p, q, s, Missing(ids, p.evidenceIds));
    ValidExactly(q, s);
    ValidIsItself(q, s);
    PrepareFollows(p, s);
  }

  lemma ValidIsItself(q: Plan, s: State)
    ensures Validate(q, s).Ok? ==> Validate(q, s) == Ok(q)
  {
    hide Allowed, ReferencesOk, TargetOk, MetadataOk, ActionOk, WriteOk, BindTarget;
  }

  /** The plan cites each thing once, only what was collected or retrieved and what the diagnosis cites, and at least
      one row of the configuration. */
  ghost predicate CitesProperly(s: State, dep: Row, p: Plan, d: Report) {
    && NoRepeats(p.evidenceIds) && NoRepeats(p.runbookIds) && p.runbookIds != []
    && (forall id :: id in p.evidenceIds ==> id != "" && id in Ids(s.evidence) && id in d.evidenceIds)
    && (forall id :: id in p.runbookIds ==> id != "" && id in s.runbooks && id in d.runbookIds)
    && (exists id :: id in p.evidenceIds && (id == dep.id || NamesService(s, id)))
    && dep.id != "" && !NamesService(s, "")
  }

  /** The write is the registered one for its action and replaces just what was observed. */
  ghost predicate Replaces(s: State, profile: Profile, p: Plan) {
    match p.action
    case Manual => false
    case PatchSelector =>
      ReplacesSelector(s, p, profile) && DistinctKeys(p.currentSelector) && p.proposedSelector != []
    case PatchProbe =>
      && ReplacesProbe(s, p, profile) && profile.container != "" && p.currentPath != Some("")
      && profile.probe.path != "" && profile.probe.path[0] == '/'
      && forall i :: 0 <= i < |profile.probe.path| ==> !IsSpace(profile.probe.path[i])
  }

  /** One usable row alone is the target's; it carries a UID of legal length and the plan names no other. */
  ghost predicate OneTarget(s: State, p: Plan) {
    exists k :: 0 <= k < |s.evidence| && IsTarget(p, s.evidence[k]) && s.evidence[k].uid.Some?
                && 1 <= |s.evidence[k].uid.value| <= 128
                && (p.targetUid.Some? ==> p.targetUid == s.evidence[k].uid)
                && forall i :: 0 <= i < |s.evidence| && i != k ==> !IsTarget(p, s.evidence[i])
  }

  lemma BindableExactly(s: State, p: Plan)
    ensures Bindable(p, s) <==> OneTarget(s, p) && IdentitiesAgree(s.evidence)
  {
    hide TargetUid, RelationshipsHold, IdentitiesAgree, IsTarget;
    RelationshipsExactly(s.evidence);
    if TargetUid(s, p).Some? { TargetUidExactly(s, p, TargetUid(s, p).value); }
    forall k | 0 <= k < |s.evidence| && IsTarget(p, s.evidence[k]) && s.evidence[k].uid.Some?
               && 1 <= |s.evidence[k].uid.value| <= 128
               && forall i :: 0 <= i < |s.evidence| && i != k ==> !IsTarget(p, s.evidence[i])
      ensures TargetUid(s, p) == s.evidence[k].uid
    {
      TargetUidExactly(s, p, s.evidence[k].uid.value);
    }
  }

  lemma ReferencesExactly(s: State, p: Plan, d: Report)
    requires s.diagnosis == Some(d)
    ensures ReferencesOk(p, s) <==>
              && NoRepeats(p.evidenceIds) && NoRepeats(p.runbookIds)
              && (forall id :: id in p.evidenceIds ==> id != "" && id in Ids(s.evidence) && id in d.evidenceIds)
              && (forall id :: id in p.runbookIds ==> id != "" && id in s.runbooks && id in d.runbookIds)
  {
    forall x ensures x in p.evidenceIds <==> x in SetOf(p.evidenceIds) { }
    forall x ensures x in p.runbookIds <==> x in SetOf(p.runbookIds) { }
    forall x ensures x in d.evidenceIds <==> x in SetOf(d.evidenceIds) { }
    forall x ensures x in d.runbookIds <==> x in SetOf(d.runbookIds) { }
    hide SetOf, NoRepeats, Ids;
  }

  lemma ConfigurationIdKinds(s: State, profile: Profile, id: string)
    requires MatchedProfile(s) == Some(profile) && FactsOf(s).Some?
    ensures DeploymentOf(s, profile).Some?
    ensures id in FactsOf(s).value.configurationIds <==>
              id == DeploymentOf(s, profile).value.id || NamesService(s, id)
    ensures id in FactsOf(s).value.configurationIds ==> id in Ids(s.evidence)
  {
    hide FactsOf, MatchedProfile, DeploymentOf, ProbeDrifts, ProbeAgrees, SelectorDrifts;
    ConfigurationExactly(s, profile);
    var dep := DeploymentOf(s, profile).value;
    IdIn(s.evidence, dep);
  }

  lemma AttachExactly(s: State, profile: Profile, p: Plan, d: Report)
    requires MatchedProfile(s) == Some(profile) && FactsOf(s).Some? && s.diagnosis == Some(d)
    ensures DeploymentOf(s, profile).Some?
    ensures CanAttach(p, s, FactsOf(s).value) <==>
              var dep := DeploymentOf(s, profile).value;
              && FactsOf(s).value.complete && CitesConfiguration(s, dep, d.evidenceIds)
              && dep.id != "" && !NamesService(s, "")
              && exists id :: id in p.evidenceIds && (id == dep.id || NamesService(s, id))
  {
    hide FactsOf, MatchedProfile, DeploymentOf, NamesService, Citable, SetOf;
    ConfigurationIdKinds(s, profile, "");
    var ids := FactsOf(s).value.configurationIds;
    forall id ensures id in ids <==> id == DeploymentOf(s, profile).value.id || NamesService(s, id)
      ensures id in ids ==> id in Ids(s.evidence)
    {
      ConfigurationIdKinds(s, profile, id);
    }
    ConfigurationIdsCited(s, profile, d.evidenceIds);
    WithinMeans(p.evidenceIds, ids);
    CitableExactly(s, ids);
    assert DeploymentOf(s, profile).value.id in ids;
    if "" !in ids {
      AvailableIds(s, ids);
      ConfigurationIdsCitable(s);
    }
  }

  lemma CitableExactly(s: State, ids: seq<string>)
    ensures SetOf(ids) <= Citable(s) ==> "" !in ids
  {
    if "" in ids { assert "" in SetOf(ids); }
  }

  lemma AvailableIds(s: State, ids: seq<string>)
    requires "" !in ids && forall id :: id in ids ==> id in Ids(s.evidence)
    ensures SetOf(ids) <= Available(s)
  {
  }

  lemma SelectorReplaces(s: State, profile: Profile, p: Plan)
    requires MatchedProfile(s) == Some(profile) && p.action == PatchSelector && ReplacesSelector(s, p, profile)
    requires DistinctKeys(p.currentSelector) && p.proposedSelector != []
    ensures RegisteredAction(profile, p) && SelectorPlanOk(p, s)
    ensures exists i :: 0 <= i < |s.evidence| && s.evidence[i].kind == EvidenceKind(p.kind)
                        && s.evidence[i].name == p.name
  {
    assert profile.service == s.service;
    hide MatchedProfile;
    var row := FirstNamed(s.evidence, ServiceRow, p.name);
    var r :| r in s.evidence && NamedService(profile, r);
    assert row.Some? && NamedService(profile, row.value);
    var i :| 0 <= i < |s.evidence| && s.evidence[i] == r;
  }

  lemma ProbeReplaces(s: State, profile: Profile, p: Plan)
    requires p.action == PatchProbe && Replaces(s, profile, p)
    ensures RegisteredAction(profile, p) && ProbePlanOk(p, s)
    ensures exists i :: 0 <= i < |s.evidence| && s.evidence[i].kind == EvidenceKind(p.kind)
                        && s.evidence[i].name == p.name
  {
    var row := FirstNamed(s.evidence, DeploymentRow, p.name);
    var r :| r in s.evidence && IsDeployment(profile, r);
    assert row.Some? && IsDeployment(profile, row.value);
    var i :| 0 <= i < |s.evidence| && s.evidence[i] == r;
  }

  /** The registered write on the observed target: what the several checks of it come to. */
  lemma ReplacesExactly(s: State, profile: Profile, p: Plan)
    requires MatchedProfile(s) == Some(profile) && Executable(p.action)
    requires DeploymentOf(s, profile).Some? && (p.action == PatchSelector ==> SelectorCandidate(s))
    ensures RegisteredAction(profile, p) && ActionOk(p, s) && TargetOk(p, s) <==>
              Replaces(s, profile, p) && p.namespace == SAFE_NAMESPACE && p.namespace == s.namespace
  {
    hide MatchedProfile, SelectorCandidate, DeploymentOf;
    if RegisteredAction(profile, p) && ActionOk(p, s) && TargetOk(p, s) {
      if p.action == PatchSelector { SelectorPlanReplaces(s, p, profile); } else { ProbePlanReplaces(s, p, profile); }
    }
    if Replaces(s, profile, p) && p.namespace == SAFE_NAMESPACE && p.namespace == s.namespace {
      if p.action == PatchSelector { SelectorReplaces(s, profile, p); } else { ProbeReplaces(s, profile, p); }
    }
  }

  /** The plan fits the evidence in everything but the diagnosis. */
  ghost predicate Conforms(s: State, profile: Profile, dep: Row, p: Plan)
    requires s.diagnosis.Some?
  {
    && CitesProperly(s, dep, p, s.diagnosis.value)
    && Replaces(s, profile, p) && p.namespace == SAFE_NAMESPACE && p.namespace == s.namespace
    && p.approval && p.risk == Medium && p.commandFree
    && OneTarget(s, p) && IdentitiesAgree(s.evidence)
  }

  lemma PreparedIffParts(p: Plan, s: State)
    requires Executable(p.action)
    ensures Prepare(p, s).Ok? <==>
              IsAllowed(p, s) && ReferencesOk(p, s) && MayAttach(p, s) && Bindable(p, s) && Checked(p, s)
  {
    hide Prepare, IsAllowed, ReferencesOk, MayAttach, Bindable, Checked;
    PreparedParts(p, s);
    if IsAllowed(p, s) && ReferencesOk(p, s) && MayAttach(p, s) && Bindable(p, s) && Checked(p, s) {
      PartsPrepare(p, s);
    }
  }

  lemma WarrantedFacts(s: State, profile: Profile, a: Action)
    requires MatchedProfile(s) == Some(profile) && FactsOf(s).Some? && Executable(a)
    requires DeploymentOf(s, profile).Some? && DeploymentOf(s, profile).value.body.DeploymentBody?
    requires Warranted(s, profile, DeploymentOf(s, profile).value, a)
    ensures s.diagnosis.Some? && FactsOf(s).value.complete
    ensures CitesConfiguration(s, DeploymentOf(s, profile).value, s.diagnosis.value.evidenceIds)
    ensures a == PatchSelector ==> SelectorCandidate(s)
  {
    hide FactsOf, MatchedProfile, DeploymentOf, SelectorCandidate, SelectorDiffers, CitesConfiguration, Undisputed;
    hide StatusesHold, CitesResults, ConfigurationSeen, AddressDiffers;
    FactsShown(s, profile);
    SelectorCandidateExactly(s, profile);
  }

  lemma CheckedIs(s: State, p: Plan)
    requires Executable(p.action)
    ensures Checked(p, s) <==>
              && TargetOk(p, s) && ActionOk(p, s) && p.commandFree && p.approval && p.risk == Medium
              && p.runbookIds != []
  {
    hide TargetOk, ActionOk;
  }

  /** The parts that depend on the evidence, each by its own result. */
  lemma PartsAre(s: State, profile: Profile, p: Plan, d: Report)
    requires MatchedProfile(s) == Some(profile) && FactsOf(s).Some? && Executable(p.action) && s.diagnosis == Some(d)
    requires DeploymentOf(s, profile).Some? && FactsOf(s).value.complete
    requires CitesConfiguration(s, DeploymentOf(s, profile).value, d.evidenceIds)
    requires p.action == PatchSelector ==> SelectorCandidate(s)
    ensures var dep := DeploymentOf(s, profile).value;
            && (ReferencesOk(p, s) && CanAttach(p, s, FactsOf(s).value) && p.runbookIds != [] <==>
                  CitesProperly(s, dep, p, d))
            && (RegisteredAction(profile, p) && ActionOk(p, s) && TargetOk(p, s) <==>
                  Replaces(s, profile, p) && p.namespace == SAFE_NAMESPACE && p.namespace == s.namespace)
            && (Bindable(p, s) <==> OneTarget(s, p) && IdentitiesAgree(s.evidence))
  {
    hide FactsOf, MatchedProfile, DeploymentOf, SelectorCandidate, CitesConfiguration, NamesService, Ids;
    hide RegisteredAction, ActionOk, TargetOk, Bindable, OneTarget, IdentitiesAgree, Replaces, CanAttach;
    hide ReferencesOk, NoRepeats;
    ReferencesExactly(s, p, d);
    AttachExactly(s, profile, p, d);
    BindableExactly(s, p);
    ReplacesExactly(s, profile, p);
  }

  lemma PartsMatched(s: State, profile: Profile, p: Plan)
    requires MatchedProfile(s) == Some(profile) && FactsOf(s).Some? && Executable(p.action)
    requires DeploymentOf(s, profile).Some? && DeploymentOf(s, profile).value.body.DeploymentBody?
    requires Warranted(s, profile, DeploymentOf(s, profile).value, p.action)
    ensures s.diagnosis.Some?
    ensures ReferencesOk(p, s) && MayAttach(p, s) && Bindable(p, s) && Checked(p, s) <==>
              Conforms(s, profile, DeploymentOf(s, profile).value, p)
  {
    hide FactsOf, MatchedProfile, DeploymentOf, SelectorCandidate, CitesConfiguration, Warranted, CitesProperly;
    hide RegisteredAction, ActionOk, TargetOk, Bindable, OneTarget, IdentitiesAgree, Replaces, CanAttach;
    hide ReferencesOk, Checked;
    WarrantedFacts(s, profile, p.action);
    PartsAre(s, profile, p, s.diagnosis.value);
    CheckedIs(s, p);
  }

  /** A write plan is prepared exactly when the profile matches, the evidence warrants the write and the plan
      conforms to the evidence. */
  lemma PreparedExactly(p: Plan, s: State)
    requires Executable(p.action)
    ensures Prepare(p, s).Ok? <==>
              && MatchedProfile(s).Some? && DeploymentOf(s, MatchedProfile(s).value).Some?
              && var profile := MatchedProfile(s).value; var dep := DeploymentOf(s, profile).value;
                 dep.body.DeploymentBody? && Warranted(s, profile, dep, p.action) && Conforms(s, profile, dep, p)
  {
    hide Prepare, ReferencesOk, MayAttach, Bindable, Checked, MatchedProfile, DeploymentOf, Conforms, Allowed;
    PreparedIffParts(p, s);
    AllowedExactly(s, p.action);
    if IsAllowed(p, s) {
      var profile := MatchedProfile(s).value;
      FactsExist(s, profile);
      PartsMatched(s, profile, p);
    }
  }
}
