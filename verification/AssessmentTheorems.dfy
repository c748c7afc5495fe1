/** What an accepted diagnosis says about the evidence: each category with the rows that have to bear it out. */
module AssessmentTheorems {
  import opened Wrappers
  import opened Evidence
  import opened Diagnosis
  import opened FactTheorems

  // ----- citations ---------------------------------------------------------------------------

  ghost predicate SliceRow(s: State, r: Row) {
    r in s.evidence && !r.failed && r.kind == EndpointSlice && r.body.EndpointBody? && r.namespace == Some(s.namespace)
    && r.body.service == s.service
  }

  /** Non-empty logs of the current container of a pod of the registered deployment. */
  ghost predicate LogRow(s: State, profile: Profile, r: Row) {
    r in s.evidence && !r.failed && r.kind == PodLogs && r.body.LogBody? && r.body.hasContent
    && r.previous == Some(false) && PartOf(s, profile, r.name)
  }

  /** Row `k` is the only usable result of the check. */
  ghost predicate SoleResult(s: State, check: CheckContract, k: int) {
    && 0 <= k < |s.evidence| && ResultRow(check, s.evidence[k])
    && forall i :: 0 <= i < |s.evidence| && i != k ==> !ResultRow(check, s.evidence[i])
  }

  ghost predicate NamesResult(s: State, check: CheckContract, id: string) {
    exists k :: SoleResult(s, check, k) && s.evidence[k].id == id
  }

  ghost predicate CitesConfiguration(s: State, dep: Row, ids: seq<string>) {
    && dep.id in ids
    && forall id :: NamesService(s, id) ==> id in ids
  }

  ghost predicate CitesResources(s: State, profile: Profile, dep: Row, ids: seq<string>) {
    && dep.id in ids && (forall r :: PodRow(s, profile, r) ==> r.id in ids)
    && forall r :: SliceRow(s, r) ==> r.id in ids
  }

  ghost predicate CitesResults(s: State, profile: Profile, ids: seq<string>) {
    forall check, id :: check in profile.checks && NamesResult(s, check, id) ==> id in ids
  }

  ghost predicate CitesLogs(s: State, profile: Profile, ids: seq<string>) {
    exists r :: LogRow(s, profile, r) && r.id in ids
  }

  lemma WithinMeans(a: seq<string>, b: seq<string>)
    ensures SetOf(a) <= SetOf(b) <==> forall x :: x in a ==> x in b
    ensures SetOf(a) * SetOf(b) != {} <==> exists x :: x in a && x in b
  {
    forall x ensures x in a <==> x in SetOf(a) { }
    forall x ensures x in b <==> x in SetOf(b) { }
    if exists x :: x in a && x in b {
      var x :| x in a && x in b;
      assert x in SetOf(a) * SetOf(b);
    }
    if SetOf(a) * SetOf(b) != {} {
      var x :| x in SetOf(a) * SetOf(b);
    }
    if SetOf(a) <= SetOf(b) {
      forall x | x in a ensures x in b { assert x in SetOf(a); }
    }
  }

  lemma IdsMean(rows: seq<Row>, id: string)
    ensures id in IdsOf(rows) <==> exists r :: r in rows && r.id == id
  {
    if id in IdsOf(rows) {
      var k :| 0 <= k < |IdsOf(rows)| && IdsOf(rows)[k] == id;
      assert rows[k] in rows;
    }
    forall r | r in rows && r.id == id ensures id in IdsOf(rows) {
      var k :| 0 <= k < |rows| && rows[k] == r;
      assert IdsOf(rows)[k] == id;
    }
  }

  lemma {:induction false} ResultIdsMean(s: State, profile: Profile, checks: seq<CheckContract>, id: string)
    ensures id in BusinessIds(s, profile, checks) <==>
              exists check :: check in checks && NamesResult(s, check, id)
  {
    hide CheckFact, NamesResult;
    if checks != [] {
      var n := |checks| - 1;
      var rest, check := checks[..n], checks[n];
      assert checks == rest + [check];
      ResultIdsMean(s, profile, rest, id);
      ResultIdMeans(s, profile, check, id);
    }
  }

  lemma ResultIdMeans(s: State, profile: Profile, check: CheckContract, id: string)
    ensures CheckFact(s, profile, check).0 == Some(id) <==> NamesResult(s, check, id)
  {
    hide CheckFact;
    if CheckFact(s, profile, check).0 == Some(id) {
      var k := ResultExists(s, profile, check);
      ResultIs(s, profile, check, k);
      assert SoleResult(s, check, k);
    }
    forall k | SoleResult(s, check, k)
      ensures 0 <= k < |s.evidence| && CheckFact(s, profile, check).0 == Some(s.evidence[k].id)
    {
      ResultIs(s, profile, check, k);
    }
  }

  function LogsOf(s: State, profile: Profile): (rows: seq<Row>) {
    Select(s.evidence, (r: Row) => OwnLogs(s, profile, r))
  }

  lemma LogsMean(s: State, profile: Profile, r: Row)
    ensures r in LogsOf(s, profile) <==> LogRow(s, profile, r)
  {
    OwnedMeans(s, profile, r.name);
  }

  lemma CitationFacts(s: State, profile: Profile, dep: Row)
    requires dep.body.DeploymentBody?
    ensures var f := MatchedFacts(s, profile, dep);
            && f.resourceIds == [dep.id] + IdsOf(PodsOf(s, profile)) + IdsOf(SlicesOf(s))
            && f.businessIds == BusinessIds(s, profile, profile.checks)
            && f.logIds == IdsOf(LogsOf(s, profile))
  {
    hide ResourceOf, BusinessOf, FaultsOf, BusinessIds;
  }

  lemma ResourceIdsMean(s: State, profile: Profile, dep: Row, ids: seq<string>)
    requires dep.body.DeploymentBody?
    ensures SetOf(MatchedFacts(s, profile, dep).resourceIds) <= SetOf(ids) <==> CitesResources(s, profile, dep, ids)
  {
    hide MatchedFacts, PodRow, PodsOf, SliceRow, SlicesOf, IdsOf, SetOf;
    CitationFacts(s, profile, dep);
    var pods, slices := PodsOf(s, profile), SlicesOf(s);
    var all := [dep.id] + IdsOf(pods) + IdsOf(slices);
    WithinMeans(all, ids);
    forall x ensures x in all <==> x == dep.id || (exists r :: r in pods && r.id == x)
                                   || exists r :: r in slices && r.id == x
    {
      IdsMean(pods, x);
      IdsMean(slices, x);
    }
    forall r ensures r in pods <==> PodRow(s, profile, r) { PodsMean(s, profile, r); }
    forall r ensures r in slices <==> SliceRow(s, r) { SlicesMean(s, r); }
    forall r | r in pods ensures r.id in all { }
    forall r | r in slices ensures r.id in all { }
  }

  lemma SlicesMean(s: State, r: Row)
    ensures r in SlicesOf(s) <==> SliceRow(s, r)
  {
  }

  lemma ResultIdsCited(s: State, profile: Profile, dep: Row, ids: seq<string>)
    requires dep.body.DeploymentBody?
    ensures SetOf(MatchedFacts(s, profile, dep).businessIds) <= SetOf(ids) <==> CitesResults(s, profile, ids)
  {
    hide MatchedFacts, BusinessIds, NamesResult, SetOf;
    CitationFacts(s, profile, dep);
    var all := BusinessIds(s, profile, profile.checks);
    WithinMeans(all, ids);
    forall x ensures x in all <==> exists check :: check in profile.checks && NamesResult(s, check, x) {
      ResultIdsMean(s, profile, profile.checks, x);
    }
  }

  lemma LogIdsCited(s: State, profile: Profile, dep: Row, ids: seq<string>)
    requires dep.body.DeploymentBody?
    ensures SetOf(MatchedFacts(s, profile, dep).logIds) * SetOf(ids) != {} <==> CitesLogs(s, profile, ids)
  {
    hide MatchedFacts, LogRow, LogsOf, SetOf, IdsOf;
    CitationFacts(s, profile, dep);
    var logs := LogsOf(s, profile);
    WithinMeans(IdsOf(logs), ids);
    forall x ensures x in IdsOf(logs) <==> exists r :: r in logs && r.id == x { IdsMean(logs, x); }
    forall r ensures r in logs <==> LogRow(s, profile, r) { LogsMean(s, profile, r); }
  }

  lemma ConfigurationIdsCited(s: State, profile: Profile, ids: seq<string>)
    requires MatchedProfile(s) == Some(profile) && FactsOf(s).Some?
    ensures DeploymentOf(s, profile).Some?
    ensures SetOf(FactsOf(s).value.configurationIds) <= SetOf(ids) <==>
              CitesConfiguration(s, DeploymentOf(s, profile).value, ids)
  {
    hide FactsOf, MatchedProfile, DeploymentOf, NamesService, SetOf;
    ConfigurationExactly(s, profile);
    WithinMeans(FactsOf(s).value.configurationIds, ids);
  }

  // ----- what the evidence shows -------------------------------------------------------------

  ghost predicate SomeCheckFails(s: State, profile: Profile) {
    exists check :: check in profile.checks && CheckFails(s, profile, check)
  }

  ghost predicate EveryCheckPasses(s: State, profile: Profile) {
    profile.checks != [] && forall check :: check in profile.checks ==> CheckPasses(s, profile, check)
  }

  ghost predicate ResourceReady(s: State, profile: Profile, dep: Row)
    requires dep.body.DeploymentBody?
  {
    dep.body.desired.Some? && dep.body.desired.value >= 0 && Complete(s, profile, dep)
  }

  ghost predicate ResourceShort(s: State, profile: Profile, dep: Row)
    requires dep.body.DeploymentBody?
  {
    dep.body.desired.Some? && dep.body.desired.value >= 0 && Short(s, profile, dep)
  }

  /** The Service and the probe of the registered container were both observed. */
  ghost predicate ConfigurationSeen(s: State, profile: Profile, dep: Row)
    requires dep.body.DeploymentBody?
  {
    && (exists labels :: SelectsBy(s, labels))
    && exists view :: ProbedBy(dep.body.containers, profile.container, view) && CompleteProbe(view)
  }

  /** Nothing observed speaks against a repair of the configuration. */
  ghost predicate Undisputed(s: State, profile: Profile) {
    !SomeCheckFails(s, profile) && !Faulty(s, profile)
  }

  /** The facts agree with what the evidence shows. */
  ghost predicate Shown(s: State, profile: Profile, dep: Row, f: Facts)
    requires dep.body.DeploymentBody?
  {
    && (f.resource == Ready <==> ResourceReady(s, profile, dep))
    && (f.resource == NotReady <==> ResourceShort(s, profile, dep))
    && (f.business == CheckFailed <==> SomeCheckFails(s, profile))
    && (f.business == CheckPassed <==> EveryCheckPasses(s, profile))
    && (f.selectorDrift <==> SelectorDrifts(s, profile)) && (f.readiness.drift <==> ProbeDrifts(dep, profile))
    && (f.complete <==> ConfigurationSeen(s, profile, dep))
    && (CrashLoop in f.faults <==> Stopped(s, profile, "CrashLoopBackOff"))
    && (ImagePull in f.faults <==> Stopped(s, profile, "ImagePullBackOff") || Stopped(s, profile, "ErrImagePull"))
    && (OomKilled in f.faults <==> Stopped(s, profile, "OOMKilled"))
    && (f.faults == {} <==> !Faulty(s, profile))
  }

  lemma FactsShown(s: State, profile: Profile)
    requires MatchedProfile(s) == Some(profile) && FactsOf(s).Some?
    ensures DeploymentOf(s, profile).Some? && DeploymentOf(s, profile).value.body.DeploymentBody?
    ensures Shown(s, profile, DeploymentOf(s, profile).value, FactsOf(s).value)
  {
    hide FactsOf, MatchedProfile, DeploymentOf, Short, Complete, Faulty, Stopped, SelectorDrifts, ProbeDrifts;
    hide CheckFails, CheckPasses, SelectsBy, ProbedBy;
    FaultsExactly(s, profile);
    BusinessExactly(s, profile);
    ConfigurationExactly(s, profile);
    ResourceExactly(s, profile);
  }

  // ----- accepted reports --------------------------------------------------------------------

  /** Every finding cites what the report cites. */
  predicate FindingsCited(d: Report, a: Assessment) {
    && (forall i | 0 <= i < |a.symptoms| :: SetOf(a.symptoms[i].evidenceIds) <= SetOf(d.evidenceIds))
    && (forall i | 0 <= i < |a.hypotheses| :: SetOf(a.hypotheses[i].evidenceIds) <= SetOf(d.evidenceIds))
  }

  predicate Explained(a: Assessment) {
    a.missing != [] && a.next != []
  }

  predicate OnlySuspected(a: Assessment) {
    forall i | 0 <= i < |a.hypotheses| :: !a.hypotheses[i].supported
  }

  /** A supported hypothesis that itself cites the configuration. */
  ghost predicate Founded(s: State, dep: Row, a: Assessment) {
    exists i :: 0 <= i < |a.hypotheses| && a.hypotheses[i].supported
                && CitesConfiguration(s, dep, a.hypotheses[i].evidenceIds)
  }

  /** A configuration diagnosis shows its drift and cites it in the report and in every supported hypothesis; unless
      the repair is undisputed, it says what is missing. */
  ghost predicate ConfigurationReport(s: State, profile: Profile, dep: Row, d: Report, a: Assessment, drifts: bool)
    requires dep.body.DeploymentBody?
  {
    && drifts && a.domain == DeploymentConfiguration && CitesConfiguration(s, dep, d.evidenceIds)
    && (forall i :: 0 <= i < |a.hypotheses| && a.hypotheses[i].supported ==>
          CitesConfiguration(s, dep, a.hypotheses[i].evidenceIds))
    && (Explained(a)
        || (ConfigurationSeen(s, profile, dep) && Undisputed(s, profile) && Founded(s, dep, a)))
  }

  /** What each category takes. */
  ghost predicate CategoryHolds(s: State, profile: Profile, dep: Row, d: Report, a: Assessment)
    requires dep.body.DeploymentBody?
  {
    match d.category
    case SelectorMismatch => ConfigurationReport(s, profile, dep, d, a, SelectorDrifts(s, profile))
    case ReadinessProbeError => ConfigurationReport(s, profile, dep, d, a, ProbeDrifts(dep, profile))
    case NoFault =>
      && ResourceReady(s, profile, dep) && EveryCheckPasses(s, profile) && !Faulty(s, profile)
      && a.domain == NoDomain && a.hypotheses == [] && CitesResources(s, profile, dep, d.evidenceIds)
    case UnknownCause => a.domain == InsufficientEvidence && d.confidence <= 0.6 && Explained(a) && OnlySuspected(a)
    case ApplicationError =>
      && a.domain == ApplicationRuntime && (SomeCheckFails(s, profile) || Faulty(s, profile))
      && Explained(a) && OnlySuspected(a)
    case DependencyError =>
      && a.domain == Dependency && (ResourceShort(s, profile, dep) || SomeCheckFails(s, profile))
      && CitesLogs(s, profile, d.evidenceIds) && a.hypotheses != [] && Explained(a) && OnlySuspected(a)
    case CrashLoop =>
      a.domain == ApplicationRuntime && Stopped(s, profile, "CrashLoopBackOff") && Explained(a) && OnlySuspected(a)
    case OomKilled =>
      a.domain == ApplicationRuntime && Stopped(s, profile, "OOMKilled") && Explained(a) && OnlySuspected(a)
    case ImagePull =>
      && a.domain in {DeploymentConfiguration, Dependency, InsufficientEvidence}
      && (Stopped(s, profile, "ImagePullBackOff") || Stopped(s, profile, "ErrImagePull"))
      && Explained(a) && OnlySuspected(a)
  }

  /** The statuses the report gives are those the evidence shows. */
  ghost predicate StatusesHold(s: State, profile: Profile, dep: Row, a: Assessment)
    requires dep.body.DeploymentBody?
  {
    && (a.resource == Ready <==> ResourceReady(s, profile, dep))
    && (a.resource == NotReady <==> ResourceShort(s, profile, dep))
    && (a.business == CheckFailed <==> SomeCheckFails(s, profile))
    && (a.business == CheckPassed <==> EveryCheckPasses(s, profile))
  }

  ghost predicate Justified(s: State, profile: Profile, dep: Row, d: Report)
    requires dep.body.DeploymentBody?
  {
    && d.assessment.Some?
    && StatusesHold(s, profile, dep, d.assessment.value) && FindingsCited(d, d.assessment.value)
    && CitesResults(s, profile, d.evidenceIds) && CategoryHolds(s, profile, dep, d, d.assessment.value)
  }

  /** What the facts ask a report to cite is what the evidence asks it to cite. */
  ghost predicate CitationsShown(s: State, profile: Profile, dep: Row, d: Report, f: Facts) {
    && (SetOf(f.businessIds) <= SetOf(d.evidenceIds) <==> CitesResults(s, profile, d.evidenceIds))
    && (SetOf(f.resourceIds) <= SetOf(d.evidenceIds) <==> CitesResources(s, profile, dep, d.evidenceIds))
    && (SetOf(f.logIds) * SetOf(d.evidenceIds) != {} <==> CitesLogs(s, profile, d.evidenceIds))
    && (SetOf(f.configurationIds) <= SetOf(d.evidenceIds) <==> CitesConfiguration(s, dep, d.evidenceIds))
    && (d.assessment.Some? ==> forall i :: 0 <= i < |d.assessment.value.hypotheses| ==>
          (SetOf(f.configurationIds) <= SetOf(d.assessment.value.hypotheses[i].evidenceIds) <==>
           CitesConfiguration(s, dep, d.assessment.value.hypotheses[i].evidenceIds)))
  }

  lemma CitationsAreShown(s: State, profile: Profile, d: Report)
    requires MatchedProfile(s) == Some(profile) && FactsOf(s).Some?
    ensures DeploymentOf(s, profile).Some?
    ensures CitationsShown(s, profile, DeploymentOf(s, profile).value, d, FactsOf(s).value)
  {
    hide FactsOf, MatchedProfile, DeploymentOf, MatchedFacts, SetOf;
    hide CitesResults, CitesResources, CitesLogs, CitesConfiguration;
    FactsAre(s, profile);
    var dep := DeploymentOf(s, profile).value;
    ResultIdsCited(s, profile, dep, d.evidenceIds);
    ResourceIdsMean(s, profile, dep, d.evidenceIds);
    LogIdsCited(s, profile, dep, d.evidenceIds);
    ConfigurationIdsCited(s, profile, d.evidenceIds);
    if d.assessment.Some? {
      forall i | 0 <= i < |d.assessment.value.hypotheses|
        ensures SetOf(FactsOf(s).value.configurationIds) <= SetOf(d.assessment.value.hypotheses[i].evidenceIds) <==>
                  CitesConfiguration(s, dep, d.assessment.value.hypotheses[i].evidenceIds)
      {
        ConfigurationIdsCited(s, profile, d.assessment.value.hypotheses[i].evidenceIds);
      }
    }
  }

  lemma ReadyAgrees(s: State, profile: Profile, dep: Row)
    requires dep.body.DeploymentBody? && ResourceReady(s, profile, dep)
    ensures !ProbeDrifts(dep, profile)
  {
    hide ProbeDrifts, ProbeAgrees, SelectorDrifts, ServedByPod, PodPositions;
  }

  lemma ValidIsJustified(s: State, profile: Profile, dep: Row, d: Report, f: Facts)
    requires dep.body.DeploymentBody? && Shown(s, profile, dep, f) && CitationsShown(s, profile, dep, d, f)
    ensures AssessmentValid(d, f) <==> Justified(s, profile, dep, d)
  {
    hide SetOf, ResourceReady, ResourceShort, SomeCheckFails, EveryCheckPasses, SelectorDrifts, ProbeDrifts;
    hide ConfigurationSeen, Stopped, Faulty, CitesResults, CitesResources, CitesLogs, CitesConfiguration;
    if ResourceReady(s, profile, dep) { ReadyAgrees(s, profile, dep); }
  }

  /** With a matched profile, a report passes the gates exactly when the evidence bears it out. */
  lemma AcceptedExactly(s: State, profile: Profile, d: Report)
    requires MatchedProfile(s) == Some(profile) && FactsOf(s).Some?
    ensures DeploymentOf(s, profile).Some? && DeploymentOf(s, profile).value.body.DeploymentBody?
    ensures AssessmentValid(d, FactsOf(s).value) <==> Justified(s, profile, DeploymentOf(s, profile).value, d)
  {
    hide FactsOf, MatchedProfile, DeploymentOf, AssessmentValid, Justified, Shown, CitationsShown;
    FactsShown(s, profile);
    CitationsAreShown(s, profile, d);
    ValidIsJustified(s, profile, DeploymentOf(s, profile).value, d, FactsOf(s).value);
  }

  /** Without a matched profile only the conclusion that the cause is unknown passes. */
  lemma UnmatchedExactly(s: State, d: Report)
    requires MatchedProfile(s).None?
    ensures FactsOf(s).Some?
    ensures AssessmentValid(d, FactsOf(s).value) <==>
              && d.assessment.Some? && d.category == UnknownCause && d.confidence <= 0.6
              && var a := d.assessment.value;
                 && a.resource == ResourceUnknown && a.business == CheckUnknown && a.domain == InsufficientEvidence
                 && FindingsCited(d, a) && Explained(a) && OnlySuspected(a)
  {
    hide MatchedProfile;
  }

  // ----- references --------------------------------------------------------------------------

  /** The id occurs somewhere in the report. */
  ghost predicate Mentions(d: Report, id: string) {
    || id in d.mentioned || id in d.evidenceIds
    || (d.assessment.Some?
        && (|| (exists f :: f in d.assessment.value.symptoms && id in f.evidenceIds)
            || (exists h :: h in d.assessment.value.hypotheses && id in h.evidenceIds)))
  }

  lemma MentionedMeans(d: Report, id: string)
    ensures id in AllMentioned(d) <==> Mentions(d, id)
  {
    if d.assessment.Some? {
      var a := d.assessment.value;
      forall f | f in a.symptoms && id in f.evidenceIds
        ensures exists i :: 0 <= i < |a.symptoms| && id in a.symptoms[i].evidenceIds
      {
        var i :| 0 <= i < |a.symptoms| && a.symptoms[i] == f;
      }
      forall h | h in a.hypotheses && id in h.evidenceIds
        ensures exists i :: 0 <= i < |a.hypotheses| && id in a.hypotheses[i].evidenceIds
      {
        var i :| 0 <= i < |a.hypotheses| && a.hypotheses[i] == h;
      }
      forall i | 0 <= i < |a.symptoms| ensures a.symptoms[i] in a.symptoms { }
      forall i | 0 <= i < |a.hypotheses| ensures a.hypotheses[i] in a.hypotheses { }
    }
  }

  /** The references of a report hold exactly when it cites every id it mentions anywhere, each of a collected row, only
      retrieved runbooks, and at least one of these for a fault that a repair or a restart could follow from. */
  lemma ReferencesExactly(d: Report, s: State)
    ensures ReferencesValid(d, s) <==>
              && (forall id :: Mentions(d, id) ==> id in d.evidenceIds)
              && (forall id :: id in d.evidenceIds ==> id != "" && exists r :: r in s.evidence && r.id == id)
              && (forall id :: id in d.runbookIds ==> id != "" && id in s.runbooks)
              && (d.category in {SelectorMismatch, ReadinessProbeError, CrashLoop, OomKilled, ImagePull} ==>
                    d.runbookIds != [])
  {
    hide AllMentioned, Mentions;
    forall id ensures id in AllMentioned(d) <==> Mentions(d, id) { MentionedMeans(d, id); }
    forall id ensures id in Ids(s.evidence) <==> exists r :: r in s.evidence && r.id == id { IdCollected(s, id); }
    forall id ensures id in SetOf(d.evidenceIds) <==> id in d.evidenceIds { }
    forall id ensures id in SetOf(d.runbookIds) <==> id in d.runbookIds { }
    hide Ids, SetOf;
  }

  lemma IdCollected(s: State, id: string)
    ensures id in Ids(s.evidence) <==> exists r :: r in s.evidence && r.id == id
  {
    if id in Ids(s.evidence) {
      var k :| 0 <= k < |s.evidence| && s.evidence[k].id == id;
      assert s.evidence[k] in s.evidence;
    }
    forall r | r in s.evidence && r.id == id ensures id in Ids(s.evidence) { IdIn(s.evidence, r); }
  }

  // ----- the conservative report -------------------------------------------------------------

  /** The conservative report repeats the statuses, cites every row, adopts no cause and no runbook, and points at the
      first twenty rows behind each status there are rows for. */
  lemma ConservativeShows(s: State, f: Facts)
    ensures var d := Conservative(s, f); var a := d.assessment;
            && d.category == UnknownCause && d.confidence == 0.0 && d.runbookIds == [] && a.Some?
            && a.value.hypotheses == [] && a.value.resource == f.resource && a.value.business == f.business
            && (forall id :: id in d.evidenceIds <==> exists r :: r in s.evidence && r.id == id)
            && (forall k :: 0 <= k < |f.resourceIds| && k < 20 ==>
                  exists x :: x in a.value.symptoms && f.resourceIds[k] in x.evidenceIds)
            && (forall k :: 0 <= k < |f.businessIds| && k < 20 ==>
                  exists x :: x in a.value.symptoms && f.businessIds[k] in x.evidenceIds)
            && (forall x, id :: x in a.value.symptoms && id in x.evidenceIds ==>
                  id in f.resourceIds || id in f.businessIds)
  {
    forall id ensures id in IdsOf(s.evidence) <==> exists r :: r in s.evidence && r.id == id {
      IdsMean(s.evidence, id);
    }
    var symptoms := Cited(f.resourceIds) + Cited(f.businessIds);
    CitesFirst(f.resourceIds);
    CitesFirst(f.businessIds);
    if f.resourceIds != [] { assert symptoms[0] == Cited(f.resourceIds)[0]; }
    if f.businessIds != [] { assert symptoms[|symptoms| - 1] == Cited(f.businessIds)[0]; }
    hide IdsOf, Cited;
  }

  lemma CitesFirst(ids: seq<string>)
    ensures ids != [] ==>
              |Cited(ids)| == 1 && forall k :: 0 <= k < |ids| && k < 20 ==> ids[k] in Cited(ids)[0].evidenceIds
    ensures forall x, id :: x in Cited(ids) && id in x.evidenceIds ==> id in ids
  {
    if |ids| > 20 {
      forall k | 0 <= k < 20 ensures ids[k] in ids[..20] { assert ids[..20][k] == ids[k]; }
    }
  }
}
