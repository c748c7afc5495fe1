/** What the two kinds of write requests do to the object they are sent to. */
module Patches {
  import opened Wrappers
  import opened Json

  datatype Plan =
    | SelectorPlan(current: map<string, string>, proposed: map<string, string>)
    | ProbePlan(container: string, currentPath: Json, currentPort: Json, path: Json, port: Json)

  datatype Configuration = SelectorIs(selector: map<string, string>) | ProbeIs(container: string, path: Json,
                                                                               port: Json)

  datatype Snapshot = Snapshot(uid: string, version: string, configuration: Configuration)

  const UID: Path := [Key("metadata"), Key("uid")]
  const VERSION: Path := [Key("metadata"), Key("resourceVersion")]
  const SELECTOR: Path := [Key("spec"), Key("selector")]
  const CONTAINERS: Path := [Key("spec"), Key("template"), Key("spec"), Key("containers")]

  function ProbePath(i: nat): (p: Path) { CONTAINERS + [Index(i), Key("readinessProbe"), Key("httpGet"), Key("path")] }
  function ProbePort(i: nat): (p: Path) { CONTAINERS + [Index(i), Key("readinessProbe"), Key("httpGet"), Key("port")] }
  function NamePath(i: nat): (p: Path) { CONTAINERS + [Index(i), Key("name")] }

  /** runtime/operations.py:42-55 */
  function Desired(plan: Plan): (c: Configuration) {
    match plan
    case SelectorPlan(_, proposed) => SelectorIs(proposed)
    case ProbePlan(name, _, _, path, port) => ProbeIs(name, path, port)
  }

  function Prior(plan: Plan): (c: Configuration) {
    match plan
    case SelectorPlan(current, _) => SelectorIs(current)
    case ProbePlan(name, path, port, _, _) => ProbeIs(name, path, port)
  }

  function Texts(m: map<string, string>): (o: Json) {
    Object(map k | k in m :: Text(m[k]))
  }

  // ----- snapshots ---------------------------------------------------------------------------

  function StringAt(doc: Json, path: Path): (s: string) {
    if Get(doc, path).Some? && Get(doc, path).value.Text? then Get(doc, path).value.text else ""
  }

  /** A missing selector reads as the empty one (remediation_tools.py:200-219). */
  function SelectorOf(doc: Json): (m: map<string, string>) {
    var s := MembersOf(Get(doc, SELECTOR));
    map k | k in s && s[k].Text? :: s[k].text
  }

  function ContainersOf(doc: Json): (items: seq<Json>) {
    if Get(doc, CONTAINERS).Some? && Get(doc, CONTAINERS).value.List? then Get(doc, CONTAINERS).value.items else []
  }

  /** The first container of that name. */
  function FindContainer(items: seq<Json>, name: string): (i: Option<nat>)
    ensures i.Some? ==> i.value < |items| && Get(items[i.value], [Key("name")]) == Some(Text(name))
    ensures i.Some? ==> forall j :: 0 <= j < i.value ==> Get(items[j], [Key("name")]) != Some(Text(name))
    ensures i.None? ==> forall j :: 0 <= j < |items| ==> Get(items[j], [Key("name")]) != Some(Text(name))
  {
    if items == [] then None
    else
      var before := FindContainer(items[..|items| - 1], name);
      if before.Some? then before
      else if Get(items[|items| - 1], [Key("name")]) == Some(Text(name)) then Some(|items| - 1) else None
  }

  function ValueOrNull(doc: Json, path: Path): (v: Json) {
    if Get(doc, path).Some? then Get(doc, path).value else Null
  }

  /** runtime/operations.py:25-39: what a read of the target records. */
  function Read(doc: Json, plan: Plan): (s: Option<Snapshot>) {
    var uid, version := StringAt(doc, UID), StringAt(doc, VERSION);
    if uid == "" || version == "" then None
    else
      match plan
      case SelectorPlan(_, _) => Some(Snapshot(uid, version, SelectorIs(SelectorOf(doc))))
      case ProbePlan(name, _, _, _, _) =>
        var i := FindContainer(ContainersOf(doc), name);
        if i.None? then None
        else Some(Snapshot(uid, version,
                           ProbeIs(name, ValueOrNull(doc, ProbePath(i.value)), ValueOrNull(doc, ProbePort(i.value)))))
  }

  // ----- the ledger's JSON Patch -------------------------------------------------------------

  function Guards(before: Snapshot): (ops: seq<Operation>) {
    [Test(UID, Text(before.uid)), Test(VERSION, Text(before.version))]
  }

  function SelectorPatch(before: Snapshot, proposed: map<string, string>): (ops: seq<Operation>)
    requires before.configuration.SelectorIs?
  {
    Guards(before) + [Test(SELECTOR, Texts(before.configuration.selector)), Replace(SELECTOR, Texts(proposed))]
  }

  function ProbePatch(before: Snapshot, i: nat, name: string, path: Json, port: Json): (ops: seq<Operation>)
    requires before.configuration.ProbeIs?
  {
    Guards(before)
    + [Test(NamePath(i), Text(name)),
       Test(ProbePath(i), before.configuration.path), Replace(ProbePath(i), path),
       Test(ProbePort(i), before.configuration.port), Replace(ProbePort(i), port)]
  }

  /** runtime/operations.py:67-82, from the object that was read. */
  function BuildPatch(plan: Plan, resource: Json): (ops: Option<seq<Operation>>) {
    var before := Read(resource, plan);
    if before.None? then None
    else
      match plan
      case SelectorPlan(_, proposed) => Some(SelectorPatch(before.value, proposed))
      case ProbePlan(name, _, _, path, port) =>
        var i := FindContainer(ContainersOf(resource), name);
        if i.None? then None else Some(ProbePatch(before.value, i.value, name, path, port))
  }

  /** The object is still the one the snapshot describes, as far as the patch can tell. */
  predicate StillSelector(doc: Json, before: Snapshot)
    requires before.configuration.SelectorIs?
  {
    && Get(doc, UID) == Some(Text(before.uid)) && Get(doc, VERSION) == Some(Text(before.version))
    && Get(doc, SELECTOR) == Some(Texts(before.configuration.selector))
  }

  predicate StillProbe(doc: Json, before: Snapshot, i: nat, name: string)
    requires before.configuration.ProbeIs?
  {
    && Get(doc, UID) == Some(Text(before.uid)) && Get(doc, VERSION) == Some(Text(before.version))
    && Get(doc, NamePath(i)) == Some(Text(name))
    && Get(doc, ProbePath(i)) == Some(before.configuration.path)
       && Get(doc, ProbePort(i)) == Some(before.configuration.port)
  }

  lemma TestFirst(doc: Json, p: Path, v: Json, rest: seq<Operation>)
    ensures ApplyPatch(doc, [Test(p, v)] + rest) == if Get(doc, p) == Some(v) then ApplyPatch(doc, rest) else None
  {
    assert ([Test(p, v)] + rest)[1..] == rest;
  }

  lemma ReplaceFirst(doc: Json, p: Path, v: Json, rest: seq<Operation>)
    requires Get(doc, p).Some?
    ensures ApplyPatch(doc, [Replace(p, v)] + rest) == ApplyPatch(Put(doc, p, v), rest)
  {
    assert ([Replace(p, v)] + rest)[1..] == rest;
  }

  lemma SelectorPatchApplies(doc: Json, before: Snapshot, proposed: map<string, string>)
    requires before.configuration.SelectorIs?
    ensures ApplyPatch(doc, SelectorPatch(before, proposed)) ==
              if StillSelector(doc, before) then Some(Put(doc, SELECTOR, Texts(proposed))) else None
  {
    var last := [Replace(SELECTOR, Texts(proposed))];
    var third := [Test(SELECTOR, Texts(before.configuration.selector))] + last;
    var second := [Test(VERSION, Text(before.version))] + third;
    assert SelectorPatch(before, proposed) == [Test(UID, Text(before.uid))] + second;
    TestFirst(doc, UID, Text(before.uid), second);
    TestFirst(doc, VERSION, Text(before.version), third);
    TestFirst(doc, SELECTOR, Texts(before.configuration.selector), last);
    if StillSelector(doc, before) {
      assert last == [Replace(SELECTOR, Texts(proposed))] + [];
      ReplaceFirst(doc, SELECTOR, Texts(proposed), []);
    }
  }

  lemma TextsReadBack(m: map<string, string>)
    ensures var s := Texts(m).members; (map k | k in s && s[k].Text? :: s[k].text) == m
  {
  }

  /** Sent to any object, the selector patch is applied exactly when the UID, the version and the old selector
      are those of the snapshot. Then the selector is the proposed one, and putting the old one back gives the
      old object: nothing else changed. Otherwise the object stays as it is. */
  lemma SelectorPatchMeans(plan: Plan, resource: Json, doc: Json)
    requires plan.SelectorPlan? && Read(resource, plan).Some?
    ensures BuildPatch(plan, resource).Some?
    ensures var before, ops := Read(resource, plan).value, BuildPatch(plan, resource).value;
            && (ApplyPatch(doc, ops).Some? <==> StillSelector(doc, before))
            && (!StillSelector(doc, before) ==> Patched(doc, ops) == doc)
            && (StillSelector(doc, before) ==>
                  && SelectorOf(Patched(doc, ops)) == plan.proposed
                  && Get(Patched(doc, ops), SELECTOR).Some? && Get(doc, SELECTOR).Some?
                  && Put(Patched(doc, ops), SELECTOR, Get(doc, SELECTOR).value) == doc)
  {
    var before := Read(resource, plan).value;
    SelectorPatchApplies(doc, before, plan.proposed);
    if StillSelector(doc, before) {
      PutThenGet(doc, SELECTOR, Texts(plan.proposed));
      PutBack(doc, SELECTOR, Texts(plan.proposed));
      TextsReadBack(plan.proposed);
    }
  }

  /** Kubernetes types a selector as a map of strings; it may be absent. */
  predicate TypedSelector(doc: Json) {
    Get(doc, SELECTOR).Some? ==>
      && Get(doc, SELECTOR).value.Object?
      && forall k <- Get(doc, SELECTOR).value.members :: Get(doc, SELECTOR).value.members[k].Text?
  }

  /** On the object it was built from, the selector patch applies exactly when that object has a selector: an
      absent selector is recorded as an empty one, and testing for it fails. */
  lemma SelectorPatchOnOwnObject(plan: Plan, resource: Json)
    requires plan.SelectorPlan? && Read(resource, plan).Some? && TypedSelector(resource)
    ensures BuildPatch(plan, resource).Some?
    ensures var ops := BuildPatch(plan, resource).value;
            && (ApplyPatch(resource, ops).Some? <==> Get(resource, SELECTOR).Some?)
            && (ApplyPatch(resource, ops).Some? ==> SelectorIs(SelectorOf(Patched(resource, ops))) == Desired(plan))
  {
    SelectorPatchMeans(plan, resource, resource);
    if Get(resource, SELECTOR).Some? {
      var m := Get(resource, SELECTOR).value.members;
      assert Texts(SelectorOf(resource)).members == m;
    }
  }

  lemma SelectorlessIsRefused()
    ensures var doc :=
            Object(map["metadata" := Object(map["uid" := Text("u"), "resourceVersion" := Text("1")]),
                       "spec" := Object(map[])]);
            var plan := SelectorPlan(map[], map["app" := "web"]);
            && Read(doc, plan).Some? && Read(doc, plan).value.configuration == Prior(plan)
            && BuildPatch(plan, doc).Some? && ApplyPatch(doc, BuildPatch(plan, doc).value).None?
  {
    var doc := Object(map["metadata" := Object(map["uid" := Text("u"), "resourceVersion" := Text("1")]),
                          "spec" := Object(map[])]);
    var plan := SelectorPlan(map[], map["app" := "web"]);
    PathsOf(doc);
    SelectorPatchOnOwnObject(plan, doc);
  }

  function Grandchild(doc: Json, member: string, inner: string): (v: Option<Json>) {
    if Child(doc, Key(member)).None? then None else Child(Child(doc, Key(member)).value, Key(inner))
  }

  /** The two-token paths, step by step. */
  lemma PathsOf(doc: Json)
    ensures Get(doc, UID) == Grandchild(doc, "metadata", "uid")
    ensures Get(doc, VERSION) == Grandchild(doc, "metadata", "resourceVersion")
    ensures Get(doc, SELECTOR) == Grandchild(doc, "spec", "selector")
  {
    assert UID[1..] == [Key("uid")] && VERSION[1..] == [Key("resourceVersion")] && SELECTOR[1..] == [Key("selector")];
    forall t: Token, d: Json ensures Get(d, [t]) == Child(d, t) { assert [t][1..] == []; }
  }

  // ----- the probe patch ---------------------------------------------------------------------

  function Probed(doc: Json, i: nat, path: Json, port: Json): (d: Json)
    requires Get(doc, ProbePath(i)).Some? && Get(Put(doc, ProbePath(i), path), ProbePort(i)).Some?
  {
    Put(Put(doc, ProbePath(i), path), ProbePort(i), port)
  }

  lemma ProbeFieldsApart(i: nat)
    ensures Apart(ProbePath(i), ProbePort(i)) && Apart(ProbePort(i), ProbePath(i))
  {
    var common := CONTAINERS + [Index(i), Key("readinessProbe"), Key("httpGet")];
    assert ProbePath(i) == common + [Key("path")] && ProbePort(i) == common + [Key("port")];
    ApartBelow(common, [Key("path")], [Key("port")]);
    ApartBelow(common, [Key("port")], [Key("path")]);
  }

  lemma ProbePatchApplies(doc: Json, before: Snapshot, i: nat, name: string, path: Json, port: Json)
    requires before.configuration.ProbeIs?
    ensures StillProbe(doc, before, i, name) ==>
              Get(doc, ProbePath(i)).Some? && Get(Put(doc, ProbePath(i), path), ProbePort(i)).Some?
    ensures ApplyPatch(doc, ProbePatch(before, i, name, path, port)) ==
              if StillProbe(doc, before, i, name) then Some(Probed(doc, i, path, port)) else None
  {
    ProbeFieldsApart(i);
    var o7 := [Replace(ProbePort(i), port)];
    var o6 := [Test(ProbePort(i), before.configuration.port)] + o7;
    var o5 := [Replace(ProbePath(i), path)] + o6;
    var o4 := [Test(ProbePath(i), before.configuration.path)] + o5;
    var o3 := [Test(NamePath(i), Text(name))] + o4;
    var o2 := [Test(VERSION, Text(before.version))] + o3;
    assert ProbePatch(before, i, name, path, port) == [Test(UID, Text(before.uid))] + o2;
    TestFirst(doc, UID, Text(before.uid), o2);
    TestFirst(doc, VERSION, Text(before.version), o3);
    TestFirst(doc, NamePath(i), Text(name), o4);
    TestFirst(doc, ProbePath(i), before.configuration.path, o5);
    if Get(doc, ProbePath(i)) == Some(before.configuration.path) {
      PutLeavesOthers(doc, ProbePath(i), path, ProbePort(i));
      ReplaceFirst(doc, ProbePath(i), path, o6);
      var doc' := Put(doc, ProbePath(i), path);
      TestFirst(doc', ProbePort(i), before.configuration.port, o7);
      if Get(doc', ProbePort(i)).Some? {
        assert o7 == [Replace(ProbePort(i), port)] + [];
        ReplaceFirst(doc', ProbePort(i), port, []);
      }
    }
  }

  /** Both fields read back as put, and putting the old values back gives the old document. */
  lemma ProbedMeans(doc: Json, i: nat, path: Json, port: Json)
    requires Get(doc, ProbePath(i)).Some? && Get(doc, ProbePort(i)).Some?
    ensures Get(Put(doc, ProbePath(i), path), ProbePort(i)).Some?
    ensures var d := Probed(doc, i, path, port);
            && Get(d, ProbePath(i)) == Some(path) && Get(d, ProbePort(i)) == Some(port)
            && Get(Put(d, ProbePort(i), Get(doc, ProbePort(i)).value), ProbePath(i)).Some?
            && Put(Put(d, ProbePort(i), Get(doc, ProbePort(i)).value), ProbePath(i), Get(doc, ProbePath(i)).value)
               == doc
  {
    ProbeFieldsApart(i);
    PutLeavesOthers(doc, ProbePath(i), path, ProbePort(i));
    var mid := Put(doc, ProbePath(i), path);
    PutThenGet(doc, ProbePath(i), path);
    PutLeavesOthers(mid, ProbePort(i), port, ProbePath(i));
    PutThenGet(mid, ProbePort(i), port);
    PutBack(mid, ProbePort(i), port);
    PutBack(doc, ProbePath(i), path);
  }

  /** Sent to any object, the probe patch is applied exactly when UID, version, the container at the recorded
      position and both old values are those of the snapshot; then exactly the two fields change. */
  lemma ProbePatchMeans(plan: Plan, resource: Json, doc: Json)
    requires plan.ProbePlan? && Read(resource, plan).Some?
    ensures FindContainer(ContainersOf(resource), plan.container).Some? && BuildPatch(plan, resource).Some?
    ensures var i, before, ops := FindContainer(ContainersOf(resource), plan.container).value,
            Read(resource, plan).value, BuildPatch(plan, resource).value;
            && (ApplyPatch(doc, ops).Some? <==> StillProbe(doc, before, i, plan.container))
            && (!StillProbe(doc, before, i, plan.container) ==> Patched(doc, ops) == doc)
            && (StillProbe(doc, before, i, plan.container) ==>
                  && Get(Patched(doc, ops), ProbePath(i)) == Some(plan.path)
                     && Get(Patched(doc, ops), ProbePort(i)) == Some(plan.port)
                  && Get(Put(Patched(doc, ops), ProbePort(i), before.configuration.port), ProbePath(i)).Some?
                  && Put(Put(Patched(doc, ops), ProbePort(i), before.configuration.port), ProbePath(i),
                         before.configuration.path) == doc)
  {
    var i, before := FindContainer(ContainersOf(resource), plan.container).value, Read(resource, plan).value;
    ProbePatchApplies(doc, before, i, plan.container, plan.path, plan.port);
    if StillProbe(doc, before, i, plan.container) { ProbedMeans(doc, i, plan.path, plan.port); }
  }

  lemma ContainerName(doc: Json, i: nat)
    requires i < |ContainersOf(doc)|
    ensures Get(doc, NamePath(i)) == Get(ContainersOf(doc)[i], [Key("name")])
  {
    GetConcat(doc, CONTAINERS, [Index(i), Key("name")]);
    assert [Index(i), Key("name")][1..] == [Key("name")];
  }

  /** A put below one container, but not to its name, leaves all containers in place and all names. */
  lemma PutInContainer(doc: Json, i: nat, rest: Path, v: Json)
    requires Get(doc, CONTAINERS + ([Index(i)] + rest)).Some? && Apart(rest, [Key("name")])
    ensures var after := ContainersOf(Put(doc, CONTAINERS + ([Index(i)] + rest), v));
            && |after| == |ContainersOf(doc)|
            && forall j :: 0 <= j < |after| ==>
                 Get(after[j], [Key("name")]) == Get(ContainersOf(doc)[j], [Key("name")])
  {
    var q := [Index(i)] + rest;
    PutConcat(doc, CONTAINERS, q, v);
    assert q[1..] == rest;
    var items := ContainersOf(doc);
    PutLeavesOthers(items[i], rest, v, [Key("name")]);
  }

  lemma SameNamesSameContainer(items: seq<Json>, items': seq<Json>, name: string)
    requires |items'| == |items|
    requires forall j :: 0 <= j < |items| ==> Get(items'[j], [Key("name")]) == Get(items[j], [Key("name")])
    ensures FindContainer(items', name) == FindContainer(items, name)
  {
  }

  /** On the object it was built from, the probe patch applies exactly when the container has an HTTP probe
      with both fields; then a fresh read shows the desired configuration under the same UID. */
  lemma ProbePatchOnOwnObject(plan: Plan, resource: Json)
    requires plan.ProbePlan? && Read(resource, plan).Some?
    ensures FindContainer(ContainersOf(resource), plan.container).Some? && BuildPatch(plan, resource).Some?
    ensures var i, ops := FindContainer(ContainersOf(resource), plan.container).value, BuildPatch(plan, resource).value;
            && (ApplyPatch(resource, ops).Some? <==>
                  Get(resource, ProbePath(i)).Some? && Get(resource, ProbePort(i)).Some?)
            && (ApplyPatch(resource, ops).Some? ==>
                  FindContainer(ContainersOf(Patched(resource, ops)), plan.container) == Some(i)
                  && ProbeIs(plan.container, ValueOrNull(Patched(resource, ops), ProbePath(i)),
                             ValueOrNull(Patched(resource, ops), ProbePort(i))) == Desired(plan))
  {
    var i, before, ops := FindContainer(ContainersOf(resource), plan.container).value, Read(resource, plan).value,
        BuildPatch(plan, resource).value;
    ContainerName(resource, i);
    ProbePatchMeans(plan, resource, resource);
    ProbePatchApplies(resource, before, i, plan.container, plan.path, plan.port);
    if ApplyPatch(resource, ops).Some? {
      var mid := Put(resource, ProbePath(i), plan.path);
      var toPath, toPort := [Key("readinessProbe"), Key("httpGet"), Key("path")],
          [Key("readinessProbe"), Key("httpGet"), Key("port")];
      assert ProbePath(i) == CONTAINERS + ([Index(i)] + toPath) && ProbePort(i) == CONTAINERS + ([Index(i)] + toPort);
      PutInContainer(resource, i, toPath, plan.path);
      PutInContainer(mid, i, toPort, plan.port);
      SameNamesSameContainer(ContainersOf(resource), ContainersOf(mid), plan.container);
      SameNamesSameContainer(ContainersOf(mid), ContainersOf(Put(mid, ProbePort(i), plan.port)), plan.container);
    }
  }

  // ----- the direct selector patch and its rollback ------------------------------------------

  /** remediation_tools.py:606-611 and 661-666: members to drop are null. */
  function SelectorDiff(from: map<string, string>, to: map<string, string>): (d: Json) {
    Object(map k | k in from.Keys + to.Keys :: if k in to then Text(to[k]) else Null)
  }

  function MergeBody(uid: Option<string>, version: string, from: map<string, string>,
                     to: map<string, string>): (b: Json) {
    var metadata := map["resourceVersion" := Text(version)];
    Object(map["metadata" := Object(if uid.Some? then metadata["uid" := Text(uid.value)] else metadata),
               "spec" := Object(map["selector" := SelectorDiff(from, to)])])
  }

  datatype Mutation = Conflict | AlreadyApplied | Sent(body: Json)

  /** remediation_tools.py:558-614: what the direct executor sends for a Service. */
  function PatchService(doc: Json, expectedUid: Option<string>, expected: map<string, string>,
                        proposed: map<string, string>): (m: Mutation) {
    if expectedUid.Some? && StringAt(doc, UID) != expectedUid.value then Conflict
    else if SelectorOf(doc) == proposed then AlreadyApplied
    else if SelectorOf(doc) != expected then Conflict
    else Sent(MergeBody(expectedUid, StringAt(doc, VERSION), SelectorOf(doc), proposed))
  }

  /** remediation_tools.py:655-667 */
  function Rollback(version: string, current: map<string, string>, proposed: map<string, string>): (b: Json) {
    MergeBody(None, version, proposed, current)
  }

  lemma DiffMerges(t: Option<Json>, from: map<string, string>, to: map<string, string>)
    requires MembersOf(t) == Texts(from).members
    ensures Merge(t, SelectorDiff(from, to)) == Texts(to)
  {
    var r := Merge(t, SelectorDiff(from, to)).members;
    forall k ensures k in r <==> k in Texts(to).members { }
    forall k | k in r ensures r[k] == Texts(to).members[k] {
      assert SelectorDiff(from, to).members[k] == Text(to[k]);
      assert Merge(Lookup(MembersOf(t), k), Text(to[k])) == Text(to[k]);
    }
    assert r == Texts(to).members;
  }

  function SpecOf(doc: Json): (s: map<string, Json>) {
    MembersOf(Lookup(MembersOf(Some(doc)), "spec"))
  }

  lemma SelectorInSpec(doc: Json)
    requires TypedSelector(doc)
    ensures MembersOf(Lookup(SpecOf(doc), "selector")) == Texts(SelectorOf(doc)).members
    ensures Get(doc, SELECTOR) == Lookup(SpecOf(doc), "selector")
  {
    PathsOf(doc);
  }

  lemma SelectorShown(d: Json, m: map<string, string>)
    requires Lookup(SpecOf(d), "selector") == Some(Texts(m))
    ensures Get(d, SELECTOR) == Some(Texts(m)) && TypedSelector(d) && SelectorOf(d) == m
  {
    PathsOf(d);
    TextsReadBack(m);
  }

  lemma BodyMerges(doc: Json, uid: Option<string>, version: string, from: map<string, string>, to: map<string, string>)
    requires TypedSelector(doc) && SelectorOf(doc) == from
    ensures var d := Merge(Some(doc), MergeBody(uid, version, from, to));
            d.Object? && SpecOf(d) == SpecOf(doc)["selector" := Texts(to)]
            && (forall k :: k != "spec" && k != "metadata" ==> Lookup(d.members, k) == Lookup(MembersOf(Some(doc)), k))
  {
    SelectorInSpec(doc);
    DiffMerges(Lookup(SpecOf(doc), "selector"), from, to);
    MergeMember(Lookup(MembersOf(Some(doc)), "spec"), "selector", SelectorDiff(from, to));
  }

  /** A request that is sent turns the selector into exactly the proposed one and leaves every other part of
      the specification alone. */
  lemma SelectorMergeMeans(doc: Json, expectedUid: Option<string>, expected: map<string, string>,
                           proposed: map<string, string>)
    requires TypedSelector(doc)
    ensures PatchService(doc, expectedUid, expected, proposed).Sent? <==>
              (expectedUid.Some? ==> StringAt(doc, UID) == expectedUid.value) && SelectorOf(doc) == expected
                  && expected != proposed
    ensures PatchService(doc, expectedUid, expected, proposed).Sent? ==>
              var d := Merge(Some(doc), PatchService(doc, expectedUid, expected, proposed).body);
              && SelectorOf(d) == proposed && SpecOf(d) == SpecOf(doc)["selector" := Texts(proposed)]
              && (forall k :: k != "spec" && k != "metadata" ==>
                              Lookup(MembersOf(Some(d)), k) == Lookup(MembersOf(Some(doc)), k))
  {
    var m := PatchService(doc, expectedUid, expected, proposed);
    if m.Sent? {
      BodyMerges(doc, expectedUid, StringAt(doc, VERSION), expected, proposed);
      SelectorShown(Merge(Some(doc), m.body), proposed);
    }
  }

  /** Whatever version the object has by then, the rollback restores the selector that was read; it restores
      the specification itself exactly when that had a selector (an absent one comes back empty). */
  lemma RollbackRestores(doc: Json, patched: Json, current: map<string, string>, proposed: map<string, string>,
                         version: string)
    requires TypedSelector(doc) && SelectorOf(doc) == current
             && SpecOf(patched) == SpecOf(doc)["selector" := Texts(proposed)]
    ensures var d := Merge(Some(patched), Rollback(version, current, proposed));
            && SelectorOf(d) == current
            && (SpecOf(d) == SpecOf(doc) <==> Get(doc, SELECTOR).Some?)
  {
    RollbackSpec(doc, patched, current, proposed, version);
    SelectorShown(Merge(Some(patched), Rollback(version, current, proposed)), current);
    SpecRestored(doc, current);
  }

  lemma RollbackSpec(doc: Json, patched: Json, current: map<string, string>, proposed: map<string, string>,
                     version: string)
    requires SpecOf(patched) == SpecOf(doc)["selector" := Texts(proposed)]
    ensures SpecOf(Merge(Some(patched), Rollback(version, current, proposed)))
            == SpecOf(doc)["selector" := Texts(current)]
  {
    SelectorShown(patched, proposed);
    BodyMerges(patched, None, version, proposed, current);
    OverwrittenTwice(SpecOf(doc), "selector", Texts(proposed), Texts(current));
  }

  lemma OverwrittenTwice(m: map<string, Json>, k: string, v: Json, w: Json)
    ensures m[k := v][k := w] == m[k := w]
  {
  }

  lemma SpecRestored(doc: Json, current: map<string, string>)
    requires TypedSelector(doc) && SelectorOf(doc) == current
    ensures SpecOf(doc)["selector" := Texts(current)] == SpecOf(doc) <==> Get(doc, SELECTOR).Some?
  {
    SelectorInSpec(doc);
    if Get(doc, SELECTOR).Some? { assert Get(doc, SELECTOR).value == Texts(current); }
  }
}
