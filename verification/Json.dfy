/** JSON documents with the two patch formats: JSON Patch (RFC 6902) and JSON Merge Patch (RFC 7396). */
module Json {
  import opened Wrappers

  datatype Json =
    | Null
    | Text(text: string)
    | Number(number: int)
    | List(items: seq<Json>)
    | Object(members: map<string, Json>)

  /** A reference token of a JSON pointer. */
  datatype Token = Key(key: string) | Index(index: nat)

  type Path = seq<Token>

  function Child(doc: Json, t: Token): (c: Option<Json>) {
    match t
    case Key(k) => if doc.Object? && k in doc.members then Some(doc.members[k]) else None
    case Index(i) => if doc.List? && i < |doc.items| then Some(doc.items[i]) else None
  }

  function WithChild(doc: Json, t: Token, v: Json): (d: Json)
    requires Child(doc, t).Some?
  {
    match t
    case Key(k) => Object(doc.members[k := v])
    case Index(i) => List(doc.items[i := v])
  }

  function Get(doc: Json, path: Path): (v: Option<Json>) {
    if path == [] then Some(doc)
    else if Child(doc, path[0]).None? then None
    else Get(Child(doc, path[0]).value, path[1..])
  }

  /** Replaces an existing value. */
  function Put(doc: Json, path: Path, v: Json): (d: Json)
    requires Get(doc, path).Some?
  {
    if path == [] then v else WithChild(doc, path[0], Put(Child(doc, path[0]).value, path[1..], v))
  }

  /** Neither path leads into the other. */
  predicate Apart(p: Path, q: Path) {
    p != [] && q != [] && (p[0] != q[0] || Apart(p[1..], q[1..]))
  }

  lemma {:induction false} PutThenGet(doc: Json, path: Path, v: Json)
    requires Get(doc, path).Some?
    ensures Get(Put(doc, path, v), path) == Some(v)
  {
    if path != [] { PutThenGet(Child(doc, path[0]).value, path[1..], v); }
  }

  lemma {:induction false} PutLeavesOthers(doc: Json, path: Path, v: Json, other: Path)
    requires Get(doc, path).Some? && Apart(path, other)
    ensures Get(Put(doc, path, v), other) == Get(doc, other)
  {
    if path[0] == other[0] { PutLeavesOthers(Child(doc, path[0]).value, path[1..], v, other[1..]); }
  }

  /** Putting the old value back restores the document: nothing else was changed. */
  lemma {:induction false} PutBack(doc: Json, path: Path, v: Json)
    requires Get(doc, path).Some?
    ensures Get(Put(doc, path, v), path).Some? && Put(Put(doc, path, v), path, Get(doc, path).value) == doc
  {
    PutThenGet(doc, path, v);
    if path != [] {
      PutBack(Child(doc, path[0]).value, path[1..], v);
      var inner := Put(Child(doc, path[0]).value, path[1..], v);
      assert Child(WithChild(doc, path[0], inner), path[0]) == Some(inner);
      assert WithChild(WithChild(doc, path[0], inner), path[0], Child(doc, path[0]).value) == doc;
    }
  }

  lemma {:induction false} GetConcat(doc: Json, p: Path, q: Path)
    ensures Get(doc, p + q) == if Get(doc, p).None? then None else Get(Get(doc, p).value, q)
  {
    if p == [] {
      assert p + q == q;
    } else {
      assert (p + q)[1..] == p[1..] + q;
      if Child(doc, p[0]).Some? { GetConcat(Child(doc, p[0]).value, p[1..], q); }
    }
  }

  lemma {:induction false} PutConcat(doc: Json, p: Path, q: Path, v: Json)
    requires Get(doc, p + q).Some?
    ensures Get(doc, p).Some? && Get(Get(doc, p).value, q).Some?
    ensures Get(Put(doc, p + q, v), p) == Some(Put(Get(doc, p).value, q, v))
  {
    GetConcat(doc, p, q);
    if p == [] {
      assert p + q == q;
    } else {
      assert (p + q)[1..] == p[1..] + q && (p + q)[0] == p[0];
      PutConcat(Child(doc, p[0]).value, p[1..], q, v);
    }
  }

  lemma {:induction false} ApartBelow(common: Path, p: Path, q: Path)
    requires Apart(p, q)
    ensures Apart(common + p, common + q)
  {
    if common == [] {
      assert common + p == p && common + q == q;
    } else {
      assert (common + p)[1..] == common[1..] + p && (common + q)[1..] == common[1..] + q;
      ApartBelow(common[1..], p, q);
    }
  }

  // ----- RFC 6902 ----------------------------------------------------------------------------

  datatype Operation = Test(path: Path, value: Json) | Replace(path: Path, value: Json)

  /** Sections 4.3 and 4.6 of RFC 6902: both need an existing target. */
  function ApplyOne(doc: Json, op: Operation): (d: Option<Json>) {
    match op
    case Test(p, v) => if Get(doc, p) == Some(v) then Some(doc) else None
    case Replace(p, v) => if Get(doc, p).Some? then Some(Put(doc, p, v)) else None
  }

  /** Section 5 of RFC 6902: one failing operation fails the whole patch. */
  function ApplyPatch(doc: Json, ops: seq<Operation>): (d: Option<Json>)
    decreases |ops|
  {
    if ops == [] then Some(doc)
    else
      var next := ApplyOne(doc, ops[0]);
      if next.None? then None else ApplyPatch(next.value, ops[1..])
  }

  /** What the resource is after a patch request. */
  function Patched(doc: Json, ops: seq<Operation>): (d: Json) {
    if ApplyPatch(doc, ops).Some? then ApplyPatch(doc, ops).value else doc
  }

  // ----- RFC 7396 ----------------------------------------------------------------------------

  function MembersOf(doc: Option<Json>): (m: map<string, Json>) {
    if doc.Some? && doc.value.Object? then doc.value.members else map[]
  }

  function Lookup(m: map<string, Json>, k: string): (v: Option<Json>) {
    if k in m then Some(m[k]) else None
  }

  /** Section 2 of RFC 7396. */
  function Merge(target: Option<Json>, patch: Json): (d: Json)
    decreases patch
  {
    if !patch.Object? then patch
    else
      var t := MembersOf(target);
      Object(map k | k in t.Keys + patch.members.Keys && !(k in patch.members && patch.members[k].Null?) ::
               if k in patch.members then Merge(Lookup(t, k), patch.members[k]) else t[k])
  }

  /** Merging one member that is not removed. */
  lemma MergeMember(target: Option<Json>, k: string, v: Json)
    requires !v.Null?
    ensures Merge(target, Object(map[k := v])) == Object(MembersOf(target)[k := Merge(Lookup(MembersOf(target), k), v)])
  {
  }
}
