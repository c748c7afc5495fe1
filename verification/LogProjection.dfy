/** The prompt view of sampled logs: exact repeats of probe lines are grouped, everything else is verbatim. */
module LogProjection {
  import opened Wrappers

  /** A line that is nothing but a probe access record. */
  datatype Probe = Probe(message: string, timestamp: Option<string>)

  /** 1-based, inclusive. */
  datatype Range = Range(start: int, end: int)

  datatype Group = Group(sample: string, count: int, first: Option<string>, last: Option<string>, ranges: seq<Range>)

  datatype Span = Span(start: int, end: int, content: string)

  datatype View = View(sampledLines: nat, groups: seq<Group>, spans: seq<Span>)

  type Parser = string -> Option<Probe>

  // ----- line ranges -------------------------------------------------------------------------

  /** Sorted and not touching, within lines 1 to n. */
  ghost predicate RangesOk(rs: seq<Range>, n: nat) {
    && (forall i :: 0 <= i < |rs| ==> 1 <= rs[i].start <= rs[i].end <= n)
    && (forall i, j :: 0 <= i < j < |rs| ==> rs[i].end + 1 < rs[j].start)
  }

  ghost predicate Covers(rs: seq<Range>, k: int) {
    exists i :: 0 <= i < |rs| && rs[i].start <= k <= rs[i].end
  }

  function TotalLength(rs: seq<Range>): (n: int) {
    if rs == [] then 0 else TotalLength(rs[..|rs| - 1]) + rs[|rs| - 1].end - rs[|rs| - 1].start + 1
  }

  function AddLine(rs: seq<Range>, number: nat): (r: seq<Range>) {
    if rs != [] && rs[|rs| - 1].end == number - 1 then rs[|rs| - 1 := rs[|rs| - 1].(end := number)]
    else rs + [Range(number, number)]
  }

  lemma AddLineOk(rs: seq<Range>, n: nat)
    requires RangesOk(rs, n)
    ensures TotalLength(AddLine(rs, n + 1)) == TotalLength(rs) + 1
    ensures var r := AddLine(rs, n + 1);
            && RangesOk(r, n + 1)
            && |r| > 0 && r[|r| - 1].end == n + 1 && (|rs| > 0 ==> r[0].start == rs[0].start)
               && (|rs| == 0 ==> r[0].start == n + 1)
  {
    AddLineLength(rs, n);
  }

  lemma AddLineLength(rs: seq<Range>, n: nat)
    ensures TotalLength(AddLine(rs, n + 1)) == TotalLength(rs) + 1
  {
    var r := AddLine(rs, n + 1);
    assert r[..|r| - 1] == if |r| == |rs| then rs[..|rs| - 1] else rs;
  }

  lemma AddLineCovers(rs: seq<Range>, n: nat, k: int)
    requires RangesOk(rs, n)
    ensures Covers(AddLine(rs, n + 1), k) <==> Covers(rs, k) || k == n + 1
  {
    var r := AddLine(rs, n + 1);
    if Covers(rs, k) {
      var i :| 0 <= i < |rs| && rs[i].start <= k <= rs[i].end;
      assert r[i].start <= k <= r[i].end;
    }
    assert r[|r| - 1].start <= n + 1 <= r[|r| - 1].end;
    if Covers(r, k) && k != n + 1 {
      var i :| 0 <= i < |r| && r[i].start <= k <= r[i].end;
      assert i < |rs| && rs[i].start <= k <= rs[i].end;
    }
  }

  lemma {:induction false} LengthAtLeast(rs: seq<Range>, n: nat)
    requires RangesOk(rs, n)
    ensures TotalLength(rs) >= |rs|
    decreases |rs|
  {
    if rs != [] { LengthAtLeast(rs[..|rs| - 1], n); }
  }

  /** The total is at least two exactly when two different lines are covered. */
  lemma TwoLines(rs: seq<Range>, n: nat)
    requires RangesOk(rs, n)
    ensures TotalLength(rs) >= 2 <==> exists j, k :: j != k && Covers(rs, j) && Covers(rs, k)
  {
    LengthAtLeast(rs, n);
    if |rs| >= 2 {
      assert Covers(rs, rs[0].start) && Covers(rs, rs[1].start);
    } else if |rs| == 1 {
      assert TotalLength(rs) == rs[0].end - rs[0].start + 1;
      assert Covers(rs, rs[0].start) && Covers(rs, rs[0].end);
    }
  }

  // ----- the specification -------------------------------------------------------------------

  type Candidates = seq<Option<Probe>>

  predicate Says(parsed: Candidates, k: int, message: string) {
    1 <= k <= |parsed| && parsed[k - 1].Some? && parsed[k - 1].value.message == message
  }

  function MessageAt(parsed: Candidates, k: int): (m: string) {
    if 1 <= k <= |parsed| && parsed[k - 1].Some? then parsed[k - 1].value.message else ""
  }

  function StampAt(parsed: Candidates, k: int): (t: Option<string>) {
    if 1 <= k <= |parsed| && parsed[k - 1].Some? then parsed[k - 1].value.timestamp else None
  }

  /** The ranges hold exactly the lines among the first n that carry the message. */
  ghost predicate Collects(parsed: Candidates, n: nat, message: string, rs: seq<Range>) {
    forall k :: Covers(rs, k) <==> k <= n && Says(parsed, k, message)
  }

  /** The descriptive fields come from the first and the last of the lines. */
  ghost predicate Describes(lines: seq<string>, parsed: Candidates, g: Group) {
    && |g.ranges| > 0 && 1 <= g.ranges[0].start <= |lines|
    && g.sample == lines[g.ranges[0].start - 1] && g.first == StampAt(parsed, g.ranges[0].start)
    && g.last == StampAt(parsed, g.ranges[|g.ranges| - 1].end)
    && g.count == TotalLength(g.ranges)
  }

  ghost predicate GroupOk(lines: seq<string>, parsed: Candidates, n: nat, message: string, g: Group) {
    RangesOk(g.ranges, n) && Collects(parsed, n, message, g.ranges) && Describes(lines, parsed, g)
  }

  ghost function FirstLine(groups: map<string, Group>, m: string): (k: int) {
    if m in groups && |groups[m].ranges| > 0 then groups[m].ranges[0].start else 0
  }

  ghost predicate InOrder(order: seq<string>, groups: map<string, Group>) {
    forall i, j :: 0 <= i < j < |order| ==> FirstLine(groups, order[i]) < FirstLine(groups, order[j])
  }

  /** The groups of the first n lines, in order of first appearance. */
  ghost predicate GroupsOk(lines: seq<string>, parsed: Candidates, n: nat, order: seq<string>,
                           groups: map<string, Group>) {
    && (forall m :: m in groups <==> m in order)
    && AllGroupsOk(lines, parsed, n, groups)
    && (forall k, m :: k <= n && Says(parsed, k, m) ==> m in groups)
    && InOrder(order, groups)
  }

  ghost predicate AllGroupsOk(lines: seq<string>, parsed: Candidates, n: nat, groups: map<string, Group>) {
    forall m :: m in groups ==> GroupOk(lines, parsed, n, m, groups[m])
  }

  function Concat(lines: seq<string>): (s: string) {
    if lines == [] then "" else Concat(lines[..|lines| - 1]) + lines[|lines| - 1]
  }

  ghost function RangesOf(spans: seq<Span>): (rs: seq<Range>)
    ensures |rs| == |spans| && forall i :: 0 <= i < |rs| ==> rs[i] == Range(spans[i].start, spans[i].end)
  {
    seq(|spans|, i requires 0 <= i < |spans| => Range(spans[i].start, spans[i].end))
  }

  ghost predicate Verbatim(lines: seq<string>, s: Span) {
    1 <= s.start <= s.end <= |lines| && s.content == Concat(lines[s.start - 1..s.end])
  }

  ghost predicate InGroup(v: View, k: int) {
    exists i :: 0 <= i < |v.groups| && Covers(v.groups[i].ranges, k)
  }

  /** Another line parses to the same message. */
  ghost predicate Repeats(parsed: Candidates, k: int) {
    exists j :: j != k && Says(parsed, j, MessageAt(parsed, k)) && Says(parsed, k, MessageAt(parsed, k))
  }

  ghost predicate SpansOk(lines: seq<string>, parsed: Candidates, spans: seq<Span>, n: nat) {
    && RangesOk(RangesOf(spans), n)
    && AllVerbatim(lines, spans)
    && HoldsRest(parsed, RangesOf(spans), n)
  }

  /** The ranges hold exactly the lines among the first n that do not repeat. */
  ghost predicate HoldsRest(parsed: Candidates, rs: seq<Range>, n: nat) {
    forall k :: Covers(rs, k) <==> 1 <= k <= n && !Repeats(parsed, k)
  }

  ghost predicate GroupAt(lines: seq<string>, parsed: Candidates, g: Group) {
    |g.ranges| > 0 && g.count >= 2 && GroupOk(lines, parsed, |lines|, MessageAt(parsed, g.ranges[0].start), g)
  }

  ghost predicate Sorted(groups: seq<Group>) {
    && (forall i :: 0 <= i < |groups| ==> |groups[i].ranges| > 0)
    && (forall i, j :: 0 <= i < j < |groups| ==> groups[i].ranges[0].start < groups[j].ranges[0].start)
  }

  /** What a view says about the sampled lines. */
  ghost predicate ViewOk(lines: seq<string>, parsed: Candidates, v: View) {
    && v.sampledLines == |lines|
    && (forall i :: 0 <= i < |v.groups| ==> GroupAt(lines, parsed, v.groups[i])) && Sorted(v.groups)
    && (forall k :: InGroup(v, k) <==> Repeats(parsed, k))
    && SpansOk(lines, parsed, v.spans, |lines|)
  }

  // ----- grouping ----------------------------------------------------------------------------

  function NewGroup(line: string, timestamp: Option<string>): (g: Group) {
    Group(line, 0, timestamp, timestamp, [])
  }

  /** One more occurrence (log_projection.py:58-64). */
  function Extended(g: Group, number: nat, timestamp: Option<string>): (e: Group) {
    g.(count := g.count + 1, last := timestamp, ranges := AddLine(g.ranges, number))
  }

  lemma CollectsOne(parsed: Candidates, n: nat, m: string, rs: seq<Range>)
    requires RangesOk(rs, n) && Collects(parsed, n, m, rs) && Says(parsed, n + 1, m)
    ensures Collects(parsed, n + 1, m, AddLine(rs, n + 1))
  {
    forall k ensures Covers(AddLine(rs, n + 1), k) <==> k <= n + 1 && Says(parsed, k, m) { AddLineCovers(rs, n, k); }
  }

  lemma ExtendedOk(lines: seq<string>, parsed: Candidates, n: nat, m: string, g: Group)
    requires n < |lines| == |parsed| && Says(parsed, n + 1, m) && GroupOk(lines, parsed, n, m, g)
    ensures var e := Extended(g, n + 1, StampAt(parsed, n + 1));
            GroupOk(lines, parsed, n + 1, m, e) && e.ranges[0].start == g.ranges[0].start
  {
    AddLineOk(g.ranges, n);
    CollectsOne(parsed, n, m, g.ranges);
  }

  lemma StartedOk(lines: seq<string>, parsed: Candidates, n: nat, m: string)
    requires n < |lines| == |parsed| && Says(parsed, n + 1, m) && (forall k :: k <= n ==> !Says(parsed, k, m))
    ensures var e := Extended(NewGroup(lines[n], StampAt(parsed, n + 1)), n + 1, StampAt(parsed, n + 1));
            GroupOk(lines, parsed, n + 1, m, e) && e.ranges[0].start == n + 1
  {
    AddLineOk([], n);
    CollectsOne(parsed, n, m, []);
  }

  lemma OtherGroupOk(lines: seq<string>, parsed: Candidates, n: nat, m: string, g: Group)
    requires GroupOk(lines, parsed, n, m, g) && !Says(parsed, n + 1, m)
    ensures GroupOk(lines, parsed, n + 1, m, g)
  {
    assert Collects(parsed, n + 1, m, g.ranges);
  }

  lemma GroupStep(lines: seq<string>, parsed: Candidates, n: nat, groups: map<string, Group>, m: string, e: Group)
    requires AllGroupsOk(lines, parsed, n, groups) && Says(parsed, n + 1, m) && GroupOk(lines, parsed, n + 1, m, e)
    ensures AllGroupsOk(lines, parsed, n + 1, groups[m := e])
  {
    forall x | x in groups
        && x != m ensures GroupOk(lines, parsed, n + 1, x, groups[x]) { OtherGroupOk(lines, parsed, n, x, groups[x]); }
  }

  lemma OrderStep(order: seq<string>, groups: map<string, Group>, m: string, e: Group, n: nat)
    requires InOrder(order, groups) && |e.ranges| > 0
    requires forall x :: x in order ==> x in groups && FirstLine(groups, x) <= n
    requires if m in groups then FirstLine(groups, m) == e.ranges[0].start else e.ranges[0].start == n + 1
    ensures InOrder(if m in groups then order else order + [m], groups[m := e])
  {
    var order' := if m in groups then order else order + [m];
    forall i, j | 0 <= i < j < |order'| ensures FirstLine(groups[m := e], order'[i]) < FirstLine(groups[m := e],
        order'[j]) {
      assert order[i] in order && FirstLine(groups[m := e], order'[i]) == FirstLine(groups, order[i]);
      if j < |order| { assert order[j] in order
                      && FirstLine(groups[m := e], order'[j]) == FirstLine(groups, order[j]); }
    }
  }

  /** A line was added to its group. */
  lemma LineGrouped(lines: seq<string>, parsed: Candidates, n: nat, order: seq<string>, groups: map<string, Group>,
                    m: string, e: Group)
    requires GroupsOk(lines, parsed, n, order, groups) && Says(parsed, n + 1, m)
    requires GroupOk(lines, parsed, n + 1, m, e)
    requires if m in groups then FirstLine(groups, m) == e.ranges[0].start else e.ranges[0].start == n + 1
    ensures GroupsOk(lines, parsed, n + 1, if m in groups then order else order + [m], groups[m := e])
  {
    GroupStep(lines, parsed, n, groups, m, e);
    forall k, x | k <= n + 1 && Says(parsed, k, x) ensures x in groups[m := e] { assert k <= n || x == m; }
    forall x | x in order ensures x in groups
        && FirstLine(groups, x) <= n { assert GroupOk(lines, parsed, n, x, groups[x]); }
    OrderStep(order, groups, m, e, n);
  }

  lemma LineSkipped(lines: seq<string>, parsed: Candidates, n: nat, order: seq<string>, groups: map<string, Group>)
    requires GroupsOk(lines, parsed, n, order, groups) && n < |parsed| && parsed[n].None?
    ensures GroupsOk(lines, parsed, n + 1, order, groups)
  {
    forall x | x in groups ensures GroupOk(lines, parsed, n + 1, x,
                                           groups[x]) { OtherGroupOk(lines, parsed, n, x, groups[x]); }
    forall k, x | k <= n + 1 && Says(parsed, k, x) ensures x in groups { assert k <= n; }
  }

  /** The messages seen more than once, in order. */
  function RepeatedMessages(order: seq<string>, groups: map<string, Group>): (ms: seq<string>)
    ensures forall m :: m in ms <==> m in order && m in groups && groups[m].count > 1
  {
    if order == [] then []
    else
      var ms := RepeatedMessages(order[..|order| - 1], groups);
      var m := order[|order| - 1];
      if m in groups && groups[m].count > 1 then ms + [m] else ms
  }

  lemma {:induction false} RepeatedInOrder(order: seq<string>, groups: map<string, Group>)
    requires InOrder(order, groups)
    ensures InOrder(RepeatedMessages(order, groups), groups)
    decreases |order|
  {
    if order != [] {
      var n := |order| - 1;
      assert InOrder(order[..n], groups);
      RepeatedInOrder(order[..n], groups);
      var before := RepeatedMessages(order[..n], groups);
      forall i | 0 <= i < |before| ensures FirstLine(groups, before[i]) < FirstLine(groups, order[n]) {
        assert before[i] in before;
        var j :| 0 <= j < n && order[j] == before[i];
      }
    }
  }

  /** A message is repeated exactly when two different lines carry it. */
  lemma RepeatedMeans(lines: seq<string>, parsed: Candidates, order: seq<string>, groups: map<string, Group>, k: int)
    requires GroupsOk(lines, parsed, |parsed|, order, groups) && 1 <= k <= |parsed|
    ensures (parsed[k - 1].Some? && MessageAt(parsed, k) in RepeatedMessages(order, groups)) <==> Repeats(parsed, k)
  {
    if parsed[k - 1].Some? {
      var m := MessageAt(parsed, k);
      assert Says(parsed, k, m);
      var rs := groups[m].ranges;
      assert GroupOk(lines, parsed, |parsed|, m, groups[m]);
      TwoLines(rs, |parsed|);
      if groups[m].count > 1 {
        var i, j :| i != j && Covers(rs, i) && Covers(rs, j);
        assert Says(parsed, i, m) && Says(parsed, j, m);
      }
      if Repeats(parsed, k) {
        var j :| j != k && Says(parsed, j, m);
        assert Covers(rs, j) && Covers(rs, k);
      }
    }
  }

  // ----- spans -------------------------------------------------------------------------------

  /** log_projection.py:72-76 */
  function AddSpan(spans: seq<Span>, number: nat, line: string): (s: seq<Span>) {
    if spans != [] && spans[|spans| - 1].end == number - 1 then
      spans[|spans| - 1 := Span(spans[|spans| - 1].start, number, spans[|spans| - 1].content + line)]
    else spans + [Span(number, number, line)]
  }

  lemma ConcatMore(lines: seq<string>, start: nat, n: nat)
    requires 1 <= start <= n + 1 && n < |lines|
    ensures Concat(lines[start - 1..n + 1]) == Concat(lines[start - 1..n]) + lines[n]
  {
    assert lines[start - 1..n + 1][..n + 1 - start] == lines[start - 1..n];
  }

  lemma AddSpanRanges(spans: seq<Span>, n: nat, line: string)
    ensures RangesOf(AddSpan(spans, n + 1, line)) == AddLine(RangesOf(spans), n + 1)
  {
  }

  lemma ExtendedVerbatim(lines: seq<string>, s: Span, n: nat)
    requires Verbatim(lines, s) && s.end == n < |lines|
    ensures Verbatim(lines, Span(s.start, n + 1, s.content + lines[n]))
  {
    ConcatMore(lines, s.start, n);
  }

  lemma SingleVerbatim(lines: seq<string>, n: nat)
    requires n < |lines|
    ensures Verbatim(lines, Span(n + 1, n + 1, lines[n]))
  {
    ConcatMore(lines, n + 1, n);
    assert lines[n..n] == [];
  }

  ghost predicate AllVerbatim(lines: seq<string>, spans: seq<Span>) {
    forall i :: 0 <= i < |spans| ==> Verbatim(lines, spans[i])
  }

  lemma AddSpanVerbatim(lines: seq<string>, spans: seq<Span>, n: nat)
    requires n < |lines| && AllVerbatim(lines, spans)
    ensures AllVerbatim(lines, AddSpan(spans, n + 1, lines[n]))
  {
    if spans != [] && spans[|spans| - 1].end == n {
      ExtendedVerbatim(lines, spans[|spans| - 1], n);
    } else {
      SingleVerbatim(lines, n);
    }
  }

  lemma RestStep(parsed: Candidates, rs: seq<Range>, n: nat)
    requires RangesOk(rs, n) && HoldsRest(parsed, rs, n)
    ensures HoldsRest(parsed, if Repeats(parsed, n + 1) then rs else AddLine(rs, n + 1), n + 1)
  {
    if !Repeats(parsed, n + 1) {
      forall k ensures Covers(AddLine(rs, n + 1), k) <==>
            1 <= k <= n + 1 && !Repeats(parsed, k) { AddLineCovers(rs, n, k); }
    }
  }

  lemma SpanStep(lines: seq<string>, parsed: Candidates, spans: seq<Span>, n: nat)
    requires SpansOk(lines, parsed, spans, n) && n < |lines|
    ensures Repeats(parsed, n + 1) ==> SpansOk(lines, parsed, spans, n + 1)
    ensures !Repeats(parsed, n + 1) ==> SpansOk(lines, parsed, AddSpan(spans, n + 1, lines[n]), n + 1)
  {
    RestStep(parsed, RangesOf(spans), n);
    if !Repeats(parsed, n + 1) {
      AddSpanRanges(spans, n, lines[n]);
      AddLineOk(RangesOf(spans), n);
      AddSpanVerbatim(lines, spans, n);
    }
  }
}
