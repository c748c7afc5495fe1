/** The projection of sampled logs, and what its view preserves. */
module LogViews {
  import opened Wrappers
  import opened LogProjection

  // ----- a set of lines has one description by ranges ----------------------------------------

  ghost predicate SameLines(rs: seq<Range>, rs': seq<Range>) {
    forall k :: Covers(rs, k) <==> Covers(rs', k)
  }

  lemma LastEnd(rs: seq<Range>, rs': seq<Range>, n: nat)
    requires RangesOk(rs, n) && RangesOk(rs', n) && rs != [] && rs' != [] && SameLines(rs, rs')
    ensures rs[|rs| - 1].end <= rs'[|rs'| - 1].end
  {
    var k := rs[|rs| - 1].end;
    assert Covers(rs, k);
    var i :| 0 <= i < |rs'| && rs'[i].start <= k <= rs'[i].end;
    assert i < |rs'| - 1 ==> rs'[i].end + 1 < rs'[|rs'| - 1].start;
  }

  lemma NotCoveredBefore(rs: seq<Range>, n: nat)
    requires RangesOk(rs, n) && rs != []
    ensures !Covers(rs, rs[|rs| - 1].start - 1)
  {
  }

  lemma LastStart(rs: seq<Range>, rs': seq<Range>, n: nat)
    requires RangesOk(rs, n) && RangesOk(rs', n) && rs != [] && rs' != [] && SameLines(rs, rs')
    requires rs[|rs| - 1].end == rs'[|rs'| - 1].end
    ensures rs'[|rs'| - 1].start <= rs[|rs| - 1].start
  {
    NotCoveredBefore(rs', n);
    assert !Covers(rs, rs'[|rs'| - 1].start - 1);
  }

  lemma InitCovers(rs: seq<Range>, n: nat, k: int)
    requires RangesOk(rs, n) && rs != []
    ensures Covers(rs[..|rs| - 1], k) <==> Covers(rs, k) && k < rs[|rs| - 1].start
  {
    var init := rs[..|rs| - 1];
    if Covers(init, k) {
      var i :| 0 <= i < |init| && init[i].start <= k <= init[i].end;
      assert rs[i].start <= k <= rs[i].end && rs[i].end + 1 < rs[|rs| - 1].start;
    }
    if Covers(rs, k) && k < rs[|rs| - 1].start {
      var i :| 0 <= i < |rs| && rs[i].start <= k <= rs[i].end;
      assert init[i] == rs[i];
    }
  }

  lemma CoversHead(rs: seq<Range>, n: nat)
    requires RangesOk(rs, n)
    ensures if rs == [] then forall k :: !Covers(rs, k) else Covers(rs, rs[0].start)
  {
  }

  lemma {:induction false} RangesUnique(rs: seq<Range>, rs': seq<Range>, n: nat)
    requires RangesOk(rs, n) && RangesOk(rs', n) && SameLines(rs, rs')
    ensures rs == rs'
    decreases |rs|
  {
    CoversHead(rs, n);
    CoversHead(rs', n);
    if rs != [] && rs' != [] {
      LastEnd(rs, rs', n);
      LastEnd(rs', rs, n);
      LastStart(rs, rs', n);
      LastStart(rs', rs, n);
      var init, init' := rs[..|rs| - 1], rs'[..|rs'| - 1];
      forall k ensures Covers(init, k) <==> Covers(init', k) {
        InitCovers(rs, n, k);
        InitCovers(rs', n, k);
      }
      RangesUnique(init, init', n);
      assert rs == init + [rs[|rs| - 1]] && rs' == init' + [rs'[|rs'| - 1]];
    }
  }

  // ----- the lines determine the view --------------------------------------------------------

  lemma GroupUnique(lines: seq<string>, parsed: Candidates, m: string, g: Group, g': Group)
    requires GroupOk(lines, parsed, |lines|, m, g) && GroupOk(lines, parsed, |lines|, m, g')
    ensures g == g'
  {
    assert SameLines(g.ranges, g'.ranges);
    RangesUnique(g.ranges, g'.ranges, |lines|);
  }

  /** Every group of one view occurs in the other. */
  lemma GroupInOther(lines: seq<string>, parsed: Candidates, v: View, v': View, i: nat) returns (j: nat)
    requires ViewOk(lines, parsed, v) && ViewOk(lines, parsed, v') && i < |v.groups|
    ensures j < |v'.groups| && v'.groups[j] == v.groups[i]
  {
    var g := v.groups[i];
    assert GroupAt(lines, parsed, g);
    var k := g.ranges[0].start;
    var m := MessageAt(parsed, k);
    assert Covers(g.ranges, k) && InGroup(v, k) && Repeats(parsed, k) && InGroup(v', k);
    j :| 0 <= j < |v'.groups| && Covers(v'.groups[j].ranges, k);
    var g' := v'.groups[j];
    assert GroupAt(lines, parsed, g');
    assert Says(parsed, k, m) && Says(parsed, k, MessageAt(parsed, g'.ranges[0].start));
    GroupUnique(lines, parsed, m, g, g');
  }

  ghost predicate Within(groups: seq<Group>, others: seq<Group>) {
    forall i :: 0 <= i < |groups| ==> groups[i] in others
  }

  lemma LastNotLater(groups: seq<Group>, others: seq<Group>)
    requires Sorted(groups) && Sorted(others) && Within(groups, others) && groups != [] && others != []
    ensures groups[|groups| - 1].ranges[0].start <= others[|others| - 1].ranges[0].start
  {
    assert groups[|groups| - 1] in others;
    var i :| 0 <= i < |others| && others[i] == groups[|groups| - 1];
  }

  lemma InitWithin(groups: seq<Group>, others: seq<Group>)
    requires Sorted(groups) && Sorted(others) && Within(groups, others) && groups != [] && others != []
    requires groups[|groups| - 1].ranges[0].start == others[|others| - 1].ranges[0].start
    ensures Within(groups[..|groups| - 1], others[..|others| - 1])
  {
    forall k | 0 <= k < |groups| - 1 ensures groups[k] in others[..|others| - 1] {
      assert groups[k] in others;
      var l :| 0 <= l < |others| && others[l] == groups[k];
      assert l < |others| - 1;
    }
  }

  lemma NotWithinEmpty(groups: seq<Group>, others: seq<Group>)
    requires Within(groups, others)
    ensures others == [] ==> groups == []
  {
    if groups != [] { assert groups[0] in others; }
  }

  lemma {:induction false} SortedUnique(groups: seq<Group>, others: seq<Group>)
    requires Sorted(groups) && Sorted(others) && Within(groups, others) && Within(others, groups)
    ensures groups == others
    decreases |groups|
  {
    NotWithinEmpty(groups, others);
    NotWithinEmpty(others, groups);
    if groups != [] && others != [] {
      var n, n' := |groups| - 1, |others| - 1;
      LastNotLater(groups, others);
      LastNotLater(others, groups);
      InitWithin(groups, others);
      InitWithin(others, groups);
      SortedUnique(groups[..n], others[..n']);
      assert groups[n] in others;
      assert groups == groups[..n] + [groups[n]] && others == others[..n'] + [others[n']];
    }
  }

  lemma SpansUnique(lines: seq<string>, parsed: Candidates, spans: seq<Span>, spans': seq<Span>)
    requires SpansOk(lines, parsed, spans, |lines|) && SpansOk(lines, parsed, spans', |lines|)
    ensures spans == spans'
  {
    assert SameLines(RangesOf(spans), RangesOf(spans'));
    RangesUnique(RangesOf(spans), RangesOf(spans'), |lines|);
    forall i | 0 <= i < |spans| ensures spans[i] == spans'[i] {
      assert RangesOf(spans)[i] == RangesOf(spans')[i] && Verbatim(lines, spans[i]) && Verbatim(lines, spans'[i]);
    }
  }

  /** Exactly one view meets the specification. */
  lemma ViewUnique(lines: seq<string>, parsed: Candidates, v: View, v': View)
    requires ViewOk(lines, parsed, v) && ViewOk(lines, parsed, v')
    ensures v == v'
  {
    forall i | 0 <= i < |v.groups| ensures v.groups[i] in v'.groups { var j := GroupInOther(lines, parsed, v, v', i); }
    forall i | 0 <= i < |v'.groups| ensures v'.groups[i] in v.groups { var j := GroupInOther(lines, parsed, v', v, i); }
    SortedUnique(v.groups, v'.groups);
    SpansUnique(lines, parsed, v.spans, v'.spans);
  }

  // ----- the projection ----------------------------------------------------------------------

  function CandidatesOf(lines: seq<string>, probe: string -> Option<Probe>): (c: Candidates)
    ensures |c| == |lines| && forall k :: 0 <= k < |c| ==> c[k] == probe(lines[k])
  {
    seq(|lines|, k requires 0 <= k < |lines| => probe(lines[k]))
  }

  lemma GroupsFromMessages(lines: seq<string>, parsed: Candidates, order: seq<string>, groups: map<string, Group>,
                           gs: seq<Group>)
    requires GroupsOk(lines, parsed, |parsed|, order, groups) && |lines| == |parsed|
    requires var ms := RepeatedMessages(order, groups);
             |gs| == |ms| && forall i :: 0 <= i < |ms| ==> ms[i] in groups && gs[i] == groups[ms[i]]
    ensures Sorted(gs) && forall i :: 0 <= i < |gs| ==>
              GroupAt(lines, parsed, gs[i])
                  && MessageAt(parsed, gs[i].ranges[0].start) == RepeatedMessages(order, groups)[i]
  {
    var ms := RepeatedMessages(order, groups);
    RepeatedInOrder(order, groups);
    forall i | 0 <= i < |gs|
      ensures GroupAt(lines, parsed, gs[i]) && MessageAt(parsed, gs[i].ranges[0].start) == ms[i]
              && FirstLine(groups, ms[i]) == gs[i].ranges[0].start
    {
      assert ms[i] in ms && GroupOk(lines, parsed, |parsed|, ms[i], gs[i]);
      assert Covers(gs[i].ranges, gs[i].ranges[0].start);
      assert Says(parsed, gs[i].ranges[0].start, ms[i]);
    }
  }

  lemma AssembledOk(lines: seq<string>, parsed: Candidates, order: seq<string>, groups: map<string, Group>, v: View)
    requires GroupsOk(lines, parsed, |parsed|, order, groups) && |lines| == |parsed|
    requires SpansOk(lines, parsed, v.spans, |lines|) && v.sampledLines == |lines|
    requires var ms := RepeatedMessages(order, groups);
             |v.groups| == |ms| && forall i :: 0 <= i < |ms| ==> ms[i] in groups && v.groups[i] == groups[ms[i]]
    ensures ViewOk(lines, parsed, v)
  {
    var ms := RepeatedMessages(order, groups);
    GroupsFromMessages(lines, parsed, order, groups, v.groups);
    forall k ensures InGroup(v, k) <==> Repeats(parsed, k) {
      if InGroup(v, k) {
        var i :| 0 <= i < |v.groups| && Covers(v.groups[i].ranges, k);
        assert GroupAt(lines, parsed, v.groups[i]);
        assert Says(parsed, k, ms[i]) && ms[i] in ms;
        RepeatedMeans(lines, parsed, order, groups, k);
      }
      if Repeats(parsed, k) {
        RepeatedMeans(lines, parsed, order, groups, k);
        var i :| 0 <= i < |ms| && ms[i] == MessageAt(parsed, k);
        assert GroupAt(lines, parsed, v.groups[i]);
        assert Covers(v.groups[i].ranges, k);
      }
    }
  }

  /** The group a line is added to: its own, or a new one. */
  function GroupFor(groups: map<string, Group>, message: string, line: string, timestamp: Option<string>): (g: Group) {
    if message in groups then groups[message] else NewGroup(line, timestamp)
  }

  lemma LineAdded(lines: seq<string>, parsed: Candidates, n: nat, order: seq<string>, groups: map<string, Group>)
    requires GroupsOk(lines, parsed, n, order, groups) && n < |lines| == |parsed| && parsed[n].Some?
    ensures var m, t := parsed[n].value.message, parsed[n].value.timestamp;
            GroupsOk(lines, parsed, n + 1, if m in groups then order else order + [m],
                     groups[m := Extended(GroupFor(groups, m, lines[n], t), n + 1, t)])
  {
    var m, t := parsed[n].value.message, parsed[n].value.timestamp;
    assert Says(parsed, n + 1, m) && StampAt(parsed, n + 1) == t;
    var g := GroupFor(groups, m, lines[n], t);
    if m in groups {
      assert GroupOk(lines, parsed, n, m, g);
      ExtendedOk(lines, parsed, n, m, g);
    } else {
      StartedOk(lines, parsed, n, m);
    }
    LineGrouped(lines, parsed, n, order, groups, m, Extended(g, n + 1, t));
  }

  /** One turn of the loop at log_projection.py:48-64. */
  function Grouped(order: seq<string>, groups: map<string, Group>, n: nat, line: string, candidate: Option<Probe>)
    : (r: (seq<string>, map<string, Group>))
  {
    if candidate.None? then (order, groups)
    else
      var m, t := candidate.value.message, candidate.value.timestamp;
      (if m in groups then order else order + [m], groups[m := Extended(GroupFor(groups, m, line, t), n + 1, t)])
  }

  lemma GroupedOk(lines: seq<string>, parsed: Candidates, n: nat, order: seq<string>, groups: map<string, Group>)
    requires GroupsOk(lines, parsed, n, order, groups) && n < |lines| == |parsed|
    ensures GroupsOk(lines, parsed, n + 1, Grouped(order, groups, n, lines[n], parsed[n]).0,
                     Grouped(order, groups, n, lines[n], parsed[n]).1)
  {
    if parsed[n].Some? { LineAdded(lines, parsed, n, order, groups); }
        else { LineSkipped(lines, parsed, n, order, groups); }
  }

  lemma NothingGrouped(lines: seq<string>, parsed: Candidates)
    ensures GroupsOk(lines, parsed, 0, [], map[])
  {
  }

  method GroupLines(lines: seq<string>, probe: string -> Option<Probe>)
      returns (parsed: Candidates, order: seq<string>, groups: map<string, Group>)
    ensures parsed == CandidatesOf(lines, probe) && GroupsOk(lines, parsed, |parsed|, order, groups)
  {
    parsed, order, groups := [], [], map[];
    ghost var all := CandidatesOf(lines, probe);
    NothingGrouped(lines, all);
    for n := 0 to |lines|
      invariant parsed == all[..n]
      invariant GroupsOk(lines, all, n, order, groups)
    {
      GroupedOk(lines, all, n, order, groups);
      var candidate := probe(lines[n]);
      parsed := parsed + [candidate];
      var next := Grouped(order, groups, n, lines[n], candidate);
      order, groups := next.0, next.1;
    }
  }

  /** log_projection.py:68-76 */
  method CollectSpans(lines: seq<string>, parsed: Candidates, repeated: seq<string>) returns (spans: seq<Span>)
    requires |parsed| == |lines|
    requires forall k :: 1 <= k <= |parsed| ==>
                         (Repeats(parsed, k) <==> parsed[k - 1].Some? && MessageAt(parsed, k) in repeated)
    ensures SpansOk(lines, parsed, spans, |lines|)
  {
    spans := [];
    for n := 0 to |lines|
      invariant SpansOk(lines, parsed, spans, n)
    {
      SpanStep(lines, parsed, spans, n);
      assert Repeats(parsed, n + 1) <==> parsed[n].Some? && MessageAt(parsed, n + 1) in repeated;
      if parsed[n].Some? && parsed[n].value.message in repeated {
        continue;
      }
      spans := AddSpan(spans, n + 1, lines[n]);
    }
  }

  /** The view is returned exactly when some probe line repeats and the view encodes shorter than the plain
      content; it is the one view that meets the specification. */
  method ProjectLogs(lines: seq<string>, probe: string -> Option<Probe>, size: View -> nat, plain: nat)
      returns (r: Option<View>)
    ensures r.Some? ==> ViewOk(lines, CandidatesOf(lines, probe), r.value) && size(r.value) < plain
    ensures r.None? ==> (forall k :: !Repeats(CandidatesOf(lines, probe), k))
                        || (forall v :: ViewOk(lines, CandidatesOf(lines, probe), v) ==> size(v) >= plain)
    ensures r.Some? ==> exists k :: Repeats(CandidatesOf(lines, probe), k)
  {
    var parsed, order, groups := GroupLines(lines, probe);
    var repeated := RepeatedMessages(order, groups);
    forall k | 1 <= k <= |parsed| ensures Repeats(parsed, k) <==>
          parsed[k - 1].Some? && MessageAt(parsed, k) in repeated {
      RepeatedMeans(lines, parsed, order, groups, k);
    }
    if repeated == [] {
      return None;
    }
    var spans := CollectSpans(lines, parsed, repeated);
    var view := View(|lines|, seq(|repeated|, i requires 0 <= i < |repeated| =>
                                  assert repeated[i] in repeated; groups[repeated[i]]), spans);
    AssembledOk(lines, parsed, order, groups, view);
    forall v | ViewOk(lines, parsed, v) ensures v == view { ViewUnique(lines, parsed, v, view); }
    assert GroupAt(lines, parsed, view.groups[0]);
    assert Covers(view.groups[0].ranges, view.groups[0].ranges[0].start)
        && InGroup(view, view.groups[0].ranges[0].start);
    r := if size(view) < plain then Some(view) else None;
  }

  // ----- nothing is lost but grouped timestamps ----------------------------------------------

  /** Each line lies in one range of one group or in one span, and never in both. */
  lemma LinesArePartitioned(lines: seq<string>, parsed: Candidates, v: View, k: int)
    requires ViewOk(lines, parsed, v) && |parsed| == |lines|
    ensures 1 <= k <= |lines| <==> InGroup(v, k) || Covers(RangesOf(v.spans), k)
    ensures !(InGroup(v, k) && Covers(RangesOf(v.spans), k))
    ensures forall i, j :: 0 <= i < j < |v.groups| ==> !(Covers(v.groups[i].ranges, k) && Covers(v.groups[j].ranges, k))
  {
    assert InGroup(v, k) <==> Repeats(parsed, k);
    assert Covers(RangesOf(v.spans), k) <==> 1 <= k <= |lines| && !Repeats(parsed, k);
    forall i, j | 0 <= i < j < |v.groups| ensures !(Covers(v.groups[i].ranges, k) && Covers(v.groups[j].ranges, k)) {
      var g, h := v.groups[i], v.groups[j];
      assert GroupAt(lines, parsed, g) && GroupAt(lines, parsed, h);
      if Covers(g.ranges, k) && Covers(h.ranges, k) {
        GroupUnique(lines, parsed, MessageAt(parsed, k), g, h);
        assert false;
      }
    }
  }

  /** The lines that are not grouped, in order. */
  ghost function Ungrouped(lines: seq<string>, parsed: Candidates, n: nat): (rest: seq<string>)
    requires n <= |lines|
  {
    if n == 0 then []
    else if Repeats(parsed, n) then Ungrouped(lines, parsed, n - 1)
    else Ungrouped(lines, parsed, n - 1) + [lines[n - 1]]
  }

  ghost function Text(spans: seq<Span>): (s: string) {
    if spans == [] then "" else Text(spans[..|spans| - 1]) + spans[|spans| - 1].content
  }

  ghost function BuiltSpans(lines: seq<string>, parsed: Candidates, n: nat): (spans: seq<Span>)
    requires n <= |lines|
  {
    if n == 0 then []
    else if Repeats(parsed, n) then BuiltSpans(lines, parsed, n - 1)
    else AddSpan(BuiltSpans(lines, parsed, n - 1), n, lines[n - 1])
  }

  lemma AddSpanText(spans: seq<Span>, number: nat, line: string)
    ensures Text(AddSpan(spans, number, line)) == Text(spans) + line
  {
    var s := AddSpan(spans, number, line);
    assert s[..|s| - 1] == if |s| == |spans| then spans[..|spans| - 1] else spans;
  }

  lemma ConcatAppend(lines: seq<string>, line: string)
    ensures Concat(lines + [line]) == Concat(lines) + line
  {
    assert (lines + [line])[..|lines|] == lines;
  }

  lemma {:induction false} BuiltText(lines: seq<string>, parsed: Candidates, n: nat)
    requires n <= |lines|
    ensures Text(BuiltSpans(lines, parsed, n)) == Concat(Ungrouped(lines, parsed, n))
  {
    if n > 0 {
      BuiltText(lines, parsed, n - 1);
      if !Repeats(parsed, n) {
        AddSpanText(BuiltSpans(lines, parsed, n - 1), n, lines[n - 1]);
        ConcatAppend(Ungrouped(lines, parsed, n - 1), lines[n - 1]);
      }
    }
  }

  lemma BuiltStep(lines: seq<string>, parsed: Candidates, n: nat)
    requires 0 < n <= |lines|
    ensures BuiltSpans(lines, parsed, n) ==
              if Repeats(parsed, n) then BuiltSpans(lines, parsed, n - 1)
              else AddSpan(BuiltSpans(lines, parsed, n - 1), n, lines[n - 1])
  {
  }

  lemma SpansNext(lines: seq<string>, parsed: Candidates, m: nat, before: seq<Span>, after: seq<Span>)
    requires m < |lines| && SpansOk(lines, parsed, before, m)
    requires Repeats(parsed, m + 1) ==> after == before
    requires !Repeats(parsed, m + 1) ==> after == AddSpan(before, m + 1, lines[m])
    ensures SpansOk(lines, parsed, after, m + 1)
  {
    SpanStep(lines, parsed, before, m);
  }

  lemma {:induction false} BuiltOk(lines: seq<string>, parsed: Candidates, n: nat)
    requires n <= |lines|
    ensures SpansOk(lines, parsed, BuiltSpans(lines, parsed, n), n)
  {
    if n > 0 {
      BuiltOk(lines, parsed, n - 1);
      BuiltStep(lines, parsed, n);
      SpansNext(lines, parsed, n - 1, BuiltSpans(lines, parsed, n - 1), BuiltSpans(lines, parsed, n));
    } else {
      NoSpansOk(lines, parsed);
    }
  }

  lemma NoSpansOk(lines: seq<string>, parsed: Candidates)
    ensures SpansOk(lines, parsed, [], 0)
  {
  }

  /** The spans together are exactly the lines that were not grouped, verbatim and in order. */
  lemma SpansAreTheRest(lines: seq<string>, parsed: Candidates, v: View)
    requires ViewOk(lines, parsed, v)
    ensures Text(v.spans) == Concat(Ungrouped(lines, parsed, |lines|))
  {
    BuiltText(lines, parsed, |lines|);
    BuiltOk(lines, parsed, |lines|);
    SpansUnique(lines, parsed, v.spans, BuiltSpans(lines, parsed, |lines|));
  }

  /** Each grouped line parses to the message of its group's example. */
  lemma GroupedMessage(lines: seq<string>, probe: string -> Option<Probe>, v: View, i: nat, k: int)
    requires ViewOk(lines, CandidatesOf(lines, probe), v) && i < |v.groups| && Covers(v.groups[i].ranges, k)
    ensures 1 <= k <= |lines| && probe(lines[k - 1]).Some? && probe(v.groups[i].sample).Some?
    ensures probe(lines[k - 1]).value.message == probe(v.groups[i].sample).value.message
  {
    var parsed, g := CandidatesOf(lines, probe), v.groups[i];
    assert GroupAt(lines, parsed, g);
    var head := g.ranges[0].start;
    assert Covers(g.ranges, head);
    assert Says(parsed, head, MessageAt(parsed, head)) && Says(parsed, k, MessageAt(parsed, head));
  }

  lemma RepeatsExactly(lines: seq<string>, parsed: Candidates, v: View, k: int)
    requires ViewOk(lines, parsed, v)
    ensures InGroup(v, k) <==> Repeats(parsed, k)
  {
  }

  /** Two samples with the same view differ at most in the timestamps of grouped lines: the same lines are
      grouped, with the same messages, and the text elsewhere is the same. */
  lemma SameViewSameText(lines: seq<string>, lines': seq<string>, parsed: Candidates, parsed': Candidates, v: View)
    requires ViewOk(lines, parsed, v) && ViewOk(lines', parsed', v)
    ensures |lines| == |lines'|
            && Concat(Ungrouped(lines, parsed, |lines|)) == Concat(Ungrouped(lines', parsed', |lines'|))
    ensures forall k :: Repeats(parsed, k) <==> Repeats(parsed', k)
  {
    SpansAreTheRest(lines, parsed, v);
    SpansAreTheRest(lines', parsed', v);
    forall k ensures Repeats(parsed, k) <==> Repeats(parsed', k) {
      RepeatsExactly(lines, parsed, v, k);
      RepeatsExactly(lines', parsed', v, k);
    }
  }

  lemma SameViewSameMessage(lines: seq<string>, lines': seq<string>, probe: string -> Option<Probe>, v: View, k: int)
    requires ViewOk(lines, CandidatesOf(lines, probe), v) && ViewOk(lines', CandidatesOf(lines', probe), v)
    requires Repeats(CandidatesOf(lines, probe), k)
    ensures 1 <= k <= |lines| == |lines'| && probe(lines[k - 1]).Some? && probe(lines'[k - 1]).Some?
    ensures probe(lines[k - 1]).value.message == probe(lines'[k - 1]).value.message
  {
    RepeatsExactly(lines, CandidatesOf(lines, probe), v, k);
    var i :| 0 <= i < |v.groups| && Covers(v.groups[i].ranges, k);
    GroupedMessage(lines, probe, v, i, k);
    GroupedMessage(lines', probe, v, i, k);
  }
}
