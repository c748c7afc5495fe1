/** Any number of invocations of one window, with crashes and takeovers, as a transition system.

    An invocation works on its own copy of the window and writes it back only while its token is the one in
    the stored row. It may vanish at any point, and a newer invocation may open the row at any point.
 */
module ObservationRuns {
  import opened Wrappers
  import opened Observation

  datatype Row = Row(token: nat, payload: Window)

  datatype Pc =
    | Opened           // copy marked as a new segment, not yet saved
    | Looping          // saved; at the loop head
    | Appended         // sample appended, not yet saved
    | Permitted        // saved; about to read the cluster
    | Awaiting         // reading
    | Judged           // result absorbed, not yet saved
    | Closing          // loop left

  /** `monoDeadline` is set once the first save has committed. */
  datatype Invocation = Invocation(pc: Pc, copy: Window, monoDeadline: real)

  datatype State = State(row: Option<Row>, active: map<nat, Invocation>, tokens: set<nat>, wall: real, mono: real,
                         readLog: seq<nat>)

  ghost predicate Init(s: State) {
    s.row == None && s.active == map[] && s.tokens == {} && s.readLog == []
  }

  /** The clock readings of one pass over the loop head, in program order. */
  datatype Head = Head(first: Reading, clock: real, now: real, second: Reading, sleptWall: real, sleptMono: real,
                       third: Reading, started: real)

  datatype Step =
    | Tick(wall: real, mono: real)
    | Open(id: nat, policy: Policy)
    | SaveOpened(id: nat)
    | PassHead(id: nat, head: Head)
    | SaveAppended(id: nat)
    | ReadCluster(id: nat)
    | AbsorbSample(id: nat, observed: Observed, finished: real, first: Reading, second: Reading)
    | SaveJudged(id: nat)
    | SaveClosed(id: nat)
    | Vanish(id: nat)

  predicate ReadingAfter(wall: real, mono: real, r: Reading) {
    wall <= r.wall && r.wall <= r.again && mono <= r.mono
  }

  /** Clocks never run backwards, and a sleep takes at least as long as asked. */
  predicate HeadOrdered(s: State, h: Head, asked: real) {
    && ReadingAfter(s.wall, s.mono, h.first)
    && h.first.again <= h.clock && h.clock <= h.now
    && ReadingAfter(h.now, h.first.mono, h.second)
    && h.sleptWall >= h.second.again + asked && h.sleptMono >= h.second.mono + asked
    && ReadingAfter(h.sleptWall, h.sleptMono, h.third)
    && h.third.again <= h.started
  }

  function Drop(s: State, id: nat): (s': State) {
    s.(active := s.active - {id})
  }

  /** Write the copy back if the token still matches; otherwise the invocation ends. */
  function Save(s: State, id: nat, next: Invocation): (s': State)
    requires id in s.active
  {
    if s.row.Some? && s.row.value.token == id
    then s.(row := Some(Row(id, s.active[id].copy)), active := s.active[id := next])
    else Drop(s, id)
  }

  function OpenStep(s: State, id: nat, policy: Policy): (s': State) {
    if id in s.tokens then s
    else
      var payload := if s.row.Some? then s.row.value.payload else Initial(policy, s.wall);
      var seen := s.(row := Some(Row(id, payload)), tokens := s.tokens + {id});
      if payload.status != Running || payload.policy.version != POLICY_VERSION then seen
      else seen.(active := seen.active[id := Invocation(Opened, Begin(payload), 0.0)])
  }

  function SaveOpenedStep(s: State, id: nat): (s': State)
    requires id in s.active
  {
    var v := s.active[id];
    if v.pc != Opened then s
    else Save(s, id, Invocation(Looping, v.copy, s.mono + Max(0.0, v.copy.deadline - s.wall)))
  }

  /** How long the loop sleeps before the next sample. */
  function Asked(v: Invocation, h: Head): (d: real) {
    if v.copy.samples == [] then 0.0
    else Min(Delay(v.copy, h.clock, h.now), Max(0.0, Remaining(v.copy, v.monoDeadline, h.second)))
  }

  function PassHeadStep(s: State, id: nat, h: Head): (s': State)
    requires id in s.active
  {
    var v := s.active[id];
    if v.pc != Looping || !HeadOrdered(s, h, Asked(v, h)) then s
    else
      var timed := s.(wall := h.started, mono := h.third.mono);
      if Remaining(v.copy, v.monoDeadline, h.first) <= 0.0 || |v.copy.samples| >= v.copy.policy.maxSamples
         || Remaining(v.copy, v.monoDeadline, h.third) <= 0.0
      then timed.(active := timed.active[id := v.(pc := Closing, copy := Close(v.copy))])
      else timed.(active := timed.active[id := v.(pc := Appended, copy := Append(v.copy, id, h.started))])
  }

  function SaveAppendedStep(s: State, id: nat): (s': State)
    requires id in s.active
  {
    if s.active[id].pc != Appended then s else Save(s, id, s.active[id].(pc := Permitted))
  }

  /** The only step that reads the cluster; it is logged with the sequence number of its sample. */
  function ReadStep(s: State, id: nat): (s': State)
    requires id in s.active
  {
    var v := s.active[id];
    if v.pc != Permitted then s
    else s.(readLog := s.readLog + [|v.copy.samples|], active := s.active[id := v.(pc := Awaiting)])
  }

  function AbsorbStep(s: State, id: nat, o: Observed, finished: real, first: Reading, second: Reading): (s': State)
    requires id in s.active
  {
    var v := s.active[id];
    if v.pc != Awaiting || v.copy.samples == []
       || !(s.wall <= finished) || !ReadingAfter(finished, s.mono, first)
          || !ReadingAfter(first.again, first.mono, second)
    then s
    else
      s.(wall := second.again, mono := second.mono,
         active := s.active[id := v.(pc := Judged, copy := Absorb(v.copy, v.monoDeadline, o, finished, first, second))])
  }

  function SaveJudgedStep(s: State, id: nat): (s': State)
    requires id in s.active
  {
    var v := s.active[id];
    if v.pc != Judged then s else Save(s, id, v.(pc := if v.copy.status == Running then Looping else Closing))
  }

  function SaveClosedStep(s: State, id: nat): (s': State)
    requires id in s.active
  {
    if s.active[id].pc != Closing then s else Drop(Save(s, id, s.active[id]), id)
  }

  function InvocationStep(s: State, step: Step): (s': State)
    requires !step.Tick? && !step.Open? && step.id in s.active
  {
    match step
    case SaveOpened(id) => SaveOpenedStep(s, id)
    case PassHead(id, head) => PassHeadStep(s, id, head)
    case SaveAppended(id) => SaveAppendedStep(s, id)
    case ReadCluster(id) => ReadStep(s, id)
    case AbsorbSample(id, o, finished, first, second) => AbsorbStep(s, id, o, finished, first, second)
    case SaveJudged(id) => SaveJudgedStep(s, id)
    case SaveClosed(id) => SaveClosedStep(s, id)
    case Vanish(id) => Drop(s, id)
  }

  function Apply(s: State, step: Step): (s': State) {
    if step.Tick? then
      if s.wall <= step.wall && s.mono <= step.mono then s.(wall := step.wall, mono := step.mono) else s
    else if step.Open? then OpenStep(s, step.id, step.policy)
    else if step.id in s.active then InvocationStep(s, step)
    else s
  }

  function After(s: State, steps: seq<Step>): (s': State)
    decreases |steps|
  {
    if steps == [] then s else Apply(After(s, steps[..|steps| - 1]), steps[|steps| - 1])
  }

  // ----- invariant ---------------------------------------------------------------------------

  /** `w` is a later version of the same window. */
  predicate Descends(p: Window, w: Window) {
    && w.policy == p.policy && w.deadline == p.deadline && w.resourceDeadline == p.resourceDeadline
    && (p.businessDeadline.Some? ==> w.businessDeadline == p.businessDeadline)
    && (p.target.Some? ==> w.target == p.target)
    && |p.samples| <= |w.samples|
    && (p.status != Running ==> w.status == p.status)
  }

  predicate HasInFlight(pc: Pc) {
    pc == Appended || pc == Permitted || pc == Awaiting
  }

  predicate CopySettled(v: Invocation) {
    Settled(v.copy) == |v.copy.samples|
  }

  ghost predicate CopyOk(id: nat, v: Invocation) {
    && Sound(v.copy) && Streak(v.copy, id)
    && (HasInFlight(v.pc) ==>
          v.copy.samples != [] && v.copy.samples[|v.copy.samples| - 1].state == InFlight
          && v.copy.samples[|v.copy.samples| - 1].segment == id)
    && (!HasInFlight(v.pc) ==> CopySettled(v))
    && (v.pc != Judged && v.pc != Closing ==> v.copy.status == Running)
    && (v.pc == Closing ==> v.copy.status != Running)
  }

  /** The owner of the row is working on a version of what is stored. */
  predicate OwnerOk(p: Window, v: Invocation) {
    && Descends(p, v.copy)
    && (v.pc == Appended ==> |p.samples| == |v.copy.samples| - 1)
    && (v.pc != Appended ==> |p.samples| == |v.copy.samples|)
    && (v.pc == Looping || v.pc == Permitted || v.pc == Awaiting ==> p == v.copy)
  }

  ghost predicate InvocationOk(s: State, id: nat)
    requires id in s.active
  {
    var v := s.active[id];
    && id in s.tokens && s.row.Some?
    && CopyOk(id, v)
    && (s.row.value.token == id ==> OwnerOk(s.row.value.payload, v))
    && (v.pc == Permitted ==> |v.copy.samples| <= |s.row.value.payload.samples| && |v.copy.samples| !in s.readLog)
  }

  predicate SamePermit(s: State, a: nat, b: nat) {
    && a in s.active && b in s.active && a != b
    && s.active[a].pc == Permitted && s.active[b].pc == Permitted
       && |s.active[a].copy.samples| == |s.active[b].copy.samples|
  }

  predicate ReadTwice(s: State, i: nat, j: nat) {
    i < j < |s.readLog| && s.readLog[i] == s.readLog[j]
  }

  ghost predicate Inv(s: State) {
    && (s.row.None? ==> s.active == map[] && s.readLog == [] && s.tokens == {})
    && (s.row.Some? ==> s.row.value.token in s.tokens && WindowOk(s.row.value.payload))
    && (forall id :: id in s.active ==> InvocationOk(s, id))
    && (forall a, b :: !SamePermit(s, a, b))
    && (forall i, j :: !ReadTwice(s, i, j))
    && (forall i :: 0 <= i < |s.readLog| ==> s.row.Some? && 1 <= s.readLog[i] <= |s.row.value.payload.samples|)
  }

  /** What no step changes in the stored row. */
  ghost predicate RowPersists(a: State, b: State) {
    && a.tokens <= b.tokens
    && a.readLog <= b.readLog
    && (a.row.Some? ==> b.row.Some? && Descends(a.row.value.payload, b.row.value.payload))
    && (a.row.Some? && b.row.value.token != a.row.value.token ==> b.row.value.token !in a.tokens)
  }

  /** A step that changes at most invocation `id` and not the row. */
  lemma LocalKeeps(s: State, s': State, id: nat)
    requires Inv(s) && s'.row == s.row && s'.tokens == s.tokens && s'.readLog == s.readLog
    requires s'.active.Keys <= s.active.Keys
    requires forall u :: u in s'.active && u != id ==> s'.active[u] == s.active[u]
    requires id in s'.active ==> InvocationOk(s', id) && s'.active[id].pc != Permitted
    ensures Inv(s') && RowPersists(s, s')
  {
    forall u | u in s'.active ensures InvocationOk(s', u) {
      if u != id {
        assert InvocationOk(s, u);
      }
    }
    forall a, b ensures !SamePermit(s', a, b) { assert !SamePermit(s, a, b); }
    forall i, j ensures !ReadTwice(s', i, j) { assert !ReadTwice(s, i, j); }
  }

  /** A successful save of the owner. */
  lemma SavePermits(s: State, id: nat, next: Invocation)
    requires Inv(s) && id in s.active && s.row.Some? && s.row.value.token == id
    requires next.copy == s.active[id].copy && (next.pc == Permitted ==> s.active[id].pc == Appended)
    ensures forall a, b :: !SamePermit(Save(s, id, next), a, b)
  {
    var s' := Save(s, id, next);
    forall a, b ensures !SamePermit(s', a, b) {
      assert !SamePermit(s, a, b);
      assert a in s.active ==> InvocationOk(s, a);
      assert b in s.active ==> InvocationOk(s, b);
    }
  }

  lemma SaveKeeps(s: State, id: nat, next: Invocation)
    requires Inv(s) && id in s.active
    requires next.copy == s.active[id].copy && CopyOk(id, next)
    requires next.pc == Permitted ==> s.active[id].pc == Appended
    requires next.pc != Appended
    ensures Inv(Save(s, id, next)) && RowPersists(s, Save(s, id, next))
  {
    var s' := Save(s, id, next);
    assert InvocationOk(s, id);
    if s.row.value.token == id {
      assert Streak(next.copy, id);
      forall u | u in s'.active ensures InvocationOk(s', u) {
        assert InvocationOk(s, u);
      }
      SavePermits(s, id, next);
      forall i, j ensures !ReadTwice(s', i, j) { assert !ReadTwice(s, i, j); }
    } else {
      LocalKeeps(s, s', id);
    }
  }

  lemma OpenedOk(s: State, id: nat, policy: Policy)
    requires id !in s.tokens && (s.row.Some? ==> WindowOk(s.row.value.payload))
    ensures var s' := OpenStep(s, id, policy);
            && s'.row.Some? && WindowOk(s'.row.value.payload)
            && (id in s'.active && id !in s.active ==> InvocationOk(s', id) && s'.active[id].pc == Opened)
  {
    InitialOk(policy, s.wall);
    var payload := OpenStep(s, id, policy).row.value.payload;
    if payload.status == Running {
      BeginOk(payload, id);
    }
  }

  lemma FreshOpenPersists(s: State, id: nat, policy: Policy)
    requires Inv(s) && id !in s.tokens
    ensures RowPersists(s, OpenStep(s, id, policy))
  {
  }

  lemma OpenInvocations(s: State, id: nat, policy: Policy)
    requires Inv(s) && id !in s.tokens
    ensures var s' := OpenStep(s, id, policy); forall u :: u in s'.active ==> InvocationOk(s', u)
  {
    var s' := OpenStep(s, id, policy);
    assert id in s.active ==> InvocationOk(s, id);
    OpenedOk(s, id, policy);
    forall u | u in s'.active && u != id ensures InvocationOk(s', u) { assert InvocationOk(s, u); }
  }

  lemma OpenPairs(s: State, id: nat, policy: Policy)
    requires Inv(s) && id !in s.tokens
    ensures var s' := OpenStep(s, id, policy);
            (forall a, b :: !SamePermit(s', a, b)) && (forall i, j :: !ReadTwice(s', i, j))
  {
    var s' := OpenStep(s, id, policy);
    forall a, b ensures !SamePermit(s', a, b) { assert !SamePermit(s, a, b); }
    forall i, j ensures !ReadTwice(s', i, j) { assert !ReadTwice(s, i, j); }
  }

  lemma FreshOpenKeeps(s: State, id: nat, policy: Policy)
    requires Inv(s) && id !in s.tokens
    ensures Inv(OpenStep(s, id, policy))
  {
    OpenedOk(s, id, policy);
    OpenInvocations(s, id, policy);
    OpenPairs(s, id, policy);
  }

  lemma OpenKeeps(s: State, id: nat, policy: Policy)
    requires Inv(s)
    ensures Inv(OpenStep(s, id, policy)) && RowPersists(s, OpenStep(s, id, policy))
  {
    if id !in s.tokens { FreshOpenKeeps(s, id, policy); FreshOpenPersists(s, id, policy); } else { Unmoved(s); }
  }

  lemma Unmoved(s: State)
    requires Inv(s)
    ensures RowPersists(s, s)
  {
  }

  /** Cutting the sleep short means that the time is up, so a new sample always keeps its distance. */
  lemma HeadKeepsDistance(s: State, v: Invocation, h: Head)
    requires v.copy.samples != [] && v.copy.samples[|v.copy.samples| - 1].state.Done?
    requires HeadOrdered(s, h, Asked(v, h)) && Remaining(v.copy, v.monoDeadline, h.third) > 0.0
    ensures h.started >= v.copy.samples[|v.copy.samples| - 1].state.finished + v.copy.policy.intervalSeconds
  {
    if Asked(v, h) < Delay(v.copy, h.clock, h.now) {
      assert false;
    }
  }

  lemma HeadPassedOk(s: State, id: nat, h: Head)
    requires id in s.active && InvocationOk(s, id) && s.active[id].pc == Looping
             && HeadOrdered(s, h, Asked(s.active[id], h))
    ensures var s' := PassHeadStep(s, id, h); id in s'.active && InvocationOk(s', id)
  {
    var v := s.active[id];
    if PassHeadStep(s, id, h).active[id].pc == Closing {
      CloseOk(v.copy, id);
    } else {
      if v.copy.samples != [] && v.copy.samples[|v.copy.samples| - 1].state.Done? {
        HeadKeepsDistance(s, v, h);
      }
      AppendOk(v.copy, id, h.started);
    }
  }

  lemma PassHeadIsLocal(s: State, id: nat, h: Head)
    requires id in s.active
    ensures var s' := PassHeadStep(s, id, h);
            && s'.row == s.row && s'.tokens == s.tokens && s'.readLog == s.readLog && s'.active.Keys == s.active.Keys
            && (forall u :: u in s'.active && u != id ==> s'.active[u] == s.active[u])
            && (s' != s ==> s'.active[id].pc != Permitted)
            && (s.active[id].pc == Looping && HeadOrdered(s, h, Asked(s.active[id], h)) ==>
                  s'.active[id].pc != Permitted)
            && (!(s.active[id].pc == Looping && HeadOrdered(s, h, Asked(s.active[id], h))) ==> s' == s)
  {
  }

  lemma PassHeadKeeps(s: State, id: nat, h: Head)
    requires Inv(s) && id in s.active
    ensures Inv(PassHeadStep(s, id, h)) && RowPersists(s, PassHeadStep(s, id, h))
  {
    var v := s.active[id];
    if v.pc == Looping && HeadOrdered(s, h, Asked(v, h)) {
      HeadPassedOk(s, id, h);
      PassHeadIsLocal(s, id, h);
      LocalKeeps(s, PassHeadStep(s, id, h), id);
    } else {
      PassHeadIsLocal(s, id, h);
      Unmoved(s);
    }
  }

  /** The invocation that takes in its sample works on a sound version of what is stored. */
  lemma AbsorbedOk(s: State, id: nat, o: Observed, finished: real, first: Reading, second: Reading)
    requires id in s.active && InvocationOk(s, id)
    requires AbsorbStep(s, id, o, finished, first, second) != s
    ensures InvocationOk(AbsorbStep(s, id, o, finished, first, second), id)
  {
    var v := s.active[id];
    AbsorbOk(v.copy, id, v.monoDeadline, o, finished, first, second);
    hide Absorb, Sound;
  }

  lemma AbsorbMoves(s: State, id: nat, o: Observed, finished: real, first: Reading, second: Reading)
    requires id in s.active && AbsorbStep(s, id, o, finished, first, second) != s
    ensures var s' := AbsorbStep(s, id, o, finished, first, second);
            && s'.row == s.row && s'.tokens == s.tokens && s'.readLog == s.readLog
            && s'.active == s.active[id := s'.active[id]] && s'.active[id].pc == Judged
  {
    hide Absorb;
  }

  lemma AbsorbKeeps(s: State, id: nat, o: Observed, finished: real, first: Reading, second: Reading)
    requires Inv(s) && id in s.active
    ensures var s' := AbsorbStep(s, id, o, finished, first, second); Inv(s') && RowPersists(s, s')
  {
    assert InvocationOk(s, id);
    hide Inv, InvocationOk, AbsorbStep, RowPersists;
    var s' := AbsorbStep(s, id, o, finished, first, second);
    if s' != s {
      AbsorbedOk(s, id, o, finished, first, second);
      AbsorbMoves(s, id, o, finished, first, second);
      LocalKeeps(s, s', id);
    } else {
      Unmoved(s);
    }
  }

  lemma ReadKeeps(s: State, id: nat)
    requires Inv(s) && id in s.active
    ensures Inv(ReadStep(s, id)) && RowPersists(s, ReadStep(s, id))
  {
    var s' := ReadStep(s, id);
    assert InvocationOk(s, id);
    forall u | u in s'.active ensures InvocationOk(s', u) {
      assert InvocationOk(s, u);
      assert !SamePermit(s, id, u);
    }
    forall a, b ensures !SamePermit(s', a, b) { assert !SamePermit(s, a, b); }
    forall i, j ensures !ReadTwice(s', i, j) { assert !ReadTwice(s, i, j); }
  }

  lemma Relabelled(id: nat, v: Invocation, next: Invocation)
    requires CopyOk(id, v) && v.pc == Opened && next.pc == Looping && next.copy == v.copy
    ensures CopyOk(id, next)
  {
  }

  lemma SaveLooping(s: State, id: nat, monoDeadline: real)
    requires Inv(s) && id in s.active && s.active[id].pc == Opened
    ensures var s' := Save(s, id, Invocation(Looping, s.active[id].copy, monoDeadline)); Inv(s') && RowPersists(s, s')
  {
    var v := s.active[id];
    assert InvocationOk(s, id);
    var next := Invocation(Looping, v.copy, monoDeadline);
    Relabelled(id, v, next);
    SaveKeeps(s, id, next);
  }

  lemma SaveOpenedIs(s: State, id: nat, next: Invocation)
    requires id in s.active
             && next == Invocation(Looping, s.active[id].copy, s.mono + Max(0.0, s.active[id].copy.deadline - s.wall))
    ensures SaveOpenedStep(s, id) == if s.active[id].pc == Opened then Save(s, id, next) else s
  {
  }

  lemma SaveOpenedKeeps(s: State, id: nat)
    requires Inv(s) && id in s.active
    ensures Inv(SaveOpenedStep(s, id)) && RowPersists(s, SaveOpenedStep(s, id))
  {
    var monoDeadline := s.mono + Max(0.0, s.active[id].copy.deadline - s.wall);
    SaveOpenedIs(s, id, Invocation(Looping, s.active[id].copy, monoDeadline));
    if s.active[id].pc == Opened {
      SaveLooping(s, id, monoDeadline);
    } else {
      Unmoved(s);
    }
  }

  lemma SaveAppendedKeeps(s: State, id: nat)
    requires Inv(s) && id in s.active
    ensures Inv(SaveAppendedStep(s, id)) && RowPersists(s, SaveAppendedStep(s, id))
  {
    var v := s.active[id];
    assert InvocationOk(s, id);
    if v.pc == Appended {
      SaveKeeps(s, id, v.(pc := Permitted));
    } else {
      Unmoved(s);
    }
  }

  lemma SaveJudgedKeeps(s: State, id: nat)
    requires Inv(s) && id in s.active
    ensures Inv(SaveJudgedStep(s, id)) && RowPersists(s, SaveJudgedStep(s, id))
  {
    var v := s.active[id];
    assert InvocationOk(s, id);
    if v.pc == Judged {
      SaveKeeps(s, id, v.(pc := if v.copy.status == Running then Looping else Closing));
    } else {
      Unmoved(s);
    }
  }

  lemma SaveClosedKeeps(s: State, id: nat)
    requires Inv(s) && id in s.active
    ensures Inv(SaveClosedStep(s, id)) && RowPersists(s, SaveClosedStep(s, id))
  {
    var v := s.active[id];
    assert InvocationOk(s, id);
    Unmoved(s);
    if v.pc == Closing {
      SaveKeeps(s, id, v);
      var saved := Save(s, id, v);
      LocalKeeps(saved, Drop(saved, id), id);
    }
  }

  lemma InvocationStepKeeps(s: State, step: Step)
    requires Inv(s) && !step.Tick? && !step.Open? && step.id in s.active
    ensures Inv(InvocationStep(s, step)) && RowPersists(s, InvocationStep(s, step))
  {
    match step
    case SaveOpened(id) => SaveOpenedKeeps(s, id);
    case PassHead(id, head) => PassHeadKeeps(s, id, head);
    case SaveAppended(id) => SaveAppendedKeeps(s, id);
    case ReadCluster(id) => ReadKeeps(s, id);
    case AbsorbSample(id, o, finished, first, second) => AbsorbKeeps(s, id, o, finished, first, second);
    case SaveJudged(id) => SaveJudgedKeeps(s, id);
    case SaveClosed(id) => SaveClosedKeeps(s, id);
    case Vanish(id) => LocalKeeps(s, Drop(s, id), id);
  }

  lemma StepKeeps(s: State, step: Step)
    requires Inv(s)
    ensures Inv(Apply(s, step)) && RowPersists(s, Apply(s, step))
  {
    if step.Tick? { TimeKeeps(s, step.wall, step.mono); Unmoved(s); }
    else if step.Open? { OpenKeeps(s, step.id, step.policy); }
    else if step.id in s.active { InvocationStepKeeps(s, step); }
    else { Unmoved(s); }
  }

  lemma TimeKeeps(s: State, wall: real, mono: real)
    requires Inv(s)
    ensures Inv(s.(wall := wall, mono := mono)) && RowPersists(s, s.(wall := wall, mono := mono))
  {
    var s' := s.(wall := wall, mono := mono);
    forall u | u in s'.active ensures InvocationOk(s', u) { assert InvocationOk(s, u); }
    forall a, b ensures !SamePermit(s', a, b) { assert !SamePermit(s, a, b); }
    forall i, j ensures !ReadTwice(s', i, j) { assert !ReadTwice(s, i, j); }
  }

  // ----- theorems ----------------------------------------------------------------------------

  ghost predicate Reachable(s: State) {
    exists start: State, steps: seq<Step> :: Init(start) && s == After(start, steps)
  }

  lemma {:induction false} RunPersists(s: State, steps: seq<Step>)
    requires Inv(s)
    ensures Inv(After(s, steps)) && RowPersists(s, After(s, steps))
    decreases |steps|
  {
    if steps == [] {
      Unmoved(s);
    } else {
      RunPersists(s, steps[..|steps| - 1]);
      StepKeeps(After(s, steps[..|steps| - 1]), steps[|steps| - 1]);
    }
  }

  lemma ReachableOk(s: State)
    requires Reachable(s)
    ensures Inv(s)
  {
    var start: State, steps: seq<Step> :| Init(start) && s == After(start, steps);
    RunPersists(start, steps);
  }

  /** Whatever crashes, restarts and takeovers came before: a stored window that says `passed` ends with the
      required passing samples of one uninterrupted invocation. */
  lemma PassedWasObserved(s: State)
    requires Reachable(s) && s.row.Some? && s.row.value.payload.status == Passed
    ensures exists segment :: EvidenceFrom(s.row.value.payload, segment)
  {
    ReachableOk(s);
    PassedMeans(s.row.value.payload);
  }

  /** Deadlines never move, the business deadline is set at most once and not past the total one, a bound
      target stays bound, and a terminal status is final. */
  lemma DeadlinesNeverMove(s: State, steps: seq<Step>)
    requires Reachable(s) && s.row.Some?
    ensures var later := After(s, steps);
            && later.row.Some?
            && Descends(s.row.value.payload, later.row.value.payload)
            && (later.row.value.payload.businessDeadline.Some? ==>
                  later.row.value.payload.businessDeadline.value <= later.row.value.payload.deadline)
  {
    ReachableOk(s);
    RunPersists(s, steps);
  }

  /** Once another invocation owns the row, this one never writes it again. */
  lemma SupersededNeverWrites(s: State, steps: seq<Step>, id: nat)
    requires Reachable(s) && s.row.Some? && id in s.tokens && s.row.value.token != id
    ensures After(s, steps).row.Some? && After(s, steps).row.value.token != id
  {
    ReachableOk(s);
    RunPersists(s, steps);
  }

  lemma {:induction false} DistinctFits(log: seq<nat>, n: nat)
    requires forall i :: 0 <= i < |log| ==> 1 <= log[i] <= n
    requires forall i, j :: 0 <= i < j < |log| ==> log[i] != log[j]
    ensures |log| <= n
    decreases n
  {
    if log != [] {
      if exists k :: 0 <= k < |log| && log[k] == n {
        var k :| 0 <= k < |log| && log[k] == n;
        var rest := log[..k] + log[k + 1..];
        forall i | 0 <= i < |rest| ensures 1 <= rest[i] <= n - 1 {
          assert rest[i] == if i < k then log[i] else log[i + 1];
        }
        forall i, j | 0 <= i < j < |rest| ensures rest[i] != rest[j] {
          assert rest[i] == if i < k then log[i] else log[i + 1];
          assert rest[j] == if j < k then log[j] else log[j + 1];
        }
        DistinctFits(rest, n - 1);
      } else {
        assert 1 <= log[0] <= n;
        DistinctFits(log, n - 1);
      }
    }
  }

  /** Over any number of restarts the cluster is read at most `maxSamples` times. */
  lemma ReadsBounded(s: State)
    requires Reachable(s) && s.row.Some?
    ensures |s.readLog| <= s.row.value.payload.policy.maxSamples
  {
    ReachableOk(s);
    forall i, j | 0 <= i < j < |s.readLog| ensures s.readLog[i] != s.readLog[j] { assert !ReadTwice(s, i, j); }
    DistinctFits(s.readLog, |s.row.value.payload.samples|);
  }
}
