/** The recovery window: a timed sampling loop whose progress is saved before every external read. */
module Observation {
  import opened Wrappers
  import Targets

  datatype Policy = Policy(version: string, resourceSeconds: real, businessSeconds: real, totalSeconds: real,
                           intervalSeconds: real, requiredConsecutive: nat, maxSamples: nat)

  const POLICY_VERSION := "recovery-window-v1"

  const POLICY := Policy(POLICY_VERSION, 60.0, 30.0, 120.0, 5.0, 3, 25)

  /** The identity of Service, Deployment and profile that samples are bound to. */
  type Target = Targets.Identity

  datatype SampleState = InFlight | Interrupted | Done(finished: real, passed: bool, ready: bool, businessPassed: bool)

  datatype Sample = Sample(sequence: nat, segment: nat, started: real, state: SampleState, target: Option<Target>)

  datatype Status = Running | Passed | Unknown | Invalidated

  datatype Window = Window(
    policy: Policy,
    deadline: real,
    resourceDeadline: real,
    businessDeadline: Option<real>,
    samples: seq<Sample>,
    consecutive: nat,
    status: Status,
    target: Option<Target>)

  /** What one external sample reports. */
  datatype Observed = Observed(passed: bool, ready: bool, businessPassed: bool, target: Option<Target>,
                               invalidated: bool)

  function Min(a: real, b: real): (m: real) {
    if a <= b then a else b
  }

  function Max(a: real, b: real): (m: real) {
    if a >= b then a else b
  }

  function Initial(policy: Policy, started: real): (w: Window) {
    Window(policy, started + policy.totalSeconds, started + policy.resourceSeconds, None, [], 0, Running, None)
  }

  /** One evaluation of `remaining()` reads the wall clock twice and the monotonic clock once. */
  datatype Reading = Reading(wall: real, again: real, mono: real)

  function PhaseDeadline(w: Window): (d: real) {
    if w.businessDeadline.Some? then w.businessDeadline.value else w.resourceDeadline
  }

  function Remaining(w: Window, monoDeadline: real, r: Reading): (left: real) {
    Min(Min(w.deadline - r.wall, PhaseDeadline(w) - r.again), monoDeadline - r.mono)
  }

  function InterruptAll(samples: seq<Sample>): (marked: seq<Sample>)
    ensures |marked| == |samples|
    ensures forall k :: 0 <= k < |samples| ==>
              marked[k] == if samples[k].state == InFlight then samples[k].(state := Interrupted) else samples[k]
  {
    seq(|samples|, k requires 0 <= k < |samples| =>
      if samples[k].state == InFlight then samples[k].(state := Interrupted) else samples[k])
  }

  /** observation.py:44-51: a new invocation is a new segment. */
  function Begin(w: Window): (b: Window) {
    w.(consecutive := 0, samples := InterruptAll(w.samples))
  }

  /** observation.py:67-70 */
  function Append(w: Window, segment: nat, started: real): (a: Window) {
    w.(samples := w.samples + [Sample(|w.samples| + 1, segment, started, InFlight, None)])
  }

  /** How long to wait before the next sample; `clock` is the reading used as the default, `now` the next one. */
  function Delay(w: Window, clock: real, now: real): (d: real)
    requires w.samples != []
  {
    var last := w.samples[|w.samples| - 1];
    Max(0.0, (if last.state.Done? then last.state.finished else clock) + w.policy.intervalSeconds - now)
  }

  function Settle(w: Window, o: Observed, finished: real): (s: Window)
    requires w.samples != []
  {
    var n := |w.samples| - 1;
    var state := Done(finished, o.passed, o.ready, o.businessPassed);
    w.(samples := w.samples[n := w.samples[n].(state := state, target := o.target)])
  }

  /** The business deadline starts with the first ready sample and includes it. */
  function StartBusiness(w: Window, o: Observed): (b: Window)
    requires w.samples != []
  {
    if o.ready && w.businessDeadline.None?
    then w.(businessDeadline := Some(Min(w.deadline, w.samples[|w.samples| - 1].started + w.policy.businessSeconds)))
    else w
  }

  predicate TargetMoved(w: Window, o: Observed) {
    o.invalidated || (o.target.Some? && w.target.Some? && o.target != w.target)
  }

  predicate CountsAsPass(o: Observed) {
    o.passed && o.ready && o.businessPassed && o.target.Some?
  }

  function Judge(w: Window, o: Observed, late: bool): (j: Window) {
    if TargetMoved(w, o) then w.(status := Invalidated, consecutive := 0)
    else if late then w.(status := Unknown, consecutive := 0)
    else
      var bound := if o.target.Some? then w.(target := o.target) else w;
      var counted := bound.(consecutive := if CountsAsPass(o) then w.consecutive + 1 else 0);
      if counted.consecutive >= w.policy.requiredConsecutive then counted.(status := Passed) else counted
  }

  /** observation.py:73-95: `first` and `second` are the two evaluations of `remaining()`. */
  function Absorb(w: Window, monoDeadline: real, o: Observed, finished: real, first: Reading,
                  second: Reading): (a: Window)
    requires w.samples != []
  {
    var settled := Settle(w, o, finished);
    var started := StartBusiness(settled, o);
    var late := Remaining(settled, monoDeadline, first) <= 0.0
        || (started != settled && Remaining(started, monoDeadline, second) <= 0.0);
    Judge(started, o, late)
  }

  /** observation.py:101-102 */
  function Close(w: Window): (c: Window) {
    if w.status == Running then w.(status := Unknown) else w
  }

  // ----- what a saved window means -----------------------------------------------------------

  /** Samples whose result is known or given up; a sample in flight is always the last one. */
  function Settled(w: Window): (n: nat) {
    if w.samples != [] && w.samples[|w.samples| - 1].state == InFlight then |w.samples| - 1 else |w.samples|
  }

  predicate PassingSample(w: Window, s: Sample, segment: nat) {
    && s.segment == segment
    && s.state.Done? && s.state.passed && s.state.ready && s.state.businessPassed
    && s.target.Some? && s.target == w.target
    && s.state.finished < w.deadline
    && w.businessDeadline.Some? && s.state.finished < w.businessDeadline.value
  }

  /** The counted samples are the last settled ones, all passing and all from `segment`. */
  ghost predicate Streak(w: Window, segment: nat) {
    && w.consecutive <= Settled(w)
    && forall k :: Settled(w) - w.consecutive <= k < Settled(w) ==> PassingSample(w, w.samples[k], segment)
  }

  /** Every sample starts at least one interval after the previous one finished. */
  ghost predicate Spaced(w: Window) {
    forall k :: 1 <= k < |w.samples| && w.samples[k - 1].state.Done? ==>
      w.samples[k].started >= w.samples[k - 1].state.finished + w.policy.intervalSeconds
  }

  ghost predicate Numbered(w: Window) {
    forall k :: 0 <= k < |w.samples| ==> w.samples[k].sequence == k + 1
  }

  ghost predicate OnlyLastInFlight(w: Window) {
    forall k :: 0 <= k < |w.samples| - 1 ==> w.samples[k].state != InFlight
  }

  /** Everything but the streak. */
  predicate ReadySample(s: Sample) {
    s.state.Done? && s.state.ready
  }

  /** Sample `k` is the first ready one; it finished before the resource deadline and started the business time. */
  ghost predicate FirstReady(w: Window, k: int) {
    && 0 <= k < |w.samples| && ReadySample(w.samples[k])
    && w.samples[k].state.finished < w.resourceDeadline && w.samples[k].state.finished < w.deadline
    && w.businessDeadline == Some(Min(w.deadline, w.samples[k].started + w.policy.businessSeconds))
    && (forall j :: 0 <= j < k ==> !ReadySample(w.samples[j]))
  }

  /** A window that is not given up met its resource deadline, as far as it is ready at all. */
  ghost predicate ReadyOnTime(w: Window) {
    w.status == Running || w.status == Passed ==>
      if w.businessDeadline.None? then forall k :: 0 <= k < |w.samples| ==> !ReadySample(w.samples[k])
      else exists k :: FirstReady(w, k)
  }

  ghost predicate Sound(w: Window) {
    && ReadyOnTime(w) && Spaced(w) && Numbered(w) && OnlyLastInFlight(w)
    && |w.samples| <= w.policy.maxSamples
    && (w.businessDeadline.Some? ==> w.businessDeadline.value <= w.deadline)
    && (w.status == Passed ==> w.consecutive >= w.policy.requiredConsecutive && Settled(w) == |w.samples|)
  }

  /** What the database may hold. */
  ghost predicate WindowOk(w: Window) {
    Sound(w) && exists segment :: Streak(w, segment)
  }

  /** The last `requiredConsecutive` samples pass, on the bound target, within the deadlines, from one
      segment, and each starts at least one interval after the one before it finished. */
  ghost predicate EvidenceFrom(w: Window, segment: nat) {
    var n, k := |w.samples|, w.policy.requiredConsecutive;
    && k <= n <= w.policy.maxSamples && (k > 0 ==> exists first :: FirstReady(w, first))
    && (forall j :: n - k <= j < n ==> PassingSample(w, w.samples[j], segment))
    && (forall j :: n - k < j < n ==>
                    w.samples[j].started >= w.samples[j - 1].state.finished + w.policy.intervalSeconds)
  }

  // ----- each piece keeps it -----------------------------------------------------------------

  lemma InitialOk(policy: Policy, started: real)
    ensures WindowOk(Initial(policy, started))
  {
    assert Streak(Initial(policy, started), 0);
  }

  /** Changes that leave the ready samples and the deadlines alone. */
  lemma ReadyKept(w: Window, v: Window)
    requires ReadyOnTime(w) && w.status == Running
    requires v.policy == w.policy && v.deadline == w.deadline && v.resourceDeadline == w.resourceDeadline
             && v.businessDeadline == w.businessDeadline
    requires |w.samples| <= |v.samples| && (forall k :: |w.samples| <= k < |v.samples| ==> !ReadySample(v.samples[k]))
    requires forall k :: 0 <= k < |w.samples| ==>
               (ReadySample(v.samples[k]) <==> ReadySample(w.samples[k]))
                   && (ReadySample(w.samples[k]) ==> v.samples[k] == w.samples[k])
    ensures ReadyOnTime(v)
  {
    if w.businessDeadline.Some? {
      var k :| FirstReady(w, k);
      assert FirstReady(v, k);
    }
  }

  lemma BeginOk(w: Window, segment: nat)
    requires Sound(w) && w.status == Running
    ensures Sound(Begin(w)) && Streak(Begin(w), segment) && Settled(Begin(w)) == |w.samples|
  {
    ReadyKept(w, Begin(w));
  }

  lemma AppendOk(w: Window, segment: nat, started: real)
    requires Sound(w) && Streak(w, segment) && w.status == Running && Settled(w) == |w.samples| < w.policy.maxSamples
    requires w.samples != [] && w.samples[|w.samples| - 1].state.Done? ==>
               started >= w.samples[|w.samples| - 1].state.finished + w.policy.intervalSeconds
    ensures Sound(Append(w, segment, started)) && Streak(Append(w, segment, started), segment)
    ensures Settled(Append(w, segment, started)) == |w.samples|
  {
    ReadyKept(w, Append(w, segment, started));
  }

  /** The first ready sample is taken in only while the resource deadline has not passed. */
  lemma AbsorbReady(w: Window, monoDeadline: real, o: Observed, finished: real, first: Reading, second: Reading)
    requires ReadyOnTime(w) && w.status == Running && w.samples != [] && w.samples[|w.samples| - 1].state == InFlight
    requires finished <= first.wall && first.wall <= first.again && first.again <= second.wall
             && second.wall <= second.again
    ensures ReadyOnTime(Absorb(w, monoDeadline, o, finished, first, second))
  {
    var a := Absorb(w, monoDeadline, o, finished, first, second);
    var n := |w.samples| - 1;
    assert forall k :: 0 <= k < n ==> a.samples[k] == w.samples[k];
    if a.status == Running || a.status == Passed {
      if w.businessDeadline.Some? {
        var k :| FirstReady(w, k);
        assert k != n && FirstReady(a, k);
      } else if o.ready {
        assert FirstReady(a, n);
      }
    }
  }

  /** Taking in a sample changes the last sample, the counters and what is set once. */
  lemma AbsorbShape(w: Window, monoDeadline: real, o: Observed, finished: real, first: Reading, second: Reading)
    requires w.status == Running && w.samples != []
    ensures var a, n := Absorb(w, monoDeadline, o, finished, first, second), |w.samples| - 1;
            && |a.samples| == |w.samples| && (forall k :: 0 <= k < n ==> a.samples[k] == w.samples[k])
            && a.samples[n].state.Done? && a.samples[n].started == w.samples[n].started
            && a.samples[n].sequence == w.samples[n].sequence
            && a.policy == w.policy && a.deadline == w.deadline && a.resourceDeadline == w.resourceDeadline
            && (w.businessDeadline.Some? ==> a.businessDeadline == w.businessDeadline)
            && (w.businessDeadline.None? && a.businessDeadline.Some? ==> a.businessDeadline.value <= w.deadline)
            && (w.target.Some? ==> a.target == w.target)
            && (a.status == Passed ==> a.consecutive >= w.policy.requiredConsecutive)
  {
  }

  lemma AbsorbSound(w: Window, monoDeadline: real, o: Observed, finished: real, first: Reading, second: Reading)
    requires Sound(w) && w.status == Running && w.samples != [] && w.samples[|w.samples| - 1].state == InFlight
    requires finished <= first.wall && first.wall <= first.again && first.again <= second.wall
             && second.wall <= second.again
    ensures var a := Absorb(w, monoDeadline, o, finished, first, second);
            && Sound(a) && Settled(a) == |a.samples| == |w.samples|
            && a.policy == w.policy && a.deadline == w.deadline && a.resourceDeadline == w.resourceDeadline
            && (w.businessDeadline.Some? ==> a.businessDeadline == w.businessDeadline)
            && (w.target.Some? ==> a.target == w.target)
  {
    hide ReadyOnTime, Absorb;
    AbsorbReady(w, monoDeadline, o, finished, first, second);
    AbsorbShape(w, monoDeadline, o, finished, first, second);
  }

  /** The heart of the window: a sample extends the streak only if it passed in time on the bound target. */
  lemma AbsorbOk(w: Window, segment: nat, monoDeadline: real, o: Observed, finished: real, first: Reading,
                 second: Reading)
    requires Sound(w) && Streak(w, segment) && w.status == Running
    requires w.samples != [] && w.samples[|w.samples| - 1].state == InFlight
             && w.samples[|w.samples| - 1].segment == segment
    requires finished <= first.wall && first.wall <= first.again && first.again <= second.wall
             && second.wall <= second.again
    ensures var a := Absorb(w, monoDeadline, o, finished, first, second);
            && Sound(a) && Streak(a, segment) && Settled(a) == |a.samples| == |w.samples|
            && a.policy == w.policy && a.deadline == w.deadline && a.resourceDeadline == w.resourceDeadline
            && (w.businessDeadline.Some? ==> a.businessDeadline == w.businessDeadline)
            && (w.target.Some? ==> a.target == w.target)
  {
    AbsorbSound(w, monoDeadline, o, finished, first, second);
    var a := Absorb(w, monoDeadline, o, finished, first, second);
    var n := |w.samples|;
    if a.consecutive > 0 {
      LastPasses(w, segment, monoDeadline, o, finished, first, second);
      forall k | n - a.consecutive <= k < n ensures PassingSample(a, a.samples[k], segment) {
        if k < n - 1 {
          assert PassingSample(w, w.samples[k], segment);
        }
      }
    }
  }

  lemma LastPasses(w: Window, segment: nat, monoDeadline: real, o: Observed, finished: real, first: Reading,
                   second: Reading)
    requires w.samples != [] && w.samples[|w.samples| - 1].state == InFlight
             && w.samples[|w.samples| - 1].segment == segment && w.status == Running
    requires finished <= first.wall && first.wall <= first.again && first.again <= second.wall
             && second.wall <= second.again
    ensures var a := Absorb(w, monoDeadline, o, finished, first, second);
            && |a.samples| == |w.samples| && (forall k :: 0 <= k < |w.samples| - 1 ==> a.samples[k] == w.samples[k])
            && (a.consecutive > 0 ==>
                  && a.consecutive == w.consecutive + 1
                  && PassingSample(a, a.samples[|w.samples| - 1], segment)
                  && (w.businessDeadline.Some? ==> a.businessDeadline == w.businessDeadline)
                  && (w.target.Some? ==> a.target == w.target))
            && a.deadline == w.deadline
  {
  }

  lemma CloseOk(w: Window, segment: nat)
    requires Sound(w) && Streak(w, segment)
    ensures Sound(Close(w)) && Streak(Close(w), segment)
  {
  }

  /** The promise of a passed window, spelled out on its samples. */
  lemma PassedMeans(w: Window)
    requires WindowOk(w) && w.status == Passed
    ensures exists segment :: EvidenceFrom(w, segment)
  {
    var segment :| Streak(w, segment);
    var n, k := |w.samples|, w.policy.requiredConsecutive;
    forall j | n - k < j < n ensures w.samples[j].started >= w.samples[j - 1].state.finished
        + w.policy.intervalSeconds {
      assert PassingSample(w, w.samples[j - 1], segment);
    }
    assert EvidenceFrom(w, segment);
  }
}
