/** When a recovery window passes and when it is given up, read off its samples. */
module ObservationStreaks {
  import opened Wrappers
  import opened Observation

  /** A completed, healthy sample of an identified target. */
  predicate Counts(s: Sample) {
    s.state.Done? && s.state.passed && s.state.ready && s.state.businessPassed && s.target.Some?
  }

  /** Before position `n`, the last `k` samples all count, and all were taken at `base` or later. */
  ghost predicate Healthy(samples: seq<Sample>, base: nat, n: nat, k: nat) {
    base + k <= n <= |samples| && forall j :: n - k <= j < n ==> Counts(samples[j])
  }

  /** The counter is the length of the longest run of counting samples that ends with the last settled one, within
      the samples of the running invocation. */
  ghost predicate Tally(w: Window, base: nat) {
    && Healthy(w.samples, base, Settled(w), w.consecutive)
    && (base < Settled(w) - w.consecutive ==> !Counts(w.samples[Settled(w) - w.consecutive - 1]))
  }

  /** The last sample was judged within every limit that applied to it. */
  predicate InTime(w: Window, monoDeadline: real, o: Observed, first: Reading, second: Reading)
    requires w.samples != []
  {
    && first.wall < w.deadline && first.mono < monoDeadline
    && (if w.businessDeadline.Some? then first.again < w.businessDeadline.value
        else first.again < w.resourceDeadline)
    && (w.businessDeadline.None? && o.ready ==>
          && second.wall < w.deadline && second.mono < monoDeadline && second.again < w.deadline
          && second.again < w.samples[|w.samples| - 1].started + w.policy.businessSeconds)
  }

  lemma LateIs(w: Window, monoDeadline: real, o: Observed, finished: real, first: Reading, second: Reading)
    requires w.samples != []
    ensures var settled := Settle(w, o, finished); var started := StartBusiness(settled, o);
            InTime(w, monoDeadline, o, first, second) <==>
              !(Remaining(settled, monoDeadline, first) <= 0.0
                || (started != settled && Remaining(started, monoDeadline, second) <= 0.0))
  {
  }

  lemma TallyGrows(w: Window, base: nat, a: Window)
    requires w.samples != [] && w.samples[|w.samples| - 1].state == InFlight && Tally(w, base)
    requires |a.samples| == |w.samples| && a.samples[|w.samples| - 1].state.Done?
    requires forall j :: 0 <= j < |w.samples| - 1 ==> a.samples[j] == w.samples[j]
    requires a.consecutive == if Counts(a.samples[|w.samples| - 1]) then w.consecutive + 1 else 0
    ensures Tally(a, base)
  {
  }

  lemma TallyDecides(w: Window, base: nat, k: nat)
    requires Tally(w, base)
    ensures Healthy(w.samples, base, Settled(w), k) <==> k <= w.consecutive
  {
  }

  /** What a sample does to the window, exactly: it invalidates it when the target moved, gives it up when the time
      was over, and otherwise passes it when it and the samples of the invocation just before it make up the
      required number of counting ones. */
  lemma AbsorbExactly(w: Window, base: nat, monoDeadline: real, o: Observed, finished: real, first: Reading,
                      second: Reading)
    requires w.status == Running && w.samples != [] && w.samples[|w.samples| - 1].state == InFlight && Tally(w, base)
    ensures var a, n := Absorb(w, monoDeadline, o, finished, first, second), |w.samples|;
            && |a.samples| == n && a.samples[..n - 1] == w.samples[..n - 1]
            && a.samples[n - 1] == w.samples[n - 1].(state := Done(finished, o.passed, o.ready, o.businessPassed),
                                                     target := o.target)
            && a.businessDeadline ==
                 (if w.businessDeadline.None? && o.ready
                  then Some(Min(w.deadline, w.samples[n - 1].started + w.policy.businessSeconds))
                  else w.businessDeadline)
            && var moved := o.invalidated || (o.target.Some? && w.target.Some? && o.target != w.target);
            && var inTime, healthy := InTime(w, monoDeadline, o, first, second),
                                      Healthy(a.samples, base, n, w.policy.requiredConsecutive);
            && (a.status == Invalidated <==> moved)
            && (a.status == Unknown <==> !moved && !inTime)
            && (a.status == Passed <==> !moved && inTime && healthy)
            && (a.status == Running <==> !moved && inTime && !healthy)
            && (!moved && inTime ==> Tally(a, base) && a.target == (if o.target.Some? then o.target else w.target))
            && (moved || !inTime ==> a.consecutive == 0 && a.target == w.target)
  {
    var a := Absorb(w, monoDeadline, o, finished, first, second);
    LateIs(w, monoDeadline, o, finished, first, second);
    AbsorbIs(w, monoDeadline, o, finished, first, second);
    hide Absorb, InTime, Healthy, Tally, Remaining;
    if !TargetMoved(w, o) && InTime(w, monoDeadline, o, first, second) {
      TallyGrows(w, base, a);
      TallyDecides(a, base, w.policy.requiredConsecutive);
    }
  }

  lemma AbsorbIs(w: Window, monoDeadline: real, o: Observed, finished: real, first: Reading, second: Reading)
    requires w.samples != []
    ensures var started := StartBusiness(Settle(w, o, finished), o);
            Absorb(w, monoDeadline, o, finished, first, second)
            == Judge(started, o, !InTime(w, monoDeadline, o, first, second))
  {
    LateIs(w, monoDeadline, o, finished, first, second);
  }

  lemma AppendTally(w: Window, base: nat, segment: nat, started: real)
    requires Tally(w, base) && Settled(w) == |w.samples|
    ensures Tally(Append(w, segment, started), base)
  {
  }

  lemma BeginTally(w: Window)
    requires OnlyLastInFlight(w)
    ensures Tally(Begin(w), |w.samples|) && Settled(Begin(w)) == |w.samples|
  {
  }

  // ----- giving up ---------------------------------------------------------------------------

  /** One of the limits of the window is over. The resource deadline binds until a sample is ready. */
  predicate Expired(w: Window, wall: real, mono: real, monoDeadline: real) {
    || wall >= w.deadline || mono >= monoDeadline
    || (w.businessDeadline.Some? && wall >= w.businessDeadline.value)
    || (wall >= w.resourceDeadline && forall k :: 0 <= k < |w.samples| - 1 ==> !ReadySample(w.samples[k]))
  }

  /** No sample of the invocation but possibly the last one completed the required number. */
  ghost predicate NeverHealthy(w: Window, base: nat, last: nat) {
    forall n :: base < n < last ==> !Healthy(w.samples, base, n, w.policy.requiredConsecutive)
  }

  /** A window that is still running, after judging its last sample. */
  ghost predicate StillOpen(w: Window, base: nat) {
    w.status == Running && Tally(w, base) && NeverHealthy(w, base, |w.samples| + 1)
  }

  /** A window that an invocation ended without a pass: nothing before the last sample would have passed it, the last
      one would only have done so too late or on a target that had moved, and without an invalidation the
      invocation used up its samples or its time. */
  ghost predicate GivenUp(w: Window, base: nat, wall: real, mono: real, monoDeadline: real) {
    && (w.status == Unknown || w.status == Invalidated)
    && NeverHealthy(w, base, |w.samples|)
    && (w.status == Unknown ==> |w.samples| >= w.policy.maxSamples || Expired(w, wall, mono, monoDeadline))
    && (w.status == Unknown && base < |w.samples|
        && Healthy(w.samples, base, |w.samples|, w.policy.requiredConsecutive) ==>
          Expired(w, wall, mono, monoDeadline))
  }

  /** The samples of the invocation end with the required number of counting ones, for the first time. */
  ghost predicate Completed(w: Window, base: nat) {
    && base < |w.samples| && NeverHealthy(w, base, |w.samples|)
    && Healthy(w.samples, base, |w.samples|, w.policy.requiredConsecutive)
  }

  /** How the loop stands between two samples. */
  ghost predicate Stands(w: Window, base: nat, wall: real, mono: real, monoDeadline: real) {
    if w.status == Running then StillOpen(w, base)
    else if w.status == Passed then Completed(w, base)
    else GivenUp(w, base, wall, mono, monoDeadline)
  }

  lemma HealthyBefore(w: Window, v: Window, base: nat, n: nat, k: nat)
    requires n <= |w.samples| && n <= |v.samples| && w.samples[..n] == v.samples[..n]
    ensures Healthy(w.samples, base, n, k) == Healthy(v.samples, base, n, k)
  {
    assert forall j :: 0 <= j < n ==> w.samples[j] == w.samples[..n][j] && v.samples[j] == v.samples[..n][j];
  }

  lemma NeverHealthyStays(w: Window, v: Window, base: nat, last: nat)
    requires NeverHealthy(w, base, last) && v.policy == w.policy
    requires last <= |w.samples| + 1 && last <= |v.samples| + 1
    requires forall n :: 0 <= n < last ==> n <= |w.samples| && n <= |v.samples| && w.samples[..n] == v.samples[..n]
    ensures NeverHealthy(v, base, last)
  {
    forall n | base < n < last ensures !Healthy(v.samples, base, n, v.policy.requiredConsecutive) {
      HealthyBefore(w, v, base, n, w.policy.requiredConsecutive);
    }
  }

  lemma BeginOpen(w: Window)
    requires OnlyLastInFlight(w) && w.status == Running
    ensures StillOpen(Begin(w), |w.samples|) && Settled(Begin(w)) == |w.samples|
  {
    BeginTally(w);
  }

  lemma LateIsExpired(w: Window, monoDeadline: real, o: Observed, finished: real, first: Reading, second: Reading,
                      wall: real, mono: real)
    requires w.status == Running && ReadyOnTime(w) && w.samples != []
    requires !InTime(w, monoDeadline, o, first, second) && first.wall <= first.again <= second.wall <= second.again
    requires first.mono <= second.mono <= mono && second.again <= wall
    ensures Expired(Absorb(w, monoDeadline, o, finished, first, second), wall, mono, monoDeadline)
  {
  }

  /** One sample taken in: the window stays open, passes, or is given up for a reason. */
  lemma AbsorbEnds(w: Window, base: nat, segment: nat, start: real, monoDeadline: real, o: Observed, finished: real,
                   first: Reading, second: Reading, wall: real, mono: real)
    requires StillOpen(w, base) && ReadyOnTime(Append(w, segment, start)) && Settled(w) == |w.samples|
    requires first.wall <= first.again <= second.wall <= second.again
    requires first.mono <= second.mono <= mono && second.again <= wall
    ensures var a := Absorb(Append(w, segment, start), monoDeadline, o, finished, first, second);
            Stands(a, base, wall, mono, monoDeadline)
  {
    var v := Append(w, segment, start);
    var a := Absorb(v, monoDeadline, o, finished, first, second);
    AppendTally(w, base, segment, start);
    AbsorbExactly(v, base, monoDeadline, o, finished, first, second);
    assert a.policy == w.policy;
    assert forall n :: 0 <= n <= |w.samples| ==> a.samples[..n] == a.samples[..|w.samples|][..n]
                                                 && w.samples[..n] == v.samples[..|w.samples|][..n];
    hide Absorb, InTime, Healthy, Tally, Expired;
    NeverHealthyStays(w, a, base, |w.samples| + 1);
    if a.status == Unknown { LateIsExpired(v, monoDeadline, o, finished, first, second, wall, mono); }
  }

  lemma ClosedIsGivenUp(w: Window, base: nat, wall: real, mono: real, monoDeadline: real)
    requires StillOpen(w, base)
    requires |w.samples| >= w.policy.maxSamples || Expired(w, wall, mono, monoDeadline)
    ensures GivenUp(Close(w), base, wall, mono, monoDeadline)
  {
  }

  /** No time is left in a running window. */
  lemma NothingRemains(w: Window, monoDeadline: real, r: Reading, wall: real, mono: real)
    requires w.status == Running && ReadyOnTime(w) && Remaining(w, monoDeadline, r) <= 0.0
    requires r.wall <= r.again <= wall && r.mono <= mono
    ensures Expired(w, wall, mono, monoDeadline)
  {
  }

  lemma GivenUpLater(w: Window, base: nat, wall: real, mono: real, monoDeadline: real, earlier: real)
    requires GivenUp(w, base, wall, mono, monoDeadline) && earlier <= monoDeadline
    ensures GivenUp(w, base, wall, mono, earlier)
  {
  }

  lemma StandsOpen(w: Window, base: nat, wall: real, mono: real, monoDeadline: real)
    requires StillOpen(w, base)
    ensures Stands(w, base, wall, mono, monoDeadline)
  {
  }

  lemma OpenStands(w: Window, base: nat, wall: real, mono: real, monoDeadline: real)
    requires w.status == Running && Stands(w, base, wall, mono, monoDeadline)
    ensures StillOpen(w, base) && forall later, more :: Stands(w, base, later, more, monoDeadline)
  {
  }

  lemma StandsEnded(w: Window, base: nat, wall: real, mono: real, monoDeadline: real)
    requires Stands(w, base, wall, mono, monoDeadline)
    requires w.status == Running ==> |w.samples| >= w.policy.maxSamples || Expired(w, wall, mono, monoDeadline)
    ensures if Close(w).status == Passed then Completed(Close(w), base)
            else GivenUp(Close(w), base, wall, mono, monoDeadline)
  {
    if w.status == Running { ClosedIsGivenUp(w, base, wall, mono, monoDeadline); }
  }

  /** The wait before a sample ends exactly one interval after the last finished one, or at once when that is over. */
  lemma WaitsExactly(w: Window, clock: real, now: real)
    requires w.samples != []
    ensures var last := w.samples[|w.samples| - 1];
            var since := if last.state.Done? then last.state.finished else clock;
            now + Delay(w, clock, now) == (if now >= since + w.policy.intervalSeconds then now
                                           else since + w.policy.intervalSeconds)
  {
  }
}
