/** The sampling loop itself, on a stored row, two clocks and a cluster that answers anything. */
module ObservationLoop {
  import opened Wrappers
  import opened Observation
  import opened ObservationRuns
  import opened ObservationStreaks

  /** Both clocks may advance whenever they are looked at, and never go back. */
  class Environment {
    var wall: real
    var mono: real

    constructor (wall: real, mono: real)
      ensures this.wall == wall && this.mono == mono
    {
      this.wall, this.mono := wall, mono;
    }

    method Advance(seconds: real)
      modifies this
      ensures wall >= old(wall) && mono >= old(mono)
      ensures wall >= old(wall) + seconds && mono >= old(mono) + seconds
    {
      var w: real, m: real := *, *;
      wall, mono := wall + Max(w, Max(0.0, seconds)), mono + Max(m, Max(0.0, seconds));
    }

    method Clock() returns (t: real)
      modifies this
      ensures t == wall >= old(wall) && mono >= old(mono)
    {
      Advance(0.0);
      t := wall;
    }

    method Monotonic() returns (t: real)
      modifies this
      ensures t == mono >= old(mono) && wall >= old(wall)
    {
      Advance(0.0);
      t := mono;
    }

    /** observation.py:54-57 */
    method Look() returns (r: Reading)
      modifies this
      ensures ReadingAfter(old(wall), old(mono), r) && r.again <= wall && r.mono == mono
    {
      var first := Clock();
      var second := Clock();
      var third := Monotonic();
      r := Reading(first, second, third);
    }

    method Sample() returns (o: Observed)
      modifies this
      ensures wall >= old(wall) && mono >= old(mono)
    {
      Advance(0.0);
      o := *;
    }
  }

  /** The stored row and the target of the delayed recheck scheduled for it. Another process may take the row
      over before any save, and write what a later invocation of the same window may write. */
  class WindowStore {
    var row: Option<Row>
    var scheduled: Option<Target>

    ghost predicate Valid()
      reads this
    {
      && (row.Some? ==> WindowOk(row.value.payload))
      && (scheduled.Some? ==> row.Some? && row.value.payload.status == Passed && row.value.payload.target == scheduled)
    }

    constructor ()
      ensures row == None && scheduled == None && Valid()
    {
      row, scheduled := None, None;
    }

    /** observations.py:24-32 */
    method OpenRow(token: nat, initial: Window) returns (w: Window)
      requires Valid() && WindowOk(initial)
      modifies this
      ensures Valid() && row == Some(Row(token, w)) && scheduled == old(scheduled)
      ensures w == if old(row).Some? then old(row).value.payload else initial
    {
      if row.None? {
        row := Some(Row(token, initial));
      }
      row := Some(Row(token, row.value.payload));
      w := row.value.payload;
    }

    /** What other processes may have done since the last look: nothing, or taken the row over and saved. */
    method Interfere(token: nat)
      requires Valid() && row.Some? && row.value.token == token
      modifies this
      ensures Valid() && row.Some? && Descends(old(row).value.payload, row.value.payload)
      ensures row.value.token == token ==> row == old(row) && scheduled == old(scheduled)
    {
      var takenOver: bool := *;
      if takenOver {
        var rival := row.value.payload;
        var closes: bool := *;
        if closes {
          ghost var segment :| Streak(rival, segment);
          CloseOk(rival, segment);
          rival := Close(rival);
        }
        row := Some(Row(token + 1, rival));
      }
    }

    /** observations.py:34-43: writes only under its own token; a passed window schedules its recheck. */
    method SaveRow(token: nat, w: Window) returns (saved: bool)
      requires Valid() && row.Some? && row.value.token == token && WindowOk(w) && Descends(row.value.payload, w)
      modifies this
      ensures Valid() && row.Some?
      ensures saved ==> row == Some(Row(token, w)) && (w.status == Passed && w.target.Some? ==> scheduled == w.target)
      ensures !saved ==> row.value.token != token && Descends(old(row).value.payload, row.value.payload)
    {
      Interfere(token);
      saved := row.value.token == token;
      if saved {
        row := Some(Row(token, w));
        if w.status == Passed && w.target.Some? && scheduled.None? {
          scheduled := w.target;
        }
      }
    }
  }

  datatype Outcome = Finished(window: Window) | AlreadyOver(window: Window) | UnsupportedPolicy | Superseded

  /** observation.py:59-66: wait for the next turn. `go` says that a sample may be taken at `started`. */
  method NextTurn(env: Environment, w: Window, monoDeadline: real) returns (go: bool, started: real)
    requires Settled(w) == |w.samples| && w.status == Running && ReadyOnTime(w)
    modifies env
    ensures go ==> old(env.wall) < w.deadline && old(env.wall) < PhaseDeadline(w) && old(env.mono) < monoDeadline
    ensures !go ==> |w.samples| >= w.policy.maxSamples || Expired(w, env.wall, env.mono, monoDeadline)
    ensures env.wall >= old(env.wall) && env.mono >= old(env.mono)
    ensures go ==> started <= env.wall && |w.samples| < w.policy.maxSamples
    ensures go && w.samples != [] && w.samples[|w.samples| - 1].state.Done? ==>
              started >= w.samples[|w.samples| - 1].state.finished + w.policy.intervalSeconds
  {
    started := 0.0;
    var first := env.Look();
    if Remaining(w, monoDeadline, first) <= 0.0 || |w.samples| >= w.policy.maxSamples {
      if |w.samples| < w.policy.maxSamples {
        NothingRemains(w, monoDeadline, first, env.wall, env.mono);
      }
      return false, started;
    }
    var third: Reading;
    if w.samples != [] {
      var clock := env.Clock();
      var now := env.Clock();
      var wanted := Delay(w, clock, now);
      var second := env.Look();
      var left := Max(0.0, Remaining(w, monoDeadline, second));
      env.Advance(Min(wanted, left));
      third := env.Look();
    } else {
      third := env.Look();
    }
    go := Remaining(w, monoDeadline, third) > 0.0;
    started := env.Clock();
    if !go {
      NothingRemains(w, monoDeadline, third, env.wall, env.mono);
    }
  }

  /** observation.py:67-99: one sample, saved before and after its external read. */
  method TakeTurn(store: WindowStore, env: Environment, token: nat, w: Window, monoDeadline: real, start: real,
                  ghost base: nat)
    returns (next: Option<Window>, read: bool, ghost seen: Observed)
    requires store.Valid() && store.row == Some(Row(token, w))
    requires Sound(w) && Streak(w, token) && Settled(w) == |w.samples| < w.policy.maxSamples && w.status == Running
    requires StillOpen(w, base)
    requires w.samples != [] && w.samples[|w.samples| - 1].state.Done? ==>
               start >= w.samples[|w.samples| - 1].state.finished + w.policy.intervalSeconds
    modifies store, env
    ensures env.wall >= old(env.wall) && env.mono >= old(env.mono)
    ensures store.Valid() && store.row.Some? && Descends(w, store.row.value.payload)
    ensures next.Some? ==> Took(w, next.value, token, start, seen)
    ensures next.Some? ==> Stands(next.value, base, env.wall, env.mono, monoDeadline)
    ensures next.Some? ==>
              && read && store.row == Some(Row(token, next.value)) && Descends(w, next.value)
              && Sound(next.value) && Streak(next.value, token)
                 && Settled(next.value) == |next.value.samples| == |w.samples| + 1
              && (next.value.status == Passed && next.value.target.Some? ==> store.scheduled == next.value.target)
    ensures next.None? ==> store.row.value.token != token
  {
    seen := Observed(false, false, false, None, false);
    AppendOk(w, token, start);
    AppendTally(w, base, token, start);
    var v := Append(w, token, start);
    var saved := store.SaveRow(token, v);
    if !saved {
      return None, false, seen;
    }
    var observed := env.Sample();
    var finished := env.Clock();
    var first := env.Look();
    var second := env.Look();
    seen := observed;
    AbsorbOk(v, token, monoDeadline, observed, finished, first, second);
    AbsorbExactly(v, base, monoDeadline, observed, finished, first, second);
    AbsorbEnds(w, base, token, start, monoDeadline, observed, finished, first, second, env.wall, env.mono);
    v := Absorb(v, monoDeadline, observed, finished, first, second);
    saved := store.SaveRow(token, v);
    next, read := if saved then Some(v) else None, true;
  }

  /** One more sample, as the cluster reported it; the target moving is what invalidates the window. */
  ghost predicate Took(w: Window, v: Window, token: nat, start: real, seen: Observed) {
    var n := |w.samples|;
    && |v.samples| == n + 1 && v.samples[..n] == w.samples
    && v.samples[n].state.Done?
    && v.samples[n] == Sample(n + 1, token, start,
                              Done(v.samples[n].state.finished, seen.passed, seen.ready, seen.businessPassed),
                              seen.target)
    && (v.status == Invalidated <==>
          seen.invalidated || (seen.target.Some? && w.target.Some? && seen.target != w.target))
  }

  /** observation.py:59-100: sample until the window is decided, its limits are over or another process owns it. */
  method SampleWhileRunning(store: WindowStore, env: Environment, token: nat, opening: Window, monoDeadline: real,
                            ghost base: nat)
    returns (last: Option<Window>, taken: nat)
    requires store.Valid() && store.row == Some(Row(token, opening))
    requires Sound(opening) && Streak(opening, token) && Settled(opening) == |opening.samples|
    requires StillOpen(opening, base)
    modifies store, env
    ensures env.wall >= old(env.wall) && env.mono >= old(env.mono)
    ensures store.Valid() && store.row.Some? && Descends(opening, store.row.value.payload)
    ensures last.None? ==> store.row.value.token != token
    ensures last.Some? ==>
              && store.row == Some(Row(token, last.value)) && Descends(opening, last.value)
              && Sound(last.value) && Streak(last.value, token) && Settled(last.value) == |last.value.samples|
              && taken == |last.value.samples| - |opening.samples|
              && Stands(last.value, base, env.wall, env.mono, monoDeadline)
              && (last.value.status == Running ==>
                    |last.value.samples| >= last.value.policy.maxSamples
                    || Expired(last.value, env.wall, env.mono, monoDeadline))
  {
    hide Sound, Streak, Settled, StillOpen, GivenUp, Completed, Expired, Stands;
    var w := opening;
    taken := 0;
    StandsOpen(w, base, env.wall, env.mono, monoDeadline);
    while w.status == Running
      invariant env.wall >= old(env.wall) && env.mono >= old(env.mono)
      invariant store.Valid() && store.row == Some(Row(token, w))
      invariant Sound(w) && Streak(w, token) && Settled(w) == |w.samples|
      invariant Stands(w, base, env.wall, env.mono, monoDeadline)
      invariant Descends(opening, w) && taken == |w.samples| - |opening.samples|
      decreases w.policy.maxSamples - |w.samples| + (if w.status == Running then 1 else 0)
    {
      OpenStands(w, base, env.wall, env.mono, monoDeadline);
      SoundReady(w);
      var go, start := NextTurn(env, w, monoDeadline);
      if !go {
        return Some(w), taken;
      }
      var next, read, seen := TakeTurn(store, env, token, w, monoDeadline, start, base);
      taken := taken + (if read then 1 else 0);
      if next.None? {
        return None, taken;
      }
      w := next.value;
      SoundReady(w);
    }
    last := Some(w);
  }

  lemma SoundReady(w: Window)
    requires Sound(w)
    ensures ReadyOnTime(w) && OnlyLastInFlight(w) && |w.samples| <= w.policy.maxSamples
  {
  }

  function SamplesIn(row: Option<Row>): (n: nat) {
    if row.Some? then |row.value.payload.samples| else 0
  }

  /** observation.py:53-104: the invocation after its segment was saved. `since` is the wall clock when it set its
      limit on the monotonic clock. */
  method ObserveSegment(store: WindowStore, env: Environment, token: nat, opening: Window, ghost base: nat)
      returns (outcome: Outcome, externalReads: nat, ghost since: real)
    requires store.Valid() && store.row == Some(Row(token, opening))
    requires Sound(opening) && Streak(opening, token) && Settled(opening) == |opening.samples|
    requires StillOpen(opening, base)
    modifies store, env
    ensures old(env.wall) <= since <= env.wall && old(env.mono) <= env.mono
    ensures store.Valid() && store.row.Some? && Descends(opening, store.row.value.payload)
    ensures outcome.Finished? || outcome.Superseded?
    ensures outcome.Finished? ==> outcome.window.policy == opening.policy
    ensures outcome.Superseded? ==> store.row.value.token != token
    ensures outcome.Finished? ==>
              && outcome.window.status != Running && store.row == Some(Row(token, outcome.window))
              && externalReads == |outcome.window.samples| - |opening.samples|
              && (outcome.window.status == Passed && outcome.window.target.Some? ==>
                    store.scheduled == outcome.window.target)
    ensures outcome.Finished? ==>
              if outcome.window.status == Passed
              then Completed(outcome.window, base) && exists segment :: EvidenceFrom(outcome.window, segment)
              else GivenUp(outcome.window, base, env.wall, env.mono,
                           old(env.mono) + Max(0.0, outcome.window.deadline - since))
  {
    hide Sound, EvidenceFrom, Streak, Settled, StillOpen, GivenUp, Completed, Expired, Stands;
    externalReads := 0;
    var mono := env.Monotonic();
    var wall := env.Clock();
    since := wall;
    var monoDeadline := mono + Max(0.0, opening.deadline - wall);
    var last, taken := SampleWhileRunning(store, env, token, opening, monoDeadline, base);
    externalReads := taken;
    if last.None? {
      return Superseded, externalReads, since;
    }
    var w := last.value;
    CloseOk(w, token);
    StandsEnded(w, base, env.wall, env.mono, monoDeadline);
    w := Close(w);
    var saved := store.SaveRow(token, w);
    if !saved {
      return Superseded, externalReads, since;
    }
    if w.status == Passed {
      PassedMeans(w);
    } else {
      GivenUpLater(w, base, env.wall, env.mono, monoDeadline, old(env.mono) + Max(0.0, w.deadline - since));
    }
    outcome := Finished(w);
  }

  /** One whole invocation. It terminates, it leaves a sound row behind whatever happens, a window it reports as
      passed carries the required evidence, and one that it gives up never had it in time. `since` is
      the wall clock when it set its limit on the monotonic clock. */
  method Run(store: WindowStore, env: Environment, token: nat, policy: Policy)
      returns (outcome: Outcome, externalReads: nat, ghost since: real)
    requires store.Valid()
    modifies store, env
    ensures old(env.wall) <= since <= env.wall && old(env.mono) <= env.mono
    ensures outcome.Finished? ==> outcome.window.policy.version == POLICY_VERSION
    ensures outcome.Finished? ==>
              if outcome.window.status == Passed then Completed(outcome.window, SamplesIn(old(store.row)))
              else GivenUp(outcome.window, SamplesIn(old(store.row)), env.wall, env.mono,
                           old(env.mono) + Max(0.0, outcome.window.deadline - since))
    ensures store.Valid() && store.row.Some?
    ensures outcome.Finished? ==>
              && outcome.window.status != Running && store.row == Some(Row(token, outcome.window))
              && (outcome.window.status == Passed ==> exists segment :: EvidenceFrom(outcome.window, segment))
              && (outcome.window.status == Passed && outcome.window.target.Some? ==>
                    store.scheduled == outcome.window.target)
              && externalReads == |outcome.window.samples| - SamplesIn(old(store.row))
    ensures outcome.AlreadyOver? ==>
              && old(store.row).Some? && outcome.window == old(store.row).value.payload && externalReads == 0
              && outcome.window.status != Running && store.row == Some(Row(token, outcome.window))
    ensures outcome.UnsupportedPolicy? ==>
              && store.row.value.token == token && store.row.value.payload.status == Running && externalReads == 0
              && store.row.value.payload.policy.version != POLICY_VERSION
    ensures outcome.Superseded? ==> store.row.value.token != token
    ensures old(store.row).Some? ==> Descends(old(store.row).value.payload, store.row.value.payload)
  {
    hide Sound, EvidenceFrom, Streak, Settled, StillOpen, GivenUp, Completed, Expired, Stands;
    externalReads := 0;
    var started := env.Clock();
    since := env.wall;
    InitialOk(policy, started);
    var w := store.OpenRow(token, Initial(policy, started));
    ghost var opening := w;
    if w.status != Running {
      return AlreadyOver(w), 0, since;
    }
    if w.policy.version != POLICY_VERSION {
      return UnsupportedPolicy, 0, since;
    }
    BeginOk(w, token);
    ghost var base := |w.samples|;
    SoundReady(w);
    BeginOpen(w);
    w := Begin(w);
    var saved := store.SaveRow(token, w);
    if !saved {
      return Superseded, externalReads, since;
    }
    ghost var mono := env.mono;
    outcome, externalReads, since := ObserveSegment(store, env, token, w, base);
    if outcome.Finished? && outcome.window.status != Passed {
      ghost var limit := Max(0.0, outcome.window.deadline - since);
      GivenUpLater(outcome.window, base, env.wall, env.mono, mono + limit, old(env.mono) + limit);
    }
  }
}
