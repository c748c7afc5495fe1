/** The verification step of a repair: it reports success only from a stored, passed observation window. */
module Verification {
  import opened Wrappers
  import opened Observation
  import opened ObservationRuns
  import opened ObservationStreaks
  import opened ObservationLoop

  const SUCCEEDED := "verification_succeeded"
  const FAILED := "verification_failed"

  /** The stored window of the run is passed, with all the evidence that takes. */
  ghost predicate Observed(store: WindowStore)
    reads store
  {
    store.row.Some? && store.row.value.payload.status == Passed && exists segment ::
          EvidenceFrom(store.row.value.payload, segment)
  }

  /** Why a repair is reported as not verified: another worker owns the window, its policy is not supported, it had
      been decided against the repair before, or this invocation gave it up. */
  ghost predicate NotVerified(before: Option<Row>, row: Row, token: nat, wall: real, mono: real, monoDeadline: real) {
    || row.token != token
    || (row.payload.status == Running && row.payload.policy.version != POLICY_VERSION)
    || (before.Some? && row.payload == before.value.payload && row.payload.status in {Unknown, Invalidated})
    || GivenUp(row.payload, SamplesIn(before), wall, mono, monoDeadline)
  }

  /** agent/stability.py:20-52 inside agent/nodes.py:1237-1290, for an action the journal recorded as succeeded.
      `store` holds the one window of the run; its errors end the step like a failed verification. `since` is the
      wall clock when the invocation set its limit on the monotonic clock. */
  method VerifyRecovery(store: WindowStore, env: Environment, token: nat, policy: Policy)
      returns (phase: string, ghost since: real)
    requires store.Valid()
    modifies store, env
    ensures store.Valid() && store.row.Some? && old(env.wall) <= since <= env.wall
    ensures phase == SUCCEEDED || phase == FAILED
    ensures phase == SUCCEEDED <==> store.row.value.token == token && store.row.value.payload.status == Passed
    ensures phase == SUCCEEDED ==>
              && Observed(store)
              && ((old(store.row).Some? && store.row.value.payload == old(store.row).value.payload)
                  || Completed(store.row.value.payload, SamplesIn(old(store.row))))
    ensures phase == FAILED ==>
              NotVerified(old(store.row), store.row.value, token, env.wall, env.mono,
                          old(env.mono) + Max(0.0, store.row.value.payload.deadline - since))
  {
    hide GivenUp, Completed, EvidenceFrom;
    var outcome, externalReads, clock := Run(store, env, token, policy);
    since := clock;
    if outcome.Finished? || outcome.AlreadyOver? {
      var passed := outcome.window.status == Passed;
      if outcome.AlreadyOver? && passed {
        PassedMeans(outcome.window);
      }
      return if passed then SUCCEEDED else FAILED, since;
    }
    phase := FAILED;
  }
}
