/** The durable budget of a run: conservative reservations, settlements and replays.

    A ticket is the position of its call in the insertion order of the stored calls.
 */
module Budget {
  import opened Wrappers

  /** Absent limits do not bind. */
  datatype Policy = Policy(modelAttempts: nat, activeSeconds: Option<real>, extraSeconds: Option<real>,
                           decisions: Option<nat>, tools: Option<nat>, totalTokens: Option<int>,
                           writeReserveSeconds: real)

  const POLICY := Policy(6, None, None, Some(5), None, None, 0.0)

  /** What a request id or a decision key is formatted from. Every request of the investigation names its
      step, so its replays find it again. */
  datatype RequestId =
    | ModelRequest(step: nat, final: bool, correction: bool)
    | ReadRequest(step: nat, index: nat)
    | Named(name: string)

  datatype Tool =
    | ResourceSummary | RegisteredBusiness | EndpointSlice | PodLogs | PodEvents | DeploymentConfig | ReplicaSet

  datatype ToolRequest = ToolRequest(tool: Tool, resource: nat, previous: bool, tailLines: Option<nat>)

  /** A request for a reading, with the semantic query it makes. */
  datatype ReadAsk = ReadAsk(request: ToolRequest, query: nat)

  /** Why a model wants to read a query again. */
  datatype Reason = ChangedByUser | BecameStale

  datatype Slot = Onset | Changes | Symptom | Impact

  datatype Action =
    | Collect(requests: seq<ReadAsk>, reason: Option<Reason>)
    | AskUser(slot: Option<Slot>)
    | Conclude(noFault: bool)
    | ProposePlan(noFault: bool)
    | StopInvestigating

  /** A saved model response: an error, an output that did not parse, or a decision. */
  datatype Reply = ProviderFailed | Unparsable(boundary: bool) | Decided(action: Action)

  /** Why a query may be read: the first time, or again on one specific ground. */
  datatype Basis = FirstRead | UserChange(messageId: nat) | Stale(requestId: Option<RequestId>) | WiderLogs

  /** The key a read is stored under. Distinct keys stand for distinct digests. */
  datatype QueryKey = Semantic(query: nat) | Repeat(query: nat, generation: nat)

  datatype Purpose =
    | ModelTurn(terminal: bool)
    | ToolRead(query: nat, generation: nat, basis: Basis, request: ToolRequest)
    | Stage
    | Overhead

  /** What a dependency answered. */
  datatype Answer = ModelAnswer(reply: Reply) | ToolAnswer(failed: bool, collectedAt: real) | NoAnswer

  datatype Settlement = Settlement(elapsed: real, charged: int, answer: Answer)

  datatype Call = Call(purpose: Purpose, seconds: real, extra: bool, tokens: int, request: Option<(RequestId, nat)>,
                       settled: Option<Settlement>)

  datatype SampleGrant = SampleGrant(query: nat, generation: nat, basis: Basis, key: QueryKey)

  /** A human answer the boundary has accepted. */
  datatype HumanAnswer = HumanAnswer(questionId: nat, messageId: nat, aboutChanges: bool, skip: bool, changed: set<nat>,
                                     acceptedAt: real)

  datatype Budget = Budget(
    policy: Policy,
    seconds: real,
    extraSeconds: real,
    tokens: int,
    decisions: seq<RequestId>,
    tools: seq<QueryKey>,
    calls: seq<Call>,
    requests: map<RequestId, nat>,
    exhausted: Option<Refusal>,
    modes: map<RequestId, bool>,
    correctionFor: Option<RequestId>,
    diagnosisCorrectionFor: Option<RequestId>,
    grants: map<RequestId, (nat, SampleGrant)>,
    receipts: map<nat, HumanAnswer>)

  /** What a model call reserves, and what readings keep free for the next one. */
  const CALL_SECONDS := 30.0
  const CALL_TOKENS := 0

  datatype Refusal =
    | DecisionLimit | ModelAttemptLimit | DuplicateTool | ToolLimit | TimeLimit | TokenLimit | WriteNotReserved

  const EMPTY := Budget(POLICY, 0.0, 0.0, 0, [], [], [], map[], None, map[], None, None, map[], map[])

  datatype Reservation = Reservation(
    purpose: Purpose,
    seconds: real,
    extra: bool,
    tokens: int,
    key: Option<QueryKey>,
    request: Option<(RequestId, nat)>,
    decision: Option<RequestId>,
    keepTokens: int,
    keepSeconds: real)

  datatype Grant = Fresh(ticket: nat) | Replayed(ticket: nat) | Refused(reason: Refusal) | BadReservation | InputChanged

  predicate ExceedsReal(value: real, limit: Option<real>) {
    limit.Some? && value > limit.value
  }

  predicate ExceedsInt(value: int, limit: Option<int>) {
    limit.Some? && value > limit.value
  }

  predicate ExceedsNat(value: int, limit: Option<nat>) {
    limit.Some? && value > limit.value
  }

  function ModelCalls(calls: seq<Call>): (n: nat) {
    if calls == [] then 0
    else ModelCalls(calls[..|calls| - 1]) + (if calls[|calls| - 1].purpose.ModelTurn? then 1 else 0)
  }

  predicate WellFormed(r: Reservation) {
    && r.seconds >= 0.0 && r.tokens >= 0 && r.keepTokens >= 0 && r.keepSeconds >= 0.0
    && (r.purpose.ToolRead? ==> r.key.Some?)
  }

  predicate NewDecision(b: Budget, r: Reservation) {
    r.decision.Some? && r.decision.value !in b.decisions
  }

  /** budget.py:67-79, in the order of the source. */
  function RefusalFor(b: Budget, r: Reservation): (why: Option<Refusal>)
    requires WellFormed(r)
  {
    if NewDecision(b, r) && ExceedsNat(|b.decisions| + 1, b.policy.decisions) then Some(DecisionLimit)
    else if r.purpose.ModelTurn? && ModelCalls(b.calls) >= b.policy.modelAttempts then Some(ModelAttemptLimit)
    else if r.purpose.ToolRead? && r.key.value in b.tools then Some(DuplicateTool)
    else if r.purpose.ToolRead? && ExceedsNat(|b.tools| + 1, b.policy.tools) then Some(ToolLimit)
    else if ExceedsReal(b.seconds + r.seconds + r.keepSeconds, b.policy.activeSeconds)
            || (r.extra && ExceedsReal(b.extraSeconds + r.seconds, b.policy.extraSeconds)) then Some(TimeLimit)
    else if ExceedsInt(b.tokens + r.tokens + r.keepTokens, b.policy.totalTokens) then Some(TokenLimit)
    else None
  }

  function Charged(b: Budget, r: Reservation): (c: Budget)
    requires WellFormed(r)
  {
    var call := Call(r.purpose, r.seconds, r.extra, r.tokens, r.request, None);
    b.(seconds := b.seconds + r.seconds,
       extraSeconds := b.extraSeconds + (if r.extra then r.seconds else 0.0),
       tokens := b.tokens + r.tokens,
       tools := if r.purpose.ToolRead? then b.tools + [r.key.value] else b.tools,
       decisions := if NewDecision(b, r) then b.decisions + [r.decision.value] else b.decisions,
       requests := if r.request.Some? then b.requests[r.request.value.0 := |b.calls|] else b.requests,
       calls := b.calls + [call])
  }

  /** budget.py:53-97 */
  function Reserve(b: Budget, r: Reservation): (result: (Budget, Grant)) {
    if !WellFormed(r) then (b, BadReservation)
    else if r.request.Some? && r.request.value.0 in b.requests then
      var ticket := b.requests[r.request.value.0];
      if ticket < |b.calls| && b.calls[ticket].request == r.request then (b, Replayed(ticket)) else (b, InputChanged)
    else
      var why := RefusalFor(b, r);
      if why.Some? then (b.(exhausted := why), Refused(why.value)) else (Charged(b, r), Fresh(|b.calls|))
  }

  function MaxReal(a: real, b: real): (m: real) {
    if a >= b then a else b
  }

  /** budget.py:99-115. `tokens` is absent when the provider reported no usage. */
  function Settle(b: Budget, ticket: nat, elapsed: real, tokens: Option<int>, answer: Answer): (s: Budget)
    requires ticket < |b.calls|
  {
    var call := b.calls[ticket];
    if call.settled.Some? then b
    else
      var spent := MaxReal(0.0, elapsed);
      var charged := if tokens.Some? then tokens.value else call.tokens;
      var seconds := b.seconds + (spent - call.seconds);
      b.(seconds := seconds,
         extraSeconds := if call.extra then b.extraSeconds + (spent - call.seconds) else b.extraSeconds,
         tokens := b.tokens + (charged - call.tokens),
         calls := b.calls[ticket := call.(settled := Some(Settlement(spent, charged, answer)))],
         exhausted := if ExceedsReal(seconds, b.policy.activeSeconds) then Some(TimeLimit) else b.exhausted)
  }

  /** budget.py:124-134 */
  function CountDecision(b: Budget, key: RequestId): (result: (Budget, bool)) {
    if key in b.decisions then (b, true)
    else if ExceedsNat(|b.decisions| + 1, b.policy.decisions) then (b.(exhausted := Some(DecisionLimit)), false)
    else (b.(decisions := b.decisions + [key]), true)
  }

  /** budget.py:136-143 */
  function BeforeWrite(b: Budget, required: Option<real>): (result: (Budget, bool)) {
    var reserve := if required.Some? && required.value != 0.0 then required.value else b.policy.writeReserveSeconds;
    if ExceedsReal(b.seconds + reserve, b.policy.activeSeconds) || ExceedsInt(b.tokens, b.policy.totalTokens)
    then (b.(exhausted := Some(WriteNotReserved)), false)
    else (b, true)
  }

  /** budget.py:166-170: control overhead is charged five seconds up front, without any check. */
  function BeginActivity(b: Budget): (a: Budget) {
    b.(seconds := b.seconds + 5.0, calls := b.calls + [Call(Overhead, 5.0, false, 0, None, None)])
  }

  // ----- conservation ------------------------------------------------------------------------

  function SecondsOf(c: Call): (s: real) {
    if c.settled.Some? then c.settled.value.elapsed else c.seconds
  }

  function TokensOf(c: Call): (t: int) {
    if c.settled.Some? then c.settled.value.charged else c.tokens
  }

  ghost function SumReal(calls: seq<Call>, f: Call -> real): (s: real) {
    if calls == [] then 0.0 else SumReal(calls[..|calls| - 1], f) + f(calls[|calls| - 1])
  }

  ghost function SumInt(calls: seq<Call>, f: Call -> int): (s: int) {
    if calls == [] then 0 else SumInt(calls[..|calls| - 1], f) + f(calls[|calls| - 1])
  }

  function ExtraOf(c: Call): (s: real) {
    if c.extra then SecondsOf(c) else 0.0
  }

  /** The totals are exactly what the calls add up to: the settled charge, else the reservation. */
  ghost predicate Conserved(b: Budget) {
    && b.seconds == SumReal(b.calls, SecondsOf)
    && b.extraSeconds == SumReal(b.calls, ExtraOf)
    && b.tokens == SumInt(b.calls, TokensOf)
  }

  lemma {:induction false} SumRealUpdate(calls: seq<Call>, f: Call -> real, k: nat, c: Call)
    requires k < |calls|
    ensures SumReal(calls[k := c], f) == SumReal(calls, f) - f(calls[k]) + f(c)
    decreases |calls|
  {
    var n := |calls| - 1;
    if k < n {
      assert calls[k := c][..n] == calls[..n][k := c];
      SumRealUpdate(calls[..n], f, k, c);
    } else {
      assert calls[k := c][..n] == calls[..n];
    }
  }

  lemma {:induction false} SumIntUpdate(calls: seq<Call>, f: Call -> int, k: nat, c: Call)
    requires k < |calls|
    ensures SumInt(calls[k := c], f) == SumInt(calls, f) - f(calls[k]) + f(c)
    decreases |calls|
  {
    var n := |calls| - 1;
    if k < n {
      assert calls[k := c][..n] == calls[..n][k := c];
      SumIntUpdate(calls[..n], f, k, c);
    } else {
      assert calls[k := c][..n] == calls[..n];
    }
  }

  lemma SumAppend(calls: seq<Call>, c: Call)
    ensures SumReal(calls + [c], SecondsOf) == SumReal(calls, SecondsOf) + SecondsOf(c)
    ensures SumReal(calls + [c], ExtraOf) == SumReal(calls, ExtraOf) + ExtraOf(c)
    ensures SumInt(calls + [c], TokensOf) == SumInt(calls, TokensOf) + TokensOf(c)
    ensures ModelCalls(calls + [c]) == ModelCalls(calls) + (if c.purpose.ModelTurn? then 1 else 0)
  {
    assert (calls + [c])[..|calls|] == calls;
  }

  lemma {:induction false} ModelCallsUpdate(calls: seq<Call>, k: nat, c: Call)
    requires k < |calls| && c.purpose == calls[k].purpose
    ensures ModelCalls(calls[k := c]) == ModelCalls(calls)
    decreases |calls|
  {
    var n := |calls| - 1;
    if k < n {
      assert calls[k := c][..n] == calls[..n][k := c];
      ModelCallsUpdate(calls[..n], k, c);
    } else {
      assert calls[k := c][..n] == calls[..n];
    }
  }

  ghost predicate Distinct<T>(s: seq<T>) {
    forall i, j :: 0 <= i < j < |s| ==> s[i] != s[j]
  }

  lemma DistinctAppend<T>(s: seq<T>, x: T)
    requires Distinct(s) && x !in s
    ensures Distinct(s + [x])
  {
  }

  /** Every request points at the one call made for it. */
  ghost predicate RequestsOk(requests: map<RequestId, nat>, calls: seq<Call>) {
    && (forall id :: id in requests ==>
          requests[id] < |calls| && calls[requests[id]].request.Some? && calls[requests[id]].request.value.0 == id)
    && (forall k :: 0 <= k < |calls| && calls[k].request.Some? ==>
          calls[k].request.value.0 in requests && requests[calls[k].request.value.0] == k)
  }

  /** Counted resources stay within their limits, and nothing is counted twice. */
  ghost predicate Consistent(b: Budget) {
    && RequestsOk(b.requests, b.calls)
    && ModelCalls(b.calls) <= b.policy.modelAttempts
    && !ExceedsNat(|b.decisions|, b.policy.decisions) && Distinct(b.decisions)
    && !ExceedsNat(|b.tools|, b.policy.tools) && Distinct(b.tools)
  }

  ghost predicate BudgetOk(b: Budget) {
    Conserved(b) && Consistent(b)
  }

  lemma EmptyOk()
    ensures BudgetOk(EMPTY)
  {
  }

  lemma RequestsAppend(requests: map<RequestId, nat>, calls: seq<Call>, c: Call)
    requires RequestsOk(requests, calls) && (c.request.Some? ==> c.request.value.0 !in requests)
    ensures RequestsOk(if c.request.Some? then requests[c.request.value.0 := |calls|] else requests, calls + [c])
  {
  }

  lemma ChargedConserves(b: Budget, r: Reservation)
    requires Conserved(b) && WellFormed(r)
    ensures Conserved(Charged(b, r))
  {
    hide SumReal, SumInt, ModelCalls, NewDecision;
    SumAppend(b.calls, Call(r.purpose, r.seconds, r.extra, r.tokens, r.request, None));
  }

  lemma ChargedCalls(b: Budget, r: Reservation)
    requires Consistent(b) && WellFormed(r) && RefusalFor(b, r).None?
    requires r.request.Some? ==> r.request.value.0 !in b.requests
    ensures var b' := Charged(b, r);
            RequestsOk(b'.requests, b'.calls) && ModelCalls(b'.calls) <= b'.policy.modelAttempts
  {
    hide Distinct;
    var call := Call(r.purpose, r.seconds, r.extra, r.tokens, r.request, None);
    SumAppend(b.calls, call);
    RequestsAppend(b.requests, b.calls, call);
  }

  lemma ChargedLists(b: Budget, r: Reservation)
    requires Consistent(b) && WellFormed(r) && RefusalFor(b, r).None?
    ensures var b' := Charged(b, r);
            && !ExceedsNat(|b'.decisions|, b'.policy.decisions) && Distinct(b'.decisions)
            && !ExceedsNat(|b'.tools|, b'.policy.tools) && Distinct(b'.tools)
  {
    hide RequestsOk, ModelCalls;
    if r.purpose.ToolRead? { DistinctAppend(b.tools, r.key.value); }
    if NewDecision(b, r) { DistinctAppend(b.decisions, r.decision.value); }
  }

  lemma ReserveKeeps(b: Budget, r: Reservation)
    requires BudgetOk(b)
    ensures BudgetOk(Reserve(b, r).0)
  {
    if Reserve(b, r).1.Fresh? {
      hide Conserved, Charged, RefusalFor, RequestsOk, Distinct;
      ChargedConserves(b, r);
      ChargedCalls(b, r);
      ChargedLists(b, r);
    }
  }

  lemma SettleKeeps(b: Budget, ticket: nat, elapsed: real, tokens: Option<int>, answer: Answer)
    requires BudgetOk(b) && ticket < |b.calls|
    ensures BudgetOk(Settle(b, ticket, elapsed, tokens, answer))
  {
    var s := Settle(b, ticket, elapsed, tokens, answer);
    if b.calls[ticket].settled.None? {
      SumRealUpdate(b.calls, SecondsOf, ticket, s.calls[ticket]);
      SumRealUpdate(b.calls, ExtraOf, ticket, s.calls[ticket]);
      SumIntUpdate(b.calls, TokensOf, ticket, s.calls[ticket]);
      ModelCallsUpdate(b.calls, ticket, s.calls[ticket]);
    }
  }

  lemma BeginActivityKeeps(b: Budget)
    requires BudgetOk(b)
    ensures BudgetOk(BeginActivity(b))
  {
    SumAppend(b.calls, Call(Overhead, 5.0, false, 0, None, None));
    RequestsAppend(b.requests, b.calls, Call(Overhead, 5.0, false, 0, None, None));
  }

  lemma DecisionKeeps(b: Budget, key: RequestId)
    requires BudgetOk(b)
    ensures BudgetOk(CountDecision(b, key).0)
  {
    if key !in b.decisions { DistinctAppend(b.decisions, key); }
  }

  /** Settling a second time, with whatever numbers, changes nothing. */
  lemma SettleTwice(b: Budget, ticket: nat, elapsed: real, tokens: Option<int>, answer: Answer, elapsed2: real,
                    tokens2: Option<int>, answer2: Answer)
    requires ticket < |b.calls|
    ensures var once := Settle(b, ticket, elapsed, tokens, answer);
            ticket < |once.calls| && Settle(once, ticket, elapsed2, tokens2, answer2) == once
  {
  }

  // ----- any history of operations -----------------------------------------------------------

  datatype Edit =
    | DoReserve(reservation: Reservation)
    | DoSettle(ticket: nat, elapsed: real, tokens: Option<int>, answer: Answer)
    | DoDecision(key: RequestId)
    | DoBeforeWrite(required: Option<real>)
    | DoActivity

  function Edited(b: Budget, e: Edit): (b': Budget) {
    match e
    case DoReserve(r) => Reserve(b, r).0
    case DoSettle(ticket, elapsed, tokens, answer) =>
        if ticket < |b.calls| then Settle(b, ticket, elapsed, tokens, answer) else b
    case DoDecision(key) => CountDecision(b, key).0
    case DoBeforeWrite(required) => BeforeWrite(b, required).0
    case DoActivity => BeginActivity(b)
  }

  function After(b: Budget, edits: seq<Edit>): (b': Budget)
    decreases |edits|
  {
    if edits == [] then b else Edited(After(b, edits[..|edits| - 1]), edits[|edits| - 1])
  }

  /** The request ids that were granted a fresh call, in order. */
  function FreshGrants(b: Budget, edits: seq<Edit>): (ids: seq<RequestId>)
    decreases |edits|
  {
    if edits == [] then []
    else
      var n := |edits| - 1;
      var before, e := After(b, edits[..n]), edits[n];
      var ids := FreshGrants(b, edits[..n]);
      if e.DoReserve? && Reserve(before, e.reservation).1.Fresh? && e.reservation.request.Some?
      then ids + [e.reservation.request.value.0] else ids
  }

  lemma EditKeeps(b: Budget, e: Edit)
    requires BudgetOk(b)
    ensures BudgetOk(Edited(b, e))
  {
    match e
    case DoReserve(r) => ReserveKeeps(b, r);
    case DoSettle(ticket, elapsed, tokens, answer) =>
        if ticket < |b.calls| { SettleKeeps(b, ticket, elapsed, tokens, answer); }
    case DoDecision(key) => DecisionKeeps(b, key);
    case DoBeforeWrite(_) =>
    case DoActivity => BeginActivityKeeps(b);
  }

  lemma EditGrows(b: Budget, e: Edit)
    ensures b.requests.Keys <= Edited(b, e).requests.Keys && Edited(b, e).policy == b.policy
  {
  }

  /** After every history the totals are conserved and all counted limits hold. */
  lemma {:induction false} AlwaysConserved(b: Budget, edits: seq<Edit>)
    requires BudgetOk(b)
    ensures BudgetOk(After(b, edits)) && After(b, edits).policy == b.policy
    decreases |edits|
  {
    if edits != [] {
      AlwaysConserved(b, edits[..|edits| - 1]);
      EditKeeps(After(b, edits[..|edits| - 1]), edits[|edits| - 1]);
      EditGrows(After(b, edits[..|edits| - 1]), edits[|edits| - 1]);
    }
  }

  lemma {:induction false} GrantedIdsAreKnown(b: Budget, edits: seq<Edit>)
    ensures forall id :: id in FreshGrants(b, edits) ==> id in After(b, edits).requests
    decreases |edits|
  {
    if edits != [] {
      var n := |edits| - 1;
      GrantedIdsAreKnown(b, edits[..n]);
      EditGrows(After(b, edits[..n]), edits[n]);
    }
  }

  /** Over all replays, a request id is granted a fresh call at most once. */
  lemma {:induction false} FreshAtMostOnce(b: Budget, edits: seq<Edit>)
    ensures Distinct(FreshGrants(b, edits))
    decreases |edits|
  {
    if edits != [] {
      var n := |edits| - 1;
      FreshAtMostOnce(b, edits[..n]);
      GrantedIdsAreKnown(b, edits[..n]);
    }
  }

  /** Asking again for a known request never charges, and returns the first ticket exactly when the input
      is the same. */
  lemma ReplayIsFree(b: Budget, r: Reservation)
    requires BudgetOk(b) && WellFormed(r) && r.request.Some? && r.request.value.0 in b.requests
    ensures Reserve(b, r).0 == b
    ensures b.calls[b.requests[r.request.value.0]].request == r.request <==>
            Reserve(b, r).1 == Replayed(b.requests[r.request.value.0])
    ensures b.calls[b.requests[r.request.value.0]].request != r.request <==> Reserve(b, r).1 == InputChanged
  {
  }

  /** A refused reservation leaves everything but the reason as it was. */
  lemma RefusalIsFree(b: Budget, r: Reservation)
    requires !Reserve(b, r).1.Fresh?
    ensures Reserve(b, r).0 == b.(exhausted := Reserve(b, r).0.exhausted)
    ensures !Reserve(b, r).1.Refused? ==> Reserve(b, r).0 == b
  {
  }
}
