/** Server-issued sampling grants: a query is read again only on a ground of its own. */
module Resampling {
  import opened Wrappers
  import opened Budget

  datatype GrantError =
    | InputChangedForGrant | OutcomeUnknown | FailedSampleNeedsNewRun | HistoricalLogs | NoConfirmedChange | StillFresh
    | ReasonRequired | BasisUsed | NeedsPriorSample

  datatype GrantResult = Granted(grant: SampleGrant) | Denied(error: GrantError)

  function FreshnessSeconds(tool: Tool): (s: real) {
    match tool
    case ResourceSummary => 30.0
    case RegisteredBusiness => 30.0
    case EndpointSlice => 30.0
    case PodLogs => 60.0
    case PodEvents => 60.0
    case DeploymentConfig => 60.0
    case ReplicaSet => 60.0
  }

  function KeyFor(query: nat, generation: nat): (k: QueryKey) {
    if generation == 0 then Semantic(query) else Repeat(query, generation)
  }

  predicate ReadsQuery(c: Call, query: nat) {
    c.purpose.ToolRead? && c.purpose.query == query
  }

  predicate Succeeded(c: Call) {
    c.settled.Some? && c.settled.value.answer.ToolAnswer? && !c.settled.value.answer.failed
  }

  /** The read of the query with the highest generation, if there is one (resampling.py:34-38). */
  function LastRead(calls: seq<Call>, query: nat): (k: Option<nat>)
    ensures k.Some? ==> k.value < |calls| && ReadsQuery(calls[k.value], query)
    ensures k.Some? ==> forall j :: 0 <= j < |calls| && ReadsQuery(calls[j], query) ==>
              calls[j].purpose.generation <= calls[k.value].purpose.generation
    ensures k.None? ==> forall j :: 0 <= j < |calls| ==> !ReadsQuery(calls[j], query)
  {
    if calls == [] then None
    else
      var n := |calls| - 1;
      var before := LastRead(calls[..n], query);
      if ReadsQuery(calls[n], query)
          && (before.None? || calls[before.value].purpose.generation < calls[n].purpose.generation)
      then Some(n) else before
  }

  /** resampling.py:11-21 */
  predicate CanWidenLogs(b: Budget, query: nat, request: ToolRequest) {
    && request.tool == PodLogs && request.tailLines.Some?
    && (exists k | 0 <= k < |b.calls| :: ReadsQuery(b.calls[k], query))
    && (forall k | 0 <= k < |b.calls| :: ReadsQuery(b.calls[k], query) ==>
          && Succeeded(b.calls[k])
          && b.calls[k].purpose.request.tailLines.Some?
          && b.calls[k].purpose.request.tailLines.value < request.tailLines.value
          && b.calls[k].purpose.basis != WiderLogs)
  }

  /** An answer that confirms a change of the queried resource after the sample. */
  predicate ConfirmsChange(b: Budget, a: HumanAnswer, request: ToolRequest, collectedAt: real) {
    && a.aboutChanges && !a.skip && request.resource in a.changed && a.acceptedAt > collectedAt
    && a.questionId in b.receipts && b.receipts[a.questionId] == a
  }

  /** The last confirming answer. */
  function LastConfirming(b: Budget, answers: seq<HumanAnswer>, request: ToolRequest,
                          collectedAt: real): (a: Option<HumanAnswer>)
    ensures a.Some? ==> a.value in answers && ConfirmsChange(b, a.value, request, collectedAt)
    ensures a.None? ==> forall x :: x in answers ==> !ConfirmsChange(b, x, request, collectedAt)
  {
    if answers == [] then None
    else
      var n := |answers| - 1;
      if ConfirmsChange(b, answers[n], request, collectedAt) then Some(answers[n])
      else LastConfirming(b, answers[..n], request, collectedAt)
  }

  predicate BasisTaken(b: Budget, query: nat, basis: Basis) {
    exists id <- b.grants :: b.grants[id].1.query == query && b.grants[id].1.basis == basis
  }

  /** The ground a repeat may rest on, given the last successful sample (resampling.py:49-67). */
  function RepeatBasis(b: Budget, last: Call, request: ToolRequest, query: nat, reason: Option<Reason>,
                       answers: seq<HumanAnswer>, now: real)
    : (r: Result)
    requires Succeeded(last) && last.purpose.ToolRead?
  {
    var collectedAt := last.settled.value.answer.collectedAt;
    var widen := reason.None? && CanWidenLogs(b, query, request);
    if request.previous && !widen then Bad(HistoricalLogs)
    else if widen then Good(WiderLogs)
    else if reason == Some(ChangedByUser) then
      var a := LastConfirming(b, answers, request, collectedAt);
      if a.None? then Bad(NoConfirmedChange) else Good(UserChange(a.value.messageId))
    else if reason == Some(BecameStale) then
      if now - collectedAt < FreshnessSeconds(request.tool) then Bad(StillFresh)
      else Good(Stale(if last.request.Some? then Some(last.request.value.0) else None))
    else Bad(ReasonRequired)
  }

  datatype Result = Good(basis: Basis) | Bad(error: GrantError)

  /** resampling.py:24-75. `fingerprint` is the digest of the request, the reason and the answers shown. */
  function Authorize(b: Budget, requestId: RequestId, fingerprint: nat, request: ToolRequest, query: nat,
                     reason: Option<Reason>, answers: seq<HumanAnswer>, now: real)
    : (result: (Budget, GrantResult))
  {
    if requestId in b.grants then
      if b.grants[requestId].0 != fingerprint then (b, Denied(InputChangedForGrant))
      else (b, Granted(b.grants[requestId].1))
    else
      var last := LastRead(b.calls, query);
      if last.None? then
        if reason.Some? then (b, Denied(NeedsPriorSample))
        else Issue(b, requestId, fingerprint, SampleGrant(query, 0, FirstRead, KeyFor(query, 0)))
      else
        AuthorizeRepeat(b, last.value, requestId, fingerprint, request, query, reason, answers, now)
  }

  function AuthorizeRepeat(b: Budget, k: nat, requestId: RequestId, fingerprint: nat, request: ToolRequest, query: nat,
                           reason: Option<Reason>, answers: seq<HumanAnswer>, now: real)
    : (result: (Budget, GrantResult))
    requires k < |b.calls| && b.calls[k].purpose.ToolRead?
  {
    var c := b.calls[k];
    if c.settled.None? || !c.settled.value.answer.ToolAnswer? then (b, Denied(OutcomeUnknown))
    else if c.settled.value.answer.failed then (b, Denied(FailedSampleNeedsNewRun))
    else
      match RepeatBasis(b, c, request, query, reason, answers, now)
      case Bad(e) => (b, Denied(e))
      case Good(basis) =>
        if BasisTaken(b, query, basis) then (b, Denied(BasisUsed))
        else
          var generation := c.purpose.generation + 1;
          Issue(b, requestId, fingerprint, SampleGrant(query, generation, basis, KeyFor(query, generation)))
  }

  function Issue(b: Budget, requestId: RequestId, fingerprint: nat,
                 grant: SampleGrant): (result: (Budget, GrantResult)) {
    (b.(grants := b.grants[requestId := (fingerprint, grant)]), Granted(grant))
  }

  /** The reservation of a granted read (tools/investigation.py:146-168). */
  function ReadReservation(requestId: RequestId, fingerprint: nat, request: ToolRequest,
                           grant: SampleGrant): (r: Reservation) {
    Reservation(ToolRead(grant.query, grant.generation, grant.basis, request), 15.0, true, 0, Some(grant.key),
                Some((requestId, fingerprint)), None, CALL_TOKENS, CALL_SECONDS)
  }

  datatype ReadResult = ReadResult(grant: Grant) | GrantInvalid

  function CallTool(b: Budget, requestId: RequestId, fingerprint: nat, request: ToolRequest, query: nat,
                    sampling: SampleGrant): (result: (Budget, ReadResult)) {
    if requestId !in b.grants || b.grants[requestId].1 != sampling || sampling.query != query then (b, GrantInvalid)
    else
      var (b', g) := Reserve(b, ReadReservation(requestId, fingerprint, request, sampling));
      (b', ReadResult(g))
  }

  /** dialogue.py:48-72: an answer is accepted once per question, and a message answers one question only. */
  function AcceptAnswer(b: Budget, answer: HumanAnswer): (result: (Budget, Option<HumanAnswer>)) {
    if answer.questionId in b.receipts then
      var saved := b.receipts[answer.questionId];
      if saved.(acceptedAt := answer.acceptedAt) == answer then (b, Some(saved)) else (b, None)
    else if exists q <- b.receipts :: b.receipts[q].messageId == answer.messageId then (b, None)
    else (b.(receipts := b.receipts[answer.questionId := answer]), Some(answer))
  }

  // ----- what any history of edits keeps -----------------------------------------------------

  datatype SamplingEdit =
    | DoAuthorize(requestId: RequestId, fingerprint: nat, request: ToolRequest, query: nat, reason: Option<Reason>,
                  answers: seq<HumanAnswer>, now: real)
    | DoRead(requestId: RequestId, fingerprint: nat, request: ToolRequest, query: nat, sampling: SampleGrant)
    | DoAnswer(answer: HumanAnswer)
    | DoNote(modes: map<RequestId, bool>, correction: Option<RequestId>, diagnosisCorrection: Option<RequestId>)
    | DoOther(edit: Edit)

  /** Tool reads are only ever reserved through a grant. A note changes what is kept about the model's own calls. */
  function Sampled(b: Budget, e: SamplingEdit): (b': Budget) {
    match e
    case DoAuthorize(id, f, request, query, reason, answers, now) =>
        Authorize(b, id, f, request, query, reason, answers, now).0
    case DoRead(id, f, request, query, sampling) => CallTool(b, id, f, request, query, sampling).0
    case DoAnswer(answer) => AcceptAnswer(b, answer).0
    case DoNote(modes, correction, diagnosisCorrection) =>
      b.(modes := modes, correctionFor := correction, diagnosisCorrectionFor := diagnosisCorrection)
    case DoOther(edit) => if edit.DoReserve? && edit.reservation.purpose.ToolRead? then b else Edited(b, edit)
  }

  /** The read a grant of a later generation rests on: the previous generation, completed successfully,
      and for a confirmed change an accepted answer newer than that read. */
  ghost predicate RestsOn(b: Budget, g: SampleGrant, k: nat) {
    && k < |b.calls| && ReadsQuery(b.calls[k], g.query) && b.calls[k].purpose.generation == g.generation - 1
       && Succeeded(b.calls[k])
    && match g.basis
       case FirstRead => false
       case UserChange(m) =>
         exists q :: q in b.receipts && b.receipts[q].messageId == m && b.receipts[q].aboutChanges
                     && !b.receipts[q].skip
                     && b.receipts[q].acceptedAt > b.calls[k].settled.value.answer.collectedAt
       case Stale(id) => b.calls[k].request.Some? && id == Some(b.calls[k].request.value.0)
       case WiderLogs => true
  }

  ghost predicate GrantOk(b: Budget, g: SampleGrant) {
    && g.key == KeyFor(g.query, g.generation)
    && (g.generation == 0 <==> g.basis == FirstRead)
    && (g.generation > 0 ==> exists k :: RestsOn(b, g, k))
  }

  /** Two grants of one query share a ground only if it is the first read. */
  predicate SharesBasis(b: Budget, x: RequestId, y: RequestId) {
    && x in b.grants && y in b.grants && x != y && b.grants[x].1.query == b.grants[y].1.query
    && b.grants[x].1.basis == b.grants[y].1.basis && b.grants[x].1.basis != FirstRead
  }

  predicate ReadHasGrant(b: Budget, c: Call) {
    c.purpose.ToolRead? ==>
      && c.request.Some? && c.request.value.0 in b.grants
      && var g := b.grants[c.request.value.0].1;
         c.purpose.query == g.query && c.purpose.generation == g.generation && c.purpose.basis == g.basis
  }

  /** The keys of the reads made so far, in order. */
  ghost function ReadKeys(calls: seq<Call>): (keys: seq<QueryKey>) {
    if calls == [] then []
    else
      var n := |calls| - 1;
      if calls[n].purpose.ToolRead?
      then ReadKeys(calls[..n]) + [KeyFor(calls[n].purpose.query, calls[n].purpose.generation)]
      else ReadKeys(calls[..n])
  }

  ghost predicate GrantsOk(b: Budget) {
    && (forall id :: id in b.grants ==> GrantOk(b, b.grants[id].1))
    && (forall x, y :: !SharesBasis(b, x, y))
    && (forall k :: 0 <= k < |b.calls| ==> ReadHasGrant(b, b.calls[k]))
    && b.tools == ReadKeys(b.calls)
  }

  ghost predicate SamplingOk(b: Budget) {
    BudgetOk(b) && GrantsOk(b)
  }

  lemma {:induction false} ReadKeysUpdate(calls: seq<Call>, k: nat, c: Call)
    requires k < |calls| && c.purpose == calls[k].purpose
    ensures ReadKeys(calls[k := c]) == ReadKeys(calls)
    decreases |calls|
  {
    var n := |calls| - 1;
    if k < n {
      assert calls[k := c][..n] == calls[..n][k := c];
      ReadKeysUpdate(calls[..n], k, c);
    } else {
      assert calls[k := c][..n] == calls[..n];
    }
  }

  lemma ReadKeysAppend(calls: seq<Call>, c: Call)
    ensures ReadKeys(calls + [c]) == ReadKeys(calls)
            + (if c.purpose.ToolRead? then [KeyFor(c.purpose.query, c.purpose.generation)] else [])
  {
    assert (calls + [c])[..|calls|] == calls;
  }

  /** Calls and receipts only grow, and a settled call keeps its answer. */
  ghost predicate Grows(b: Budget, b': Budget) {
    && |b.calls| <= |b'.calls|
    && (forall k :: 0 <= k < |b.calls| ==>
          b'.calls[k].purpose == b.calls[k].purpose && b'.calls[k].request == b.calls[k].request
          && (b.calls[k].settled.Some? ==> b'.calls[k].settled == b.calls[k].settled))
    && (forall q :: q in b.receipts ==> q in b'.receipts && b'.receipts[q] == b.receipts[q])
  }

  lemma GrantStaysOk(b: Budget, b': Budget, g: SampleGrant)
    requires GrantOk(b, g) && Grows(b, b')
    ensures GrantOk(b', g)
  {
    if g.generation > 0 {
      var k :| RestsOn(b, g, k);
      assert RestsOn(b', g, k);
    }
  }

  /** Edits that add no grant; every read they add has one. */
  lemma ReadsKeep(b: Budget, b': Budget)
    requires GrantsOk(b) && Grows(b, b') && b'.grants == b.grants && b'.tools == ReadKeys(b'.calls)
    requires forall k :: |b.calls| <= k < |b'.calls| ==> ReadHasGrant(b, b'.calls[k])
    ensures GrantsOk(b')
  {
    forall id | id in b'.grants ensures GrantOk(b', b'.grants[id].1) { GrantStaysOk(b, b', b.grants[id].1); }
    forall x, y ensures !SharesBasis(b', x, y) { assert !SharesBasis(b, x, y); }
    forall k | 0 <= k < |b'.calls| ensures ReadHasGrant(b', b'.calls[k]) {
      if k < |b.calls| { assert ReadHasGrant(b, b.calls[k]); }
    }
  }

  /** Edits that add no grant and no read. */
  lemma PlainKeeps(b: Budget, b': Budget)
    requires GrantsOk(b) && Grows(b, b')
    requires b'.grants == b.grants && b'.tools == b.tools && ReadKeys(b'.calls) == ReadKeys(b.calls)
    requires forall k :: |b.calls| <= k < |b'.calls| ==> !b'.calls[k].purpose.ToolRead?
    ensures GrantsOk(b')
  {
    ReadsKeep(b, b');
  }

  lemma ExhaustedKeeps(b: Budget, why: Option<Refusal>)
    requires GrantsOk(b)
    ensures GrantsOk(b.(exhausted := why))
  {
    PlainKeeps(b, b.(exhausted := why));
  }

  lemma ChargedKeeps(b: Budget, r: Reservation)
    requires GrantsOk(b) && WellFormed(r)
             && ReadHasGrant(b, Call(r.purpose, r.seconds, r.extra, r.tokens, r.request, None))
    requires r.purpose.ToolRead? ==> r.key.value == KeyFor(r.purpose.query, r.purpose.generation)
    ensures GrantsOk(Charged(b, r))
  {
    var call := Call(r.purpose, r.seconds, r.extra, r.tokens, r.request, None);
    ReadKeysAppend(b.calls, call);
    ReadsKeep(b, Charged(b, r));
  }

  lemma ReserveGrantsOk(b: Budget, r: Reservation)
    requires GrantsOk(b) && ReadHasGrant(b, Call(r.purpose, r.seconds, r.extra, r.tokens, r.request, None))
    requires r.purpose.ToolRead? ==> r.key == Some(KeyFor(r.purpose.query, r.purpose.generation))
    ensures GrantsOk(Reserve(b, r).0)
  {
    if WellFormed(r) {
      ChargedKeeps(b, r);
      ExhaustedKeeps(b, RefusalFor(b, r));
    }
  }

  lemma SettleSampleKeeps(b: Budget, ticket: nat, elapsed: real, tokens: Option<int>, answer: Answer)
    requires GrantsOk(b) && ticket < |b.calls|
    ensures GrantsOk(Settle(b, ticket, elapsed, tokens, answer))
  {
    var b' := Settle(b, ticket, elapsed, tokens, answer);
    ReadKeysUpdate(b.calls, ticket, b'.calls[ticket]);
    PlainKeeps(b, b');
  }

  lemma DecisionsKeep(b: Budget, decisions: seq<RequestId>)
    requires GrantsOk(b)
    ensures GrantsOk(b.(decisions := decisions))
  {
    PlainKeeps(b, b.(decisions := decisions));
  }

  lemma DecisionGrantsOk(b: Budget, key: RequestId)
    requires GrantsOk(b)
    ensures GrantsOk(CountDecision(b, key).0)
  {
    DecisionsKeep(b, b.decisions + [key]);
    ExhaustedKeeps(b, Some(DecisionLimit));
  }

  lemma ActivityGrantsOk(b: Budget)
    requires GrantsOk(b)
    ensures GrantsOk(BeginActivity(b))
  {
    ReadKeysAppend(b.calls, Call(Overhead, 5.0, false, 0, None, None));
    PlainKeeps(b, BeginActivity(b));
  }

  lemma OtherKeeps(b: Budget, edit: Edit)
    requires GrantsOk(b) && !(edit.DoReserve? && edit.reservation.purpose.ToolRead?)
    ensures GrantsOk(Edited(b, edit))
  {
    match edit
    case DoReserve(r) => ReserveGrantsOk(b, r);
    case DoSettle(ticket, elapsed, tokens, answer) =>
        if ticket < |b.calls| { SettleSampleKeeps(b, ticket, elapsed, tokens, answer); }
    case DoDecision(key) => DecisionGrantsOk(b, key);
    case DoBeforeWrite(required) => ExhaustedKeeps(b, Some(WriteNotReserved));
    case DoActivity => ActivityGrantsOk(b);
  }

  lemma IssueKeeps(b: Budget, id: RequestId, fingerprint: nat, g: SampleGrant)
    requires GrantsOk(b) && id !in b.grants && GrantOk(b, g)
             && (g.basis != FirstRead ==> !BasisTaken(b, g.query, g.basis))
    ensures GrantsOk(Issue(b, id, fingerprint, g).0)
  {
    var b' := Issue(b, id, fingerprint, g).0;
    forall x | x in b'.grants ensures GrantOk(b', b'.grants[x].1) {
      GrantStaysOk(b, b', b'.grants[x].1);
    }
    forall x, y ensures !SharesBasis(b', x, y) { assert !SharesBasis(b, x, y); }
    forall k | 0 <= k < |b'.calls| ensures ReadHasGrant(b', b'.calls[k]) { assert ReadHasGrant(b, b.calls[k]); }
  }

  /** A repeat is grounded in the previous generation of its query. */
  lemma RepeatRests(b: Budget, k: nat, request: ToolRequest, query: nat, reason: Option<Reason>,
                    answers: seq<HumanAnswer>, now: real)
    requires GrantsOk(b) && k < |b.calls| && ReadsQuery(b.calls[k], query) && Succeeded(b.calls[k])
    requires RepeatBasis(b, b.calls[k], request, query, reason, answers, now).Good?
    ensures var basis := RepeatBasis(b, b.calls[k], request, query, reason, answers, now).basis;
            var generation := b.calls[k].purpose.generation + 1;
            basis != FirstRead && GrantOk(b, SampleGrant(query, generation, basis, KeyFor(query, generation)))
  {
    hide LastRead, BasisTaken, CanWidenLogs, ReadKeys;
    assert ReadHasGrant(b, b.calls[k]);
    var basis := RepeatBasis(b, b.calls[k], request, query, reason, answers, now).basis;
    var generation := b.calls[k].purpose.generation + 1;
    var g := SampleGrant(query, generation, basis, KeyFor(query, generation));
    if basis.UserChange? {
      var a := LastConfirming(b, answers, request, b.calls[k].settled.value.answer.collectedAt).value;
      assert a.questionId in b.receipts && b.receipts[a.questionId].messageId == basis.messageId;
    }
    assert RestsOn(b, g, k);
  }

  lemma IssueRepeatKeeps(b: Budget, k: nat, id: RequestId, f: nat, request: ToolRequest, query: nat,
                         reason: Option<Reason>, answers: seq<HumanAnswer>, now: real, basis: Basis)
    requires GrantsOk(b) && id !in b.grants && k < |b.calls| && ReadsQuery(b.calls[k], query) && Succeeded(b.calls[k])
    requires RepeatBasis(b, b.calls[k], request, query, reason, answers, now) == Good(basis)
             && !BasisTaken(b, query, basis)
    ensures var generation := b.calls[k].purpose.generation + 1;
            GrantsOk(Issue(b, id, f, SampleGrant(query, generation, basis, KeyFor(query, generation))).0)
  {
    RepeatRests(b, k, request, query, reason, answers, now);
    var generation := b.calls[k].purpose.generation + 1;
    IssueKeeps(b, id, f, SampleGrant(query, generation, basis, KeyFor(query, generation)));
  }

  lemma AuthorizeRepeatKeeps(b: Budget, k: nat, id: RequestId, f: nat, request: ToolRequest, query: nat,
                             reason: Option<Reason>, answers: seq<HumanAnswer>, now: real)
    requires GrantsOk(b) && id !in b.grants && k < |b.calls| && ReadsQuery(b.calls[k], query)
    ensures GrantsOk(AuthorizeRepeat(b, k, id, f, request, query, reason, answers, now).0)
  {
    if Succeeded(b.calls[k]) {
      var r := RepeatBasis(b, b.calls[k], request, query, reason, answers, now);
      if r.Good? && !BasisTaken(b, query, r.basis) {
        IssueRepeatKeeps(b, k, id, f, request, query, reason, answers, now, r.basis);
        AuthorizeRepeatIs(b, k, id, f, request, query, reason, answers, now, r.basis);
      } else {
        AuthorizeRepeatDenies(b, k, id, f, request, query, reason, answers, now);
      }
    } else {
      AuthorizeRepeatDenies(b, k, id, f, request, query, reason, answers, now);
    }
  }

  lemma AuthorizeRepeatIs(b: Budget, k: nat, id: RequestId, f: nat, request: ToolRequest, query: nat,
                          reason: Option<Reason>, answers: seq<HumanAnswer>, now: real, basis: Basis)
    requires k < |b.calls| && ReadsQuery(b.calls[k], query) && Succeeded(b.calls[k])
    requires RepeatBasis(b, b.calls[k], request, query, reason, answers, now) == Good(basis)
             && !BasisTaken(b, query, basis)
    ensures var generation := b.calls[k].purpose.generation + 1;
            AuthorizeRepeat(b, k, id, f, request, query, reason, answers, now)
                == Issue(b, id, f, SampleGrant(query, generation, basis, KeyFor(query, generation)))
  {
  }

  lemma AuthorizeRepeatDenies(b: Budget, k: nat, id: RequestId, f: nat, request: ToolRequest, query: nat,
                              reason: Option<Reason>, answers: seq<HumanAnswer>, now: real)
    requires k < |b.calls| && ReadsQuery(b.calls[k], query)
    requires Succeeded(b.calls[k]) ==>
               var r := RepeatBasis(b, b.calls[k], request, query, reason, answers, now);
                   r.Bad? || BasisTaken(b, query, r.basis)
    ensures AuthorizeRepeat(b, k, id, f, request, query, reason, answers, now).0 == b
  {
  }

  lemma AuthorizeKeeps(b: Budget, id: RequestId, f: nat, request: ToolRequest, query: nat, reason: Option<Reason>,
                       answers: seq<HumanAnswer>, now: real)
    requires GrantsOk(b)
    ensures GrantsOk(Authorize(b, id, f, request, query, reason, answers, now).0)
  {
    if id !in b.grants {
      var last := LastRead(b.calls, query);
      if last.None? {
        IssueKeeps(b, id, f, SampleGrant(query, 0, FirstRead, KeyFor(query, 0)));
      } else {
        AuthorizeRepeatKeeps(b, last.value, id, f, request, query, reason, answers, now);
      }
    }
  }

  lemma ReadKeeps(b: Budget, id: RequestId, f: nat, request: ToolRequest, query: nat, sampling: SampleGrant)
    requires GrantsOk(b)
    ensures GrantsOk(CallTool(b, id, f, request, query, sampling).0)
  {
    if id in b.grants && b.grants[id].1 == sampling && sampling.query == query {
      var r := ReadReservation(id, f, request, sampling);
      assert GrantOk(b, sampling);
      ReserveGrantsOk(b, r);
    }
  }

  lemma SampledGrantsOk(b: Budget, e: SamplingEdit)
    requires GrantsOk(b)
    ensures GrantsOk(Sampled(b, e))
  {
    hide GrantsOk, Authorize, CallTool, Edited;
    match e
    case DoAuthorize(id, f, request, query, reason, answers, now) =>
        AuthorizeKeeps(b, id, f, request, query, reason, answers, now);
    case DoRead(id, f, request, query, sampling) => ReadKeeps(b, id, f, request, query, sampling);
    case DoAnswer(answer) => PlainKeeps(b, AcceptAnswer(b, answer).0);
    case DoNote(_, _, _) => PlainKeeps(b, Sampled(b, e));
    case DoOther(edit) => if !(edit.DoReserve? && edit.reservation.purpose.ToolRead?) { OtherKeeps(b, edit); }
  }

  lemma AsidesKeep(b: Budget, grants: map<RequestId, (nat, SampleGrant)>, receipts: map<nat, HumanAnswer>)
    requires BudgetOk(b)
    ensures BudgetOk(b.(grants := grants, receipts := receipts))
  {
  }

  lemma NotesKeep(b: Budget, modes: map<RequestId, bool>, correction: Option<RequestId>,
                  diagnosisCorrection: Option<RequestId>)
    requires BudgetOk(b)
    ensures BudgetOk(b.(modes := modes, correctionFor := correction, diagnosisCorrectionFor := diagnosisCorrection))
  {
  }

  lemma ReadBudgetOk(b: Budget, id: RequestId, f: nat, request: ToolRequest, query: nat, sampling: SampleGrant)
    requires BudgetOk(b)
    ensures BudgetOk(CallTool(b, id, f, request, query, sampling).0)
  {
    ReserveKeeps(b, ReadReservation(id, f, request, sampling));
  }

  lemma AuthorizeBudgetOk(b: Budget, id: RequestId, f: nat, request: ToolRequest, query: nat, reason: Option<Reason>,
                          answers: seq<HumanAnswer>, now: real)
    requires BudgetOk(b)
    ensures BudgetOk(Authorize(b, id, f, request, query, reason, answers, now).0)
  {
    var b' := Authorize(b, id, f, request, query, reason, answers, now).0;
    AsidesKeep(b, b'.grants, b.receipts);
    assert b' == b.(grants := b'.grants);
  }

  lemma SampledBudgetOk(b: Budget, e: SamplingEdit)
    requires BudgetOk(b)
    ensures BudgetOk(Sampled(b, e))
  {
    match e
    case DoRead(id, f, request, query, sampling) => ReadBudgetOk(b, id, f, request, query, sampling);
    case DoOther(edit) => EditKeeps(b, edit);
    case DoAuthorize(id, f, request, query, reason, answers, now) =>
        AuthorizeBudgetOk(b, id, f, request, query, reason, answers, now);
    case DoAnswer(answer) => AsidesKeep(b, b.grants, AcceptAnswer(b, answer).0.receipts);
    case DoNote(modes, correction, diagnosisCorrection) => NotesKeep(b, modes, correction, diagnosisCorrection);
  }

  function AfterSampling(b: Budget, edits: seq<SamplingEdit>): (b': Budget)
    decreases |edits|
  {
    if edits == [] then b else Sampled(AfterSampling(b, edits[..|edits| - 1]), edits[|edits| - 1])
  }

  lemma {:induction false} AlwaysOk(b: Budget, edits: seq<SamplingEdit>)
    requires SamplingOk(b)
    ensures SamplingOk(AfterSampling(b, edits))
    decreases |edits|
  {
    if edits != [] {
      AlwaysOk(b, edits[..|edits| - 1]);
      SampledGrantsOk(AfterSampling(b, edits[..|edits| - 1]), edits[|edits| - 1]);
      SampledBudgetOk(AfterSampling(b, edits[..|edits| - 1]), edits[|edits| - 1]);
    }
  }

  // ----- consequences ------------------------------------------------------------------------

  lemma {:induction false} KeyOfRead(calls: seq<Call>, k: nat)
    requires k < |calls| && calls[k].purpose.ToolRead?
    ensures exists i :: 0 <= i < |ReadKeys(calls)|
                        && ReadKeys(calls)[i] == KeyFor(calls[k].purpose.query, calls[k].purpose.generation)
    decreases |calls|
  {
    var n := |calls| - 1;
    if k < n {
      KeyOfRead(calls[..n], k);
      var i :| 0 <= i < |ReadKeys(calls[..n])|
          && ReadKeys(calls[..n])[i] == KeyFor(calls[k].purpose.query, calls[k].purpose.generation);
      assert ReadKeys(calls)[i] == ReadKeys(calls[..n])[i];
    } else {
      assert ReadKeys(calls)[|ReadKeys(calls)| - 1] == KeyFor(calls[k].purpose.query, calls[k].purpose.generation);
    }
  }

  lemma {:induction false} DistinctReads(calls: seq<Call>, i: nat, j: nat)
    requires i < j < |calls| && calls[i].purpose.ToolRead? && calls[j].purpose.ToolRead? && Distinct(ReadKeys(calls))
    ensures KeyFor(calls[i].purpose.query, calls[i].purpose.generation)
            != KeyFor(calls[j].purpose.query, calls[j].purpose.generation)
    decreases |calls|
  {
    var n := |calls| - 1;
    var before := ReadKeys(calls[..n]);
    assert forall k :: 0 <= k < |before| ==> before[k] == ReadKeys(calls)[k];
    if j < n {
      DistinctReads(calls[..n], i, j);
    } else {
      KeyOfRead(calls[..n], i);
      assert ReadKeys(calls)[|before|] == KeyFor(calls[j].purpose.query, calls[j].purpose.generation);
    }
  }

  /** In every history, two reads of one query have different generations and rest on different grounds. */
  lemma RepeatsHaveOwnGround(b: Budget, edits: seq<SamplingEdit>, i: nat, j: nat)
    requires SamplingOk(b)
    requires var calls := AfterSampling(b, edits).calls;
             i < j < |calls| && calls[i].purpose.ToolRead? && calls[j].purpose.ToolRead?
                 && calls[i].purpose.query == calls[j].purpose.query
    ensures var calls := AfterSampling(b, edits).calls;
            calls[i].purpose.generation != calls[j].purpose.generation
                && calls[i].purpose.basis != calls[j].purpose.basis
  {
    AlwaysOk(b, edits);
    var b' := AfterSampling(b, edits);
    DistinctReads(b'.calls, i, j);
    assert ReadHasGrant(b', b'.calls[i]) && ReadHasGrant(b', b'.calls[j]);
    var x, y := b'.calls[i].request.value.0, b'.calls[j].request.value.0;
    assert b'.requests[x] == i && b'.requests[y] == j;
    assert !SharesBasis(b', x, y);
    assert GrantOk(b', b'.grants[x].1) && GrantOk(b', b'.grants[y].1);
  }

  /** In every history, a repeated read follows a successful read of the previous generation, and its ground
      speaks about exactly that read. */
  lemma RepeatsRestOnPrevious(b: Budget, edits: seq<SamplingEdit>, j: nat)
    requires SamplingOk(b)
    requires var calls := AfterSampling(b, edits).calls;
             j < |calls| && calls[j].purpose.ToolRead? && calls[j].purpose.generation > 0
    ensures var b' := AfterSampling(b, edits);
            exists k, key :: RestsOn(b',
                                     SampleGrant(b'.calls[j].purpose.query, b'.calls[j].purpose.generation,
                                                 b'.calls[j].purpose.basis, key), k)
  {
    AlwaysOk(b, edits);
    var b' := AfterSampling(b, edits);
    assert ReadHasGrant(b', b'.calls[j]);
    var g := b'.grants[b'.calls[j].request.value.0].1;
    assert GrantOk(b', g);
    var k :| RestsOn(b', g, k);
    assert RestsOn(b', SampleGrant(b'.calls[j].purpose.query, b'.calls[j].purpose.generation,
                                   b'.calls[j].purpose.basis, g.key), k);
  }

  /** What makes a repeat after the read `k` legitimate at the moment it is asked for. */
  predicate Justified(b: Budget, k: nat, request: ToolRequest, query: nat, reason: Option<Reason>,
                      answers: seq<HumanAnswer>, now: real, basis: Basis)
    requires k < |b.calls| && Succeeded(b.calls[k])
  {
    var last := b.calls[k];
    var collectedAt := last.settled.value.answer.collectedAt;
    var widens := reason.None? && CanWidenLogs(b, query, request);
    match basis
    case FirstRead => false
    case WiderLogs => widens
    case UserChange(m) =>
      && !widens && !request.previous && reason == Some(ChangedByUser)
      && (exists i | 0 <= i < |answers| ::
            && ConfirmsChange(b, answers[i], request, collectedAt) && answers[i].messageId == m
            && (forall j | i < j < |answers| :: !ConfirmsChange(b, answers[j], request, collectedAt)))
    case Stale(id) =>
      && !widens && !request.previous && reason == Some(BecameStale)
      && now >= collectedAt + FreshnessSeconds(request.tool)
      && id == (if last.request.Some? then Some(last.request.value.0) else None)
  }

  lemma {:induction false} LastConfirmingIs(b: Budget, answers: seq<HumanAnswer>, request: ToolRequest,
                                            collectedAt: real, i: nat)
    requires i < |answers| && ConfirmsChange(b, answers[i], request, collectedAt)
    requires forall j | i < j < |answers| :: !ConfirmsChange(b, answers[j], request, collectedAt)
    ensures LastConfirming(b, answers, request, collectedAt) == Some(answers[i])
    decreases |answers|
  {
    if i < |answers| - 1 { LastConfirmingIs(b, answers[..|answers| - 1], request, collectedAt, i); }
  }

  lemma {:induction false} LastConfirmingAt(b: Budget, answers: seq<HumanAnswer>, request: ToolRequest,
                                            collectedAt: real) returns (i: nat)
    requires LastConfirming(b, answers, request, collectedAt).Some?
    ensures i < |answers| && LastConfirming(b, answers, request, collectedAt).value == answers[i]
    ensures ConfirmsChange(b, answers[i], request, collectedAt)
    ensures forall j | i < j < |answers| :: !ConfirmsChange(b, answers[j], request, collectedAt)
    decreases |answers|
  {
    var n := |answers| - 1;
    if ConfirmsChange(b, answers[n], request, collectedAt) { i := n; }
    else { i := LastConfirmingAt(b, answers[..n], request, collectedAt); }
  }

  lemma BasisIsJustified(b: Budget, k: nat, request: ToolRequest, query: nat, reason: Option<Reason>,
                         answers: seq<HumanAnswer>, now: real, basis: Basis)
    requires k < |b.calls| && ReadsQuery(b.calls[k], query) && Succeeded(b.calls[k])
    ensures RepeatBasis(b, b.calls[k], request, query, reason, answers, now) == Good(basis)
            <==> Justified(b, k, request, query, reason, answers, now, basis)
  {
    var collectedAt := b.calls[k].settled.value.answer.collectedAt;
    if RepeatBasis(b, b.calls[k], request, query, reason, answers, now) == Good(basis) && basis.UserChange? {
      var i := LastConfirmingAt(b, answers, request, collectedAt);
    }
    if Justified(b, k, request, query, reason, answers, now, basis) && basis.UserChange? {
      var i :| 0 <= i < |answers| && ConfirmsChange(b, answers[i], request, collectedAt)
          && answers[i].messageId == basis.messageId
        && (forall j | i < j < |answers| :: !ConfirmsChange(b, answers[j], request, collectedAt));
      LastConfirmingIs(b, answers, request, collectedAt, i);
    }
  }

  /** A new request for a query already read is granted exactly when its latest read succeeded and a ground
      holds that no earlier grant of the query has used. */
  lemma RepeatGrantedExactly(b: Budget, id: RequestId, f: nat, request: ToolRequest, query: nat, reason: Option<Reason>,
                             answers: seq<HumanAnswer>, now: real, basis: Basis)
    requires id !in b.grants && LastRead(b.calls, query).Some?
    ensures var k := LastRead(b.calls, query).value;
            (exists g :: Authorize(b, id, f, request, query, reason, answers, now).1 == Granted(g) && g.basis == basis)
            <==> (Succeeded(b.calls[k]) && Justified(b, k, request, query, reason, answers, now, basis)
                  && !BasisTaken(b, query, basis))
  {
    var k := LastRead(b.calls, query).value;
    var r := Authorize(b, id, f, request, query, reason, answers, now).1;
    if Succeeded(b.calls[k]) {
      BasisIsJustified(b, k, request, query, reason, answers, now, basis);
      if Justified(b, k, request, query, reason, answers, now, basis) && !BasisTaken(b, query, basis) {
        assert r.Granted? && r == Granted(r.grant) && r.grant.basis == basis;
      }
    }
  }

  /** Replaying an authorised request returns the same grant, at any later time and with any newer answers,
      and changes nothing. */
  lemma {:induction false} GrantReplays(b: Budget, edits: seq<SamplingEdit>, id: RequestId)
    requires id in b.grants
    ensures id in AfterSampling(b, edits).grants && AfterSampling(b, edits).grants[id] == b.grants[id]
    ensures forall request, query, reason, answers, now ::
              Authorize(AfterSampling(b, edits), id, b.grants[id].0, request, query, reason, answers, now)
              == (AfterSampling(b, edits), Granted(b.grants[id].1))
    decreases |edits|
  {
    if edits != [] {
      GrantReplays(b, edits[..|edits| - 1], id);
      GrantsKept(AfterSampling(b, edits[..|edits| - 1]), edits[|edits| - 1], id);
    }
  }

  lemma GrantsKept(b: Budget, e: SamplingEdit, id: RequestId)
    requires id in b.grants
    ensures id in Sampled(b, e).grants && Sampled(b, e).grants[id] == b.grants[id]
  {
    match e
    case DoAuthorize(_, _, _, _, _, _, _) =>
    case DoRead(_, _, _, _, _) =>
    case DoAnswer(_) =>
    case DoNote(_, _, _) =>
    case DoOther(edit) => assert Edited(b, edit).grants == b.grants;
  }

  /** The edit issues the grant: a first reading for no reason, or a repeat on a ground that holds at that very
      moment and that no earlier grant of the query has used. For a stale sample the time that takes has
      passed; for a wider log the window is larger than that of every earlier reading of the query. */
  ghost predicate Issues(before: Budget, e: SamplingEdit, id: RequestId, g: SampleGrant) {
    && e.DoAuthorize? && e.requestId == id && id !in before.grants && g.query == e.query
    && var last := LastRead(before.calls, e.query);
       if last.None? then e.reason.None? && g.basis == FirstRead && g.generation == 0
       else
         && Succeeded(before.calls[last.value]) && g.generation == before.calls[last.value].purpose.generation + 1
         && Justified(before, last.value, e.request, e.query, e.reason, e.answers, e.now, g.basis)
         && !BasisTaken(before, e.query, g.basis)
  }

  lemma IssuedInOneStep(b: Budget, e: SamplingEdit, id: RequestId)
    requires id !in b.grants && id in Sampled(b, e).grants
    ensures Issues(b, e, id, Sampled(b, e).grants[id].1)
  {
    if e.DoAuthorize? {
      AuthorizeIssues(b, e.requestId, e.fingerprint, e.request, e.query, e.reason, e.answers, e.now, id);
    } else {
      NoGrantElsewhere(b, e);
    }
  }

  lemma NoGrantElsewhere(b: Budget, e: SamplingEdit)
    requires !e.DoAuthorize?
    ensures Sampled(b, e).grants == b.grants
  {
    match e
    case DoRead(_, _, _, _, _) =>
    case DoAnswer(_) =>
    case DoNote(_, _, _) =>
    case DoOther(edit) => assert Edited(b, edit).grants == b.grants;
  }

  lemma AuthorizeIssues(b: Budget, id: RequestId, f: nat, request: ToolRequest, query: nat, reason: Option<Reason>,
                        answers: seq<HumanAnswer>, now: real, x: RequestId)
    requires x !in b.grants && x in Authorize(b, id, f, request, query, reason, answers, now).0.grants
    ensures Issues(b, DoAuthorize(id, f, request, query, reason, answers, now), x,
                   Authorize(b, id, f, request, query, reason, answers, now).0.grants[x].1)
  {
    var last := LastRead(b.calls, query);
    if last.Some? {
      var k := last.value;
      if Succeeded(b.calls[k]) {
        var r := RepeatBasis(b, b.calls[k], request, query, reason, answers, now);
        if r.Good? && !BasisTaken(b, query, r.basis) {
          BasisIsJustified(b, k, request, query, reason, answers, now, r.basis);
          AuthorizeRepeatIs(b, k, id, f, request, query, reason, answers, now, r.basis);
        } else {
          AuthorizeRepeatDenies(b, k, id, f, request, query, reason, answers, now);
        }
      } else {
        AuthorizeRepeatDenies(b, k, id, f, request, query, reason, answers, now);
      }
    }
  }

  /** In every history a grant was issued by one authorisation, on a ground that held then. */
  lemma {:induction false} GrantWasJustified(b: Budget, edits: seq<SamplingEdit>, id: RequestId) returns (k: nat)
    requires id !in b.grants && id in AfterSampling(b, edits).grants
    ensures k < |edits| && Issues(AfterSampling(b, edits[..k]), edits[k], id, AfterSampling(b, edits).grants[id].1)
    decreases |edits|
  {
    var n := |edits| - 1;
    var before := AfterSampling(b, edits[..n]);
    if id in before.grants {
      GrantsKept(before, edits[n], id);
      k := GrantWasJustified(b, edits[..n], id);
      assert edits[..n][..k] == edits[..k];
    } else {
      IssuedInOneStep(before, edits[n], id);
      k := n;
    }
  }

  /** In every history of a fresh budget, every reading of a query was authorised in this way. */
  lemma ReadingWasJustified(edits: seq<SamplingEdit>, j: nat) returns (k: nat)
    requires j < |AfterSampling(EMPTY, edits).calls| && AfterSampling(EMPTY, edits).calls[j].purpose.ToolRead?
    ensures var c := AfterSampling(EMPTY, edits).calls[j];
            k < |edits| && c.request.Some?
            && exists g :: Issues(AfterSampling(EMPTY, edits[..k]), edits[k], c.request.value.0, g)
                           && g.query == c.purpose.query && g.generation == c.purpose.generation
                              && g.basis == c.purpose.basis
  {
    EmptyOk();
    AlwaysOk(EMPTY, edits);
    var b := AfterSampling(EMPTY, edits);
    assert ReadHasGrant(b, b.calls[j]);
    k := GrantWasJustified(EMPTY, edits, b.calls[j].request.value.0);
  }
}
