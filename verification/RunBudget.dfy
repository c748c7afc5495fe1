/** The budget object of a worker: edits of the stored payload under the run's lease. */
module RunBudgets {
  import opened Wrappers
  import opened Budget
  import opened Resampling
  import opened Investigation

  /** Adding references is all or nothing: a changed reference aborts the transaction. */
  predicate ReferencesAgree(saved: map<string, string>, values: seq<(string, string)>) {
    forall k | 0 <= k < |values| :: values[k].0 in saved ==> saved[values[k].0] == values[k].1
  }

  /** A dictionary has every key once. */
  ghost predicate DistinctKeys(values: seq<(string, string)>) {
    forall i, j :: 0 <= i < j < |values| ==> values[i].0 != values[j].0
  }

  /** budget.py:53-97 */
  method ReserveIn(b: Budget, r: Reservation) returns (d: Budget, grant: Grant)
    requires forall id :: id in b.requests ==> b.requests[id] < |b.calls|
    ensures (d, grant) == Reserve(b, r)
  {
    d := b;
    if r.seconds < 0.0 || r.tokens < 0 || r.keepTokens < 0 || r.keepSeconds < 0.0
        || (r.purpose.ToolRead? && r.key.None?) {
      return d, BadReservation;
    }
    if r.request.Some? && r.request.value.0 in d.requests {
      var ticket := d.requests[r.request.value.0];
      if d.calls[ticket].request != r.request {
        return d, InputChanged;
      }
      return d, Replayed(ticket);
    }
    var error := RefusalFor(d, r);
    if error.Some? {
      return d.(exhausted := error), Refused(error.value);
    }
    var extraSeconds, tools, decisions, requests := d.extraSeconds, d.tools, d.decisions, d.requests;
    if r.extra {
      extraSeconds := extraSeconds + r.seconds;
    }
    if r.purpose.ToolRead? {
      tools := tools + [r.key.value];
    }
    if r.decision.Some? && r.decision.value !in decisions {
      decisions := decisions + [r.decision.value];
    }
    if r.request.Some? {
      requests := requests[r.request.value.0 := |d.calls|];
    }
    grant := Fresh(|d.calls|);
    d := d.(seconds := d.seconds + r.seconds, tokens := d.tokens + r.tokens, extraSeconds := extraSeconds,
            tools := tools,
            decisions := decisions, requests := requests,
            calls := d.calls + [Call(r.purpose, r.seconds, r.extra, r.tokens, r.request, None)]);
  }

  /** budget.py:99-115 */
  method SettleIn(b: Budget, ticket: nat, elapsed: real, tokens: Option<int>, answer: Answer) returns (d: Budget)
    requires ticket < |b.calls|
    ensures d == Settle(b, ticket, elapsed, tokens, answer)
  {
    hide ExceedsReal;
    d := b;
    var call := d.calls[ticket];
    if call.settled.Some? {
      return;
    }
    var spent := if elapsed > 0.0 then elapsed else 0.0;
    var charged := call.tokens;
    var seconds, extraSeconds, total, exhausted := d.seconds + (spent - call.seconds), d.extraSeconds, d.tokens,
        d.exhausted;
    if call.extra {
      extraSeconds := extraSeconds + (spent - call.seconds);
    }
    if tokens.Some? {
      charged := tokens.value;
      total := total + (charged - call.tokens);
    }
    if ExceedsReal(seconds, d.policy.activeSeconds) {
      exhausted := Some(TimeLimit);
    }
    d := d.(seconds := seconds, extraSeconds := extraSeconds, tokens := total, exhausted := exhausted,
            calls := d.calls[ticket := call.(settled := Some(Settlement(spent, charged, answer)))]);
  }

  /** resampling.py:34-38: the read of the query with the highest generation. */
  method FindLast(calls: seq<Call>, query: nat) returns (last: Option<nat>)
    ensures last == LastRead(calls, query)
  {
    last := None;
    for k := 0 to |calls|
      invariant last == LastRead(calls[..k], query)
    {
      assert calls[..k + 1][..k] == calls[..k];
      if ReadsQuery(calls[k], query)
          && (last.None? || calls[last.value].purpose.generation < calls[k].purpose.generation) {
        last := Some(k);
      }
    }
    assert calls[..|calls|] == calls;
  }

  /** resampling.py:39-75 for a query that was read before. */
  method RepeatSample(b: Budget, k: nat, requestId: RequestId, fingerprint: nat, request: ToolRequest, query: nat,
                      reason: Option<Reason>, answers: seq<HumanAnswer>, now: real)
    returns (d: Budget, r: GrantResult)
    requires k < |b.calls| && b.calls[k].purpose.ToolRead?
    ensures (d, r) == AuthorizeRepeat(b, k, requestId, fingerprint, request, query, reason, answers, now)
  {
    d := b;
    var c := b.calls[k];
    if c.settled.None? || !c.settled.value.answer.ToolAnswer? {
      return d, Denied(OutcomeUnknown);
    }
    if c.settled.value.answer.failed {
      return d, Denied(FailedSampleNeedsNewRun);
    }
    var ground := RepeatBasis(b, c, request, query, reason, answers, now);
    if ground.Bad? {
      return d, Denied(ground.error);
    }
    if BasisTaken(b, query, ground.basis) {
      return d, Denied(BasisUsed);
    }
    var generation := c.purpose.generation + 1;
    var grant := SampleGrant(query, generation, ground.basis, KeyFor(query, generation));
    d, r := b.(grants := b.grants[requestId := (fingerprint, grant)]), Granted(grant);
  }

  class RunBudget {
    var data: Budget
    var references: map<string, string>
    var measuredSeconds: real

    ghost predicate Valid()
      reads this
    {
      BudgetOk(data)
    }

    constructor ()
      ensures Valid() && data == EMPTY && references == map[] && measuredSeconds == 0.0
    {
      data, references, measuredSeconds := EMPTY, map[], 0.0;
      EmptyOk();
    }

    method TakeReservation(r: Reservation) returns (grant: Grant)
      requires Valid()
      modifies this`data
      ensures Valid() && (data, grant) == Reserve(old(data), r)
    {
      ReserveKeeps(data, r);
      var edited;
      edited, grant := ReserveIn(data, r);
      data := edited;
    }

    method SettleCall(ticket: nat, elapsed: real, tokens: Option<int>, answer: Answer)
      requires Valid() && ticket < |data.calls|
      modifies this`data, this`measuredSeconds
      ensures Valid() && data == Settle(old(data), ticket, elapsed, tokens, answer)
      ensures measuredSeconds ==
                if old(data).calls[ticket].settled.None? && old(data).calls[ticket].purpose != Overhead
                then old(measuredSeconds) + MaxReal(0.0, elapsed) else old(measuredSeconds)
    {
      SettleKeeps(data, ticket, elapsed, tokens, answer);
      var call := data.calls[ticket];
      data := SettleIn(data, ticket, elapsed, tokens, answer);
      if call.settled.None? && call.purpose != Overhead {
        measuredSeconds := measuredSeconds + MaxReal(0.0, elapsed);
      }
    }

    /** budget.py:124-134 */
    method Decide(key: RequestId) returns (counted: bool)
      requires Valid()
      modifies this`data
      ensures Valid() && (data, counted) == CountDecision(old(data), key)
    {
      DecisionKeeps(data, key);
      if key in data.decisions {
        return true;
      }
      if data.policy.decisions.Some? && |data.decisions| + 1 > data.policy.decisions.value {
        data := data.(exhausted := Some(DecisionLimit));
        return false;
      }
      data := data.(decisions := data.decisions + [key]);
      counted := true;
    }

    /** budget.py:159-171: control overhead is charged five seconds up front. Stages may run until it ends. */
    method StartActivity() returns (ticket: nat, before: real)
      requires Valid()
      modifies this`data
      ensures Valid() && data == BeginActivity(old(data)) && ticket == |old(data).calls| && before == measuredSeconds
      ensures ticket < |data.calls| && data.calls[ticket].purpose == Overhead
    {
      BeginActivityKeeps(data);
      ticket, before := |data.calls|, measuredSeconds;
      data := data.(seconds := data.seconds + 5.0, calls := data.calls + [Call(Overhead, 5.0, false, 0, None, None)]);
    }

    /** budget.py:174-176: what the stages measured since the start is not charged a second time. */
    method EndActivity(ticket: nat, elapsed: real, before: real)
      requires Valid() && ticket < |data.calls| && data.calls[ticket].purpose == Overhead
      modifies this`data, this`measuredSeconds
      ensures Valid() && data == Settle(old(data), ticket, MaxReal(0.0, elapsed - (old(measuredSeconds) - before)),
                                        None, NoAnswer)
      ensures measuredSeconds == old(measuredSeconds)
    {
      SettleCall(ticket, MaxReal(0.0, elapsed - (measuredSeconds - before)), None, NoAnswer);
    }

    /** budget.py:178-185 */
    method AddReferences(values: seq<(string, string)>) returns (ok: bool)
      requires DistinctKeys(values)
      modifies this`references
      ensures ok <==> ReferencesAgree(old(references), values)
      ensures !ok ==> references == old(references)
      ensures ok ==>
                forall key :: key in references <==>
                  key in old(references) || exists k :: 0 <= k < |values| && values[k].0 == key
      ensures ok ==> (forall key :: key in old(references) ==> references[key] == old(references)[key])
      ensures ok ==> (forall k :: 0 <= k < |values| ==> references[values[k].0] == values[k].1)
    {
      var next := references;
      for n := 0 to |values|
        invariant ReferencesAgree(references, values[..n])
        invariant forall key :: key in next <==> key in references || exists k :: 0 <= k < n && values[k].0 == key
        invariant forall key :: key in references ==> next[key] == references[key]
        invariant forall k :: 0 <= k < n ==> next[values[k].0] == values[k].1
        invariant references == old(references)
      {
        var (key, value) := values[n];
        if key in next && next[key] != value {
          assert key in references;
          return false;
        }
        next := next[key := value];
      }
      assert values[..|values|] == values;
      references := next;
      ok := true;
    }

    /** model.py:32-45 */
    method ChooseTerminal(id: RequestId, forced: bool) returns (mode: bool)
      requires Valid()
      modifies this`data
      ensures Valid() && (data, mode) == TerminalMode(old(data), id, forced)
    {
      if id in data.modes {
        return data.modes[id];
      }
      if id in data.requests {
        mode := data.calls[data.requests[id]].purpose == ModelTurn(true);
      } else {
        mode := forced || ModelCalls(data.calls) >= data.policy.modelAttempts - 1;
      }
      data := data.(modes := data.modes[id := mode]);
    }

    /** records.py:32-46 */
    method TakeCorrection(id: RequestId, diagnosis: bool) returns (granted: bool)
      requires Valid()
      modifies this`data
      ensures Valid() && (data, granted) == Correction(old(data), id, diagnosis)
    {
      var existing := if diagnosis then data.diagnosisCorrectionFor else data.correctionFor;
      if existing.Some? && existing.value != id {
        return false;
      }
      if diagnosis && existing.None? {
        if ExceedsInt(data.tokens + CALL_TOKENS, data.policy.totalTokens)
            || ExceedsReal(data.seconds + CALL_SECONDS, data.policy.activeSeconds)
           || ModelCalls(data.calls) >= data.policy.modelAttempts {
          return false;
        }
      }
      data := if diagnosis then data.(diagnosisCorrectionFor := Some(id)) else data.(correctionFor := Some(id));
      granted := true;
    }

    /** resampling.py:24-75 */
    method AuthorizeSample(requestId: RequestId, fingerprint: nat, request: ToolRequest, query: nat,
                           reason: Option<Reason>, answers: seq<HumanAnswer>, now: real)
      returns (r: GrantResult)
      requires Valid()
      modifies this`data
      ensures Valid() && (data, r) == Authorize(old(data), requestId, fingerprint, request, query, reason, answers, now)
    {
      AuthorizeBudgetOk(data, requestId, fingerprint, request, query, reason, answers, now);
      if requestId in data.grants {
        var (saved, grant) := data.grants[requestId];
        return if saved != fingerprint then Denied(InputChangedForGrant) else Granted(grant);
      }
      var last := FindLast(data.calls, query);
      var next;
      if last.Some? {
        next, r := RepeatSample(data, last.value, requestId, fingerprint, request, query, reason, answers, now);
      } else if reason.Some? {
        next, r := data, Denied(NeedsPriorSample);
      } else {
        var grant := SampleGrant(query, 0, FirstRead, KeyFor(query, 0));
        next, r := data.(grants := data.grants[requestId := (fingerprint, grant)]), Granted(grant);
      }
      data := next;
    }

    /** dialogue.py:58-72 */
    method TakeAnswer(answer: HumanAnswer) returns (accepted: Option<HumanAnswer>)
      requires Valid()
      modifies this`data
      ensures Valid() && (data, accepted) == AcceptAnswer(old(data), answer)
    {
      AsidesKeep(data, data.grants, AcceptAnswer(data, answer).0.receipts);
      if answer.questionId in data.receipts {
        var saved := data.receipts[answer.questionId];
        return if saved.(acceptedAt := answer.acceptedAt) == answer then Some(saved) else None;
      }
      if exists q <- data.receipts :: data.receipts[q].messageId == answer.messageId {
        return None;
      }
      data := data.(receipts := data.receipts[answer.questionId := answer]);
      accepted := Some(answer);
    }
  }
}
