/** What a request for a reading is answered, and which readings and answers are accepted. */
module SamplingTheorems {
  import opened Wrappers
  import opened Budget
  import opened BudgetTheorems
  import opened Resampling

  /** A query nobody read yet is granted exactly without a reason to read it again; its grant is the first one and is
      kept under the request. */
  lemma FirstReadExactly(b: Budget, id: RequestId, f: nat, request: ToolRequest, query: nat, reason: Option<Reason>,
                         answers: seq<HumanAnswer>, now: real)
    requires id !in b.grants && forall k :: 0 <= k < |b.calls| ==> !ReadsQuery(b.calls[k], query)
    ensures Authorize(b, id, f, request, query, reason, answers, now) ==
              var g := SampleGrant(query, 0, FirstRead, Semantic(query));
              if reason.None? then (b.(grants := b.grants[id := (f, g)]), Granted(g))
              else (b, Denied(NeedsPriorSample))
  {
  }

  /** Call `k` is the latest reading of the query. */
  ghost predicate Latest(b: Budget, query: nat, k: nat) {
    && k < |b.calls| && ReadsQuery(b.calls[k], query)
    && (forall j :: 0 <= j < |b.calls| && ReadsQuery(b.calls[j], query) ==>
          b.calls[j].purpose.generation <= b.calls[k].purpose.generation)
    && LastRead(b.calls, query) == Some(k)
  }

  /** A reading of this query among the calls. */
  predicate Reading(b: Budget, query: nat, c: Call) {
    c in b.calls && c.purpose.ToolRead? && c.purpose.query == query
  }

  /** Logs may be read once more for a wider window exactly when every reading so far succeeded with a narrower one and
      none of them was itself made for a wider window. */
  lemma WidensExactly(b: Budget, query: nat, request: ToolRequest)
    ensures CanWidenLogs(b, query, request) <==>
              && request.tool == PodLogs && request.tailLines.Some?
              && (exists c :: Reading(b, query, c))
              && forall c :: Reading(b, query, c) ==>
                   && c.settled.Some? && c.settled.value.answer.ToolAnswer? && !c.settled.value.answer.failed
                   && c.purpose.request.tailLines.Some?
                   && c.purpose.request.tailLines.value < request.tailLines.value && c.purpose.basis != WiderLogs
  {
    forall c | Reading(b, query, c)
      ensures exists k :: 0 <= k < |b.calls| && b.calls[k] == c && ReadsQuery(b.calls[k], query)
    {
      var k :| 0 <= k < |b.calls| && b.calls[k] == c;
    }
    forall k | 0 <= k < |b.calls| && ReadsQuery(b.calls[k], query) ensures Reading(b, query, b.calls[k]) { }
  }

  predicate Unknown(c: Call) {
    c.settled.None? || !c.settled.value.answer.ToolAnswer?
  }

  /** A granted repeat is one generation after the latest reading, under a key of its own; it changes the grants and
      nothing else. */
  lemma RepeatIsNext(b: Budget, id: RequestId, f: nat, request: ToolRequest, query: nat, reason: Option<Reason>,
                     answers: seq<HumanAnswer>, now: real, k: nat)
    requires id !in b.grants && Latest(b, query, k)
    ensures var (b', r) := Authorize(b, id, f, request, query, reason, answers, now);
            && (r.Granted? ==>
                  && r.grant.query == query && r.grant.generation == b.calls[k].purpose.generation + 1
                  && r.grant.key == Repeat(query, r.grant.generation)
                  && b' == b.(grants := b.grants[id := (f, r.grant)]))
            && (r.Denied? ==> b' == b)
  {
    hide RepeatBasis, BasisTaken;
  }

  /** Why a repeat is refused: the latest reading is unexplained or failed, history is not read twice, nothing was
      confirmed to have changed, it is still fresh, no reason was given, or its ground was used before. */
  lemma RefusalsExactly(b: Budget, id: RequestId, f: nat, request: ToolRequest, query: nat, reason: Option<Reason>,
                        answers: seq<HumanAnswer>, now: real, k: nat)
    requires id !in b.grants && Latest(b, query, k)
    ensures var c, r := b.calls[k], Authorize(b, id, f, request, query, reason, answers, now).1;
            var widens := reason.None? && CanWidenLogs(b, query, request);
            && (r == Denied(OutcomeUnknown) <==> Unknown(c))
            && (r == Denied(FailedSampleNeedsNewRun) <==> !Unknown(c) && c.settled.value.answer.failed)
            && (Succeeded(c) ==>
                  var at := c.settled.value.answer.collectedAt;
                  && (r == Denied(HistoricalLogs) <==> request.previous && !widens)
                  && (r == Denied(ReasonRequired) <==> !request.previous && !widens && reason.None?)
                  && (r == Denied(StillFresh) <==>
                        !request.previous && reason == Some(BecameStale)
                        && now < at + (if request.tool in {PodLogs, PodEvents, DeploymentConfig, ReplicaSet} then 60.0
                                       else 30.0))
                  && (r == Denied(NoConfirmedChange) <==>
                        !request.previous && reason == Some(ChangedByUser)
                        && forall a :: a in answers ==> !ConfirmsChange(b, a, request, at)))
  {
    assert reason.Some? ==> reason.value.ChangedByUser? || reason.value.BecameStale?;
    hide BasisTaken, CanWidenLogs, ConfirmsChange;
  }

  /** A reading is made exactly once for its grant: the grant is that of the request, the request was not made before
      and its key is unused; it then is an extra call of fifteen seconds. A request made before finds its call again. */
  lemma ReadsExactly(b: Budget, id: RequestId, f: nat, request: ToolRequest, query: nat, g: SampleGrant)
    requires b.policy == POLICY
    ensures var (b', r) := CallTool(b, id, f, request, query, g);
            && (r.GrantInvalid? <==> id !in b.grants || b.grants[id].1 != g || g.query != query)
            && (!r.GrantInvalid? ==>
                  && (r.grant.Fresh? <==> id !in b.requests && g.key !in b.tools)
                  && (id !in b.requests && g.key in b.tools ==> r.grant == Refused(DuplicateTool))
                  && (r.grant.Fresh? ==>
                        && b'.calls == b.calls + [Call(ToolRead(g.query, g.generation, g.basis, request), 15.0, true, 0,
                                                       Some((id, f)), None)]
                        && b'.tools == b.tools + [g.key] && b'.seconds == b.seconds + 15.0
                        && b'.extraSeconds == b.extraSeconds + 15.0)
                  && (id in b.requests && b.requests[id] < |b.calls| ==>
                        b' == b && r.grant == if b.calls[b.requests[id]].request == Some((id, f))
                                              then Replayed(b.requests[id]) else InputChanged))
            && (r.GrantInvalid? ==> b' == b)
  {
    if id in b.grants && b.grants[id].1 == g && g.query == query {
      ReservesExactly(b, ReadReservation(id, f, request, g));
      hide ModelCalls;
    }
  }

  /** An answer is taken exactly when its question has none and its message answered nothing else; the same answer sent
      again is taken as the one that was saved. */
  lemma AnswersExactly(b: Budget, a: HumanAnswer)
    ensures var (b', accepted) := AcceptAnswer(b, a);
            if a.questionId in b.receipts then
              var saved := b.receipts[a.questionId];
              && b' == b
              && accepted == (if saved == a.(acceptedAt := saved.acceptedAt) then Some(saved) else None)
            else if forall q :: q in b.receipts ==> b.receipts[q].messageId != a.messageId then
              accepted == Some(a) && b' == b.(receipts := b.receipts[a.questionId := a])
            else accepted == None && b' == b
  {
  }
}
