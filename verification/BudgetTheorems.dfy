/** When a reservation is granted, and what each call is finally charged, over whole histories. */
module BudgetTheorems {
  import opened Wrappers
  import opened Budget

  predicate AtMostReal(value: real, limit: Option<real>) {
    limit.None? || value <= limit.value
  }

  predicate AtMostInt(value: int, limit: Option<int>) {
    limit.None? || value <= limit.value
  }

  predicate NotNegative(r: Reservation) {
    r.seconds >= 0.0 && r.tokens >= 0 && r.keepTokens >= 0 && r.keepSeconds >= 0.0
  }

  predicate Known(b: Budget, r: Reservation) {
    r.request.Some? && r.request.value.0 in b.requests
  }

  /** The decisions and tool keys counted once the reservation is made. */
  function DecisionsWith(b: Budget, r: Reservation): (d: seq<RequestId>) {
    if r.decision.None? || r.decision.value in b.decisions then b.decisions else b.decisions + [r.decision.value]
  }

  /** There is room for the call itself, for what it keeps free, and in every count. */
  predicate HasRoom(b: Budget, r: Reservation)
    requires r.purpose.ToolRead? ==> r.key.Some?
  {
    && (r.decision.Some? && r.decision.value !in b.decisions && b.policy.decisions.Some? ==>
          |b.decisions| < b.policy.decisions.value)
    && (r.purpose.ModelTurn? ==> ModelCalls(b.calls) < b.policy.modelAttempts)
    && (r.purpose.ToolRead? ==>
          r.key.value !in b.tools && (b.policy.tools.Some? ==> |b.tools| < b.policy.tools.value))
    && AtMostReal(b.seconds + r.seconds + r.keepSeconds, b.policy.activeSeconds)
    && (r.extra ==> AtMostReal(b.extraSeconds + r.seconds, b.policy.extraSeconds))
    && AtMostInt(b.tokens + r.tokens + r.keepTokens, b.policy.totalTokens)
  }

  /** A new call is made exactly when the reservation is well formed, not known yet and within every limit; then it is
      the last call, charged what was reserved, and everything it uses up is counted. Otherwise no call is made. */
  lemma ReservesExactly(b: Budget, r: Reservation)
    ensures var (b', grant) := Reserve(b, r);
            && (grant.Fresh? <==>
                  && NotNegative(r) && (r.purpose.ToolRead? ==> r.key.Some?) && !Known(b, r) && HasRoom(b, r))
            && (grant.Fresh? ==>
                  && grant.ticket == |b.calls|
                  && b'.calls == b.calls + [Call(r.purpose, r.seconds, r.extra, r.tokens, r.request, None)]
                  && b'.seconds == b.seconds + r.seconds && b'.tokens == b.tokens + r.tokens
                  && b'.extraSeconds == b.extraSeconds + (if r.extra then r.seconds else 0.0)
                  && b'.decisions == DecisionsWith(b, r)
                  && b'.tools == b.tools + (if r.purpose.ToolRead? then [r.key.value] else [])
                  && (r.request.None? ==> b'.requests == b.requests)
                  && (r.request.Some? ==> b'.requests == b.requests[r.request.value.0 := |b.calls|]))
            && (!grant.Fresh? ==> b'.calls == b.calls && b'.requests == b.requests && b'.decisions == b.decisions
                                  && b'.tools == b.tools)
  {
  }

  /** A refusal names a limit that stands in the way, and is kept as the reason. */
  lemma RefusalNamesLimit(b: Budget, r: Reservation)
    requires Reserve(b, r).1.Refused?
    ensures Reserve(b, r).0.exhausted == Some(Reserve(b, r).1.reason)
    ensures match Reserve(b, r).1.reason
            case DecisionLimit => |DecisionsWith(b, r)| > |b.decisions| && b.policy.decisions.Some?
                                  && |b.decisions| >= b.policy.decisions.value
            case ModelAttemptLimit => r.purpose.ModelTurn? && ModelCalls(b.calls) >= b.policy.modelAttempts
            case DuplicateTool => r.purpose.ToolRead? && r.key.Some? && r.key.value in b.tools
            case ToolLimit => r.purpose.ToolRead? && b.policy.tools.Some? && |b.tools| >= b.policy.tools.value
            case TimeLimit => !AtMostReal(b.seconds + r.seconds + r.keepSeconds, b.policy.activeSeconds)
                              || (r.extra && !AtMostReal(b.extraSeconds + r.seconds, b.policy.extraSeconds))
            case TokenLimit => !AtMostInt(b.tokens + r.tokens + r.keepTokens, b.policy.totalTokens)
            case WriteNotReserved => false
  {
  }

  /** A decision is counted exactly when it is new and there is room for it; a known one is accepted for free. */
  lemma DecisionCountsExactly(b: Budget, key: RequestId)
    ensures var (b', accepted) := CountDecision(b, key);
            && (accepted <==> key in b.decisions
                              || b.policy.decisions.None? || |b.decisions| < b.policy.decisions.value)
            && b' == (if key in b.decisions then b
                      else if accepted then b.(decisions := b.decisions + [key])
                      else b.(exhausted := Some(DecisionLimit)))
  {
  }

  /** A write may start exactly while its reserve fits into the remaining time and no token is overdrawn. */
  lemma WriteStartsExactly(b: Budget, required: Option<real>)
    ensures var (b', accepted) := BeforeWrite(b, required);
            && (accepted <==>
                  && AtMostInt(b.tokens, b.policy.totalTokens)
                  && AtMostReal(b.seconds + (if required.None? || required.value == 0.0
                                             then b.policy.writeReserveSeconds else required.value),
                                b.policy.activeSeconds))
            && b' == (if accepted then b else b.(exhausted := Some(WriteNotReserved)))
  {
  }

  // ----- charges over a history --------------------------------------------------------------

  /** What the settling edit reports: time counts from zero, and without usage the reserved tokens are charged. */
  function Reported(e: Edit, reserved: int): (s: Settlement)
    requires e.DoSettle?
  {
    Settlement(if e.elapsed < 0.0 then 0.0 else e.elapsed, if e.tokens.None? then reserved else e.tokens.value,
               e.answer)
  }

  /** The first edit that settles a call that exists by then. */
  function FirstSettle(b: Budget, edits: seq<Edit>, ticket: nat): (k: Option<nat>)
    ensures k.Some? ==> k.value < |edits| && edits[k.value].DoSettle? && edits[k.value].ticket == ticket
    decreases |edits|
  {
    if edits == [] then None
    else
      var n := |edits| - 1;
      var earlier := FirstSettle(b, edits[..n], ticket);
      if earlier.Some? then earlier
      else if edits[n].DoSettle? && edits[n].ticket == ticket && ticket < |After(b, edits[..n]).calls| then Some(n)
      else None
  }

  /** The edit that made the call: the one that was granted this ticket. */
  ghost predicate MadeBy(b: Budget, edits: seq<Edit>, ticket: nat, c: Call) {
    exists k :: 0 <= k < |edits| && |After(b, edits[..k]).calls| == ticket && Makes(edits[k], c)
  }

  predicate Makes(e: Edit, c: Call) {
    match e
    case DoReserve(r) =>
      && c.purpose == r.purpose && c.seconds == r.seconds && c.extra == r.extra && c.tokens == r.tokens
      && c.request == r.request
    case DoActivity => c.purpose == Overhead && c.seconds == 5.0 && !c.extra && c.tokens == 0 && c.request.None?
    case _ => false
  }

  predicate SameReservation(c: Call, d: Call) {
    d == c.(settled := d.settled)
  }

  /** An edit adds at most one call, at the end, and settles at most the call it names. */
  lemma EditCalls(b: Budget, e: Edit)
    ensures var b' := Edited(b, e);
            && (|b'.calls| == |b.calls|
                || (|b'.calls| == |b.calls| + 1 && Makes(e, b'.calls[|b.calls|]) && b'.calls[|b.calls|].settled.None?))
            && (forall t :: 0 <= t < |b.calls| ==>
                  && SameReservation(b.calls[t], b'.calls[t])
                  && b'.calls[t].settled ==
                       (if b.calls[t].settled.None? && e.DoSettle? && e.ticket == t
                        then Some(Reported(e, b.calls[t].tokens)) else b.calls[t].settled))
  {
    hide ModelCalls;
    match e
    case DoReserve(r) => if Reserve(b, r).1.Fresh? { ReservesExactly(b, r); }
    case _ =>
  }

  lemma MadeEarlier(b: Budget, edits: seq<Edit>, ticket: nat, c: Call, d: Call)
    requires edits != [] && MadeBy(b, edits[..|edits| - 1], ticket, c) && SameReservation(c, d)
    ensures MadeBy(b, edits, ticket, d)
  {
    hide Edited;
    var n := |edits| - 1;
    var k :| 0 <= k < n && |After(b, edits[..n][..k]).calls| == ticket && Makes(edits[..n][k], c);
    assert edits[..n][..k] == edits[..k];
    assert Makes(edits[k], d);
  }

  lemma MadeNow(b: Budget, edits: seq<Edit>, ticket: nat, c: Call)
    requires edits != [] && |After(b, edits[..|edits| - 1]).calls| == ticket && Makes(edits[|edits| - 1], c)
    ensures MadeBy(b, edits, ticket, c)
  {
  }

  /** In every history from an empty budget, each call was reserved by one edit, whose figures it keeps, and it is
      charged what the first edit that settled it reported, however often it is settled again; unsettled calls stay
      charged their reservation. */
  lemma {:induction false} ChargesAreReported(b: Budget, edits: seq<Edit>, ticket: nat)
    requires b.calls == [] && ticket < |After(b, edits).calls|
    ensures var c := After(b, edits).calls[ticket];
            && MadeBy(b, edits, ticket, c)
            && c.settled == match FirstSettle(b, edits, ticket)
                            case None => None
                            case Some(k) => Some(Reported(edits[k], c.tokens))
    decreases |edits|
  {
    hide Edited, MadeBy, Makes;
    if edits != [] {
      var n := |edits| - 1;
      var before := After(b, edits[..n]);
      EditCalls(before, edits[n]);
      if ticket < |before.calls| {
        ChargesAreReported(b, edits[..n], ticket);
        MadeEarlier(b, edits, ticket, before.calls[ticket], After(b, edits).calls[ticket]);
      } else {
        NoEarlySettle(b, edits[..n], ticket);
        MadeNow(b, edits, ticket, After(b, edits).calls[ticket]);
      }
    }
  }

  lemma {:induction false} NoEarlySettle(b: Budget, edits: seq<Edit>, ticket: nat)
    requires ticket >= |After(b, edits).calls|
    ensures FirstSettle(b, edits, ticket).None?
    decreases |edits|
  {
    hide Edited;
    if edits != [] {
      var n := |edits| - 1;
      EditCalls(After(b, edits[..n]), edits[n]);
      NoEarlySettle(b, edits[..n], ticket);
    }
  }
}
