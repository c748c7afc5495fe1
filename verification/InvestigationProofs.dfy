/** What every event keeps of the investigation. */
module InvestigationProofs {
  import opened Wrappers
  import opened Budget
  import opened Resampling
  import opened Investigation

  // ----- edits that leave the model's bookkeeping alone --------------------------------------

  ghost predicate SameModel(b: Budget, b': Budget) {
    && b'.policy == b.policy && b'.modes == b.modes
    && b'.correctionFor == b.correctionFor && b'.diagnosisCorrectionFor == b.diagnosisCorrectionFor
    && ModelCalls(b'.calls) == ModelCalls(b.calls) && |b.calls| <= |b'.calls|
    && (forall id: RequestId :: id.ModelRequest? ==> (id in b'.requests <==> id in b.requests))
  }

  lemma SameStepOk(b: Budget, b': Budget, n: nat)
    requires SameModel(b, b') && StepOk(b, n)
    ensures StepOk(b', n)
  {
    forall retry ensures PendingOk(b', n, retry) { assert PendingOk(b, n, retry); }
  }

  lemma SameModelKeeps(m: Machine, b: Budget)
    requires Orderly(m) && SameModel(m.budget, b)
    ensures Orderly(m.(budget := b))
  {
    if !m.graph.phase.Finished? { SameStepOk(m.budget, b, m.graph.step + 1); }
  }

  lemma ExhaustedSame(b: Budget, why: Option<Refusal>)
    ensures SameModel(b, b.(exhausted := why))
  {
  }

  lemma ChargedSame(b: Budget, r: Reservation)
    requires WellFormed(r) && !r.purpose.ModelTurn? && (r.request.Some? ==> r.request.value.0.ReadRequest?)
    ensures SameModel(b, Charged(b, r))
  {
    SumAppend(b.calls, Call(r.purpose, r.seconds, r.extra, r.tokens, r.request, None));
  }

  lemma ForeignReserveSame(b: Budget, r: Reservation)
    requires !r.purpose.ModelTurn? && (r.request.Some? ==> r.request.value.0.ReadRequest?)
    ensures SameModel(b, Reserve(b, r).0)
  {
    if WellFormed(r) {
      ChargedSame(b, r);
      ExhaustedSame(b, RefusalFor(b, r));
    }
  }

  lemma SettleSame(b: Budget, ticket: nat, elapsed: real, tokens: Option<int>, answer: Answer)
    requires ticket < |b.calls|
    ensures SameModel(b, Settle(b, ticket, elapsed, tokens, answer))
  {
    ModelCallsUpdate(b.calls, ticket, Settle(b, ticket, elapsed, tokens, answer).calls[ticket]);
  }

  lemma ForeignSame(b: Budget, e: Edit)
    requires Foreign(b, e)
    ensures SameModel(b, Edited(b, e))
  {
    match e
    case DoReserve(r) => ForeignReserveSame(b, r);
    case DoSettle(ticket, elapsed, tokens, answer) => SettleSame(b, ticket, elapsed, tokens, answer);
    case DoDecision(key) =>
    case DoBeforeWrite(required) =>
    case DoActivity => SumAppend(b.calls, Call(Overhead, 5.0, false, 0, None, None));
  }

  lemma SampleSame(b: Budget, e: SamplingEdit)
    requires ForCollect(e)
    ensures SameModel(b, Sampled(b, e))
  {
    if e.DoRead? {
      ForeignReserveSame(b, ReadReservation(e.requestId, e.fingerprint, e.request, e.sampling));
    }
  }

  // ----- the steps of the decide node --------------------------------------------------------

  lemma GiveUpKeeps(m: Machine)
    requires Orderly(m) && m.graph.phase.Investigating?
    ensures Orderly(GiveUp(m))
  {
  }

  lemma ModeStepOk(b: Budget, n: nat, retry: bool, forced: bool)
    requires StepOk(b, n) && (retry ==> Id(n, false) in b.requests) && (n >= LAST_STEP ==> forced)
    ensures StepOk(TerminalMode(b, Id(n, retry), forced).0, n)
  {
    var b' := TerminalMode(b, Id(n, retry), forced).0;
    forall again ensures PendingOk(b', n, again) { assert PendingOk(b, n, again); }
  }

  lemma NewModeKeeps(m: Machine, modes: map<RequestId, bool>)
    requires Orderly(m) && m.pc.ChoosingMode? && StepOk(m.budget.(modes := modes), m.graph.step + 1)
    requires Id(m.graph.step + 1, m.pc.retry) in modes
    ensures Orderly(m.(budget := m.budget.(modes := modes),
                       pc := Reserving(m.pc.retry, modes[Id(m.graph.step + 1, m.pc.retry)])))
  {
  }

  lemma ChooseModeIs(m: Machine, modes: map<RequestId, bool>)
    requires m.pc.ChoosingMode?
             && modes == TerminalMode(m.budget, Id(m.graph.step + 1, m.pc.retry), m.pc.terminal).0.modes
    ensures Id(m.graph.step + 1, m.pc.retry) in modes
    ensures TerminalMode(m.budget, Id(m.graph.step + 1, m.pc.retry), m.pc.terminal).0 == m.budget.(modes := modes)
    ensures DoChooseMode(m) == m.(budget := m.budget.(modes := modes),
                                  pc := Reserving(m.pc.retry, modes[Id(m.graph.step + 1, m.pc.retry)]))
  {
  }

  lemma ChooseModeKeeps(m: Machine)
    requires Orderly(m) && m.pc.ChoosingMode?
    ensures Orderly(DoChooseMode(m))
  {
    var n := m.graph.step + 1;
    ModeStepOk(m.budget, n, m.pc.retry, m.pc.terminal);
    var modes := TerminalMode(m.budget, Id(n, m.pc.retry), m.pc.terminal).0.modes;
    ChooseModeIs(m, modes);
    NewModeKeeps(m, modes);
  }

  ghost predicate Added(b: Budget, b': Budget, id: RequestId) {
    && b'.policy == b.policy && b'.modes == b.modes
    && b'.correctionFor == b.correctionFor && b'.diagnosisCorrectionFor == b.diagnosisCorrectionFor
    && ModelCalls(b'.calls) == ModelCalls(b.calls) + 1
    && id !in b.requests && b'.requests.Keys == b.requests.Keys + {id}
  }

  lemma AddedStepOk(b: Budget, b': Budget, n: nat, retry: bool)
    requires StepOk(b, n) && Added(b, b', Id(n, retry)) && Id(n, retry) in b.modes
             && (retry ==> Id(n, false) in b.requests)
    ensures StepOk(b', n)
    ensures ModelCalls(b'.calls) >= b'.policy.modelAttempts ==> b.modes[Id(n, retry)]
  {
    assert PendingOk(b, n, retry);
    forall again ensures PendingOk(b', n, again) { assert PendingOk(b, n, again); }
  }

  lemma AddedCorrectionsOk(b: Budget, b': Budget, n: nat, retry: bool)
    requires CorrectionsOk(b) && Added(b, b', Id(n, retry)) && (retry ==> HasSlot(b, Id(n, true)))
    ensures CorrectionsOk(b')
  {
  }

  lemma FreshCallKeeps(m: Machine, b: Budget, ticket: nat)
    requires Orderly(m) && m.pc.Reserving? && Added(m.budget, b, Id(m.graph.step + 1, m.pc.retry)) && ticket < |b.calls|
    ensures Orderly(m.(budget := b, pc := Invoking(m.pc.retry, m.pc.terminal, ticket)))
  {
    var n := m.graph.step + 1;
    AddedStepOk(m.budget, b, n, m.pc.retry);
    AddedCorrectionsOk(m.budget, b, n, m.pc.retry);
  }

  lemma ChargedAdds(b: Budget, r: Reservation)
    requires WellFormed(r) && r.purpose.ModelTurn? && r.request.Some? && r.request.value.0 !in b.requests
    ensures Added(b, Charged(b, r), r.request.value.0)
  {
    SumAppend(b.calls, Call(r.purpose, r.seconds, r.extra, r.tokens, r.request, None));
  }

  ghost predicate Fits(b: Budget, id: RequestId, b': Budget, grant: Grant) {
    if grant.Fresh? then Added(b, b', id) && grant.ticket < |b'.calls|
    else SameModel(b, b') && (grant.Replayed? ==> id in b.requests)
  }

  lemma ReserveFits(b: Budget, id: RequestId, r: Reservation)
    requires r.purpose.ModelTurn? && r.request.Some? && r.request.value.0 == id
    ensures Fits(b, id, Reserve(b, r).0, Reserve(b, r).1)
  {
    if WellFormed(r) && id !in b.requests {
      ChargedAdds(b, r);
      ExhaustedSame(b, RefusalFor(b, r));
    }
  }

  lemma WithGrantKeeps(m: Machine, b: Budget, grant: Grant)
    requires Orderly(m) && m.pc.Reserving? && Fits(m.budget, Id(m.graph.step + 1, m.pc.retry), b, grant)
    ensures Orderly(WithGrant(m, b, grant))
  {
    assert m.graph.phase.Investigating?;
    hide Orderly, Added, SameModel;
    if grant.Fresh? {
      FreshCallKeeps(m, b, grant.ticket);
    } else {
      SameModelKeeps(m, b);
      GiveUpKeeps(m.(budget := b));
    }
  }

  lemma ReserveCallIs(m: Machine, prompt: nat, r: Reservation)
    requires m.pc.Reserving?
    requires r == ModelReservation(Id(m.graph.step + 1, m.pc.retry), Id(m.graph.step + 1, false), prompt, m.pc.terminal)
    ensures DoReserveCall(m, prompt) == WithGrant(m, Reserve(m.budget, r).0, Reserve(m.budget, r).1)
  {
  }

  lemma ReserveCallKeeps(m: Machine, prompt: nat)
    requires Orderly(m) && m.pc.Reserving?
    ensures Orderly(DoReserveCall(m, prompt))
  {
    var n := m.graph.step + 1;
    var r := ModelReservation(Id(n, m.pc.retry), Id(n, false), prompt, m.pc.terminal);
    ReserveFits(m.budget, Id(n, m.pc.retry), r);
    WithGrantKeeps(m, Reserve(m.budget, r).0, Reserve(m.budget, r).1);
    ReserveCallIs(m, prompt, r);
  }

  lemma InvokeKeeps(m: Machine, reply: Reply)
    requires Orderly(m) && m.pc.Invoking?
    ensures Orderly(DoInvoke(m, reply))
  {
  }

  lemma SaveKeeps(m: Machine, elapsed: real, tokens: Option<int>)
    requires Orderly(m) && m.pc.Saving?
    ensures Orderly(DoSave(m, elapsed, tokens))
  {
    if m.pc.ticket < |m.budget.calls| {
      SettleSame(m.budget, m.pc.ticket, elapsed, tokens, ModelAnswer(m.pc.reply));
      SameModelKeeps(m, Settle(m.budget, m.pc.ticket, elapsed, tokens, ModelAnswer(m.pc.reply)));
    }
  }

  lemma RereadKeeps(m: Machine)
    requires Orderly(m) && m.pc.Rereading?
    ensures Orderly(DoReread(m))
  {
    GiveUpKeeps(m);
  }

  lemma LaterStepOk(b: Budget, n: nat)
    requires StepOk(b, n)
    ensures StepOk(b, n + 1)
  {
  }

  /** An accepted decision in the last step, or in terminal mode, ends the investigation. */
  lemma AdvanceKeeps(m: Machine, flaw: Flaw)
    requires Orderly(m) && m.pc.Judging? && m.pc.reply.Decided?
    requires Judge(m.pc.reply.action, m.pc.terminal, m.graph.asked, m.graph.answers > 0, flaw).Accepted?
    ensures Orderly(Advance(m, m.pc.reply.action))
  {
    LaterStepOk(m.budget, m.graph.step + 1);
  }

  lemma ConclusionKeeps(m: Machine, flaw: Flaw)
    requires Orderly(m) && m.pc.Judging?
    ensures Orderly(DoConclusion(m, flaw))
  {
    GiveUpKeeps(m);
    if m.pc.reply.Decided?
        && Judge(m.pc.reply.action, m.pc.terminal, m.graph.asked, m.graph.answers > 0, flaw).Accepted? {
      AdvanceKeeps(m, flaw);
    }
  }

  lemma CorrectionBudget(b: Budget, id: RequestId, diagnosis: bool)
    requires CorrectionsOk(b) && id.ModelRequest? && !id.correction
    ensures var (b', granted) := Correction(b, id, diagnosis);
            && b' == b.(correctionFor := b'.correctionFor, diagnosisCorrectionFor := b'.diagnosisCorrectionFor)
            && CorrectionsOk(b') && (granted ==> HasSlot(b', id.(correction := true)))
            && (b.correctionFor.Some? ==> b'.correctionFor == b.correctionFor)
            && (b.diagnosisCorrectionFor.Some? ==> b'.diagnosisCorrectionFor == b.diagnosisCorrectionFor)
  {
  }

  lemma CorrectKeeps(m: Machine)
    requires Orderly(m) && m.pc.Correcting?
    ensures Orderly(DoCorrect(m))
  {
    hide Correction;
    var n := m.graph.step + 1;
    CorrectionBudget(m.budget, Id(n, false), m.pc.diagnosis);
    var (b, granted) := Correction(m.budget, Id(n, false), m.pc.diagnosis);
    forall retry ensures PendingOk(b, n, retry) { assert PendingOk(m.budget, n, retry); }
    assert StepOk(b, n);
  }

  lemma RespondKeeps(m: Machine, answer: HumanAnswer)
    requires Orderly(m) && m.graph.phase.WaitingUser?
    ensures Orderly(DoRespond(m, answer))
  {
    var b := AcceptAnswer(m.budget, answer).0;
    SameModelKeeps(m, b);
  }

  // ----- the steps of the collect node -------------------------------------------------------

  lemma CollectFailsKeeps(m: Machine)
    requires Orderly(m) && m.graph.phase.Collecting?
    ensures Orderly(CollectFails(m))
  {
  }

  lemma FetchedKeeps(m: Machine, index: nat)
    requires Orderly(m) && m.graph.phase.Collecting?
    ensures Orderly(Fetched(m, index))
  {
  }

  lemma WithAuthorisationKeeps(m: Machine, index: nat, b: Budget, r: GrantResult)
    requires Orderly(m) && InCollect(m, index) && SameModel(m.budget, b)
    ensures Orderly(WithAuthorisation(m, index, b, r))
  {
    SameModelKeeps(m, b);
    CollectFailsKeeps(m.(budget := b));
  }

  lemma ScheduleIs(m: Machine, index: nat, f: nat, answers: seq<HumanAnswer>, now: real, e: SamplingEdit)
    requires InCollect(m, index) && e == ScheduleEdit(m, index, f, answers, now)
    ensures exists r :: DoSchedule(m, index, f, answers, now) == WithAuthorisation(m, index, Sampled(m.budget, e), r)
  {
    var ask := m.graph.pending[index];
    var r := Authorize(m.budget, ReadId(m, index), f, ask.request, ask.query, m.graph.reason, answers, now).1;
    assert DoSchedule(m, index, f, answers, now) == WithAuthorisation(m, index, Sampled(m.budget, e), r);
  }

  lemma ScheduleKeeps(m: Machine, f: nat, answers: seq<HumanAnswer>, now: real)
    requires Orderly(m) && m.fetch.Scheduling?
    ensures Orderly(DoSchedule(m, m.fetch.index, f, answers, now))
  {
    var e := ScheduleEdit(m, m.fetch.index, f, answers, now);
    SampleSame(m.budget, e);
    ScheduleIs(m, m.fetch.index, f, answers, now, e);
    var r :| DoSchedule(m, m.fetch.index, f, answers, now) == WithAuthorisation(m, m.fetch.index,
        Sampled(m.budget, e), r);
    WithAuthorisationKeeps(m, m.fetch.index, Sampled(m.budget, e), r);
  }

  /** What reserving a reading does to the bookkeeping, whatever comes of it. */
  ghost predicate ReadingFits(b: Budget, b': Budget, r: ReadResult) {
    SameModel(b, b') && (r.ReadResult? && r.grant.Fresh? ==> r.grant.ticket < |b'.calls|)
  }

  lemma WithReadingKeeps(m: Machine, index: nat, b: Budget, r: ReadResult, changed: bool)
    requires Orderly(m) && InCollect(m, index) && ReadingFits(m.budget, b, r)
    ensures Orderly(WithReading(m, index, b, r, changed))
  {
    SameModelKeeps(m, b);
    CollectFailsKeeps(m.(budget := b));
    FetchedKeeps(m.(budget := b), index);
  }

  lemma CallToolFits(b: Budget, id: RequestId, f: nat, request: ToolRequest, query: nat, sampling: SampleGrant)
    requires id.ReadRequest?
    ensures ReadingFits(b, CallTool(b, id, f, request, query, sampling).0,
                        CallTool(b, id, f, request, query, sampling).1)
  {
    SampleSame(b, DoRead(id, f, request, query, sampling));
  }

  lemma FetchIs(m: Machine, index: nat, f: nat, changed: bool, b: Budget, r: ReadResult)
    requires InCollect(m, index) && ReadId(m, index) in m.budget.grants
    requires (b, r) == CallTool(m.budget, ReadId(m, index), f, m.graph.pending[index].request,
                                m.graph.pending[index].query,
                                m.budget.grants[ReadId(m, index)].1)
    ensures DoFetch(m, index, f, changed) == WithReading(m, index, b, r, changed)
  {
  }

  lemma FetchKeeps(m: Machine, f: nat, changed: bool)
    requires Orderly(m) && m.fetch.Fetching?
    ensures Orderly(DoFetch(m, m.fetch.index, f, changed))
  {
    var i := m.fetch.index;
    if ReadId(m, i) in m.budget.grants {
      var ask := m.graph.pending[i];
      var sampling := m.budget.grants[ReadId(m, i)].1;
      var (b, r) := CallTool(m.budget, ReadId(m, i), f, ask.request, ask.query, sampling);
      CallToolFits(m.budget, ReadId(m, i), f, ask.request, ask.query, sampling);
      WithReadingKeeps(m, i, b, r, changed);
      FetchIs(m, i, f, changed, b, r);
    } else {
      CollectFailsKeeps(m);
    }
  }

  lemma ToolReturnsKeeps(m: Machine, elapsed: real, failed: bool, collectedAt: real, changed: bool)
    requires Orderly(m) && m.fetch.Awaiting?
    ensures Orderly(DoToolReturns(m, elapsed, failed, collectedAt, changed))
  {
    var b := Settle(m.budget, m.fetch.ticket, elapsed, None, ToolAnswer(failed, collectedAt));
    SettleSame(m.budget, m.fetch.ticket, elapsed, None, ToolAnswer(failed, collectedAt));
    SameModelKeeps(m, b);
    CollectFailsKeeps(m.(budget := b));
    FetchedKeeps(m.(budget := b), m.fetch.index);
  }

  predicate OfCollect(e: Event) {
    e.EnterCollect? || e.Schedule? || e.FetchNext? || e.ToolReturns?
  }

  lemma CollectOrderly(m: Machine, e: Event)
    requires Orderly(m) && OfCollect(e)
    ensures Orderly(Next(m, e))
  {
    match e
    case EnterCollect =>
    case Schedule(f, answers, now) => if m.fetch.Scheduling? { ScheduleKeeps(m, f, answers, now); }
    case FetchNext(f, changed) => if m.fetch.Fetching? { FetchKeeps(m, f, changed); }
    case ToolReturns(elapsed, failed, at, changed) =>
      if m.fetch.Awaiting? { ToolReturnsKeeps(m, elapsed, failed, at, changed); }
  }

  lemma ElsewhereOrderly(m: Machine, edit: Edit)
    requires Orderly(m) && Foreign(m.budget, edit)
    ensures Orderly(m.(budget := Edited(m.budget, edit)))
  {
    ForeignSame(m.budget, edit);
    SameModelKeeps(m, Edited(m.budget, edit));
  }

  predicate OfDecide(e: Event) {
    || e.Enter? || e.ChooseMode? || e.FailContext? || e.ReserveCall? || e.Invoke? || e.Save? || e.Reread?
    || e.Conclusion? || e.Correct?
  }

  lemma DecideOrderly(m: Machine, e: Event)
    requires Orderly(m) && OfDecide(e)
    ensures Orderly(Next(m, e))
  {
    match e
    case Enter =>
    case ChooseMode => if m.pc.ChoosingMode? { ChooseModeKeeps(m); }
    case FailContext => if m.pc.Reserving? { GiveUpKeeps(m); }
    case ReserveCall(prompt) => if m.pc.Reserving? { ReserveCallKeeps(m, prompt); }
    case Invoke(reply) => if m.pc.Invoking? { InvokeKeeps(m, reply); }
    case Save(elapsed, tokens) => if m.pc.Saving? { SaveKeeps(m, elapsed, tokens); }
    case Reread => if m.pc.Rereading? { RereadKeeps(m); }
    case Conclusion(flaw) => if m.pc.Judging? { ConclusionKeeps(m, flaw); }
    case Correct => if m.pc.Correcting? { CorrectKeeps(m); }
  }

  lemma NextOrderly(m: Machine, e: Event)
    requires Orderly(m)
    ensures Orderly(Next(m, e))
  {
    if OfDecide(e) { DecideOrderly(m, e); }
    else if OfCollect(e) { CollectOrderly(m, e); }
    else {
      match e
      case Respond(answer) => if m.graph.phase.WaitingUser? { RespondKeeps(m, answer); }
      case Elsewhere(edit) => if Foreign(m.budget, edit) { ElsewhereOrderly(m, edit); }
      case Crash =>
    }
  }

  // ----- the edit an event makes -------------------------------------------------------------

  lemma ReserveCallBudget(m: Machine, prompt: nat)
    requires m.pc.Reserving?
    ensures DoReserveCall(m, prompt).budget ==
              Reserve(m.budget, ModelReservation(Id(m.graph.step + 1, m.pc.retry), Id(m.graph.step + 1, false),
                                                 prompt, m.pc.terminal)).0
  {
  }

  /** The change of the model's own bookkeeping from one budget to the other. */
  function NoteOf(b: Budget): (e: SamplingEdit) {
    DoNote(b.modes, b.correctionFor, b.diagnosisCorrectionFor)
  }

  /** The edit that the event makes. */
  ghost function EditOf(m: Machine, e: Event): (edit: Option<SamplingEdit>) {
    var n := m.graph.step + 1;
    match e
    case ChooseMode =>
      if m.pc.ChoosingMode? then Some(NoteOf(TerminalMode(m.budget, Id(n, m.pc.retry), m.pc.terminal).0)) else None
    case ReserveCall(prompt) =>
      if m.pc.Reserving?
      then Some(DoOther(DoReserve(ModelReservation(Id(n, m.pc.retry), Id(n, false), prompt, m.pc.terminal))))
      else None
    case Save(elapsed, tokens) =>
      if m.pc.Saving? then Some(DoOther(DoSettle(m.pc.ticket, elapsed, tokens, ModelAnswer(m.pc.reply)))) else None
    case Correct =>
      if m.pc.Correcting? then Some(NoteOf(Correction(m.budget, Id(n, false), m.pc.diagnosis).0)) else None
    case Schedule(f, answers, now) =>
      if m.fetch.Scheduling? && InCollect(m, m.fetch.index)
      then Some(ScheduleEdit(m, m.fetch.index, f, answers, now)) else None
    case FetchNext(f, _) =>
      if m.fetch.Fetching? && InCollect(m, m.fetch.index) && ReadId(m, m.fetch.index) in m.budget.grants
      then Some(FetchEdit(m, m.fetch.index, f)) else None
    case ToolReturns(elapsed, failed, at, _) =>
      if m.fetch.Awaiting? then Some(DoOther(DoSettle(m.fetch.ticket, elapsed, None, ToolAnswer(failed, at)))) else None
    case Respond(answer) =>
      if m.graph.phase.WaitingUser? && answer.questionId == |m.graph.asked| then Some(DoAnswer(answer)) else None
    case Elsewhere(edit) => if Foreign(m.budget, edit) then Some(DoOther(edit)) else None
    case _ => None
  }

  ghost function Applied(b: Budget, edit: Option<SamplingEdit>): (b': Budget) {
    if edit.Some? then Sampled(b, edit.value) else b
  }

  lemma ModeIsNote(m: Machine)
    ensures Next(m, ChooseMode).budget == Applied(m.budget, EditOf(m, ChooseMode))
  {
  }

  lemma CorrectionIsNote(m: Machine)
    ensures Next(m, Correct).budget == Applied(m.budget, EditOf(m, Correct))
  {
  }

  lemma NotesAreEdits(m: Machine, e: Event)
    requires e.ChooseMode? || e.Correct?
    ensures Next(m, e).budget == Applied(m.budget, EditOf(m, e))
  {
    hide Next, EditOf, Applied;
    if e.ChooseMode? { ModeIsNote(m); } else { CorrectionIsNote(m); }
  }

  lemma ModelCallsAreEdits(m: Machine, e: Event)
    requires e.ReserveCall? || e.Save?
    ensures Next(m, e).budget == Applied(m.budget, EditOf(m, e))
  {
    if e.ReserveCall? && m.pc.Reserving? { ReserveCallBudget(m, e.prompt); }
  }

  lemma ScheduleIsEdit(m: Machine, e: Event)
    requires e.Schedule?
    ensures Next(m, e).budget == Applied(m.budget, EditOf(m, e))
  {
    if m.fetch.Scheduling? && InCollect(m, m.fetch.index) {
      ScheduleIs(m, m.fetch.index, e.fingerprint, e.answers, e.now,
                 ScheduleEdit(m, m.fetch.index, e.fingerprint, e.answers, e.now));
    }
  }

  lemma FetchIsEdit(m: Machine, e: Event)
    requires e.FetchNext?
    ensures Next(m, e).budget == Applied(m.budget, EditOf(m, e))
  {
    if m.fetch.Fetching? && InCollect(m, m.fetch.index) && ReadId(m, m.fetch.index) in m.budget.grants {
      var i := m.fetch.index;
      var ask := m.graph.pending[i];
      var (b, r) := CallTool(m.budget, ReadId(m, i), e.fingerprint, ask.request, ask.query,
                             m.budget.grants[ReadId(m, i)].1);
      FetchIs(m, i, e.fingerprint, e.changed, b, r);
    }
  }

  lemma AnswersAreEdits(m: Machine, e: Event)
    requires e.ToolReturns? || e.Respond? || e.Elsewhere?
    ensures Next(m, e).budget == Applied(m.budget, EditOf(m, e))
  {
  }

  lemma OthersEditNothing(m: Machine, e: Event)
    requires e.Enter? || e.FailContext? || e.Invoke? || e.Reread? || e.Conclusion? || e.EnterCollect? || e.Crash?
    ensures Next(m, e).budget == Applied(m.budget, EditOf(m, e))
  {
  }

  lemma EventIsEdit(m: Machine, e: Event)
    ensures Next(m, e).budget == Applied(m.budget, EditOf(m, e))
  {
    hide Next, Applied, EditOf;
    if e.ChooseMode? || e.Correct? { NotesAreEdits(m, e); }
    else if e.ReserveCall? || e.Save? { ModelCallsAreEdits(m, e); }
    else if e.Schedule? { ScheduleIsEdit(m, e); }
    else if e.FetchNext? { FetchIsEdit(m, e); }
    else if e.ToolReturns? || e.Respond? || e.Elsewhere? { AnswersAreEdits(m, e); }
    else { OthersEditNothing(m, e); }
  }

  lemma NextBudgetOk(m: Machine, e: Event)
    requires BudgetOk(m.budget)
    ensures BudgetOk(Next(m, e).budget)
  {
    hide BudgetOk, Next, EditOf, Sampled;
    EventIsEdit(m, e);
    if EditOf(m, e).Some? { SampledBudgetOk(m.budget, EditOf(m, e).value); }
  }

  // ----- readings belong to accepted decisions -----------------------------------------------

  ghost predicate SameReads(b: Budget, b': Budget) {
    && b'.grants.Keys == b.grants.Keys
    && forall id: RequestId :: id.ReadRequest? ==> (id in b'.requests <==> id in b.requests)
  }

  ghost predicate OneMoreRead(b: Budget, b': Budget, extra: RequestId) {
    && b'.grants.Keys <= b.grants.Keys + {extra}
    && forall id: RequestId :: id.ReadRequest? && id in b'.requests ==> id in b.requests || id == extra
  }

  lemma SameReadsKeeps(m: Machine, m': Machine)
    requires ReadsOk(m) && SameReads(m.budget, m'.budget) && m'.collected == m.collected
             && m.graph.step <= m'.graph.step
    requires m'.graph.phase.Collecting? ==>
               m'.graph.step == m.graph.step && m'.graph.pending == m.graph.pending && m.graph.phase.Collecting?
    ensures ReadsOk(m')
  {
  }

  lemma OneMoreReadKeeps(m: Machine, m': Machine, index: nat)
    requires ReadsOk(m) && InCollect(m, index) && OneMoreRead(m.budget, m'.budget, ReadId(m, index))
    requires m'.collected == m.collected && m'.graph.step == m.graph.step && m'.graph.pending == m.graph.pending
    ensures ReadsOk(m')
  {
  }

  lemma ReserveOtherReads(b: Budget, r: Reservation)
    requires r.request.Some? ==> !r.request.value.0.ReadRequest?
    ensures SameReads(b, Reserve(b, r).0)
  {
  }

  lemma EditedReads(b: Budget, e: Edit)
    requires Foreign(b, e)
    ensures SameReads(b, Edited(b, e))
  {
    if e.DoReserve? { ReserveOtherReads(b, e.reservation); }
  }

  lemma AuthorizeReads(b: Budget, id: RequestId, f: nat, request: ToolRequest, query: nat, reason: Option<Reason>,
                       answers: seq<HumanAnswer>, now: real)
    ensures OneMoreRead(b, Authorize(b, id, f, request, query, reason, answers, now).0, id)
  {
  }

  lemma CallToolReads(b: Budget, id: RequestId, f: nat, request: ToolRequest, query: nat, sampling: SampleGrant)
    ensures OneMoreRead(b, CallTool(b, id, f, request, query, sampling).0, id)
  {
  }

  lemma ScheduleReadsOk(m: Machine, index: nat, f: nat, answers: seq<HumanAnswer>, now: real)
    requires ReadsOk(m) && InCollect(m, index)
    ensures ReadsOk(DoSchedule(m, index, f, answers, now))
  {
    var ask := m.graph.pending[index];
    var (b, r) := Authorize(m.budget, ReadId(m, index), f, ask.request, ask.query, m.graph.reason, answers, now);
    AuthorizeReads(m.budget, ReadId(m, index), f, ask.request, ask.query, m.graph.reason, answers, now);
    assert DoSchedule(m, index, f, answers, now) == WithAuthorisation(m, index, b, r);
    OneMoreReadKeeps(m, WithAuthorisation(m, index, b, r), index);
  }

  lemma FetchReadsOk(m: Machine, index: nat, f: nat, changed: bool)
    requires ReadsOk(m) && InCollect(m, index)
    ensures ReadsOk(DoFetch(m, index, f, changed))
  {
    if ReadId(m, index) in m.budget.grants {
      var ask := m.graph.pending[index];
      var sampling := m.budget.grants[ReadId(m, index)].1;
      var (b, r) := CallTool(m.budget, ReadId(m, index), f, ask.request, ask.query, sampling);
      CallToolReads(m.budget, ReadId(m, index), f, ask.request, ask.query, sampling);
      FetchIs(m, index, f, changed, b, r);
      OneMoreReadKeeps(m, WithReading(m, index, b, r, changed), index);
    }
  }

  lemma AdvanceReadsOk(m: Machine, action: Action)
    requires ReadsOk(m) && (action.Collect? ==> m.graph.step + 1 < LAST_STEP)
    ensures ReadsOk(Advance(m, action))
  {
  }

  lemma ConclusionReadsOk(m: Machine, flaw: Flaw)
    requires Orderly(m) && ReadsOk(m) && m.pc.Judging?
    ensures ReadsOk(DoConclusion(m, flaw))
  {
    if m.pc.reply.Decided?
        && Judge(m.pc.reply.action, m.pc.terminal, m.graph.asked, m.graph.answers > 0, flaw).Accepted? {
      AdvanceReadsOk(m, m.pc.reply.action);
    }
  }

  lemma ReserveCallReadsOk(m: Machine, prompt: nat)
    requires ReadsOk(m) && m.pc.Reserving? && m.graph.phase.Investigating?
    ensures ReadsOk(DoReserveCall(m, prompt))
  {
    var r := ModelReservation(Id(m.graph.step + 1, m.pc.retry), Id(m.graph.step + 1, false), prompt, m.pc.terminal);
    ReserveOtherReads(m.budget, r);
    ReserveCallIs(m, prompt, r);
    SameReadsKeeps(m, DoReserveCall(m, prompt));
  }

  lemma QuietGraph(m: Machine, e: Event)
    requires !e.Conclusion? && !e.Schedule? && !e.FetchNext?
    ensures Next(m, e).collected == m.collected && m.graph.step <= Next(m, e).graph.step
    ensures Next(m, e).graph.phase.Collecting? ==>
              Next(m, e).graph.step == m.graph.step && Next(m, e).graph.pending == m.graph.pending
              && m.graph.phase.Collecting?
  {
    hide TerminalMode, Correction, Reserve, Settle, AcceptAnswer, Edited;
  }

  lemma EditReads(b: Budget, e: SamplingEdit)
    requires !e.DoAuthorize? && !e.DoRead? && (e.DoOther? ==> Foreign(b, e.edit))
    ensures SameReads(b, Sampled(b, e))
  {
    if e.DoOther? { EditedReads(b, e.edit); }
  }

  lemma QuietReads(m: Machine, e: Event)
    requires e.ChooseMode? || e.Correct? || e.Respond? || e.Elsewhere?
    ensures SameReads(m.budget, Next(m, e).budget)
  {
    hide Next, Sampled, TerminalMode, Correction;
    EventIsEdit(m, e);
    if EditOf(m, e).Some? { EditReads(m.budget, EditOf(m, e).value); }
  }

  lemma SettledReads(m: Machine, e: Event)
    requires e.Save? || e.ToolReturns?
    ensures SameReads(m.budget, Next(m, e).budget)
  {
  }

  lemma PlainReads(m: Machine, e: Event)
    requires e.Enter? || e.FailContext? || e.Invoke? || e.Reread? || e.EnterCollect? || e.Crash?
    ensures SameReads(m.budget, Next(m, e).budget)
  {
  }

  /** Events that neither authorise nor reserve a reading nor decide to collect. */
  lemma QuietReadsOk(m: Machine, e: Event)
    requires ReadsOk(m) && !e.ReserveCall? && !e.Conclusion? && !e.Schedule? && !e.FetchNext?
    ensures ReadsOk(Next(m, e))
  {
    hide Next, SameReads, ReadsOk;
    QuietGraph(m, e);
    if e.ChooseMode? || e.Correct? || e.Respond? || e.Elsewhere? { QuietReads(m, e); }
    else if e.Save? || e.ToolReturns? { SettledReads(m, e); }
    else { PlainReads(m, e); }
    SameReadsKeeps(m, Next(m, e));
  }

  lemma NextReadsOk(m: Machine, e: Event)
    requires Orderly(m) && ReadsOk(m)
    ensures ReadsOk(Next(m, e))
  {
    match e
    case ReserveCall(prompt) => if m.pc.Reserving? { ReserveCallReadsOk(m, prompt); }
    case Conclusion(flaw) => if m.pc.Judging? { ConclusionReadsOk(m, flaw); }
    case Schedule(f, answers, now) =>
      if m.fetch.Scheduling? && InCollect(m, m.fetch.index) { ScheduleReadsOk(m, m.fetch.index, f, answers, now); }
    case FetchNext(f, changed) =>
      if m.fetch.Fetching? && InCollect(m, m.fetch.index) { FetchReadsOk(m, m.fetch.index, f, changed); }
    case _ => QuietReadsOk(m, e);
  }

  lemma {:induction false} AlwaysMachineOk(m: Machine, events: seq<Event>)
    requires MachineOk(m)
    ensures MachineOk(AfterEvents(m, events))
    decreases |events|
  {
    if events != [] {
      AlwaysMachineOk(m, events[..|events| - 1]);
      NextOrderly(AfterEvents(m, events[..|events| - 1]), events[|events| - 1]);
      NextBudgetOk(AfterEvents(m, events[..|events| - 1]), events[|events| - 1]);
      NextReadsOk(AfterEvents(m, events[..|events| - 1]), events[|events| - 1]);
    }
  }
}
