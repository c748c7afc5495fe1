/** Which decisions of the model an investigation accepts, and what becomes of the others. */
module DecisionTheorems {
  import opened Wrappers
  import opened Budget
  import opened Resampling
  import opened Investigation
  import opened InvestigationProofs

  // ----- one decision ------------------------------------------------------------------------

  /** What the checks found has no bearing on a decision of this kind. */
  predicate Flawless(action: Action, flaw: Flaw) {
    match flaw
    case NoFlaw => true
    case BoundaryFlaw => !action.Collect?
    case RejectedAssessment(_) => action.Collect? || action.AskUser? || action.StopInvestigating?
    case OtherFlaw => false
  }

  /** After a human answer nothing may be called healthy and nothing may be written. */
  predicate FitsAnswers(action: Action, answers: nat) {
    answers > 0 ==> !action.ProposePlan? && (action.Conclude? ==> !action.noFault)
  }

  predicate NewQuestion(action: Action, asked: seq<Slot>) {
    action.AskUser? ==> action.slot.Some? && |asked| < 2 && forall s <- asked :: s != action.slot.value
  }

  predicate Sound(action: Action, terminal: bool, asked: seq<Slot>, answers: nat, flaw: Flaw) {
    && Flawless(action, flaw)
    && (terminal ==> action.Conclude? || action.StopInvestigating?)
    && NewQuestion(action, asked)
    && FitsAnswers(action, answers)
  }

  /** The decision crosses the boundary of what may be read at all. */
  predicate Crosses(action: Action, flaw: Flaw) {
    action.Collect? && flaw.BoundaryFlaw?
  }

  predicate AtDecision(m: Machine) {
    m.pc.Judging? && m.pc.reply.Decided?
  }

  predicate SoundAt(m: Machine, flaw: Flaw)
    requires AtDecision(m)
  {
    Sound(m.pc.reply.action, m.pc.terminal, m.graph.asked, m.graph.answers, flaw)
  }

  function PhaseAfter(action: Action): (p: Phase) {
    if action.Collect? then Collecting else if action.AskUser? then WaitingUser else Finished
  }

  /** A decision counts exactly when it is sound, and then it decides how the investigation goes on. */
  lemma AcceptedExactly(m: Machine, flaw: Flaw)
    requires AtDecision(m)
    ensures var m' := Next(m, Conclusion(flaw)); var action := m.pc.reply.action;
            && m'.graph.step == m.graph.step + (if SoundAt(m, flaw) then 1 else 0)
            && m'.budget == m.budget && m'.invoked == m.invoked && m'.graph.answers == m.graph.answers
            && (SoundAt(m, flaw) ==>
                  && m'.graph.phase == PhaseAfter(action) && m'.pc.Idle?
                  && m'.graph.asked == m.graph.asked + (if action.AskUser? then [action.slot.value] else [])
                  && (action.Collect? ==> m'.graph.pending == action.requests && m'.graph.reason == action.reason))
            && (!SoundAt(m, flaw) ==> m'.graph.asked == m.graph.asked)
  {
  }

  // ----- rejected attempts -------------------------------------------------------------------

  /** The correction slot this rejection may use is not taken by another step; repairing a rejected diagnosis also
      needs room for one more call. */
  predicate SlotFree(b: Budget, id: RequestId, diagnosis: bool) {
    if diagnosis then
      || b.diagnosisCorrectionFor == Some(id)
      || (&& b.diagnosisCorrectionFor.None? && ModelCalls(b.calls) < b.policy.modelAttempts
          && !ExceedsReal(b.seconds + CALL_SECONDS, b.policy.activeSeconds)
          && !ExceedsInt(b.tokens + CALL_TOKENS, b.policy.totalTokens))
    else
      b.correctionFor == None || b.correctionFor == Some(id)
  }

  /** A conclusion whose assessment alone was rejected is repaired as a diagnosis. */
  predicate RepairsDiagnosis(action: Action, flaw: Flaw) {
    action.Conclude? && flaw == RejectedAssessment(false)
  }

  /** The first attempt of a step, saved, is not acceptable and may be corrected. */
  predicate FirstFailure(m: Machine, flaw: Flaw) {
    && m.pc.Judging? && !m.pc.retry
    && match m.pc.reply
       case ProviderFailed => false
       case Unparsable(boundary) => !boundary
       case Decided(action) => !SoundAt(m, flaw) && !Crosses(action, flaw)
  }

  predicate Repairs(m: Machine, flaw: Flaw)
    requires m.pc.Judging?
  {
    m.pc.reply.Decided? && RepairsDiagnosis(m.pc.reply.action, flaw)
  }

  predicate EndedUndecided(m: Machine, m': Machine) {
    m'.graph == m.graph.(phase := Finished, decides := m.graph.decides + 1) && m'.pc.Idle? && m'.fetch == m.fetch
    && m'.invoked == m.invoked && m'.collected == m.collected
  }

  lemma FailureIsCorrectable(m: Machine, flaw: Flaw)
    requires FirstFailure(m, flaw)
    ensures Next(m, Conclusion(flaw)) == m.(pc := Correcting(false, m.pc.terminal, Repairs(m, flaw)))
  {
  }

  lemma CorrectionExactly(m: Machine)
    requires m.pc.Correcting?
    ensures var id, m' := Id(m.graph.step + 1, false), Next(m, Correct);
            if SlotFree(m.budget, id, m.pc.diagnosis) then
              && m'.pc == ChoosingMode(true, m.pc.terminal || m.pc.diagnosis)
              && m' == m.(pc := m'.pc, budget := m'.budget)
              && m'.budget == (if m.pc.diagnosis then m.budget.(diagnosisCorrectionFor := Some(id))
                               else m.budget.(correctionFor := Some(id)))
            else
              m'.budget == m.budget && EndedUndecided(m, m')
  {
  }

  /** The first failure of a step gets its one correction exactly when its slot is free; a rejected diagnosis may
      then only be repaired, not investigated further. Without a slot the investigation ends undecided. */
  lemma FirstFailureIsCorrected(m: Machine, flaw: Flaw)
    requires FirstFailure(m, flaw)
    ensures var id, m' := Id(m.graph.step + 1, false), AfterEvents(m, [Conclusion(flaw), Correct]);
            if SlotFree(m.budget, id, Repairs(m, flaw)) then
              && m'.graph == m.graph && m'.invoked == m.invoked
              && m'.pc == ChoosingMode(true, m.pc.terminal || Repairs(m, flaw))
              && m'.budget == (if Repairs(m, flaw) then m.budget.(diagnosisCorrectionFor := Some(id))
                               else m.budget.(correctionFor := Some(id)))
            else
              m'.budget == m.budget && EndedUndecided(m, m')
  {
    hide Next, SlotFree, Repairs, SoundAt;
    var events := [Conclusion(flaw), Correct];
    assert events[..1] == [Conclusion(flaw)] && events[..1][..0] == [];
    assert AfterEvents(m, events[..1]) == Next(m, Conclusion(flaw));
    FailureIsCorrectable(m, flaw);
    CorrectionExactly(Next(m, Conclusion(flaw)));
  }

  /** Nothing follows a second failure, a crossed boundary or a failed call: the investigation ends undecided. */
  lemma LastFailureEnds(m: Machine, flaw: Flaw)
    requires m.pc.Judging? && !FirstFailure(m, flaw) && !(m.pc.reply.Decided? && SoundAt(m, flaw))
    ensures m.pc.retry || m.pc.reply == ProviderFailed || m.pc.reply == Unparsable(true)
            || (m.pc.reply.Decided? && Crosses(m.pc.reply.action, flaw))
    ensures Next(m, Conclusion(flaw)).budget == m.budget && EndedUndecided(m, Next(m, Conclusion(flaw)))
  {
  }

  // ----- the record of a run -----------------------------------------------------------------

  /** A decision that was counted, with the mode and what the checks had found, or an accepted human answer. */
  datatype Entry = Made(action: Action, terminal: bool, flaw: Flaw) | Answered(skip: bool)

  /** What the event adds: a decision when it moved the step on, an answer when it was taken. */
  function EntryOf(m: Machine, e: Event): (entry: Option<Entry>) {
    if e.Conclusion? && AtDecision(m) && Next(m, e).graph.step != m.graph.step
    then Some(Made(m.pc.reply.action, m.pc.terminal, e.flaw))
    else if e.Respond? && Next(m, e).graph.answers != m.graph.answers then Some(Answered(e.answer.skip))
    else None
  }

  function Record(m: Machine, events: seq<Event>): (entries: seq<Entry>)
    decreases |events|
  {
    if events == [] then []
    else
      var before := events[..|events| - 1];
      var entry := EntryOf(AfterEvents(m, before), events[|events| - 1]);
      Record(m, before) + (if entry.Some? then [entry.value] else [])
  }

  function Steps(entries: seq<Entry>): (n: nat) {
    if entries == [] then 0
    else Steps(entries[..|entries| - 1]) + (if entries[|entries| - 1].Made? then 1 else 0)
  }

  function Questions(entries: seq<Entry>): (slots: seq<Slot>) {
    if entries == [] then []
    else
      var last := entries[|entries| - 1];
      Questions(entries[..|entries| - 1])
      + (if last.Made? && last.action.AskUser? && last.action.slot.Some? then [last.action.slot.value] else [])
  }

  function Answers(entries: seq<Entry>): (n: nat) {
    if entries == [] then 0
    else Answers(entries[..|entries| - 1]) + (if entries[|entries| - 1].Answered? then 1 else 0)
  }

  /** The investigation goes on after it: observations were collected, or a question was answered. */
  predicate GoesOn(entry: Entry) {
    match entry
    case Made(action, _, _) => action.Collect?
    case Answered(skip) => !skip
  }

  predicate Waits(entry: Entry) {
    entry.Made? && entry.action.AskUser?
  }

  /** The entry is sound given everything before it, and it was due. */
  predicate Justified(before: seq<Entry>, entry: Entry) {
    match entry
    case Made(action, terminal, flaw) =>
      && Sound(action, terminal, Questions(before), Answers(before), flaw)
      && (Steps(before) >= 5 ==> action.Conclude? || action.StopInvestigating?)
      && (before == [] || GoesOn(before[|before| - 1]))
    case Answered(_) => before != [] && Waits(before[|before| - 1])
  }

  ghost predicate AllJustified(entries: seq<Entry>) {
    forall k :: 0 <= k < |entries| ==> Justified(entries[..k], entries[k])
  }

  /** The phase says what the last entry was. */
  predicate PhaseFits(phase: Phase, entries: seq<Entry>) {
    match phase
    case Investigating => entries == [] || GoesOn(entries[|entries| - 1])
    case Collecting => entries != [] && GoesOn(entries[|entries| - 1])
    case WaitingUser => entries != [] && Waits(entries[|entries| - 1])
    case Finished => true
  }

  predicate Recorded(m: Machine, entries: seq<Entry>) {
    && m.graph.step == Steps(entries) && m.graph.asked == Questions(entries) && m.graph.answers == Answers(entries)
    && PhaseFits(m.graph.phase, entries)
  }

  /** Only a counted decision or an accepted answer changes what the record tells. */
  predicate SameRecord(g: Graph, g': Graph) {
    && g'.step == g.step && g'.asked == g.asked && g'.answers == g.answers
    && (g'.phase == g.phase || g'.phase.Finished? || (g.phase.Collecting? && g'.phase.Investigating?))
  }

  lemma OthersKeepRecord(m: Machine, e: Event)
    requires Orderly(m) && !e.Conclusion? && !e.Respond?
    ensures SameRecord(m.graph, Next(m, e).graph)
  {
    hide TerminalMode, Correction, Reserve, Settle, AcceptAnswer, Edited, Authorize, CallTool, StepOk, CorrectionsOk;
  }

  lemma AppendEntry(entries: seq<Entry>, entry: Entry)
    requires AllJustified(entries) && Justified(entries, entry)
    ensures AllJustified(entries + [entry])
    ensures Steps(entries + [entry]) == Steps(entries) + (if entry.Made? then 1 else 0)
    ensures Answers(entries + [entry]) == Answers(entries) + (if entry.Answered? then 1 else 0)
    ensures Questions(entries + [entry]) == Questions(entries)
              + (if entry.Made? && entry.action.AskUser? && entry.action.slot.Some? then [entry.action.slot.value]
                 else [])
  {
    hide Justified;
    var all := entries + [entry];
    assert all[..|entries|] == entries;
    forall k | 0 <= k < |all| ensures Justified(all[..k], all[k]) {
      assert all[..k] == entries[..k] || k == |entries|;
    }
  }

  lemma LastStepIsTerminal(m: Machine)
    requires Orderly(m) && m.pc.Judging? && m.graph.step >= 5
    ensures m.pc.terminal
  {
    hide ModelCalls, PendingOk, CorrectionsOk, InvokedOk, FetchOk, HasSlot;
  }

  lemma ConclusionIsJustified(m: Machine, flaw: Flaw, entries: seq<Entry>)
    requires Orderly(m) && AtDecision(m) && Recorded(m, entries) && SoundAt(m, flaw)
    ensures Justified(entries, Made(m.pc.reply.action, m.pc.terminal, flaw))
  {
    if m.graph.step >= 5 { LastStepIsTerminal(m); }
    hide StepOk, PcOk, CorrectionsOk, InvokedOk, FetchOk, GraphOk, NewQuestion, Flawless, FitsAnswers;
  }

  lemma ConclusionEntry(m: Machine, flaw: Flaw)
    requires AtDecision(m) && SoundAt(m, flaw)
    ensures EntryOf(m, Conclusion(flaw)) == Some(Made(m.pc.reply.action, m.pc.terminal, flaw))
    ensures m.pc.reply.action.AskUser? ==> m.pc.reply.action.slot.Some?
  {
    AcceptedExactly(m, flaw);
    hide Next;
  }

  lemma ConclusionIsRecorded(m: Machine, flaw: Flaw, entries: seq<Entry>)
    requires Orderly(m) && AtDecision(m) && Recorded(m, entries) && AllJustified(entries)
    requires SoundAt(m, flaw)
    ensures var entry := Made(m.pc.reply.action, m.pc.terminal, flaw);
            AllJustified(entries + [entry]) && Recorded(Next(m, Conclusion(flaw)), entries + [entry])
            && EntryOf(m, Conclusion(flaw)) == Some(entry)
  {
    hide Next, Orderly, Justified, AllJustified, SoundAt, EntryOf, Steps, Questions, Answers;
    AcceptedExactly(m, flaw);
    ConclusionIsJustified(m, flaw, entries);
    ConclusionEntry(m, flaw);
    AppendEntry(entries, Made(m.pc.reply.action, m.pc.terminal, flaw));
  }

  lemma RejectionIsNotRecorded(m: Machine, flaw: Flaw)
    requires !(AtDecision(m) && SoundAt(m, flaw))
    ensures SameRecord(m.graph, Next(m, Conclusion(flaw)).graph) && EntryOf(m, Conclusion(flaw)).None?
  {
  }

  /** An answer to the open question is taken exactly when the boundary accepts it; a skip ends the investigation,
      anything else resumes it. */
  lemma AnswerExactly(m: Machine, answer: HumanAnswer)
    requires m.graph.phase.WaitingUser?
    ensures var m' := Next(m, Respond(answer)); var saved := AcceptAnswer(m.budget, answer).1;
            if answer.questionId == |m.graph.asked| && saved.Some? then
              && saved.value == answer.(acceptedAt := saved.value.acceptedAt)
              && m' == m.(budget := m'.budget,
                          graph := m.graph.(answers := m.graph.answers + 1,
                                            phase := if answer.skip then Finished else Investigating))
              && answer.questionId in m'.budget.receipts && m'.budget.receipts[answer.questionId] == saved.value
            else m' == m
  {
  }

  lemma AnswerIsRecorded(m: Machine, answer: HumanAnswer, entries: seq<Entry>)
    requires Recorded(m, entries) && AllJustified(entries)
    requires Next(m, Respond(answer)).graph.answers != m.graph.answers
    ensures AllJustified(entries + [Answered(answer.skip)])
    ensures Recorded(Next(m, Respond(answer)), entries + [Answered(answer.skip)])
  {
    AnswerExactly(m, answer);
    hide Next, AcceptAnswer, AllJustified;
    assert Justified(entries, Answered(answer.skip));
    AppendEntry(entries, Answered(answer.skip));
  }

  lemma EventIsRecorded(m: Machine, e: Event, entries: seq<Entry>)
    requires Orderly(m) && Recorded(m, entries) && AllJustified(entries)
    ensures var all := entries + (if EntryOf(m, e).Some? then [EntryOf(m, e).value] else []);
            Recorded(Next(m, e), all) && AllJustified(all)
  {
    hide Next, Orderly, AllJustified, SoundAt;
    assert entries + [] == entries;
    if e.Conclusion? {
      if AtDecision(m) && SoundAt(m, e.flaw) { ConclusionIsRecorded(m, e.flaw, entries); }
      else { RejectionIsNotRecorded(m, e.flaw); }
    } else if e.Respond? {
      if Next(m, e).graph.answers != m.graph.answers { AnswerIsRecorded(m, e.answer, entries); }
      else { QuietAnswer(m, e.answer); }
    } else {
      OthersKeepRecord(m, e);
    }
  }

  lemma QuietAnswer(m: Machine, answer: HumanAnswer)
    requires Next(m, Respond(answer)).graph.answers == m.graph.answers
    ensures Next(m, Respond(answer)).graph == m.graph
  {
  }

  lemma EmptyRecord()
    ensures AllJustified([]) && Recorded(START, [])
  {
  }

  /** Whatever the model, the tools, the user and the crashes do: the steps, questions and answers of the checkpoint
      are those of the record of the run, every counted decision was sound given all that was recorded before it,
      the sixth ends, and a decision or answer is only recorded where the record before it leads on. */
  lemma {:induction false} DecisionsAreSound(events: seq<Event>)
    ensures var entries := Record(START, events);
            Recorded(AfterEvents(START, events), entries) && AllJustified(entries)
    decreases |events|
  {
    hide Next, EntryOf, AllJustified, Orderly;
    if events == [] {
      EmptyRecord();
    } else {
      var before := events[..|events| - 1];
      DecisionsAreSound(before);
      StartOk();
      AlwaysMachineOk(START, before);
      EventIsRecorded(AfterEvents(START, before), events[|events| - 1], Record(START, before));
    }
  }

  /** No plan is proposed and nothing is called healthy after a human answer, in any run. */
  lemma NothingHealthyAfterAnswer(events: seq<Event>, i: nat, j: nat)
    requires var entries := Record(START, events);
             i < j < |entries| && entries[i].Answered? && entries[j].Made?
    ensures var action := Record(START, events)[j].action;
            !action.ProposePlan? && (action.Conclude? ==> !action.noFault)
  {
    var entries := Record(START, events);
    DecisionsAreSound(events);
    assert Justified(entries[..j], entries[j]);
    SomeAnswer(entries[..j], i);
  }

  lemma {:induction false} SomeAnswer(entries: seq<Entry>, i: nat)
    requires i < |entries| && entries[i].Answered?
    ensures Answers(entries) > 0
    decreases |entries|
  {
    if i < |entries| - 1 { SomeAnswer(entries[..|entries| - 1], i); }
  }

  // ----- one attempt -------------------------------------------------------------------------

  lemma OneMore(m: Machine, events: seq<Event>, e: Event)
    ensures AfterEvents(m, events + [e]) == Next(AfterEvents(m, events), e)
  {
    assert (events + [e])[..|events|] == events;
  }

  /** A new attempt must end when the node says so or at most one call is left. */
  function NewMode(m: Machine): (terminal: bool)
    requires m.pc.ChoosingMode?
  {
    m.pc.terminal || ModelCalls(m.budget.calls) >= 5
  }

  /** At most six calls and, but for terminal calls, at most five decisions. */
  predicate MayCall(m: Machine)
    requires m.pc.ChoosingMode?
  {
    && ModelCalls(m.budget.calls) < 6
    && (NewMode(m) || Id(m.graph.step + 1, false) in m.budget.decisions || |m.budget.decisions| < 5)
  }

  predicate NewAttempt(m: Machine) {
    && m.pc.ChoosingMode? && m.budget.policy == POLICY
    && Id(m.graph.step + 1, m.pc.retry) !in m.budget.modes && Id(m.graph.step + 1, m.pc.retry) !in m.budget.requests
  }

  lemma NewModeIsChosen(m: Machine)
    requires NewAttempt(m)
    ensures var m' := Next(m, ChooseMode);
            && m'.pc == Reserving(m.pc.retry, NewMode(m))
            && m' == m.(pc := m'.pc, budget := m.budget.(modes := m'.budget.modes))
            && m'.budget.modes == m.budget.modes[Id(m.graph.step + 1, m.pc.retry) := NewMode(m)]
  {
  }

  /** A call that was made for the request and not settled yet is the last one of the budget. */
  predicate Opened(b: Budget, b': Budget, id: RequestId, prompt: nat) {
    && |b'.calls| == |b.calls| + 1 && b'.modes == b.modes && b'.policy == b.policy
    && id in b'.requests && b'.requests[id] == |b.calls|
    && b'.calls[|b.calls|].request == Some((id, prompt)) && b'.calls[|b.calls|].settled.None?
  }

  lemma CallIsReserved(m: Machine, prompt: nat)
    requires m.pc.Reserving? && m.budget.policy == POLICY && Id(m.graph.step + 1, m.pc.retry) !in m.budget.requests
    ensures var m', n := Next(m, ReserveCall(prompt)), m.graph.step + 1;
            if ModelCalls(m.budget.calls) < 6
               && (m.pc.terminal || Id(n, false) in m.budget.decisions || |m.budget.decisions| < 5) then
              && m'.pc == Invoking(m.pc.retry, m.pc.terminal, |m.budget.calls|)
              && m' == m.(pc := m'.pc, budget := m'.budget)
              && Opened(m.budget, m'.budget, Id(n, m.pc.retry), prompt)
            else EndedUndecided(m, m')
  {
  }

  /** The reply of a request is on record. */
  predicate Saved(b: Budget, id: RequestId, prompt: nat, reply: Reply) {
    && id in b.requests && b.requests[id] < |b.calls|
    && b.calls[b.requests[id]].request == Some((id, prompt))
    && b.calls[b.requests[id]].settled.Some? && b.calls[b.requests[id]].settled.value.answer == ModelAnswer(reply)
  }

  lemma ReplyIsSaved(m: Machine, elapsed: real, tokens: Option<int>, b: Budget, id: RequestId, prompt: nat)
    requires m.pc.Saving? && Opened(b, m.budget, id, prompt) && m.pc.ticket == |b.calls|
    ensures var m' := Next(m, Save(elapsed, tokens));
            && m'.pc == Judging(m.pc.retry, m.pc.terminal, m.pc.reply)
            && m' == m.(pc := m'.pc, budget := m'.budget) && Saved(m'.budget, id, prompt, m.pc.reply)
            && m'.budget.modes == m.budget.modes
  {
  }

  lemma CallIsMade(m: Machine, reply: Reply)
    requires m.pc.Invoking?
    ensures Next(m, Invoke(reply)) == m.(invoked := m.invoked + [m.pc.terminal],
                                         pc := Saving(m.pc.retry, m.pc.terminal, m.pc.ticket, reply))
  {
  }

  lemma NothingToSave(m: Machine, reply: Reply, elapsed: real, tokens: Option<int>)
    requires m.pc.Idle?
    ensures Next(Next(m, Invoke(reply)), Save(elapsed, tokens)) == m
  {
  }

  /** The events of an attempt that nothing disturbs. */
  function Attempt(prompt: nat, reply: Reply, elapsed: real, tokens: Option<int>): (events: seq<Event>) {
    [ChooseMode, ReserveCall(prompt), Invoke(reply), Save(elapsed, tokens)]
  }

  lemma ThreeEvents(m: Machine, a: Event, b: Event, c: Event)
    ensures AfterEvents(m, [a, b, c]) == Next(Next(Next(m, a), b), c)
  {
    hide Next;
    OneMore(m, [], a);
    OneMore(m, [a], b);
    OneMore(m, [a, b], c);
    assert [] + [a] == [a] && [a] + [b] == [a, b] && [a, b] + [c] == [a, b, c];
  }

  lemma AttemptIs(m: Machine, prompt: nat, reply: Reply, elapsed: real, tokens: Option<int>)
    ensures AfterEvents(m, Attempt(prompt, reply, elapsed, tokens))
            == Next(Next(Next(Next(m, ChooseMode), ReserveCall(prompt)), Invoke(reply)), Save(elapsed, tokens))
  {
    hide Next;
    ThreeEvents(m, ChooseMode, ReserveCall(prompt), Invoke(reply));
    OneMore(m, [ChooseMode, ReserveCall(prompt), Invoke(reply)], Save(elapsed, tokens));
    assert [ChooseMode, ReserveCall(prompt), Invoke(reply)] + [Save(elapsed, tokens)]
        == Attempt(prompt, reply, elapsed, tokens);
  }

  /** A new attempt asks the provider exactly when a call is left for it; then its reply is saved under its request
      and its mode before it is judged. Otherwise the investigation ends undecided without a call. */
  lemma AttemptExactly(m: Machine, prompt: nat, reply: Reply, elapsed: real, tokens: Option<int>)
    requires NewAttempt(m)
    ensures var m', id := AfterEvents(m, Attempt(prompt, reply, elapsed, tokens)), Id(m.graph.step + 1, m.pc.retry);
            if MayCall(m) then
              && m'.pc == Judging(m.pc.retry, NewMode(m), reply) && m'.graph == m.graph
              && m'.invoked == m.invoked + [NewMode(m)]
              && Saved(m'.budget, id, prompt, reply) && id in m'.budget.modes && m'.budget.modes[id] == NewMode(m)
            else EndedUndecided(m, m')
  {
    hide Opened, Saved, ModelCalls, Next;
    AttemptIs(m, prompt, reply, elapsed, tokens);
    NewModeIsChosen(m);
    var reserving := Next(m, ChooseMode);
    CallIsReserved(reserving, prompt);
    var called := Next(reserving, ReserveCall(prompt));
    var saving := Next(called, Invoke(reply));
    if MayCall(m) {
      CallIsMade(called, reply);
      ReplyIsSaved(saving, elapsed, tokens, reserving.budget, Id(m.graph.step + 1, m.pc.retry), prompt);
    } else {
      NothingToSave(called, reply, elapsed, tokens);
    }
  }

  lemma KnownCall(m: Machine, prompt: nat)
    requires m.pc.Reserving? && Id(m.graph.step + 1, m.pc.retry) in m.budget.requests
    ensures var ticket, m' := m.budget.requests[Id(m.graph.step + 1, m.pc.retry)], Next(m, ReserveCall(prompt));
            if ticket < |m.budget.calls|
               && m.budget.calls[ticket].request == Some((Id(m.graph.step + 1, m.pc.retry), prompt))
            then m' == m.(pc := Rereading(m.pc.retry, m.pc.terminal, ticket))
            else m'.budget == m.budget && EndedUndecided(m, m')
  {
  }

  lemma KnownMode(m: Machine)
    requires m.pc.ChoosingMode?
    ensures var m' := Next(m, ChooseMode);
            && m'.pc.Reserving? && m'.pc.retry == m.pc.retry
            && m' == m.(pc := m'.pc, budget := m.budget.(modes := m'.budget.modes))
            && (Id(m.graph.step + 1, m.pc.retry) in m.budget.modes ==>
                  m' == m.(pc := Reserving(m.pc.retry, m.budget.modes[Id(m.graph.step + 1, m.pc.retry)])))
  {
  }

  lemma SavedIsReread(m: Machine)
    requires m.pc.Rereading?
    ensures var ticket, m' := m.pc.ticket, Next(m, Reread);
            if ticket < |m.budget.calls| && m.budget.calls[ticket].settled.Some?
               && m.budget.calls[ticket].settled.value.answer.ModelAnswer?
            then m' == m.(pc := Judging(m.pc.retry, m.pc.terminal,
                                        m.budget.calls[ticket].settled.value.answer.reply))
            else m'.budget == m.budget && EndedUndecided(m, m')
  {
  }

  /** An attempt repeated after a crash takes the saved reply in the saved mode, without another call and without
      touching the budget. */
  lemma ReplayExactly(m: Machine, prompt: nat, reply: Reply)
    requires m.pc.ChoosingMode? && Id(m.graph.step + 1, m.pc.retry) in m.budget.modes
    requires Saved(m.budget, Id(m.graph.step + 1, m.pc.retry), prompt, reply)
    ensures AfterEvents(m, [ChooseMode, ReserveCall(prompt), Reread])
            == m.(pc := Judging(m.pc.retry, m.budget.modes[Id(m.graph.step + 1, m.pc.retry)], reply))
  {
    hide Next;
    ThreeEvents(m, ChooseMode, ReserveCall(prompt), Reread);
    KnownMode(m);
    KnownCall(Next(m, ChooseMode), prompt);
    SavedIsReread(Next(Next(m, ChooseMode), ReserveCall(prompt)));
  }

  /** A call without a saved outcome is never repeated: the investigation ends undecided. */
  lemma LostCallEnds(m: Machine, prompt: nat)
    requires m.pc.ChoosingMode? && Id(m.graph.step + 1, m.pc.retry) in m.budget.requests
    requires var ticket := m.budget.requests[Id(m.graph.step + 1, m.pc.retry)];
             ticket < |m.budget.calls| ==> m.budget.calls[ticket].settled.None?
    ensures EndedUndecided(m, AfterEvents(m, [ChooseMode, ReserveCall(prompt), Reread]))
  {
    hide Next;
    ThreeEvents(m, ChooseMode, ReserveCall(prompt), Reread);
    KnownMode(m);
    KnownCall(Next(m, ChooseMode), prompt);
    var called := Next(Next(m, ChooseMode), ReserveCall(prompt));
    if called.pc.Rereading? { SavedIsReread(called); } else { NothingToReread(called); }
  }

  lemma NothingToReread(m: Machine)
    requires !m.pc.Rereading?
    ensures Next(m, Reread) == m
  {
  }
}
