/** Bounds and termination of the investigation over every sequence of events. */
module InvestigationTheorems {
  import opened Wrappers
  import opened Budget
  import opened Resampling
  import opened Investigation
  import opened InvestigationProofs

  // ----- the bounds --------------------------------------------------------------------------

  ghost function CorrectedCalls(b: Budget): (ids: set<RequestId>) {
    set id | id in b.requests && id.ModelRequest? && id.correction
  }

  lemma AtMostTwoCorrections(b: Budget)
    requires CorrectionsOk(b)
    ensures |CorrectedCalls(b)| <= 2
  {
    var slots: set<RequestId> :=
      (if b.correctionFor.Some? then {b.correctionFor.value} else {})
      + (if b.diagnosisCorrectionFor.Some? then {b.diagnosisCorrectionFor.value} else {});
    var keys := set id | id in CorrectedCalls(b) :: id.(correction := false);
    assert keys <= slots;
    SubsetSize(keys, slots);
    SameSize(CorrectedCalls(b));
  }

  lemma {:induction false} SubsetSize<T>(a: set<T>, b: set<T>)
    requires a <= b
    ensures |a| <= |b|
    decreases b
  {
    if a != {} {
      var x :| x in a;
      SubsetSize(a - {x}, b - {x});
    }
  }

  lemma {:induction false} SameSize(ids: set<RequestId>)
    requires forall id :: id in ids ==> id.ModelRequest? && id.correction
    ensures |set id | id in ids :: id.(correction := false)| == |ids|
    decreases ids
  {
    var keys := set id | id in ids :: id.(correction := false);
    if ids != {} {
      var x :| x in ids;
      SameSize(ids - {x});
      var rest := set id | id in ids - {x} :: id.(correction := false);
      assert x.(correction := false) !in rest;
      assert keys == rest + {x.(correction := false)};
    }
  }

  // ----- readings ----------------------------------------------------------------------------

  /** All requests of the collect decisions up to step n. */
  function Total(collected: map<nat, nat>, n: nat): (t: nat) {
    if n == 0 then 0 else Total(collected, n - 1) + (if n in collected then collected[n] else 0)
  }

  function RequestsOf(step: nat, n: nat): (ids: set<RequestId>)
    ensures forall id :: id in ids <==> id.ReadRequest? && id.step == step && id.index < n
  {
    if n == 0 then {} else RequestsOf(step, n - 1) + {ReadRequest(step, n - 1)}
  }

  lemma {:induction false} RequestsOfSize(step: nat, n: nat)
    ensures |RequestsOf(step, n)| == n
  {
    if n > 0 { RequestsOfSize(step, n - 1); }
  }

  function AllRequests(collected: map<nat, nat>, n: nat): (ids: set<RequestId>)
    ensures forall id :: id in ids <==>
              id.ReadRequest? && 1 <= id.step <= n && id.step in collected && id.index < collected[id.step]
  {
    if n == 0 then {} else AllRequests(collected, n - 1) + (if n in collected then RequestsOf(n, collected[n]) else {})
  }

  lemma UnionSize<T>(a: set<T>, b: set<T>)
    ensures |a + b| <= |a| + |b|
  {
  }

  lemma {:induction false} AllRequestsSize(collected: map<nat, nat>, n: nat)
    ensures |AllRequests(collected, n)| <= Total(collected, n)
  {
    hide RequestsOf;
    if n > 0 {
      AllRequestsSize(collected, n - 1);
      if n in collected {
        RequestsOfSize(n, collected[n]);
        UnionSize(AllRequests(collected, n - 1), RequestsOf(n, collected[n]));
      }
    }
  }

  ghost function Readings(b: Budget): (ids: set<RequestId>) {
    set id | id in b.requests && id.ReadRequest?
  }

  /** Every reading ever reserved is a request of an accepted collect decision, of which there are at most
      five; so there are at most as many readings as those decisions have requests. */
  lemma ReadingsAreBounded(events: seq<Event>)
    ensures var m := AfterEvents(START, events);
            && Readings(m.budget) <= AllRequests(m.collected, 5) && |Readings(m.budget)| <= Total(m.collected, 5)
            && (forall n :: n in m.collected ==> 1 <= n <= 5)
  {
    StartOk();
    AlwaysMachineOk(START, events);
    var m := AfterEvents(START, events);
    AllRequestsSize(m.collected, 5);
    SubsetSize(Readings(m.budget), AllRequests(m.collected, 5));
  }

  /** Whatever the model, the tools, the user and the crashes do: at most six decisions are completed, six
      provider calls made (the sixth in terminal mode), five decisions counted, two questions asked about
      different things, and two attempts corrected. */
  lemma InvestigationIsBounded(events: seq<Event>)
    ensures var m := AfterEvents(START, events);
            && m.graph.decides <= 6 && (m.graph.step == 6 ==> m.graph.phase.Finished?)
            && |m.invoked| <= 6 && (|m.invoked| == 6 ==> m.invoked[5])
            && |m.budget.decisions| <= 5 && Distinct(m.budget.decisions)
            && |m.graph.asked| <= 2 && Distinct(m.graph.asked)
            && |CorrectedCalls(m.budget)| <= 2
  {
    StartOk();
    AlwaysMachineOk(START, events);
    AtMostTwoCorrections(AfterEvents(START, events).budget);
  }

  ghost predicate KeepsSlots(b: Budget, b': Budget) {
    && (b.correctionFor.Some? ==> b'.correctionFor == b.correctionFor)
    && (b.diagnosisCorrectionFor.Some? ==> b'.diagnosisCorrectionFor == b.diagnosisCorrectionFor)
  }

  lemma EditKeepsSlots(b: Budget, e: SamplingEdit)
    requires !e.DoNote?
    ensures KeepsSlots(b, Sampled(b, e))
  {
  }

  lemma NoteKeepsSlots(m: Machine, e: Event)
    requires e.ChooseMode? || e.Correct?
    ensures KeepsSlots(m.budget, Next(m, e).budget)
  {
  }

  /** Each correction slot belongs to one step for good. */
  lemma SlotsStay(m: Machine, e: Event)
    ensures KeepsSlots(m.budget, Next(m, e).budget)
  {
    hide Next, Sampled;
    if e.ChooseMode? || e.Correct? {
      NoteKeepsSlots(m, e);
    } else {
      EventIsEdit(m, e);
      if EditOf(m, e).Some? { EditKeepsSlots(m.budget, EditOf(m, e).value); }
    }
  }

  lemma {:induction false} SlotsAreFinal(m: Machine, events: seq<Event>)
    ensures m.budget.correctionFor.Some? ==> AfterEvents(m, events).budget.correctionFor == m.budget.correctionFor
    ensures m.budget.diagnosisCorrectionFor.Some? ==>
            AfterEvents(m, events).budget.diagnosisCorrectionFor == m.budget.diagnosisCorrectionFor
    decreases |events|
  {
    hide Next;
    if events != [] {
      SlotsAreFinal(m, events[..|events| - 1]);
      SlotsStay(AfterEvents(m, events[..|events| - 1]), events[|events| - 1]);
    }
  }

  // ----- termination -------------------------------------------------------------------------

  function PcRank(pc: Pc): (r: nat) {
    match pc
    case Idle => 15
    case ChoosingMode(retry, _) => if retry then 8 else 14
    case Reserving(retry, _) => if retry then 7 else 13
    case Invoking(retry, _, _) => if retry then 6 else 12
    case Saving(retry, _, _, _) => if retry then 5 else 11
    case Rereading(retry, _, _) => if retry then 5 else 11
    case Judging(retry, _, _) => if retry then 4 else 10
    case Correcting(_, _, _) => 9
  }

  function GraphRank(g: Graph): (r: int) {
    match g.phase
    case Finished => 0
    case Investigating => 2 * (LAST_STEP - g.step) + 1
    case Collecting => 2 * (LAST_STEP - g.step) + 2
    case WaitingUser => 2 * (LAST_STEP - g.step) + 2
  }

  /** Three steps for every request: authorise, reserve, return. */
  function FetchRank(f: Fetch, n: nat): (r: int) {
    match f
    case Resting => 3 * n + 2
    case Scheduling(i) => 3 * n + 1 - i
    case Fetching(i) => 2 * n + 1 - 2 * i
    case Awaiting(i, _) => 2 * n - 2 * i
  }

  function Potential(m: Machine): (p: int) {
    16 * GraphRank(m.graph)
    + (if m.graph.phase.Investigating? then PcRank(m.pc)
       else if m.graph.phase.Collecting? then FetchRank(m.fetch, |m.graph.pending|)
       else 0)
  }

  /** The requests of all collect decisions accepted so far. */
  function Asked(m: Machine): (n: nat) {
    Total(m.collected, 5)
  }

  lemma {:induction false} TotalAdds(collected: map<nat, nat>, step: nat, n: nat, upTo: nat)
    requires step !in collected && 1 <= step
    ensures Total(collected[step := n], upTo) == Total(collected, upTo) + (if step <= upTo then n else 0)
  {
    if upTo > 0 { TotalAdds(collected, step, n, upTo - 1); }
  }

  lemma {:induction false} TotalAtLeast(collected: map<nat, nat>, step: nat, upTo: nat)
    requires step in collected && 1 <= step <= upTo
    ensures collected[step] <= Total(collected, upTo)
  {
    if step < upTo { TotalAtLeast(collected, step, upTo - 1); }
  }

  /** The event moves the investigation itself on. */
  predicate Progresses(m: Machine, e: Event) {
    !e.Crash? && !e.Elsewhere? && Next(m, e) != m
  }

  lemma ReserveCallProgress(m: Machine, prompt: nat)
    requires Orderly(m) && m.pc.Reserving?
    ensures Potential(DoReserveCall(m, prompt)) < Potential(m) && DoReserveCall(m, prompt).collected == m.collected
  {
    var r := ModelReservation(Id(m.graph.step + 1, m.pc.retry), Id(m.graph.step + 1, false), prompt, m.pc.terminal);
    ReserveCallIs(m, prompt, r);
  }

  /** A collect decision pays for its requests with the total. */
  lemma AdvanceProgress(m: Machine, action: Action)
    requires Orderly(m) && ReadsOk(m) && m.pc.Judging? && (action.Collect? ==> m.graph.step + 1 < LAST_STEP)
    ensures Potential(Advance(m, action)) - 3 * Asked(Advance(m, action)) < Potential(m) - 3 * Asked(m)
    ensures Asked(m) <= Asked(Advance(m, action))
  {
    if action.Collect? { TotalAdds(m.collected, m.graph.step + 1, |action.requests|, 5); }
  }

  predicate AcceptedBy(m: Machine, flaw: Flaw) {
    m.pc.Judging? && m.pc.reply.Decided?
        && Judge(m.pc.reply.action, m.pc.terminal, m.graph.asked, m.graph.answers > 0, flaw).Accepted?
  }

  lemma AcceptedAdvances(m: Machine, flaw: Flaw)
    requires AcceptedBy(m, flaw)
    ensures DoConclusion(m, flaw) == Advance(m, m.pc.reply.action)
  {
  }

  lemma AcceptedCollectIsEarly(m: Machine, flaw: Flaw)
    requires Orderly(m) && AcceptedBy(m, flaw)
    ensures m.pc.reply.action.Collect? ==> m.graph.step + 1 < LAST_STEP
  {
  }

  lemma RejectedProgress(m: Machine, flaw: Flaw)
    requires Orderly(m) && m.pc.Judging? && !AcceptedBy(m, flaw)
    ensures Potential(DoConclusion(m, flaw)) < Potential(m) && DoConclusion(m, flaw).collected == m.collected
  {
  }

  lemma ConclusionProgress(m: Machine, flaw: Flaw)
    requires Orderly(m) && ReadsOk(m) && m.pc.Judging?
    ensures Potential(DoConclusion(m, flaw)) - 3 * Asked(DoConclusion(m, flaw)) < Potential(m) - 3 * Asked(m)
    ensures Asked(m) <= Asked(DoConclusion(m, flaw))
  {
    if AcceptedBy(m, flaw) {
      AcceptedAdvances(m, flaw);
      AcceptedCollectIsEarly(m, flaw);
      AdvanceProgress(m, m.pc.reply.action);
    } else {
      RejectedProgress(m, flaw);
    }
  }

  lemma ConclusionMoves(m: Machine, flaw: Flaw)
    requires m.pc.Judging?
    ensures DoConclusion(m, flaw).pc != m.pc
  {
  }

  lemma CollectProgress(m: Machine, index: nat, b: Budget)
    requires Orderly(m) && InCollect(m, index) && !m.fetch.Resting? && m.fetch.index == index
    ensures Potential(CollectFails(m.(budget := b))) < Potential(m)
    ensures !m.fetch.Scheduling? ==> Potential(Fetched(m.(budget := b), index)) < Potential(m)
  {
  }

  lemma ScheduleProgress(m: Machine, f: nat, answers: seq<HumanAnswer>, now: real)
    requires Orderly(m) && m.fetch.Scheduling?
    ensures var m' := DoSchedule(m, m.fetch.index, f, answers, now);
            Potential(m') < Potential(m) && m'.collected == m.collected
  {
    var e := ScheduleEdit(m, m.fetch.index, f, answers, now);
    ScheduleIs(m, m.fetch.index, f, answers, now, e);
    CollectProgress(m, m.fetch.index, Sampled(m.budget, e));
  }

  lemma FetchProgress(m: Machine, f: nat, changed: bool)
    requires Orderly(m) && m.fetch.Fetching?
    ensures var m' := DoFetch(m, m.fetch.index, f, changed); Potential(m') < Potential(m) && m'.collected == m.collected
  {
    var i := m.fetch.index;
    CollectProgress(m, i, m.budget);
    if ReadId(m, i) in m.budget.grants {
      var ask := m.graph.pending[i];
      var (b, r) := CallTool(m.budget, ReadId(m, i), f, ask.request, ask.query, m.budget.grants[ReadId(m, i)].1);
      FetchIs(m, i, f, changed, b, r);
      CollectProgress(m, i, b);
    }
  }

  lemma ToolReturnsProgress(m: Machine, elapsed: real, failed: bool, collectedAt: real, changed: bool)
    requires Orderly(m) && m.fetch.Awaiting?
    ensures var m' := DoToolReturns(m, elapsed, failed, collectedAt, changed);
            Potential(m') < Potential(m) && m'.collected == m.collected
  {
    CollectProgress(m, m.fetch.index, Settle(m.budget, m.fetch.ticket, elapsed, None, ToolAnswer(failed, collectedAt)));
  }

  lemma ProgressDecreases(m: Machine, e: Event)
    requires Orderly(m) && ReadsOk(m) && Progresses(m, e)
    ensures Potential(Next(m, e)) - 3 * Asked(Next(m, e)) < Potential(m) - 3 * Asked(m)
    ensures Asked(m) <= Asked(Next(m, e))
  {
    match e
    case ReserveCall(prompt) => ReserveCallProgress(m, prompt);
    case Conclusion(flaw) => ConclusionProgress(m, flaw);
    case Schedule(f, answers, now) => ScheduleProgress(m, f, answers, now);
    case FetchNext(f, changed) => FetchProgress(m, f, changed);
    case ToolReturns(elapsed, failed, at, changed) => ToolReturnsProgress(m, elapsed, failed, at, changed);
    case _ => PlainProgress(m, e);
  }

  lemma PlainProgress(m: Machine, e: Event)
    requires Orderly(m) && Progresses(m, e)
    requires !e.ReserveCall? && !e.Conclusion? && !e.Schedule? && !e.FetchNext? && !e.ToolReturns?
    ensures Potential(Next(m, e)) < Potential(m) && Next(m, e).collected == m.collected
  {
    hide TerminalMode, Correction, Settle, AcceptAnswer, Total, ReadsOk, InvokedOk, CorrectionsOk, StepOk;
    match e
    case EnterCollect =>
    case Enter =>
    case ChooseMode =>
    case FailContext =>
    case Invoke(_) =>
    case Save(_, _) =>
    case Reread =>
    case Correct =>
    case Respond(_) =>
  }

  /** A crash repeats the running node, at most. */
  lemma OtherwiseBounded(m: Machine, e: Event)
    requires Orderly(m) && ReadsOk(m) && !Progresses(m, e)
    ensures Asked(Next(m, e)) == Asked(m)
    ensures Potential(Next(m, e)) <= Potential(m) + (if e.Crash? then 11 + 3 * Asked(m) else 0)
  {
    if e.Crash? && m.graph.phase.Collecting? { TotalAtLeast(m.collected, m.graph.step, 5); }
  }

  function ProgressSteps(m: Machine, events: seq<Event>): (n: nat)
    decreases |events|
  {
    if events == [] then 0
    else
      var k := |events| - 1;
      ProgressSteps(m, events[..k]) + (if Progresses(AfterEvents(m, events[..k]), events[k]) then 1 else 0)
  }

  function Crashes(events: seq<Event>): (n: nat)
    decreases |events|
  {
    if events == [] then 0 else Crashes(events[..|events| - 1]) + (if events[|events| - 1].Crash? then 1 else 0)
  }

  /** What crashes may repeat when `asked` requests were accepted. */
  function CrashCost(asked: nat, crashes: nat): (c: nat) {
    if crashes == 0 then 0 else CrashCost(asked, crashes - 1) + 11 + 3 * asked
  }

  lemma {:induction false} CrashCostIs(asked: nat, crashes: nat)
    ensures CrashCost(asked, crashes) == (11 + 3 * asked) * crashes
  {
    if crashes > 0 { CrashCostIs(asked, crashes - 1); }
  }

  lemma {:induction false} CrashCostGrows(a: nat, b: nat, crashes: nat)
    requires a <= b
    ensures CrashCost(a, crashes) <= CrashCost(b, crashes)
  {
    if crashes > 0 { CrashCostGrows(a, b, crashes - 1); }
  }

  lemma {:induction false} CrashCostAdds(asked: nat, c: nat, d: nat)
    ensures CrashCost(asked, c + d) == CrashCost(asked, c) + CrashCost(asked, d)
  {
    if d > 0 { CrashCostAdds(asked, c, d - 1); }
  }

  /** `steps` steps lead from `a` to `b` across `crashes` crashes. */
  ghost predicate Pays(a: Machine, b: Machine, steps: nat, crashes: nat) {
    && Asked(a) <= Asked(b)
    && steps + Potential(b) - 3 * Asked(b) <= Potential(a) - 3 * Asked(a) + CrashCost(Asked(b), crashes)
  }

  lemma StepPays(m: Machine, e: Event)
    requires MachineOk(m)
    ensures Pays(m, Next(m, e), if Progresses(m, e) then 1 else 0, if e.Crash? then 1 else 0)
  {
    if Progresses(m, e) { ProgressDecreases(m, e); } else { OtherwiseBounded(m, e); }
  }

  lemma PaysOn(a: Machine, b: Machine, c: Machine, steps: nat, more: nat, crashes: nat, crash: nat)
    requires Pays(a, b, steps, crashes) && Pays(b, c, more, crash)
    ensures Pays(a, c, steps + more, crashes + crash)
  {
    CrashCostGrows(Asked(b), Asked(c), crashes);
    CrashCostAdds(Asked(c), crashes, crash);
  }

  /** The last event of a run pays for itself. */
  lemma LastPays(m: Machine, events: seq<Event>)
    requires events != [] && MachineOk(AfterEvents(m, events[..|events| - 1]))
    ensures Pays(AfterEvents(m, events[..|events| - 1]), AfterEvents(m, events), LastStep(m, events),
                 if events[|events| - 1].Crash? then 1 else 0)
  {
    StepPays(AfterEvents(m, events[..|events| - 1]), events[|events| - 1]);
  }

  function LastStep(m: Machine, events: seq<Event>): (n: nat)
    requires events != []
  {
    if Progresses(AfterEvents(m, events[..|events| - 1]), events[|events| - 1]) then 1 else 0
  }

  lemma NothingPays(m: Machine)
    ensures Pays(m, AfterEvents(m, []), ProgressSteps(m, []), Crashes([]))
  {
    hide Potential, Asked;
  }

  lemma {:induction false} PotentialPays(m: Machine, events: seq<Event>)
    requires MachineOk(m)
    ensures Pays(m, AfterEvents(m, events), ProgressSteps(m, events), Crashes(events))
    decreases |events|
  {
    hide MachineOk, Pays, AfterEvents, ProgressSteps, Crashes, LastStep;
    if events == [] {
      NothingPays(m);
    } else {
      var before := events[..|events| - 1];
      PotentialPays(m, before);
      AlwaysMachineOk(m, before);
      LastPays(m, events);
      PaysOn(m, AfterEvents(m, before), AfterEvents(m, events), ProgressSteps(m, before), LastStep(m, events),
             Crashes(before), if events[|events| - 1].Crash? then 1 else 0);
      Counts(m, events);
    }
  }

  lemma Counts(m: Machine, events: seq<Event>)
    requires events != []
    ensures ProgressSteps(m, events) == ProgressSteps(m, events[..|events| - 1]) + LastStep(m, events)
    ensures Crashes(events) == Crashes(events[..|events| - 1]) + (if events[|events| - 1].Crash? then 1 else 0)
  {
  }

  lemma PaysAtMost(m: Machine, steps: nat, crashes: nat)
    requires Pays(START, m, steps, crashes) && Potential(m) >= 0
    ensures steps <= 223 + 3 * Asked(m) + (11 + 3 * Asked(m)) * crashes
  {
    CrashCostIs(Asked(m), crashes);
  }

  lemma PotentialIsNatural(m: Machine)
    requires Orderly(m)
    ensures Potential(m) >= 0
  {
  }

  /** A run makes at most 223 steps of its own and three for every request it accepted, and for every crash at
      most 11 more and the repetition of one collect decision: (11 + 3 * n) times the crashes. */
  lemma InvestigationTerminates(events: seq<Event>)
    ensures var n := Asked(AfterEvents(START, events));
            ProgressSteps(START, events) <= 223 + 3 * n + (11 + 3 * n) * Crashes(events)
  {
    hide MachineOk, Orderly, Potential, Asked, Pays, Next, ProgressSteps;
    StartOk();
    PotentialPays(START, events);
    AlwaysMachineOk(START, events);
    PotentialIsNatural(AfterEvents(START, events));
    PaysAtMost(AfterEvents(START, events), ProgressSteps(START, events), Crashes(events));
  }

  // ----- liveness ----------------------------------------------------------------------------

  /** The event the running node is waiting for, whatever the model, a tool or the clock puts into it. */
  predicate Due(m: Machine, e: Event) {
    match e
    case Enter => m.pc.Idle? && m.graph.phase.Investigating?
    case ChooseMode => m.pc.ChoosingMode?
    case ReserveCall(_) => m.pc.Reserving?
    case Invoke(_) => m.pc.Invoking?
    case Save(_, _) => m.pc.Saving?
    case Reread => m.pc.Rereading?
    case Conclusion(_) => m.pc.Judging?
    case Correct => m.pc.Correcting?
    case EnterCollect => m.graph.phase.Collecting? && m.fetch.Resting?
    case Schedule(_, _, _) => m.fetch.Scheduling?
    case FetchNext(_, _) => m.fetch.Fetching?
    case ToolReturns(_, _, _, _) => m.fetch.Awaiting?
    case _ => false
  }

  /** Until it is finished or waits for its user, the investigation is waiting for an event, and whatever that
      event brings, it moves the investigation on. */
  lemma NeverStuck(m: Machine)
    requires MachineOk(m) && !m.graph.phase.Finished? && !m.graph.phase.WaitingUser?
    ensures exists e :: Due(m, e)
    ensures forall e :: Due(m, e) ==> Progresses(m, e)
  {
    assert Due(m, if m.graph.phase.Collecting? then
                    (match m.fetch
                     case Resting => EnterCollect
                     case Scheduling(_) => Schedule(0, [], 0.0)
                     case Fetching(_) => FetchNext(0, false)
                     case Awaiting(_, _) => ToolReturns(0.0, false, 0.0, false))
                  else
                    (match m.pc
                     case Idle => Enter
                     case ChoosingMode(_, _) => ChooseMode
                     case Reserving(_, _) => ReserveCall(0)
                     case Invoking(_, _, _) => Invoke(ProviderFailed)
                     case Saving(_, _, _, _) => Save(0.0, None)
                     case Rereading(_, _, _) => Reread
                     case Judging(_, _, _) => Conclusion(NoFlaw)
                     case Correcting(_, _, _) => Correct));
    forall e | Due(m, e) ensures Progresses(m, e) { DueProgresses(m, e); }
  }

  lemma DueProgresses(m: Machine, e: Event)
    requires Orderly(m) && Due(m, e)
    ensures Progresses(m, e)
  {
    match e
    case ReserveCall(prompt) => ReserveCallProgress(m, prompt);
    case Schedule(f, answers, now) => ScheduleProgress(m, f, answers, now);
    case FetchNext(f, changed) => FetchProgress(m, f, changed);
    case ToolReturns(elapsed, failed, at, changed) => ToolReturnsProgress(m, elapsed, failed, at, changed);
    case Enter =>
    case ChooseMode =>
    case Invoke(_) =>
    case Save(_, _) =>
    case Reread =>
    case Conclusion(flaw) => ConclusionMoves(m, flaw);
    case Correct =>
    case EnterCollect =>
  }
}
