/** The bounded investigation: decide, collect or ask, driven by an arbitrary model and interrupted anywhere.

    The machine advances by one durable edit at a time. The graph state is saved when a node completes, the
    budget with every edit; a crash loses only the position inside the running node.
 */
module Investigation {
  import opened Wrappers
  import opened Budget
  import opened Resampling

  const LAST_STEP := 6

  // ----- durable edits of the decide node ----------------------------------------------------

  /** model.py:32-45: the mode of a request is fixed before its first invocation. */
  function TerminalMode(b: Budget, id: RequestId, forced: bool): (result: (Budget, bool)) {
    if id in b.modes then (b, b.modes[id])
    else
      var mode :=
        if id in b.requests then b.requests[id] < |b.calls| && b.calls[b.requests[id]].purpose == ModelTurn(true)
        else forced || ModelCalls(b.calls) >= b.policy.modelAttempts - 1;
      (b.(modes := b.modes[id := mode]), mode)
  }

  /** model.py:48-52 */
  function ModelReservation(id: RequestId, key: RequestId, prompt: nat, terminal: bool): (r: Reservation) {
    Reservation(ModelTurn(terminal), CALL_SECONDS, false, CALL_TOKENS, None, Some((id, prompt)),
                if terminal then None else Some(key),
                if terminal then 0 else CALL_TOKENS, if terminal then 0.0 else CALL_SECONDS)
  }

  /** records.py:32-46: one slot for a generic correction and one for a rejected diagnosis. */
  function Correction(b: Budget, id: RequestId, diagnosis: bool): (result: (Budget, bool)) {
    var existing := if diagnosis then b.diagnosisCorrectionFor else b.correctionFor;
    if existing.Some? && existing.value != id then (b, false)
    else if diagnosis && existing.None?
            && (ExceedsInt(b.tokens + CALL_TOKENS, b.policy.totalTokens)
                || ExceedsReal(b.seconds + CALL_SECONDS, b.policy.activeSeconds)
                || ModelCalls(b.calls) >= b.policy.modelAttempts) then (b, false)
    else if diagnosis then (b.(diagnosisCorrectionFor := Some(id)), true)
    else (b.(correctionFor := Some(id)), true)
  }

  // ----- what counts as a valid decision -----------------------------------------------------

  /** What the checks against the current evidence and resources find wrong with a parsed decision. */
  datatype Flaw = NoFlaw | BoundaryFlaw | RejectedAssessment(identityConflict: bool) | OtherFlaw

  datatype Verdict = Accepted | Broken | OutOfBounds | Rejected(identityConflict: bool)

  predicate Ends(a: Action) {
    a.Conclude? || a.StopInvestigating?
  }

  /** dialogue.py:32-40 */
  predicate Askable(slot: Option<Slot>, asked: seq<Slot>) {
    slot.Some? && slot.value !in asked && |asked| + 1 <= 2
  }

  /** graph.py:56-121 and 178-204, for a production run. */
  function Judge(action: Action, terminal: bool, asked: seq<Slot>, answered: bool, flaw: Flaw): (v: Verdict) {
    if action.Collect? && flaw.BoundaryFlaw? then OutOfBounds
    else if terminal && !Ends(action) then Broken
    else if (action.Conclude? || action.ProposePlan?) && flaw.RejectedAssessment? then Rejected(flaw.identityConflict)
    else if flaw.OtherFlaw? then Broken
    else if action.AskUser? && !Askable(action.slot, asked) then Broken
    else if answered && (action.Conclude? || action.ProposePlan?) && action.noFault then Broken
    else if answered && action.ProposePlan? then Broken
    else Accepted
  }

  // ----- the machine -------------------------------------------------------------------------

  datatype Phase = Investigating | Collecting | WaitingUser | Finished

  /** The checkpoint. `decides` counts completed decide nodes; `pending` and `reason` are the collect decision
      being carried out. */
  datatype Graph = Graph(step: nat, phase: Phase, asked: seq<Slot>, answers: nat, decides: nat, pending: seq<ReadAsk>,
                         reason: Option<Reason>)

  /** Where the running decide node is; `retry` is its second attempt. */
  datatype Pc =
    | Idle
    | ChoosingMode(retry: bool, terminal: bool)
    | Reserving(retry: bool, terminal: bool)
    | Invoking(retry: bool, terminal: bool, ticket: nat)
    | Saving(retry: bool, terminal: bool, ticket: nat, reply: Reply)
    | Rereading(retry: bool, terminal: bool, ticket: nat)
    | Judging(retry: bool, terminal: bool, reply: Reply)
    | Correcting(retry: bool, terminal: bool, diagnosis: bool)

  /** Where the running collect node is: all requests are authorised before the first is read. */
  datatype Fetch = Resting | Scheduling(index: nat) | Fetching(index: nat) | Awaiting(index: nat, ticket: nat)

  /** `invoked` lists the provider calls made, each with its mode; `collected` gives the number of requests of
      the collect decision of every step that made one. */
  datatype Machine = Machine(graph: Graph, budget: Budget, pc: Pc, fetch: Fetch, invoked: seq<bool>,
                             collected: map<nat, nat>)

  datatype Event =
    | Enter
    | ChooseMode
    | FailContext
    | ReserveCall(prompt: nat)
    | Invoke(reply: Reply)
    | Save(elapsed: real, tokens: Option<int>)
    | Reread
    | Conclusion(flaw: Flaw)
    | Correct
    | EnterCollect
    | Schedule(fingerprint: nat, answers: seq<HumanAnswer>, now: real)
    | FetchNext(fingerprint: nat, changed: bool)
    | ToolReturns(elapsed: real, failed: bool, collectedAt: real, changed: bool)
    | Respond(answer: HumanAnswer)
    | Elsewhere(edit: Edit)
    | Crash

  const START := Machine(Graph(0, Investigating, [], 0, 0, [], None), EMPTY, Idle, Resting, [], map[])

  function Id(step: nat, retry: bool): (id: RequestId) {
    ModelRequest(step, step >= LAST_STEP, retry)
  }

  /** The node returns early, without a decision. */
  function GiveUp(m: Machine): (m': Machine) {
    m.(graph := m.graph.(phase := Finished, decides := m.graph.decides + 1), pc := Idle)
  }

  function DoChooseMode(m: Machine): (m': Machine)
    requires m.pc.ChoosingMode?
  {
    var (b, mode) := TerminalMode(m.budget, Id(m.graph.step + 1, m.pc.retry), m.pc.terminal);
    m.(budget := b, pc := Reserving(m.pc.retry, mode))
  }

  function DoReserveCall(m: Machine, prompt: nat): (m': Machine)
    requires m.pc.Reserving?
  {
    var n := m.graph.step + 1;
    var (b, grant) := Reserve(m.budget, ModelReservation(Id(n, m.pc.retry), Id(n, false), prompt, m.pc.terminal));
    WithGrant(m, b, grant)
  }

  function WithGrant(m: Machine, b: Budget, grant: Grant): (m': Machine)
    requires m.pc.Reserving?
  {
    if grant.Fresh? then m.(budget := b, pc := Invoking(m.pc.retry, m.pc.terminal, grant.ticket))
    else if grant.Replayed? then m.(budget := b, pc := Rereading(m.pc.retry, m.pc.terminal, grant.ticket))
    else GiveUp(m.(budget := b))
  }

  function DoInvoke(m: Machine, reply: Reply): (m': Machine)
    requires m.pc.Invoking?
  {
    m.(invoked := m.invoked + [m.pc.terminal], pc := Saving(m.pc.retry, m.pc.terminal, m.pc.ticket, reply))
  }

  function DoSave(m: Machine, elapsed: real, tokens: Option<int>): (m': Machine)
    requires m.pc.Saving?
  {
    if m.pc.ticket >= |m.budget.calls| then m
    else m.(budget := Settle(m.budget, m.pc.ticket, elapsed, tokens, ModelAnswer(m.pc.reply)),
            pc := Judging(m.pc.retry, m.pc.terminal, m.pc.reply))
  }

  /** records.py:16-21 */
  function DoReread(m: Machine): (m': Machine)
    requires m.pc.Rereading?
  {
    if m.pc.ticket < |m.budget.calls| && m.budget.calls[m.pc.ticket].settled.Some?
        && m.budget.calls[m.pc.ticket].settled.value.answer.ModelAnswer?
    then m.(pc := Judging(m.pc.retry, m.pc.terminal, m.budget.calls[m.pc.ticket].settled.value.answer.reply))
    else GiveUp(m)
  }

  /** graph.py:233-249 */
  function Advance(m: Machine, action: Action): (m': Machine) {
    var g := m.graph.(step := m.graph.step + 1, decides := m.graph.decides + 1);
    m.(pc := Idle,
       collected := if action.Collect? then m.collected[m.graph.step + 1 := |action.requests|] else m.collected,
       graph := match action
                case Collect(requests, reason) => g.(phase := Collecting, pending := requests, reason := reason)
                case AskUser(slot) =>
                  if slot.Some? then g.(phase := WaitingUser, asked := g.asked + [slot.value])
                  else g.(phase := Finished)
                case Conclude(_) => g.(phase := Finished)
                case ProposePlan(_) => g.(phase := Finished)
                case StopInvestigating => g.(phase := Finished))
  }

  /** graph.py:206-228: the first failure may be corrected, unless it crossed a boundary. */
  function DoConclusion(m: Machine, flaw: Flaw): (m': Machine)
    requires m.pc.Judging?
  {
    if m.pc.reply.ProviderFailed? then GiveUp(m)
    else if m.pc.reply.Unparsable? then
      if m.pc.retry || m.pc.reply.boundary then GiveUp(m) else m.(pc := Correcting(false, m.pc.terminal, false))
    else
      var v := Judge(m.pc.reply.action, m.pc.terminal, m.graph.asked, m.graph.answers > 0, flaw);
      if v.Accepted? then Advance(m, m.pc.reply.action)
      else if m.pc.retry || v.OutOfBounds? then GiveUp(m)
      else m.(pc := Correcting(false, m.pc.terminal, v == Rejected(false) && m.pc.reply.action.Conclude?))
  }

  function DoCorrect(m: Machine): (m': Machine)
    requires m.pc.Correcting?
  {
    var (b, granted) := Correction(m.budget, Id(m.graph.step + 1, false), m.pc.diagnosis);
    if granted then m.(budget := b, pc := ChoosingMode(true, m.pc.terminal || m.pc.diagnosis))
    else GiveUp(m.(budget := b))
  }

  /** Reads of the collect node use their own request ids. */
  predicate ForCollect(e: SamplingEdit) {
    match e
    case DoAuthorize(id, _, _, _, _, _, _) => id.ReadRequest?
    case DoRead(id, _, _, _, _) => id.ReadRequest?
    case DoAnswer(_) => false
    case DoNote(_, _, _) => false
    case DoOther(_) => false
  }

  // ----- the collect node (graph.py:258-289) -------------------------------------------------

  predicate InCollect(m: Machine, index: nat) {
    m.graph.phase.Collecting? && index < |m.graph.pending|
  }

  function ReadId(m: Machine, index: nat): (id: RequestId) {
    ReadRequest(m.graph.step, index)
  }

  /** The node ends with a handoff. */
  function CollectFails(m: Machine): (m': Machine) {
    m.(graph := m.graph.(phase := Finished), fetch := Resting)
  }

  function Fetched(m: Machine, index: nat): (m': Machine) {
    if index + 1 < |m.graph.pending| then m.(fetch := Fetching(index + 1))
    else m.(graph := m.graph.(phase := Investigating), fetch := Resting)
  }

  function DoEnterCollect(m: Machine): (m': Machine) {
    if m.graph.pending == [] then m.(graph := m.graph.(phase := Investigating)) else m.(fetch := Scheduling(0))
  }

  /** The edit that authorises the request at the index. */
  function ScheduleEdit(m: Machine, index: nat, fingerprint: nat, answers: seq<HumanAnswer>,
                        now: real): (e: SamplingEdit)
    requires index < |m.graph.pending|
  {
    var ask := m.graph.pending[index];
    DoAuthorize(ReadId(m, index), fingerprint, ask.request, ask.query, m.graph.reason, answers, now)
  }

  function DoSchedule(m: Machine, index: nat, fingerprint: nat, answers: seq<HumanAnswer>, now: real): (m': Machine)
    requires InCollect(m, index)
  {
    var ask := m.graph.pending[index];
    var (b, r) := Authorize(m.budget, ReadId(m, index), fingerprint, ask.request, ask.query, m.graph.reason, answers,
                            now);
    WithAuthorisation(m, index, b, r)
  }

  function WithAuthorisation(m: Machine, index: nat, b: Budget, r: GrantResult): (m': Machine) {
    if r.Denied? then CollectFails(m.(budget := b))
    else m.(budget := b, fetch := if index + 1 < |m.graph.pending| then Scheduling(index + 1) else Fetching(0))
  }

  /** The edit that reserves the reading at the index; its grant is the one just issued. */
  function FetchEdit(m: Machine, index: nat, fingerprint: nat): (e: SamplingEdit)
    requires index < |m.graph.pending| && ReadId(m, index) in m.budget.grants
  {
    var ask := m.graph.pending[index];
    DoRead(ReadId(m, index), fingerprint, ask.request, ask.query, m.budget.grants[ReadId(m, index)].1)
  }

  function DoFetch(m: Machine, index: nat, fingerprint: nat, changed: bool): (m': Machine)
    requires InCollect(m, index)
  {
    if ReadId(m, index) !in m.budget.grants then CollectFails(m)
    else
      var ask := m.graph.pending[index];
      var (b, r) := CallTool(m.budget, ReadId(m, index), fingerprint, ask.request, ask.query,
                             m.budget.grants[ReadId(m, index)].1);
      WithReading(m, index, b, r, changed)
  }

  predicate HasToolAnswer(b: Budget, ticket: nat) {
    ticket < |b.calls| && b.calls[ticket].settled.Some? && b.calls[ticket].settled.value.answer.ToolAnswer?
  }

  function WithReading(m: Machine, index: nat, b: Budget, r: ReadResult, changed: bool): (m': Machine) {
    if r.ReadResult? && r.grant.Fresh? then m.(budget := b, fetch := Awaiting(index, r.grant.ticket))
    else if r.ReadResult? && r.grant.Replayed? && HasToolAnswer(b, r.grant.ticket)
         && !changed then Fetched(m.(budget := b), index)
    else CollectFails(m.(budget := b))
  }

  function DoToolReturns(m: Machine, elapsed: real, failed: bool, collectedAt: real, changed: bool): (m': Machine)
    requires m.fetch.Awaiting? && m.fetch.ticket < |m.budget.calls|
  {
    var b := Settle(m.budget, m.fetch.ticket, elapsed, None, ToolAnswer(failed, collectedAt));
    if changed then CollectFails(m.(budget := b)) else Fetched(m.(budget := b), m.fetch.index)
  }

  /** Edits made by anything that is neither the model nor a reading: stages and overhead. */
  predicate Foreign(b: Budget, e: Edit) {
    match e
    case DoReserve(r) =>
      && !r.purpose.ModelTurn? && !r.purpose.ToolRead? && r.request.None?
      && (r.decision.Some? ==> r.decision.value.Named?)
    case DoSettle(ticket, _, _, _) =>
      && ticket < |b.calls|
      && !b.calls[ticket].purpose.ModelTurn? && !b.calls[ticket].purpose.ToolRead?
    case DoDecision(key) => key.Named?
    case DoBeforeWrite(_) => true
    case DoActivity => true
  }

  /** graph.py:291-303: the answer belongs to the open question. */
  function DoRespond(m: Machine, answer: HumanAnswer): (m': Machine) {
    if answer.questionId != |m.graph.asked| then m
    else
      var (b, accepted) := AcceptAnswer(m.budget, answer);
      if accepted.None? then m
      else
        var phase := if accepted.value.skip then Finished else Investigating;
        m.(budget := b, graph := m.graph.(answers := m.graph.answers + 1, phase := phase))
  }

  /** Events that do not fit the state change nothing. */
  function Next(m: Machine, e: Event): (m': Machine) {
    match e
    case Enter =>
      if m.pc.Idle? && m.graph.phase.Investigating? then m.(pc := ChoosingMode(false, m.graph.step + 1 > 5)) else m
    case ChooseMode => if m.pc.ChoosingMode? then DoChooseMode(m) else m
    case FailContext => if m.pc.Reserving? then GiveUp(m) else m
    case ReserveCall(prompt) => if m.pc.Reserving? then DoReserveCall(m, prompt) else m
    case Invoke(reply) => if m.pc.Invoking? then DoInvoke(m, reply) else m
    case Save(elapsed, tokens) => if m.pc.Saving? then DoSave(m, elapsed, tokens) else m
    case Reread => if m.pc.Rereading? then DoReread(m) else m
    case Conclusion(flaw) => if m.pc.Judging? then DoConclusion(m, flaw) else m
    case Correct => if m.pc.Correcting? then DoCorrect(m) else m
    case EnterCollect => if m.graph.phase.Collecting? && m.fetch.Resting? then DoEnterCollect(m) else m
    case Schedule(f, answers, now) =>
      if m.fetch.Scheduling? && InCollect(m, m.fetch.index) then DoSchedule(m, m.fetch.index, f, answers, now) else m
    case FetchNext(f, changed) =>
      if m.fetch.Fetching? && InCollect(m, m.fetch.index) then DoFetch(m, m.fetch.index, f, changed) else m
    case ToolReturns(elapsed, failed, at, changed) =>
      if m.fetch.Awaiting? && m.fetch.ticket < |m.budget.calls| then DoToolReturns(m, elapsed, failed, at, changed)
      else m
    case Respond(answer) => if m.graph.phase.WaitingUser? then DoRespond(m, answer) else m
    case Elsewhere(edit) => if Foreign(m.budget, edit) then m.(budget := Edited(m.budget, edit)) else m
    case Crash => m.(pc := Idle, fetch := Resting)
  }

  function AfterEvents(m: Machine, events: seq<Event>): (m': Machine)
    decreases |events|
  {
    if events == [] then m else Next(AfterEvents(m, events[..|events| - 1]), events[|events| - 1])
  }

  // ----- the invariant -----------------------------------------------------------------------

  /** The bookkeeping of the step about to be decided: nothing of a later step is known, the correction is
      only known after the first attempt was reserved, and a mode that still allows collecting was chosen
      while at least two model calls were left. */
  ghost predicate StepOk(b: Budget, n: nat) {
    && (forall id :: id in b.requests && id.ModelRequest? ==> id in b.modes)
    && (forall id :: id in b.modes ==> id.ModelRequest? && id.step <= n)
    && (Id(n, true) in b.modes ==> Id(n, false) in b.requests)
    && (forall retry :: PendingOk(b, n, retry))
    && (n >= LAST_STEP ==> forall retry :: Id(n, retry) in b.modes ==> b.modes[Id(n, retry)])
  }

  ghost predicate PendingOk(b: Budget, n: nat, retry: bool) {
    Id(n, retry) in b.modes && Id(n, retry) !in b.requests && !b.modes[Id(n, retry)] ==>
          ModelCalls(b.calls) + 1 < b.policy.modelAttempts
  }

  ghost predicate HasSlot(b: Budget, id: RequestId)
    requires id.ModelRequest?
  {
    var key := id.(correction := false);
    b.correctionFor == Some(key) || b.diagnosisCorrectionFor == Some(key)
  }

  /** A corrected attempt was paid for with one of the two slots. */
  ghost predicate CorrectionsOk(b: Budget) {
    forall id :: id in b.requests && id.ModelRequest? && id.correction ==> HasSlot(b, id)
  }

  ghost predicate PcOk(b: Budget, n: nat, pc: Pc) {
    && (!pc.Idle? && pc.retry ==> Id(n, false) in b.requests && HasSlot(b, Id(n, true)))
    && (pc.ChoosingMode? && n >= LAST_STEP ==> pc.terminal)
    && (!pc.Idle? && !pc.ChoosingMode? ==> Id(n, pc.retry) in b.modes && b.modes[Id(n, pc.retry)] == pc.terminal)
    && (!pc.Idle? && !pc.ChoosingMode? && !pc.Reserving? ==> Id(n, pc.retry) in b.requests)
    && (pc.Invoking? ==> ModelCalls(b.calls) >= b.policy.modelAttempts ==> pc.terminal)
    && (pc.Correcting? ==> !pc.retry)
    && (pc.Invoking? || pc.Saving? ==> pc.ticket < |b.calls|)
  }

  ghost predicate GraphOk(g: Graph) {
    && g.step <= LAST_STEP && (g.step == LAST_STEP ==> g.phase.Finished?)
    && (!g.phase.Finished? ==> g.decides == g.step) && g.decides <= LAST_STEP
    && |g.asked| <= 2 && Distinct(g.asked)
  }

  ghost predicate InvokedOk(m: Machine) {
    && |m.invoked| + (if m.pc.Invoking? then 1 else 0) <= ModelCalls(m.budget.calls)
    && (forall k :: 0 <= k < |m.invoked| && m.budget.policy.modelAttempts <= k + 1 ==> m.invoked[k])
  }

  /** The collect node is at one of its requests. */
  ghost predicate FetchOk(m: Machine) {
    && (!m.fetch.Resting? ==> InCollect(m, m.fetch.index))
    && (m.fetch.Awaiting? ==> m.fetch.ticket < |m.budget.calls|)
  }

  /** Every authorised or reserved reading is one of the requests of an accepted collect decision. */
  ghost predicate ReadsOk(m: Machine) {
    && (forall id :: (id in m.budget.requests || id in m.budget.grants) && id.ReadRequest? ==>
          id.step in m.collected && id.index < m.collected[id.step])
    && (forall n :: n in m.collected ==> 1 <= n <= m.graph.step && n < LAST_STEP)
    && (m.graph.phase.Collecting? ==> m.graph.step in m.collected && m.collected[m.graph.step] == |m.graph.pending|)
  }

  ghost predicate MachineOk(m: Machine) {
    BudgetOk(m.budget) && Orderly(m) && ReadsOk(m)
  }

  ghost predicate Orderly(m: Machine) {
    && m.budget.policy == POLICY
    && GraphOk(m.graph) && InvokedOk(m) && CorrectionsOk(m.budget)
    && (m.graph.phase.Finished? || StepOk(m.budget, m.graph.step + 1))
    && (m.pc.Idle? || m.graph.phase.Investigating?) && PcOk(m.budget, m.graph.step + 1, m.pc)
    && FetchOk(m)
  }

  lemma StartOk()
    ensures MachineOk(START)
  {
    EmptyOk();
  }
}
