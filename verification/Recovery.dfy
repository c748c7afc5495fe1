/** Classification of saved state before a worker starts, resumes or publishes a run. */
module Recovery {
  import opened Wrappers
  import opened Ledger

  datatype Workflow = IncidentV1 | RoundV1 | DialogueV1 | InvestigationV1 | Unsupported

  predicate IsRound(w: Workflow) {
    w in {RoundV1, DialogueV1, InvestigationV1}
  }

  /** The immutable input of a run. The two flags say whether the stored digests still match. */
  datatype RunInput = RunInput(workflow: Workflow, payload: nat, payloadIntact: bool, context: Option<nat>,
                               contextIntact: bool)

  predicate InputIntact(input: RunInput) {
    && input.workflow != Unsupported
    && input.payloadIntact
    && (IsRound(input.workflow) ==> input.context.Some? && input.contextIntact)
  }

  datatype Node =
    | Initialize | Decide | Collect | AwaitInvestigationInput | ProjectInvestigation
    | ValidateRequest | PlanCollection | CollectEvidence | RetrieveRunbooks | DiagnoseIncident | PlanRemediation
    | SkipRemediation | FinishFailure | PrepareClarification | AwaitUserInput
    | PrepareApproval | RequestHumanApproval
    | ExecuteRemediation | VerifyRecovery
    | OtherNode

  const READ_ONLY_NODES: set<Node> :=
    {ValidateRequest, PlanCollection, CollectEvidence, RetrieveRunbooks, DiagnoseIncident, PlanRemediation,
     SkipRemediation, PrepareApproval, RequestHumanApproval, FinishFailure, PrepareClarification, AwaitUserInput}

  const INVESTIGATION_NODES: set<Node> :=
    {Initialize, Decide, Collect, AwaitInvestigationInput, ProjectInvestigation, PrepareApproval, RequestHumanApproval}

  const WRITE_NODES: set<Node> := {ExecuteRemediation, VerifyRecovery}

  datatype ApprovalStatus = NoApproval | ApprovalPending | ApprovalGranted | ApprovalRefused

  /** The checkpointed graph state, as far as recovery looks at it. */
  datatype Values = Values(
    incident: IncidentId,
    request: nat,
    context: Option<nat>,
    run: Option<RunId>,
    workflow: Option<Workflow>,
    binding: Binding,
    approvalRequest: Option<nat>,
    approvalStatus: ApprovalStatus,
    approved: bool,
    requiresApproval: bool,
    actionResult: Option<ExecutionResult>,
    phase: string,
    question: Option<Question>,
    clarifications: set<AnswerPayload>,
    answeredMessages: set<nat>)

  datatype Task = Task(node: Node, interrupted: bool, failed: bool)

  datatype Checkpoint = Checkpoint(values: Option<Values>, pending: seq<Node>, tasks: seq<Task>, saved: bool)

  datatype Decision =
    | Start
    | Continue
    | Resume
    | ResumeUser
    | Halt(status: RunStatus)

  function Suffixed(s: string, suffix: string): (b: bool) {
    |suffix| <= |s| && s[|s| - |suffix|..] == suffix
  }

  /** A write was decided, is pending or has left a result in the checkpoint. */
  predicate TouchesWrite(v: Values, pending: seq<Node>) {
    || v.actionResult.Some?
    || v.approved
    || v.approvalStatus == ApprovalGranted
    || exists n <- pending :: n in WRITE_NODES
  }

  predicate ApprovedSaved(row: Run) {
    row.approval.Some? && row.approval.value.approved
  }

  /** The journal accounts for the result the checkpoint carries. */
  predicate ResultJournaled(v: Values, op: Option<Operation>) {
    && op.Some?
    && (Attributed(op.value.state) || op.value.state == Rejected)
    && v.actionResult == op.value.result
  }

  predicate AnswerAdopted(v: Values, workflow: Workflow, answer: AnswerPayload) {
    || answer in v.clarifications
    || (workflow == InvestigationV1 && answer.messageId in v.answeredMessages)
  }

  function ClassifyInterrupt(lease: Lease, input: RunInput, v: Values, pending: seq<Node>): (d: Decision) {
    var human := if input.workflow == InvestigationV1 then AwaitInvestigationInput else AwaitUserInput;
    if input.workflow in {DialogueV1, InvestigationV1} && v.phase == "waiting_user" && pending == [human] then
      if lease.row.answer.Some? && !AnswerAdopted(v, input.workflow, lease.row.answer.value) then
        var a := lease.row.answer.value;
        if v.question.None? || v.question.value.id != a.questionId || v.question.value.version != a.version
        then Halt(Failed)
        else ResumeUser
      else Halt(WaitingUser)
    else if v.phase == "awaiting_approval" && v.approvalStatus == ApprovalPending then
      if lease.row.approval.Some? && pending == [RequestHumanApproval] then Resume else Halt(WaitingApproval)
    else Halt(WaitingUser)
  }

  function ClassifyEnd(lease: Lease, v: Values, op: Option<Operation>): (d: Decision) {
    if lease.row.approval.Some? && !lease.row.approval.value.approved && v.phase == "approval_rejected"
    then Halt(Succeeded)
    else if op.Some? && Attributed(op.value.state) && v.phase == "verification_succeeded" then Halt(Succeeded)
    else if v.phase == "remediation_skipped" || (v.phase == "remediation_planned" && !v.requiresApproval)
    then Halt(Succeeded)
    else Halt(Failed)
  }

  function AllowedNodes(lease: Lease, workflow: Workflow): (nodes: set<Node>) {
    (if workflow == InvestigationV1 then INVESTIGATION_NODES else READ_ONLY_NODES)
    + (if ApprovedSaved(lease.row) then WRITE_NODES else {})
  }

  function ClassifyPending(lease: Lease, input: RunInput, ck: Checkpoint, temporary: bool): (d: Decision) {
    var allowed := AllowedNodes(lease, input.workflow);
    if !ck.saved || (exists n <- ck.pending :: n !in allowed) then Halt(Failed)
    else if exists t <- ck.tasks :: t.node !in allowed then Halt(Failed)
    else if (exists t <- ck.tasks :: t.failed) && !temporary then Halt(Failed)
    else Continue
  }

  /** The checkpoint belongs to this run, its input, its workflow and its saved approval. */
  predicate CheckpointBound(lease: Lease, input: RunInput, ck: Checkpoint) {
    && ck.values.Some?
    && var v := ck.values.value;
       && v.incident == lease.row.incident
       && v.request == input.payload
       && (IsRound(input.workflow) ==> v.context == input.context && v.run == Some(lease.run))
       && (input.workflow == InvestigationV1 && v.workflow != Some(InvestigationV1) ==>
             ck.pending == [Initialize] && v.workflow.None?)
       && (lease.row.approval.Some? ==>
             && lease.row.approval.value.binding == v.binding
             && v.approvalRequest == Some(lease.row.approval.value.approvalId))
  }

  /** `started` is the committed marker that a checkpoint may exist; `temporary` says that the last
      saved error was a temporary dependency failure. */
  function Classify(lease: Lease, input: RunInput, started: bool, temporary: bool, ck: Checkpoint,
                    op: Option<Operation>): (d: Decision) {
    if !InputIntact(input) then Halt(Failed)
    else if ck.values.None? && ck.pending == [] && !ck.saved && ck.tasks == [] then
      if started then Halt(Failed) else Start
    else if !CheckpointBound(lease, input, ck) then Halt(Failed)
    else
      var v := ck.values.value;
      if op.Some? && Uncertain(op.value.state) then Halt(Reconciling)
      else if TouchesWrite(v, ck.pending)
              && (!ApprovedSaved(lease.row)
                  || ((v.actionResult.Some? || VerifyRecovery in ck.pending) && !ResultJournaled(v, op)))
      then Halt(Reconciling)
      else if exists t <- ck.tasks :: t.interrupted then ClassifyInterrupt(lease, input, v, ck.pending)
      else if v.phase == "failed" || Suffixed(v.phase, "_failed") then Halt(Failed)
      else if ck.pending == [] then ClassifyEnd(lease, v, op)
      else ClassifyPending(lease, input, ck, temporary)
  }

  /** The decisions after which the worker enters the graph. */
  predicate EntersGraph(d: Decision) {
    !d.Halt?
  }

  /** A run whose checkpoint was ever written enters the graph only when the journal is not uncertain;
      without a checkpoint only the very first start does. */
  lemma UncertainNeverEnters(lease: Lease, input: RunInput, started: bool, temporary: bool, ck: Checkpoint,
                             op: Option<Operation>)
    requires op.Some? && Uncertain(op.value.state)
    ensures EntersGraph(Classify(lease, input, started, temporary, ck, op)) ==>
              ck.values.None? && ck.pending == [] && !ck.saved && ck.tasks == [] && !started
  {
  }

  /** A decision to go on past a write needs a saved approving decision, and a checkpointed write
      result must be the one in the journal. */
  lemma WriteNodesNeedApproval(lease: Lease, input: RunInput, started: bool, temporary: bool, ck: Checkpoint,
                               op: Option<Operation>)
    requires EntersGraph(Classify(lease, input, started, temporary, ck, op))
    requires ck.values.Some? && TouchesWrite(ck.values.value, ck.pending)
    ensures ApprovedSaved(lease.row)
    ensures ck.values.value.actionResult.Some? ==> op.Some? && op.value.result == ck.values.value.actionResult
    ensures VerifyRecovery in ck.pending ==> op.Some? && (Attributed(op.value.state) || op.value.state == Rejected)
  {
  }

  /** A repair is published as verified only with an attributable write in the journal. */
  lemma VerifiedNeedsJournal(lease: Lease, input: RunInput, started: bool, temporary: bool, ck: Checkpoint,
                             op: Option<Operation>)
    requires Classify(lease, input, started, temporary, ck, op) == Halt(Succeeded)
    requires ck.values.Some? && ck.values.value.phase == "verification_succeeded"
    ensures op.Some? && Attributed(op.value.state)
  {
  }
}
