/** When exactly the classification of saved state answers what: each answer has a condition of its own. */
module RecoveryTheorems {
  import opened Wrappers
  import opened Ledger
  import opened Recovery

  // ----- what a checkpoint shows -------------------------------------------------------------

  /** Nothing was ever saved. */
  predicate Untouched(ck: Checkpoint) {
    ck.values.None? && ck.pending == [] && ck.tasks == [] && !ck.saved
  }

  /** The journal is not uncertain and accounts for every trace of a write in the checkpoint. */
  predicate WriteAccounted(lease: Lease, v: Values, pending: seq<Node>, op: Option<Operation>) {
    && (op.Some? ==> op.value.state != Dispatching && op.value.state != OutcomeUnknown
                     && op.value.state != ManualRequired)
    && (v.approved || v.approvalStatus == ApprovalGranted || v.actionResult.Some? || ExecuteRemediation in pending
        || VerifyRecovery in pending ==>
          lease.row.approval.Some? && lease.row.approval.value.approved)
    && (v.actionResult.Some? || VerifyRecovery in pending ==>
          && op.Some? && (op.value.state == Applied || op.value.state == Reconciled || op.value.state == Rejected)
          && op.value.result == v.actionResult)
  }

  /** The input is of a known workflow and what was accepted. */
  predicate Known(input: RunInput) {
    && input.payloadIntact
    && match input.workflow
       case IncidentV1 => true
       case RoundV1 => input.context.Some? && input.contextIntact
       case DialogueV1 => input.context.Some? && input.contextIntact
       case InvestigationV1 => input.context.Some? && input.contextIntact
       case Unsupported => false
  }

  /** The checkpoint is that of the incident, the run and its input, and a saved decision is bound to its plan. */
  predicate Belongs(lease: Lease, input: RunInput, ck: Checkpoint) {
    && ck.values.Some? && ck.values.value.incident == lease.row.incident && ck.values.value.request == input.payload
    && (input.workflow == RoundV1 || input.workflow == DialogueV1 || input.workflow == InvestigationV1 ==>
          ck.values.value.context == input.context && ck.values.value.run == Some(lease.run))
    && (input.workflow == InvestigationV1 ==>
          || ck.values.value.workflow == Some(InvestigationV1)
          || (ck.values.value.workflow == None && ck.pending == [Initialize]))
    && (lease.row.approval.Some? ==>
          && ck.values.value.approvalRequest == Some(lease.row.approval.value.approvalId)
          && ck.values.value.binding == lease.row.approval.value.binding)
  }

  lemma BelongsExactly(lease: Lease, input: RunInput, ck: Checkpoint)
    ensures Known(input) <==> InputIntact(input)
    ensures Belongs(lease, input, ck) <==> CheckpointBound(lease, input, ck)
  {
  }

  /** The checkpoint belongs to the run, and the journal accounts for it. */
  predicate Trusted(lease: Lease, input: RunInput, ck: Checkpoint, op: Option<Operation>) {
    Known(input) && Belongs(lease, input, ck) && WriteAccounted(lease, ck.values.value, ck.pending, op)
  }

  /** The graph stopped inside a task to ask somebody. */
  predicate Asks(ck: Checkpoint) {
    exists t <- ck.tasks :: t.interrupted
  }

  predicate AsksForApproval(ck: Checkpoint)
    requires ck.values.Some?
  {
    ck.values.value.phase == "awaiting_approval" && ck.values.value.approvalStatus == ApprovalPending
  }

  /** The graph waits at the one node that takes the user's answer. */
  predicate AsksUser(input: RunInput, ck: Checkpoint)
    requires ck.values.Some?
  {
    && ck.values.value.phase == "waiting_user"
    && (|| (input.workflow == DialogueV1 && ck.pending == [AwaitUserInput])
        || (input.workflow == InvestigationV1 && ck.pending == [AwaitInvestigationInput]))
  }

  /** An answer that the checkpoint does not contain yet. */
  predicate HasNews(lease: Lease, input: RunInput, v: Values) {
    && lease.row.answer.Some? && lease.row.answer.value !in v.clarifications
    && (input.workflow == InvestigationV1 ==> lease.row.answer.value.messageId !in v.answeredMessages)
  }

  predicate AnswersQuestion(lease: Lease, v: Values)
    requires lease.row.answer.Some?
  {
    && v.question.Some? && v.question.value.id == lease.row.answer.value.questionId
    && v.question.value.version == lease.row.answer.value.version
  }

  predicate HasFailed(v: Values) {
    v.phase == "failed" || Suffixed(v.phase, "_failed")
  }

  /** The three ends that count as success: a refused plan, a verified repair with its attributed write, and a
      diagnosis that asks for no approval. */
  predicate SuccessDue(lease: Lease, v: Values, op: Option<Operation>) {
    || (v.phase == "approval_rejected" && lease.row.approval.Some? && !lease.row.approval.value.approved)
    || (v.phase == "verification_succeeded" && op.Some? && (op.value.state == Applied || op.value.state == Reconciled))
    || v.phase == "remediation_skipped"
    || (v.phase == "remediation_planned" && !v.requiresApproval)
  }

  predicate OnlyInvestigates(n: Node) {
    n == Initialize || n == Decide || n == Collect || n == AwaitInvestigationInput || n == ProjectInvestigation
  }

  predicate TouchesCluster(n: Node) {
    n == ExecuteRemediation || n == VerifyRecovery
  }

  /** A run may be continued at the nodes of its workflow, at those that touch the cluster only once approved, and
      never at an unknown one. */
  predicate MayRun(lease: Lease, input: RunInput, n: Node) {
    && n != OtherNode
    && (TouchesCluster(n) ==> lease.row.approval.Some? && lease.row.approval.value.approved)
    && (!TouchesCluster(n) ==>
          if input.workflow == InvestigationV1
          then OnlyInvestigates(n) || n == PrepareApproval || n == RequestHumanApproval
          else !OnlyInvestigates(n))
  }

  predicate MayContinue(lease: Lease, input: RunInput, temporary: bool, ck: Checkpoint) {
    && ck.saved && (forall n <- ck.pending :: MayRun(lease, input, n))
    && (forall t <- ck.tasks :: MayRun(lease, input, t.node) && (t.failed ==> temporary))
  }

  // ----- the answers -------------------------------------------------------------------------

  /** What `classify` should answer, and when. */
  predicate Warranted(d: Decision, lease: Lease, input: RunInput, started: bool, temporary: bool, ck: Checkpoint,
                      op: Option<Operation>) {
    match d
    case Start => Known(input) && Untouched(ck) && !started
    case Halt(Reconciling) =>
      Known(input) && Belongs(lease, input, ck) && !WriteAccounted(lease, ck.values.value, ck.pending, op)
    case Resume =>
      && Trusted(lease, input, ck, op) && Asks(ck) && AsksForApproval(ck)
      && lease.row.approval.Some? && ck.pending == [RequestHumanApproval]
    case Halt(WaitingApproval) =>
      && Trusted(lease, input, ck, op) && Asks(ck) && AsksForApproval(ck)
      && !(lease.row.approval.Some? && ck.pending == [RequestHumanApproval])
    case ResumeUser =>
      && Trusted(lease, input, ck, op) && Asks(ck) && AsksUser(input, ck)
      && HasNews(lease, input, ck.values.value) && AnswersQuestion(lease, ck.values.value)
    case Halt(WaitingUser) =>
      && Trusted(lease, input, ck, op) && Asks(ck)
      && (if AsksUser(input, ck) then !HasNews(lease, input, ck.values.value) else !AsksForApproval(ck))
    case Halt(Succeeded) =>
      && Trusted(lease, input, ck, op) && !Asks(ck) && ck.pending == [] && SuccessDue(lease, ck.values.value, op)
    case Continue =>
      && Trusted(lease, input, ck, op) && !Asks(ck) && ck.pending != [] && !HasFailed(ck.values.value)
      && MayContinue(lease, input, temporary, ck)
    case Halt(_) => false
  }

  lemma AccountedExactly(lease: Lease, v: Values, pending: seq<Node>, op: Option<Operation>)
    ensures WriteAccounted(lease, v, pending, op) <==>
              && (op.Some? ==> !Uncertain(op.value.state))
              && (TouchesWrite(v, pending) ==>
                    && ApprovedSaved(lease.row)
                    && (v.actionResult.Some? || VerifyRecovery in pending ==> ResultJournaled(v, op)))
  {
    assert (exists n <- pending :: n in WRITE_NODES) <==> ExecuteRemediation in pending || VerifyRecovery in pending;
  }

  lemma MayRunExactly(lease: Lease, input: RunInput, n: Node)
    ensures MayRun(lease, input, n) <==> n in AllowedNodes(lease, input.workflow)
  {
  }

  lemma NotFailed(v: Values)
    requires v.phase == "approval_rejected" || v.phase == "verification_succeeded" || v.phase == "remediation_skipped"
             || v.phase == "remediation_planned"
    ensures !HasFailed(v)
  {
    assert v.phase[|v.phase| - 1] == 'd';
    var n := |v.phase| - 7;
    assert v.phase[n..][1] == v.phase[n + 1] && "_failed"[1] == 'f';
  }

  /** The answer agrees with what is warranted: a failure is given exactly when nothing else is. */
  ghost predicate Exact(answer: Decision, lease: Lease, input: RunInput, started: bool, temporary: bool, ck: Checkpoint,
                        op: Option<Operation>) {
    && (forall d :: Warranted(d, lease, input, started, temporary, ck, op) ==> d == answer)
    && (answer != Halt(Failed) ==> Warranted(answer, lease, input, started, temporary, ck, op))
  }

  lemma InterruptsExactly(lease: Lease, input: RunInput, started: bool, temporary: bool, ck: Checkpoint,
                          op: Option<Operation>)
    requires Trusted(lease, input, ck, op) && Asks(ck)
    ensures Exact(ClassifyInterrupt(lease, input, ck.values.value, ck.pending), lease, input, started, temporary, ck,
                  op)
  {
  }

  lemma EndsExactly(lease: Lease, input: RunInput, started: bool, temporary: bool, ck: Checkpoint,
                    op: Option<Operation>)
    requires Trusted(lease, input, ck, op) && !Asks(ck) && ck.pending == []
    ensures Exact(if HasFailed(ck.values.value) then Halt(Failed) else ClassifyEnd(lease, ck.values.value, op),
                  lease, input, started, temporary, ck, op)
  {
    if SuccessDue(lease, ck.values.value, op) { NotFailed(ck.values.value); }
  }

  lemma GoesOnExactly(lease: Lease, input: RunInput, started: bool, temporary: bool, ck: Checkpoint,
                      op: Option<Operation>)
    requires Trusted(lease, input, ck, op) && !Asks(ck) && ck.pending != []
    ensures Exact(if HasFailed(ck.values.value) then Halt(Failed) else ClassifyPending(lease, input, ck, temporary),
                  lease, input, started, temporary, ck, op)
  {
    forall n { MayRunExactly(lease, input, n); }
  }

  lemma TrustedIs(lease: Lease, input: RunInput, started: bool, temporary: bool, ck: Checkpoint, op: Option<Operation>)
    requires Trusted(lease, input, ck, op)
    ensures Classify(lease, input, started, temporary, ck, op)
            == if Asks(ck) then ClassifyInterrupt(lease, input, ck.values.value, ck.pending)
               else if HasFailed(ck.values.value) then Halt(Failed)
               else if ck.pending == [] then ClassifyEnd(lease, ck.values.value, op)
               else ClassifyPending(lease, input, ck, temporary)
  {
    hide ClassifyInterrupt, ClassifyEnd, ClassifyPending, CheckpointBound, InputIntact, Known, WriteAccounted;
    BelongsExactly(lease, input, ck);
    AccountedExactly(lease, ck.values.value, ck.pending, op);
  }

  lemma UntrustedExactly(lease: Lease, input: RunInput, started: bool, temporary: bool, ck: Checkpoint,
                         op: Option<Operation>)
    requires !Trusted(lease, input, ck, op)
    ensures Exact(Classify(lease, input, started, temporary, ck, op), lease, input, started, temporary, ck, op)
  {
    hide ClassifyInterrupt, ClassifyEnd, ClassifyPending, CheckpointBound, InputIntact, Known, WriteAccounted;
    BelongsExactly(lease, input, ck);
    if ck.values.Some? { AccountedExactly(lease, ck.values.value, ck.pending, op); }
  }

  /** Of all answers exactly the warranted one is given, and a failure exactly when none is warranted. */
  lemma ClassifiesExactly(lease: Lease, input: RunInput, started: bool, temporary: bool, ck: Checkpoint,
                          op: Option<Operation>)
    ensures var answer := Classify(lease, input, started, temporary, ck, op);
            && (forall d :: Warranted(d, lease, input, started, temporary, ck, op) ==> d == answer)
            && (answer != Halt(Failed) ==> Warranted(answer, lease, input, started, temporary, ck, op))
  {
    hide Classify, ClassifyInterrupt, ClassifyEnd, ClassifyPending, Trusted, Warranted;
    if Trusted(lease, input, ck, op) {
      TrustedIs(lease, input, started, temporary, ck, op);
      if Asks(ck) { InterruptsExactly(lease, input, started, temporary, ck, op); }
      else if ck.pending == [] { EndsExactly(lease, input, started, temporary, ck, op); }
      else { GoesOnExactly(lease, input, started, temporary, ck, op); }
    } else {
      UntrustedExactly(lease, input, started, temporary, ck, op);
    }
  }
}
