/** One workflow instance and its ordered durable steps: the guarded UPDATE statements, the
    transitions built from them, and what every run of them keeps. */
module WorkflowState {
  import opened Records

  datatype WorkflowStatus = WfPending | WfRunning | WfSucceeded | WfFailed | WfCompensating | WfCompensated
  datatype StepStatus = Pending | Running | Succeeded | Failed | Compensating | Compensated

  // A check constraint keeps owner and expiry both null or both present, hence Option<Lease>.
  datatype Lease = Lease(owner: WorkerId, expiresAt: Time)

  datatype StepResult =
    | EmptyResult
    | GuardConfirmed
    | Effect(output: ToolResult)
    | Unwound(effect: StepResult, compensation: ToolResult)

  datatype Workflow = Workflow(
    status: WorkflowStatus, currentStep: nat, lease: Option<Lease>, lastError: Option<string>,
    startedAt: Option<Time>, completedAt: Option<Time>)

  // tool == None marks a read-only guard. The step with step_index i is steps[i - 1].
  datatype Step = Step(
    tool: Option<ToolName>, status: StepStatus, key: Option<Key>, result: Option<StepResult>,
    error: Option<string>, attempts: nat, lease: Option<Lease>,
    startedAt: Option<Time>, completedAt: Option<Time>)

  datatype Snapshot = Snapshot(workflow: Workflow, steps: seq<Step>)

  datatype Op =
    | Claim(worker: WorkerId, at: Time, expiresAt: Time)
    | CompleteGuard(worker: WorkerId, index: int, at: Time)
    | StartTool(worker: WorkerId, index: int, key: Key, at: Time)
    | CompleteTool(worker: WorkerId, index: int, key: Key, output: ToolResult, finish: bool, at: Time)
    | FailTool(worker: WorkerId, index: int, key: Key, error: string, at: Time)
    | BeginCompensation(worker: WorkerId, at: Time)
    | StartCompensation(worker: WorkerId, index: int, at: Time)
    | CompleteCompensation(worker: WorkerId, index: int, output: ToolResult, finish: bool, at: Time)

  // Missed: the first statement matched no row and the call returns None. Raised: a later
  // statement matched no row, the call raises and the transaction rolls back.
  datatype Reply = Missed | Raised | Committed(after: Snapshot)

  // ---- the statements ----

  predicate HoldsLease(w: Workflow, worker: WorkerId, at: Time) {
    w.lease.Some? && w.lease.value.owner == worker && w.lease.value.expiresAt > at
  }

  predicate Claimable(w: Workflow, worker: WorkerId, at: Time) {
    || w.status == WfPending
    || (w.status == WfRunning && w.lease.Some? &&
        (HoldsLease(w, worker, at) || w.lease.value.expiresAt <= at))
  }

  function Coalesce(t: Option<Time>, at: Time): Option<Time> {
    if t.None? then Some(at) else t
  }

  predicate HasStepStatement(op: Op) { !op.Claim? && !op.BeginCompensation? }

  predicate HasWorkflowStatement(op: Op) {
    op.Claim? || op.CompleteGuard? || op.CompleteTool? || op.FailTool? || op.BeginCompensation?
    || (op.CompleteCompensation? && op.finish)
  }

  predicate Row(s: Snapshot, index: int) { 1 <= index <= |s.steps| }

  predicate AtCursor(s: Snapshot, index: int) { s.workflow.currentStep == index - 1 }

  predicate EffectRemains(s: Snapshot) {
    exists i :: 0 <= i < |s.steps| && s.steps[i].tool.Some? && s.steps[i].status == Succeeded
  }

  // The WHERE clause of the UPDATE on workflow_steps.
  predicate StepMatches(s: Snapshot, op: Op)
    requires HasStepStatement(op)
  {
    && Row(s, op.index)
    && HoldsLease(s.workflow, op.worker, op.at)
    && var step := s.steps[op.index - 1];
    match op
    case CompleteGuard(_, i, _) =>
      s.workflow.status == WfRunning && AtCursor(s, i) && step.tool.None? && step.status == Pending
    case StartTool(_, i, _, _) =>
      s.workflow.status == WfRunning && AtCursor(s, i) && step.tool.Some? && step.status == Pending
    case CompleteTool(_, i, key, _, _, _) =>
      && s.workflow.status == WfRunning && AtCursor(s, i)
      && step.tool.Some? && step.status == Running && step.key == Some(key)
    case FailTool(_, i, key, _, _) =>
      && s.workflow.status == WfRunning && AtCursor(s, i)
      && step.tool.Some? && step.status == Running && step.key == Some(key)
    case StartCompensation(_, _, _) =>
      s.workflow.status == WfCompensating && step.tool.Some? && step.status == Succeeded
    case CompleteCompensation(_, _, _, _, _) =>
      s.workflow.status == WfCompensating && step.tool.Some? && step.status == Compensating
  }

  // Its SET clause.
  function NewStep(s: Snapshot, op: Op): Step
    requires HasStepStatement(op) && Row(s, op.index)
  {
    var step := s.steps[op.index - 1];
    match op
    case CompleteGuard(_, _, at) =>
      step.(status := Succeeded, attempts := step.attempts + 1, startedAt := Coalesce(step.startedAt, at),
            completedAt := Some(at), result := Some(GuardConfirmed))
    case StartTool(_, _, key, at) =>
      step.(status := Running, key := Some(key), attempts := step.attempts + 1,
            startedAt := Coalesce(step.startedAt, at), lease := s.workflow.lease)
    case CompleteTool(_, _, _, output, _, at) =>
      step.(status := Succeeded, result := Some(Effect(output)), completedAt := Some(at), lease := None)
    case FailTool(_, _, _, error, at) =>
      step.(status := Failed, error := Some(error), completedAt := Some(at), lease := None)
    case StartCompensation(_, _, _) =>
      step.(status := Compensating, lease := s.workflow.lease)
    case CompleteCompensation(_, _, output, _, at) =>
      step.(status := Compensated,
            result := Some(Unwound(if step.result.Some? then step.result.value else EmptyResult, output)),
            completedAt := Some(at), lease := None)
  }

  // The WHERE clause of the UPDATE on workflow_instances, read after the step statement.
  predicate WorkflowMatches(s: Snapshot, op: Op)
    requires HasWorkflowStatement(op)
  {
    match op
    case Claim(worker, at, _) => Claimable(s.workflow, worker, at)
    case CompleteGuard(worker, i, at) =>
      s.workflow.status == WfRunning && HoldsLease(s.workflow, worker, at) && AtCursor(s, i)
    case CompleteTool(worker, i, _, _, _, at) =>
      s.workflow.status == WfRunning && HoldsLease(s.workflow, worker, at) && AtCursor(s, i)
    case FailTool(worker, i, _, _, at) =>
      s.workflow.status == WfRunning && HoldsLease(s.workflow, worker, at) && AtCursor(s, i)
    case BeginCompensation(worker, at) =>
      s.workflow.status == WfFailed && HoldsLease(s.workflow, worker, at)
    case CompleteCompensation(worker, _, _, _, at) =>
      s.workflow.status == WfCompensating && HoldsLease(s.workflow, worker, at) && !EffectRemains(s)
  }

  function NewWorkflow(s: Snapshot, op: Op): Workflow
    requires HasWorkflowStatement(op) && WorkflowMatches(s, op)
  {
    var w := s.workflow;
    match op
    case Claim(worker, at, expiresAt) =>
      w.(status := WfRunning, lease := Some(Lease(worker, expiresAt)), startedAt := Coalesce(w.startedAt, at))
    case CompleteGuard(_, i, _) => w.(currentStep := i)
    case CompleteTool(_, i, _, _, finish, at) =>
      if finish then w.(currentStep := i, status := WfSucceeded, completedAt := Some(at), lease := None)
      else w.(currentStep := i)
    case FailTool(_, _, _, error, _) => w.(status := WfFailed, lastError := Some(error))
    case BeginCompensation(_, at) =>
      if EffectRemains(s) then w.(status := WfCompensating)
      else w.(status := WfCompensated, completedAt := Some(at), lease := None)
    case CompleteCompensation(_, _, _, _, at) =>
      w.(status := WfCompensated, completedAt := Some(at), lease := None)
  }

  // ---- one transaction ----

  function AfterStep(s: Snapshot, op: Op): Snapshot
    requires HasStepStatement(op) ==> Row(s, op.index)
  {
    if HasStepStatement(op) then s.(steps := s.steps[op.index - 1 := NewStep(s, op)]) else s
  }

  function AfterWorkflow(s: Snapshot, op: Op): Snapshot
    requires HasWorkflowStatement(op) ==> WorkflowMatches(s, op)
  {
    if HasWorkflowStatement(op) then s.(workflow := NewWorkflow(s, op)) else s
  }

  function Apply(s: Snapshot, op: Op): Reply {
    if HasStepStatement(op) && !StepMatches(s, op) then Missed
    else
      var mid := AfterStep(s, op);
      if HasWorkflowStatement(op) && !WorkflowMatches(mid, op) then
        (if HasStepStatement(op) then Raised else Missed)
      else Committed(AfterWorkflow(mid, op))
  }

  function After(s: Snapshot, op: Op): Snapshot {
    match Apply(s, op)
    case Committed(t) => t
    case _ => s
  }

  // ---- the initial snapshot and what callers promise ----

  predicate Initial(s: Snapshot) {
    && s.workflow.status == WfPending && s.workflow.currentStep == 0 && s.workflow.lease.None?
    && |s.steps| >= 1 && s.steps[|s.steps| - 1].tool.Some?
    && forall i :: 0 <= i < |s.steps| ==> Untouched(s.steps[i])
  }

  predicate Untouched(step: Step) {
    && step.status == Pending && step.key.None? && step.result.None? && step.attempts == 0
    && step.lease.None? && step.error.None?
  }

  // The executor passes finish_workflow exactly for the last declared step. Nothing else is asked
  // of the callers: workers, times, indices and keys are arbitrary.
  predicate Driven(s: Snapshot, op: Op) {
    op.CompleteTool? ==> (op.finish <==> op.index == |s.steps|)
  }

  // The executor unwinds one effect at a time.
  predicate OneAtATime(s: Snapshot, op: Op) {
    op.StartCompensation? ==> forall i :: 0 <= i < |s.steps| ==> s.steps[i].status != Compensating
  }

  function Run(s: Snapshot, ops: seq<Op>): Snapshot
    decreases |ops|
  {
    if ops == [] then s else Run(After(s, ops[0]), ops[1..])
  }

  predicate DrivenRun(s: Snapshot, ops: seq<Op>)
    decreases |ops|
  {
    ops == [] || (Driven(s, ops[0]) && DrivenRun(After(s, ops[0]), ops[1..]))
  }

  predicate OneAtATimeRun(s: Snapshot, ops: seq<Op>)
    decreases |ops|
  {
    ops == [] || (OneAtATime(s, ops[0]) && OneAtATimeRun(After(s, ops[0]), ops[1..]))
  }

  // ---- the shape of every reachable snapshot ----

  predicate Unwinding(w: WorkflowStatus) { w == WfCompensating || w == WfCompensated }

  // The status of step i is fixed by the workflow status and the cursor, up to compensation.
  predicate StatusFits(s: Snapshot, i: nat)
    requires i < |s.steps|
  {
    var w, step := s.workflow, s.steps[i];
    if i < w.currentStep then
      step.status == Succeeded
      || (Unwinding(w.status) && step.tool.Some? && (step.status == Compensating || step.status == Compensated))
    else if i == w.currentStep then
      match w.status
      case WfPending => step.status == Pending
      case WfRunning => step.status == Pending || (step.status == Running && step.tool.Some?)
      case WfSucceeded => false
      case _ => step.status == Failed && step.tool.Some?
    else step.status == Pending
  }

  // The columns of a step are fixed by its status.
  predicate ColumnsFit(step: Step) {
    && (step.status == Pending ==> Untouched(step))
    && (step.status != Pending ==> step.attempts == 1 && (step.tool.Some? <==> step.key.Some?))
    && (step.lease.Some? <==> step.status == Running || step.status == Compensating)
    && (step.error.Some? <==> step.status == Failed)
    && match step.status
       case Succeeded => step.result.Some? && (if step.tool.Some? then step.result.value.Effect?
                                               else step.result.value.GuardConfirmed?)
       case Compensating => step.result.Some? && step.result.value.Effect?
       case Compensated => step.result.Some? && step.result.value.Unwound? && step.result.value.effect.Effect?
       case _ => step.result.None?
  }

  predicate Shape(s: Snapshot) {
    && |s.steps| >= 1 && s.steps[|s.steps| - 1].tool.Some?
    && s.workflow.currentStep <= |s.steps|
    && (s.workflow.currentStep == |s.steps| <==> s.workflow.status == WfSucceeded)
    && (s.workflow.status == WfPending ==> s.workflow.currentStep == 0)
    && (s.workflow.lease.Some? <==> s.workflow.status in {WfRunning, WfFailed, WfCompensating})
    && (s.workflow.status == WfCompensated ==> !EffectRemains(s))
    && (forall i :: 0 <= i < |s.steps| ==> StatusFits(s, i))
    && (forall i :: 0 <= i < |s.steps| ==> ColumnsFit(s.steps[i]))
  }

  lemma ApplyKeepsShape(s: Snapshot, op: Op)
    requires Shape(s) && Driven(s, op) && Apply(s, op).Committed?
    ensures Shape(Apply(s, op).after)
  {
    var t := Apply(s, op).after;
    var mid := AfterStep(s, op);
    assert t.steps == mid.steps && |t.steps| == |s.steps|;
    forall i | 0 <= i < |t.steps| ensures StatusFits(t, i) && ColumnsFit(t.steps[i]) {
      ApplyKeepsStatus(s, op, i);
      ApplyKeepsColumns(s, op, i);
    }
    hide ColumnsFit;
  }

  lemma ApplyKeepsStatus(s: Snapshot, op: Op, i: nat)
    requires Shape(s) && Driven(s, op) && Apply(s, op).Committed? && i < |s.steps|
    ensures i < |Apply(s, op).after.steps| && StatusFits(Apply(s, op).after, i)
  {
    hide ColumnsFit;
    assert StatusFits(s, i);
    if HasStepStatement(op) && i != op.index - 1 { assert Apply(s, op).after.steps[i] == s.steps[i]; }
  }

  lemma ApplyKeepsColumns(s: Snapshot, op: Op, i: nat)
    requires Shape(s) && Driven(s, op) && Apply(s, op).Committed? && i < |s.steps|
    ensures i < |Apply(s, op).after.steps| && ColumnsFit(Apply(s, op).after.steps[i])
  {
    hide StatusFits;
    assert ColumnsFit(s.steps[i]);
    if HasStepStatement(op) && i != op.index - 1 { assert Apply(s, op).after.steps[i] == s.steps[i]; }
  }

  lemma {:induction false} RunKeepsShape(s: Snapshot, ops: seq<Op>)
    requires Shape(s) && DrivenRun(s, ops)
    ensures Shape(Run(s, ops))
    decreases |ops|
  {
    if ops != [] {
      if Apply(s, ops[0]).Committed? { ApplyKeepsShape(s, ops[0]); }
      RunKeepsShape(After(s, ops[0]), ops[1..]);
    }
  }
}
