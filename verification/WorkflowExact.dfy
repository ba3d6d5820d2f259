/** Every transition, on any snapshot of the right shape: the exact condition under which it commits, in
    terms of what the tables hold, and all that it writes. The shape makes many guards of the
    statements redundant; what remains is what a caller has to look at. */
module WorkflowExact {
  import opened Records
  import opened WorkflowState
  import opened WorkflowStore

  // The worker's own lease, which has not expired.
  predicate Live(s: Snapshot, worker: WorkerId, at: Time) {
    match s.workflow.lease
    case Some(Lease(owner, expiresAt)) => owner == worker && at < expiresAt
    case None => false
  }

  // `index` counts from 1 and names the step that the cursor has reached.
  predicate Reached(s: Snapshot, index: int) {
    s.workflow.currentStep < |s.steps| && index == s.workflow.currentStep + 1
  }

  // A time that is set once.
  function Since(t: Option<Time>, at: Time): Option<Time> { if t.Some? then t else Some(at) }

  function Writes(s: Snapshot, index: int, step: Step, w: Workflow): Reply
    requires 1 <= index <= |s.steps|
  {
    Committed(Snapshot(w, s.steps[index - 1 := step]))
  }

  // Anybody takes a pending workflow, or a running one whose lease has expired; its owner takes it
  // again at any time, and the new expiry replaces the old one.
  lemma ClaimIs(s: Snapshot, worker: WorkerId, at: Time, expiresAt: Time)
    requires Shape(s)
    ensures var w := s.workflow;
            Apply(s, Claim(worker, at, expiresAt)) ==
            if w.status == WfPending
               || (w.status == WfRunning && (w.lease.value.owner == worker || w.lease.value.expiresAt <= at))
            then Committed(Snapshot(w.(status := WfRunning, lease := Some(Lease(worker, expiresAt)),
                                       startedAt := Since(w.startedAt, at)), s.steps))
            else Missed
  {}

  lemma GuardIs(s: Snapshot, worker: WorkerId, index: int, at: Time)
    requires Shape(s)
    ensures Apply(s, CompleteGuard(worker, index, at)) ==
            if s.workflow.status == WfRunning && Live(s, worker, at) && Reached(s, index) && s.steps[index - 1].tool.None?
            then var step := s.steps[index - 1];
                 Writes(s, index, step.(status := Succeeded, attempts := 1, result := Some(GuardConfirmed),
                                        startedAt := Since(step.startedAt, at), completedAt := Some(at)),
                        s.workflow.(currentStep := index))
            else Missed
  {
    if Reached(s, index) { assert StatusFits(s, index - 1) && ColumnsFit(s.steps[index - 1]); }
  }

  lemma StartIs(s: Snapshot, worker: WorkerId, index: int, key: Key, at: Time)
    requires Shape(s)
    ensures Apply(s, StartTool(worker, index, key, at)) ==
            if s.workflow.status == WfRunning && Live(s, worker, at) && Reached(s, index)
               && s.steps[index - 1].tool.Some? && s.steps[index - 1].key.None?
            then var step := s.steps[index - 1];
                 Writes(s, index, step.(status := Running, attempts := 1, key := Some(key),
                                        startedAt := Since(step.startedAt, at), lease := s.workflow.lease), s.workflow)
            else Missed
  {
    if Reached(s, index) { assert StatusFits(s, index - 1) && ColumnsFit(s.steps[index - 1]); }
  }

  lemma CompleteIs(s: Snapshot, worker: WorkerId, index: int, key: Key, output: ToolResult, finish: bool, at: Time)
    requires Shape(s)
    ensures Apply(s, CompleteTool(worker, index, key, output, finish, at)) ==
            if s.workflow.status == WfRunning && Live(s, worker, at) && Reached(s, index) && s.steps[index - 1].key == Some(key)
            then Writes(s, index, s.steps[index - 1].(status := Succeeded, result := Some(Effect(output)),
                                                      completedAt := Some(at), lease := None),
                        if finish then s.workflow.(currentStep := index, status := WfSucceeded, completedAt := Some(at), lease := None)
                        else s.workflow.(currentStep := index))
            else Missed
  {
    if Reached(s, index) { assert StatusFits(s, index - 1) && ColumnsFit(s.steps[index - 1]); }
  }

  // A failure keeps the lease, so that its holder goes on to compensate.
  lemma FailIs(s: Snapshot, worker: WorkerId, index: int, key: Key, error: string, at: Time)
    requires Shape(s)
    ensures Apply(s, FailTool(worker, index, key, error, at)) ==
            if s.workflow.status == WfRunning && Live(s, worker, at) && Reached(s, index) && s.steps[index - 1].key == Some(key)
            then Writes(s, index, s.steps[index - 1].(status := Failed, error := Some(error), completedAt := Some(at), lease := None),
                        s.workflow.(status := WfFailed, lastError := Some(error)))
            else Missed
  {
    if Reached(s, index) { assert StatusFits(s, index - 1) && ColumnsFit(s.steps[index - 1]); }
  }

  // There is something to unwind exactly if a tool comes before the failed step.
  lemma BeginIs(s: Snapshot, worker: WorkerId, at: Time)
    requires Shape(s)
    ensures var w := s.workflow;
            Apply(s, BeginCompensation(worker, at)) ==
            if w.status != WfFailed || !Live(s, worker, at) then Missed
            else if exists i :: 0 <= i < w.currentStep && s.steps[i].tool.Some?
            then Committed(Snapshot(w.(status := WfCompensating), s.steps))
            else Committed(Snapshot(w.(status := WfCompensated, completedAt := Some(at), lease := None), s.steps))
  {
    if s.workflow.status == WfFailed {
      forall i | 0 <= i < |s.steps| ensures s.steps[i].status == Succeeded <==> i < s.workflow.currentStep {
        assert StatusFits(s, i);
      }
    }
  }

  // Any tool step before the failed one that still has its effect can be next; which, is up to the caller.
  lemma StartUnwindingIs(s: Snapshot, worker: WorkerId, index: int, at: Time)
    requires Shape(s)
    ensures Apply(s, StartCompensation(worker, index, at)) ==
            if s.workflow.status == WfCompensating && Live(s, worker, at) && 1 <= index <= s.workflow.currentStep
               && s.steps[index - 1].tool.Some? && s.steps[index - 1].status == Succeeded
            then Writes(s, index, s.steps[index - 1].(status := Compensating, lease := s.workflow.lease), s.workflow)
            else Missed
  {
    if 1 <= index <= |s.steps| { assert StatusFits(s, index - 1) && ColumnsFit(s.steps[index - 1]); }
  }

  // The reversal joins the effect in the step's result. Finishing closes the workflow, and raises
  // while another effect remains.
  lemma CompleteUnwindingIs(s: Snapshot, worker: WorkerId, index: int, output: ToolResult, finish: bool, at: Time)
    requires Shape(s)
    ensures Apply(s, CompleteCompensation(worker, index, output, finish, at)) ==
            if s.workflow.status != WfCompensating || !Live(s, worker, at) || !(1 <= index <= |s.steps|)
               || s.steps[index - 1].status != Compensating
            then Missed
            else if finish && exists i :: 0 <= i < |s.steps| && s.steps[i].tool.Some? && s.steps[i].status == Succeeded
            then Raised
            else Writes(s, index, s.steps[index - 1].(status := Compensated, completedAt := Some(at), lease := None,
                                                      result := Some(Unwound(s.steps[index - 1].result.value, output))),
                        if finish then s.workflow.(status := WfCompensated, completedAt := Some(at), lease := None) else s.workflow)
  {
    if 1 <= index <= |s.steps| && s.steps[index - 1].status == Compensating {
      assert StatusFits(s, index - 1) && ColumnsFit(s.steps[index - 1]);
      var mid := AfterStep(s, CompleteCompensation(worker, index, output, finish, at));
      assert forall i :: 0 <= i < |s.steps| && i != index - 1 ==> mid.steps[i] == s.steps[i];
      assert EffectRemains(mid) <==> exists i :: 0 <= i < |s.steps| && s.steps[i].tool.Some? && s.steps[i].status == Succeeded by {
        if EffectRemains(mid) {
          var i :| 0 <= i < |mid.steps| && mid.steps[i].tool.Some? && mid.steps[i].status == Succeeded;
          assert s.steps[i] == mid.steps[i];
        }
        if i :| 0 <= i < |s.steps| && s.steps[i].tool.Some? && s.steps[i].status == Succeeded { assert mid.steps[i] == s.steps[i]; }
      }
    }
  }

  // A transaction of two statements between which others commit: nothing where it would have missed on
  // the state it started from, otherwise the whole transition on the state that the others left, or none
  // of it and an exception.
  lemma InterruptedIs(db: Database, id: WorkflowId, op: Op, rivals: seq<Op>)
    requires HasStepStatement(op) && !op.StartTool? && id in db
    ensures var met := Apply(Run(db[id], rivals), op);
            Interrupted(db, id, op, rivals) ==
            if Apply(db[id], op).Missed? then Missed else if met.Committed? then met else Raised
  {
    hide Run, StepMatches, WorkflowMatches;
  }

  // Over all workflows, a start alone can meet the unique constraint on keys: it raises exactly if
  // some other step has the key.
  lemma StartRaisesIff(db: Database, id: WorkflowId, worker: WorkerId, index: int, key: Key, at: Time)
    requires Consistent(db)
    ensures var op := StartTool(worker, index, key, at);
            && (ApplyTo(db, id, op).Raised? <==>
                id in db && Apply(db[id], op).Committed?
                && exists other, i :: other in db && 0 <= i < |db[other].steps| && db[other].steps[i].key == Some(key))
            && (!ApplyTo(db, id, op).Raised? && id in db ==> ApplyTo(db, id, op) == Apply(db[id], op))
  {
    if id in db && Apply(db[id], StartTool(worker, index, key, at)).Committed? {
      assert ColumnsFit(db[id].steps[index - 1]);
      assert db[id].steps[index - 1].key.None?;
    }
  }
}
