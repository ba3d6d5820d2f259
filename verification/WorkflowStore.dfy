/** The tables behind the workflow-state adapter. Each method is one transaction of guarded UPDATEs;
    the pure transitions of WorkflowState are its specification. */
module WorkflowStore {
  import opened Records
  import opened WorkflowState
  import opened WorkflowInterleaving

  // workflow_instances and workflow_steps, joined by workflow id.
  type Database = map<WorkflowId, Snapshot>

  // The unique constraint on workflow_steps.idempotency_key.
  predicate KeyTaken(db: Database, id: WorkflowId, index: int, key: Key) {
    exists other, i :: other in db && 0 <= i < |db[other].steps| && (other != id || i != index - 1)
      && db[other].steps[i].key == Some(key)
  }

  function ApplyTo(db: Database, id: WorkflowId, op: Op): Reply {
    if id !in db then Missed
    else
      var reply := Apply(db[id], op);
      if reply.Committed? && op.StartTool? && KeyTaken(db, id, op.index, op.key) then Raised else reply
  }

  function DatabaseAfter(db: Database, id: WorkflowId, op: Op): Database {
    match ApplyTo(db, id, op)
    case Committed(t) => db[id := t]
    case _ => db
  }

  // What a two-statement transaction finds when `rivals` commit after its first statement.
  function Met(db: Database, id: WorkflowId, rivals: seq<Op>): Database {
    if id in db then db[id := Run(db[id], rivals)] else db
  }

  // ... and what it answers: None for a first statement that misses, an exception for a second.
  function Interrupted(db: Database, id: WorkflowId, op: Op, rivals: seq<Op>): Reply
    requires HasStepStatement(op)
  {
    if id !in db || !StepMatches(db[id], op) then Missed
    else
      var reply := ApplyTo(Met(db, id, rivals), id, op);
      if reply.Committed? then reply else Raised
  }

  class WorkflowTables {
    var db: Database

    constructor ()
      ensures db == map[]
    {
      db := map[];
    }

    // create: a second snapshot under an existing primary key fails, and so does a duplicate step key.
    method Create(id: WorkflowId, snapshot: Snapshot) returns (ok: bool)
      modifies this
      ensures ok == (id !in old(db) && KeysUnique(old(db)[id := snapshot]))
      ensures db == if ok then old(db)[id := snapshot] else old(db)
    {
      ok := id !in db && KeysUnique(db[id := snapshot]);
      if ok { db := db[id := snapshot]; }
    }

    // A step row joined with its workflow row under the caller's live lease.
    predicate Leased(id: WorkflowId, worker: WorkerId, index: int, at: Time, status: WorkflowStatus)
      reads this
    {
      id in db && 1 <= index <= |db[id].steps| && db[id].workflow.status == status
      && HoldsLease(db[id].workflow, worker, at)
    }

    method SetStep(id: WorkflowId, index: int, step: Step)
      requires id in db && 1 <= index <= |db[id].steps|
      modifies this
      ensures db == old(db)[id := old(db[id]).(steps := old(db[id]).steps[index - 1 := step])]
    {
      var s := db[id];
      db := db[id := s.(steps := s.steps[index - 1 := step])];
    }

    method SetWorkflow(id: WorkflowId, w: Workflow)
      requires id in db
      modifies this
      ensures db == old(db)[id := old(db[id]).(workflow := w)]
    {
      db := db[id := db[id].(workflow := w)];
    }

    // Other workers commit here. They do not see the step row this transaction has written over
    // `before`, and its lock keeps them from writing it.
    method Interpose(id: WorkflowId, op: Op, before: Snapshot, rivals: seq<Op>)
      requires id in db && TwoStatements(op) && StepRowMatches(before, op) && db[id] == AfterStep(before, op)
      requires forall r :: r in rivals ==> Unblocked(op, r)
      modifies this
      ensures var met := Run(before, rivals);
              && StepRowMatches(met, op) && db == old(db)[id := AfterStep(met, op)]
              && db[id].steps[op.index - 1 := before.steps[op.index - 1]] == met.steps
              && (WorkflowMatches(db[id], op) <==> Apply(met, op).Committed?)
              && (Apply(met, op).Committed? ==> Apply(met, op).after == AfterWorkflow(db[id], op))
    {
      var met := Run(before, rivals);
      RivalsLeaveLockedRow(before, op, rivals);
      SecondStatementDecides(met, op);
      var mine := db[id].steps[op.index - 1];
      db := db[id := met.(steps := met.steps[op.index - 1 := mine])];
    }

    method ClaimWorkflow(id: WorkflowId, worker: WorkerId, at: Time, expiresAt: Time) returns (reply: Reply)
      modifies this
      ensures reply == ApplyTo(old(db), id, Claim(worker, at, expiresAt))
      ensures db == DatabaseAfter(old(db), id, Claim(worker, at, expiresAt))
    {
      if id !in db { return Missed; }
      var w := db[id].workflow;
      var live := w.lease.Some? && w.lease.value.owner == worker && w.lease.value.expiresAt > at;
      var expired := w.lease.Some? && w.lease.value.expiresAt <= at;
      if !(w.status == WfPending || (w.status == WfRunning && (live || expired))) { return Missed; }
      SetWorkflow(id, w.(status := WfRunning, lease := Some(Lease(worker, expiresAt)),
                         startedAt := Coalesce(w.startedAt, at)));
      reply := Committed(db[id]);
    }

    method CompleteGuardStep(id: WorkflowId, worker: WorkerId, index: int, at: Time, rivals: seq<Op>)
      returns (reply: Reply)
      requires forall r :: r in rivals ==> Unblocked(CompleteGuard(worker, index, at), r)
      modifies this
      ensures var op := CompleteGuard(worker, index, at);
              && reply == Interrupted(old(db), id, op, rivals)
              && db == (if reply.Missed? then old(db) else DatabaseAfter(Met(old(db), id, rivals), id, op))
    {
      hide KeyTaken, Run, Unblocked;
      if !(Leased(id, worker, index, at, WfRunning) && db[id].workflow.currentStep == index - 1) { return Missed; }
      var before := db[id];
      var step := before.steps[index - 1];
      if step.tool.Some? || step.status != Pending { return Missed; }
      SetStep(id, index, step.(status := Succeeded, attempts := step.attempts + 1,
                               startedAt := Coalesce(step.startedAt, at), completedAt := Some(at),
                               result := Some(GuardConfirmed)));
      Interpose(id, CompleteGuard(worker, index, at), before, rivals);
      var w := db[id].workflow;
      if !(w.status == WfRunning && HoldsLease(w, worker, at) && w.currentStep == index - 1) {
        SetStep(id, index, step);  // roll back
        return Raised;
      }
      SetWorkflow(id, w.(currentStep := index));
      reply := Committed(db[id]);
    }

    method StartToolStep(id: WorkflowId, worker: WorkerId, index: int, key: Key, at: Time) returns (reply: Reply)
      modifies this
      ensures reply == ApplyTo(old(db), id, StartTool(worker, index, key, at))
      ensures db == DatabaseAfter(old(db), id, StartTool(worker, index, key, at))
    {
      if !(Leased(id, worker, index, at, WfRunning) && db[id].workflow.currentStep == index - 1) { return Missed; }
      var step := db[id].steps[index - 1];
      if step.tool.None? || step.status != Pending { return Missed; }
      if KeyTaken(db, id, index, key) { return Raised; }
      SetStep(id, index, step.(status := Running, key := Some(key), attempts := step.attempts + 1,
                               startedAt := Coalesce(step.startedAt, at), lease := db[id].workflow.lease));
      reply := Committed(db[id]);
    }

    method CompleteToolStep(id: WorkflowId, worker: WorkerId, index: int, key: Key, output: ToolResult,
                            finish: bool, at: Time, rivals: seq<Op>) returns (reply: Reply)
      requires forall r :: r in rivals ==> Unblocked(CompleteTool(worker, index, key, output, finish, at), r)
      modifies this
      ensures var op := CompleteTool(worker, index, key, output, finish, at);
              && reply == Interrupted(old(db), id, op, rivals)
              && db == (if reply.Missed? then old(db) else DatabaseAfter(Met(old(db), id, rivals), id, op))
    {
      hide KeyTaken, Run, Unblocked;
      if !(Leased(id, worker, index, at, WfRunning) && db[id].workflow.currentStep == index - 1) { return Missed; }
      var before := db[id];
      var step := before.steps[index - 1];
      if step.tool.None? || step.status != Running || step.key != Some(key) { return Missed; }
      SetStep(id, index, step.(status := Succeeded, result := Some(Effect(output)),
                               completedAt := Some(at), lease := None));
      Interpose(id, CompleteTool(worker, index, key, output, finish, at), before, rivals);
      var w := db[id].workflow;
      if !(w.status == WfRunning && HoldsLease(w, worker, at) && w.currentStep == index - 1) {
        SetStep(id, index, step);  // roll back
        return Raised;
      }
      w := w.(currentStep := index);
      if finish { w := w.(status := WfSucceeded, completedAt := Some(at), lease := None); }
      SetWorkflow(id, w);
      reply := Committed(db[id]);
    }

    method FailToolStep(id: WorkflowId, worker: WorkerId, index: int, key: Key, error: string, at: Time,
                        rivals: seq<Op>) returns (reply: Reply)
      requires forall r :: r in rivals ==> Unblocked(FailTool(worker, index, key, error, at), r)
      modifies this
      ensures var op := FailTool(worker, index, key, error, at);
              && reply == Interrupted(old(db), id, op, rivals)
              && db == (if reply.Missed? then old(db) else DatabaseAfter(Met(old(db), id, rivals), id, op))
    {
      hide KeyTaken, Run, Unblocked;
      if !(Leased(id, worker, index, at, WfRunning) && db[id].workflow.currentStep == index - 1) { return Missed; }
      var before := db[id];
      var step := before.steps[index - 1];
      if step.tool.None? || step.status != Running || step.key != Some(key) { return Missed; }
      SetStep(id, index, step.(status := Failed, error := Some(error), completedAt := Some(at), lease := None));
      Interpose(id, FailTool(worker, index, key, error, at), before, rivals);
      var w := db[id].workflow;
      if !(w.status == WfRunning && HoldsLease(w, worker, at) && w.currentStep == index - 1) {
        SetStep(id, index, step);  // roll back
        return Raised;
      }
      SetWorkflow(id, w.(status := WfFailed, lastError := Some(error)));
      reply := Committed(db[id]);
    }

    method BeginCompensationOf(id: WorkflowId, worker: WorkerId, at: Time) returns (reply: Reply)
      modifies this
      ensures reply == ApplyTo(old(db), id, BeginCompensation(worker, at))
      ensures db == DatabaseAfter(old(db), id, BeginCompensation(worker, at))
    {
      if id !in db { return Missed; }
      var w := db[id].workflow;
      if !(w.status == WfFailed && HoldsLease(w, worker, at)) { return Missed; }
      if EffectRemains(db[id]) {
        SetWorkflow(id, w.(status := WfCompensating));
      } else {
        SetWorkflow(id, w.(status := WfCompensated, completedAt := Some(at), lease := None));
      }
      reply := Committed(db[id]);
    }

    method StartCompensationStep(id: WorkflowId, worker: WorkerId, index: int, at: Time) returns (reply: Reply)
      modifies this
      ensures reply == ApplyTo(old(db), id, StartCompensation(worker, index, at))
      ensures db == DatabaseAfter(old(db), id, StartCompensation(worker, index, at))
    {
      if !Leased(id, worker, index, at, WfCompensating) { return Missed; }
      var step := db[id].steps[index - 1];
      if step.tool.None? || step.status != Succeeded { return Missed; }
      SetStep(id, index, step.(status := Compensating, lease := db[id].workflow.lease));
      reply := Committed(db[id]);
    }

    method CompleteCompensationStep(id: WorkflowId, worker: WorkerId, index: int, output: ToolResult,
                                    finish: bool, at: Time, rivals: seq<Op>) returns (reply: Reply)
      requires finish ==> forall r :: r in rivals ==> Unblocked(CompleteCompensation(worker, index, output, true, at), r)
      modifies this
      ensures var op := CompleteCompensation(worker, index, output, finish, at);
              if finish then
                && reply == Interrupted(old(db), id, op, rivals)
                && db == (if reply.Missed? then old(db) else DatabaseAfter(Met(old(db), id, rivals), id, op))
              else reply == ApplyTo(old(db), id, op) && db == DatabaseAfter(old(db), id, op)
    {
      hide KeyTaken, Run, Unblocked;
      if !Leased(id, worker, index, at, WfCompensating) { return Missed; }
      var before := db[id];
      var step := before.steps[index - 1];
      if step.tool.None? || step.status != Compensating { return Missed; }
      var effect := if step.result.Some? then step.result.value else EmptyResult;
      SetStep(id, index, step.(status := Compensated, result := Some(Unwound(effect, output)),
                               completedAt := Some(at), lease := None));
      if finish {
        Interpose(id, CompleteCompensation(worker, index, output, true, at), before, rivals);
        var w := db[id].workflow;
        if !(w.status == WfCompensating && HoldsLease(w, worker, at)) || EffectRemains(db[id]) {
          SetStep(id, index, step);  // roll back
          return Raised;
        }
        SetWorkflow(id, w.(status := WfCompensated, completedAt := Some(at), lease := None));
      }
      reply := Committed(db[id]);
    }
  }

  // ---- consistency of the whole store over every run of callers ----

  // No key is the key of two steps, in any workflows.
  predicate KeysUnique(db: Database) {
    forall a, i, b, j :: a in db && b in db && 0 <= i < |db[a].steps| && 0 <= j < |db[b].steps| ==>
      SameKey(db[a].steps[i], db[b].steps[j]) ==> a == b && i == j
  }

  predicate SameKey(x: Step, y: Step) { x.key.Some? && x.key == y.key }

  predicate Consistent(db: Database) {
    (forall id :: id in db ==> Shape(db[id])) && KeysUnique(db)
  }

  lemma StartKeepsKeysUnique(db: Database, id: WorkflowId, op: Op)
    requires KeysUnique(db) && ApplyTo(db, id, op).Committed?
    ensures KeysUnique(DatabaseAfter(db, id, op))
  {
    var after := DatabaseAfter(db, id, op);
    var s, t := db[id], after[id];
    assert |t.steps| == |s.steps|;
    forall a, i, b, j |
      a in after && b in after && 0 <= i < |after[a].steps| && 0 <= j < |after[b].steps|
      && SameKey(after[a].steps[i], after[b].steps[j])
      ensures a == b && i == j
    {
      var x, y := after[a].steps[i], after[b].steps[j];
      var newX := op.StartTool? && a == id && i == op.index - 1;
      var newY := op.StartTool? && b == id && j == op.index - 1;
      if !newX { assert db[a].steps[i].key == x.key; }
      if !newY { assert db[b].steps[j].key == y.key; }
      if !newX && !newY { assert SameKey(db[a].steps[i], db[b].steps[j]); }
    }
  }

  lemma ApplyToKeepsConsistency(db: Database, id: WorkflowId, op: Op)
    requires Consistent(db) && (id in db ==> Driven(db[id], op))
    ensures Consistent(DatabaseAfter(db, id, op))
  {
    if ApplyTo(db, id, op).Committed? {
      ApplyKeepsShape(db[id], op);
      StartKeepsKeysUnique(db, id, op);
    }
  }

  // In one serial transaction the second statement never misses: the only ways to raise are a key
  // that another step owns and a finish while an effect remains.
  lemma SerialCallsRaiseOnlyWhen(db: Database, id: WorkflowId, op: Op)
    requires Consistent(db)
    ensures ApplyTo(db, id, op).Raised? <==>
            id in db && (|| (op.StartTool? && StepMatches(db[id], op) && KeyTaken(db, id, op.index, op.key))
                         || (op.CompleteCompensation? && op.finish && StepMatches(db[id], op)
                             && EffectRemains(AfterStep(db[id], op))))
  {}
}
