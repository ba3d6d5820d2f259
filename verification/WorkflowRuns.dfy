/** What whole runs of one workflow guarantee: a bound on the number of commits, the life of each
    step, and when compensation really is finished. */
module WorkflowRuns {
  import opened Records
  import opened WorkflowState

  // ---- termination: every commit other than a claim uses up rank ----

  function StepRank(step: Step): nat {
    if step.tool.None? then (if step.status == Pending then 1 else 0)
    else match step.status
         case Pending => 4
         case Running => 3
         case Succeeded => 2
         case Compensating => 1
         case _ => 0
  }

  function StepsRank(steps: seq<Step>): nat {
    if steps == [] then 0 else StepRank(steps[0]) + StepsRank(steps[1..])
  }

  function StatusRank(w: WorkflowStatus): int {
    match w
    case WfFailed => 1
    case WfCompensating => 0
    case WfCompensated => 0
    case _ => -1
  }

  function Rank(s: Snapshot): int { StepsRank(s.steps) + StatusRank(s.workflow.status) }

  lemma {:induction false} UpdateChangesRank(steps: seq<Step>, i: nat, step: Step)
    requires i < |steps|
    ensures StepsRank(steps[i := step]) == StepsRank(steps) - StepRank(steps[i]) + StepRank(step)
  {
    var changed := steps[i := step];
    if i == 0 {
      assert changed[1..] == steps[1..];
    } else {
      assert changed[1..] == steps[1..][i - 1 := step];
      UpdateChangesRank(steps[1..], i - 1, step);
    }
  }

  lemma {:induction false} RankIsAtLeast(steps: seq<Step>, i: nat)
    requires i < |steps|
    ensures StepsRank(steps) >= StepRank(steps[i])
  {
    if i > 0 { RankIsAtLeast(steps[1..], i - 1); }
  }

  // Only the holder of a live lease commits anything but a claim, and each such commit lowers the rank.
  lemma CommitLowersRank(s: Snapshot, op: Op)
    requires Shape(s) && Apply(s, op).Committed?
    ensures op.Claim? ==> Rank(Apply(s, op).after) == Rank(s)
    ensures !op.Claim? ==> Rank(Apply(s, op).after) < Rank(s) && HoldsLease(s.workflow, op.worker, op.at)
  {
    if HasStepStatement(op) {
      UpdateChangesRank(s.steps, op.index - 1, NewStep(s, op));
    }
  }

  lemma RankIsNatural(s: Snapshot)
    requires Shape(s)
    ensures Rank(s) >= 0
  {
    var last := |s.steps| - 1;
    RankIsAtLeast(s.steps, last);
    assert StatusFits(s, last);
  }

  function Commits(s: Snapshot, ops: seq<Op>): nat
    decreases |ops|
  {
    if ops == [] then 0
    else (if Apply(s, ops[0]).Committed? && !ops[0].Claim? then 1 else 0) + Commits(After(s, ops[0]), ops[1..])
  }

  lemma {:induction false} CommitsUseRank(s: Snapshot, ops: seq<Op>)
    requires Shape(s) && DrivenRun(s, ops)
    ensures Commits(s, ops) <= Rank(s)
    decreases |ops|
  {
    if ops == [] {
      RankIsNatural(s);
    } else {
      if Apply(s, ops[0]).Committed? {
        CommitLowersRank(s, ops[0]);
        ApplyKeepsShape(s, ops[0]);
      }
      CommitsUseRank(After(s, ops[0]), ops[1..]);
    }
  }

  function ToolSteps(steps: seq<Step>): nat {
    if steps == [] then 0 else (if steps[0].tool.Some? then 1 else 0) + ToolSteps(steps[1..])
  }

  lemma {:induction false} InitialStepsRank(steps: seq<Step>)
    requires forall i :: 0 <= i < |steps| ==> steps[i].status == Pending
    ensures StepsRank(steps) == 4 * ToolSteps(steps) + (|steps| - ToolSteps(steps))
  {
    if steps != [] { InitialStepsRank(steps[1..]); }
  }

  // However many workers crash, retry and lose leases: k tools and g guards commit at most
  // 4k + g - 1 transitions besides claims.
  lemma RunsCommitBoundedly(s: Snapshot, ops: seq<Op>)
    requires Initial(s) && DrivenRun(s, ops)
    ensures var k := ToolSteps(s.steps); Commits(s, ops) <= 4 * k + (|s.steps| - k) - 1
  {
    InitialHasShape(s);
    InitialStepsRank(s.steps);
    CommitsUseRank(s, ops);
  }

  lemma InitialHasShape(s: Snapshot)
    requires Initial(s)
    ensures Shape(s)
  {}

  // The bound is reached: the single effect of a one-step workflow fails and the workflow closes.
  lemma BoundIsReached(s: Snapshot, worker: WorkerId, key: Key) returns (ops: seq<Op>)
    requires Initial(s) && |s.steps| == 1
    ensures DrivenRun(s, ops) && Commits(s, ops) == 4 * ToolSteps(s.steps) + (1 - ToolSteps(s.steps)) - 1
  {
    var c, st := Claim(worker, 0, 10), StartTool(worker, 1, key, 1);
    var f, b := FailTool(worker, 1, key, "rejected", 2), BeginCompensation(worker, 3);
    ops := [c, st, f, b];
    var s1 := After(s, c);
    var s2 := After(s1, st);
    var s3 := After(s2, f);
    var s4 := After(s3, b);
    assert Apply(s, c).Committed? && Apply(s1, st).Committed? && Apply(s2, f).Committed? && Apply(s3, b).Committed?;
    assert ToolSteps(s.steps) == 1 + ToolSteps(s.steps[1..]) == 1;
    hide After, Apply, Initial;
    assert ops[1..] == [st, f, b] && [st, f, b][1..] == [f, b] && [f, b][1..] == [b] && [b][1..] == [];
    assert DrivenRun(s4, []) && DrivenRun(s3, [b]) && DrivenRun(s2, [f, b]) && DrivenRun(s1, [st, f, b]);
    assert Commits(s4, []) == 0 && Commits(s3, [b]) == 1 && Commits(s2, [f, b]) == 2;
    assert Commits(s1, [st, f, b]) == 3;
  }

  // ---- the life of one step ----

  // The output of the effect itself, wherever the step keeps it.
  function Output(step: Step): Option<ToolResult> {
    match step.result
    case Some(Effect(output)) => Some(output)
    case Some(Unwound(Effect(output), _)) => Some(output)
    case _ => None
  }

  predicate Evolves(a: Step, b: Step) {
    && b.tool == a.tool
    && (a.key.Some? ==> b.key == a.key)
    && (Output(a).Some? ==> Output(b) == Output(a))
    && (a.status == Failed ==> b.status == Failed)
    && (a.status == Compensated ==> b == a)
  }

  lemma ApplyEvolvesSteps(s: Snapshot, op: Op)
    requires Shape(s)
    ensures |After(s, op).steps| == |s.steps|
    ensures forall i :: 0 <= i < |s.steps| ==> Evolves(s.steps[i], After(s, op).steps[i])
  {
    forall i | 0 <= i < |s.steps| ensures Evolves(s.steps[i], After(s, op).steps[i]) {
      assert ColumnsFit(s.steps[i]);
    }
  }

  // A key, once set, is the step's key for ever; so is the output of its effect.
  lemma {:induction false} RunEvolvesSteps(s: Snapshot, ops: seq<Op>)
    requires Shape(s) && DrivenRun(s, ops)
    ensures |Run(s, ops).steps| == |s.steps|
    ensures forall i :: 0 <= i < |s.steps| ==> Evolves(s.steps[i], Run(s, ops).steps[i])
    decreases |ops|
  {
    if ops != [] {
      var t := After(s, ops[0]);
      ApplyEvolvesSteps(s, ops[0]);
      if Apply(s, ops[0]).Committed? { ApplyKeepsShape(s, ops[0]); }
      RunEvolvesSteps(t, ops[1..]);
      forall i | 0 <= i < |s.steps| ensures Evolves(s.steps[i], Run(s, ops).steps[i]) {
        assert Evolves(s.steps[i], t.steps[i]) && Evolves(t.steps[i], Run(t, ops[1..]).steps[i]);
      }
    }
  }

  // ---- closing a compensation ----

  predicate UnwindsInTurn(s: Snapshot) {
    && (forall i, j :: 0 <= i < j < |s.steps| ==> s.steps[i].status != Compensating || s.steps[j].status != Compensating)
    && (s.workflow.status == WfCompensated ==> forall i :: 0 <= i < |s.steps| ==> s.steps[i].status != Compensating)
  }

  lemma {:induction false} RunUnwindsInTurn(s: Snapshot, ops: seq<Op>)
    requires Shape(s) && UnwindsInTurn(s) && DrivenRun(s, ops) && OneAtATimeRun(s, ops)
    ensures UnwindsInTurn(Run(s, ops))
    decreases |ops|
  {
    if ops != [] {
      var t := After(s, ops[0]);
      if Apply(s, ops[0]).Committed? {
        ApplyKeepsShape(s, ops[0]);
        ApplyUnwindsInTurn(s, ops[0]);
      }
      RunUnwindsInTurn(t, ops[1..]);
    }
  }

  lemma ApplyUnwindsInTurn(s: Snapshot, op: Op)
    requires Shape(s) && UnwindsInTurn(s) && OneAtATime(s, op) && Apply(s, op).Committed?
    ensures UnwindsInTurn(Apply(s, op).after)
  {
    var t := Apply(s, op).after;
    if op.BeginCompensation? {
      forall i | 0 <= i < |s.steps| ensures s.steps[i].status != Compensating { assert StatusFits(s, i); }
    }
    assert forall i :: 0 <= i < |s.steps| && !(HasStepStatement(op) && i == op.index - 1) ==> t.steps[i] == s.steps[i];
  }

  // With the executor's one-at-a-time unwinding, a COMPENSATED workflow has undone every effect
  // before the failed step, and each step still holds both the effect and its reversal.
  lemma CompensatedMeansUndone(s: Snapshot, ops: seq<Op>, i: nat)
    requires Initial(s) && DrivenRun(s, ops) && OneAtATimeRun(s, ops)
    requires var t := Run(s, ops);
             t.workflow.status == WfCompensated && i < |t.steps| && t.steps[i].tool.Some?
    ensures var t := Run(s, ops); i < |t.steps| && var step := t.steps[i];
            && (i < t.workflow.currentStep ==> step.status == Compensated && step.result.Some? && step.result.value.Unwound? && Output(step).Some?)
            && (i == t.workflow.currentStep ==> step.status == Failed)
            && (i > t.workflow.currentStep ==> Untouched(step))
  {
    InitialHasShape(s);
    RunKeepsShape(s, ops);
    RunUnwindsInTurn(s, ops);
    var t := Run(s, ops);
    assert StatusFits(t, i) && ColumnsFit(t.steps[i]);
  }

  // The adapter alone does not give this: closing checks for SUCCEEDED steps only. A close leaves
  // no step COMPENSATING exactly when no other step was.
  lemma CloseIsCleanIff(s: Snapshot, op: Op)
    requires Shape(s) && op.CompleteCompensation? && op.finish && Apply(s, op).Committed?
    ensures (forall i :: 0 <= i < |s.steps| ==> Apply(s, op).after.steps[i].status != Compensating)
       <==> (forall i :: 0 <= i < |s.steps| && i != op.index - 1 ==> s.steps[i].status != Compensating)
  {
    var t := Apply(s, op).after;
    assert forall i :: 0 <= i < |s.steps| && i != op.index - 1 ==> t.steps[i] == s.steps[i];
  }

  // These operations lead from s to t.
  predicate Leads(s: Snapshot, ops: seq<Op>, t: Snapshot) { DrivenRun(s, ops) && Run(s, ops) == t }

  lemma OneLeads(s: Snapshot, op: Op)
    requires Driven(s, op)
    ensures Leads(s, [op], After(s, op))
  {
    assert [op][1..] == [];
    assert Leads(After(s, op), [], After(s, op));
  }

  lemma {:induction false} LeadsOn(s: Snapshot, a: seq<Op>, t: Snapshot, b: seq<Op>, u: Snapshot)
    requires Leads(s, a, t) && Leads(t, b, u)
    ensures Leads(s, a + b, u)
    decreases |a|
  {
    hide After;
    if a == [] {
      assert a + b == b;
    } else {
      assert (a + b)[0] == a[0] && (a + b)[1..] == a[1..] + b;
      LeadsOn(After(s, a[0]), a[1..], t, b, u);
    }
  }

  // A worker "w" holds the lease on three tool steps, and has brought the cursor so far.
  predicate AtTool(s: Snapshot, cursor: nat) {
    && |s.steps| == 3 && (forall i :: 0 <= i < 3 ==> s.steps[i].tool.Some?)
    && s.workflow.status == WfRunning && s.workflow.currentStep == cursor && s.workflow.lease == Some(Lease("w", 100))
    && (forall i :: 0 <= i < 3 ==> s.steps[i].status == if i < cursor then Succeeded else Pending)
  }

  lemma ToolSucceeds(s: Snapshot, cursor: nat, key: Key, output: ToolResult) returns (ops: seq<Op>, t: Snapshot)
    requires cursor < 2 && AtTool(s, cursor)
    ensures Leads(s, ops, t) && AtTool(t, cursor + 1)
  {
    var start := StartTool("w", cursor + 1, key, 1);
    var complete := CompleteTool("w", cursor + 1, key, output, false, 1);
    var m := After(s, start);
    t := After(m, complete);
    OneLeads(s, start);
    OneLeads(m, complete);
    hide Leads;
    LeadsOn(s, [start], m, [complete], t);
    ops := [start] + [complete];
  }

  // The two finished steps are to be undone; the third failed.
  predicate ToUndo(s: Snapshot) {
    && |s.steps| == 3 && (forall i :: 0 <= i < 3 ==> s.steps[i].tool.Some?)
    && s.workflow.status == WfCompensating && s.workflow.lease == Some(Lease("w", 100))
    && s.steps[0].status == Succeeded && s.steps[1].status == Succeeded && s.steps[2].status == Failed
  }

  lemma ToolFails(s: Snapshot) returns (ops: seq<Op>, t: Snapshot)
    requires AtTool(s, 2)
    ensures Leads(s, ops, t) && ToUndo(t)
  {
    var start, fail := StartTool("w", 3, "c", 1), FailTool("w", 3, "c", "rejected", 1);
    var begin := BeginCompensation("w", 1);
    var m := After(s, start);
    var n := After(m, fail);
    t := After(n, begin);
    assert n.steps[0].status == Succeeded && n.steps[0].tool.Some?;
    OneLeads(s, start);
    OneLeads(m, fail);
    OneLeads(n, begin);
    hide Leads;
    LeadsOn(s, [start], m, [fail], n);
    LeadsOn(s, [start] + [fail], n, [begin], t);
    ops := [start] + [fail] + [begin];
  }

  lemma TwoUndoneAtOnce(s: Snapshot, output: ToolResult) returns (ops: seq<Op>, t: Snapshot)
    requires ToUndo(s)
    ensures Leads(s, ops, t) && t.workflow.status == WfCompensated && |t.steps| == 3 && t.steps[0].status == Compensating
  {
    var first, second := StartCompensation("w", 1, 1), StartCompensation("w", 2, 1);
    var close := CompleteCompensation("w", 2, output, true, 1);
    var m := After(s, first);
    var n := After(m, second);
    t := After(n, close);
    OneLeads(s, first);
    OneLeads(m, second);
    OneLeads(n, close);
    hide Leads;
    LeadsOn(s, [first], m, [second], n);
    LeadsOn(s, [first] + [second], n, [close], t);
    ops := [first] + [second] + [close];
  }

  // From every new workflow of three tools: two reversals in flight, and closing on the second
  // strands the first in a COMPENSATED workflow.
  lemma CloseCanStrand(s: Snapshot, output: ToolResult) returns (ops: seq<Op>)
    requires Initial(s) && |s.steps| == 3 && forall i :: 0 <= i < 3 ==> s.steps[i].tool.Some?
    ensures DrivenRun(s, ops)
    ensures var t := Run(s, ops); t.workflow.status == WfCompensated && |t.steps| == 3 && t.steps[0].status == Compensating
  {
    var claim := Claim("w", 0, 100);
    var s0 := After(s, claim);
    OneLeads(s, claim);
    assert AtTool(s0, 0);
    var a, s1 := ToolSucceeds(s0, 0, "a", output);
    var b, s2 := ToolSucceeds(s1, 1, "b", output);
    var c, s3 := ToolFails(s2);
    var d, s4 := TwoUndoneAtOnce(s3, output);
    hide After, AtTool, Initial, ToUndo;
    LeadsOn(s, [claim], s0, a, s1);
    LeadsOn(s, [claim] + a, s1, b, s2);
    LeadsOn(s, [claim] + a + b, s2, c, s3);
    LeadsOn(s, [claim] + a + b + c, s3, d, s4);
    ops := [claim] + a + b + c + d;
  }

  // ---- what the operator sees ----

  datatype RecoveryState = ApprovalRequired | InProgress | Reclaimable | RecoveryRequired | UnwindInProgress | NotRequired

  function RecoveryStateFor(status: WorkflowStatus, leaseExpiresAt: Option<Time>, now: Option<Time>): RecoveryState {
    match status
    case WfPending => ApprovalRequired
    case WfFailed => RecoveryRequired
    case WfCompensating => UnwindInProgress
    case WfRunning =>
      if leaseExpiresAt.None? then RecoveryRequired
      else if now.Some? && leaseExpiresAt.value <= now.value then Reclaimable
      else InProgress
    case _ => NotRequired
  }

  // In every reachable snapshot a worker that is not the owner can claim exactly when the operator
  // is shown "approval required" or "reclaimable"; the lease-less RUNNING branch never arises.
  lemma RecoveryStateMatchesClaim(s: Snapshot, worker: WorkerId, now: Time, expiresAt: Time)
    requires Shape(s) && (s.workflow.lease.Some? ==> s.workflow.lease.value.owner != worker)
    ensures var expiry := if s.workflow.lease.Some? then Some(s.workflow.lease.value.expiresAt) else None;
            var shown := RecoveryStateFor(s.workflow.status, expiry, Some(now));
            && (Apply(s, Claim(worker, now, expiresAt)).Committed? <==> shown == ApprovalRequired || shown == Reclaimable)
            && (shown == RecoveryRequired <==> s.workflow.status == WfFailed)
  {}

  // And nothing is required of the operator exactly at the end of a workflow, when no transition by
  // anybody, at any time, commits any more.
  lemma NotRequiredIsFinal(s: Snapshot, now: Time, op: Op)
    requires Shape(s)
    ensures var expiry := if s.workflow.lease.Some? then Some(s.workflow.lease.value.expiresAt) else None;
            var shown := RecoveryStateFor(s.workflow.status, expiry, Some(now));
            && (shown == NotRequired <==> s.workflow.status == WfSucceeded || s.workflow.status == WfCompensated)
            && (shown == NotRequired ==> Apply(s, op) == Missed)
            && (shown == InProgress <==> s.workflow.status == WfRunning && now < s.workflow.lease.value.expiresAt)
            && (shown == UnwindInProgress <==> s.workflow.status == WfCompensating)
  {}
}
