/** The same transitions at the grain of single statements: other workers commit between the two
    UPDATEs of a transaction. PostgreSQL's default isolation lets the second statement read what
    they committed; the row lock taken by the first keeps them off the transaction's own step. */
module WorkflowInterleaving {
  import opened Records
  import opened WorkflowState

  predicate TwoStatements(op: Op) { HasStepStatement(op) && HasWorkflowStatement(op) }

  // What the step row of a two-statement transaction must look like, and keeps looking like while locked.
  predicate StepRowMatches(s: Snapshot, op: Op)
    requires TwoStatements(op)
  {
    && Row(s, op.index)
    && var step := s.steps[op.index - 1];
    match op
    case CompleteGuard(_, _, _) => step.tool.None? && step.status == Pending
    case CompleteTool(_, _, key, _, _, _) => step.tool.Some? && step.status == Running && step.key == Some(key)
    case FailTool(_, _, key, _, _) => step.tool.Some? && step.status == Running && step.key == Some(key)
    case CompleteCompensation(_, _, _, _, _) => step.tool.Some? && step.status == Compensating
  }

  // If the second statement matches on the state it finds, then both statements match there: the
  // transaction is the atomic transition at its commit point.
  lemma SecondStatementDecides(s: Snapshot, op: Op)
    requires TwoStatements(op) && StepRowMatches(s, op)
    ensures WorkflowMatches(AfterStep(s, op), op) <==> Apply(s, op).Committed?
    ensures Apply(s, op).Committed? ==> Apply(s, op).after == AfterWorkflow(AfterStep(s, op), op)
  {}

  // Operations that do not wait for the row lock of `op`.
  predicate Unblocked(op: Op, rival: Op)
    requires TwoStatements(op)
  {
    HasStepStatement(rival) ==> rival.index != op.index
  }

  lemma {:induction false} RivalsLeaveLockedRow(s: Snapshot, op: Op, rivals: seq<Op>)
    requires TwoStatements(op) && StepRowMatches(s, op)
    requires forall r :: r in rivals ==> Unblocked(op, r)
    ensures var t := Run(s, rivals);
            |t.steps| == |s.steps| && t.steps[op.index - 1] == s.steps[op.index - 1] && StepRowMatches(t, op)
    decreases |rivals|
  {
    if rivals != [] {
      assert Unblocked(op, rivals[0]);
      RivalsLeaveLockedRow(After(s, rivals[0]), op, rivals[1..]);
    }
  }

  // ---- any number of open transactions ----

  // An uncommitted first statement: the operation and the step row it has written.
  datatype OpenTx = OpenTx(op: Op, row: Step)

  // log is the history of committed operations, in commit order.
  datatype Machine = Machine(committed: Snapshot, open: map<nat, OpenTx>, log: seq<Op>)

  datatype Event =
    | FirstStatement(tx: nat, op: Op)
    | SecondStatement(tx: nat)
    | Abandon(tx: nat)               // a crash, or any rollback
    | SingleStatement(op: Op)

  predicate LockFree(m: Machine, op: Op) {
    HasStepStatement(op) ==> forall tx :: tx in m.open ==>
      HasStepStatement(m.open[tx].op) && m.open[tx].op.index != op.index
  }

  // Events that wait for a lock, or reuse an open transaction, are not enabled.
  predicate Enabled(m: Machine, e: Event) {
    match e
    case FirstStatement(tx, op) =>
      TwoStatements(op) && Driven(m.committed, op) && tx !in m.open && LockFree(m, op)
    case SecondStatement(tx) => tx in m.open && TwoStatements(m.open[tx].op) && Row(m.committed, m.open[tx].op.index)
    case Abandon(_) => true
    case SingleStatement(op) => !TwoStatements(op) && LockFree(m, op)
  }

  function Next(m: Machine, e: Event): Machine
    requires Enabled(m, e)
  {
    match e
    case FirstStatement(tx, op) =>
      if StepMatches(m.committed, op) then m.(open := m.open[tx := OpenTx(op, NewStep(m.committed, op))]) else m
    case SecondStatement(tx) =>
      var OpenTx(op, row) := m.open[tx];
      var own := m.committed.(steps := m.committed.steps[op.index - 1 := row]);
      var closed := m.(open := m.open - {tx});
      if WorkflowMatches(own, op) then closed.(committed := AfterWorkflow(own, op), log := m.log + [op]) else closed
    case Abandon(tx) => m.(open := m.open - {tx})
    case SingleStatement(op) =>
      if Apply(m.committed, op).Committed? then m.(committed := Apply(m.committed, op).after, log := m.log + [op]) else m
  }

  predicate OpenFits(s: Snapshot, o: OpenTx) {
    TwoStatements(o.op) && StepRowMatches(s, o.op) && Driven(s, o.op) && o.row == NewStep(s, o.op)
  }

  ghost predicate Refines(start: Snapshot, m: Machine) {
    && m.committed == Run(start, m.log)
    && DrivenRun(start, m.log)
    && Commits(start, m.log)
    && (forall tx :: tx in m.open ==> OpenFits(m.committed, m.open[tx]))
    && (forall a, b :: a in m.open && b in m.open && a != b ==> m.open[a].op.index != m.open[b].op.index)
  }

  // Every operation of the list commits when its turn comes.
  predicate Commits(s: Snapshot, ops: seq<Op>)
    decreases |ops|
  {
    ops == [] || (Apply(s, ops[0]).Committed? && Commits(After(s, ops[0]), ops[1..]))
  }

  lemma {:induction false} AppendCommit(s: Snapshot, ops: seq<Op>, op: Op)
    requires Commits(s, ops) && DrivenRun(s, ops)
    requires Apply(Run(s, ops), op).Committed? && Driven(Run(s, ops), op)
    ensures Commits(s, ops + [op]) && DrivenRun(s, ops + [op])
    ensures Run(s, ops + [op]) == Apply(Run(s, ops), op).after
    decreases |ops|
  {
    if ops == [] {
      assert ops + [op] == [op] && [op][1..] == [];
      assert Commits(After(s, op), []) && DrivenRun(After(s, op), []);
    } else {
      assert (ops + [op])[0] == ops[0] && (ops + [op])[1..] == ops[1..] + [op];
      AppendCommit(After(s, ops[0]), ops[1..], op);
    }
  }

  lemma CommitKeepsOpen(s: Snapshot, op: Op, o: OpenTx)
    requires Apply(s, op).Committed? && OpenFits(s, o)
    requires HasStepStatement(op) ==> op.index != o.op.index
    ensures OpenFits(Apply(s, op).after, o)
  {}

  lemma NextRefines(start: Snapshot, m: Machine, e: Event)
    requires Refines(start, m) && Enabled(m, e)
    ensures Refines(start, Next(m, e))
  {
    match e
    case FirstStatement(tx, op) =>
    case SecondStatement(tx) =>
      var op := m.open[tx].op;
      assert OpenFits(m.committed, m.open[tx]);
      assert m.committed.(steps := m.committed.steps[op.index - 1 := m.open[tx].row]) == AfterStep(m.committed, op);
      SecondStatementDecides(m.committed, op);
      if Apply(m.committed, op).Committed? {
        AppendCommit(start, m.log, op);
        forall other | other in m.open && other != tx ensures OpenFits(Next(m, e).committed, m.open[other]) {
          CommitKeepsOpen(m.committed, op, m.open[other]);
        }
      }
    case Abandon(tx) =>
    case SingleStatement(op) =>
      if Apply(m.committed, op).Committed? {
        AppendCommit(start, m.log, op);
        forall tx | tx in m.open ensures OpenFits(Next(m, e).committed, m.open[tx]) {
          CommitKeepsOpen(m.committed, op, m.open[tx]);
        }
      }
  }

  predicate EnabledRun(m: Machine, events: seq<Event>)
    decreases |events|
  {
    events == [] || (Enabled(m, events[0]) && EnabledRun(Next(m, events[0]), events[1..]))
  }

  function RunMachine(m: Machine, events: seq<Event>): Machine
    requires EnabledRun(m, events)
    decreases |events|
  {
    if events == [] then m else RunMachine(Next(m, events[0]), events[1..])
  }

  lemma {:induction false} RunRefines(start: Snapshot, m: Machine, events: seq<Event>)
    requires Refines(start, m) && EnabledRun(m, events)
    ensures Refines(start, RunMachine(m, events))
    decreases |events|
  {
    if events != [] {
      NextRefines(start, m, events[0]);
      RunRefines(start, Next(m, events[0]), events[1..]);
    }
  }

  // Every state committed by any interleaving of statements is reached by the atomic transitions
  // alone, one per commit and in commit order; so it has the shape, and a rollback leaves nothing.
  lemma InterleavingsAreSerial(start: Snapshot, events: seq<Event>)
    requires Initial(start) && EnabledRun(Machine(start, map[], []), events)
    ensures var m := RunMachine(Machine(start, map[], []), events);
            m.committed == Run(start, m.log) && Commits(start, m.log) && Shape(m.committed)
  {
    assert DrivenRun(start, []) && Commits(start, []) && Run(start, []) == start;
    RunRefines(start, Machine(start, map[], []), events);
    assert Shape(start);
    RunKeepsShape(start, RunMachine(Machine(start, map[], []), events).log);
  }
}
