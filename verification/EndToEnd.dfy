/** Workers, workflow tables and tool journal together. Workers crash (their next call never comes),
    lose leases and call late or twice; what they may report is only what the journal told someone. */
module EndToEnd {
  import opened Records
  import opened WorkflowState
  import opened WorkflowStore
  import Runs = WorkflowRuns
  import Journal

  // What a returned call told its caller.
  datatype Told =
    | Executed(inv: Journal.Invocation, result: ToolResult)
    | Reversed(c: Journal.Compensation, result: ToolResult)

  // told collects every answer ever given. answers is what each worker knows of its own tool calls in
  // a workflow since it last claimed that workflow, by key.
  datatype World = World(db: Database, journal: Journal.Ledger, told: set<Told>,
                         answers: map<(WorkflowId, WorkerId, Key), Journal.Answer>)

  datatype Event =
    | Create(id: WorkflowId, snapshot: Snapshot)
    | Transition(id: WorkflowId, op: Op)
    | Execute(inv: Journal.Invocation, worker: WorkerId, at: Time, effect: Option<ToolResult>)
    | Compensate(c: Journal.Compensation, effect: Option<ToolResult>)

  predicate IsStep(db: Database, id: WorkflowId, i: int) { id in db && 0 <= i < |db[id].steps| }

  // Step i of workflow `id` was started under this key for this tool.
  predicate StartedUnder(db: Database, id: WorkflowId, i: int, tool: ToolName, key: Key) {
    IsStep(db, id, i) && db[id].steps[i].tool == Some(tool) && db[id].steps[i].key == Some(key)
  }

  predicate Unwound(step: Step) { step.status == Compensating || step.status == Compensated }

  // A worker reports a completed call only with the output the journal returned for it.
  ghost predicate Reported(w: World, id: WorkflowId, op: Op) {
    match op
    case CompleteTool(_, i, key, output, _, _) =>
      exists inv :: Executed(inv, output) in w.told && StartedUnder(w.db, id, i - 1, inv.tool, key)
                 && inv.workflow == id && inv.key == key
    case CompleteCompensation(_, i, output, _, _) =>
      exists c :: Reversed(c, output) in w.told && StartedUnder(w.db, id, i - 1, c.tool, c.original) && c.workflow == id
    case _ => true
  }

  // What the executor's workers may do. Nothing here says that they hold a lease, that a call is
  // made once, or that it is made in time.
  ghost predicate Possible(w: World, e: Event) {
    match e
    case Create(_, snapshot) => Initial(snapshot)
    case Transition(id, op) => id in w.db && Driven(w.db[id], op) && Reported(w, id, op)
    case Execute(inv, _, _, _) => exists i :: StartedUnder(w.db, inv.workflow, i, inv.tool, inv.key)
    case Compensate(c, _) => exists i :: StartedUnder(w.db, c.workflow, i, c.tool, c.original)
                                      && Unwound(w.db[c.workflow].steps[i])
                                      && Runs.Output(w.db[c.workflow].steps[i]) == Some(c.effect)
  }

  function Heard(told: set<Told>, answer: Journal.Answer, make: ToolResult -> Told): set<Told> {
    match answer
    case Refused => told
    case Replayed(result) => told + {make(result)}
    case Ran(result) => told + {make(result)}
  }

  function AnswerTo(w: World, e: Event): Journal.Answer
    requires e.Execute? || e.Compensate?
  {
    Journal.AnswerTo(w.journal, CallOf(e))
  }

  function CallOf(e: Event): Journal.Call
    requires e.Execute? || e.Compensate?
  {
    match e
    case Execute(inv, _, _, effect) => Journal.ExecuteCall(inv, effect)
    case Compensate(c, effect) => Journal.CompensateCall(c, effect)
  }

  // A claim starts afresh: what its worker was told before no longer counts.
  function Known(w: World, id: WorkflowId, op: Op): map<(WorkflowId, WorkerId, Key), Journal.Answer> {
    if op.Claim? && ApplyTo(w.db, id, op).Committed? then map k | k in w.answers && (k.0 != id || k.1 != op.worker) :: w.answers[k]
    else w.answers
  }

  function Next(w: World, e: Event): World {
    match e
    case Create(id, snapshot) => if id in w.db then w else w.(db := w.db[id := snapshot])
    case Transition(id, op) => w.(db := DatabaseAfter(w.db, id, op), answers := Known(w, id, op))
    case Execute(inv, worker, _, _) =>
      w.(journal := Journal.Next(w.journal, CallOf(e)), answers := w.answers[(inv.workflow, worker, inv.key) := AnswerTo(w, e)],
         told := Heard(w.told, AnswerTo(w, e), r => Executed(inv, r)))
    case Compensate(c, _) =>
      w.(journal := Journal.Next(w.journal, CallOf(e)), told := Heard(w.told, AnswerTo(w, e), r => Reversed(c, r)))
  }

  const START := World(map[], Journal.EMPTY, {}, map[])

  function Run(w: World, events: seq<Event>): World
    decreases |events|
  {
    if events == [] then w else Run(Next(w, events[0]), events[1..])
  }

  ghost predicate PossibleRun(w: World, events: seq<Event>)
    decreases |events|
  {
    events == [] || (Possible(w, events[0]) && PossibleRun(Next(w, events[0]), events[1..]))
  }

  // ---- what every reachable world satisfies ----

  predicate RowHas(rows: Journal.Rows, key: Key, id: WorkflowId, kind: Journal.Kind, result: ToolResult) {
    key in rows && rows[key].workflow == id && rows[key].kind == kind && rows[key].result == Some(result)
  }

  predicate ToldOk(rows: Journal.Rows, t: Told) {
    match t
    case Executed(inv, result) => RowHas(rows, inv.key, inv.workflow, Journal.Forward(inv.tool), result)
    case Reversed(c, result) =>
      RowHas(rows, c.key, c.workflow, Journal.Reverse(c.action), result)
      && rows[c.key].parameters == Journal.Provenance(c.tool, c.original, c.effect)
  }

  predicate ReversedAs(rows: Journal.Rows, key: Key, k: Key, compensation: ToolResult) {
    Journal.Names(rows, k, key) && rows[k].result == Some(compensation)
  }

  // A step and the journal row under its key.
  ghost predicate StepAgrees(rows: Journal.Rows, id: WorkflowId, step: Step) {
    step.tool.Some? && step.key.Some? ==>
      var key := step.key.value;
      && (key in rows && rows[key].status == Journal.Undone ==> Unwound(step))
      && (step.status == Succeeded || Unwound(step) ==>
            Runs.Output(step).Some? && RowHas(rows, key, id, Journal.Forward(step.tool.value), Runs.Output(step).value))
      && (step.status == Succeeded ==> rows[key].status == Journal.Done)
      && (step.status == Compensated ==>
            && rows[key].status == Journal.Undone
            && step.result.Some? && step.result.value.Unwound?
            && exists k :: ReversedAs(rows, key, k, step.result.value.compensation))
  }

  ghost predicate StepsAgree(rows: Journal.Rows, db: Database) {
    forall id, i :: IsStep(db, id, i) ==> StepAgrees(rows, id, db[id].steps[i])
  }

  ghost predicate Owned(db: Database, id: WorkflowId, tool: ToolName, key: Key) {
    exists i :: StartedUnder(db, id, i, tool, key)
  }

  // Every effect in the journal was asked for by a step of its workflow.
  ghost predicate RowsOwned(rows: Journal.Rows, db: Database) {
    forall key :: Journal.HasEffect(rows, key) ==> Owned(db, rows[key].workflow, rows[key].kind.tool, key)
  }

  ghost predicate WorldOk(w: World) {
    && Consistent(w.db) && Journal.Sound(w.journal)
    && (forall t :: t in w.told ==> ToldOk(w.journal.rows, t))
    && StepsAgree(w.journal.rows, w.db) && RowsOwned(w.journal.rows, w.db)
  }

  // ---- one event ----

  lemma ToldPersists(a: Journal.Rows, b: Journal.Rows, t: Told)
    requires Journal.Persists(a, b) && ToldOk(a, t)
    ensures ToldOk(b, t)
  {}

  lemma CallTells(l: Journal.Ledger, call: Journal.Call)
    requires Journal.Sound(l)
    ensures var n := Journal.Next(l, call); var answer := Journal.AnswerTo(l, call);
            && Journal.Sound(n) && Journal.Persists(l.rows, n.rows)
            && (!answer.Refused? ==> ToldOk(n.rows, match call
                                                    case ExecuteCall(inv, _) => Executed(inv, answer.result)
                                                    case CompensateCall(c, _) => Reversed(c, answer.result)))
  {
    Journal.NextKeepsSound(l, call);
    Journal.OnlyFreshKeysRun(l.rows, call);
  }

  // A call leaves every step and its row in agreement: an effect comes under a fresh key, and a
  // reverse marks only the row of a step that is being unwound.
  lemma CallKeepsAgreement(w: World, e: Event, id: WorkflowId, i: int)
    requires WorldOk(w) && Possible(w, e) && (e.Execute? || e.Compensate?) && IsStep(w.db, id, i)
    ensures StepAgrees(Next(w, e).journal.rows, id, w.db[id].steps[i])
  {
    hide Journal.RowsSound, Journal.HistoryFits, Shape, Journal.Execute, Journal.Compensate;
    var rows, after := w.journal.rows, Next(w, e).journal.rows;
    var step := w.db[id].steps[i];
    assert StepAgrees(rows, id, step);
    Journal.OnlyFreshKeysRun(rows, CallOf(e));
    if step.tool.Some? && step.key.Some? && Journal.AnswerTo(w.journal, CallOf(e)).Ran? {
      if step.status == Compensated {
        var k :| ReversedAs(rows, step.key.value, k, step.result.value.compensation);
        OriginalIsNotReverse(rows, e, k);
        assert ReversedAs(after, step.key.value, k, step.result.value.compensation);
      }
      if e.Compensate? && e.c.original == step.key.value {
        var j :| StartedUnder(w.db, e.c.workflow, j, e.c.tool, e.c.original) && Unwound(w.db[e.c.workflow].steps[j]);
        assert SameKey(w.db[e.c.workflow].steps[j], step);
      }
    }
  }

  lemma OriginalIsNotReverse(rows: Journal.Rows, e: Event, k: Key)
    requires Journal.RowsSound(rows) && (e.Execute? || e.Compensate?) && Journal.RowsAfter(rows, CallOf(e)).1.Ran?
    requires k in rows && rows[k].kind.Reverse?
    ensures var after := Journal.RowsAfter(rows, CallOf(e)).0; k in after && after[k] == rows[k]
  {
    Journal.OnlyFreshKeysRun(rows, CallOf(e));
  }

  lemma TransitionTouches(s: Snapshot, op: Op, i: int)
    requires Shape(s) && Apply(s, op).Committed? && 0 <= i < |s.steps|
    ensures |Apply(s, op).after.steps| == |s.steps| && ColumnsFit(s.steps[i])
    ensures Apply(s, op).after.steps[i]
         == if HasStepStatement(op) && i == op.index - 1 then NewStep(s, op) else s.steps[i]
    ensures HasStepStatement(op) ==> StepMatches(s, op)
  {}

  lemma CompletionAgrees(w: World, id: WorkflowId, op: Op)
    requires id in w.db && op.CompleteTool? && StepMatches(w.db[id], op)
    requires Reported(w, id, op) && (forall t :: t in w.told ==> ToldOk(w.journal.rows, t))
    requires Journal.RowsSound(w.journal.rows)
    requires StepAgrees(w.journal.rows, id, w.db[id].steps[op.index - 1])
    ensures StepAgrees(w.journal.rows, id, NewStep(w.db[id], op))
  {
    var rows := w.journal.rows;
    var inv :| Executed(inv, op.output) in w.told && StartedUnder(w.db, id, op.index - 1, inv.tool, op.key)
               && inv.workflow == id && inv.key == op.key;
    assert ToldOk(rows, Executed(inv, op.output));
    assert Journal.RowFits(rows, op.key);
  }

  lemma UnwindingAgrees(w: World, id: WorkflowId, op: Op)
    requires id in w.db && op.CompleteCompensation? && StepMatches(w.db[id], op)
    requires Reported(w, id, op) && (forall t :: t in w.told ==> ToldOk(w.journal.rows, t))
    requires Journal.RowsSound(w.journal.rows) && ColumnsFit(w.db[id].steps[op.index - 1])
    requires StepAgrees(w.journal.rows, id, w.db[id].steps[op.index - 1])
    ensures StepAgrees(w.journal.rows, id, NewStep(w.db[id], op))
  {
    var rows := w.journal.rows;
    var c :| Reversed(c, op.output) in w.told && StartedUnder(w.db, id, op.index - 1, c.tool, c.original) && c.workflow == id;
    assert ToldOk(rows, Reversed(c, op.output));
    assert Journal.RowFits(rows, c.key);
    assert ReversedAs(rows, c.original, c.key, op.output);
  }

  // The key that a step takes is not that of a row already undone: that row has a step of its own.
  lemma StartAgrees(w: World, id: WorkflowId, op: Op)
    requires id in w.db && op.StartTool? && StepMatches(w.db[id], op)
    requires !KeyTaken(w.db, id, op.index, op.key) && RowsOwned(w.journal.rows, w.db)
    requires Journal.RowsSound(w.journal.rows) && ColumnsFit(w.db[id].steps[op.index - 1])
    ensures StepAgrees(w.journal.rows, id, NewStep(w.db[id], op))
  {
    hide Journal.Undoes, Apply, Owned, KeyTaken;
    if op.key in w.journal.rows {
      assert Journal.RowFits(w.journal.rows, op.key);
      var row := w.journal.rows[op.key];
      if row.kind.Forward? {
        assert Owned(w.db, row.workflow, row.kind.tool, op.key);
        NewKeyIsUnowned(w.db, id, op, row.workflow, row.kind.tool);
      }
    }
  }

  lemma NewKeyIsUnowned(db: Database, id: WorkflowId, op: Op, owner: WorkflowId, tool: ToolName)
    requires id in db && op.StartTool? && Row(db[id], op.index) && db[id].steps[op.index - 1].key.None?
    requires !KeyTaken(db, id, op.index, op.key)
    ensures !Owned(db, owner, tool, op.key)
  {}

  lemma TransitionKeepsAgreement(w: World, id: WorkflowId, op: Op, i: int)
    requires WorldOk(w) && Possible(w, Transition(id, op)) && ApplyTo(w.db, id, op).Committed? && 0 <= i < |w.db[id].steps|
    ensures i < |ApplyTo(w.db, id, op).after.steps|
    ensures StepAgrees(w.journal.rows, id, ApplyTo(w.db, id, op).after.steps[i])
  {
    assert StepAgrees(w.journal.rows, id, w.db[id].steps[i]) && Shape(w.db[id]);
    hide Journal.HistoryFits, Journal.RowsSound, KeysUnique, Shape, Apply, StepsAgree, RowsOwned, Reported, ToldOk, StatusFits;
    TransitionTouches(w.db[id], op, i);
    if HasStepStatement(op) && i == op.index - 1 {
      hide StepAgrees;
      match op {
        case StartTool(_, _, _, _) => StartAgrees(w, id, op);
        case CompleteTool(_, _, _, _, _, _) => CompletionAgrees(w, id, op);
        case CompleteCompensation(_, _, _, _, _) => UnwindingAgrees(w, id, op);
        case _ => QuietAgrees(w, id, op);
      }
    }
  }

  lemma QuietAgrees(w: World, id: WorkflowId, op: Op)
    requires id in w.db && HasStepStatement(op) && Row(w.db[id], op.index) && StepMatches(w.db[id], op)
    requires op.CompleteGuard? || op.FailTool? || op.StartCompensation?
    requires ColumnsFit(w.db[id].steps[op.index - 1]) && StepAgrees(w.journal.rows, id, w.db[id].steps[op.index - 1])
    ensures StepAgrees(w.journal.rows, id, NewStep(w.db[id], op))
  {}

  lemma TransitionKeepsOwners(db: Database, id: WorkflowId, op: Op, owner: WorkflowId, tool: ToolName, key: Key)
    requires Consistent(db) && Owned(db, owner, tool, key)
    ensures Owned(DatabaseAfter(db, id, op), owner, tool, key)
  {
    hide KeysUnique, Shape, Apply;
    var i :| StartedUnder(db, owner, i, tool, key);
    if id in db { Runs.ApplyEvolvesSteps(db[id], op); }
    assert StartedUnder(DatabaseAfter(db, id, op), owner, i, tool, key);
  }

  lemma TransitionKeepsRowsOwned(w: World, id: WorkflowId, op: Op)
    requires Consistent(w.db) && RowsOwned(w.journal.rows, w.db)
    ensures RowsOwned(w.journal.rows, DatabaseAfter(w.db, id, op))
  {
    hide Consistent, Owned, DatabaseAfter;
    forall key | Journal.HasEffect(w.journal.rows, key)
      ensures var row := w.journal.rows[key]; Owned(DatabaseAfter(w.db, id, op), row.workflow, row.kind.tool, key)
    {
      TransitionKeepsOwners(w.db, id, op, w.journal.rows[key].workflow, w.journal.rows[key].kind.tool, key);
    }
  }

  lemma TransitionKeepsStepsAgree(w: World, id: WorkflowId, op: Op)
    requires WorldOk(w) && Possible(w, Transition(id, op))
    ensures StepsAgree(w.journal.rows, DatabaseAfter(w.db, id, op))
  {
    var db := DatabaseAfter(w.db, id, op);
    assert StepsAgree(w.journal.rows, w.db);
    hide WorldOk, ApplyTo, StepAgrees, Possible;
    forall other, i | IsStep(db, other, i) ensures StepAgrees(w.journal.rows, other, db[other].steps[i]) {
      if other == id && ApplyTo(w.db, id, op).Committed? {
        TransitionLength(w, id, op);
        TransitionKeepsAgreement(w, id, op, i);
      } else {
        assert IsStep(w.db, other, i);
      }
    }
  }

  lemma TransitionKeepsWorld(w: World, id: WorkflowId, op: Op)
    requires WorldOk(w) && Possible(w, Transition(id, op))
    ensures WorldOk(Next(w, Transition(id, op)))
  {
    ApplyToKeepsConsistency(w.db, id, op);
    TransitionKeepsRowsOwned(w, id, op);
    TransitionKeepsStepsAgree(w, id, op);
    hide Consistent, StepsAgree, RowsOwned, ToldOk, Journal.Sound, DatabaseAfter;
  }

  lemma TransitionLength(w: World, id: WorkflowId, op: Op)
    requires WorldOk(w) && id in w.db && ApplyTo(w.db, id, op).Committed?
    ensures |ApplyTo(w.db, id, op).after.steps| == |w.db[id].steps|
  {}

  lemma CreationKeepsWorld(w: World, id: WorkflowId, snapshot: Snapshot)
    requires WorldOk(w) && Initial(snapshot)
    ensures WorldOk(Next(w, Create(id, snapshot)))
  {
    var n := Next(w, Create(id, snapshot));
    if id !in w.db {
      forall other, i | IsStep(n.db, other, i) ensures StepAgrees(n.journal.rows, other, n.db[other].steps[i]) {
        if other != id { assert IsStep(w.db, other, i); }
      }
      forall key | Journal.HasEffect(w.journal.rows, key)
        ensures var row := w.journal.rows[key]; Owned(n.db, row.workflow, row.kind.tool, key)
      {
        var row := w.journal.rows[key];
        var i :| StartedUnder(w.db, row.workflow, i, row.kind.tool, key);
        assert StartedUnder(n.db, row.workflow, i, row.kind.tool, key);
      }
      Runs.InitialHasShape(snapshot);
      CreationKeepsKeysUnique(w.db, id, snapshot);
    }
  }

  lemma CreationKeepsKeysUnique(db: Database, id: WorkflowId, snapshot: Snapshot)
    requires KeysUnique(db) && Initial(snapshot) && id !in db
    ensures KeysUnique(db[id := snapshot])
  {
    hide Shape;
    var after := db[id := snapshot];
    forall a, i, b, j | IsStep(after, a, i) && IsStep(after, b, j) && SameKey(after[a].steps[i], after[b].steps[j])
      ensures a == b && i == j
    {
      assert a != id && b != id;
      assert SameKey(db[a].steps[i], db[b].steps[j]);
    }
  }

  lemma CallKeepsOwners(w: World, e: Event, key: Key)
    requires WorldOk(w) && Possible(w, e) && (e.Execute? || e.Compensate?)
    requires var rows := Next(w, e).journal.rows; Journal.HasEffect(rows, key)
    ensures var row := Next(w, e).journal.rows[key]; Owned(w.db, row.workflow, row.kind.tool, key)
  {
    hide Consistent, StepsAgree;
    Journal.OnlyFreshKeysRun(w.journal.rows, CallOf(e));
    if key in w.journal.rows { assert Journal.HasEffect(w.journal.rows, key); }
  }

  lemma HeardIsTrue(w: World, e: Event)
    requires Journal.Sound(w.journal) && (e.Execute? || e.Compensate?)
    requires forall t :: t in w.told ==> ToldOk(w.journal.rows, t)
    ensures forall t :: t in Next(w, e).told ==> ToldOk(Next(w, e).journal.rows, t)
  {
    var n := Next(w, e);
    CallTells(w.journal, CallOf(e));
    hide ToldOk, Journal.Sound, Journal.Next, Journal.Persists, Journal.AnswerTo;
    forall t | t in n.told ensures ToldOk(n.journal.rows, t) {
      if t in w.told { ToldPersists(w.journal.rows, n.journal.rows, t); }
    }
  }

  lemma CallKeepsStepsAgree(w: World, e: Event)
    requires WorldOk(w) && Possible(w, e) && (e.Execute? || e.Compensate?)
    ensures StepsAgree(Next(w, e).journal.rows, w.db)
  {
    var rows := Next(w, e).journal.rows;
    hide WorldOk, Possible, StepAgrees, Next;
    forall id, i | IsStep(w.db, id, i) ensures StepAgrees(rows, id, w.db[id].steps[i]) { CallKeepsAgreement(w, e, id, i); }
  }

  lemma CallKeepsRowsOwned(w: World, e: Event)
    requires WorldOk(w) && Possible(w, e) && (e.Execute? || e.Compensate?)
    ensures RowsOwned(Next(w, e).journal.rows, w.db)
  {
    var rows := Next(w, e).journal.rows;
    hide WorldOk, Possible, Owned, Next;
    forall key | Journal.HasEffect(rows, key) ensures Owned(w.db, rows[key].workflow, rows[key].kind.tool, key) {
      CallKeepsOwners(w, e, key);
    }
  }

  lemma CallKeepsWorld(w: World, e: Event)
    requires WorldOk(w) && Possible(w, e) && (e.Execute? || e.Compensate?)
    ensures WorldOk(Next(w, e)) && Journal.Persists(w.journal.rows, Next(w, e).journal.rows)
  {
    assert Next(w, e).journal == Journal.Next(w.journal, CallOf(e)) && Next(w, e).db == w.db;
    hide Consistent, StepsAgree, RowsOwned, ToldOk, Possible, Journal.Sound, Journal.Next, Journal.Persists, Next;
    CallTells(w.journal, CallOf(e));
    HeardIsTrue(w, e);
    CallKeepsStepsAgree(w, e);
    CallKeepsRowsOwned(w, e);
  }

  lemma NextKeepsWorld(w: World, e: Event)
    requires WorldOk(w) && Possible(w, e)
    ensures WorldOk(Next(w, e))
  {
    hide WorldOk, Next;
    match e
    case Create(id, snapshot) => CreationKeepsWorld(w, id, snapshot);
    case Transition(id, op) => TransitionKeepsWorld(w, id, op);
    case _ => CallKeepsWorld(w, e);
  }

  lemma {:induction false} RunKeepsWorld(w: World, events: seq<Event>)
    requires WorldOk(w) && PossibleRun(w, events)
    ensures WorldOk(Run(w, events))
    decreases |events|
  {
    hide WorldOk, Next, Possible;
    if events != [] {
      NextKeepsWorld(w, events[0]);
      RunKeepsWorld(Next(w, events[0]), events[1..]);
    }
  }

  // However workers crash, lose leases, retry and interleave: a step's effect ran at most once; once
  // the step has SUCCEEDED it ran exactly once and its row says so; once the step is COMPENSATED its
  // effect was also reversed, by one reverse that ran once, and the step holds both results.
  lemma EffectsRunExactlyOnce(events: seq<Event>, id: WorkflowId, i: nat)
    requires PossibleRun(START, events)
    ensures var w := Run(START, events); IsStep(w.db, id, i) && w.db[id].steps[i].key.Some? ==>
            var step, rows, history := w.db[id].steps[i], w.journal.rows, w.journal.history;
            var key := step.key.value;
            && step.tool.Some?
            && history[Journal.EffectRan(key)] <= 1
            && (step.status == Succeeded ==>
                  && step.result.Some? && step.result.value.Effect?
                  && RowHas(rows, key, id, Journal.Forward(step.tool.value), step.result.value.output)
                  && history[Journal.EffectRan(key)] == 1
                  && forall k :: history[Journal.ReverseRan(key, k)] == 0)
            && (step.status == Compensated ==>
                  && step.result.Some? && step.result.value.Unwound? && step.result.value.effect.Effect?
                  && RowHas(rows, key, id, Journal.Forward(step.tool.value), step.result.value.effect.output)
                  && history[Journal.EffectRan(key)] == 1
                  && exists k :: ReversedAs(rows, key, k, step.result.value.compensation)
                              && forall j :: history[Journal.ReverseRan(key, j)] == if j == k then 1 else 0)
  {
    assert WorldOk(START);
    RunKeepsWorld(START, events);
    var w := Run(START, events);
    if IsStep(w.db, id, i) && w.db[id].steps[i].key.Some? {
      StepHistory(w, id, i);
    }
  }

  lemma StepHistory(w: World, id: WorkflowId, i: nat)
    requires WorldOk(w) && IsStep(w.db, id, i) && w.db[id].steps[i].key.Some?
    ensures var step, rows, history := w.db[id].steps[i], w.journal.rows, w.journal.history;
            var key := step.key.value;
            && step.tool.Some?
            && history[Journal.EffectRan(key)] == (if Journal.HasEffect(rows, key) then 1 else 0)
            && (step.status == Succeeded ==>
                  && step.result.Some? && step.result.value.Effect?
                  && RowHas(rows, key, id, Journal.Forward(step.tool.value), step.result.value.output)
                  && forall k :: history[Journal.ReverseRan(key, k)] == 0)
            && (step.status == Compensated ==>
                  && step.result.Some? && step.result.value.Unwound? && step.result.value.effect.Effect?
                  && RowHas(rows, key, id, Journal.Forward(step.tool.value), step.result.value.effect.output)
                  && exists k :: ReversedAs(rows, key, k, step.result.value.compensation)
                              && forall j :: history[Journal.ReverseRan(key, j)] == if j == k then 1 else 0)
  {
    hide KeysUnique, RowsOwned;
    var step, rows, history := w.db[id].steps[i], w.journal.rows, w.journal.history;
    var key := step.key.value;
    assert StepAgrees(rows, id, step) && Shape(w.db[id]) && ColumnsFit(step);
    hide Shape;
    assert Journal.Counted(w.journal, key, key);
    if step.status == Succeeded {
      forall k ensures history[Journal.ReverseRan(key, k)] == 0 {
        assert Journal.Counted(w.journal, key, k);
        Journal.NamedIsUndone(rows, key);
      }
    }
    if step.status == Compensated {
      var k :| ReversedAs(rows, key, k, step.result.value.compensation);
      forall j ensures history[Journal.ReverseRan(key, j)] == if j == k then 1 else 0 {
        assert Journal.Counted(w.journal, key, j);
      }
    }
  }

  // A call that comes late, or again, runs nothing once the effect is in the journal: it is told
  // the stored result or refused.
  lemma LateCallsRunNothing(events: seq<Event>, inv: Journal.Invocation, effect: Option<ToolResult>)
    requires PossibleRun(START, events) && inv.key in Run(START, events).journal.rows
    ensures var w := Run(START, events);
            var (after, answer) := Journal.Execute(w.journal.rows, inv, effect);
            && after == w.journal.rows && !answer.Ran?
            && (answer.Replayed? ==> w.journal.rows[inv.key].result == Some(answer.result))
  {
    assert WorldOk(START);
    RunKeepsWorld(START, events);
    Journal.OnlyFreshKeysRun(Run(START, events).journal.rows, Journal.ExecuteCall(inv, effect));
  }
}
