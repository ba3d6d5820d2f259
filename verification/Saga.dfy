/** All or nothing: with workers that call tools only under a live lease, a workflow that SUCCEEDED
    has every effect and one that is COMPENSATED has none. Without that, a late call can leave an
    effect behind. */
module Saga {
  import opened Records
  import opened WorkflowState
  import opened WorkflowStore
  import opened EndToEnd
  import opened Keys
  import Runs = WorkflowRuns
  import Journal

  // The step that the cursor selects is running under this key, and this worker holds the lease.
  predicate HoldsRunningStep(db: Database, id: WorkflowId, key: Key, worker: WorkerId, at: Time) {
    && id in db && db[id].workflow.status == WfRunning && HoldsLease(db[id].workflow, worker, at)
    && var cursor := db[id].workflow.currentStep;
    cursor < |db[id].steps| && db[id].steps[cursor].status == Running && db[id].steps[cursor].key == Some(key)
  }

  // The executor's discipline: a worker calls a tool only under the lease, with the input that its
  // key was derived from; records a failure only on a refusal of its own since it last claimed the
  // workflow; and unwinds one step at a time. An attempt to record a failure that does not commit,
  // say by a worker whose lease was taken over, is free. `inputOf` is the input behind a key's digest.
  predicate Careful(w: World, e: Event, inputOf: Key -> ToolInput) {
    match e
    case Create(_, _) => true
    case Execute(inv, worker, at, _) =>
      inv.input == inputOf(inv.key) && ValidInput(inv.input) && ToolOf(inv.input) == inv.tool
      && HoldsRunningStep(w.db, inv.workflow, inv.key, worker, at)
    case Transition(id, op) =>
      && (id in w.db ==> OneAtATime(w.db[id], op))
      && (op.StartTool? ==> IsToolKey(op.key))
      && (op.FailTool? && ApplyTo(w.db, id, op).Committed? ==> WasRefused(w, id, op.worker, op.key))
    case Compensate(c, _) => IsCompensationKey(c.key)
  }

  predicate WasRefused(w: World, id: WorkflowId, worker: WorkerId, key: Key) {
    (id, worker, key) in w.answers && w.answers[(id, worker, key)].Refused?
  }

  predicate CarefulRun(w: World, events: seq<Event>, inputOf: Key -> ToolInput)
    decreases |events|
  {
    events == [] || (Careful(w, events[0], inputOf) && CarefulRun(Next(w, events[0]), events[1..], inputOf))
  }

  // Tool rows hold the input behind their key; reverse rows have keys of their own kind.
  predicate RowKeyed(rows: Journal.Rows, key: Key, inputOf: Key -> ToolInput)
    requires key in rows
  {
    match rows[key].kind
    case Forward(_) => rows[key].parameters == Journal.Input(inputOf(key))
    case Reverse(_) => IsCompensationKey(key)
  }

  // A failed step has no effect.
  predicate StepCareful(w: World, step: Step) {
    step.key.Some? ==> IsToolKey(step.key.value) && (step.status == Failed ==> step.key.value !in w.journal.rows)
  }

  predicate IsOwner(db: Database, id: WorkflowId, worker: WorkerId) {
    id in db && db[id].workflow.lease.Some? && db[id].workflow.lease.value.owner == worker
  }

  ghost predicate HasKey(db: Database, id: WorkflowId, key: Key) {
    exists i :: IsStep(db, id, i) && db[id].steps[i].key == Some(key)
  }

  // While a worker owns the lease, a refusal it got since its claim still means that nothing ran
  // under the key: nobody else could call.
  ghost predicate RefusalHolds(w: World, id: WorkflowId, worker: WorkerId, key: Key) {
    && ((id, worker, key) in w.answers ==> HasKey(w.db, id, key))
    && (WasRefused(w, id, worker, key) && IsOwner(w.db, id, worker) && IsToolKey(key) ==> key !in w.journal.rows)
  }

  ghost predicate WorldCareful(w: World, inputOf: Key -> ToolInput) {
    && (forall id :: id in w.db ==> Runs.UnwindsInTurn(w.db[id]))
    && (forall key :: key in w.journal.rows ==> RowKeyed(w.journal.rows, key, inputOf))
    && (forall id, worker, key :: RefusalHolds(w, id, worker, key))
    && (forall id, i :: IsStep(w.db, id, i) ==> StepCareful(w, w.db[id].steps[i]))
  }

  // Under the lease, a refusal means that nothing ran: a row under the key would be this very
  // call's, and done.
  lemma RefusedMeansNoRow(w: World, e: Event, inputOf: Key -> ToolInput)
    requires WorldOk(w) && WorldCareful(w, inputOf) && Possible(w, e) && Careful(w, e, inputOf) && e.Execute?
    requires AnswerTo(w, e).Refused?
    ensures e.inv.key !in w.journal.rows
  {
    var rows, key := w.journal.rows, e.inv.key;
    var db, id := w.db, e.inv.workflow;
    var cursor := db[id].workflow.currentStep;
    if key in rows {
      assert StepCareful(w, db[id].steps[cursor]);
      assert StepAgrees(rows, id, db[id].steps[cursor]);
      assert RowKeyed(rows, key, inputOf) && Journal.RowFits(rows, key);
      KeysDiffer(key);
      assert Journal.HasEffect(rows, key);
      var j :| StartedUnder(db, rows[key].workflow, j, rows[key].kind.tool, key);
      assert SameKey(db[id].steps[cursor], db[rows[key].workflow].steps[j]);
      var i :| StartedUnder(db, id, i, e.inv.tool, key);
      assert SameKey(db[id].steps[cursor], db[id].steps[i]);
      assert Journal.Bound(rows[key], id, Journal.Forward(e.inv.tool), Journal.Input(e.inv.input));
      assert false;
    }
  }

  lemma ExecuteKeepsCareful(w: World, e: Event, inputOf: Key -> ToolInput)
    requires WorldOk(w) && WorldCareful(w, inputOf) && Possible(w, e) && Careful(w, e, inputOf) && e.Execute?
    ensures WorldCareful(Next(w, e), inputOf)
  {
    var n := Next(w, e);
    if AnswerTo(w, e).Refused? { RefusedMeansNoRow(w, e, inputOf); }
    hide WorldOk, StepCareful, HoldsRunningStep, Runs.UnwindsInTurn;
    forall key | key in n.journal.rows ensures RowKeyed(n.journal.rows, key, inputOf) {
      assert key in w.journal.rows ==> RowKeyed(w.journal.rows, key, inputOf);
      ExecuteKeepsRow(w, e, key, inputOf);
    }
    hide RowKeyed;
    forall id, worker, key ensures RefusalHolds(n, id, worker, key) {
      assert RefusalHolds(w, id, worker, key);
      ExecuteKeepsRefusal(w, e, id, worker, key, inputOf);
    }
    hide RefusalHolds;
    forall id, i | IsStep(n.db, id, i) ensures StepCareful(n, n.db[id].steps[i]) {
      assert StepCareful(w, w.db[id].steps[i]);
      ExecuteKeepsStepCareful(w, e, id, i, inputOf);
    }
  }

  lemma ExecuteKeepsRow(w: World, e: Event, key: Key, inputOf: Key -> ToolInput)
    requires Journal.RowsSound(w.journal.rows) && e.Execute? && e.inv.input == inputOf(e.inv.key)
    requires key in w.journal.rows ==> RowKeyed(w.journal.rows, key, inputOf)
    ensures var rows := Next(w, e).journal.rows; key in rows ==> RowKeyed(rows, key, inputOf)
  {
    Journal.OnlyFreshKeysRun(w.journal.rows, CallOf(e));
    hide Journal.RowsSound, Journal.Execute;
  }

  // A call that runs is by the owner of the lease, and replaces that worker's answer; its key is no
  // other workflow's.
  lemma ExecuteKeepsRefusal(w: World, e: Event, id: WorkflowId, worker: WorkerId, key: Key, inputOf: Key -> ToolInput)
    requires WorldOk(w) && Careful(w, e, inputOf) && e.Execute? && RefusalHolds(w, id, worker, key)
    requires AnswerTo(w, e).Refused? ==> e.inv.key !in w.journal.rows
    ensures RefusalHolds(Next(w, e), id, worker, key)
  {
    Journal.OnlyFreshKeysRun(w.journal.rows, CallOf(e));
    hide Journal.RowsSound, Journal.HistoryFits, StepsAgree, RowsOwned, Shape, Journal.Execute;
    var cursor := w.db[e.inv.workflow].workflow.currentStep;
    assert IsStep(w.db, e.inv.workflow, cursor) && w.db[e.inv.workflow].steps[cursor].key == Some(e.inv.key);
    if key == e.inv.key && (id, worker, key) in w.answers {
      var i :| IsStep(w.db, id, i) && w.db[id].steps[i].key == Some(key);
      assert SameKey(w.db[id].steps[i], w.db[e.inv.workflow].steps[cursor]);
    }
  }

  // A call runs under the key of the running step, which is no other step's key.
  lemma ExecuteKeepsStepCareful(w: World, e: Event, id: WorkflowId, i: nat, inputOf: Key -> ToolInput)
    requires WorldOk(w) && Careful(w, e, inputOf) && e.Execute? && IsStep(w.db, id, i) && StepCareful(w, w.db[id].steps[i])
    ensures StepCareful(Next(w, e), w.db[id].steps[i])
  {
    Journal.OnlyFreshKeysRun(w.journal.rows, CallOf(e));
    hide Journal.RowsSound, Journal.HistoryFits, StepsAgree, RowsOwned, Shape, Journal.Execute;
    var cursor := w.db[e.inv.workflow].workflow.currentStep;
    if w.db[id].steps[i].key == Some(e.inv.key) {
      assert SameKey(w.db[id].steps[i], w.db[e.inv.workflow].steps[cursor]);
    }
  }

  // A reversal adds a row under a key of its own kind, and no tool row.
  lemma ReversalRows(w: World, e: Event, key: Key)
    requires Journal.RowsSound(w.journal.rows) && e.Compensate? && IsCompensationKey(e.c.key)
    ensures var rows := Next(w, e).journal.rows;
            && (key in rows && key !in w.journal.rows ==> IsCompensationKey(key) && rows[key].kind.Reverse?)
            && (key in w.journal.rows ==> key in rows && rows[key].kind == w.journal.rows[key].kind
                                          && rows[key].parameters == w.journal.rows[key].parameters)
  {
    Journal.RanInserts(w.journal.rows, CallOf(e));
    hide Journal.RowsSound, Journal.Compensate;
  }

  lemma CompensateKeepsCareful(w: World, e: Event, inputOf: Key -> ToolInput)
    requires WorldOk(w) && WorldCareful(w, inputOf) && Careful(w, e, inputOf) && e.Compensate?
    ensures WorldCareful(Next(w, e), inputOf)
  {
    var n := Next(w, e);
    assert n.db == w.db && n.answers == w.answers && Journal.RowsSound(w.journal.rows);
    hide WorldOk, Next, Journal.RowsSound, Runs.UnwindsInTurn;
    forall key ensures key in n.journal.rows && key !in w.journal.rows ==> !IsToolKey(key) {
      ReversalRows(w, e, key);
      KeysDiffer(key);
    }
    forall key | key in n.journal.rows ensures RowKeyed(n.journal.rows, key, inputOf) {
      ReversalRows(w, e, key);
      if key in w.journal.rows { assert RowKeyed(w.journal.rows, key, inputOf); }
    }
    hide RowKeyed, IsToolKey, IsCompensationKey;
    forall id, worker, key ensures RefusalHolds(n, id, worker, key) { assert RefusalHolds(w, id, worker, key); }
    forall id, i | IsStep(n.db, id, i) ensures StepCareful(n, n.db[id].steps[i]) {
      assert StepCareful(w, w.db[id].steps[i]);
    }
  }

  lemma CommitUnwindsInTurn(w: World, id: WorkflowId, op: Op)
    requires WorldOk(w) && id in w.db && Runs.UnwindsInTurn(w.db[id]) && OneAtATime(w.db[id], op)
    requires ApplyTo(w.db, id, op).Committed?
    ensures Runs.UnwindsInTurn(ApplyTo(w.db, id, op).after)
  {
    Runs.ApplyUnwindsInTurn(w.db[id], op);
  }

  // A failure that commits is recorded by the owner of the lease on its own refusal since its claim,
  // and then no call ran under the key, by anybody.
  lemma FailureMeansNothingRan(w: World, id: WorkflowId, op: Op, inputOf: Key -> ToolInput)
    requires WorldOk(w) && WorldCareful(w, inputOf) && Careful(w, Transition(id, op), inputOf)
    requires op.FailTool? && ApplyTo(w.db, id, op).Committed?
    ensures op.key !in w.journal.rows && w.journal.history[Journal.EffectRan(op.key)] == 0
  {
    assert RefusalHolds(w, id, op.worker, op.key);
    var s := w.db[id];
    assert StepMatches(s, op);
    assert IsStep(w.db, id, op.index - 1) && StepCareful(w, s.steps[op.index - 1]);
    assert Journal.Counted(w.journal, op.key, op.key);
    hide Apply, Shape, Journal.RowsSound, StepsAgree, RowsOwned, KeysUnique;
  }

  lemma StepStaysCareful(w: World, id: WorkflowId, op: Op, i: nat)
    requires WorldOk(w) && IsStep(w.db, id, i) && StepCareful(w, w.db[id].steps[i]) && Apply(w.db[id], op).Committed?
    requires op.StartTool? ==> IsToolKey(op.key)
    requires op.FailTool? ==> op.key !in w.journal.rows
    ensures i < |Apply(w.db[id], op).after.steps| && StepCareful(w, Apply(w.db[id], op).after.steps[i])
  {
    assert Shape(w.db[id]);
    hide WorldOk, Shape, Apply, StatusFits;
    TransitionTouches(w.db[id], op, i);
  }

  lemma LeaseStays(s: Snapshot, op: Op)
    requires Apply(s, op).Committed?
    ensures var lease := Apply(s, op).after.workflow.lease;
            if op.Claim? then lease.Some? && lease.value.owner == op.worker else lease.None? || lease == s.workflow.lease
  {}

  lemma KeysStay(w: World, id: WorkflowId, op: Op, other: WorkflowId, key: Key)
    requires WorldOk(w) && HasKey(w.db, other, key)
    ensures HasKey(DatabaseAfter(w.db, id, op), other, key)
  {
    hide KeysUnique, Shape, Apply, StepsAgree, RowsOwned;
    var i :| IsStep(w.db, other, i) && w.db[other].steps[i].key == Some(key);
    if id in w.db { Runs.ApplyEvolvesSteps(w.db[id], op); }
    assert IsStep(DatabaseAfter(w.db, id, op), other, i);
  }

  lemma OwnerStays(db: Database, id: WorkflowId, op: Op, other: WorkflowId, worker: WorkerId)
    requires IsOwner(DatabaseAfter(db, id, op), other, worker)
    ensures IsOwner(db, other, worker) || (op.Claim? && ApplyTo(db, id, op).Committed? && other == id && worker == op.worker)
  {
    if ApplyTo(db, id, op).Committed? { LeaseStays(db[id], op); }
    hide Apply;
  }

  // A claim drops its worker's answers and takes the lease from everybody else; no other transition
  // hands the lease to anyone.
  lemma TransitionKeepsRefusal(w: World, id: WorkflowId, op: Op, other: WorkflowId, worker: WorkerId, key: Key)
    requires WorldOk(w) && RefusalHolds(w, other, worker, key)
    ensures RefusalHolds(Next(w, Transition(id, op)), other, worker, key)
  {
    var n := Next(w, Transition(id, op));
    assert n.db == DatabaseAfter(w.db, id, op) && n.journal == w.journal && n.answers == Known(w, id, op);
    if (other, worker, key) in w.answers { KeysStay(w, id, op, other, key); }
    if IsOwner(n.db, other, worker) { OwnerStays(w.db, id, op, other, worker); }
    hide WorldOk, HasKey, DatabaseAfter, ApplyTo, Next, IsOwner;
  }

  lemma TransitionKeepsStep(w: World, id: WorkflowId, op: Op, other: WorkflowId, i: nat)
    requires WorldOk(w) && IsStep(DatabaseAfter(w.db, id, op), other, i)
    requires forall wf, j :: IsStep(w.db, wf, j) ==> StepCareful(w, w.db[wf].steps[j])
    requires op.StartTool? ==> IsToolKey(op.key)
    requires op.FailTool? && ApplyTo(w.db, id, op).Committed? ==> op.key !in w.journal.rows
    ensures StepCareful(w, DatabaseAfter(w.db, id, op)[other].steps[i])
  {
    hide WorldOk, Apply, StepCareful;
    if other == id && ApplyTo(w.db, id, op).Committed? {
      TransitionLength(w, id, op);
      assert IsStep(w.db, id, i);
      StepStaysCareful(w, id, op, i);
    } else {
      assert IsStep(w.db, other, i);
    }
  }

  lemma TransitionKeepsTurns(w: World, id: WorkflowId, op: Op)
    requires WorldOk(w) && (forall other :: other in w.db ==> Runs.UnwindsInTurn(w.db[other])) && (id in w.db ==> OneAtATime(w.db[id], op))
    ensures forall other :: other in DatabaseAfter(w.db, id, op) ==> Runs.UnwindsInTurn(DatabaseAfter(w.db, id, op)[other])
  {
    hide WorldOk, Apply, Runs.UnwindsInTurn, OneAtATime;
    if ApplyTo(w.db, id, op).Committed? { CommitUnwindsInTurn(w, id, op); }
  }

  lemma TransitionKeepsCareful(w: World, id: WorkflowId, op: Op, inputOf: Key -> ToolInput)
    requires WorldOk(w) && WorldCareful(w, inputOf) && Careful(w, Transition(id, op), inputOf)
    ensures WorldCareful(Next(w, Transition(id, op)), inputOf)
  {
    var n := Next(w, Transition(id, op));
    assert n.journal == w.journal && n.db == DatabaseAfter(w.db, id, op);
    if op.FailTool? && ApplyTo(w.db, id, op).Committed? { FailureMeansNothingRan(w, id, op, inputOf); }
    TransitionKeepsTurns(w, id, op);
    hide WorldOk, ApplyTo, DatabaseAfter, Next, RefusalHolds, StepCareful, Runs.UnwindsInTurn, OneAtATime;
    forall other, worker, key ensures RefusalHolds(n, other, worker, key) {
      assert RefusalHolds(w, other, worker, key);
      TransitionKeepsRefusal(w, id, op, other, worker, key);
    }
    forall other, i | IsStep(n.db, other, i) ensures StepCareful(n, n.db[other].steps[i]) {
      TransitionKeepsStep(w, id, op, other, i);
      SameJournal(w, n, n.db[other].steps[i]);
    }
  }

  lemma SameJournal(w: World, n: World, step: Step)
    requires n.journal == w.journal
    ensures StepCareful(n, step) <==> StepCareful(w, step)
  {}

  lemma CreateKeepsCareful(w: World, id: WorkflowId, snapshot: Snapshot, inputOf: Key -> ToolInput)
    requires WorldCareful(w, inputOf) && Initial(snapshot)
    ensures WorldCareful(Next(w, Create(id, snapshot)), inputOf)
  {
    var n := Next(w, Create(id, snapshot));
    forall other, worker, key ensures RefusalHolds(n, other, worker, key) {
      assert RefusalHolds(w, other, worker, key);
      if HasKey(w.db, other, key) {
        var i :| IsStep(w.db, other, i) && w.db[other].steps[i].key == Some(key);
        assert IsStep(n.db, other, i) && n.db[other].steps[i].key == Some(key);
      }
    }
    forall other, i | IsStep(n.db, other, i) ensures StepCareful(n, n.db[other].steps[i]) {
      if other in w.db { assert IsStep(w.db, other, i); }
    }
  }

  lemma {:induction false} RunKeepsCareful(w: World, events: seq<Event>, inputOf: Key -> ToolInput)
    requires WorldOk(w) && WorldCareful(w, inputOf) && PossibleRun(w, events) && CarefulRun(w, events, inputOf)
    ensures WorldOk(EndToEnd.Run(w, events)) && WorldCareful(EndToEnd.Run(w, events), inputOf)
    decreases |events|
  {
    hide WorldOk, WorldCareful, Next;
    if events != [] {
      match events[0] {
        case Create(id, snapshot) => CreateKeepsCareful(w, id, snapshot, inputOf);
        case Transition(id, op) => TransitionKeepsCareful(w, id, op, inputOf);
        case Execute(_, _, _, _) => ExecuteKeepsCareful(w, events[0], inputOf);
        case Compensate(_, _) => CompensateKeepsCareful(w, events[0], inputOf);
      }
      NextKeepsWorld(w, events[0]);
      RunKeepsCareful(Next(w, events[0]), events[1..], inputOf);
    }
  }

  // The effect behind a key is live: it was committed, and not reversed.
  ghost predicate Live(l: Journal.Ledger, key: Key) {
    Journal.EffectRan(key) in l.history && forall k :: Journal.ReverseRan(key, k) !in l.history
  }

  lemma LiveIsDone(l: Journal.Ledger, key: Key)
    requires Journal.Sound(l)
    ensures Live(l, key) <==> Journal.HasEffect(l.rows, key) && l.rows[key].status == Journal.Done
  {
    assert Journal.Counted(l, key, key);
    Journal.NamedIsUndone(l.rows, key);
    if Journal.HasEffect(l.rows, key) {
      assert Journal.RowFits(l.rows, key);
      if l.rows[key].status == Journal.Undone {
        var k :| Journal.Names(l.rows, k, key);
        assert Journal.Counted(l, key, k);
      } else {
        forall k ensures Journal.ReverseRan(key, k) !in l.history { assert Journal.Counted(l, key, k); }
      }
    }
  }

  // All or nothing, over every careful run: a SUCCEEDED workflow has the effect of every tool step
  // live, and a COMPENSATED one has none.
  lemma AllOrNothing(events: seq<Event>, inputOf: Key -> ToolInput, id: WorkflowId, i: nat)
    requires PossibleRun(START, events) && CarefulRun(START, events, inputOf)
    requires IsStep(EndToEnd.Run(START, events).db, id, i) && EndToEnd.Run(START, events).db[id].steps[i].tool.Some?
    ensures var w := EndToEnd.Run(START, events); var status, step := w.db[id].workflow.status, w.db[id].steps[i];
            && (status == WfSucceeded ==> step.key.Some? && Live(w.journal, step.key.value))
            && (status == WfCompensated && step.key.Some? ==> !Live(w.journal, step.key.value))
  {
    assert WorldOk(START) && WorldCareful(START, inputOf);
    RunKeepsCareful(START, events, inputOf);
    StepIsAllOrNothing(EndToEnd.Run(START, events), inputOf, id, i);
  }

  lemma StepIsAllOrNothing(w: World, inputOf: Key -> ToolInput, id: WorkflowId, i: nat)
    requires WorldOk(w) && WorldCareful(w, inputOf) && IsStep(w.db, id, i) && w.db[id].steps[i].tool.Some?
    ensures var status, step := w.db[id].workflow.status, w.db[id].steps[i];
            && (status == WfSucceeded ==> step.key.Some? && Live(w.journal, step.key.value))
            && (status == WfCompensated && step.key.Some? ==> !Live(w.journal, step.key.value))
  {
    var s, step := w.db[id], w.db[id].steps[i];
    assert Shape(s) && StatusFits(s, i) && ColumnsFit(step) && StepAgrees(w.journal.rows, id, step);
    assert StepCareful(w, step) && Runs.UnwindsInTurn(s);
    hide WorldCareful, WorldOk;
    assert Journal.Sound(w.journal) by { WorldIsSound(w); }
    if step.key.Some? { LiveIsDone(w.journal, step.key.value); }
  }

  lemma WorldIsSound(w: World)
    requires WorldOk(w)
    ensures Journal.Sound(w.journal)
  {}

  // In every careful run, a failure that is recorded is true: the effect never ran for anyone.
  lemma RecordedFailuresAreTrue(events: seq<Event>, inputOf: Key -> ToolInput, id: WorkflowId, op: Op)
    requires PossibleRun(START, events) && CarefulRun(START, events, inputOf)
    requires var w := EndToEnd.Run(START, events);
             Careful(w, Transition(id, op), inputOf) && op.FailTool? && ApplyTo(w.db, id, op).Committed?
    ensures EndToEnd.Run(START, events).journal.history[Journal.EffectRan(op.key)] == 0
  {
    assert WorldOk(START) && WorldCareful(START, inputOf);
    RunKeepsCareful(START, events, inputOf);
    FailureMeansNothingRan(EndToEnd.Run(START, events), id, op, inputOf);
  }

  // ---- workers that call without a lease ----

  predicate InTurn(w: World, e: Event) { e.Transition? && e.id in w.db ==> OneAtATime(w.db[e.id], e.op) }

  predicate TurnRun(w: World, events: seq<Event>)
    decreases |events|
  {
    events == []
    || (InTurn(w, events[0]) && TurnRun(Next(w, events[0]), events[1..]))
  }

  predicate AllInTurn(db: Database) { forall id :: id in db ==> Runs.UnwindsInTurn(db[id]) }

  lemma {:induction false} RunKeepsTurns(w: World, events: seq<Event>)
    requires WorldOk(w) && AllInTurn(w.db) && PossibleRun(w, events) && TurnRun(w, events)
    ensures WorldOk(EndToEnd.Run(w, events)) && AllInTurn(EndToEnd.Run(w, events).db)
    decreases |events|
  {
    hide WorldOk, Runs.UnwindsInTurn, ApplyTo, OneAtATime;
    if events != [] {
      var e := events[0];
      if e.Transition? && ApplyTo(w.db, e.id, e.op).Committed? { CommitUnwindsInTurn(w, e.id, e.op); }
      if e.Create? { NewUnwindsInTurn(e.snapshot); }
      NextKeepsWorld(w, e);
      RunKeepsTurns(Next(w, e), events[1..]);
    }
  }

  lemma NewUnwindsInTurn(s: Snapshot)
    requires Initial(s)
    ensures Runs.UnwindsInTurn(s)
  {}

  // Calls made at any time, with or without a lease: in a COMPENSATED workflow the only effect that
  // can be live is the failed step's own, and it is exactly when a call for it ran after all.
  lemma OnlyTheFailedEffectCanLive(events: seq<Event>, id: WorkflowId, i: nat)
    requires PossibleRun(START, events) && TurnRun(START, events)
    requires var w := EndToEnd.Run(START, events);
             IsStep(w.db, id, i) && w.db[id].steps[i].key.Some? && w.db[id].workflow.status == WfCompensated
    ensures var w := EndToEnd.Run(START, events); var step := w.db[id].steps[i];
            Live(w.journal, step.key.value) <==> step.status == Failed && Journal.HasEffect(w.journal.rows, step.key.value)
  {
    assert WorldOk(START);
    RunKeepsTurns(START, events);
    FailedOnlyCanLive(EndToEnd.Run(START, events), id, i);
  }

  lemma FailedOnlyCanLive(w: World, id: WorkflowId, i: nat)
    requires WorldOk(w) && AllInTurn(w.db) && IsStep(w.db, id, i) && w.db[id].steps[i].key.Some?
    requires w.db[id].workflow.status == WfCompensated
    ensures var step := w.db[id].steps[i];
            Live(w.journal, step.key.value) <==> step.status == Failed && Journal.HasEffect(w.journal.rows, step.key.value)
  {
    var s, step := w.db[id], w.db[id].steps[i];
    assert Shape(s) && StatusFits(s, i) && ColumnsFit(step) && StepAgrees(w.journal.rows, id, step) && Runs.UnwindsInTurn(s);
    assert Journal.HasEffect(w.journal.rows, step.key.value) ==> Journal.RowFits(w.journal.rows, step.key.value);
    WorldIsSound(w);
    hide WorldOk;
    LiveIsDone(w.journal, step.key.value);
  }

  // Events from w to v, each possible and unwinding in turn.
  ghost predicate Leads(w: World, events: seq<Event>, v: World) {
    PossibleRun(w, events) && TurnRun(w, events) && EndToEnd.Run(w, events) == v
  }

  lemma OneLeads(w: World, e: Event)
    requires Possible(w, e) && InTurn(w, e)
    ensures Leads(w, [e], Next(w, e))
  {
    assert [e][1..] == [];
    assert Leads(Next(w, e), [], Next(w, e));
  }

  lemma {:induction false} LeadsTransitive(w: World, a: seq<Event>, v: World, b: seq<Event>, u: World)
    requires Leads(w, a, v) && Leads(v, b, u)
    ensures Leads(w, a + b, u)
    decreases |a|
  {
    hide Next, Possible;
    if a == [] {
      assert a + b == b;
    } else {
      assert (a + b)[0] == a[0] && (a + b)[1..] == a[1..] + b;
      LeadsTransitive(Next(w, a[0]), a[1..], v, b, u);
    }
  }

  // The step runs under the key, in a lease that "owner" took over; nothing is in the journal.
  predicate TakenOver(w: World, inv: Journal.Invocation) {
    && w.journal == Journal.EMPTY && inv.workflow in w.db
    && var s := w.db[inv.workflow];
    && s.workflow.status == WfRunning && s.workflow.currentStep == 0 && s.workflow.lease == Some(Lease("owner", 20))
    && |s.steps| == 1 && s.steps[0].status == Running && s.steps[0].tool == Some(inv.tool) && s.steps[0].key == Some(inv.key)
  }

  lemma StepIsTakenOver(inv: Journal.Invocation, step: Step, wf: Workflow) returns (events: seq<Event>, w: World)
    requires Untouched(step) && step.tool == Some(inv.tool) && Initial(Snapshot(wf, [step]))
    ensures Leads(START, events, w) && TakenOver(w, inv)
  {
    hide Leads;
    var id := inv.workflow;
    var e0, e1 := Create(id, Snapshot(wf, [step])), Transition(id, Claim("late", 0, 10));
    var e2, e3 := Transition(id, StartTool("late", 1, inv.key, 1)), Transition(id, Claim("owner", 11, 20));
    var w1 := Next(START, e0);
    OneLeads(START, e0);
    var w2 := Next(w1, e1);
    OneLeads(w1, e1);
    var w3 := Next(w2, e2);
    OneLeads(w2, e2);
    w := Next(w3, e3);
    OneLeads(w3, e3);
    LeadsTransitive(START, [e0], w1, [e1], w2);
    LeadsTransitive(START, [e0] + [e1], w2, [e2], w3);
    LeadsTransitive(START, [e0] + [e1] + [e2], w3, [e3], w);
    events := [e0] + [e1] + [e2] + [e3];
  }

  predicate Closed(w: World, inv: Journal.Invocation) {
    && w.journal == Journal.EMPTY && StartedUnder(w.db, inv.workflow, 0, inv.tool, inv.key)
    && w.db[inv.workflow].workflow.status == WfCompensated
  }

  // The owner is refused and closes the workflow ...
  lemma OwnerCloses(w: World, inv: Journal.Invocation) returns (events: seq<Event>, u: World)
    requires TakenOver(w, inv)
    ensures Leads(w, events, u) && Closed(u, inv)
  {
    hide Leads;
    var id := inv.workflow;
    var e4, e5 := Execute(inv, "owner", 12, None), Transition(id, FailTool("owner", 1, inv.key, "rejected", 13));
    var e6 := Transition(id, BeginCompensation("owner", 14));
    assert StartedUnder(w.db, id, 0, inv.tool, inv.key);
    var w5 := Next(w, e4);
    OneLeads(w, e4);
    assert w5.journal == w.journal && w5.db == w.db;
    var w6 := Next(w5, e5);
    OneLeads(w5, e5);
    u := Next(w6, e6);
    OneLeads(w6, e6);
    LeadsTransitive(w, [e4], w5, [e5], w6);
    LeadsTransitive(w, [e4] + [e5], w6, [e6], u);
    events := [e4] + [e5] + [e6];
  }

  // ... and then the late call runs.
  lemma LateCallRuns(w: World, inv: Journal.Invocation, r: ToolResult) returns (e: Event)
    requires Closed(w, inv) && ValidInput(inv.input) && ToolOf(inv.input) == inv.tool
    ensures Leads(w, [e], Next(w, e))
    ensures var u := Next(w, e);
            inv.workflow in u.db && u.db[inv.workflow].workflow.status == WfCompensated && Live(u.journal, inv.key)
  {
    e := Execute(inv, "late", 15, Some(r));
    OneLeads(w, e);
    assert Next(w, e).journal.history == multiset{Journal.EffectRan(inv.key)};
  }

  // It does happen: a worker whose lease was taken over calls after its step was recorded as failed.
  lemma LateCallLeavesEffect(inv: Journal.Invocation, r: ToolResult, step: Step, wf: Workflow)
    returns (events: seq<Event>)
    requires ValidInput(inv.input) && ToolOf(inv.input) == inv.tool
    requires Untouched(step) && step.tool == Some(inv.tool) && Initial(Snapshot(wf, [step]))
    ensures PossibleRun(START, events) && TurnRun(START, events)
    ensures var w := EndToEnd.Run(START, events);
            && inv.workflow in w.db && w.db[inv.workflow].workflow.status == WfCompensated
            && Live(w.journal, inv.key)
  {
    hide Possible, Next;
    var before, w := StepIsTakenOver(inv, step, wf);
    var closing, closed := OwnerCloses(w, inv);
    var late := LateCallRuns(closed, inv, r);
    LeadsTransitive(START, before, w, closing, closed);
    LeadsTransitive(START, before + closing, closed, [late], Next(closed, late));
    events := before + closing + [late];
  }
}
