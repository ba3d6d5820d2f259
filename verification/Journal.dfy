/** The idempotency journal that wraps every provider effect: which calls run an effect, which are
    answered from the journal, which are refused, and how often an effect and its reverse can run.
    What an effect does is a parameter here: `effect` is its result, or None if it is rejected. */
module Journal {
  import opened Records

  // The tool_name column holds a tool's name or a reverse action's name.
  datatype Kind = Forward(tool: ToolName) | Reverse(action: ReverseAction)

  datatype Parameters = Input(input: ToolInput) | Provenance(tool: ToolName, original: Key, effect: ToolResult)

  datatype RowStatus = Started | Done | Undone   // started, succeeded, compensated

  datatype Row = Row(workflow: WorkflowId, kind: Kind, parameters: Parameters, status: RowStatus,
                     result: Option<ToolResult>, attempts: nat)

  type Rows = map<Key, Row>

  datatype Invocation = Invocation(workflow: WorkflowId, tool: ToolName, key: Key, input: ToolInput)

  datatype Compensation = Compensation(workflow: WorkflowId, tool: ToolName, action: ReverseAction,
                                       original: Key, key: Key, effect: ToolResult)

  // An answer to a call: refused (an exception), the stored result, or the result of a fresh run.
  datatype Answer = Refused | Replayed(result: ToolResult) | Ran(result: ToolResult)

  function WithInserted(rows: Rows, key: Key, row: Row): Rows {
    if key in rows then rows[key := rows[key].(attempts := rows[key].attempts + (if rows[key].status == Started then 1 else 0))]
    else rows[key := row]
  }

  predicate Bound(row: Row, workflow: WorkflowId, kind: Kind, parameters: Parameters) {
    row.workflow == workflow && row.kind == kind && row.parameters == parameters
  }

  function Stored(row: Row): Answer {
    if row.status == Done && row.result.Some? then Replayed(row.result.value) else Refused
  }

  function Finish(rows: Rows, key: Key, result: ToolResult): Rows
    requires key in rows
  {
    rows[key := rows[key].(status := Done, result := Some(result))]
  }

  function Execute(rows: Rows, inv: Invocation, effect: Option<ToolResult>): (Rows, Answer) {
    var begun := WithInserted(rows, inv.key, Row(inv.workflow, Forward(inv.tool), Input(inv.input), Started, None, 1));
    var row := begun[inv.key];
    if !ValidInput(inv.input) || ToolOf(inv.input) != inv.tool then (rows, Refused)
    else if !Bound(row, inv.workflow, Forward(inv.tool), Input(inv.input)) then (rows, Refused)
    else if row.status != Started then (rows, Stored(row))
    else if effect.None? then (rows, Refused)
    else (Finish(begun, inv.key, effect.value), Ran(effect.value))
  }

  predicate Compensable(rows: Rows, c: Compensation) {
    && c.original in rows
    && var row := rows[c.original];
    row.workflow == c.workflow && row.kind == Forward(c.tool) && row.status == Done && row.result == Some(c.effect)
  }

  function Compensate(rows: Rows, c: Compensation, effect: Option<ToolResult>): (Rows, Answer) {
    var parameters := Provenance(c.tool, c.original, c.effect);
    var begun := WithInserted(rows, c.key, Row(c.workflow, Reverse(c.action), parameters, Started, None, 1));
    var row := begun[c.key];
    if ReverseOf(c.tool) != c.action then (rows, Refused)
    else if !Bound(row, c.workflow, Reverse(c.action), parameters) then (rows, Refused)
    else if row.status != Started then (rows, Stored(row))
    else if !Compensable(begun, c) || effect.None? then (rows, Refused)
    else
      var finished := Finish(begun, c.key, effect.value);
      (finished[c.original := finished[c.original].(status := Undone)], Ran(effect.value))
  }

  // ---- runs of calls, with the history of what really ran ----

  datatype Event = EffectRan(original: Key) | ReverseRan(original: Key, reverse: Key)

  // history counts, for every effect and every reverse effect, how often it was committed.
  datatype Ledger = Ledger(rows: Rows, history: multiset<Event>)

  datatype Call =
    | ExecuteCall(inv: Invocation, effect: Option<ToolResult>)
    | CompensateCall(c: Compensation, effect: Option<ToolResult>)

  function RowsAfter(rows: Rows, call: Call): (Rows, Answer) {
    match call
    case ExecuteCall(inv, effect) => Execute(rows, inv, effect)
    case CompensateCall(c, effect) => Compensate(rows, c, effect)
  }

  function EventOf(call: Call): Event {
    match call
    case ExecuteCall(inv, _) => EffectRan(inv.key)
    case CompensateCall(c, _) => ReverseRan(c.original, c.key)
  }

  function AnswerTo(l: Ledger, call: Call): Answer { RowsAfter(l.rows, call).1 }

  function Next(l: Ledger, call: Call): Ledger {
    var (rows, answer) := RowsAfter(l.rows, call);
    Ledger(rows, if answer.Ran? then l.history + multiset{EventOf(call)} else l.history)
  }

  function Run(l: Ledger, calls: seq<Call>): Ledger
    decreases |calls|
  {
    if calls == [] then l else Run(Next(l, calls[0]), calls[1..])
  }

  // Row `k` is a compensation of the effect journaled under `key`.
  predicate Names(rows: Rows, k: Key, key: Key) {
    k in rows && rows[k].kind.Reverse? && rows[k].parameters.Provenance? && rows[k].parameters.original == key
  }

  predicate HasEffect(rows: Rows, key: Key) { key in rows && rows[key].kind.Forward? }

  predicate RowFits(rows: Rows, key: Key)
    requires key in rows
  {
    var row := rows[key];
    && row.status != Started && row.result.Some?
    && match row.kind
       case Forward(tool) => row.parameters.Input? && ToolOf(row.parameters.input) == tool
       case Reverse(action) => row.status == Done && row.parameters.Provenance? && action == ReverseOf(row.parameters.tool)
                               && Undoes(rows, row)
  }

  // The original named by a compensation row is its own workflow's, with the result it quotes.
  predicate Undoes(rows: Rows, row: Row)
    requires row.parameters.Provenance?
  {
    && row.parameters.original in rows
    && var original := rows[row.parameters.original];
    original.kind == Forward(row.parameters.tool) && original.status == Undone
    && original.result == Some(row.parameters.effect) && original.workflow == row.workflow
  }

  ghost predicate RowsSound(rows: Rows) {
    && (forall key :: key in rows ==> RowFits(rows, key))
    && (forall a, b, key :: Names(rows, a, key) && Names(rows, b, key) ==> a == b)
    && (forall key :: key in rows && rows[key].status == Undone ==> exists k :: Names(rows, k, key))
  }

  predicate Counted(l: Ledger, key: Key, k: Key) {
    && l.history[EffectRan(key)] == (if HasEffect(l.rows, key) then 1 else 0)
    && l.history[ReverseRan(key, k)] == (if Names(l.rows, k, key) then 1 else 0)
  }

  // The history says of every effect and every reverse whether it ran once or never.
  ghost predicate HistoryFits(l: Ledger) {
    forall key, k :: Counted(l, key, k)
  }

  ghost predicate Sound(l: Ledger) { RowsSound(l.rows) && HistoryFits(l) }

  lemma NamedIsUndone(rows: Rows, key: Key)
    requires RowsSound(rows)
    ensures forall k :: Names(rows, k, key) ==> key in rows && rows[key].status == Undone && rows[key].kind.Forward?
  {
    forall k | Names(rows, k, key) ensures key in rows && rows[key].status == Undone && rows[key].kind.Forward? {
      assert RowFits(rows, k);
    }
  }

  // A run is always under a fresh key; anything else leaves the rows alone.
  lemma OnlyFreshKeysRun(rows: Rows, call: Call)
    requires RowsSound(rows)
    ensures var (after, answer) := RowsAfter(rows, call);
            if !answer.Ran? then after == rows
            else match call
                 case ExecuteCall(inv, effect) => inv.key !in rows && effect == Some(answer.result) && after ==
                   rows[inv.key := Row(inv.workflow, Forward(inv.tool), Input(inv.input), Done, effect, 1)]
                 case CompensateCall(c, effect) =>
                   (c.key !in rows && effect == Some(answer.result)
                    && c.key != c.original && Compensable(rows, c) && ReverseOf(c.tool) == c.action
                    && after == rows[c.key := Row(c.workflow, Reverse(c.action), Provenance(c.tool, c.original, c.effect),
                                                  Done, effect, 1)]
                                    [c.original := rows[c.original].(status := Undone)])
  {
    match call {
      case ExecuteCall(inv, _) => if inv.key in rows { assert RowFits(rows, inv.key); }
      case CompensateCall(c, _) => if c.key in rows { assert RowFits(rows, c.key); }
    }
  }

  // The rows after a call that ran, as OnlyFreshKeysRun gives them.
  predicate Inserted(rows: Rows, call: Call, after: Rows) {
    match call
    case ExecuteCall(inv, effect) =>
      inv.key !in rows && effect.Some? && ToolOf(inv.input) == inv.tool
      && after == rows[inv.key := Row(inv.workflow, Forward(inv.tool), Input(inv.input), Done, effect, 1)]
    case CompensateCall(c, effect) =>
      c.key !in rows && effect.Some? && c.key != c.original && Compensable(rows, c) && ReverseOf(c.tool) == c.action
      && after == rows[c.key := Row(c.workflow, Reverse(c.action), Provenance(c.tool, c.original, c.effect), Done, effect, 1)]
                      [c.original := rows[c.original].(status := Undone)]
  }

  lemma RanInserts(rows: Rows, call: Call)
    requires RowsSound(rows)
    ensures var (after, answer) := RowsAfter(rows, call); if answer.Ran? then Inserted(rows, call, after) else after == rows
  {
    OnlyFreshKeysRun(rows, call);
    hide RowsSound;
  }

  // The answer to every tool call. Only a checked input is looked at; a key not in the journal runs the
  // effect, and any other gives back the result of this very call, or nothing.
  lemma ExecuteAnswers(rows: Rows, inv: Invocation, effect: Option<ToolResult>)
    requires RowsSound(rows)
    ensures Execute(rows, inv, effect).1 ==
            if !ValidInput(inv.input) || ToolOf(inv.input) != inv.tool then Refused
            else if inv.key !in rows then (if effect.Some? then Ran(effect.value) else Refused)
            else
              var row := rows[inv.key];
              if row.status == Done && row.workflow == inv.workflow && row.kind == Forward(inv.tool) && row.parameters == Input(inv.input)
              then Replayed(row.result.value) else Refused
  {
    if inv.key in rows { assert RowFits(rows, inv.key); }
  }

  // The answer to every compensation: a new one runs exactly on an effect of the same workflow that is
  // in the journal with this very result and has not been compensated.
  lemma CompensateAnswers(rows: Rows, c: Compensation, effect: Option<ToolResult>)
    requires RowsSound(rows)
    ensures Compensate(rows, c, effect).1 ==
            if c.action != ReverseOf(c.tool) then Refused
            else if c.key in rows then
              var row := rows[c.key];
              if row.workflow == c.workflow && row.kind == Reverse(c.action) && row.parameters == Provenance(c.tool, c.original, c.effect)
              then Replayed(row.result.value) else Refused
            else if effect.Some? && c.original in rows && rows[c.original].status == Done && rows[c.original].kind == Forward(c.tool)
                    && rows[c.original].workflow == c.workflow && rows[c.original].result == Some(c.effect)
            then Ran(effect.value) else Refused
  {
    if c.key in rows { assert RowFits(rows, c.key); }
  }

  // What a call means for its caller: a fresh run has the effect's own result, under checked input
  // or a checked original, and no other row's result changes.
  lemma CallResults(rows: Rows, call: Call)
    requires RowsSound(rows)
    ensures var (after, answer) := RowsAfter(rows, call);
            && (answer.Ran? ==> call.effect == Some(answer.result))
            && (answer.Ran? && call.ExecuteCall? ==> ValidInput(call.inv.input))
            && (answer.Ran? && call.CompensateCall? ==> Compensable(rows, call.c))
            && forall key :: key in after ==>
                 (key in rows && after[key].result == rows[key].result) || (answer.Ran? && after[key].result == Some(answer.result))
  {
    OnlyFreshKeysRun(rows, call);
    hide RowsSound;
  }

  lemma InsertedRowsFit(rows: Rows, call: Call, after: Rows, key: Key)
    requires Inserted(rows, call, after) && (forall k :: k in rows ==> RowFits(rows, k)) && key in after
    ensures RowFits(after, key)
  {
    if key in rows { assert RowFits(rows, key); }
  }

  lemma InsertedNamesDiffer(rows: Rows, call: Call, after: Rows, a: Key, b: Key, key: Key)
    requires Inserted(rows, call, after) && RowsSound(rows) && Names(after, a, key) && Names(after, b, key)
    ensures a == b
  {
    NamedIsUndone(rows, key);
    if a in rows { assert Names(rows, a, key); }
    if b in rows { assert Names(rows, b, key); }
  }

  lemma InsertedIsNamed(rows: Rows, call: Call, after: Rows, key: Key)
    requires Inserted(rows, call, after) && RowsSound(rows) && key in after && after[key].status == Undone
    ensures exists k :: Names(after, k, key)
  {
    if call.CompensateCall? && key == call.c.original {
      assert Names(after, call.c.key, key);
    } else {
      var k :| Names(rows, k, key);
      assert Names(after, k, key);
    }
  }

  lemma CallKeepsRowsSound(rows: Rows, call: Call)
    requires RowsSound(rows)
    ensures RowsSound(RowsAfter(rows, call).0)
  {
    RanInserts(rows, call);
    var (after, answer) := RowsAfter(rows, call);
    if answer.Ran? {
      hide Inserted, RowFits, Names, RowsAfter;
      forall key | key in after ensures RowFits(after, key) { InsertedRowsFit(rows, call, after, key); }
      forall a, b, key | Names(after, a, key) && Names(after, b, key) ensures a == b {
        InsertedNamesDiffer(rows, call, after, a, b, key);
      }
      forall key | key in after && after[key].status == Undone ensures exists k :: Names(after, k, key) {
        InsertedIsNamed(rows, call, after, key);
      }
    }
  }

  lemma ExecuteRecords(rows: Rows, call: Call, after: Rows, key: Key, k: Key)
    requires call.ExecuteCall? && Inserted(rows, call, after)
    ensures HasEffect(after, key) <==> HasEffect(rows, key) || call.inv.key == key
    ensures Names(after, k, key) <==> Names(rows, k, key)
    ensures !HasEffect(rows, call.inv.key)
  {}

  lemma CompensateRecords(rows: Rows, call: Call, after: Rows, key: Key, k: Key)
    requires call.CompensateCall? && Inserted(rows, call, after)
    ensures HasEffect(after, key) <==> HasEffect(rows, key)
    ensures Names(after, k, key) <==> Names(rows, k, key) || (call.c.original == key && call.c.key == k)
    ensures !Names(rows, call.c.key, key)
  {}

  // A run adds exactly the fact that its event records.
  lemma RunRecordsItsEvent(rows: Rows, call: Call, key: Key, k: Key)
    requires RowsSound(rows) && RowsAfter(rows, call).1.Ran?
    ensures var after := RowsAfter(rows, call).0;
            && (HasEffect(after, key) <==> HasEffect(rows, key) || EventOf(call) == EffectRan(key))
            && (Names(after, k, key) <==> Names(rows, k, key) || EventOf(call) == ReverseRan(key, k))
            && (EventOf(call) == EffectRan(key) ==> !HasEffect(rows, key))
            && (EventOf(call) == ReverseRan(key, k) ==> !Names(rows, k, key))
  {
    RanInserts(rows, call);
    var after := RowsAfter(rows, call).0;
    hide RowsSound, RowsAfter, Inserted, HasEffect, Names;
    match call {
      case ExecuteCall(_, _) => ExecuteRecords(rows, call, after, key, k);
      case CompensateCall(_, _) => CompensateRecords(rows, call, after, key, k);
    }
  }

  lemma NextCounts(l: Ledger, call: Call, key: Key, k: Key)
    requires RowsSound(l.rows) && Counted(l, key, k)
    ensures Counted(Next(l, call), key, k)
  {
    var (rows, answer) := RowsAfter(l.rows, call);
    if answer.Ran? {
      RunRecordsItsEvent(l.rows, call, key, k);
      var e := EventOf(call);
      assert Next(l, call) == Ledger(rows, l.history + multiset{e});
    } else {
      OnlyFreshKeysRun(l.rows, call);
    }
  }

  lemma NextKeepsSound(l: Ledger, call: Call)
    requires Sound(l)
    ensures Sound(Next(l, call))
  {
    CallKeepsRowsSound(l.rows, call);
    forall key, k ensures Counted(Next(l, call), key, k) {
      assert Counted(l, key, k);
      NextCounts(l, call, key, k);
    }
  }

  lemma {:induction false} RunKeepsSound(l: Ledger, calls: seq<Call>)
    requires Sound(l)
    ensures Sound(Run(l, calls))
    decreases |calls|
  {
    if calls != [] {
      NextKeepsSound(l, calls[0]);
      RunKeepsSound(Next(l, calls[0]), calls[1..]);
    }
  }

  const EMPTY := Ledger(map[], multiset{})

  // Whatever is called in whatever order, with whatever keys: no row is left started, no effect and
  // no reverse runs twice, and an effect is COMPENSATED exactly when its one reverse ran.
  lemma JournalLifecycle(calls: seq<Call>, key: Key)
    ensures var l := Run(EMPTY, calls);
            && l.history[EffectRan(key)] == (if HasEffect(l.rows, key) then 1 else 0)
            && (forall k :: l.history[ReverseRan(key, k)] == if Names(l.rows, k, key) then 1 else 0)
            && (forall a, b :: ReverseRan(key, a) in l.history && ReverseRan(key, b) in l.history ==> a == b)
            && (key in l.rows ==>
                  && l.rows[key].status != Started && l.rows[key].result.Some?
                  && (l.rows[key].status == Undone <==> exists k :: Names(l.rows, k, key)))
  {
    RunKeepsSound(EMPTY, calls);
    var l := Run(EMPTY, calls);
    forall k ensures l.history[ReverseRan(key, k)] == (if Names(l.rows, k, key) then 1 else 0)
                  && l.history[EffectRan(key)] == (if HasEffect(l.rows, key) then 1 else 0) {
      assert Counted(l, key, k);
    }
    assert Counted(l, key, key);
    if key in l.rows {
      assert RowFits(l.rows, key);
      NamedIsUndone(l.rows, key);
    }
  }

  // ---- what callers can rely on ----

  // A row keeps everything but its status, and that only moves to compensated.
  predicate Persists(a: Rows, b: Rows) {
    forall key :: key in a ==> key in b && (b[key] == a[key] || b[key] == a[key].(status := Undone))
  }

  lemma {:induction false} RunPersists(l: Ledger, calls: seq<Call>)
    requires Sound(l)
    ensures Persists(l.rows, Run(l, calls).rows)
    decreases |calls|
  {
    if calls != [] {
      var n := Next(l, calls[0]);
      OnlyFreshKeysRun(l.rows, calls[0]);
      assert Persists(l.rows, n.rows);
      NextKeepsSound(l, calls[0]);
      RunPersists(n, calls[1..]);
      forall key | key in l.rows ensures
        var b := Run(l, calls).rows; key in b && (b[key] == l.rows[key] || b[key] == l.rows[key].(status := Undone)) {
        assert key in n.rows;
      }
    }
  }

  // Once a call has run its effect, that call is answered with that very result or, after a
  // compensation, refused; whatever else is tried under the key is refused. The effect never reruns.
  lemma ReplayNeverReruns(l: Ledger, inv: Invocation, effect: Option<ToolResult>, calls: seq<Call>,
                          again: Invocation, effect': Option<ToolResult>)
    requires Sound(l) && AnswerTo(l, ExecuteCall(inv, effect)).Ran? && again.key == inv.key
    ensures var first := AnswerTo(l, ExecuteCall(inv, effect)).result;
            var later := Run(Next(l, ExecuteCall(inv, effect)), calls);
            var answer := AnswerTo(later, ExecuteCall(again, effect'));
            && inv.key in later.rows
            && answer == if again == inv && later.rows[inv.key].status == Done then Replayed(first) else Refused
  {
    var call := ExecuteCall(inv, effect);
    OnlyFreshKeysRun(l.rows, call);
    NextKeepsSound(l, call);
    var l1 := Next(l, call);
    assert inv.key in l1.rows;
    RunPersists(l1, calls);
    RunKeepsSound(l1, calls);
    var later := Run(l1, calls);
    assert RowFits(later.rows, inv.key);
    assert later.rows[inv.key].(status := Done) == l1.rows[inv.key];
  }
}
