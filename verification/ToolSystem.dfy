/** Journal and tables together, over every run of calls and outside changes: the ledger holds, a
    lot's version fences its past, and a compensated reallocation is exactly undone. */
module ToolSystem {
  import opened Records
  import opened Erp
  import opened LotLedger
  import opened LotRestore
  import Journal

  datatype System = System(db: Tables, rows: Journal.Rows)

  // External is any change made elsewhere that External's guard below allows.
  datatype Act =
    | Exec(inv: Journal.Invocation, today: int)
    | Undo(c: Journal.Compensation, today: int)
    | External(after: Tables)

  function ResultOf(o: Outcome): Option<ToolResult> {
    if o.Some? then Some(o.value.1) else None
  }

  function ExecOutcome(db: Tables, inv: Journal.Invocation, today: int): Outcome {
    EffectOf(db, inv.input, Request(inv.workflow, inv.key, today))
  }

  function UndoOutcome(db: Tables, c: Journal.Compensation, today: int): Outcome {
    ReverseEffectOf(db, c.action, c.effect, c.original, Request(c.workflow, c.key, today))
  }

  function CallOf(s: System, act: Act): Journal.Call
    requires !act.External?
  {
    match act
    case Exec(inv, today) => Journal.ExecuteCall(inv, ResultOf(ExecOutcome(s.db, inv, today)))
    case Undo(c, today) => Journal.CompensateCall(c, ResultOf(UndoOutcome(s.db, c, today)))
  }

  function OutcomeOf(s: System, act: Act): Outcome
    requires !act.External?
  {
    match act
    case Exec(inv, today) => ExecOutcome(s.db, inv, today)
    case Undo(c, today) => UndoOutcome(s.db, c, today)
  }

  // One committed transaction: the tables change only if the effect ran.
  function Next(s: System, act: Act): System {
    match act
    case External(after) => s.(db := after)
    case _ =>
      var (rows, answer) := Journal.RowsAfter(s.rows, CallOf(s, act));
      var outcome := OutcomeOf(s, act);
      System(if answer.Ran? && outcome.Some? then outcome.value.0 else s.db, rows)
  }

  function Answer(s: System, act: Act): Journal.Answer
    requires !act.External?
  {
    Journal.RowsAfter(s.rows, CallOf(s, act)).1
  }

  // Other software may change anything but the ledger columns; lots and allocations have no other
  // writer, so it touches a lot's status at most, and versions never go back.
  predicate ExternalOk(db: Tables, after: Tables) {
    && after.allocations == db.allocations && after.nextId >= db.nextId && after.lots.Keys == db.lots.Keys
    && forall lot :: lot in db.lots ==>
         after.lots[lot] == db.lots[lot].(status := after.lots[lot].status, version := after.lots[lot].version)
         && after.lots[lot].version >= db.lots[lot].version
  }

  predicate Allowed(s: System, act: Act) { act.External? ==> ExternalOk(s.db, act.after) }

  function Run(s: System, acts: seq<Act>): System
    decreases |acts|
  {
    if acts == [] then s else Run(Next(s, acts[0]), acts[1..])
  }

  predicate AllowedRun(s: System, acts: seq<Act>)
    decreases |acts|
  {
    acts == [] || (Allowed(s, acts[0]) && AllowedRun(Next(s, acts[0]), acts[1..]))
  }

  predicate RowFenced(s: System, key: Key)
    requires key in s.rows
  {
    var result := s.rows[key].result;
    result.Some? && result.value.LotReallocated? ==> Fenced(s.db, result.value)
  }

  ghost predicate SystemOk(s: System) {
    LedgerOk(s.db) && Journal.RowsSound(s.rows) && forall key :: key in s.rows ==> RowFenced(s, key)
  }

  // ---- a lot's history: its version grows with every write to it ----

  predicate LotUntouched(a: Tables, b: Tables, lot: RowId) {
    && lot in a.lots && lot in b.lots
    && b.lots[lot] == a.lots[lot].(status := b.lots[lot].status)
    && (forall id :: id in a.allocations && a.allocations[id].lot == lot ==> id in b.allocations && b.allocations[id] == a.allocations[id])
    && (forall id :: id in b.allocations && b.allocations[id].lot == lot ==> id in a.allocations && b.allocations[id] == a.allocations[id])
  }

  predicate MovesForward(a: Tables, b: Tables, lot: RowId) {
    lot in a.lots ==> lot in b.lots && (b.lots[lot].version > a.lots[lot].version || LotUntouched(a, b, lot))
  }

  lemma ForwardKeepsFence(a: Tables, b: Tables, r: ToolResult)
    requires r.LotReallocated? && Fenced(a, r) && MovesForward(a, b, r.lot)
    ensures Fenced(b, r)
  {}

  // ---- one transaction ----

  lemma {:induction false} TotalBeyond(rows: Allocations, lot: RowId, n: nat, m: nat)
    requires n <= m && forall id :: id in rows ==> id < n
    ensures Total(rows, lot, m) == Total(rows, lot, n)
  {
    if n < m {
      TotalBeyond(rows, lot, n, m - 1);
      assert Total(rows, lot, m) == Total(rows, lot, m - 1) + RowTerm(rows, lot)(m - 1);
    }
  }

  lemma UntouchedKeepsLedger(db: Tables, after: Tables)
    requires LedgerOk(db) && ExternalOk(db, after)
    ensures LedgerOk(after)
    ensures forall lot :: MovesForward(db, after, lot)
  {
    hide PairsUnique;
    forall lot | lot in after.lots ensures LotOk(after, lot) {
      assert LotOk(db, lot);
      TotalBeyond(db.allocations, lot, db.nextId, after.nextId);
    }
  }

  lemma ReallocationForward(db: Tables, lot: RowId, from: Option<RowId>, to: RowId, quantity: Quantity, other: RowId)
    requires LedgerOk(db) && quantity > 0 && from != Some(to) && ReallocateEffect(db, lot, from, to, quantity).Some?
    ensures MovesForward(db, ReallocateEffect(db, lot, from, to, quantity).value.0, other)
  {
    hide PairsUnique, Total, ReallocateEffect;
    ReallocationIsFenced(db, lot, from, to, quantity);
    ReallocationMovesRows(db, lot, from, to, quantity);
    ReallocationWrites(db, lot, from, to, quantity, other);
  }

  lemma RestoreForward(db: Tables, r: ToolResult, other: RowId)
    requires r.LotReallocated? && LedgerOk(db) && AsLeft(db, r) && RestoreAllocation(db, r).Some?
    ensures MovesForward(db, RestoreAllocation(db, r).value.0, other)
  {
    hide PairsUnique, Total, RestoreAllocation;
    RestoreWrites(db, r);
  }

  // The effects other than a reallocation leave the ledger columns alone.
  lemma OtherEffectsTouchNothing(db: Tables, input: ToolInput, req: Request)
    requires !input.Reallocate? && EffectOf(db, input, req).Some?
    ensures var (after, r) := EffectOf(db, input, req).value; ExternalOk(db, after) && !r.LotReallocated?
  {
    hide Shortage;
  }

  lemma OtherReversesTouchNothing(db: Tables, action: ReverseAction, effect: ToolResult, original: Key, req: Request)
    requires !action.RestorePriorAllocation? && ReverseEffectOf(db, action, effect, original, req).Some?
    ensures var (after, r) := ReverseEffectOf(db, action, effect, original, req).value;
            ExternalOk(db, after) && !r.LotReallocated?
  {}

  // What one act can do to the ledger; `made` is the result it journals, if any.
  ghost predicate LedgerStep(a: Tables, b: Tables, made: Option<ToolResult>) {
    && LedgerOk(b)
    && (forall lot :: MovesForward(a, b, lot))
    && (made.Some? && made.value.LotReallocated? ==> Fenced(b, made.value))
  }

  lemma ExecIsLedgerStep(s: System, inv: Journal.Invocation, today: int)
    requires LedgerOk(s.db) && ValidInput(inv.input) && ExecOutcome(s.db, inv, today).Some?
    ensures var (after, r) := ExecOutcome(s.db, inv, today).value; LedgerStep(s.db, after, Some(r))
  {
    hide LedgerOk, ReallocateEffect, MovesForward, AsLeft;
    if inv.input.Reallocate? {
      var Reallocate(lot, from, to, quantity) := inv.input;
      ReallocationKeepsLedger(s.db, lot, from, to, quantity);
      ReallocationIsFenced(s.db, lot, from, to, quantity);
      FenceFromLeft(ExecOutcome(s.db, inv, today).value.0, ExecOutcome(s.db, inv, today).value.1);
      forall other ensures MovesForward(s.db, ExecOutcome(s.db, inv, today).value.0, other) {
        ReallocationForward(s.db, lot, from, to, quantity, other);
      }
    } else {
      OtherEffectsTouchNothing(s.db, inv.input, Request(inv.workflow, inv.key, today));
      UntouchedKeepsLedger(s.db, ExecOutcome(s.db, inv, today).value.0);
    }
  }

  lemma FenceFromLeft(db: Tables, r: ToolResult)
    requires r.LotReallocated? && AsLeft(db, r)
    ensures Fenced(db, r)
  {}

  lemma UndoIsLedgerStep(s: System, c: Journal.Compensation, today: int)
    requires LedgerOk(s.db) && UndoOutcome(s.db, c, today).Some?
    requires c.effect.LotReallocated? ==> Fenced(s.db, c.effect)
    ensures var (after, r) := UndoOutcome(s.db, c, today).value; LedgerStep(s.db, after, Some(r)) && !r.LotReallocated?
  {
    hide LedgerOk, RestoreAllocation, MovesForward, AsLeft;
    var after := UndoOutcome(s.db, c, today).value.0;
    if c.action.RestorePriorAllocation? {
      RestoreAcceptedIff(s.db, c.effect);
      RestoreKeepsLedger(s.db, c.effect);
      RestoreResult(s.db, c.effect);
      forall other ensures MovesForward(s.db, after, other) { RestoreForward(s.db, c.effect, other); }
    } else {
      OtherReversesTouchNothing(s.db, c.action, c.effect, c.original, Request(c.workflow, c.key, today));
      UntouchedKeepsLedger(s.db, after);
    }
  }

  lemma RestoreResult(db: Tables, r: ToolResult)
    requires r.LotReallocated? && RestoreAllocation(db, r).Some?
    ensures RestoreAllocation(db, r).value.1.AllocationRestored?
  {}

  // The journal's side of one call.
  lemma CallOnJournal(s: System, act: Act)
    requires Journal.RowsSound(s.rows) && !act.External?
    ensures var n := Next(s, act); var answer := Answer(s, act);
            && Journal.RowsSound(n.rows)
            && (!answer.Ran? ==> n == s)
            && (answer.Ran? ==> OutcomeOf(s, act) == Some((n.db, answer.result)))
            && (answer.Ran? && act.Exec? ==> ValidInput(act.inv.input))
            && (answer.Ran? && act.Undo? ==> Journal.Compensable(s.rows, act.c))
            && (forall key :: key in n.rows ==>
                  (key in s.rows && n.rows[key].result == s.rows[key].result)
                  || (answer.Ran? && n.rows[key].result == Some(answer.result)))
  {
    Journal.CallKeepsRowsSound(s.rows, CallOf(s, act));
    Journal.CallResults(s.rows, CallOf(s, act));
    Journal.RanInserts(s.rows, CallOf(s, act));
    hide Journal.RowsSound, Journal.RowsAfter, Journal.Inserted, ExecOutcome, UndoOutcome;
  }

  lemma NextKeepsSystem(s: System, act: Act)
    requires SystemOk(s) && Allowed(s, act)
    ensures SystemOk(Next(s, act)) && forall lot :: MovesForward(s.db, Next(s, act).db, lot)
  {
    hide LedgerOk, MovesForward, Fenced, ExecOutcome, UndoOutcome, Journal.RowsSound;
    var n := Next(s, act);
    var made: Option<ToolResult> := None;
    if act.External? {
      UntouchedKeepsLedger(s.db, act.after);
    } else {
      CallOnJournal(s, act);
      if Answer(s, act).Ran? {
        made := Some(Answer(s, act).result);
        match act {
          case Exec(inv, today) => ExecIsLedgerStep(s, inv, today);
          case Undo(c, today) =>
            assert RowFenced(s, c.original);
            UndoIsLedgerStep(s, c, today);
        }
      } else {
        NothingMoves(s.db);
      }
    }
    forall key | key in n.rows ensures RowFenced(n, key) {
      if key in s.rows && n.rows[key].result == s.rows[key].result {
        assert RowFenced(s, key);
        if s.rows[key].result.Some? && s.rows[key].result.value.LotReallocated? {
          ForwardKeepsFence(s.db, n.db, s.rows[key].result.value);
        }
      }
    }
  }

  lemma NothingMoves(db: Tables)
    ensures forall lot :: MovesForward(db, db, lot)
  {}

  // ---- whole runs ----

  lemma UntouchedTransitive(a: Tables, b: Tables, c: Tables, lot: RowId)
    requires MovesForward(a, b, lot) && MovesForward(b, c, lot)
    ensures MovesForward(a, c, lot)
  {}

  // Over every run the ledger is conserved, and no lot returns to an earlier version.
  lemma {:induction false} RunKeepsSystem(s: System, acts: seq<Act>)
    requires SystemOk(s) && AllowedRun(s, acts)
    ensures SystemOk(Run(s, acts)) && forall lot :: MovesForward(s.db, Run(s, acts).db, lot)
    decreases |acts|
  {
    hide LedgerOk, MovesForward, Fenced, Journal.RowsSound, SystemOk, Next, Allowed;
    if acts == [] {
      NothingMoves(s.db);
    } else {
      var n := Next(s, acts[0]);
      NextKeepsSystem(s, acts[0]);
      RunKeepsSystem(n, acts[1..]);
      forall lot ensures MovesForward(s.db, Run(s, acts).db, lot) {
        UntouchedTransitive(s.db, n.db, Run(n, acts[1..]).db, lot);
      }
    }
  }

  // From tables whose ledger balances and an empty journal, every lot's allocated quantity is the
  // sum of its allocation rows after any run, and lies between 0 and the lot's quantity.
  lemma LedgerIsConserved(db: Tables, acts: seq<Act>, lot: RowId)
    requires LedgerOk(db) && AllowedRun(System(db, map[]), acts)
    ensures var after := Run(System(db, map[]), acts).db;
            lot in after.lots ==>
              && after.lots[lot].inUse == Total(after.allocations, lot, after.nextId)
              && 0 <= after.lots[lot].inUse <= after.lots[lot].quantity
              && forall id :: id in after.allocations ==> after.allocations[id].quantity >= 0
  {
    RunKeepsSystem(System(db, map[]), acts);
    var after := Run(System(db, map[]), acts).db;
    if lot in after.lots { assert LotOk(after, lot); }
  }

  // The calls of a run, with the outcomes that the tables gave their effects.
  function CallsOf(s: System, acts: seq<Act>): seq<Journal.Call>
    decreases |acts|
  {
    if acts == [] then []
    else (if acts[0].External? then [] else [CallOf(s, acts[0])]) + CallsOf(Next(s, acts[0]), acts[1..])
  }

  // With the real effects plugged in the journal goes through one of its own runs, so everything
  // proved of those holds here.
  lemma {:induction false} RunIsJournalRun(s: System, l: Journal.Ledger, acts: seq<Act>)
    requires l.rows == s.rows
    ensures Run(s, acts).rows == Journal.Run(l, CallsOf(s, acts)).rows
    decreases |acts|
  {
    hide Journal.RowsAfter, CallOf, OutcomeOf;
    if acts != [] {
      var rest := CallsOf(Next(s, acts[0]), acts[1..]);
      if acts[0].External? {
        assert [] + rest == rest;
        RunIsJournalRun(Next(s, acts[0]), l, acts[1..]);
      } else {
        var call := CallOf(s, acts[0]);
        assert ([call] + rest)[0] == call && ([call] + rest)[1..] == rest;
        RunIsJournalRun(Next(s, acts[0]), Journal.Next(l, call), acts[1..]);
      }
    }
  }

  // ---- compensating a reallocation, however much later ----

  lemma {:induction false} RunSplits(s: System, acts: seq<Act>, k: nat)
    requires k <= |acts|
    ensures Run(Run(s, acts[..k]), acts[k..]) == Run(s, acts)
    ensures AllowedRun(s, acts) ==> AllowedRun(s, acts[..k]) && AllowedRun(Run(s, acts[..k]), acts[k..])
    decreases k
  {
    hide Next, Allowed;
    if k == 0 {
      assert acts[..0] == [] && acts[0..] == acts;
    } else {
      assert acts[..k][0] == acts[0] && acts[..k][1..] == acts[1..][..k - 1] && acts[1..][k - 1..] == acts[k..];
      RunSplits(Next(s, acts[0]), acts[1..], k - 1);
    }
  }

  lemma NextPersists(s: System, act: Act)
    requires Journal.RowsSound(s.rows)
    ensures Journal.RowsSound(Next(s, act).rows) && Journal.Persists(s.rows, Next(s, act).rows)
  {
    if !act.External? {
      Journal.CallKeepsRowsSound(s.rows, CallOf(s, act));
      Journal.RanInserts(s.rows, CallOf(s, act));
      hide Journal.RowsSound, Journal.RowsAfter, ExecOutcome, UndoOutcome;
    }
  }

  // No act takes back what the journal says of an effect, but for marking it compensated.
  lemma {:induction false} RunPersists(s: System, acts: seq<Act>)
    requires Journal.RowsSound(s.rows)
    ensures Journal.RowsSound(Run(s, acts).rows) && Journal.Persists(s.rows, Run(s, acts).rows)
    decreases |acts|
  {
    hide Next, Journal.RowsSound;
    if acts != [] {
      var n := Next(s, acts[0]);
      NextPersists(s, acts[0]);
      RunPersists(n, acts[1..]);
      forall key | key in s.rows ensures
        var b := Run(s, acts).rows; key in b && (b[key] == s.rows[key] || b[key] == s.rows[key].(status := Journal.Undone)) {
        assert key in n.rows;
      }
    }
  }

  // The call that reverses what `inv` did with result `r`, made in a state where that effect is not
  // compensated yet, under a key not used before.
  predicate Reverses(s: System, c: Journal.Compensation, inv: Journal.Invocation, r: ToolResult) {
    && inv.key in s.rows && s.rows[inv.key].status == Journal.Done && c.key !in s.rows
    && c == Journal.Compensation(inv.workflow, inv.tool, ReverseOf(inv.tool), inv.key, c.key, r)
  }

  // After an effect and any run, its reversal is up to the tables alone.
  lemma ReversalRunsIff(s: System, inv: Journal.Invocation, today: int, acts: seq<Act>, c: Journal.Compensation, later: int)
    requires Journal.RowsSound(s.rows) && Answer(s, Exec(inv, today)).Ran?
    requires Reverses(Run(Next(s, Exec(inv, today)), acts), c, inv, Answer(s, Exec(inv, today)).result)
    ensures var s2 := Run(Next(s, Exec(inv, today)), acts);
            && (Answer(s2, Undo(c, later)).Ran? <==> UndoOutcome(s2.db, c, later).Some?)
            && Next(s2, Undo(c, later)).db == if UndoOutcome(s2.db, c, later).Some? then UndoOutcome(s2.db, c, later).value.0 else s2.db
  {
    var s1 := Next(s, Exec(inv, today));
    ExecJournals(s, inv, today);
    NextPersists(s, Exec(inv, today));
    hide Next, ExecOutcome;
    RunPersists(s1, acts);
    var s2 := Run(s1, acts);
    FreshReversal(s2, c, inv, later);
  }

  lemma ExecJournals(s: System, inv: Journal.Invocation, today: int)
    requires Journal.RowsSound(s.rows) && Answer(s, Exec(inv, today)).Ran?
    ensures inv.key in Next(s, Exec(inv, today)).rows && ToolOf(inv.input) == inv.tool
    ensures var row := Next(s, Exec(inv, today)).rows[inv.key];
            row.workflow == inv.workflow && row.kind == Journal.Forward(inv.tool) && row.result == Some(Answer(s, Exec(inv, today)).result)
  {
    Journal.OnlyFreshKeysRun(s.rows, CallOf(s, Exec(inv, today)));
    Journal.RanInserts(s.rows, CallOf(s, Exec(inv, today)));
    hide Journal.RowsSound, Journal.RowsAfter, ExecOutcome;
  }

  lemma FreshReversal(s: System, c: Journal.Compensation, inv: Journal.Invocation, later: int)
    requires Reverses(s, c, inv, c.effect)
    requires var row := s.rows[inv.key];
             row.workflow == inv.workflow && row.kind == Journal.Forward(inv.tool) && row.result == Some(c.effect)
    ensures Answer(s, Undo(c, later)).Ran? <==> UndoOutcome(s.db, c, later).Some?
    ensures Next(s, Undo(c, later)).db == if UndoOutcome(s.db, c, later).Some? then UndoOutcome(s.db, c, later).value.0 else s.db
  {
    hide UndoOutcome;
  }

  // A lot is as the first state left it at every later point exactly if it is at the last: versions
  // never come back.
  lemma UntouchedThroughout(s1: System, acts: seq<Act>, lot: RowId)
    requires SystemOk(s1) && AllowedRun(s1, acts) && lot in s1.db.lots
    ensures LotUntouched(s1.db, Run(s1, acts).db, lot) <==> forall k :: 0 <= k <= |acts| ==> LotUntouched(s1.db, Run(s1, acts[..k]).db, lot)
    ensures lot in Run(s1, acts).db.lots
    ensures LotUntouched(s1.db, Run(s1, acts).db, lot) <==> Run(s1, acts).db.lots[lot].version == s1.db.lots[lot].version
  {
    hide SystemOk, Next, Allowed;
    assert acts[..|acts|] == acts;
    forall k | 0 <= k <= |acts|
      ensures MovesForward(s1.db, Run(s1, acts[..k]).db, lot) && MovesForward(Run(s1, acts[..k]).db, Run(s1, acts).db, lot)
    {
      RunSplits(s1, acts, k);
      RunKeepsSystem(s1, acts[..k]);
      RunKeepsSystem(Run(s1, acts[..k]), acts[k..]);
    }
  }

  // However much later, the reversal of a reallocation runs exactly if no write to its lot was
  // committed at any point since.
  lemma CompensableIffUnwritten(s: System, inv: Journal.Invocation, today: int, acts: seq<Act>, c: Journal.Compensation, later: int)
    requires SystemOk(s) && inv.input.Reallocate? && Answer(s, Exec(inv, today)).Ran?
    requires AllowedRun(Next(s, Exec(inv, today)), acts)
    requires Reverses(Run(Next(s, Exec(inv, today)), acts), c, inv, Answer(s, Exec(inv, today)).result)
    ensures var s1 := Next(s, Exec(inv, today));
            Answer(Run(s1, acts), Undo(c, later)).Ran? <==>
            forall k :: 0 <= k <= |acts| ==> LotUntouched(s1.db, Run(s1, acts[..k]).db, inv.input.lot)
  {
    var s1 := Next(s, Exec(inv, today));
    var s2 := Run(s1, acts);
    ReversalRunsIff(s, inv, today, acts, c, later);
    ReallocationResult(s, inv, today);
    NextKeepsSystem(s, Exec(inv, today));
    RunKeepsSystem(s1, acts);
    hide LedgerOk, Journal.RowsSound, Next, Answer, LotUntouched, Allowed, UndoOutcome, Run, AllowedRun;
    UntouchedThroughout(s1, acts, inv.input.lot);
    assert Journal.RowsSound(s1.rows);
    RunPersists(s1, acts);
    FencedReversal(s2, inv.key, c, later);
  }

  lemma FencedReversal(s: System, key: Key, c: Journal.Compensation, later: int)
    requires SystemOk(s) && key in s.rows && s.rows[key].result == Some(c.effect) && c.effect.LotReallocated?
    requires c.action == RestorePriorAllocation && c.effect.lot in s.db.lots
    ensures UndoOutcome(s.db, c, later).Some? <==> s.db.lots[c.effect.lot].version == c.effect.lotVersion
  {
    hide LedgerOk, Journal.RowsSound, RestoreAllocation;
    assert RowFenced(s, key);
    RestoreAcceptedIff(s.db, c.effect);
  }

  lemma ReallocationResult(s: System, inv: Journal.Invocation, today: int)
    requires SystemOk(s) && inv.input.Reallocate? && Answer(s, Exec(inv, today)).Ran?
    ensures var r := Answer(s, Exec(inv, today)).result; var s1 := Next(s, Exec(inv, today));
            && inv.tool == ReallocateLot && r.LotReallocated? && r.lot == inv.input.lot
            && r.lot in s1.db.lots && s1.db.lots[r.lot].version == r.lotVersion
            && r.lot in s.db.lots && s.db.lots[r.lot].version < r.lotVersion
            && inv.key in s1.rows && s1.rows[inv.key].result == Some(r)
  {
    CallOnJournal(s, Exec(inv, today));
    ExecJournals(s, inv, today);
    var i := inv.input;
    ReallocationMovesRows(s.db, i.lot, i.from, i.to, i.quantity);
    hide LedgerOk, Journal.RowsSound, ReallocateEffect, Journal.RowsAfter;
  }

  // Two reallocations of one lot can never both be reversed: the second wrote the lot after the
  // first, and so does its own reversal. Once it has run, the first is refused for ever.
  lemma EarlierReallocationIsStuck(s: System, inv: Journal.Invocation, today: int, acts: seq<Act>, k: nat,
                                   c: Journal.Compensation, later: int)
    requires SystemOk(s) && inv.input.Reallocate? && Answer(s, Exec(inv, today)).Ran?
    requires AllowedRun(Next(s, Exec(inv, today)), acts)
    requires k < |acts| && acts[k].Exec? && acts[k].inv.input.Reallocate? && acts[k].inv.input.lot == inv.input.lot
    requires Answer(Run(Next(s, Exec(inv, today)), acts[..k]), acts[k]).Ran?
    requires c.original == inv.key && c.effect == Answer(s, Exec(inv, today)).result && c.action == RestorePriorAllocation
    ensures !Answer(Run(Next(s, Exec(inv, today)), acts), Undo(c, later)).Ran?
  {
    var s1 := Next(s, Exec(inv, today));
    var sk := Run(s1, acts[..k]);
    var s2 := Run(s1, acts);
    ReallocationResult(s, inv, today);
    NextKeepsSystem(s, Exec(inv, today));
    RunSplits(s1, acts, k);
    RunKeepsSystem(s1, acts[..k]);
    ReallocationResult(sk, acts[k].inv, acts[k].today);
    NextKeepsSystem(sk, acts[k]);
    assert acts[k..][0] == acts[k];
    RunKeepsSystem(Next(sk, acts[k]), acts[k..][1..]);
    RunKeepsSystem(s1, acts);
    assert SystemOk(s2);
    CallOnJournal(s2, Undo(c, later));
    VersionsPass(s1.db, sk.db, Next(sk, acts[k]).db, s2.db, inv.input.lot);
    if Answer(s2, Undo(c, later)).Ran? { VersionMatched(s2.db, c.effect); }
  }

  lemma VersionsPass(a: Tables, b: Tables, c: Tables, d: Tables, lot: RowId)
    requires lot in a.lots && MovesForward(a, b, lot) && MovesForward(c, d, lot)
    requires lot in b.lots && lot in c.lots && b.lots[lot].version < c.lots[lot].version
    ensures lot in d.lots && a.lots[lot].version < d.lots[lot].version
  {}

  // What the ledger says about one lot.
  predicate SameHolding(a: Tables, b: Tables, lot: RowId, order: RowId) {
    && lot in a.lots && lot in b.lots
    && a.lots[lot].inUse == b.lots[lot].inUse && a.lots[lot].order == b.lots[lot].order
    && HeldFor(a, lot, order) == HeldFor(b, lot, order)
  }

  lemma UntouchedHolds(a: Tables, b: Tables, lot: RowId, order: RowId)
    requires LedgerOk(a) && LedgerOk(b) && LotUntouched(a, b, lot)
    ensures HeldFor(a, lot, order) == HeldFor(b, lot, order)
  {
    hide Total, HeldFor, PairsUnique, RowsOk;
    HeldAgrees(a, b, lot, order);
  }

  // A reallocation, any run of other acts, then its compensation: if that runs, the lot is back
  // exactly where it was for every order. If it does not run, nothing changes.
  lemma CompensationIsExactInverse(s: System, inv: Journal.Invocation, today: int, acts: seq<Act>,
                                   c: Journal.Compensation, later: int, order: RowId)
    requires SystemOk(s) && inv.input.Reallocate? && Answer(s, Exec(inv, today)).Ran?
    requires AllowedRun(Next(s, Exec(inv, today)), acts)
    requires c.original == inv.key && c.effect == Answer(s, Exec(inv, today)).result && c.action == RestorePriorAllocation
    ensures var s2 := Run(Next(s, Exec(inv, today)), acts);
            var s3 := Next(s2, Undo(c, later));
            if Answer(s2, Undo(c, later)).Ran? then SameHolding(s.db, s3.db, inv.input.lot, order) else s3 == s2
  {
    hide LedgerOk, Journal.RowsSound, RestoreAllocation, ReallocateEffect, HeldFor, Fenced, MovesForward;
    var s1 := Next(s, Exec(inv, today));
    var s2 := Run(s1, acts);
    var s3 := Next(s2, Undo(c, later));
    CallOnJournal(s, Exec(inv, today));
    NextKeepsSystem(s, Exec(inv, today));
    RunKeepsSystem(s1, acts);
    CallOnJournal(s2, Undo(c, later));
    if Answer(s2, Undo(c, later)).Ran? {
      RestoredAfter(s.db, s1.db, s2.db, inv.input, c.effect, order);
    }
  }

  lemma RestoredAfter(before: Tables, done: Tables, found: Tables, input: ToolInput, r: ToolResult, order: RowId)
    requires LedgerOk(before) && LedgerOk(found) && input.Reallocate? && ValidInput(input)
    requires ReallocateEffect(before, input.lot, input.from, input.to, input.quantity) == Some((done, r)) && r.LotReallocated?
    requires MovesForward(done, found, input.lot) && RestoreAllocation(found, r).Some?
    ensures SameHolding(before, RestoreAllocation(found, r).value.0, input.lot, order)
  {
    hide Total, HeldFor, PairsUnique, RowsOk, ReallocateEffect, RestoreAllocation, LedgerOk;
    var Reallocate(lot, from, to, quantity) := input;
    ReallocationKeepsLedger(before, lot, from, to, quantity);
    ReallocationIsFenced(before, lot, from, to, quantity);
    ReallocationMovesRows(before, lot, from, to, quantity);
    ReallocationMoves(before, lot, from, to, quantity, order);
    VersionMatched(found, r);
    assert LotUntouched(done, found, lot);
    AsLeftStays(done, found, r);
    UntouchedHolds(done, found, lot, order);
    RestoreMoves(found, r, order);
    RestoredLot(found, r);
    ReallocationMoves(before, lot, from, to, quantity, to);
    if from.Some? { ReallocationMoves(before, lot, from, to, quantity, from.value); }
  }

  lemma VersionMatched(db: Tables, r: ToolResult)
    requires r.LotReallocated? && RestoreAllocation(db, r).Some?
    ensures r.lot in db.lots && db.lots[r.lot].version == r.lotVersion
  {}

  lemma AsLeftStays(a: Tables, b: Tables, r: ToolResult)
    requires r.LotReallocated? && AsLeft(a, r) && LotUntouched(a, b, r.lot)
    ensures AsLeft(b, r)
  {}

  lemma RestoredLot(db: Tables, r: ToolResult)
    requires r.LotReallocated? && RestoreAllocation(db, r).Some?
    ensures var after := RestoreAllocation(db, r).value.0;
            r.lot in after.lots && after.lots[r.lot].inUse == r.previousInUse && after.lots[r.lot].order == r.previousLotOrder
  {}
}
