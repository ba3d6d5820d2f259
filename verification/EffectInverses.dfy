/** Purchase orders, messages and arrival checks over whole runs: what each reverse finds of its effect,
    however much later, when it runs, and what it puts back. */
module EffectInverses {
  import opened Records
  import opened Erp
  import opened ToolSystem

  // Every row but this purchase order's is the same.
  predicate OnlyOrderWritten(a: Tables, b: Tables, po: RowId) {
    && po in b.purchaseOrders && b == a.(purchaseOrders := b.purchaseOrders)
    && b.purchaseOrders == a.purchaseOrders[po := b.purchaseOrders[po]]
  }

  // What others write to an order counts its version up.
  predicate OrderMovesForward(a: Tables, b: Tables, po: RowId) {
    po in a.purchaseOrders && po in b.purchaseOrders
    && (b.purchaseOrders[po] == a.purchaseOrders[po] || b.purchaseOrders[po].version > a.purchaseOrders[po].version)
  }

  // Reducing an order, anything in between, then restoring it: accepted exactly if the order was not
  // written in between, and then it is the original order again, two versions on.
  lemma ReduceIsInverted(db: Tables, original: RowId, quantity: Quantity, found: Tables)
    requires ReduceEffect(db, original, quantity).Some?
    requires OrderMovesForward(ReduceEffect(db, original, quantity).value.0, found, original)
    ensures var (done, r) := ReduceEffect(db, original, quantity).value;
            && r.PoReduced? && OnlyOrderWritten(db, done, original)
            && done.purchaseOrders[original].status == Cancelled
            && done.purchaseOrders[original].ordered == done.purchaseOrders[original].received == db.purchaseOrders[original].received
            && (RestoreOriginal(found, r).Some? <==> found.purchaseOrders[original] == done.purchaseOrders[original])
            && (RestoreOriginal(found, r).Some? ==>
                  var after := RestoreOriginal(found, r).value.0;
                  && OnlyOrderWritten(found, after, original)
                  && after.purchaseOrders[original] == db.purchaseOrders[original].(version := db.purchaseOrders[original].version + 2))
  {}

  // A hold is placed on the very version that was approved, and is lifted in the same way.
  lemma HoldIsInverted(db: Tables, po: RowId, production: RowId, version: nat, found: Tables)
    requires HoldEffect(db, po, production, version).Some?
    requires OrderMovesForward(HoldEffect(db, po, production, version).value.0, found, po)
    ensures var (done, r) := HoldEffect(db, po, production, version).value;
            && r.PoHeld? && OnlyOrderWritten(db, done, po) && db.purchaseOrders[po].version == version
            && done.purchaseOrders[po] == db.purchaseOrders[po].(status := OnHold, version := version + 1)
            && (RestoreHeld(found, r).Some? <==> found.purchaseOrders[po] == done.purchaseOrders[po])
            && (RestoreHeld(found, r).Some? ==>
                  var after := RestoreHeld(found, r).value.0;
                  OnlyOrderWritten(found, after, po)
                  && after.purchaseOrders[po] == db.purchaseOrders[po].(version := version + 2))
  {}

  // A replacement is a new order for the original's part and plant that arrives before production
  // starts. Its cancellation asks only that it is still open, so it also cancels a replacement that
  // has been written since, for instance by a receipt.
  lemma CreateIsCancelled(db: Tables, original: RowId, supplier: RowId, production: RowId, quantity: Quantity, today: int,
                          found: Tables)
    requires CreateEffect(db, original, supplier, production, quantity, today).Some?
    requires db.nextId !in db.purchaseOrders
    requires OrderMovesForward(CreateEffect(db, original, supplier, production, quantity, today).value.0, found, db.nextId)
    ensures var (done, r) := CreateEffect(db, original, supplier, production, quantity, today).value;
            && r.PoCreated? && r.po !in db.purchaseOrders && OnlyOrderWritten(db.(nextId := done.nextId), done, r.po)
            && original in db.purchaseOrders && production in db.productionOrders
            && var row := done.purchaseOrders[r.po];
            && row.part == db.purchaseOrders[original].part == db.productionOrders[production].part
            && row.plant == db.purchaseOrders[original].plant == db.productionOrders[production].plant
            && row.ordered - row.received == quantity && row.status == Open
            && r.receiptDate <= db.productionOrders[production].startDate
            && (CancelReplacement(found, r.po).Some? <==> found.purchaseOrders[r.po].status == Open)
            && (CancelReplacement(found, r.po).Some? ==>
                  var after := CancelReplacement(found, r.po).value.0;
                  OnlyOrderWritten(found, after, r.po) && after.purchaseOrders[r.po].status == Cancelled
                  && after.purchaseOrders[r.po].received == found.purchaseOrders[r.po].received)
  {}

  // Messages are only ever added.
  predicate KeepsMessage(a: Tables, b: Tables, id: RowId) {
    id in a.messages && id in b.messages && b.messages[id] == a.messages[id]
  }

  // The correction of a notification or of a shortage flag always goes out, to the recipient of the
  // original message and naming it; the original stays, since a message cannot be unsent.
  lemma MessagesAreCorrected(db: Tables, input: ToolInput, req: Request, found: Tables, later: Request)
    requires (input.Notify? || input.FlagShortage?) && EffectOf(db, input, req).Some?
    requires found.nextId !in found.messages
    requires var (done, r) := EffectOf(db, input, req).value; r.Notified? || r.ShortageFlagged?
    requires var (done, r) := EffectOf(db, input, req).value; KeepsMessage(done, found, r.message)
    ensures var (done, r) := EffectOf(db, input, req).value;
            var undone := ReverseEffectOf(found, ReverseOf(ToolOf(input)), r, req.key, later);
            && undone.Some? && var (after, c) := undone.value;
            && c.Corrected? && c.reverses == r.message && c.message == found.nextId && c.message in after.messages && c.message !in found.messages
            && after.messages[c.message] == Message(later.key, done.messages[r.message].recipient, Some(r.message))
            && KeepsMessage(found, after, r.message)
            && after == found.(messages := after.messages, nextId := after.nextId)
  {
    hide Shortage;
  }

  // Notifications go to the order's own supervisor, shortages to purchasing, both under the call's
  // key; and both say which tool result they are.
  lemma MessagesReachTheirReader(db: Tables, input: ToolInput, req: Request)
    requires (input.Notify? || input.FlagShortage?) && EffectOf(db, input, req).Some?
    ensures var (done, r) := EffectOf(db, input, req).value;
            && input.production in db.productionOrders
            && (if input.Notify? then r.Notified? else r == ShortageFlagged(r.message, input.production, input.part, Shortage(db, input.production)))
            && r.message in done.messages && done.messages[r.message].key == req.key && done.messages[r.message].reverses.None?
            && Some(done.messages[r.message].recipient)
               == (if input.Notify? then db.productionOrders[input.production].supervisor else db.purchasing)
            && (input.FlagShortage? ==> 0 < Shortage(db, input.production) == input.quantity)
  {
    hide Shortage;
  }

  // An arrival check can be cancelled until the scheduler has claimed it, and only by its own
  // workflow under its own key.
  lemma CheckIsCancelled(db: Tables, po: RowId, dueAt: Time, req: Request, found: Tables, later: Request)
    requires CheckEffect(db, po, dueAt, req.workflow, req.key).Some?
    requires var (done, r) := CheckEffect(db, po, dueAt, req.workflow, req.key).value;
             r.ArrivalScheduled? && r.task in done.tasks && r.task in found.tasks
             && found.tasks[r.task] == done.tasks[r.task].(status := found.tasks[r.task].status)
    ensures var (done, r) := CheckEffect(db, po, dueAt, req.workflow, req.key).value;
            var undone := ReverseEffectOf(found, CancelArrivalCheck, r, req.key, later);
            && done.tasks[r.task] == Task(req.workflow, req.key, po, dueAt, TaskPending)
            && (undone.Some? <==> found.tasks[r.task].status == TaskPending && later.workflow == req.workflow)
            && (undone.Some? ==>
                  undone.value.0 == found.(tasks := found.tasks[r.task := done.tasks[r.task].(status := TaskCancelled)]))
  {}

  // ---- what every run keeps of these rows ----

  predicate IdsBelow(db: Tables) {
    && (forall id :: id in db.purchaseOrders ==> id < db.nextId) && (forall id :: id in db.messages ==> id < db.nextId)
    && (forall id :: id in db.tasks ==> id < db.nextId)
  }

  // A scheduled task keeps what it is; only its status moves on.
  predicate KeepsTask(a: Tables, b: Tables, id: RowId) {
    id in a.tasks && id in b.tasks && b.tasks[id] == a.tasks[id].(status := b.tasks[id].status)
  }

  predicate RowsForward(a: Tables, b: Tables) {
    && IdsBelow(b) && a.nextId <= b.nextId
    && (forall po :: po in a.purchaseOrders ==> OrderMovesForward(a, b, po))
    && (forall id :: id in a.messages ==> KeepsMessage(a, b, id))
    && (forall id :: id in a.tasks ==> KeepsTask(a, b, id))
  }

  // Other software counts an order's version up with every write, adds rows under new ids, and
  // changes neither messages nor what a task is.
  predicate Orderly(s: System, act: Act) { act.External? ==> RowsForward(s.db, act.after) }

  predicate OrderlyRun(s: System, acts: seq<Act>)
    decreases |acts|
  {
    acts == [] || (Orderly(s, acts[0]) && OrderlyRun(Next(s, acts[0]), acts[1..]))
  }

  lemma EffectForward(db: Tables, input: ToolInput, req: Request)
    requires IdsBelow(db) && EffectOf(db, input, req).Some?
    ensures RowsForward(db, EffectOf(db, input, req).value.0)
  {
    hide Shortage, Take, GiveToOrder;
    if input.Reallocate? { ReallocationLeavesRows(db, input.lot, input.from, input.to, input.quantity); }
  }

  lemma ReallocationLeavesRows(db: Tables, lot: RowId, from: Option<RowId>, to: RowId, quantity: Quantity)
    requires ReallocateEffect(db, lot, from, to, quantity).Some?
    ensures var after := ReallocateEffect(db, lot, from, to, quantity).value.0;
            after == db.(allocations := after.allocations, lots := after.lots, nextId := after.nextId) && after.nextId >= db.nextId
  {
    hide Take;
  }

  lemma ReverseForward(db: Tables, action: ReverseAction, effect: ToolResult, original: Key, req: Request)
    requires IdsBelow(db) && ReverseEffectOf(db, action, effect, original, req).Some?
    ensures RowsForward(db, ReverseEffectOf(db, action, effect, original, req).value.0)
  {
    hide RestoreRows;
  }

  lemma NextForward(s: System, act: Act)
    requires Journal.RowsSound(s.rows) && IdsBelow(s.db) && Orderly(s, act)
    ensures RowsForward(s.db, Next(s, act).db)
  {
    if !act.External? {
      CallOnJournal(s, act);
      hide Journal.RowsSound, Journal.RowsAfter, EffectOf, ReverseEffectOf;
      if Answer(s, act).Ran? {
        match act {
          case Exec(inv, today) => EffectForward(s.db, inv.input, Request(inv.workflow, inv.key, today));
          case Undo(c, today) => ReverseForward(s.db, c.action, c.effect, c.original, Request(c.workflow, c.key, today));
        }
      }
    }
  }

  lemma ForwardOn(a: Tables, b: Tables, c: Tables)
    requires RowsForward(a, b) && RowsForward(b, c)
    ensures RowsForward(a, c)
  {}

  lemma {:induction false} RunForward(s: System, acts: seq<Act>)
    requires Journal.RowsSound(s.rows) && IdsBelow(s.db) && OrderlyRun(s, acts)
    ensures RowsForward(s.db, Run(s, acts).db)
    decreases |acts|
  {
    hide Next, Journal.RowsSound, Orderly;
    if acts != [] {
      var n := Next(s, acts[0]);
      NextForward(s, acts[0]);
      NextPersists(s, acts[0]);
      RunForward(n, acts[1..]);
      ForwardOn(s.db, n.db, Run(s, acts).db);
    }
  }

  lemma {:induction false} OrderlySplits(s: System, acts: seq<Act>, k: nat)
    requires k <= |acts| && OrderlyRun(s, acts)
    ensures OrderlyRun(s, acts[..k]) && OrderlyRun(Run(s, acts[..k]), acts[k..])
    decreases k
  {
    hide Next, Orderly;
    if k == 0 {
      assert acts[..0] == [] && acts[0..] == acts;
    } else {
      assert acts[..k][0] == acts[0] && acts[..k][1..] == acts[1..][..k - 1] && acts[1..][k - 1..] == acts[k..];
      OrderlySplits(Next(s, acts[0]), acts[1..], k - 1);
    }
  }

  // An order that is at the end as it was at the start was never written in between.
  lemma UnwrittenThroughout(s1: System, acts: seq<Act>, po: RowId)
    requires Journal.RowsSound(s1.rows) && IdsBelow(s1.db) && OrderlyRun(s1, acts) && po in s1.db.purchaseOrders
    ensures po in Run(s1, acts).db.purchaseOrders && OrderMovesForward(s1.db, Run(s1, acts).db, po)
    ensures Run(s1, acts).db.purchaseOrders[po] == s1.db.purchaseOrders[po] <==>
            forall k :: 0 <= k <= |acts| ==> OrderAt(s1, acts, k, po) == Some(s1.db.purchaseOrders[po])
  {
    hide Next, Orderly, Journal.RowsSound;
    assert acts[..|acts|] == acts;
    RunForward(s1, acts);
    assert OrderAt(s1, acts, |acts|, po) == Some(Run(s1, acts).db.purchaseOrders[po]);
    forall k | 0 <= k <= |acts|
      ensures OrderMovesForward(s1.db, Run(s1, acts[..k]).db, po) && OrderMovesForward(Run(s1, acts[..k]).db, Run(s1, acts).db, po)
    {
      OrderlySplits(s1, acts, k);
      RunSplits(s1, acts, k);
      RunForward(s1, acts[..k]);
      RunPersists(s1, acts[..k]);
      RunForward(Run(s1, acts[..k]), acts[k..]);
    }
  }

  // The order's row after the first k acts.
  function OrderAt(s: System, acts: seq<Act>, k: nat, po: RowId): Option<PurchaseOrder>
    requires k <= |acts|
  {
    var db := Run(s, acts[..k]).db;
    if po in db.purchaseOrders then Some(db.purchaseOrders[po]) else None
  }

  // ---- the reversals ----

  lemma ExecRuns(s: System, inv: Journal.Invocation, today: int)
    requires Journal.RowsSound(s.rows) && IdsBelow(s.db) && Answer(s, Exec(inv, today)).Ran?
    ensures var s1 := Next(s, Exec(inv, today));
            && ExecOutcome(s.db, inv, today) == Some((s1.db, Answer(s, Exec(inv, today)).result))
            && Journal.RowsSound(s1.rows) && IdsBelow(s1.db) && ToolOf(inv.input) == inv.tool
  {
    CallOnJournal(s, Exec(inv, today));
    ExecJournals(s, inv, today);
    NextForward(s, Exec(inv, today));
    hide Journal.RowsSound, Journal.RowsAfter, Next, Answer, ExecOutcome;
  }

  // A reduction, any run, its reversal: it runs exactly if the order was not written at any point in
  // between, and then the order is the original again, two versions on, and nothing else changes.
  lemma ReductionIsExactlyUndone(s: System, inv: Journal.Invocation, today: int, acts: seq<Act>, c: Journal.Compensation, later: int)
    requires Journal.RowsSound(s.rows) && IdsBelow(s.db) && inv.input.ReduceOriginal? && Answer(s, Exec(inv, today)).Ran?
    requires OrderlyRun(Next(s, Exec(inv, today)), acts)
    requires Reverses(Run(Next(s, Exec(inv, today)), acts), c, inv, Answer(s, Exec(inv, today)).result)
    ensures var s1 := Next(s, Exec(inv, today)); var s2 := Run(s1, acts); var s3 := Next(s2, Undo(c, later));
            var po := inv.input.original;
            && po in s.db.purchaseOrders && po in s1.db.purchaseOrders
            && (Answer(s2, Undo(c, later)).Ran? <==>
                forall k :: 0 <= k <= |acts| ==> OrderAt(s1, acts, k, po) == Some(s1.db.purchaseOrders[po]))
            && (Answer(s2, Undo(c, later)).Ran? ==>
                  && OnlyOrderWritten(s2.db, s3.db, po)
                  && s3.db.purchaseOrders[po] == s.db.purchaseOrders[po].(version := s.db.purchaseOrders[po].version + 2))
  {
    var s1 := Next(s, Exec(inv, today));
    ExecRuns(s, inv, today);
    ReversalRunsIff(s, inv, today, acts, c, later);
    hide Journal.RowsSound, Next, Answer, Run, OrderlyRun, IdsBelow, RestoreOriginal, ReduceEffect, OrderAt;
    UnwrittenThroughout(s1, acts, inv.input.original);
    ReduceIsInverted(s.db, inv.input.original, inv.input.quantity, Run(s1, acts).db);
  }

  // The same for a hold, which was placed on the very version that was approved.
  lemma HoldIsExactlyUndone(s: System, inv: Journal.Invocation, today: int, acts: seq<Act>, c: Journal.Compensation, later: int)
    requires Journal.RowsSound(s.rows) && IdsBelow(s.db) && inv.input.PlaceHold? && Answer(s, Exec(inv, today)).Ran?
    requires OrderlyRun(Next(s, Exec(inv, today)), acts)
    requires Reverses(Run(Next(s, Exec(inv, today)), acts), c, inv, Answer(s, Exec(inv, today)).result)
    ensures var s1 := Next(s, Exec(inv, today)); var s2 := Run(s1, acts); var s3 := Next(s2, Undo(c, later));
            var po := inv.input.original;
            && po in s.db.purchaseOrders && po in s1.db.purchaseOrders && s.db.purchaseOrders[po].version == inv.input.expectedVersion
            && (Answer(s2, Undo(c, later)).Ran? <==>
                forall k :: 0 <= k <= |acts| ==> OrderAt(s1, acts, k, po) == Some(s1.db.purchaseOrders[po]))
            && (Answer(s2, Undo(c, later)).Ran? ==>
                  && OnlyOrderWritten(s2.db, s3.db, po)
                  && s3.db.purchaseOrders[po] == s.db.purchaseOrders[po].(version := s.db.purchaseOrders[po].version + 2))
  {
    var s1 := Next(s, Exec(inv, today));
    ExecRuns(s, inv, today);
    ReversalRunsIff(s, inv, today, acts, c, later);
    hide Journal.RowsSound, Next, Answer, Run, OrderlyRun, IdsBelow, RestoreHeld, HoldEffect, OrderAt;
    var i, s2 := inv.input, Run(s1, acts);
    assert ExecOutcome(s.db, inv, today) == HoldEffect(s.db, i.original, i.production, i.expectedVersion);
    assert c.effect.PoHeld? ==> UndoOutcome(s2.db, c, later) == RestoreHeld(s2.db, c.effect);
    hide ExecOutcome, UndoOutcome;
    UnwrittenThroughout(s1, acts, i.original);
    HoldIsInverted(s.db, i.original, i.production, i.expectedVersion, s2.db);
  }

  // A replacement, any run, its cancellation: it runs exactly while the replacement is open, keeps
  // what was received, and touches no other order.
  lemma ReplacementIsCancelled(s: System, inv: Journal.Invocation, today: int, acts: seq<Act>, c: Journal.Compensation, later: int)
    requires Journal.RowsSound(s.rows) && IdsBelow(s.db) && inv.input.CreateReplacement? && Answer(s, Exec(inv, today)).Ran?
    requires OrderlyRun(Next(s, Exec(inv, today)), acts)
    requires Reverses(Run(Next(s, Exec(inv, today)), acts), c, inv, Answer(s, Exec(inv, today)).result)
    ensures var s2 := Run(Next(s, Exec(inv, today)), acts); var s3 := Next(s2, Undo(c, later));
            var po := s.db.nextId;
            && po !in s.db.purchaseOrders && po in s2.db.purchaseOrders
            && (Answer(s2, Undo(c, later)).Ran? <==> s2.db.purchaseOrders[po].status == Open)
            && (Answer(s2, Undo(c, later)).Ran? ==>
                  OnlyOrderWritten(s2.db, s3.db, po) && s3.db.purchaseOrders[po].status == Cancelled
                  && s3.db.purchaseOrders[po].received == s2.db.purchaseOrders[po].received)
  {
    var s1 := Next(s, Exec(inv, today));
    ExecRuns(s, inv, today);
    ReversalRunsIff(s, inv, today, acts, c, later);
    hide Journal.RowsSound, Next, Answer, Run, OrderlyRun, CancelReplacement;
    assert s.db.nextId !in s.db.purchaseOrders;
    UnwrittenThroughout(s1, acts, s.db.nextId);
    var i := inv.input;
    CreateIsCancelled(s.db, i.original, i.supplier, i.production, i.quantity, today, Run(s1, acts).db);
  }

  // A notification or a flagged shortage, any run, its reversal: the correction always goes out, to
  // the recipient of the original message and naming it.
  lemma MessageIsAlwaysCorrected(s: System, inv: Journal.Invocation, today: int, acts: seq<Act>, c: Journal.Compensation, later: int)
    requires Journal.RowsSound(s.rows) && IdsBelow(s.db) && (inv.input.Notify? || inv.input.FlagShortage?)
    requires Answer(s, Exec(inv, today)).Ran? && OrderlyRun(Next(s, Exec(inv, today)), acts)
    requires Reverses(Run(Next(s, Exec(inv, today)), acts), c, inv, Answer(s, Exec(inv, today)).result)
    ensures var s1 := Next(s, Exec(inv, today)); var s2 := Run(s1, acts); var s3 := Next(s2, Undo(c, later));
            var r := Answer(s, Exec(inv, today)).result;
            && Answer(s2, Undo(c, later)).Ran? && (r.Notified? || r.ShortageFlagged?)
            && r.message in s1.db.messages && s2.db.nextId in s3.db.messages && s2.db.nextId !in s2.db.messages
            && s3.db.messages[s2.db.nextId] == Message(c.key, s1.db.messages[r.message].recipient, Some(r.message))
            && KeepsMessage(s2.db, s3.db, r.message)
  {
    hide Journal.RowsSound, Next, Answer, Run, OrderlyRun, EffectOf, ReverseEffectOf, IdsBelow;
    var s1 := Next(s, Exec(inv, today));
    var req := Request(inv.workflow, inv.key, today);
    ExecRuns(s, inv, today);
    ReversalRunsIff(s, inv, today, acts, c, later);
    RunForward(s1, acts);
    MessagesReachTheirReader(s.db, inv.input, req);
    assert Run(s1, acts).db.nextId !in Run(s1, acts).db.messages by { FreshIds(Run(s1, acts).db); }
    MessagesAreCorrected(s.db, inv.input, req, Run(s1, acts).db, Request(c.workflow, c.key, later));
  }

  lemma FreshIds(db: Tables)
    requires IdsBelow(db)
    ensures db.nextId !in db.messages
  {}

  // An arrival check, any run, its reversal: it runs exactly while the check is still pending.
  lemma CheckIsCancelledWhilePending(s: System, inv: Journal.Invocation, today: int, acts: seq<Act>, c: Journal.Compensation, later: int)
    requires Journal.RowsSound(s.rows) && IdsBelow(s.db) && inv.input.CheckArrival? && Answer(s, Exec(inv, today)).Ran?
    requires OrderlyRun(Next(s, Exec(inv, today)), acts)
    requires Reverses(Run(Next(s, Exec(inv, today)), acts), c, inv, Answer(s, Exec(inv, today)).result)
    ensures var s2 := Run(Next(s, Exec(inv, today)), acts); var s3 := Next(s2, Undo(c, later));
            var t := s.db.nextId;
            && t in s2.db.tasks && s2.db.tasks[t].(status := TaskPending) == Task(inv.workflow, inv.key, inv.input.original, inv.input.dueAt, TaskPending)
            && (Answer(s2, Undo(c, later)).Ran? <==> s2.db.tasks[t].status == TaskPending)
            && (Answer(s2, Undo(c, later)).Ran? ==>
                  s3.db == s2.db.(tasks := s2.db.tasks[t := s2.db.tasks[t].(status := TaskCancelled)]))
  {
    var s1 := Next(s, Exec(inv, today));
    ExecRuns(s, inv, today);
    ReversalRunsIff(s, inv, today, acts, c, later);
    RunForward(s1, acts);
    var req := Request(inv.workflow, inv.key, today);
    assert KeepsTask(s1.db, Run(s1, acts).db, s.db.nextId);
    hide Journal.RowsSound, Next, Answer, Run, OrderlyRun, RowsForward, IdsBelow;
    CheckIsCancelled(s.db, inv.input.original, inv.input.dueAt, req, Run(s1, acts).db, Request(c.workflow, c.key, later));
  }
}
