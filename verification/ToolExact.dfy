/** Every tool call and every compensation, as one transaction on tables and journal: the exact
    condition under which it runs, in terms of the rows alone, and all that it then writes. */
module ToolExact {
  import opened Records
  import opened Erp
  import opened LotLedger
  import opened LotRestore
  import opened Shortages
  import opened ToolSystem
  import Journal

  // A call for this tool under a key that is not in the journal.
  predicate Fresh(s: System, inv: Journal.Invocation, tool: ToolName) { inv.tool == tool && inv.key !in s.rows }

  // The answer, and the tables with it. The journal's own rows are OnlyFreshKeysRun's.
  predicate Runs(s: System, act: Act, condition: bool, after: Tables, result: ToolResult)
    requires !act.External?
  {
    if condition then Answer(s, act) == Journal.Ran(result) && Next(s, act).db == after
    else Answer(s, act).Refused? && Next(s, act) == s
  }

  lemma FreshRuns(s: System, inv: Journal.Invocation, today: int)
    requires Journal.RowsSound(s.rows) && inv.key !in s.rows
    ensures var outcome := ExecOutcome(s.db, inv, today);
            if ValidInput(inv.input) && ToolOf(inv.input) == inv.tool && outcome.Some?
            then Answer(s, Exec(inv, today)) == Journal.Ran(outcome.value.1) && Next(s, Exec(inv, today)).db == outcome.value.0
            else Answer(s, Exec(inv, today)).Refused? && Next(s, Exec(inv, today)) == s
  {
    Journal.ExecuteAnswers(s.rows, inv, ResultOf(ExecOutcome(s.db, inv, today)));
    CallOnJournal(s, Exec(inv, today));
    hide Journal.RowsSound, ExecOutcome, Journal.Execute, ValidInput;
  }

  // ---- purchase orders ----

  // An approved supplier of the order's own part and plant, in time for a production order of the
  // same part and plant. The new order is for the whole quantity.
  lemma CreateRuns(s: System, inv: Journal.Invocation, today: int)
    requires Journal.RowsSound(s.rows) && inv.input.CreateReplacement? && Fresh(s, inv, CreateReplacementPo)
    ensures var i, db := inv.input, s.db;
            if i.original !in db.purchaseOrders || i.supplier !in db.suppliers || i.production !in db.productionOrders || i.quantity <= 0
            then Answer(s, Exec(inv, today)).Refused? && Next(s, Exec(inv, today)) == s
            else
              var o, v, p := db.purchaseOrders[i.original], db.suppliers[i.supplier], db.productionOrders[i.production];
              Runs(s, Exec(inv, today),
                   v.approved && v.part == o.part == p.part && v.plant == o.plant == p.plant && today + v.leadTimeDays <= p.startDate,
                   db.(purchaseOrders := db.purchaseOrders[db.nextId := PurchaseOrder(o.part, o.plant, i.supplier, i.quantity, 0, Open, 1)],
                       nextId := db.nextId + 1),
                   PoCreated(db.nextId, today + v.leadTimeDays))
  {
    FreshRuns(s, inv, today);
    hide Journal.RowsSound, Answer, Next;
  }

  // An open or delayed order whose remainder is the quantity: what was received stays, the rest is closed.
  lemma ReduceRuns(s: System, inv: Journal.Invocation, today: int)
    requires Journal.RowsSound(s.rows) && inv.input.ReduceOriginal? && Fresh(s, inv, ReduceOrCancelPo)
    ensures var i, db := inv.input, s.db;
            if i.original !in db.purchaseOrders || i.quantity <= 0
            then Answer(s, Exec(inv, today)).Refused? && Next(s, Exec(inv, today)) == s
            else
              var o := db.purchaseOrders[i.original];
              Runs(s, Exec(inv, today), (o.status == Open || o.status == Delayed) && o.ordered == o.received + i.quantity,
                   db.(purchaseOrders := db.purchaseOrders[i.original :=
                         PurchaseOrder(o.part, o.plant, o.supplier, o.received, o.received, Cancelled, o.version + 1)]),
                   PoReduced(i.original, o.ordered, o.status, o.received, o.received, o.version + 1))
  {
    FreshRuns(s, inv, today);
    hide Journal.RowsSound, Answer, Next;
  }

  // An open order at the version that was approved, for a production order that is scheduled or in
  // progress and wants the order's part at its plant.
  lemma HoldRuns(s: System, inv: Journal.Invocation, today: int)
    requires Journal.RowsSound(s.rows) && inv.input.PlaceHold? && Fresh(s, inv, PlacePurchaseOrderHold)
    ensures var i, db := inv.input, s.db;
            if i.original !in db.purchaseOrders || i.production !in db.productionOrders || i.expectedVersion < 1
            then Answer(s, Exec(inv, today)).Refused? && Next(s, Exec(inv, today)) == s
            else
              var o, p := db.purchaseOrders[i.original], db.productionOrders[i.production];
              Runs(s, Exec(inv, today),
                   o.status == Open && o.version == i.expectedVersion && p.status != Inactive && p.part == o.part && p.plant == o.plant,
                   db.(purchaseOrders := db.purchaseOrders[i.original := o.(status := OnHold, version := i.expectedVersion + 1)]),
                   PoHeld(i.original, Open, i.expectedVersion + 1))
  {
    FreshRuns(s, inv, today);
    hide Journal.RowsSound, Answer, Next;
  }

  // ---- lots ----

  // A row says that this order holds so much of the lot.
  predicate Holding(db: Tables, lot: RowId, order: RowId, quantity: Quantity) {
    exists id :: id in db.allocations && db.allocations[id].lot == lot && db.allocations[id].order == order
              && db.allocations[id].quantity == quantity
  }

  // The stock asked for is there: in the free part of the lot, or in what the source order holds.
  predicate Available(db: Tables, lot: RowId, from: Option<RowId>, quantity: Quantity)
    requires lot in db.lots
  {
    if from.None? then db.lots[lot].inUse + quantity <= db.lots[lot].quantity
    else exists id :: id in db.allocations && db.allocations[id].lot == lot && db.allocations[id].order == from.value
                   && db.allocations[id].quantity >= quantity
  }

  // The lot after a reallocation: bound to the target if its free stock was used, or if it was bound
  // to a source that now holds nothing of it.
  function LotAfter(db: Tables, i: ToolInput): Lot
    requires i.Reallocate? && i.lot in db.lots
  {
    var l := db.lots[i.lot];
    if i.from.None? then l.(inUse := l.inUse + i.quantity, order := Some(i.to), version := l.version + 1)
    else if l.order == i.from && Holding(db, i.lot, i.from.value, i.quantity) then l.(order := Some(i.to), version := l.version + 1)
    else l.(version := l.version + 1)
  }

  lemma ReallocationRuns(s: System, inv: Journal.Invocation, today: int)
    requires Journal.RowsSound(s.rows) && LedgerOk(s.db) && inv.input.Reallocate? && Fresh(s, inv, ReallocateLot)
    ensures var i, db := inv.input, s.db;
            if i.lot in db.lots && i.to in db.productionOrders && i.quantity > 0 && i.from != Some(i.to)
               && db.lots[i.lot].status == Released && Available(db, i.lot, i.from, i.quantity)
               && db.productionOrders[i.to].status != Inactive && db.productionOrders[i.to].part == db.lots[i.lot].part
               && db.productionOrders[i.to].plant == db.lots[i.lot].plant
            then
              var after := Next(s, Exec(inv, today)).db;
              && Answer(s, Exec(inv, today)).Ran?
              && after == db.(lots := db.lots[i.lot := LotAfter(db, i)], allocations := after.allocations, nextId := after.nextId)
            else Answer(s, Exec(inv, today)).Refused? && Next(s, Exec(inv, today)) == s
  {
    var i := inv.input;
    FreshRuns(s, inv, today);
    hide Journal.RowsSound, Answer, Next, LedgerOk, GiveToOrder;
    if i.lot in s.db.lots {
      TakesIff(s.db, i);
      if Take(s.db, i.lot, i.from, i.to, i.quantity).Some? { GivesLot(s.db, i); }
    }
  }

  // On any tables in which an order has one row of a lot: the source's row has the quantity, and is not
  // more than what the lot has in use.
  lemma TakeAsksFor(db: Tables, lot: RowId, from: RowId, to: RowId, quantity: Quantity)
    requires lot in db.lots && PairsUnique(db.allocations) && forall id :: id in db.allocations ==> id < db.nextId
    ensures Take(db, lot, Some(from), to, quantity).Some? <==>
            exists id :: id in db.allocations && db.allocations[id].lot == lot && db.allocations[id].order == from
                      && quantity <= db.allocations[id].quantity <= db.lots[lot].inUse
  {
    FindBelowFinds(db.allocations, lot, from, db.nextId);
    forall id | id in db.allocations && db.allocations[id].lot == lot && db.allocations[id].order == from
      ensures Find(db, lot, from) == Some(id)
    {
      var found := Find(db, lot, from).value;
      assert SamePair(db.allocations[id], db.allocations[found]);
    }
  }

  lemma TakesIff(db: Tables, i: ToolInput)
    requires LedgerOk(db) && i.Reallocate? && i.lot in db.lots
    ensures Take(db, i.lot, i.from, i.to, i.quantity).Some? <==> Available(db, i.lot, i.from, i.quantity)
  {
    if i.from.Some? { TakeFromOrderRefusesOnly(db, i.lot, i.from.value, i.to, i.quantity); }
  }

  lemma GivesLot(db: Tables, i: ToolInput)
    requires LedgerOk(db) && i.Reallocate? && i.lot in db.lots && Take(db, i.lot, i.from, i.to, i.quantity).Some?
    ensures var taken := Take(db, i.lot, i.from, i.to, i.quantity).value;
            var after := GiveToOrder(db, i.lot, i.to, i.quantity, taken).0;
            after == db.(lots := db.lots[i.lot := LotAfter(db, i)], allocations := after.allocations, nextId := after.nextId)
  {
    TakeIsOk(db, i.lot, i.from, i.to, i.quantity);
    hide Take;
    if i.from.Some? {
      var row := Take(db, i.lot, i.from, i.to, i.quantity).value.source.value;
      forall id | id in db.allocations && db.allocations[id].lot == i.lot && db.allocations[id].order == i.from.value ensures id == row.id {
        assert SamePair(db.allocations[id], db.allocations[row.id]);
      }
    }
  }

  // ---- messages and arrival checks ----

  // To the supervisor of a production order that is scheduled or in progress.
  lemma NotifyRuns(s: System, inv: Journal.Invocation, today: int)
    requires Journal.RowsSound(s.rows) && inv.input.Notify? && Fresh(s, inv, NotifyProduction)
    ensures var i, db := inv.input, s.db;
            if i.production !in db.productionOrders || db.productionOrders[i.production].supervisor.None?
            then Answer(s, Exec(inv, today)).Refused? && Next(s, Exec(inv, today)) == s
            else
              var p := db.productionOrders[i.production];
              Runs(s, Exec(inv, today), p.status != Inactive,
                   db.(messages := db.messages[db.nextId := Message(inv.key, p.supervisor.value, None)], nextId := db.nextId + 1),
                   Notified(db.nextId))
  {
    FreshRuns(s, inv, today);
    hide Journal.RowsSound, Answer, Next;
  }

  // What the order requires beyond the released stock that no other order holds.
  function Missing(db: Tables, order: RowId): Quantity
    requires order in db.productionOrders
  {
    var p := db.productionOrders[order];
    p.required - Sum(UnheldTerm(db, p.part, p.plant, order), db.nextId)
  }

  // To purchasing, about a quantity that is missing at this moment.
  lemma FlagRuns(s: System, inv: Journal.Invocation, today: int)
    requires Journal.RowsSound(s.rows) && LedgerOk(s.db) && inv.input.FlagShortage? && Fresh(s, inv, FlagShortageToPurchasing)
    ensures var i, db := inv.input, s.db;
            if i.production !in db.productionOrders || db.purchasing.None?
            then Answer(s, Exec(inv, today)).Refused? && Next(s, Exec(inv, today)) == s
            else
              var p := db.productionOrders[i.production];
              Runs(s, Exec(inv, today), p.status != Inactive && p.part == i.part && 0 < i.quantity == Missing(db, i.production),
                   db.(messages := db.messages[db.nextId := Message(inv.key, db.purchasing.value, None)], nextId := db.nextId + 1),
                   ShortageFlagged(db.nextId, i.production, i.part, i.quantity))
  {
    FreshRuns(s, inv, today);
    var i := inv.input;
    if i.production in s.db.productionOrders {
      var p := s.db.productionOrders[i.production];
      CoverIsUnheldStock(s.db, p.part, p.plant, i.production);
    }
    hide Journal.RowsSound, Answer, Next, LedgerOk, Cover, UnheldTerm, Sum;
  }

  // Always.
  lemma CheckRuns(s: System, inv: Journal.Invocation, today: int)
    requires Journal.RowsSound(s.rows) && inv.input.CheckArrival? && Fresh(s, inv, ScheduleArrivalCheck)
    ensures var i, db := inv.input, s.db;
            Runs(s, Exec(inv, today), true,
                 db.(tasks := db.tasks[db.nextId := Task(inv.workflow, inv.key, i.original, i.dueAt, TaskPending)], nextId := db.nextId + 1),
                 ArrivalScheduled(db.nextId))
  {
    FreshRuns(s, inv, today);
    hide Journal.RowsSound, Answer, Next;
  }

  // ---- compensations ----

  // A new compensation of an effect that the journal has, with this result.
  predicate Journaled(s: System, c: Journal.Compensation, tool: ToolName, action: ReverseAction) {
    && c.tool == tool && c.action == action && c.key !in s.rows && c.original in s.rows
    && var row := s.rows[c.original];
    row.workflow == c.workflow && row.kind == Journal.Forward(tool) && row.status == Journal.Done && row.result == Some(c.effect)
  }

  lemma UndoRuns(s: System, c: Journal.Compensation, today: int)
    requires Journal.RowsSound(s.rows) && Journaled(s, c, c.tool, c.action)
    ensures var outcome := UndoOutcome(s.db, c, today);
            if c.action == ReverseOf(c.tool) && outcome.Some?
            then Answer(s, Undo(c, today)) == Journal.Ran(outcome.value.1) && Next(s, Undo(c, today)).db == outcome.value.0
            else Answer(s, Undo(c, today)).Refused? && Next(s, Undo(c, today)) == s
  {
    Journal.CompensateAnswers(s.rows, c, ResultOf(UndoOutcome(s.db, c, today)));
    CallOnJournal(s, Undo(c, today));
    hide Journal.RowsSound, UndoOutcome, Journal.Compensate;
  }

  // A replacement is cancelled while it is open.
  lemma CancelReplacementRuns(s: System, c: Journal.Compensation, today: int)
    requires Journal.RowsSound(s.rows) && Journaled(s, c, CreateReplacementPo, CancelCreatedReplacementPo)
    requires c.effect.PoCreated? && c.effect.po in s.db.purchaseOrders
    ensures var o, db := s.db.purchaseOrders[c.effect.po], s.db;
            Runs(s, Undo(c, today), o.status == Open,
                 db.(purchaseOrders := db.purchaseOrders[c.effect.po := o.(status := Cancelled, version := o.version + 1)]),
                 PoCancelled(c.effect.po, o.version + 1))
  {
    UndoRuns(s, c, today);
    hide Journal.RowsSound, Answer, Next;
  }

  // A reduction is taken back while the order is as it left it: closed, at the same version, with the
  // same quantities.
  lemma RestoreOrderRuns(s: System, c: Journal.Compensation, today: int)
    requires Journal.RowsSound(s.rows) && Journaled(s, c, ReduceOrCancelPo, RestoreOriginalPurchaseOrder)
    requires c.effect.PoReduced? && c.effect.po in s.db.purchaseOrders
    ensures var o, e, db := s.db.purchaseOrders[c.effect.po], c.effect, s.db;
            Runs(s, Undo(c, today),
                 o == PurchaseOrder(o.part, o.plant, o.supplier, e.ordered, e.received, Cancelled, e.version),
                 db.(purchaseOrders := db.purchaseOrders[e.po := o.(ordered := e.previousOrdered, status := e.previousStatus, version := e.version + 1)]),
                 PoRestored(e.po, e.previousOrdered, e.received, e.previousStatus, e.version + 1))
  {
    UndoRuns(s, c, today);
    hide Journal.RowsSound, Answer, Next;
  }

  lemma LiftHoldRuns(s: System, c: Journal.Compensation, today: int)
    requires Journal.RowsSound(s.rows) && Journaled(s, c, PlacePurchaseOrderHold, RestoreHeldPurchaseOrder)
    requires c.effect.PoHeld? && c.effect.po in s.db.purchaseOrders
    ensures var o, e, db := s.db.purchaseOrders[c.effect.po], c.effect, s.db;
            Runs(s, Undo(c, today), o.status == OnHold && o.version == e.version,
                 db.(purchaseOrders := db.purchaseOrders[e.po := o.(status := e.previousStatus, version := e.version + 1)]),
                 HoldRestored(e.po, e.previousStatus, e.version + 1))
  {
    UndoRuns(s, c, today);
    hide Journal.RowsSound, Answer, Next;
  }

  // A message is corrected as long as it is there, whichever of the two tools sent it.
  lemma CorrectionRuns(s: System, c: Journal.Compensation, today: int)
    requires Journal.RowsSound(s.rows)
    requires Journaled(s, c, NotifyProduction, SendCorrectionNotification) || Journaled(s, c, FlagShortageToPurchasing, SendCorrectionNotification)
    requires (c.effect.Notified? || c.effect.ShortageFlagged?) && c.effect.message in s.db.messages
    ensures var m, db := s.db.messages[c.effect.message], s.db;
            Runs(s, Undo(c, today), m.key == c.original,
                 db.(messages := db.messages[db.nextId := Message(c.key, m.recipient, Some(c.effect.message))], nextId := db.nextId + 1),
                 Corrected(db.nextId, c.effect.message))
  {
    UndoRuns(s, c, today);
    hide Journal.RowsSound, Answer, Next;
  }

  lemma CancelCheckRuns(s: System, c: Journal.Compensation, today: int)
    requires Journal.RowsSound(s.rows) && Journaled(s, c, ScheduleArrivalCheck, CancelArrivalCheck)
    requires c.effect.ArrivalScheduled? && c.effect.task in s.db.tasks
    ensures var t, db := s.db.tasks[c.effect.task], s.db;
            Runs(s, Undo(c, today), t == Task(c.workflow, c.original, t.po, t.dueAt, TaskPending),
                 db.(tasks := db.tasks[c.effect.task := Task(c.workflow, c.original, t.po, t.dueAt, TaskCancelled)]),
                 ArrivalCancelled(c.effect.task))
  {
    UndoRuns(s, c, today);
    hide Journal.RowsSound, Answer, Next;
  }

  // A reallocation is taken back exactly while the lot is at the version it left, in any reachable
  // system; the lot's own columns are then what they were, but for the version.
  lemma RestoreLotRuns(s: System, c: Journal.Compensation, today: int)
    requires SystemOk(s) && Journaled(s, c, ReallocateLot, RestorePriorAllocation)
    requires c.effect.LotReallocated? && c.effect.lot in s.db.lots
    ensures var act, e := Undo(c, today), c.effect;
            Runs(s, act, s.db.lots[e.lot].version == e.lotVersion, LotRestored(s.db, Next(s, act).db, e),
                 AllocationRestored(e.lot, e.previousInUse, e.lotVersion + 1))
  {
    hide SystemOk, Fenced, Journal.RowsSound, Answer, Next, LotRestored, UndoOutcome, Runs;
    JournaledIs(s, c);
    EffectIsFenced(s, c);
    hide Journaled;
    UndoRuns(s, c, today);
    ReversesLot(s.db, c, today);
    var e := c.effect;
    RunsAs(s, c, today, s.db.lots[e.lot].version == e.lotVersion, LotRestored(s.db, Next(s, Undo(c, today)).db, e),
           AllocationRestored(e.lot, e.previousInUse, e.lotVersion + 1));
  }

  lemma JournaledIs(s: System, c: Journal.Compensation)
    requires Journaled(s, c, ReallocateLot, RestorePriorAllocation)
    ensures Journaled(s, c, c.tool, c.action) && c.action == RestorePriorAllocation && c.action == ReverseOf(c.tool)
    ensures c.original in s.rows && s.rows[c.original].result == Some(c.effect)
  {}

  lemma RunsAs(s: System, c: Journal.Compensation, today: int, condition: bool, after: Tables, result: ToolResult)
    requires var outcome := UndoOutcome(s.db, c, today);
             if outcome.Some? then Answer(s, Undo(c, today)) == Journal.Ran(outcome.value.1) && Next(s, Undo(c, today)).db == outcome.value.0
             else Answer(s, Undo(c, today)).Refused? && Next(s, Undo(c, today)) == s
    requires UndoOutcome(s.db, c, today).Some? <==> condition
    requires condition ==> UndoOutcome(s.db, c, today).value == (after, result)
    ensures Runs(s, Undo(c, today), condition, after, result)
  {
    hide UndoOutcome, Answer, Next;
  }

  // These tables, but for the lot's columns and for the allocation rows, which are as in `after`.
  function LotRestored(db: Tables, after: Tables, e: ToolResult): Tables
    requires e.LotReallocated? && e.lot in db.lots
  {
    db.(allocations := after.allocations,
        lots := db.lots[e.lot := db.lots[e.lot].(inUse := e.previousInUse, order := e.previousLotOrder, version := e.lotVersion + 1)])
  }

  lemma ReversesLot(db: Tables, c: Journal.Compensation, today: int)
    requires c.action == RestorePriorAllocation && c.effect.LotReallocated? && Fenced(db, c.effect)
    ensures UndoOutcome(db, c, today).Some? <==> db.lots[c.effect.lot].version == c.effect.lotVersion
    ensures UndoOutcome(db, c, today).Some? ==>
              var (after, r), e := UndoOutcome(db, c, today).value, c.effect;
              r == AllocationRestored(e.lot, e.previousInUse, e.lotVersion + 1) && after == LotRestored(db, after, e)
  {
    RestoreAcceptedIff(db, c.effect);
    hide RestoreRows, Fenced;
  }

  lemma EffectIsFenced(s: System, c: Journal.Compensation)
    requires SystemOk(s) && c.original in s.rows && s.rows[c.original].result == Some(c.effect) && c.effect.LotReallocated?
    ensures Journal.RowsSound(s.rows) && Fenced(s.db, c.effect)
  {
    hide Journal.RowsSound, LedgerOk, Fenced;
    assert RowFenced(s, c.original);
  }

  // On any tables, reachable or not: every row that the reversal writes must be there at the version that
  // the effect left, a created target row with the very quantity it was given, and the lot with the
  // quantity in use and the version that it was given. Anything else rejects all of it.
  lemma RestoreAsksFor(db: Tables, e: ToolResult)
    requires e.LotReallocated? && (e.source.Some? ==> e.source.value.id != e.destination)
    ensures RestoreAllocation(db, e).Some? <==>
            && e.destination in db.allocations && db.allocations[e.destination].version == e.destinationVersion
            && (e.destinationPrevious == 0 ==> db.allocations[e.destination].quantity == e.quantity)
            && (e.source.Some? ==> e.source.value.id in db.allocations && db.allocations[e.source.value.id].version == e.source.value.version)
            && e.lot in db.lots && db.lots[e.lot].version == e.lotVersion
            && db.lots[e.lot].inUse == e.previousInUse + if e.source.None? then e.quantity else 0
  {}
}
