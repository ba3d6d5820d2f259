/** The tool adapter: each effect changes the tables statement by statement inside one journaled
    transaction, and a rejection rolls everything back. ToolSystem's transitions specify it. */
module ToolAdapter {
  import opened Records
  import opened Erp
  import opened ToolSystem
  import opened LotLedger
  import Journal

  // What an effect method reports and leaves behind; a rejected effect may leave partial writes,
  // which its transaction then discards.
  predicate Did(outcome: Outcome, now: Tables, r: Option<ToolResult>) {
    match outcome
    case None => r.None?
    case Some((after, result)) => r == Some(result) && now == after
  }

  class Adapter {
    var purchaseOrders: map<RowId, PurchaseOrder>
    var productionOrders: map<RowId, ProductionOrder>
    var suppliers: map<RowId, Supplier>
    var lots: map<RowId, Lot>
    var allocations: map<RowId, Allocation>
    var messages: map<RowId, Message>
    var tasks: map<RowId, Task>
    var purchasing: Option<string>
    var nextId: RowId
    var rows: Journal.Rows

    function Db(): Tables
      reads this
    {
      Tables(purchaseOrders, productionOrders, suppliers, lots, allocations, messages, tasks, purchasing, nextId)
    }

    function State(): System
      reads this
    {
      System(Db(), rows)
    }

    constructor (db: Tables)
      ensures State() == System(db, map[])
    {
      purchaseOrders, productionOrders, suppliers := db.purchaseOrders, db.productionOrders, db.suppliers;
      lots, allocations, messages, tasks := db.lots, db.allocations, db.messages, db.tasks;
      purchasing, nextId, rows := db.purchasing, db.nextId, map[];
    }

    method Rollback(saved: System)
      modifies this
      ensures State() == saved
    {
      purchaseOrders, productionOrders, suppliers := saved.db.purchaseOrders, saved.db.productionOrders, saved.db.suppliers;
      lots, allocations, messages, tasks := saved.db.lots, saved.db.allocations, saved.db.messages, saved.db.tasks;
      purchasing, nextId, rows := saved.db.purchasing, saved.db.nextId, saved.rows;
    }

    method NewId() returns (id: RowId)
      modifies `nextId
      ensures id == old(nextId) && nextId == id + 1
    {
      id := nextId;
      nextId := nextId + 1;
    }

    // ---- purchase orders ----

    method CreateReplacementPo(original: RowId, supplier: RowId, production: RowId, quantity: Quantity, today: int)
      returns (r: Option<ToolResult>)
      modifies `purchaseOrders, `nextId
      ensures Did(CreateEffect(old(Db()), original, supplier, production, quantity, today), Db(), r)
    {
      if original !in purchaseOrders || supplier !in suppliers || production !in productionOrders { return None; }
      var o, s, p := purchaseOrders[original], suppliers[supplier], productionOrders[production];
      if s.part != o.part || s.plant != o.plant || !s.approved || p.part != o.part || p.plant != o.plant { return None; }
      var receipt := today + s.leadTimeDays;
      if receipt > p.startDate { return None; }
      var id := NewId();
      purchaseOrders := purchaseOrders[id := PurchaseOrder(o.part, o.plant, supplier, quantity, 0, Open, 1)];
      r := Some(PoCreated(id, receipt));
    }

    method ReduceOrCancel(original: RowId, quantity: Quantity) returns (r: Option<ToolResult>)
      modifies `purchaseOrders
      ensures Did(ReduceEffect(old(Db()), original, quantity), Db(), r)
    {
      if original !in purchaseOrders { return None; }
      var o := purchaseOrders[original];
      if o.ordered - o.received != quantity || o.status !in {Open, Delayed} { return None; }
      purchaseOrders := purchaseOrders[original := o.(ordered := o.received, status := Cancelled, version := o.version + 1)];
      var n := purchaseOrders[original];
      r := Some(PoReduced(original, o.ordered, o.status, n.ordered, n.received, n.version));
    }

    method PlaceHold(po: RowId, production: RowId, expectedVersion: nat) returns (r: Option<ToolResult>)
      modifies `purchaseOrders
      ensures Did(HoldEffect(old(Db()), po, production, expectedVersion), Db(), r)
    {
      if po !in purchaseOrders || production !in productionOrders { return None; }
      var o, p := purchaseOrders[po], productionOrders[production];
      if o.status != Open || o.version != expectedVersion || !Runnable(p) || o.part != p.part || o.plant != p.plant { return None; }
      purchaseOrders := purchaseOrders[po := o.(status := OnHold, version := o.version + 1)];
      r := Some(PoHeld(po, o.status, purchaseOrders[po].version));
    }

    method CancelCreated(po: RowId) returns (r: Option<ToolResult>)
      modifies `purchaseOrders
      ensures Did(CancelReplacement(old(Db()), po), Db(), r)
    {
      if po !in purchaseOrders || purchaseOrders[po].status != Open { return None; }
      var o := purchaseOrders[po];
      purchaseOrders := purchaseOrders[po := o.(status := Cancelled, version := o.version + 1)];
      r := Some(PoCancelled(po, purchaseOrders[po].version));
    }

    method RestoreReduced(e: ToolResult) returns (r: Option<ToolResult>)
      requires e.PoReduced?
      modifies `purchaseOrders
      ensures Did(RestoreOriginal(old(Db()), e), Db(), r)
    {
      if e.po !in purchaseOrders { return None; }
      var o := purchaseOrders[e.po];
      if o.ordered != e.ordered || o.received != e.received || o.status != Cancelled || o.version != e.version { return None; }
      purchaseOrders := purchaseOrders[e.po := o.(ordered := e.previousOrdered, status := e.previousStatus, version := o.version + 1)];
      var n := purchaseOrders[e.po];
      r := Some(PoRestored(e.po, n.ordered, n.received, n.status, n.version));
    }

    method RestoreHold(e: ToolResult) returns (r: Option<ToolResult>)
      requires e.PoHeld?
      modifies `purchaseOrders
      ensures Did(RestoreHeld(old(Db()), e), Db(), r)
    {
      if e.po !in purchaseOrders { return None; }
      var o := purchaseOrders[e.po];
      if o.status != OnHold || o.version != e.version { return None; }
      purchaseOrders := purchaseOrders[e.po := o.(status := e.previousStatus, version := o.version + 1)];
      r := Some(HoldRestored(e.po, purchaseOrders[e.po].status, purchaseOrders[e.po].version));
    }

    // ---- lots ----

    // The compare-and-swap UPDATE of one allocation row.
    method UpdateAllocation(id: RowId, quantity: Quantity, version: nat) returns (ok: bool)
      modifies `allocations
      ensures var swapped := SwapAllocation(old(allocations), id, quantity, version);
              ok == swapped.Some? && allocations == if ok then swapped.value else old(allocations)
    {
      ok := id in allocations && allocations[id].version == version;
      if ok { allocations := allocations[id := allocations[id].(quantity := quantity, version := version + 1)]; }
    }

    // The source side: check capacity, and shrink the source order's row if there is one.
    method TakeSource(lot: RowId, from: Option<RowId>, to: RowId, quantity: Quantity)
      returns (ok: bool, inUse: Quantity, order: Option<RowId>, source: Option<SourceChange>)
      requires lot in lots
      modifies `allocations
      ensures ok == Take(old(Db()), lot, from, to, quantity).Some?
      ensures ok ==> Taken(allocations, inUse, order, source) == Take(old(Db()), lot, from, to, quantity).value
    {
      var l := lots[lot];
      inUse, order, source := l.inUse, l.order, None;
      if from.None? {
        ok := l.quantity - l.inUse >= quantity;
        inUse, order := l.inUse + quantity, Some(to);
      } else {
        var found := FindBelow(allocations, lot, from.value, nextId);
        if found.None? || found.value !in allocations { return false, inUse, order, source; }
        var row := allocations[found.value];
        if row.quantity < quantity || row.quantity > l.inUse { return false, inUse, order, source; }
        ok := UpdateAllocation(found.value, row.quantity - quantity, row.version);
        source := Some(SourceChange(found.value, row.quantity, row.version + 1));
        if l.order == from && row.quantity - quantity == 0 { order := Some(to); }
      }
    }

    // The target side: grow or create its row.
    method GiveTarget(lot: RowId, to: RowId, quantity: Quantity) returns (id: RowId, previous: Quantity, version: nat)
      modifies `allocations, `nextId
      ensures var found := FindBelow(old(allocations), lot, to, old(nextId));
              var existing := found.Some? && found.value in old(allocations);
              && id == (if existing then found.value else old(nextId))
              && nextId == (if existing then old(nextId) else old(nextId) + 1)
              && previous == (if existing then old(allocations)[id].quantity else 0)
              && version == (if existing then old(allocations)[id].version + 1 else 1)
              && allocations == old(allocations)[id := Allocation(lot, to, previous + quantity, version)]
    {
      var found := FindBelow(allocations, lot, to, nextId);
      FindBelowFinds(allocations, lot, to, nextId);
      if found.Some? && found.value in allocations {
        id, previous, version := found.value, allocations[found.value].quantity, allocations[found.value].version + 1;
        var ok := UpdateAllocation(id, previous + quantity, allocations[id].version);
      } else {
        previous, version := 0, 1;
        id := NewId();
        allocations := allocations[id := Allocation(lot, to, quantity, 1)];
      }
    }

    method ReallocateLotRow(lot: RowId, from: Option<RowId>, to: RowId, quantity: Quantity) returns (r: Option<ToolResult>)
      modifies `lots, `allocations, `nextId
      ensures Did(ReallocateEffect(old(Db()), lot, from, to, quantity), Db(), r)
    {
      if lot !in lots || lots[lot].status != Released { return None; }
      var ok, inUse, order, source := TakeSource(lot, from, to, quantity);
      if !ok || to !in productionOrders { return None; }
      var l, p := lots[lot], productionOrders[to];
      if !Runnable(p) || p.part != l.part || p.plant != l.plant { return None; }
      var id, previous, version := GiveTarget(lot, to, quantity);
      lots := lots[lot := l.(inUse := inUse, order := order, version := l.version + 1)];
      r := Some(LotReallocated(lot, to, quantity, l.inUse, l.order, l.version + 1, id, previous, version, source));
    }

    method RestorePrior(e: ToolResult) returns (r: Option<ToolResult>)
      requires e.LotReallocated?
      modifies `lots, `allocations
      ensures Did(RestoreAllocation(old(Db()), e), Db(), r)
    {
      if e.destinationPrevious == 0 {
        if e.destination !in allocations || allocations[e.destination].quantity != e.quantity
           || allocations[e.destination].version != e.destinationVersion { return None; }
        allocations := allocations - {e.destination};
      } else {
        var ok := UpdateAllocation(e.destination, e.destinationPrevious, e.destinationVersion);
        if !ok { return None; }
      }
      var expected := e.previousInUse + e.quantity;
      if e.source.Some? {
        var ok := UpdateAllocation(e.source.value.id, e.source.value.previous, e.source.value.version);
        if !ok { return None; }
        expected := e.previousInUse;
      }
      if e.lot !in lots || lots[e.lot].inUse != expected || lots[e.lot].version != e.lotVersion { return None; }
      lots := lots[e.lot := lots[e.lot].(inUse := e.previousInUse, order := e.previousLotOrder, version := e.lotVersion + 1)];
      r := Some(AllocationRestored(e.lot, lots[e.lot].inUse, lots[e.lot].version));
    }

    // ---- messages and arrival checks ----

    method Send(m: Message) returns (id: RowId)
      modifies `messages, `nextId
      ensures id == old(nextId) && Db() == InsertMessage(old(Db()), m)
    {
      id := NewId();
      messages := messages[id := m];
    }

    method FlagShortageRow(production: RowId, part: string, quantity: Quantity, key: Key) returns (r: Option<ToolResult>)
      modifies `messages, `nextId
      ensures Did(FlagEffect(old(Db()), production, part, quantity, key), Db(), r)
    {
      if production !in productionOrders { return None; }
      var p := productionOrders[production];
      if p.part != part || !Runnable(p) { return None; }
      var shortage := Shortage(Db(), production);
      if shortage <= 0 || shortage != quantity || purchasing.None? { return None; }
      var id := Send(Message(key, purchasing.value, None));
      r := Some(ShortageFlagged(id, production, part, shortage));
    }

    method NotifyProductionRow(production: RowId, key: Key) returns (r: Option<ToolResult>)
      modifies `messages, `nextId
      ensures Did(NotifyEffect(old(Db()), production, key), Db(), r)
    {
      if production !in productionOrders { return None; }
      var p := productionOrders[production];
      if !Runnable(p) || p.supervisor.None? { return None; }
      var id := Send(Message(key, p.supervisor.value, None));
      r := Some(Notified(id));
    }

    method SendCorrectionRow(message: RowId, original: Key, key: Key) returns (r: Option<ToolResult>)
      modifies `messages, `nextId
      ensures Did(SendCorrection(old(Db()), message, original, key), Db(), r)
    {
      if message !in messages || messages[message].key != original { return None; }
      var id := Send(Message(key, messages[message].recipient, Some(message)));
      r := Some(Corrected(id, message));
    }

    method ScheduleCheck(po: RowId, dueAt: Time, workflow: WorkflowId, key: Key) returns (r: Option<ToolResult>)
      modifies `tasks, `nextId
      ensures Did(CheckEffect(old(Db()), po, dueAt, workflow, key), Db(), r)
    {
      var id := NewId();
      tasks := tasks[id := Task(workflow, key, po, dueAt, TaskPending)];
      r := Some(ArrivalScheduled(id));
    }

    method CancelCheckRow(task: RowId, workflow: WorkflowId, original: Key) returns (r: Option<ToolResult>)
      modifies `tasks
      ensures Did(CancelCheck(old(Db()), task, workflow, original), Db(), r)
    {
      if task !in tasks { return None; }
      var t := tasks[task];
      if t.workflow != workflow || t.key != original || t.status != TaskPending { return None; }
      tasks := tasks[task := t.(status := TaskCancelled)];
      r := Some(ArrivalCancelled(task));
    }

    // ---- the two journaled transactions ----

    method RunEffect(inv: Journal.Invocation, today: int) returns (r: Option<ToolResult>)
      modifies this
      ensures Did(ExecOutcome(old(Db()), inv, today), Db(), r) && rows == old(rows)
    {
      match inv.input
      case CreateReplacement(original, supplier, production, quantity) =>
        r := CreateReplacementPo(original, supplier, production, quantity, today);
      case ReduceOriginal(original, quantity) => r := ReduceOrCancel(original, quantity);
      case PlaceHold(po, production, version) => r := PlaceHold(po, production, version);
      case Reallocate(lot, from, to, quantity) => r := ReallocateLotRow(lot, from, to, quantity);
      case FlagShortage(production, part, quantity) => r := FlagShortageRow(production, part, quantity, inv.key);
      case Notify(production, _) => r := NotifyProductionRow(production, inv.key);
      case CheckArrival(po, dueAt) => r := ScheduleCheck(po, dueAt, inv.workflow, inv.key);
    }

    method RunReverse(c: Journal.Compensation, today: int) returns (r: Option<ToolResult>)
      modifies this
      ensures Did(UndoOutcome(old(Db()), c, today), Db(), r) && rows == old(rows)
    {
      r := None;
      match c.action
      case CancelCreatedReplacementPo => if c.effect.PoCreated? { r := CancelCreated(c.effect.po); }
      case RestoreOriginalPurchaseOrder => if c.effect.PoReduced? { r := RestoreReduced(c.effect); }
      case RestoreHeldPurchaseOrder => if c.effect.PoHeld? { r := RestoreHold(c.effect); }
      case SendCorrectionNotification =>
        if c.effect.ShortageFlagged? || c.effect.Notified? { r := SendCorrectionRow(c.effect.message, c.original, c.key); }
      case CancelArrivalCheck => if c.effect.ArrivalScheduled? { r := CancelCheckRow(c.effect.task, c.workflow, c.original); }
      case RestorePriorAllocation => if c.effect.LotReallocated? { r := RestorePrior(c.effect); }
    }

    // INSERT ... ON CONFLICT DO NOTHING, then the locked SELECT.
    method Begin(key: Key, row: Journal.Row) returns (inserted: bool, journal: Journal.Row)
      modifies `rows
      ensures inserted == (key !in old(rows)) && journal == (if inserted then row else old(rows)[key])
      ensures rows == if inserted then old(rows)[key := row] else old(rows)
    {
      inserted := key !in rows;
      if inserted { rows := rows[key := row]; }
      journal := rows[key];
    }

    method Execute(inv: Journal.Invocation, today: int) returns (answer: Journal.Answer)
      modifies this
      ensures State() == Next(old(State()), Exec(inv, today)) && answer == Answer(old(State()), Exec(inv, today))
    {
      if !ValidInput(inv.input) || ToolOf(inv.input) != inv.tool { return Journal.Refused; }
      var saved := State();
      var inserted, row := Begin(inv.key,
        Journal.Row(inv.workflow, Journal.Forward(inv.tool), Journal.Input(inv.input), Journal.Started, None, 1));
      if row.workflow != inv.workflow || row.kind != Journal.Forward(inv.tool) || row.parameters != Journal.Input(inv.input) {
        Rollback(saved);
        return Journal.Refused;
      }
      if row.status == Journal.Done {
        return if row.result.Some? then Journal.Replayed(row.result.value) else Journal.Refused;
      }
      if row.status != Journal.Started { return Journal.Refused; }
      if !inserted { rows := rows[inv.key := row.(attempts := row.attempts + 1)]; }
      var result := RunEffect(inv, today);
      if result.None? {
        Rollback(saved);
        return Journal.Refused;
      }
      rows := rows[inv.key := rows[inv.key].(status := Journal.Done, result := result)];
      answer := Journal.Ran(result.value);
    }

    method Compensate(c: Journal.Compensation, today: int) returns (answer: Journal.Answer)
      modifies this
      ensures State() == Next(old(State()), Undo(c, today)) && answer == Answer(old(State()), Undo(c, today))
    {
      hide UndoOutcome;
      if ReverseOf(c.tool) != c.action { return Journal.Refused; }
      var saved := State();
      var parameters := Journal.Provenance(c.tool, c.original, c.effect);
      var inserted, row := Begin(c.key, Journal.Row(c.workflow, Journal.Reverse(c.action), parameters, Journal.Started, None, 1));
      if row.workflow != c.workflow || row.kind != Journal.Reverse(c.action) || row.parameters != parameters {
        Rollback(saved);
        return Journal.Refused;
      }
      if row.status == Journal.Done {
        return if row.result.Some? then Journal.Replayed(row.result.value) else Journal.Refused;
      }
      if row.status != Journal.Started { return Journal.Refused; }
      if !inserted { rows := rows[c.key := row.(attempts := row.attempts + 1)]; }
      if c.original !in rows || !Journal.Compensable(rows, c) {
        Rollback(saved);
        return Journal.Refused;
      }
      var result := RunReverse(c, today);
      if result.None? {
        Rollback(saved);
        return Journal.Refused;
      }
      rows := rows[c.key := rows[c.key].(status := Journal.Done, result := result)];
      rows := rows[c.original := rows[c.original].(status := Journal.Undone)];
      answer := Journal.Ran(result.value);
    }
  }
}
