/** The provider tables and the seven effects on them with their six reverses, as partial functions:
    None is a rejection. Generated identifiers come from one counter, so they are never reused. */
module Erp {
  import opened Records

  datatype PurchaseOrder = PurchaseOrder(
    part: string, plant: string, supplier: RowId, ordered: Quantity, received: Quantity,
    status: PoStatus, version: nat)

  datatype ProductionStatus = Scheduled | InProgress | Inactive

  // supervisor: the e-mail address of its production supervisor, where there is one
  datatype ProductionOrder = ProductionOrder(
    part: string, plant: string, required: Quantity, startDate: int, status: ProductionStatus,
    supervisor: Option<string>)

  datatype Supplier = Supplier(part: string, plant: string, approved: bool, leadTimeDays: int)

  datatype LotStatus = Released | Held

  datatype Lot = Lot(part: string, plant: string, quantity: Quantity, status: LotStatus,
                     order: Option<RowId>, inUse: Quantity, version: nat)

  datatype Allocation = Allocation(lot: RowId, order: RowId, quantity: Quantity, version: nat)

  datatype Message = Message(key: Key, recipient: string, reverses: Option<RowId>)

  datatype Task = Task(workflow: WorkflowId, key: Key, po: RowId, dueAt: Time, status: TaskStatus)

  datatype Tables = Tables(
    purchaseOrders: map<RowId, PurchaseOrder>, productionOrders: map<RowId, ProductionOrder>,
    suppliers: map<RowId, Supplier>, lots: map<RowId, Lot>, allocations: map<RowId, Allocation>,
    messages: map<RowId, Message>, tasks: map<RowId, Task>,
    purchasing: Option<string>,      // the purchasing manager's e-mail address
    nextId: RowId)

  // Who asks, under which journal key, and on which day.
  datatype Request = Request(workflow: WorkflowId, key: Key, today: int)

  predicate Runnable(p: ProductionOrder) { p.status == Scheduled || p.status == InProgress }

  type Outcome = Option<(Tables, ToolResult)>

  // ---- purchase orders ----

  function CreateEffect(db: Tables, original: RowId, supplier: RowId, production: RowId, quantity: Quantity,
                        today: int): Outcome {
    if original !in db.purchaseOrders || supplier !in db.suppliers || production !in db.productionOrders then None
    else
      var o, s, p := db.purchaseOrders[original], db.suppliers[supplier], db.productionOrders[production];
      var receipt := today + s.leadTimeDays;
      if !(s.part == o.part && s.plant == o.plant && s.approved && p.part == o.part && p.plant == o.plant) then None
      else if receipt > p.startDate then None
      else
        var row := PurchaseOrder(o.part, o.plant, supplier, quantity, 0, Open, 1);
        Some((db.(purchaseOrders := db.purchaseOrders[db.nextId := row], nextId := db.nextId + 1),
              PoCreated(db.nextId, receipt)))
  }

  function ReduceEffect(db: Tables, original: RowId, quantity: Quantity): Outcome {
    if original !in db.purchaseOrders then None
    else
      var o := db.purchaseOrders[original];
      if o.ordered - o.received != quantity || (o.status != Open && o.status != Delayed) then None
      else
        var row := o.(ordered := o.received, status := Cancelled, version := o.version + 1);
        Some((db.(purchaseOrders := db.purchaseOrders[original := row]),
              PoReduced(original, o.ordered, o.status, row.ordered, row.received, row.version)))
  }

  function HoldEffect(db: Tables, po: RowId, production: RowId, expectedVersion: nat): Outcome {
    if po !in db.purchaseOrders || production !in db.productionOrders then None
    else
      var o, p := db.purchaseOrders[po], db.productionOrders[production];
      if !(o.status == Open && o.version == expectedVersion && Runnable(p) && o.part == p.part && o.plant == p.plant)
      then None
      else
        var row := o.(status := OnHold, version := o.version + 1);
        Some((db.(purchaseOrders := db.purchaseOrders[po := row]), PoHeld(po, o.status, row.version)))
  }

  function CancelReplacement(db: Tables, po: RowId): Outcome {
    if po !in db.purchaseOrders || db.purchaseOrders[po].status != Open then None
    else
      var o := db.purchaseOrders[po];
      Some((db.(purchaseOrders := db.purchaseOrders[po := o.(status := Cancelled, version := o.version + 1)]),
            PoCancelled(po, o.version + 1)))
  }

  function RestoreOriginal(db: Tables, r: ToolResult): Outcome
    requires r.PoReduced?
  {
    if r.po !in db.purchaseOrders then None
    else
      var o := db.purchaseOrders[r.po];
      if !(o.ordered == r.ordered && o.received == r.received && o.status == Cancelled && o.version == r.version) then None
      else
        var row := o.(ordered := r.previousOrdered, status := r.previousStatus, version := o.version + 1);
        Some((db.(purchaseOrders := db.purchaseOrders[r.po := row]),
              PoRestored(r.po, row.ordered, row.received, row.status, row.version)))
  }

  function RestoreHeld(db: Tables, r: ToolResult): Outcome
    requires r.PoHeld?
  {
    if r.po !in db.purchaseOrders then None
    else
      var o := db.purchaseOrders[r.po];
      if !(o.status == OnHold && o.version == r.version) then None
      else
        var row := o.(status := r.previousStatus, version := o.version + 1);
        Some((db.(purchaseOrders := db.purchaseOrders[r.po := row]), HoldRestored(r.po, row.status, row.version)))
  }

  // ---- lots and their allocations ----

  // The row with this (lot, order) pair; a unique constraint allows at most one.
  function FindBelow(allocations: map<RowId, Allocation>, lot: RowId, order: RowId, n: nat): Option<RowId> {
    if n == 0 then None
    else if n - 1 in allocations && allocations[n - 1].lot == lot && allocations[n - 1].order == order then Some(n - 1)
    else FindBelow(allocations, lot, order, n - 1)
  }

  function Find(db: Tables, lot: RowId, order: RowId): Option<RowId> {
    FindBelow(db.allocations, lot, order, db.nextId)
  }

  // UPDATE production_allocations ... WHERE id = :id AND source_version = :version
  function SwapAllocation(allocations: map<RowId, Allocation>, id: RowId, quantity: Quantity, version: nat)
    : Option<map<RowId, Allocation>>
  {
    if id in allocations && allocations[id].version == version
    then Some(allocations[id := allocations[id].(quantity := quantity, version := version + 1)]) else None
  }

  // The source side of a reallocation: the allocation table and the lot columns after it.
  datatype Taken = Taken(allocations: map<RowId, Allocation>, inUse: Quantity, order: Option<RowId>,
                         source: Option<SourceChange>)

  function TakeFromLot(db: Tables, lot: RowId, to: RowId, quantity: Quantity): Option<Taken>
    requires lot in db.lots
  {
    var l := db.lots[lot];
    if l.quantity - l.inUse < quantity then None
    else Some(Taken(db.allocations, l.inUse + quantity, Some(to), None))
  }

  function TakeFromOrder(db: Tables, lot: RowId, from: RowId, to: RowId, quantity: Quantity): Option<Taken>
    requires lot in db.lots
  {
    var l := db.lots[lot];
    match Find(db, lot, from)
    case None => None
    case Some(id) =>
      if id !in db.allocations then None
      else
        var row := db.allocations[id];
        if row.quantity < quantity || row.quantity > l.inUse then None
        else
          var rest := row.quantity - quantity;
          Some(Taken(db.allocations[id := row.(quantity := rest, version := row.version + 1)], l.inUse,
                     if l.order == Some(from) && rest == 0 then Some(to) else l.order,
                     Some(SourceChange(id, row.quantity, row.version + 1))))
  }

  // The target side: its row grows or is created, and the lot takes its new columns and version.
  function GiveToOrder(db: Tables, lot: RowId, to: RowId, quantity: Quantity, taken: Taken): (Tables, ToolResult)
    requires lot in db.lots
  {
    var l := db.lots[lot];
    var found := FindBelow(taken.allocations, lot, to, db.nextId);
    var existing := found.Some? && found.value in taken.allocations;
    var id := if existing then found.value else db.nextId;
    var previous := if existing then taken.allocations[id].quantity else 0;
    var version := if existing then taken.allocations[id].version + 1 else 1;
    (db.(allocations := taken.allocations[id := Allocation(lot, to, previous + quantity, version)],
         lots := db.lots[lot := l.(inUse := taken.inUse, order := taken.order, version := l.version + 1)],
         nextId := if existing then db.nextId else db.nextId + 1),
     LotReallocated(lot, to, quantity, l.inUse, l.order, l.version + 1, id, previous, version, taken.source))
  }

  function Take(db: Tables, lot: RowId, from: Option<RowId>, to: RowId, quantity: Quantity): Option<Taken>
    requires lot in db.lots
  {
    match from
    case None => TakeFromLot(db, lot, to, quantity)
    case Some(order) => TakeFromOrder(db, lot, order, to, quantity)
  }

  function ReallocateEffect(db: Tables, lot: RowId, from: Option<RowId>, to: RowId, quantity: Quantity): Outcome {
    if lot !in db.lots || db.lots[lot].status != Released then None
    else
      var taken := Take(db, lot, from, to, quantity);
      if taken.None? || to !in db.productionOrders then None
      else
        var l, p := db.lots[lot], db.productionOrders[to];
        if !(Runnable(p) && p.part == l.part && p.plant == l.plant) then None
        else Some(GiveToOrder(db, lot, to, quantity, taken.value))
  }

  function RestoreDestination(rows: map<RowId, Allocation>, r: ToolResult): Option<map<RowId, Allocation>>
    requires r.LotReallocated?
  {
    if r.destinationPrevious == 0 then
      // DELETE ... WHERE id, allocated_quantity and source_version all match
      if r.destination in rows && rows[r.destination].quantity == r.quantity
         && rows[r.destination].version == r.destinationVersion
      then Some(rows - {r.destination}) else None
    else SwapAllocation(rows, r.destination, r.destinationPrevious, r.destinationVersion)
  }

  function RestoreRows(rows: map<RowId, Allocation>, r: ToolResult): Option<map<RowId, Allocation>>
    requires r.LotReallocated?
  {
    var rest := RestoreDestination(rows, r);
    if rest.None? || r.source.None? then rest
    else SwapAllocation(rest.value, r.source.value.id, r.source.value.previous, r.source.value.version)
  }

  function RestoreAllocation(db: Tables, r: ToolResult): Outcome
    requires r.LotReallocated?
  {
    match RestoreRows(db.allocations, r)
    case None => None
    case Some(allocations) =>
      var expected := if r.source.Some? then r.previousInUse else r.previousInUse + r.quantity;
      if r.lot !in db.lots || db.lots[r.lot].inUse != expected || db.lots[r.lot].version != r.lotVersion then None
      else
        var l := db.lots[r.lot];
        var row := l.(inUse := r.previousInUse, order := r.previousLotOrder, version := l.version + 1);
        Some((db.(allocations := allocations, lots := db.lots[r.lot := row]),
              AllocationRestored(r.lot, row.inUse, row.version)))
  }

  // ---- shortages, messages and arrival checks ----

  // What one lot offers an order: its free stock and what it already holds for that order.
  function CoverTerm(db: Tables, part: string, plant: string, order: RowId): RowId -> Quantity {
    (lot: RowId) =>
      if lot in db.lots && db.lots[lot].part == part && db.lots[lot].plant == plant && db.lots[lot].status == Released
      then db.lots[lot].quantity - db.lots[lot].inUse + HeldFor(db, lot, order) else 0
  }

  function HeldFor(db: Tables, lot: RowId, order: RowId): Quantity {
    match Find(db, lot, order)
    case Some(id) => if id in db.allocations then db.allocations[id].quantity else 0
    case None => 0
  }

  function Sum(term: RowId -> Quantity, n: nat): Quantity {
    if n == 0 then 0 else Sum(term, n - 1) + term(n - 1)
  }

  function Cover(db: Tables, part: string, plant: string, order: RowId): Quantity {
    Sum(CoverTerm(db, part, plant, order), db.nextId)
  }

  function Shortage(db: Tables, production: RowId): Quantity
    requires production in db.productionOrders
  {
    var p := db.productionOrders[production];
    p.required - Cover(db, p.part, p.plant, production)
  }

  function InsertMessage(db: Tables, m: Message): Tables {
    db.(messages := db.messages[db.nextId := m], nextId := db.nextId + 1)
  }

  function FlagEffect(db: Tables, production: RowId, part: string, quantity: Quantity, key: Key): Outcome {
    if production !in db.productionOrders then None
    else
      var p := db.productionOrders[production];
      if p.part != part || !Runnable(p) then None
      else
        var shortage := Shortage(db, production);
        if shortage <= 0 || shortage != quantity || db.purchasing.None? then None
        else Some((InsertMessage(db, Message(key, db.purchasing.value, None)),
                   ShortageFlagged(db.nextId, production, part, shortage)))
  }

  function NotifyEffect(db: Tables, production: RowId, key: Key): Outcome {
    if production !in db.productionOrders then None
    else
      var p := db.productionOrders[production];
      if !Runnable(p) || p.supervisor.None? then None
      else Some((InsertMessage(db, Message(key, p.supervisor.value, None)), Notified(db.nextId)))
  }

  function SendCorrection(db: Tables, message: RowId, original: Key, key: Key): Outcome {
    if message !in db.messages || db.messages[message].key != original then None
    else Some((InsertMessage(db, Message(key, db.messages[message].recipient, Some(message))),
               Corrected(db.nextId, message)))
  }

  function CheckEffect(db: Tables, po: RowId, dueAt: Time, workflow: WorkflowId, key: Key): Outcome {
    Some((db.(tasks := db.tasks[db.nextId := Task(workflow, key, po, dueAt, TaskPending)], nextId := db.nextId + 1),
          ArrivalScheduled(db.nextId)))
  }

  function CancelCheck(db: Tables, task: RowId, workflow: WorkflowId, original: Key): Outcome {
    if task !in db.tasks then None
    else
      var t := db.tasks[task];
      if t.workflow != workflow || t.key != original || t.status != TaskPending then None
      else Some((db.(tasks := db.tasks[task := t.(status := TaskCancelled)]), ArrivalCancelled(task)))
  }

  // ---- dispatch ----

  function EffectOf(db: Tables, input: ToolInput, req: Request): Outcome {
    match input
    case CreateReplacement(original, supplier, production, quantity) =>
      CreateEffect(db, original, supplier, production, quantity, req.today)
    case ReduceOriginal(original, quantity) => ReduceEffect(db, original, quantity)
    case PlaceHold(po, production, version) => HoldEffect(db, po, production, version)
    case Reallocate(lot, from, to, quantity) => ReallocateEffect(db, lot, from, to, quantity)
    case FlagShortage(production, part, quantity) => FlagEffect(db, production, part, quantity, req.key)
    case Notify(production, _) => NotifyEffect(db, production, req.key)
    case CheckArrival(po, dueAt) => CheckEffect(db, po, dueAt, req.workflow, req.key)
  }

  // A result that does not carry the provenance its action needs is refused.
  function ReverseEffectOf(db: Tables, action: ReverseAction, effect: ToolResult, original: Key, req: Request): Outcome {
    match action
    case CancelCreatedReplacementPo => if effect.PoCreated? then CancelReplacement(db, effect.po) else None
    case RestoreOriginalPurchaseOrder => if effect.PoReduced? then RestoreOriginal(db, effect) else None
    case RestoreHeldPurchaseOrder => if effect.PoHeld? then RestoreHeld(db, effect) else None
    case SendCorrectionNotification =>
      if effect.ShortageFlagged? || effect.Notified? then SendCorrection(db, effect.message, original, req.key) else None
    case CancelArrivalCheck => if effect.ArrivalScheduled? then CancelCheck(db, effect.task, req.workflow, original) else None
    case RestorePriorAllocation => if effect.LotReallocated? then RestoreAllocation(db, effect) else None
  }
}
