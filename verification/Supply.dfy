/** Supply across a reroute: what each effect and each reverse does to the total outstanding
    quantity, over whole runs of the tool system. */
module Supply {
  import opened Records
  import opened Erp
  import opened LotLedger
  import opened ToolSystem
  import Journal

  type PurchaseOrders = map<RowId, PurchaseOrder>

  // Ordered but not received, on one purchase order that is not cancelled.
  function Remaining(orders: PurchaseOrders, po: RowId): Quantity {
    if po in orders && orders[po].status != Cancelled then orders[po].ordered - orders[po].received else 0
  }

  function RemainingTerm(orders: PurchaseOrders): RowId -> Quantity {
    (po: RowId) => Remaining(orders, po)
  }

  function Outstanding(db: Tables): Quantity { Sum(RemainingTerm(db.purchaseOrders), db.nextId) }

  predicate OrdersBelow(db: Tables) { forall po :: po in db.purchaseOrders ==> po < db.nextId }

  // At most purchase order `po` differs between the tables.
  ghost predicate OnlyOrder(a: Tables, b: Tables, po: RowId) {
    && a.nextId <= b.nextId
    && (forall k :: k != po ==> (k in a.purchaseOrders <==> k in b.purchaseOrders))
    && (forall k :: k != po && k in a.purchaseOrders ==> b.purchaseOrders[k] == a.purchaseOrders[k])
  }

  lemma {:induction false} NoOrdersBeyond(orders: PurchaseOrders, n: nat, m: nat)
    requires n <= m && forall k :: n <= k < m ==> k !in orders
    ensures Sum(RemainingTerm(orders), m) == Sum(RemainingTerm(orders), n)
  {
    if n < m { NoOrdersBeyond(orders, n, m - 1); }
  }

  lemma OneOrderChanges(a: Tables, b: Tables, po: RowId)
    requires OrdersBelow(a) && OrdersBelow(b) && OnlyOrder(a, b, po)
    ensures Outstanding(b) == Outstanding(a) + Remaining(b.purchaseOrders, po) - Remaining(a.purchaseOrders, po)
  {
    SumChanges(RemainingTerm(a.purchaseOrders), RemainingTerm(b.purchaseOrders), b.nextId, po);
    NoOrdersBeyond(a.purchaseOrders, a.nextId, b.nextId);
  }

  // ---- one act ----

  // What an act that ran adds to the outstanding total.
  function Change(s: System, act: Act): Quantity {
    match act
    case External(after) => Outstanding(after) - Outstanding(s.db)
    case Exec(inv, _) =>
      if !Answer(s, act).Ran? then 0
      else (match inv.input
            case CreateReplacement(_, _, _, quantity) => quantity
            case ReduceOriginal(_, quantity) => -quantity
            case _ => 0)
    case Undo(c, _) =>
      if !Answer(s, act).Ran? then 0
      else (match c.effect
            case PoReduced(_, previousOrdered, _, _, received, _) => previousOrdered - received
            case PoCreated(po, _) => -Remaining(s.db.purchaseOrders, po)
            case _ => 0)
  }

  // Journaled holds and reductions name statuses a purchase order had while not cancelled.
  predicate ResultSane(r: ToolResult) {
    (r.PoReduced? ==> r.previousStatus == Open || r.previousStatus == Delayed)
    && (r.PoHeld? ==> r.previousStatus == Open)
  }

  ghost predicate SupplyOk(s: System) {
    && OrdersBelow(s.db) && Journal.RowsSound(s.rows)
    && forall key :: key in s.rows && s.rows[key].result.Some? ==> ResultSane(s.rows[key].result.value)
  }

  predicate ExternalKeepsIds(s: System, act: Act) { act.External? ==> OrdersBelow(act.after) }

  lemma ExecChanges(db: Tables, input: ToolInput, req: Request)
    requires OrdersBelow(db) && EffectOf(db, input, req).Some?
    ensures var (after, r) := EffectOf(db, input, req).value;
            && OrdersBelow(after) && ResultSane(r)
            && Outstanding(after) == Outstanding(db) +
               match input
               case CreateReplacement(_, _, _, quantity) => quantity
               case ReduceOriginal(_, quantity) => -quantity
               case _ => 0
  {
    hide Shortage, GiveToOrder, Take;
    var (after, r) := EffectOf(db, input, req).value;
    var po := match input
              case CreateReplacement(_, _, _, _) => db.nextId
              case ReduceOriginal(po, _) => po
              case PlaceHold(po, _, _) => po
              case _ => 0;
    if input.Reallocate? { ReallocateLeavesOrders(db, input); }
    OneOrderChanges(db, after, po);
  }

  lemma ReallocateLeavesOrders(db: Tables, input: ToolInput)
    requires input.Reallocate? && ReallocateEffect(db, input.lot, input.from, input.to, input.quantity).Some?
    ensures var (after, r) := ReallocateEffect(db, input.lot, input.from, input.to, input.quantity).value;
            after.purchaseOrders == db.purchaseOrders && after.nextId >= db.nextId && r.LotReallocated?
  {
    hide Take;
  }

  lemma UndoChanges(db: Tables, action: ReverseAction, effect: ToolResult, original: Key, req: Request)
    requires OrdersBelow(db) && ResultSane(effect) && ReverseEffectOf(db, action, effect, original, req).Some?
    ensures var (after, r) := ReverseEffectOf(db, action, effect, original, req).value;
            && OrdersBelow(after) && ResultSane(r)
            && Outstanding(after) == Outstanding(db) +
               match effect
               case PoReduced(_, previousOrdered, _, _, received, _) => previousOrdered - received
               case PoCreated(po, _) => -Remaining(db.purchaseOrders, po)
               case _ => 0
  {
    hide RestoreRows;
    var after := ReverseEffectOf(db, action, effect, original, req).value.0;
    var po := match effect
              case PoCreated(po, _) => po
              case PoReduced(po, _, _, _, _, _) => po
              case PoHeld(po, _, _) => po
              case _ => 0;
    OneOrderChanges(db, after, po);
  }

  lemma NextChanges(s: System, act: Act)
    requires SupplyOk(s) && ExternalKeepsIds(s, act)
    ensures SupplyOk(Next(s, act)) && Outstanding(Next(s, act).db) == Outstanding(s.db) + Change(s, act)
  {
    hide Journal.RowsSound, Outstanding, EffectOf, ReverseEffectOf;
    if !act.External? {
      CallOnJournal(s, act);
      if Answer(s, act).Ran? {
        match act {
          case Exec(inv, today) => ExecChanges(s.db, inv.input, Request(inv.workflow, inv.key, today));
          case Undo(c, today) => UndoChanges(s.db, c.action, c.effect, c.original, Request(c.workflow, c.key, today));
        }
      }
    }
  }

  // ---- whole runs ----

  function Changes(s: System, acts: seq<Act>): Quantity
    decreases |acts|
  {
    if acts == [] then 0 else Change(s, acts[0]) + Changes(Next(s, acts[0]), acts[1..])
  }

  predicate KeepsIds(s: System, acts: seq<Act>)
    decreases |acts|
  {
    acts == [] || (ExternalKeepsIds(s, acts[0]) && KeepsIds(Next(s, acts[0]), acts[1..]))
  }

  // Every run is accounted for: the total moves by what its acts add, and by nothing else.
  lemma {:induction false} SupplyIsAccounted(s: System, acts: seq<Act>)
    requires SupplyOk(s) && KeepsIds(s, acts)
    ensures SupplyOk(Run(s, acts)) && Outstanding(Run(s, acts).db) == Outstanding(s.db) + Changes(s, acts)
    decreases |acts|
  {
    hide SupplyOk, Outstanding, Change, Next, ExternalKeepsIds;
    if acts != [] {
      NextChanges(s, acts[0]);
      SupplyIsAccounted(Next(s, acts[0]), acts[1..]);
    }
  }

  // ---- the same, but for one order ----

  function Elsewhere(db: Tables, po: RowId): Quantity { Outstanding(db) - Remaining(db.purchaseOrders, po) }

  // The purchase order that an effect, or a reverse, writes; for one that writes none, any.
  function Written(db: Tables, input: ToolInput): RowId {
    match input
    case CreateReplacement(_, _, _, _) => db.nextId
    case ReduceOriginal(po, _) => po
    case PlaceHold(po, _, _) => po
    case _ => 0
  }

  function Rewritten(effect: ToolResult): RowId {
    match effect
    case PoCreated(po, _) => po
    case PoReduced(po, _, _, _, _, _) => po
    case PoHeld(po, _, _) => po
    case _ => 0
  }

  predicate WritesOrder(s: System, act: Act, po: RowId)
    requires !act.External?
  {
    match act
    case Exec(inv, _) => Written(s.db, inv.input) == po
    case Undo(c, _) => Rewritten(c.effect) == po
  }

  // What an act adds to the orders other than this one.
  function ChangeElsewhere(s: System, act: Act, po: RowId): Quantity {
    match act
    case External(after) => Elsewhere(after, po) - Elsewhere(s.db, po)
    case _ => if WritesOrder(s, act, po) then 0 else Change(s, act)
  }

  function ChangesElsewhere(s: System, acts: seq<Act>, po: RowId): Quantity
    decreases |acts|
  {
    if acts == [] then 0 else ChangeElsewhere(s, acts[0], po) + ChangesElsewhere(Next(s, acts[0]), acts[1..], po)
  }

  lemma ExecWritesOne(db: Tables, input: ToolInput, req: Request)
    requires OrdersBelow(db) && EffectOf(db, input, req).Some?
    ensures var after := EffectOf(db, input, req).value.0; OrdersBelow(after) && OnlyOrder(db, after, Written(db, input))
  {
    hide Shortage, GiveToOrder, Take;
    if input.Reallocate? { ReallocateLeavesOrders(db, input); }
  }

  lemma UndoWritesOne(db: Tables, action: ReverseAction, effect: ToolResult, original: Key, req: Request)
    requires OrdersBelow(db) && ReverseEffectOf(db, action, effect, original, req).Some?
    ensures var after := ReverseEffectOf(db, action, effect, original, req).value.0;
            OrdersBelow(after) && OnlyOrder(db, after, Rewritten(effect))
  {
    hide RestoreRows;
  }

  // A write to one order shows elsewhere in full, and not at all in the order itself.
  lemma OneOrderElsewhere(a: Tables, b: Tables, written: RowId, po: RowId)
    requires OrdersBelow(a) && OrdersBelow(b) && OnlyOrder(a, b, written)
    ensures Elsewhere(b, po) == Elsewhere(a, po) + if written == po then 0 else Outstanding(b) - Outstanding(a)
  {
    hide Outstanding;
    OneOrderChanges(a, b, written);
  }

  lemma NextChangesElsewhere(s: System, act: Act, po: RowId)
    requires SupplyOk(s) && ExternalKeepsIds(s, act)
    ensures Elsewhere(Next(s, act).db, po) == Elsewhere(s.db, po) + ChangeElsewhere(s, act, po)
  {
    NextChanges(s, act);
    hide Journal.RowsSound, Outstanding, EffectOf, ReverseEffectOf, Remaining, Written, Rewritten;
    if !act.External? {
      CallOnJournal(s, act);
      if Answer(s, act).Ran? {
        var after := Next(s, act).db;
        match act {
          case Exec(inv, today) =>
            ExecWritesOne(s.db, inv.input, Request(inv.workflow, inv.key, today));
            OneOrderElsewhere(s.db, after, Written(s.db, inv.input), po);
          case Undo(c, today) =>
            UndoWritesOne(s.db, c.action, c.effect, c.original, Request(c.workflow, c.key, today));
            OneOrderElsewhere(s.db, after, Rewritten(c.effect), po);
        }
      }
    }
  }

  lemma {:induction false} ElsewhereIsAccounted(s: System, acts: seq<Act>, po: RowId)
    requires SupplyOk(s) && KeepsIds(s, acts)
    ensures Elsewhere(Run(s, acts).db, po) == Elsewhere(s.db, po) + ChangesElsewhere(s, acts, po)
    decreases |acts|
  {
    hide SupplyOk, Elsewhere, ChangeElsewhere, Next, ExternalKeepsIds;
    if acts != [] {
      NextChanges(s, acts[0]);
      NextChangesElsewhere(s, acts[0], po);
      ElsewhereIsAccounted(Next(s, acts[0]), acts[1..], po);
    }
  }

  // ---- a reroute and its compensation ----

  // A reduction records exactly the quantity it was asked to close.
  lemma ReductionRecordsQuantity(s: System, inv: Journal.Invocation, today: int)
    requires Journal.RowsSound(s.rows) && inv.input.ReduceOriginal? && Answer(s, Exec(inv, today)).Ran?
    ensures var r := Answer(s, Exec(inv, today)).result;
            r.PoReduced? && r.po == inv.input.original && r.previousOrdered - r.received == inv.input.quantity
  {
    CallOnJournal(s, Exec(inv, today));
  }

  // A reroute and its compensation: the four acts, and everyone else's acts in between.
  datatype Reroute = Reroute(create: Act, a1: seq<Act>, reduce: Act, a2: seq<Act>, restore: Act, a3: seq<Act>, cancel: Act)

  function Created(s: System, r: Reroute): System { Run(Next(s, r.create), r.a1) }

  function Reduced(s: System, r: Reroute): System { Run(Next(Created(s, r), r.reduce), r.a2) }

  function Restored(s: System, r: Reroute): System { Run(Next(Reduced(s, r), r.restore), r.a3) }

  function Closed(s: System, r: Reroute): System { Next(Restored(s, r), r.cancel) }

  // Both effects run for the same order with the same quantity, then their reverses in reverse order, each on what its
  // effect reported.
  predicate Happens(s: System, r: Reroute) {
    && r.create.Exec? && r.create.inv.input.CreateReplacement? && r.reduce.Exec? && r.reduce.inv.input.ReduceOriginal?
    && r.create.inv.input.quantity == r.reduce.inv.input.quantity
    && r.create.inv.input.original == r.reduce.inv.input.original && r.restore.Undo? && r.cancel.Undo?
    && Answer(s, r.create).Ran? && Answer(Created(s, r), r.reduce).Ran?
    && r.restore.c.effect == Answer(Created(s, r), r.reduce).result && r.cancel.c.effect == Answer(s, r.create).result
    && Answer(Reduced(s, r), r.restore).Ran? && Answer(Restored(s, r), r.cancel).Ran?
  }

  predicate OthersKeepIds(s: System, r: Reroute) {
    KeepsIds(Next(s, r.create), r.a1) && KeepsIds(Next(Created(s, r), r.reduce), r.a2)
    && KeepsIds(Next(Reduced(s, r), r.restore), r.a3)
  }

  // Everyone else's changes to the total, up to each stage.
  function OthersToCreated(s: System, r: Reroute): Quantity { Changes(Next(s, r.create), r.a1) }

  function OthersToReduced(s: System, r: Reroute): Quantity {
    OthersToCreated(s, r) + Changes(Next(Created(s, r), r.reduce), r.a2)
  }

  // Everyone else's changes to orders other than the replacement, over the whole time.
  function OthersElsewhere(s: System, r: Reroute, po: RowId): Quantity {
    ChangesElsewhere(Next(s, r.create), r.a1, po) + ChangesElsewhere(Next(Created(s, r), r.reduce), r.a2, po)
    + ChangesElsewhere(Next(Reduced(s, r), r.restore), r.a3, po)
  }

  // But for what everyone else does, between its two effects the total is up by exactly the approved
  // quantity, and after both it is back. After full compensation it is back again but for what
  // everyone else does to other orders: whatever happened to the replacement meanwhile, receipts
  // included, is gone from the total with it.
  lemma RerouteConservesSupply(s: System, r: Reroute)
    requires SupplyOk(s) && Happens(s, r) && OthersKeepIds(s, r)
    ensures var q, c := r.create.inv.input.quantity, Answer(s, r.create).result;
            && Outstanding(Created(s, r).db) == Outstanding(s.db) + q + OthersToCreated(s, r)
            && Outstanding(Reduced(s, r).db) == Outstanding(s.db) + OthersToReduced(s, r)
            && c.PoCreated?
            && Outstanding(Closed(s, r).db) == Outstanding(s.db) + OthersElsewhere(s, r, c.po)
  {
    RerouteStages(s, r);
    RerouteElsewhere(s, r);
    CancelledIsGone(s, r);
  }

  lemma RerouteStages(s: System, r: Reroute)
    requires SupplyOk(s) && Happens(s, r) && OthersKeepIds(s, r)
    ensures SupplyOk(Created(s, r)) && SupplyOk(Reduced(s, r)) && SupplyOk(Restored(s, r)) && SupplyOk(Next(s, r.create))
    ensures SupplyOk(Next(Created(s, r), r.reduce)) && SupplyOk(Next(Reduced(s, r), r.restore))
    ensures Outstanding(Created(s, r).db) == Outstanding(s.db) + r.create.inv.input.quantity + OthersToCreated(s, r)
    ensures Outstanding(Reduced(s, r).db) == Outstanding(s.db) + OthersToReduced(s, r)
  {
    hide SupplyOk, Outstanding, EffectOf, ReverseEffectOf, Next, Run, Changes, KeepsIds, Remaining, Answer;
    NextChanges(s, r.create);
    SupplyIsAccounted(Next(s, r.create), r.a1);
    ReductionSound(Created(s, r), r.reduce);
    NextChanges(Created(s, r), r.reduce);
    SupplyIsAccounted(Next(Created(s, r), r.reduce), r.a2);
    NextChanges(Reduced(s, r), r.restore);
    SupplyIsAccounted(Next(Reduced(s, r), r.restore), r.a3);
  }

  // Seen from the other orders, the reduction and its restoration cancel, and the replacement is not there.
  lemma RerouteElsewhere(s: System, r: Reroute)
    requires SupplyOk(s) && Happens(s, r) && OthersKeepIds(s, r)
    ensures var c := Answer(s, r.create).result;
            c.PoCreated? && Elsewhere(Closed(s, r).db, c.po) == Outstanding(s.db) + OthersElsewhere(s, r, c.po)
  {
    RerouteStages(s, r);
    CreatedResult(s, r.create);
    ReductionSound(Created(s, r), r.reduce);
    hide SupplyOk, Outstanding, EffectOf, ReverseEffectOf, Next, Run, KeepsIds, Answer, Elsewhere, ChangesElsewhere, Changes;
    var po := Answer(s, r.create).result.po;
    StageElsewhere(s, r.create, r.a1, po);
    StageElsewhere(Created(s, r), r.reduce, r.a2, po);
    StageElsewhere(Reduced(s, r), r.restore, r.a3, po);
    NextChangesElsewhere(Restored(s, r), r.cancel, po);
  }

  // One act, and everyone else's after it.
  lemma StageElsewhere(s: System, act: Act, acts: seq<Act>, po: RowId)
    requires SupplyOk(s) && !act.External? && SupplyOk(Next(s, act)) && KeepsIds(Next(s, act), acts)
    ensures Elsewhere(Run(Next(s, act), acts).db, po)
         == Elsewhere(s.db, po) + ChangeElsewhere(s, act, po) + ChangesElsewhere(Next(s, act), acts, po)
  {
    hide SupplyOk, Next, Run, Elsewhere, ChangeElsewhere, ChangesElsewhere, KeepsIds;
    NextChangesElsewhere(s, act, po);
    ElsewhereIsAccounted(Next(s, act), acts, po);
  }

  lemma CancelledIsGone(s: System, r: Reroute)
    requires SupplyOk(Restored(s, r)) && Happens(s, r) && Answer(s, r.create).result.PoCreated?
    ensures Remaining(Closed(s, r).db.purchaseOrders, Answer(s, r.create).result.po) == 0
  {
    hide Run, Created, Reduced, Restored;
    CancelLeavesNothing(Restored(s, r), r.cancel);
  }

  lemma CancelLeavesNothing(s: System, cancel: Act)
    requires SupplyOk(s) && cancel.Undo? && cancel.c.effect.PoCreated? && Answer(s, cancel).Ran?
    ensures Remaining(Next(s, cancel).db.purchaseOrders, cancel.c.effect.po) == 0
  {
    CallOnJournal(s, cancel);
    hide Journal.RowsSound, Journal.RowsAfter, Answer, Next, ReverseEffectOf, Remaining;
    var c := cancel.c;
    CancelledRemains(s.db, c.action, c.effect, c.original, Request(c.workflow, c.key, cancel.today));
  }

  lemma CancelledRemains(db: Tables, action: ReverseAction, effect: ToolResult, original: Key, req: Request)
    requires effect.PoCreated? && ReverseEffectOf(db, action, effect, original, req).Some?
    ensures Remaining(ReverseEffectOf(db, action, effect, original, req).value.0.purchaseOrders, effect.po) == 0
  {}

  lemma CreatedResult(s: System, create: Act)
    requires SupplyOk(s) && create.Exec? && create.inv.input.CreateReplacement? && Answer(s, create).Ran?
    ensures var c := Answer(s, create).result;
            c.PoCreated? && c.po == s.db.nextId && c.po != create.inv.input.original && Elsewhere(s.db, c.po) == Outstanding(s.db)
  {
    CallOnJournal(s, create);
  }

  lemma ReductionSound(s: System, reduce: Act)
    requires SupplyOk(s) && reduce.Exec? && reduce.inv.input.ReduceOriginal? && Answer(s, reduce).Ran?
    ensures var r := Answer(s, reduce).result;
            r.PoReduced? && r.po == reduce.inv.input.original && r.previousOrdered - r.received == reduce.inv.input.quantity
  {
    ReductionRecordsQuantity(s, reduce.inv, reduce.today);
  }

  // ---- such a reroute exists ----

  // An open order, an approved supplier in time, and a production order; nothing journaled.
  function Small(quantity: Quantity): System {
    System(Tables(map[0 := PurchaseOrder("part", "plant", 9, quantity, 0, Open, 1)],
                  map[2 := ProductionOrder("part", "plant", quantity, 5, Scheduled, None)],
                  map[1 := Supplier("part", "plant", true, 3)], map[], map[], map[], map[], None, 3), map[])
  }

  function SmallReroute(quantity: Quantity): Reroute {
    Reroute(Exec(Journal.Invocation("w", CreateReplacementPo, "c", CreateReplacement(0, 1, 2, quantity)), 1), [],
            Exec(Journal.Invocation("w", ReduceOrCancelPo, "r", ReduceOriginal(0, quantity)), 1), [],
            Undo(Journal.Compensation("w", ReduceOrCancelPo, RestoreOriginalPurchaseOrder, "r", "ur",
                                      PoReduced(0, quantity, Open, 0, 0, 2)), 1), [],
            Undo(Journal.Compensation("w", CreateReplacementPo, CancelCreatedReplacementPo, "c", "uc", PoCreated(3, 4)), 1))
  }

  lemma SmallCreates(quantity: Quantity)
    requires quantity > 0
    ensures var s, r := Small(quantity), SmallReroute(quantity); var t := Next(s, r.create);
            && Answer(s, r.create) == Journal.Ran(PoCreated(3, 4))
            && 0 in t.db.purchaseOrders && t.db.purchaseOrders[0] == s.db.purchaseOrders[0]
            && 3 in t.db.purchaseOrders && t.db.purchaseOrders[3] == PurchaseOrder("part", "plant", 1, quantity, 0, Open, 1)
            && t.rows.Keys == {"c"} && t.rows["c"].workflow == "w" && t.rows["c"].kind == Journal.Forward(CreateReplacementPo)
            && t.rows["c"].status == Journal.Done && t.rows["c"].result == Some(PoCreated(3, 4))
  {}

  lemma ThenReduces(t: System, quantity: Quantity)
    requires quantity > 0 && t.rows.Keys == {"c"}
    requires 0 in t.db.purchaseOrders && t.db.purchaseOrders[0] == PurchaseOrder("part", "plant", 9, quantity, 0, Open, 1)
    ensures var act := SmallReroute(quantity).reduce; var u := Next(t, act); var result := PoReduced(0, quantity, Open, 0, 0, 2);
            && Answer(t, act) == Journal.Ran(result)
            && u.db == t.db.(purchaseOrders := t.db.purchaseOrders[0 := PurchaseOrder("part", "plant", 9, 0, 0, Cancelled, 2)])
            && u.rows == t.rows["r" := Journal.Row("w", Journal.Forward(ReduceOrCancelPo), Journal.Input(ReduceOriginal(0, quantity)),
                                                   Journal.Done, Some(result), 1)]
  {}

  lemma ThenRestores(u: System, quantity: Quantity)
    requires quantity > 0 && "ur" !in u.rows && "r" in u.rows && 0 in u.db.purchaseOrders
    requires u.db.purchaseOrders[0] == PurchaseOrder("part", "plant", 9, 0, 0, Cancelled, 2)
    requires u.rows["r"] == Journal.Row("w", Journal.Forward(ReduceOrCancelPo), Journal.Input(ReduceOriginal(0, quantity)),
                                        Journal.Done, Some(PoReduced(0, quantity, Open, 0, 0, 2)), 1)
    ensures var act := SmallReroute(quantity).restore; var v := Next(u, act);
            && Answer(u, act).Ran? && ("uc" !in u.rows ==> "uc" !in v.rows)
            && (forall po :: po in u.db.purchaseOrders && po != 0 ==> po in v.db.purchaseOrders && v.db.purchaseOrders[po] == u.db.purchaseOrders[po])
            && ("c" in u.rows ==> "c" in v.rows && v.rows["c"] == u.rows["c"])
  {}

  lemma ThenCancels(v: System, quantity: Quantity)
    requires "uc" !in v.rows && "c" in v.rows && 3 in v.db.purchaseOrders
    requires v.db.purchaseOrders[3].status == Open
    requires v.rows["c"].workflow == "w" && v.rows["c"].kind == Journal.Forward(CreateReplacementPo)
    requires v.rows["c"].status == Journal.Done && v.rows["c"].result == Some(PoCreated(3, 4))
    ensures Answer(v, SmallReroute(quantity).cancel).Ran?
  {}

  // Somebody receives part of order 3.
  function Receive(db: Tables, received: Quantity): Tables
    requires 3 in db.purchaseOrders
  {
    var o := db.purchaseOrders[3];
    db.(purchaseOrders := db.purchaseOrders[3 := o.(received := received, version := o.version + 1)])
  }

  lemma SmallHappens(quantity: Quantity, received: Quantity) returns (r: Reroute)
    requires quantity > 0 && 0 <= received < quantity
    ensures var s := Small(quantity);
            && Happens(s, r) && Answer(s, r.create) == Journal.Ran(PoCreated(3, 4))
            && r.a1 == r.a2 == [] && |r.a3| == 1
            && var v := Next(Reduced(s, r), r.restore);
            3 in v.db.purchaseOrders && v.db.purchaseOrders[3] == PurchaseOrder("part", "plant", 1, quantity, 0, Open, 1)
            && r.a3[0] == External(Receive(v.db, received))
  {
    var s := Small(quantity);
    r := SmallReroute(quantity);
    SmallCreates(quantity);
    hide Next, Answer, Small;
    var t := Next(s, r.create);
    ThenReduces(t, quantity);
    var u := Next(t, r.reduce);
    ThenRestores(u, quantity);
    var v := Next(u, r.restore);
    r := r.(a3 := [External(Receive(v.db, received))]);
    assert Created(s, r) == t && Reduced(s, r) == u;
    OneExternal(v, Receive(v.db, received));
    assert Restored(s, r) == v.(db := Receive(v.db, received));
    ThenCancels(v.(db := Receive(v.db, received)), quantity);
    hide Run;
  }

  lemma OneExternal(v: System, after: Tables)
    ensures Run(v, [External(after)]) == v.(db := after)
  {
    assert [External(after)][1..] == [];
  }

  lemma SmallIsOk(quantity: Quantity)
    ensures SupplyOk(Small(quantity))
  {}

  // Nobody else touches an order other than the replacement.
  lemma OnlyTheReceipt(s: System, r: Reroute, v: System, received: Quantity)
    requires SupplyOk(v) && r.a1 == r.a2 == [] && v == Next(Reduced(s, r), r.restore) && 3 in v.db.purchaseOrders
    requires r.a3 == [External(Receive(v.db, received))]
    ensures OthersKeepIds(s, r) && OthersElsewhere(s, r, 3) == 0
  {
    var after := Receive(v.db, received);
    OneOrderElsewhere(v.db, after, 3, 3);
    hide Next, Elsewhere, SupplyOk;
    assert r.a3[1..] == [];
    assert KeepsIds(Next(v, r.a3[0]), []) && ChangesElsewhere(Next(v, r.a3[0]), [], 3) == 0;
  }

  // It happens for every quantity, and whatever part of the replacement is received before it is
  // cancelled, the total ends where it started.
  lemma RerouteHappens(quantity: Quantity, received: Quantity) returns (r: Reroute)
    requires quantity > 0 && 0 <= received < quantity
    ensures var s := Small(quantity);
            && SupplyOk(s) && Happens(s, r) && OthersKeepIds(s, r)
            && (3 in Restored(s, r).db.purchaseOrders && Restored(s, r).db.purchaseOrders[3].received == received)
            && Outstanding(Closed(s, r).db) == Outstanding(s.db)
  {
    var s := Small(quantity);
    SmallIsOk(quantity);
    r := SmallHappens(quantity, received);
    var v := Next(Reduced(s, r), r.restore);
    OneExternal(v, Receive(v.db, received));
    assert r.a3 == [External(Receive(v.db, received))];
    SmallStaysOk(s, r);
    OnlyTheReceipt(s, r, v, received);
    hide Next, Answer, SupplyOk, Small, Outstanding, Happens, OthersKeepIds, Closed, Created, Reduced, Remaining, OthersElsewhere;
    RerouteConservesSupply(s, r);
  }

  lemma SmallStaysOk(s: System, r: Reroute)
    requires SupplyOk(s) && Happens(s, r) && r.a1 == r.a2 == []
    ensures SupplyOk(Next(Reduced(s, r), r.restore))
  {
    hide SupplyOk, Next, Answer;
    NextChanges(s, r.create);
    NextChanges(Created(s, r), r.reduce);
    NextChanges(Reduced(s, r), r.restore);
  }
}
