/** The gate before a supplier reroute may ask for approval, and what its acceptance is worth when the
    tools run on the rows it saw. */
module RerouteGate {
  import opened Records
  import opened Erp
  import opened Texts

  // None stands for a payload field that is missing or malformed.
  datatype OrderEvidence = OrderEvidence(id: RowId, status: Option<PoStatus>, ordered: Option<Quantity>,
                                         received: Option<Quantity>, supplier: Option<RowId>)

  datatype SupplierEvidence = SupplierEvidence(id: RowId, approved: bool, part: string, plant: string,
                                               leadTime: Option<int>, price: Option<int>, currency: Option<string>)

  // The newest shipment update: its status, and its expected receipt date where it reads as one.
  datatype Shipment = Unstructured | Update(status: string, expected: Option<int>)

  datatype Context = Context(part: string, plants: set<string>, detectedOn: int, startDate: int, production: RowId,
                             original: OrderEvidence, suppliers: seq<SupplierEvidence>, shipment: Shipment,
                             scopes: set<string>, limits: map<string, int>, sources: map<string, int>)

  datatype Reroute = Reroute(original: RowId, supplier: RowId, production: RowId, quantity: Quantity)

  datatype Recommendation = TakeNoAction | ReviewManually | EnterWorkflow(reroute: Reroute)

  datatype GateStatus = NoAction | ManualReview | PendingApproval | Denied

  datatype Decision = Decision(status: GateStatus, reasons: seq<Reason>)

  datatype Reason =
    | StaleSourceEvidence | MissingRequiredScope | OrderMismatch | ProductionMismatch | OrderNotReroutable
    | QuantityMismatch | IneligibleSupplier | InvalidPricing | MissingLimit | LimitExceeded

  const REQUIRED: set<string> := {"erp:read", "mail:read", "calendar:read", "erp:po:reroute"}

  // The positive remainder of an active order.
  function OutstandingOf(o: OrderEvidence): Option<Quantity> {
    if o.status.None? || o.status.value !in {Delayed, Open, Partial} || o.ordered.None? || o.received.None? then None
    else if o.ordered.value - o.received.value <= 0 then None
    else Some(o.ordered.value - o.received.value)
  }

  predicate Eligible(c: Context, s: SupplierEvidence) {
    && c.original.supplier.Some? && s.id != c.original.supplier.value && s.approved && s.part == c.part && s.plant in c.plants
    && s.leadTime.Some? && s.leadTime.value >= 0 && c.detectedOn + s.leadTime.value <= c.startDate
  }

  // Suppliers have distinct ids, so the first eligible one with this id is the only one.
  function Candidate(c: Context, suppliers: seq<SupplierEvidence>, id: RowId): Option<SupplierEvidence> {
    if suppliers == [] then None
    else if suppliers[0].id == id && Eligible(c, suppliers[0]) then Some(suppliers[0])
    else Candidate(c, suppliers[1..], id)
  }

  // Price and currency are valid, and the amount is not negative.
  function EstimatedValue(candidate: Option<SupplierEvidence>, quantity: Quantity): Option<(int, string)> {
    if candidate.None? || candidate.value.price.None? || candidate.value.currency.None? || candidate.value.price.value <= 0 then None
    else if quantity * candidate.value.price.value < 0 then None
    else Some((quantity * candidate.value.price.value, candidate.value.currency.value))
  }

  // A shipment that claims to be on schedule settles the matter if its date bears that out, and needs a
  // person if not. `lower` is str.lower.
  function ShipmentOutcome(c: Context, lower: string -> string): Option<GateStatus> {
    match c.shipment
    case Unstructured => Some(ManualReview)
    case Update(status, expected) =>
      if lower(Strip(status)) != "on_schedule" && lower(Strip(status)) != "on_track" then None
      else if expected.None? || expected.value > c.startDate then Some(ManualReview)
      else Some(NoAction)
  }

  // When each reason applies, on its own.
  predicate Applies(c: Context, r: Reroute, current: map<string, int>, reason: Reason) {
    var outstanding := OutstandingOf(c.original);
    var candidate := Candidate(c, c.suppliers, r.supplier);
    var value := EstimatedValue(candidate, r.quantity);
    match reason
    case StaleSourceEvidence => c.sources != current
    case MissingRequiredScope => !(REQUIRED <= c.scopes)
    case OrderMismatch => r.original != c.original.id
    case ProductionMismatch => r.production != c.production
    case OrderNotReroutable => outstanding.None?
    case QuantityMismatch => outstanding.Some? && r.quantity != outstanding.value
    case IneligibleSupplier => candidate.None?
    case InvalidPricing => candidate.Some? && value.None?
    case MissingLimit => value.Some? && value.value.1 !in c.limits
    case LimitExceeded => value.Some? && value.value.1 in c.limits && value.value.0 > c.limits[value.value.1]
  }

  // The order in which the checks are made.
  function Position(reason: Reason): nat {
    match reason
    case StaleSourceEvidence => 0
    case MissingRequiredScope => 1
    case OrderMismatch => 2
    case ProductionMismatch => 3
    case OrderNotReroutable => 4
    case QuantityMismatch => 5
    case IneligibleSupplier => 6
    case InvalidPricing => 7
    case MissingLimit => 8
    case LimitExceeded => 9
  }

  // The reasons among the first n checks that apply, in order.
  predicate Reports(reasons: seq<Reason>, c: Context, r: Reroute, current: map<string, int>, n: nat) {
    && (forall reason :: reason in reasons <==> Position(reason) < n && Applies(c, r, current, reason))
    && (forall i, j :: 0 <= i < j < |reasons| ==> Position(reasons[i]) < Position(reasons[j]))
  }

  lemma ReportsOneMore(reasons: seq<Reason>, c: Context, r: Reroute, current: map<string, int>, reason: Reason)
    requires Reports(reasons, c, r, current, Position(reason))
    ensures Reports(if Applies(c, r, current, reason) then reasons + [reason] else reasons, c, r, current, Position(reason) + 1)
  {
    hide Applies;
    forall other: Reason ensures Position(other) == Position(reason) ==> other == reason {}
  }

  // Every reason that applies is reported, once, in the order of the checks.
  method Check(c: Context, r: Reroute, current: map<string, int>) returns (reasons: seq<Reason>)
    ensures Reports(reasons, c, r, current, 10)
  {
    hide Reports, OutstandingOf, Candidate, EstimatedValue;
    reasons := [];
    NothingReported(c, r, current);
    ReportsOneMore(reasons, c, r, current, StaleSourceEvidence);
    if c.sources != current { reasons := reasons + [StaleSourceEvidence]; }
    ReportsOneMore(reasons, c, r, current, MissingRequiredScope);
    if !(REQUIRED <= c.scopes) { reasons := reasons + [MissingRequiredScope]; }
    ReportsOneMore(reasons, c, r, current, OrderMismatch);
    if r.original != c.original.id { reasons := reasons + [OrderMismatch]; }
    ReportsOneMore(reasons, c, r, current, ProductionMismatch);
    if r.production != c.production { reasons := reasons + [ProductionMismatch]; }
    var outstanding := OutstandingOf(c.original);
    ReportsOneMore(reasons, c, r, current, OrderNotReroutable);
    if outstanding.None? { reasons := reasons + [OrderNotReroutable]; }
    ReportsOneMore(reasons, c, r, current, QuantityMismatch);
    if outstanding.Some? && r.quantity != outstanding.value { reasons := reasons + [QuantityMismatch]; }
    var candidate := Candidate(c, c.suppliers, r.supplier);
    ReportsOneMore(reasons, c, r, current, IneligibleSupplier);
    if candidate.None? { reasons := reasons + [IneligibleSupplier]; }
    var value := EstimatedValue(candidate, r.quantity);
    ReportsOneMore(reasons, c, r, current, InvalidPricing);
    if candidate.Some? && value.None? { reasons := reasons + [InvalidPricing]; }
    ReportsOneMore(reasons, c, r, current, MissingLimit);
    if value.Some? && value.value.1 !in c.limits { reasons := reasons + [MissingLimit]; }
    ReportsOneMore(reasons, c, r, current, LimitExceeded);
    if value.Some? && value.value.1 in c.limits && value.value.0 > c.limits[value.value.1] {
      reasons := reasons + [LimitExceeded];
    }
  }

  // The whole gate. It asks for approval exactly for a reroute that no shipment settles and against
  // which no reason applies; it denies exactly with all the reasons that do.
  method Evaluate(c: Context, recommendation: Recommendation, current: map<string, int>, lower: string -> string)
    returns (d: Decision)
    ensures d.status == PendingApproval <==> recommendation.EnterWorkflow? && Pending(c, recommendation.reroute, current, lower)
    ensures d.status == Denied <==>
              recommendation.EnterWorkflow? && ShipmentOutcome(c, lower).None? && !Accepted(c, recommendation.reroute, current)
    ensures d.status == Denied ==> Reports(d.reasons, c, recommendation.reroute, current, 10)
    ensures d.status != Denied ==> d.reasons == []
    ensures d.status == NoAction <==>
              recommendation.TakeNoAction? || (recommendation.EnterWorkflow? && ShipmentOutcome(c, lower) == Some(NoAction))
  {
    if recommendation.TakeNoAction? { return Decision(NoAction, []); }
    if recommendation.ReviewManually? { return Decision(ManualReview, []); }
    var shipment := ShipmentOutcome(c, lower);
    if shipment.Some? { return Decision(shipment.value, []); }
    var reasons := Check(c, recommendation.reroute, current);
    NoReasonApplies(reasons, c, recommendation.reroute, current);
    d := if reasons == [] then Decision(PendingApproval, []) else Decision(Denied, reasons);
  }

  lemma NoReasonApplies(reasons: seq<Reason>, c: Context, r: Reroute, current: map<string, int>)
    requires Reports(reasons, c, r, current, 10)
    ensures reasons == [] <==> Accepted(c, r, current)
  {
    hide Applies;
    if reasons != [] { assert reasons[0] in reasons; }
    forall reason ensures Position(reason) < 10 {}
    if reasons == [] {
      forall reason ensures !Applies(c, r, current, reason) { assert reason !in reasons; }
    }
  }

  predicate Pending(c: Context, r: Reroute, current: map<string, int>, lower: string -> string) {
    ShipmentOutcome(c, lower).None? && Accepted(c, r, current)
  }

  lemma NothingReported(c: Context, r: Reroute, current: map<string, int>)
    ensures Reports([], c, r, current, Position(StaleSourceEvidence))
  {}

  predicate Accepted(c: Context, r: Reroute, current: map<string, int>) {
    forall reason :: !Applies(c, r, current, reason)
  }

  // ---- what acceptance means ----

  // An approved supplier, other than the original one, of the part at a plant that the actor sees, whose
  // lead time, counted from the day of detection, ends by the start of production.
  predicate Suits(c: Context, s: SupplierEvidence) {
    && s.approved && s.part == c.part && s.plant in c.plants
    && c.original.supplier.Some? && c.original.supplier.value != s.id
    && match s.leadTime
       case Some(days) => 0 <= days && days <= c.startDate - c.detectedOn
       case None => false
  }

  // Its price makes the order's value one that the actor may decide on.
  predicate Affords(c: Context, s: SupplierEvidence, quantity: Quantity) {
    && s.price.Some? && s.price.value > 0 && s.currency.Some? && quantity >= 0
    && s.currency.value in c.limits && quantity * s.price.value <= c.limits[s.currency.value]
  }

  // What is still to come of an open, delayed or partly received order.
  predicate Remains(o: OrderEvidence, quantity: Quantity) {
    && o.status.Some? && o.status.value in {Open, Delayed, Partial} && o.ordered.Some? && o.received.Some?
    && o.ordered.value == o.received.value + quantity && quantity > 0
  }

  predicate DistinctSuppliers(suppliers: seq<SupplierEvidence>) {
    forall i, j :: 0 <= i < j < |suppliers| ==> suppliers[i].id != suppliers[j].id
  }

  lemma {:induction false} CandidateFinds(c: Context, suppliers: seq<SupplierEvidence>, id: RowId)
    requires DistinctSuppliers(suppliers)
    ensures Candidate(c, suppliers, id).Some? <==> exists s :: s in suppliers && s.id == id && Suits(c, s)
    ensures forall s :: s in suppliers && s.id == id && Suits(c, s) ==> Candidate(c, suppliers, id) == Some(s)
  {
    if suppliers != [] {
      CandidateFinds(c, suppliers[1..], id);
      assert forall s :: s in suppliers <==> s == suppliers[0] || s in suppliers[1..];
      assert Eligible(c, suppliers[0]) <==> Suits(c, suppliers[0]);
      hide Suits, Eligible;
      if suppliers[0].id == id {
        forall s | s in suppliers[1..] ensures s.id != id {
          var k :| 0 <= k < |suppliers[1..]| && suppliers[1..][k] == s;
          assert suppliers[k + 1] == s;
        }
      }
    }
  }

  // A reroute is accepted exactly on current evidence, with all four scopes, for the order and the
  // production order at hand, for all that remains of the order, and to a supplier that suits and
  // whose price is within the actor's limit.
  lemma AcceptedIff(c: Context, r: Reroute, current: map<string, int>)
    requires DistinctSuppliers(c.suppliers)
    ensures Accepted(c, r, current) <==>
            && c.sources == current && {"erp:read", "mail:read", "calendar:read", "erp:po:reroute"} <= c.scopes
            && r.original == c.original.id && r.production == c.production && Remains(c.original, r.quantity)
            && exists s :: s in c.suppliers && s.id == r.supplier && Suits(c, s) && Affords(c, s, r.quantity)
  {
    AllReasons(c, r, current);
    OutstandingIs(c.original, r.quantity);
    SupplierReasons(c, r, current);
    assert Applies(c, r, current, MissingRequiredScope) <==> !({"erp:read", "mail:read", "calendar:read", "erp:po:reroute"} <= c.scopes);
    hide Accepted, Suits, Affords, Remains, Candidate, OutstandingOf, EstimatedValue, DistinctSuppliers;
  }

  lemma SupplierReasons(c: Context, r: Reroute, current: map<string, int>)
    requires DistinctSuppliers(c.suppliers)
    ensures !Applies(c, r, current, IneligibleSupplier) && !Applies(c, r, current, InvalidPricing)
            && !Applies(c, r, current, MissingLimit) && !Applies(c, r, current, LimitExceeded)
            <==> exists s :: s in c.suppliers && s.id == r.supplier && Suits(c, s) && Affords(c, s, r.quantity)
  {
    CandidateFinds(c, c.suppliers, r.supplier);
    var candidate := Candidate(c, c.suppliers, r.supplier);
    hide Suits, Affords, Candidate, EstimatedValue, DistinctSuppliers, OutstandingOf;
    if candidate.Some? {
      ValueReasons(c, candidate.value, r.quantity);
      var s :| s in c.suppliers && s.id == r.supplier && Suits(c, s);
      assert candidate == Some(s);
      forall x | x in c.suppliers && x.id == r.supplier && Suits(c, x) ensures x == s {}
      assert (exists x :: x in c.suppliers && x.id == r.supplier && Suits(c, x) && Affords(c, x, r.quantity)) <==> Affords(c, s, r.quantity);
    }
  }

  lemma AllReasons(c: Context, r: Reroute, current: map<string, int>)
    ensures Accepted(c, r, current) <==>
            && !Applies(c, r, current, StaleSourceEvidence) && !Applies(c, r, current, MissingRequiredScope)
            && !Applies(c, r, current, OrderMismatch) && !Applies(c, r, current, ProductionMismatch)
            && !Applies(c, r, current, OrderNotReroutable) && !Applies(c, r, current, QuantityMismatch)
            && !Applies(c, r, current, IneligibleSupplier) && !Applies(c, r, current, InvalidPricing)
            && !Applies(c, r, current, MissingLimit) && !Applies(c, r, current, LimitExceeded)
  {
    hide Applies;
    if reason :| Applies(c, r, current, reason) {
      match reason {
        case StaleSourceEvidence =>
        case MissingRequiredScope =>
        case OrderMismatch =>
        case ProductionMismatch =>
        case OrderNotReroutable =>
        case QuantityMismatch =>
        case IneligibleSupplier =>
        case InvalidPricing =>
        case MissingLimit =>
        case LimitExceeded =>
      }
    }
  }

  lemma OutstandingIs(o: OrderEvidence, quantity: Quantity)
    ensures OutstandingOf(o) == Some(quantity) <==> Remains(o, quantity)
  {}

  lemma ValueReasons(c: Context, s: SupplierEvidence, quantity: Quantity)
    ensures var value := EstimatedValue(Some(s), quantity);
            (value.Some? && value.value.1 in c.limits && value.value.0 <= c.limits[value.value.1]) <==> Affords(c, s, quantity)
  {
    if s.price.Some? && s.price.value > 0 { Sign(quantity, s.price.value); }
  }

  lemma Sign(quantity: int, price: int)
    requires price > 0
    ensures quantity * price < 0 <==> quantity < 0
  {}

  // A shipment update settles the matter in three cases: it has no structure, which needs a person; it
  // says "on schedule" or "on track" with a date by the start of production, and nothing is to be done;
  // or it says so with a later date or none, which needs a person again.
  lemma ShipmentSettles(c: Context, lower: string -> string)
    ensures var fine := c.shipment.Update? && lower(Strip(c.shipment.status)) in {"on_schedule", "on_track"};
            var timely := c.shipment.Update? && c.shipment.expected.Some? && c.shipment.expected.value <= c.startDate;
            && (ShipmentOutcome(c, lower) == Some(NoAction) <==> fine && timely)
            && (ShipmentOutcome(c, lower) == Some(ManualReview) <==> c.shipment.Unstructured? || (fine && !timely))
            && (ShipmentOutcome(c, lower) == None <==> c.shipment.Update? && !fine)
  {}

  // ---- against the tables ----

  predicate OrderCurrent(db: Tables, c: Context) {
    && c.original.id in db.purchaseOrders
    && var o := db.purchaseOrders[c.original.id];
    o.part == c.part && c.original == OrderEvidence(c.original.id, Some(o.status), Some(o.ordered), Some(o.received), Some(o.supplier))
  }

  predicate SupplierCurrent(db: Tables, s: SupplierEvidence) {
    && s.id in db.suppliers
    && var row := db.suppliers[s.id];
    s.approved == row.approved && s.part == row.part && s.plant == row.plant && s.leadTime == Some(row.leadTimeDays)
  }

  // The rows are as the gate saw them.
  predicate RowsCurrent(db: Tables, c: Context) {
    && OrderCurrent(db, c)
    && c.production in db.productionOrders && db.productionOrders[c.production].part == c.part
    && db.productionOrders[c.production].startDate == c.startDate
    && forall i :: 0 <= i < |c.suppliers| ==> SupplierCurrent(db, c.suppliers[i])
  }

  lemma {:induction false} CandidateIs(c: Context, suppliers: seq<SupplierEvidence>, id: RowId)
    requires Candidate(c, suppliers, id).Some?
    ensures var s := Candidate(c, suppliers, id).value; s in suppliers && s.id == id && Eligible(c, s)
  {
    if !(suppliers[0].id == id && Eligible(c, suppliers[0])) { CandidateIs(c, suppliers[1..], id); }
  }

  // An accepted reroute over unchanged rows fails at its first tool exactly when order, supplier and
  // production are not all at one plant (the gate asks only for a plant the actor can see), or when
  // it runs too late for the supplier's lead time (the gate counts from the day of detection).
  lemma AcceptedRerouteCreates(db: Tables, c: Context, r: Reroute, current: map<string, int>, today: int)
    requires Accepted(c, r, current) && RowsCurrent(db, c)
    ensures r.original in db.purchaseOrders && r.supplier in db.suppliers && r.production in db.productionOrders
    ensures CreateEffect(db, r.original, r.supplier, r.production, r.quantity, today).Some? <==>
      && db.suppliers[r.supplier].plant == db.purchaseOrders[r.original].plant == db.productionOrders[r.production].plant
      && today + db.suppliers[r.supplier].leadTimeDays <= c.startDate
  {
    assert !Applies(c, r, current, IneligibleSupplier) && !Applies(c, r, current, OrderMismatch)
           && !Applies(c, r, current, ProductionMismatch);
    CandidateIs(c, c.suppliers, r.supplier);
    var s := Candidate(c, c.suppliers, r.supplier).value;
    var i :| 0 <= i < |c.suppliers| && c.suppliers[i] == s;
    assert SupplierCurrent(db, c.suppliers[i]);
  }

  // Its second tool then fails exactly for a PARTIAL order, which the gate counts as active and the
  // tool refuses. Such a reroute creates the replacement and always has to be compensated.
  lemma AcceptedRerouteReduces(db: Tables, c: Context, r: Reroute, current: map<string, int>, today: int)
    requires Accepted(c, r, current) && RowsCurrent(db, c) && c.original.id < db.nextId
    requires CreateEffect(db, r.original, r.supplier, r.production, r.quantity, today).Some?
    ensures r.original in db.purchaseOrders
    ensures var after := CreateEffect(db, r.original, r.supplier, r.production, r.quantity, today).value.0;
            ReduceEffect(after, r.original, r.quantity).Some? <==> db.purchaseOrders[r.original].status != Partial
  {
    assert !Applies(c, r, current, OrderNotReroutable) && !Applies(c, r, current, QuantityMismatch)
           && !Applies(c, r, current, OrderMismatch);
  }

  // ---- accepted reroutes that fail ----

  // An order for 10 with 4 received, and a supplier with a lead time of 3 days at some plant; the gate
  // looks on day 0, production starts on day 10. The actor sees two plants.
  function Example(status: PoStatus, plant: string): Context {
    Context("part", {"home", "other"}, 0, 10, 2, OrderEvidence(0, Some(status), Some(10), Some(4), Some(9)),
            [SupplierEvidence(1, true, "part", plant, Some(3), Some(1), Some("EUR"))], Update("delayed", None),
            REQUIRED, map["EUR" := 100], map["purchase_order:0" := 1])
  }

  function ExampleTables(status: PoStatus, plant: string): Tables {
    Tables(map[0 := PurchaseOrder("part", "home", 9, 10, 4, status, 1)],
           map[2 := ProductionOrder("part", "home", 10, 10, Scheduled, None)],
           map[1 := Supplier("part", plant, true, 3)], map[], map[], map[], map[], None, 3)
  }

  const SAME: string -> string := s => s

  const REROUTE := Reroute(0, 1, 2, 6)

  lemma ExampleIsAccepted(status: PoStatus, plant: string)
    requires status in {Open, Delayed, Partial} && plant in {"home", "other"}
    ensures Pending(Example(status, plant), REROUTE, Example(status, plant).sources, SAME)
    ensures RowsCurrent(ExampleTables(status, plant), Example(status, plant))
  {
    var c := Example(status, plant);
    assert Eligible(c, c.suppliers[0]) && Candidate(c, c.suppliers, 1) == Some(c.suppliers[0]);
    assert OutstandingOf(c.original) == Some(6);
    CleanIsStripped("delayed");
  }

  // The gate accepts a PARTIAL order: the replacement is created, and then the order is not closed.
  lemma PartialOrderFails()
    ensures var c, db := Example(Partial, "home"), ExampleTables(Partial, "home");
            && Pending(c, REROUTE, c.sources, SAME) && RowsCurrent(db, c)
            && CreateEffect(db, 0, 1, 2, 6, 0).Some? && ReduceEffect(CreateEffect(db, 0, 1, 2, 6, 0).value.0, 0, 6).None?
  {
    ExampleIsAccepted(Partial, "home");
  }

  // It accepts a supplier at another plant that the actor sees.
  lemma OtherPlantFails()
    ensures var c, db := Example(Open, "other"), ExampleTables(Open, "other");
            Pending(c, REROUTE, c.sources, SAME) && RowsCurrent(db, c) && CreateEffect(db, 0, 1, 2, 6, 0).None?
  {
    ExampleIsAccepted(Open, "other");
  }

  // And a supplier that was in time on the day of detection, but is not 8 days later.
  lemma LateRunFails()
    ensures var c, db := Example(Open, "home"), ExampleTables(Open, "home");
            && Pending(c, REROUTE, c.sources, SAME) && RowsCurrent(db, c)
            && CreateEffect(db, 0, 1, 2, 6, 7).Some? && CreateEffect(db, 0, 1, 2, 6, 8).None?
  {
    ExampleIsAccepted(Open, "home");
  }
}
