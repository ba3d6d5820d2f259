/** Shortages against the lot ledger: what cover an order really has, how a reallocation shifts it
    between orders, and when a coverage check made beforehand stands up at execution. */
module Shortages {
  import opened Records
  import opened Erp
  import opened LotLedger
  import opened LotRestore

  // ---- cover is released stock less what other orders hold ----

  function OthersTerm(rows: Allocations, lot: RowId, order: RowId): RowId -> Quantity {
    (id: RowId) => if id in rows && rows[id].lot == lot && rows[id].order != order then rows[id].quantity else 0
  }

  function HeldByOthers(db: Tables, lot: RowId, order: RowId): Quantity {
    Sum(OthersTerm(db.allocations, lot, order), db.nextId)
  }

  function HeldBelow(rows: Allocations, lot: RowId, order: RowId, n: nat): Quantity {
    match FindBelow(rows, lot, order, n)
    case Some(id) => if id in rows then rows[id].quantity else 0
    case None => 0
  }

  lemma PairIsOnly(rows: Allocations, lot: RowId, order: RowId)
    requires PairsUnique(rows)
    ensures forall a, b :: HasPair(rows, a, lot, order) && HasPair(rows, b, lot, order) ==> a == b
  {
    forall a, b | HasPair(rows, a, lot, order) && HasPair(rows, b, lot, order) ensures a == b {
      OnePair(rows, a, b);
    }
  }

  lemma {:induction false} TotalSplits(rows: Allocations, lot: RowId, order: RowId, n: nat)
    requires PairsUnique(rows)
    ensures Total(rows, lot, n) == Sum(OthersTerm(rows, lot, order), n) + HeldBelow(rows, lot, order, n)
  {
    if n > 0 {
      TotalSplits(rows, lot, order, n - 1);
      FindBelowFinds(rows, lot, order, n - 1);
      PairIsOnly(rows, lot, order);
    }
  }

  predicate Offers(db: Tables, lot: RowId, part: string, plant: string) {
    lot in db.lots && db.lots[lot].part == part && db.lots[lot].plant == plant && db.lots[lot].status == Released
  }

  function UnheldTerm(db: Tables, part: string, plant: string, order: RowId): RowId -> Quantity {
    (lot: RowId) => if Offers(db, lot, part, plant) then db.lots[lot].quantity - HeldByOthers(db, lot, order) else 0
  }

  lemma {:induction false} SumsAgree(f: RowId -> Quantity, g: RowId -> Quantity, n: nat)
    requires forall k: nat :: k < n ==> f(k) == g(k)
    ensures Sum(f, n) == Sum(g, n)
  {
    if n > 0 { SumsAgree(f, g, n - 1); }
  }

  lemma {:induction false} SumIsNatural(f: RowId -> Quantity, n: nat)
    requires forall k: nat :: k < n ==> f(k) >= 0
    ensures Sum(f, n) >= 0
  {
    if n > 0 { SumIsNatural(f, n - 1); }
  }

  lemma UnheldIs(db: Tables, lot: RowId, part: string, plant: string, order: RowId)
    requires LedgerOk(db)
    ensures CoverTerm(db, part, plant, order)(lot) == UnheldTerm(db, part, plant, order)(lot)
    ensures lot in db.lots ==> 0 <= HeldByOthers(db, lot, order) <= db.lots[lot].inUse
  {
    if lot in db.lots {
      assert LotOk(db, lot);
      TotalSplits(db.allocations, lot, order, db.nextId);
      SumIsNatural(OthersTerm(db.allocations, lot, order), db.nextId);
      FindBelowFinds(db.allocations, lot, order, db.nextId);
    }
  }

  // The shortage query adds free stock and the order's own holding per lot. By the ledger that is
  // the released quantity less every other order's rows, and it is never negative: a shortage never
  // exceeds what the order requires.
  lemma CoverIsUnheldStock(db: Tables, part: string, plant: string, order: RowId)
    requires LedgerOk(db)
    ensures Cover(db, part, plant, order) == Sum(UnheldTerm(db, part, plant, order), db.nextId)
    ensures Cover(db, part, plant, order) >= 0
  {
    hide LedgerOk, HeldByOthers, CoverTerm;
    forall lot: nat | lot < db.nextId
      ensures CoverTerm(db, part, plant, order)(lot) == UnheldTerm(db, part, plant, order)(lot) >= 0
    {
      UnheldIs(db, lot, part, plant, order);
      if lot in db.lots { LotFits(db, lot); }
    }
    SumsAgree(CoverTerm(db, part, plant, order), UnheldTerm(db, part, plant, order), db.nextId);
    SumIsNatural(UnheldTerm(db, part, plant, order), db.nextId);
  }

  lemma LotFits(db: Tables, lot: RowId)
    requires LedgerOk(db) && lot in db.lots
    ensures db.lots[lot].inUse <= db.lots[lot].quantity && lot < db.nextId
  {
    assert LotOk(db, lot);
  }

  // ---- a reallocation shifts exactly its quantity ----

  // What order `order` loses of the lot's cover.
  function Loss(from: Option<RowId>, to: RowId, quantity: Quantity, order: RowId): Quantity {
    (if from.None? || from == Some(order) then quantity else 0) - (if order == to then quantity else 0)
  }

  lemma OtherLotsOffer(db: Tables, lot: RowId, from: Option<RowId>, to: RowId, quantity: Quantity,
                       part: string, plant: string, order: RowId, k: RowId)
    requires LedgerOk(db) && quantity > 0 && from != Some(to) && ReallocateEffect(db, lot, from, to, quantity).Some?
    requires k != lot
    ensures var after := ReallocateEffect(db, lot, from, to, quantity).value.0;
            CoverTerm(after, part, plant, order)(k) == CoverTerm(db, part, plant, order)(k)
  {
    hide Total, ReallocateEffect, PairsUnique, RowsOk, HeldFor;
    var after := ReallocateEffect(db, lot, from, to, quantity).value.0;
    ReallocationKeepsLedger(db, lot, from, to, quantity);
    ReallocationMovesRows(db, lot, from, to, quantity);
    HeldAgrees(db, after, k, order);
  }

  lemma LotOffers(db: Tables, lot: RowId, from: Option<RowId>, to: RowId, quantity: Quantity,
                  part: string, plant: string, order: RowId)
    requires LedgerOk(db) && quantity > 0 && from != Some(to) && ReallocateEffect(db, lot, from, to, quantity).Some?
    ensures lot in db.lots && lot < db.nextId
    ensures var after := ReallocateEffect(db, lot, from, to, quantity).value.0;
            CoverTerm(after, part, plant, order)(lot) == CoverTerm(db, part, plant, order)(lot)
              - if db.lots[lot].part == part && db.lots[lot].plant == plant then Loss(from, to, quantity, order) else 0
  {
    hide LedgerOk, HeldFor;
    var after := ReallocateEffect(db, lot, from, to, quantity).value.0;
    ReallocationMoves(db, lot, from, to, quantity, order);
    LotColumns(db, lot, from, to, quantity);
    LotFits(db, lot);
  }

  lemma LotColumns(db: Tables, lot: RowId, from: Option<RowId>, to: RowId, quantity: Quantity)
    requires LedgerOk(db) && quantity > 0 && from != Some(to) && ReallocateEffect(db, lot, from, to, quantity).Some?
    ensures lot in db.lots && db.lots[lot].status == Released
    ensures var after := ReallocateEffect(db, lot, from, to, quantity).value.0;
            && lot in after.lots && after.nextId >= db.nextId && after.productionOrders == db.productionOrders
            && after.lots.Keys == db.lots.Keys
            && db.lots[lot] == after.lots[lot].(inUse := db.lots[lot].inUse, order := db.lots[lot].order, version := db.lots[lot].version)
            && after.lots[lot].inUse == db.lots[lot].inUse + if from.None? then quantity else 0
  {
    hide LedgerOk;
    TakeIsOk(db, lot, from, to, quantity);
  }

  lemma LotsBelow(db: Tables)
    requires LedgerOk(db)
    ensures forall lot :: lot in db.lots ==> lot < db.nextId
  {
    forall lot | lot in db.lots ensures lot < db.nextId { LotFits(db, lot); }
  }

  lemma {:induction false} NothingBeyond(db: Tables, part: string, plant: string, order: RowId, n: nat)
    requires LedgerOk(db) && n >= db.nextId
    ensures Sum(CoverTerm(db, part, plant, order), n) == Cover(db, part, plant, order)
  {
    if n > db.nextId {
      NothingBeyond(db, part, plant, order, n - 1);
      LotsBelow(db);
    }
  }

  // Stock taken from the free part of a lot is lost to every order but the target; stock taken from
  // an order is lost to that order and gained by the target. Nobody else's shortage moves.
  lemma ReallocationShiftsShortage(db: Tables, lot: RowId, from: Option<RowId>, to: RowId, quantity: Quantity, order: RowId)
    requires LedgerOk(db) && quantity > 0 && from != Some(to) && ReallocateEffect(db, lot, from, to, quantity).Some?
    requires order in db.productionOrders
    ensures lot in db.lots
    ensures var (after, _) := ReallocateEffect(db, lot, from, to, quantity).value;
            var p, l := db.productionOrders[order], db.lots[lot];
            && order in after.productionOrders
            && Shortage(after, order) == Shortage(db, order)
               + if p.part == l.part && p.plant == l.plant then Loss(from, to, quantity, order) else 0
  {
    hide LedgerOk, CoverTerm, Sum, ReallocateEffect;
    var after := ReallocateEffect(db, lot, from, to, quantity).value.0;
    var p := db.productionOrders[order];
    var f, g := CoverTerm(db, p.part, p.plant, order), CoverTerm(after, p.part, p.plant, order);
    forall k: nat | k < after.nextId && k != lot ensures f(k) == g(k) {
      OtherLotsOffer(db, lot, from, to, quantity, p.part, p.plant, order, k);
    }
    LotColumns(db, lot, from, to, quantity);
    LotOffers(db, lot, from, to, quantity, p.part, p.plant, order);
    SumChanges(f, g, after.nextId, lot);
    NothingBeyond(db, p.part, p.plant, order, after.nextId);
  }

  // For the target itself: free stock leaves its shortage where it was, another order's stock
  // lowers it by exactly the quantity, which a source of the same part and plant gains.
  lemma TargetAndSourceShortage(db: Tables, lot: RowId, from: Option<RowId>, to: RowId, quantity: Quantity)
    requires LedgerOk(db) && quantity > 0 && from != Some(to) && ReallocateEffect(db, lot, from, to, quantity).Some?
    ensures to in db.productionOrders && lot in db.lots
    ensures var (after, _) := ReallocateEffect(db, lot, from, to, quantity).value;
            && to in after.productionOrders
            && Shortage(after, to) == Shortage(db, to) - (if from.Some? then quantity else 0)
            && (from.Some? && from.value in db.productionOrders
                && db.productionOrders[from.value].part == db.lots[lot].part
                && db.productionOrders[from.value].plant == db.lots[lot].plant ==>
                  && from.value in after.productionOrders
                  && Shortage(after, from.value) + Shortage(after, to) == Shortage(db, from.value) + Shortage(db, to)
                  && Shortage(after, from.value) == Shortage(db, from.value) + quantity)
  {
    hide LedgerOk, Shortage, Take, GiveToOrder;
    ReallocationShiftsShortage(db, lot, from, to, quantity, to);
    if from.Some? && from.value in db.productionOrders {
      ReallocationShiftsShortage(db, lot, from, to, quantity, from.value);
    }
  }

  // ---- the coverage check made when the plan was proposed ----

  // One payload entry. Malformed stands for text that is no finite decimal.
  datatype Field = Absent | Null | Malformed | Number(value: Quantity)

  function DecimalPayload(field: Field, default: Option<Quantity>): Option<Quantity> {
    match field
    case Absent => if default.Some? && default.value >= 0 then default else None
    case Number(q) => if q >= 0 then Some(q) else None
    case _ => None
  }

  datatype LotEvidence = LotEvidence(id: RowId, quantity: Field, inUse: Field)

  datatype Coverage = Coverage(alternatives: seq<LotEvidence>, impact: RowId, heldQuantity: Field)

  predicate CoverageAccepted(c: Coverage, lot: RowId, to: RowId, quantity: Quantity) {
    && |c.alternatives| == 1
    && var e := c.alternatives[0];
    && e.id == lot && to == c.impact
    && var required := DecimalPayload(c.heldQuantity, None);
    var size := DecimalPayload(e.quantity, None);
    var inUse := DecimalPayload(e.inUse, Some(0));
    required.Some? && size.Some? && inUse.Some? && size.value - inUse.value >= required.value && quantity == required.value
  }

  // The evidence row is the lot row as it is now; a missing allocated quantity reads as zero.
  predicate EvidenceCurrent(db: Tables, e: LotEvidence) {
    && e.id in db.lots && db.lots[e.id].status == Released
    && e.quantity == Number(db.lots[e.id].quantity)
    && (e.inUse == Number(db.lots[e.id].inUse) || e.inUse == Absent)
  }

  predicate TargetFits(db: Tables, lot: RowId, to: RowId) {
    && lot in db.lots && to in db.productionOrders && Runnable(db.productionOrders[to])
    && db.productionOrders[to].part == db.lots[lot].part && db.productionOrders[to].plant == db.lots[lot].plant
  }

  // An accepted coverage check over a row that has not changed decides the capacity question for
  // good: without a source order, execution rejects only an unfit target, or stock that the evidence
  // did not mention. With a source order the check says nothing; the source's own holding decides.
  lemma AcceptedCoverageStands(db: Tables, c: Coverage, lot: RowId, from: Option<RowId>, to: RowId, quantity: Quantity)
    requires LedgerOk(db) && quantity > 0
    requires CoverageAccepted(c, lot, to, quantity) && EvidenceCurrent(db, c.alternatives[0])
    ensures var e := c.alternatives[0];
            ReallocateEffect(db, lot, from, to, quantity).Some? <==>
              && TargetFits(db, lot, to)
              && (from.None? ==> e.inUse.Number? || db.lots[lot].quantity - db.lots[lot].inUse >= quantity)
              && (from.Some? ==> HeldFor(db, lot, from.value) >= quantity)
  {
    assert LotOk(db, lot);
    if from.Some? {
      TakeFromOrderRefusesOnly(db, lot, from.value, to, quantity);
      HeldIs(db, lot, from.value);
      if HeldFor(db, lot, from.value) >= quantity {
        assert exists id :: HasPair(db.allocations, id, lot, from.value);
      }
    }
  }

  // The same check refuses what execution would refuse: for well-formed evidence of a single
  // released lot it accepts exactly a full-cover transfer of free stock.
  lemma CoverageAcceptsExactly(db: Tables, e: LotEvidence, impact: RowId, held: Quantity, lot: RowId, to: RowId, quantity: Quantity)
    requires LedgerOk(db) && EvidenceCurrent(db, e) && e.inUse.Number? && held >= 0
    ensures CoverageAccepted(Coverage([e], impact, Number(held)), lot, to, quantity) <==>
            lot == e.id && to == impact && quantity == held && TakeFromLot(db, e.id, to, quantity).Some?
  {
    assert LotOk(db, e.id);
  }

  // One lot, the transfer's own, with figures that may lack only the quantity in use, which is then
  // zero; and enough free stock.
  predicate Offered(c: Coverage, lot: RowId, quantity: Quantity, size: Quantity, inUse: Quantity) {
    && 0 <= inUse <= size - quantity
    && (c.alternatives == [LotEvidence(lot, Number(size), Number(inUse))]
        || (inUse == 0 && c.alternatives == [LotEvidence(lot, Number(size), Absent)]))
  }

  // And whatever the evidence looks like: it accepts exactly an offered lot for the whole of what the held
  // order has.
  lemma CoverageAcceptedIff(c: Coverage, lot: RowId, to: RowId, quantity: Quantity)
    ensures CoverageAccepted(c, lot, to, quantity) <==>
            to == c.impact && c.heldQuantity == Number(quantity) && quantity >= 0
            && exists size, inUse :: Offered(c, lot, quantity, size, inUse)
  {
    if CoverageAccepted(c, lot, to, quantity) {
      var e := c.alternatives[0];
      assert c.alternatives == [LotEvidence(lot, Number(e.quantity.value), e.inUse)];
      assert Offered(c, lot, quantity, e.quantity.value, if e.inUse.Number? then e.inUse.value else 0);
    }
  }

  // Such a transfer: the check finds 10 free of a lot, and the source order named holds none of it.
  lemma SourceOrderIsNotChecked()
    ensures var l := Lot("part", "plant", 10, Released, None, 0, 1);
            var db := Tables(map[], map[1 := ProductionOrder("part", "plant", 10, 5, Scheduled, None)], map[], map[0 := l],
                             map[], map[], map[], None, 3);
            var c := Coverage([LotEvidence(0, Number(10), Number(0))], 1, Number(10));
            && LedgerOk(db) && CoverageAccepted(c, 0, 1, 10) && EvidenceCurrent(db, c.alternatives[0])
            && ReallocateEffect(db, 0, Some(2), 1, 10).None? && ReallocateEffect(db, 0, None, 1, 10).Some?
  {
    var rows: Allocations := map[];
    assert Total(rows, 0, 0) == 0 && Total(rows, 0, 1) == 0 && Total(rows, 0, 2) == 0 && Total(rows, 0, 3) == 0;
    assert FindBelow(rows, 0, 2, 0) == None && FindBelow(rows, 0, 2, 1) == None && FindBelow(rows, 0, 2, 2) == None
           && FindBelow(rows, 0, 2, 3) == None;
  }
}
