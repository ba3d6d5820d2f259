/** The lot ledger: a lot's allocated quantity is the sum of its allocation rows. Reallocation and
    its reverse keep it, the reverse is accepted exactly while the lot's version is the one the
    effect left, and then it puts back what was there. */
module LotLedger {
  import opened Records
  import opened Erp

  // ---- finite sums ----

  lemma {:induction false} SumChanges(f: RowId -> Quantity, g: RowId -> Quantity, n: nat, id: nat)
    requires forall k: nat :: k < n && k != id ==> f(k) == g(k)
    ensures Sum(g, n) == Sum(f, n) + if id < n then g(id) - f(id) else 0
  {
    if n > 0 { SumChanges(f, g, n - 1, id); }
  }

  lemma {:induction false} SumBounds(f: RowId -> Quantity, n: nat, id: nat)
    requires forall k: nat :: k < n ==> f(k) >= 0
    ensures Sum(f, n) >= if id < n then f(id) else 0
  {
    if n > 0 {
      SumBounds(f, n - 1, id);
      SumBounds(f, n - 1, n);
    }
  }

  type Allocations = map<RowId, Allocation>

  function RowTerm(rows: Allocations, lot: RowId): RowId -> Quantity {
    (id: RowId) => if id in rows && rows[id].lot == lot then rows[id].quantity else 0
  }

  function Total(rows: Allocations, lot: RowId, n: nat): Quantity { Sum(RowTerm(rows, lot), n) }

  lemma TotalChanges(a: Allocations, b: Allocations, lot: RowId, n: nat, id: nat)
    requires forall k :: k != id ==> (k in a <==> k in b) && (k in a ==> a[k] == b[k])
    ensures Total(b, lot, n) == Total(a, lot, n) + if id < n then RowTerm(b, lot)(id) - RowTerm(a, lot)(id) else 0
  {
    SumChanges(RowTerm(a, lot), RowTerm(b, lot), n, id);
  }

  // ---- the ledger invariant ----

  predicate LotOk(db: Tables, lot: RowId)
    requires lot in db.lots
  {
    lot < db.nextId && 0 <= db.lots[lot].inUse <= db.lots[lot].quantity
    && db.lots[lot].inUse == Total(db.allocations, lot, db.nextId)
  }

  predicate SamePair(a: Allocation, b: Allocation) { a.lot == b.lot && a.order == b.order }

  predicate RowsOk(rows: Allocations, lots: set<RowId>, n: nat) {
    forall id :: id in rows ==> id < n && rows[id].quantity >= 0 && rows[id].lot in lots
  }

  predicate PairsUnique(rows: Allocations) {
    forall a, b :: a in rows && b in rows && SamePair(rows[a], rows[b]) ==> a == b
  }

  predicate LedgerOk(db: Tables) {
    && (forall lot :: lot in db.lots ==> LotOk(db, lot))
    && RowsOk(db.allocations, db.lots.Keys, db.nextId)
    && PairsUnique(db.allocations)
  }

  lemma {:induction false} FindBelowFinds(rows: Allocations, lot: RowId, order: RowId, n: nat)
    ensures match FindBelow(rows, lot, order, n)
            case Some(id) => id < n && id in rows && rows[id].lot == lot && rows[id].order == order
            case None => forall id :: id in rows && id < n ==> !(rows[id].lot == lot && rows[id].order == order)
  {
    if n > 0 { FindBelowFinds(rows, lot, order, n - 1); }
  }

  // No row of a lot holds more than the lot's allocated quantity: the reallocation guard
  // `source_previous_quantity > previous_lot_allocation` never fires.
  lemma RowsFitTheirLot(db: Tables, id: RowId)
    requires LedgerOk(db) && id in db.allocations
    ensures db.allocations[id].lot in db.lots && db.allocations[id].quantity <= db.lots[db.allocations[id].lot].inUse
  {
    var lot := db.allocations[id].lot;
    assert LotOk(db, lot);
    SumBounds(RowTerm(db.allocations, lot), db.nextId, id);
  }

  // ---- reallocation ----

  // The source side: at most one row changes, and nothing is lost from or added to the lot unless
  // it comes from free stock.
  predicate TakenOk(db: Tables, lot: RowId, from: Option<RowId>, to: RowId, quantity: Quantity, taken: Taken)
    requires lot in db.lots
  {
    var l := db.lots[lot];
    match taken.source
    case None =>
      from.None? && taken.allocations == db.allocations && taken.inUse == l.inUse + quantity <= l.quantity && taken.order == Some(to)
    case Some(s) =>
      && from.Some? && taken.inUse == l.inUse && s.id in db.allocations
      && var row := db.allocations[s.id];
      row.lot == lot && row.order == from.value && row.quantity == s.previous >= quantity && row.version + 1 == s.version
      && taken.allocations == db.allocations[s.id := row.(quantity := s.previous - quantity, version := s.version)]
      && taken.order == if l.order == from && s.previous == quantity then Some(to) else l.order
  }

  lemma TakeIsOk(db: Tables, lot: RowId, from: Option<RowId>, to: RowId, quantity: Quantity)
    requires lot in db.lots && Take(db, lot, from, to, quantity).Some?
    ensures TakenOk(db, lot, from, to, quantity, Take(db, lot, from, to, quantity).value)
  {
    if from.Some? { FindBelowFinds(db.allocations, lot, from.value, db.nextId); }
  }

  // Under the invariant a source is refused only for being absent or too small.
  lemma TakeFromOrderRefusesOnly(db: Tables, lot: RowId, from: RowId, to: RowId, quantity: Quantity)
    requires LedgerOk(db) && lot in db.lots
    ensures TakeFromOrder(db, lot, from, to, quantity).Some? <==>
            exists id :: id in db.allocations && db.allocations[id].lot == lot && db.allocations[id].order == from
                      && db.allocations[id].quantity >= quantity
  {
    FindBelowFinds(db.allocations, lot, from, db.nextId);
    forall id | id in db.allocations && db.allocations[id].lot == lot && db.allocations[id].order == from
      ensures Find(db, lot, from) == Some(id) && db.allocations[id].quantity <= db.lots[lot].inUse
    {
      RowsFitTheirLot(db, id);
      var found := Find(db, lot, from).value;
      assert SamePair(db.allocations[id], db.allocations[found]);
    }
  }

  // Writing one row over a row of the same pair, or over none where no row has that pair.
  lemma PutKeepsRows(rows: Allocations, lots: set<RowId>, n: nat, id: RowId, row: Allocation)
    requires RowsOk(rows, lots, n) && PairsUnique(rows)
    requires id < n && row.quantity >= 0 && row.lot in lots
    requires if id in rows then SamePair(rows[id], row) else forall k :: k in rows ==> !SamePair(rows[k], row)
    ensures RowsOk(rows[id := row], lots, n) && PairsUnique(rows[id := row])
  {
    var put := rows[id := row];
    forall a, b | a in put && b in put && SamePair(put[a], put[b]) ensures a == b {
      if a in rows && b in rows { assert SamePair(rows[a], rows[b]); }
    }
  }

  lemma PutTotal(rows: Allocations, id: RowId, row: Allocation, lot: RowId, n: nat)
    requires id < n && (id in rows ==> rows[id].lot == row.lot)
    ensures Total(rows[id := row], lot, n) == Total(rows, lot, n)
      + if lot == row.lot then row.quantity - (if id in rows then rows[id].quantity else 0) else 0
  {
    TotalChanges(rows, rows[id := row], lot, n, id);
  }

  lemma TakenKeepsRows(db: Tables, lot: RowId, from: Option<RowId>, to: RowId, quantity: Quantity, taken: Taken, other: RowId)
    requires LedgerOk(db) && lot in db.lots && TakenOk(db, lot, from, to, quantity, taken)
    ensures RowsOk(taken.allocations, db.lots.Keys, db.nextId) && PairsUnique(taken.allocations)
    ensures Total(taken.allocations, other, db.nextId)
         == Total(db.allocations, other, db.nextId) - if other == lot && taken.source.Some? then quantity else 0
  {
    if taken.source.Some? {
      var id := taken.source.value.id;
      PutKeepsRows(db.allocations, db.lots.Keys, db.nextId, id, taken.allocations[id]);
      PutTotal(db.allocations, id, taken.allocations[id], other, db.nextId);
    }
  }

  lemma GivenRows(db: Tables, lot: RowId, to: RowId, quantity: Quantity, taken: Taken, other: RowId)
    requires lot in db.lots && quantity > 0
    requires RowsOk(taken.allocations, db.lots.Keys, db.nextId) && PairsUnique(taken.allocations)
    ensures var (after, _) := GiveToOrder(db, lot, to, quantity, taken);
            && RowsOk(after.allocations, db.lots.Keys, after.nextId) && PairsUnique(after.allocations)
            && Total(after.allocations, other, after.nextId)
               == Total(taken.allocations, other, db.nextId) + if other == lot then quantity else 0
  {
    var (after, r) := GiveToOrder(db, lot, to, quantity, taken);
    var row := after.allocations[r.destination];
    FindBelowFinds(taken.allocations, lot, to, db.nextId);
    assert RowsOk(taken.allocations, db.lots.Keys, after.nextId);
    PutKeepsRows(taken.allocations, db.lots.Keys, after.nextId, r.destination, row);
    PutTotal(taken.allocations, r.destination, row, other, after.nextId);
    if after.nextId == db.nextId + 1 {
      assert Total(taken.allocations, other, after.nextId)
          == Total(taken.allocations, other, db.nextId) + RowTerm(taken.allocations, other)(db.nextId);
    }
  }

  // A write to one lot that changes its total and its rows' total by the same amount.
  predicate LotWritten(db: Tables, after: Tables, lot: RowId, change: Quantity) {
    && lot in db.lots && lot in after.lots && after.nextId >= db.nextId
    && after.lots == db.lots[lot := after.lots[lot]]
    && after.lots[lot].quantity == db.lots[lot].quantity
    && after.lots[lot].inUse == db.lots[lot].inUse + change
    && 0 <= after.lots[lot].inUse <= after.lots[lot].quantity
  }

  lemma WrittenLotOk(db: Tables, after: Tables, lot: RowId, change: Quantity, other: RowId)
    requires LotWritten(db, after, lot, change) && (forall k :: k in db.lots ==> LotOk(db, k))
    requires Total(after.allocations, other, after.nextId)
          == Total(db.allocations, other, db.nextId) + if other == lot then change else 0
    ensures other in after.lots ==> LotOk(after, other)
  {
    if other in after.lots { assert LotOk(db, other); }
  }

  lemma GivenRowsTotal(db: Tables, lot: RowId, from: Option<RowId>, to: RowId, quantity: Quantity, taken: Taken, other: RowId)
    requires LedgerOk(db) && lot in db.lots && quantity > 0 && TakenOk(db, lot, from, to, quantity, taken)
    ensures var (after, _) := GiveToOrder(db, lot, to, quantity, taken);
            && RowsOk(after.allocations, db.lots.Keys, after.nextId) && PairsUnique(after.allocations)
            && Total(after.allocations, other, after.nextId)
               == Total(db.allocations, other, db.nextId) + if other == lot && from.None? then quantity else 0
  {
    TakenKeepsRows(db, lot, from, to, quantity, taken, other);
    GivenRows(db, lot, to, quantity, taken, other);
  }

  lemma ReallocationWrites(db: Tables, lot: RowId, from: Option<RowId>, to: RowId, quantity: Quantity, other: RowId)
    requires LedgerOk(db) && quantity > 0 && ReallocateEffect(db, lot, from, to, quantity).Some?
    ensures var after := ReallocateEffect(db, lot, from, to, quantity).value.0;
            var change := if from.None? then quantity else 0;
            && LotWritten(db, after, lot, change) && after.lots.Keys == db.lots.Keys
            && RowsOk(after.allocations, db.lots.Keys, after.nextId) && PairsUnique(after.allocations)
            && Total(after.allocations, other, after.nextId)
               == Total(db.allocations, other, db.nextId) + if other == lot then change else 0
  {
    hide PairsUnique, RowsOk, Total;
    assert LotOk(db, lot);
    TakeIsOk(db, lot, from, to, quantity);
    GivenRowsTotal(db, lot, from, to, quantity, Take(db, lot, from, to, quantity).value, other);
  }

  lemma ReallocationKeepsLedger(db: Tables, lot: RowId, from: Option<RowId>, to: RowId, quantity: Quantity)
    requires LedgerOk(db) && quantity > 0
    ensures match ReallocateEffect(db, lot, from, to, quantity)
            case Some((after, _)) => LedgerOk(after)
            case None => true
  {
    hide PairsUnique, RowsOk, Total, ReallocateEffect;
    if ReallocateEffect(db, lot, from, to, quantity).Some? {
      var after := ReallocateEffect(db, lot, from, to, quantity).value.0;
      ReallocationWrites(db, lot, from, to, quantity, lot);
      forall other ensures other in after.lots ==> LotOk(after, other) {
        ReallocationWrites(db, lot, from, to, quantity, other);
        WrittenLotOk(db, after, lot, if from.None? then quantity else 0, other);
      }
    }
  }
}
