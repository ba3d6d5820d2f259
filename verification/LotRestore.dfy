/** The reverse of a reallocation: when it is accepted, what it leaves, and why the version columns
    fence it against every write in between. */
module LotRestore {
  import opened Records
  import opened Erp
  import opened LotLedger

  // The lot as reallocation `r` left it.
  predicate AsLeft(db: Tables, r: ToolResult)
    requires r.LotReallocated?
  {
    && r.quantity > 0 && r.destinationPrevious >= 0
    && r.lot in db.lots && db.lots[r.lot].version == r.lotVersion
    && db.lots[r.lot].inUse == (if r.source.Some? then r.previousInUse else r.previousInUse + r.quantity)
    && r.destination in db.allocations
    && db.allocations[r.destination] == Allocation(r.lot, r.to, r.destinationPrevious + r.quantity, r.destinationVersion)
    && (r.source.Some? ==> SourceAsLeft(db.allocations, r))
  }

  predicate SourceAsLeft(rows: Allocations, r: ToolResult)
    requires r.LotReallocated? && r.source.Some?
  {
    var s := r.source.value;
    && s.id in rows && s.id != r.destination && rows[s.id].lot == r.lot && rows[s.id].order != r.to
    && rows[s.id].quantity == s.previous - r.quantity >= 0 && rows[s.id].version == s.version
  }

  // Either the lot is as the effect left it, or its version has moved on for good.
  predicate Fenced(db: Tables, r: ToolResult)
    requires r.LotReallocated?
  {
    r.lot in db.lots && r.lotVersion <= db.lots[r.lot].version && (db.lots[r.lot].version == r.lotVersion ==> AsLeft(db, r))
  }

  lemma ReallocationIsFenced(db: Tables, lot: RowId, from: Option<RowId>, to: RowId, quantity: Quantity)
    requires LedgerOk(db) && quantity > 0 && from != Some(to) && ReallocateEffect(db, lot, from, to, quantity).Some?
    ensures var (after, r) := ReallocateEffect(db, lot, from, to, quantity).value;
            r.LotReallocated? && r.lot == lot && r.to == to && AsLeft(after, r)
  {
    hide PairsUnique, Total;
    TakeIsOk(db, lot, from, to, quantity);
    var taken := Take(db, lot, from, to, quantity).value;
    FindBelowFinds(taken.allocations, lot, to, db.nextId);
    TakenKeepsRows(db, lot, from, to, quantity, taken, lot);
  }

  // A fenced reallocation can be reversed exactly until the next write to its lot.
  lemma RestoreAcceptedIff(db: Tables, r: ToolResult)
    requires r.LotReallocated? && Fenced(db, r)
    ensures RestoreAllocation(db, r).Some? <==> db.lots[r.lot].version == r.lotVersion
  {}

  // ---- what each order holds of a lot ----

  predicate HasPair(rows: Allocations, id: RowId, lot: RowId, order: RowId) {
    id in rows && rows[id].lot == lot && rows[id].order == order
  }

  lemma HeldIs(db: Tables, lot: RowId, order: RowId)
    requires RowsOk(db.allocations, db.lots.Keys, db.nextId) && PairsUnique(db.allocations)
    ensures forall id :: HasPair(db.allocations, id, lot, order) ==> HeldFor(db, lot, order) == db.allocations[id].quantity
    ensures (forall id :: id in db.allocations ==> !HasPair(db.allocations, id, lot, order)) ==> HeldFor(db, lot, order) == 0
  {
    FindBelowFinds(db.allocations, lot, order, db.nextId);
    forall id | HasPair(db.allocations, id, lot, order) ensures Find(db, lot, order) == Some(id) {
      var found := Find(db, lot, order).value;
      assert SamePair(db.allocations[id], db.allocations[found]);
    }
  }

  // Two tables in which the rows of this pair agree hold the same for it.
  lemma HeldAgrees(a: Tables, b: Tables, lot: RowId, order: RowId)
    requires RowsOk(a.allocations, a.lots.Keys, a.nextId) && PairsUnique(a.allocations)
    requires RowsOk(b.allocations, b.lots.Keys, b.nextId) && PairsUnique(b.allocations)
    requires forall id :: HasPair(a.allocations, id, lot, order) ==> id in b.allocations && b.allocations[id] == a.allocations[id]
    requires forall id :: HasPair(b.allocations, id, lot, order) ==> id in a.allocations && b.allocations[id] == a.allocations[id]
    ensures HeldFor(a, lot, order) == HeldFor(b, lot, order)
  {
    HeldIs(a, lot, order);
    HeldIs(b, lot, order);
    if id :| HasPair(a.allocations, id, lot, order) { assert HasPair(b.allocations, id, lot, order); }
  }

  // What a reallocation does to the rows, read off its result.
  predicate RowsMoved(rows: Allocations, after: Allocations, from: Option<RowId>, r: ToolResult)
    requires r.LotReallocated?
  {
    && (from.Some? <==> r.source.Some?)
    && (if r.destination in rows then HasPair(rows, r.destination, r.lot, r.to) && rows[r.destination].quantity == r.destinationPrevious
                                      && rows[r.destination].version + 1 == r.destinationVersion
        else r.destinationPrevious == 0 && r.destinationVersion == 1 && forall id :: id in rows ==> !HasPair(rows, id, r.lot, r.to))
    && r.destination in after
    && after[r.destination] == Allocation(r.lot, r.to, r.destinationPrevious + r.quantity, r.destinationVersion)
    && (forall id :: id in rows ==> id in after && (IsSource(r, id) || id == r.destination || after[id] == rows[id]))
    && (forall id :: id in after ==> id in rows || id == r.destination)
    && (r.source.Some? ==>
          && var s := r.source.value;
          s.id != r.destination && HasPair(rows, s.id, r.lot, from.value) && rows[s.id].quantity == s.previous
          && HasPair(after, s.id, r.lot, from.value) && after[s.id].quantity == s.previous - r.quantity)
  }

  predicate IsSource(r: ToolResult, id: RowId)
    requires r.LotReallocated?
  {
    r.source.Some? && r.source.value.id == id
  }

  lemma GiveMovesRows(db: Tables, lot: RowId, from: Option<RowId>, to: RowId, quantity: Quantity, taken: Taken)
    requires lot in db.lots && from != Some(to) && TakenOk(db, lot, from, to, quantity, taken)
    requires forall id :: id in db.allocations ==> id < db.nextId
    ensures var (after, r) := GiveToOrder(db, lot, to, quantity, taken);
            r.LotReallocated? && RowsMoved(db.allocations, after.allocations, from, r)
  {
    FindBelowFinds(taken.allocations, lot, to, db.nextId);
    forall id | HasPair(db.allocations, id, lot, to) ensures HasPair(taken.allocations, id, lot, to) {}
  }

  lemma ReallocationMovesRows(db: Tables, lot: RowId, from: Option<RowId>, to: RowId, quantity: Quantity)
    requires LedgerOk(db) && quantity > 0 && from != Some(to) && ReallocateEffect(db, lot, from, to, quantity).Some?
    ensures var (after, r) := ReallocateEffect(db, lot, from, to, quantity).value;
            && r.LotReallocated? && r.lot == lot && r.to == to && r.quantity == quantity && lot in db.lots
            && r.previousInUse == db.lots[lot].inUse && r.previousLotOrder == db.lots[lot].order
            && lot in after.lots && after.lots == db.lots[lot := after.lots[lot]]
            && after.lots[lot].version == r.lotVersion == db.lots[lot].version + 1
            && after.lots[lot].order == (if from.None? || (db.lots[lot].order == from && r.source.Some? && r.source.value.previous == quantity)
                                         then Some(to) else db.lots[lot].order)
            && RowsMoved(db.allocations, after.allocations, from, r)
  {
    hide Total, PairsUnique, RowsMoved;
    TakeIsOk(db, lot, from, to, quantity);
    GiveMovesRows(db, lot, from, to, quantity, Take(db, lot, from, to, quantity).value);
  }

  // A reallocation moves exactly `quantity` to its target: from free stock, or from the source order.
  // The lot is then bound to the target if its free stock was used, or if it was bound to a source
  // order that has none left of it.
  lemma ReallocationMoves(db: Tables, lot: RowId, from: Option<RowId>, to: RowId, quantity: Quantity, order: RowId)
    requires LedgerOk(db) && quantity > 0 && from != Some(to) && ReallocateEffect(db, lot, from, to, quantity).Some?
    ensures var (after, r) := ReallocateEffect(db, lot, from, to, quantity).value;
            && r.LotReallocated?
            && r.destinationPrevious == HeldFor(db, lot, to)
            && (from.Some? ==> r.source.Some? && r.source.value.previous == HeldFor(db, lot, from.value))
            && HeldFor(after, lot, order) == HeldFor(db, lot, order)
               + (if order == to then quantity else 0) - (if from == Some(order) then quantity else 0)
            && lot in after.lots && lot in db.lots
            && after.lots[lot].order == (if from.None? || (db.lots[lot].order == from && HeldFor(db, lot, from.value) == quantity)
                                         then Some(to) else db.lots[lot].order)
  {
    hide Total, ReallocateEffect, PairsUnique, RowsOk, HeldFor;
    ReallocationKeepsLedger(db, lot, from, to, quantity);
    ReallocationMovesRows(db, lot, from, to, quantity);
    var (after, r) := ReallocateEffect(db, lot, from, to, quantity).value;
    HeldIs(db, lot, to);
    HeldIs(after, lot, to);
    assert HasPair(after.allocations, r.destination, lot, to);
    if from.Some? {
      HeldIs(db, lot, from.value);
      HeldIs(after, lot, from.value);
    }
    if order != to && from != Some(order) { HeldAgrees(db, after, lot, order); }
  }

  // ---- the reverse ----

  predicate RowsRestored(rows: Allocations, after: Allocations, r: ToolResult)
    requires r.LotReallocated?
  {
    && (forall id :: id in after ==>
          id in rows && SamePair(after[id], rows[id]) && (IsSource(r, id) || id == r.destination || after[id] == rows[id]))
    && (forall id :: id in rows && id != r.destination ==> id in after)
    && (r.destination in after <==> r.destinationPrevious != 0)
    && (r.destination in after ==>
          after[r.destination].quantity == r.destinationPrevious && after[r.destination].version == r.destinationVersion + 1)
    && (r.source.Some? ==>
          && var s := r.source.value;
          s.id in after && after[s.id].quantity == s.previous && after[s.id].version == s.version + 1)
  }

  lemma RestoreRowsIs(rows: Allocations, r: ToolResult, lots: set<RowId>, n: nat)
    requires r.LotReallocated? && r.quantity > 0 && r.destinationPrevious >= 0 && r.destination in rows
    requires rows[r.destination].quantity == r.destinationPrevious + r.quantity && rows[r.destination].version == r.destinationVersion
    requires r.source.Some? ==> SourceAsLeft(rows, r)
    requires RowsOk(rows, lots, n) && PairsUnique(rows)
    ensures RestoreRows(rows, r).Some?
    ensures var after := RestoreRows(rows, r).value;
            RowsRestored(rows, after, r) && RowsOk(after, lots, n) && PairsUnique(after)
  {
    var after := RestoreRows(rows, r).value;
    assert RowsRestored(rows, after, r);
    forall a, b | a in after && b in after && SamePair(after[a], after[b]) ensures a == b { OnePair(rows, a, b); }
  }

  lemma RestoreWrites(db: Tables, r: ToolResult)
    requires r.LotReallocated? && AsLeft(db, r) && RowsOk(db.allocations, db.lots.Keys, db.nextId) && PairsUnique(db.allocations)
    ensures RestoreAllocation(db, r).Some?
    ensures var after := RestoreAllocation(db, r).value.0;
            && after == db.(allocations := after.allocations, lots := after.lots)
            && after.lots == db.lots[r.lot := db.lots[r.lot].(inUse := r.previousInUse, order := r.previousLotOrder, version := r.lotVersion + 1)]
            && RowsRestored(db.allocations, after.allocations, r)
            && RowsOk(after.allocations, db.lots.Keys, db.nextId) && PairsUnique(after.allocations)
  {
    hide PairsUnique, RowsRestored, RowsOk, RestoreRows;
    RestoreRowsIs(db.allocations, r, db.lots.Keys, db.nextId);
  }

  lemma RestoredTotal(rows: Allocations, after: Allocations, r: ToolResult, lot: RowId, n: nat)
    requires r.LotReallocated? && RowsRestored(rows, after, r) && r.destination < n && r.destination in rows
    requires rows[r.destination].lot == r.lot && rows[r.destination].quantity == r.destinationPrevious + r.quantity
    requires r.source.Some? ==> SourceAsLeft(rows, r) && r.source.value.id < n
    ensures Total(after, lot, n) == Total(rows, lot, n) - if lot == r.lot && r.source.None? then r.quantity else 0
  {
    if r.source.None? {
      TotalChanges(rows, after, lot, n, r.destination);
    } else {
      var mid := rows[r.source.value.id := after[r.source.value.id]];
      TotalChanges(rows, mid, lot, n, r.source.value.id);
      TotalChanges(mid, after, lot, n, r.destination);
    }
  }

  lemma RestoreKeepsLedger(db: Tables, r: ToolResult)
    requires r.LotReallocated? && LedgerOk(db) && AsLeft(db, r)
    ensures RestoreAllocation(db, r).Some? && LedgerOk(RestoreAllocation(db, r).value.0)
  {
    hide PairsUnique, Total, RestoreAllocation;
    RestoreWrites(db, r);
    var after := RestoreAllocation(db, r).value.0;
    var change := if r.source.None? then -r.quantity else 0;
    assert LotOk(db, r.lot);
    RowsFitTheirLot(db, r.destination);
    assert LotWritten(db, after, r.lot, change);
    forall other ensures other in after.lots ==> LotOk(after, other) {
      RestoredTotal(db.allocations, after.allocations, r, other, db.nextId);
      WrittenLotOk(db, after, r.lot, change, other);
    }
    assert after.lots.Keys == db.lots.Keys;
  }

  lemma RestoreMoves(db: Tables, r: ToolResult, order: RowId)
    requires r.LotReallocated? && LedgerOk(db) && AsLeft(db, r)
    ensures RestoreAllocation(db, r).Some?
    ensures HeldFor(RestoreAllocation(db, r).value.0, r.lot, order) ==
            if order == r.to then r.destinationPrevious
            else if r.source.Some? && HasPair(db.allocations, r.source.value.id, r.lot, order) then r.source.value.previous
            else HeldFor(db, r.lot, order)
  {
    hide PairsUnique, Total, RestoreAllocation, HeldFor;
    RestoreWrites(db, r);
    var after := RestoreAllocation(db, r).value.0;
    HeldIs(after, r.lot, order);
    if order == r.to {
      HeldIs(db, r.lot, order);
      if r.destination in after.allocations { assert HasPair(after.allocations, r.destination, r.lot, order); }
      else {
        forall id | id in after.allocations ensures !HasPair(after.allocations, id, r.lot, order) {
          if HasPair(after.allocations, id, r.lot, order) { OnePair(db.allocations, id, r.destination); }
        }
      }
    } else if r.source.Some? && HasPair(db.allocations, r.source.value.id, r.lot, order) {
      assert HasPair(after.allocations, r.source.value.id, r.lot, order);
    } else {
      HeldAgrees(db, after, r.lot, order);
    }
  }

  lemma OnePair(rows: Allocations, a: RowId, b: RowId)
    requires PairsUnique(rows) && a in rows && b in rows && SamePair(rows[a], rows[b])
    ensures a == b
  {}
}
