/** The stockout evaluation read off the evidence alone: when evidence is refused, and exactly which
    findings it leads to, with every figure in them. */
module StockoutExact {
  import opened Records
  import opened Stockout

  // ---- inventory ----

  predicate NamesPart(e: Evidence, part: string) { e.InventoryRecord? && e.part == Some(part) }

  predicate Known(q: Option<Quantity>) { match q case Some(v) => 0 <= v case None => false }

  predicate BadInventory(e: Evidence) { e.InventoryRecord? && (e.part == None || !Known(e.available) || !Known(e.safety)) }

  predicate Twice(evidence: seq<Evidence>, i: int, j: int) {
    0 <= i < j < |evidence| && evidence[j].InventoryRecord? && evidence[j].part.Some? && NamesPart(evidence[i], evidence[j].part.value)
  }

  ghost predicate InventoryRefused(evidence: seq<Evidence>) {
    (exists i :: 0 <= i < |evidence| && BadInventory(evidence[i])) || exists i, j :: Twice(evidence, i, j)
  }

  predicate RowOf(table: map<string, Inventory>, e: Evidence, part: string) {
    && part in table && e.InventoryRecord? && Known(e.available) && Known(e.safety)
    && table[part].available == e.available.value && table[part].safety == e.safety.value
    && table[part].id == e.id && table[part].version == e.version
  }

  // A part is in the table exactly if a record names it, with what that record says.
  ghost predicate TableOf(evidence: seq<Evidence>, table: map<string, Inventory>) {
    && (forall part :: part in table ==> exists i :: 0 <= i < |evidence| && NamesPart(evidence[i], part))
    && (forall i, part :: 0 <= i < |evidence| && NamesPart(evidence[i], part) ==> RowOf(table, evidence[i], part))
  }

  lemma RefusedByFrontOrLast(evidence: seq<Evidence>)
    requires evidence != []
    ensures var front, last := evidence[..|evidence| - 1], |evidence| - 1;
            InventoryRefused(evidence) <==>
            InventoryRefused(front) || BadInventory(evidence[last]) || exists i :: 0 <= i < last && Twice(evidence, i, last)
  {
    var front, last := evidence[..|evidence| - 1], |evidence| - 1;
    if InventoryRefused(front) {
      if i :| 0 <= i < |front| && BadInventory(front[i]) {
        assert BadInventory(evidence[i]);
      } else {
        var i, j :| Twice(front, i, j);
        assert Twice(evidence, i, j);
      }
    }
    if InventoryRefused(evidence) {
      if i :| 0 <= i < |evidence| && BadInventory(evidence[i]) {
        if i < last { assert BadInventory(front[i]); }
      } else {
        var i, j :| Twice(evidence, i, j);
        if j < last { assert Twice(front, i, j); }
      }
    }
  }

  // The table is refused exactly if a record cannot be read or two name one part.
  lemma {:induction false} InventoryIs(evidence: seq<Evidence>)
    ensures Inventories(evidence).None? <==> InventoryRefused(evidence)
    ensures Inventories(evidence).Some? ==> TableOf(evidence, Inventories(evidence).value)
  {
    if evidence != [] {
      var front, last := evidence[..|evidence| - 1], |evidence| - 1;
      InventoryIs(front);
      RefusedByFrontOrLast(evidence);
      hide InventoryRefused;
      if Inventories(front).Some? && evidence[last].InventoryRecord? && evidence[last].part.Some? {
        LastIsSecond(evidence);
      }
      if Inventories(evidence).Some? { TableIs(evidence); }
    }
  }

  lemma LastIsSecond(evidence: seq<Evidence>)
    requires evidence != [] && evidence[|evidence| - 1].InventoryRecord? && evidence[|evidence| - 1].part.Some?
    ensures var last := |evidence| - 1; var part := evidence[last].part.value;
            (exists i :: 0 <= i < last && Twice(evidence, i, last))
            <==> exists i :: 0 <= i < |evidence[..last]| && NamesPart(evidence[..last][i], part)
  {
    var last := |evidence| - 1;
    var part := evidence[last].part.value;
    assert NamesPart(evidence[last], part);
    if i :| 0 <= i < |evidence[..last]| && NamesPart(evidence[..last][i], part) { assert Twice(evidence, i, last); }
    if i :| 0 <= i < last && Twice(evidence, i, last) { assert NamesPart(evidence[..last][i], part); }
  }

  lemma TableIs(evidence: seq<Evidence>)
    requires evidence != [] && Inventories(evidence).Some? && Inventories(evidence[..|evidence| - 1]).Some?
    requires TableOf(evidence[..|evidence| - 1], Inventories(evidence[..|evidence| - 1]).value)
    ensures TableOf(evidence, Inventories(evidence).value)
  {
    hide *;
    LastIsRead(evidence);
    TableGrows(evidence, Inventories(evidence[..|evidence| - 1]).value, Inventories(evidence).value);
  }

  // Reading one more record adds the row of the part that it names, if it is an inventory record.
  predicate ReadsOn(e: Evidence, before: map<string, Inventory>, table: map<string, Inventory>) {
    if !e.InventoryRecord? then table == before
    else
      InventoryReads(e) && e.part.value !in before && table.Keys == before.Keys + {e.part.value} && RowOf(table, e, e.part.value)
      && forall part :: part in before ==> table[part] == before[part]
  }

  lemma LastIsRead(evidence: seq<Evidence>)
    requires evidence != [] && Inventories(evidence).Some? && Inventories(evidence[..|evidence| - 1]).Some?
    ensures ReadsOn(evidence[|evidence| - 1], Inventories(evidence[..|evidence| - 1]).value, Inventories(evidence).value)
  {}

  lemma TableGrows(evidence: seq<Evidence>, before: map<string, Inventory>, table: map<string, Inventory>)
    requires evidence != [] && TableOf(evidence[..|evidence| - 1], before) && ReadsOn(evidence[|evidence| - 1], before, table)
    ensures TableOf(evidence, table)
  {
    var front, last := evidence[..|evidence| - 1], |evidence| - 1;
    forall part | part in table ensures exists i :: 0 <= i < |evidence| && NamesPart(evidence[i], part) {
      if part in before {
        var i :| 0 <= i < |front| && NamesPart(front[i], part);
        assert NamesPart(evidence[i], part);
      } else {
        assert NamesPart(evidence[last], part);
      }
    }
    forall i, part | 0 <= i < |evidence| && NamesPart(evidence[i], part) ensures RowOf(table, evidence[i], part) {
      if i < last { assert NamesPart(front[i], part) && RowOf(before, front[i], part); }
    }
  }

  // ---- committed orders ----

  // A committed order for the part that has not started: scheduled or in progress, from today on.
  predicate Counts(e: Evidence, today: int, lower: string -> string) {
    e.OrderRecord? && e.status.Some? && lower(e.status.value) in {"scheduled", "in_progress"} && e.start.Some? && today <= e.start.value
  }

  // It lacks a status or a date, or it counts and lacks a part or a quantity.
  predicate BadOrder(e: Evidence, today: int, lower: string -> string) {
    e.OrderRecord? && (e.status == None || e.start == None || (Counts(e, today, lower) && (e.part == None || !Known(e.required))))
  }

  lemma {:induction false} OrdersRefusedIff(evidence: seq<Evidence>, today: int, lower: string -> string)
    ensures Demands(evidence, today, lower).None? <==> exists i :: 0 <= i < |evidence| && BadOrder(evidence[i], today, lower)
  {
    if evidence != [] {
      var front, last := evidence[..|evidence| - 1], |evidence| - 1;
      OrdersRefusedIff(front, today, lower);
      if i :| 0 <= i < |front| && BadOrder(front[i], today, lower) { assert BadOrder(evidence[i], today, lower); }
      if i :| 0 <= i < |evidence| && BadOrder(evidence[i], today, lower) {
        if i < last { assert BadOrder(front[i], today, lower); }
      }
      if BadOrder(evidence[last], today, lower) { assert exists i :: 0 <= i < |evidence| && BadOrder(evidence[i], today, lower); }
    }
  }

  // Evidence is refused exactly if some record of it is.
  lemma EvaluationRefusedIff(evidence: seq<Evidence>, today: int, lower: string -> string)
    ensures Evaluation(evidence, today, lower).None? <==>
            InventoryRefused(evidence) || exists i :: 0 <= i < |evidence| && BadOrder(evidence[i], today, lower)
  {
    InventoryIs(evidence);
    OrdersRefusedIff(evidence, today, lower);
    hide InventoryRefused, BadOrder;
  }

  predicate CountsFor(e: Evidence, today: int, part: string, start: int, lower: string -> string) {
    Counts(e, today, lower) && e.part == Some(part) && e.required.Some? && e.start.value <= start
  }

  // What the orders of the evidence require of a part by a date.
  function Required(evidence: seq<Evidence>, today: int, part: string, start: int, lower: string -> string): Quantity {
    if evidence == [] then 0
    else
      var e := evidence[|evidence| - 1];
      Required(evidence[..|evidence| - 1], today, part, start, lower)
      + if CountsFor(e, today, part, start, lower) then e.required.value else 0
  }

  lemma {:induction false} InsertAdds(d: Demand, s: seq<Demand>, start: int)
    ensures CommittedBy(Insert(d, s), start) == CommittedBy(s, start) + if d.start <= start then d.required else 0
  {
    if s != [] && Earlier(d, s[|s| - 1]) {
      InsertAdds(d, s[..|s| - 1], start);
      assert Insert(d, s)[..|Insert(d, s)| - 1] == Insert(d, s[..|s| - 1]);
    } else {
      assert (s + [d])[..|s + [d]| - 1] == s;
    }
  }

  lemma {:induction false} SortKeepsSum(s: seq<Demand>, start: int)
    ensures CommittedBy(Sort(s), start) == CommittedBy(s, start)
  {
    if s != [] {
      SortKeepsSum(s[..|s| - 1], start);
      InsertAdds(s[|s| - 1], Sort(s[..|s| - 1]), start);
    }
  }

  lemma {:induction false} ListedIsRequired(evidence: seq<Evidence>, today: int, part: string, start: int, lower: string -> string)
    requires Demands(evidence, today, lower).Some?
    ensures var demands := Demands(evidence, today, lower).value.demands;
            Required(evidence, today, part, start, lower) == if part in demands then CommittedBy(demands[part], start) else 0
  {
    if evidence != [] {
      var front, e := evidence[..|evidence| - 1], evidence[|evidence| - 1];
      ListedIsRequired(front, today, part, start, lower);
      var before, after := Demands(front, today, lower).value.demands, Demands(evidence, today, lower).value.demands;
      assert Current(e, today, lower) <==> Counts(e, today, lower);
      if Counts(e, today, lower) && e.part == Some(part) {
        var d := DemandOf(e);
        var list := if part in before then before[part] else [];
        assert after[part] == list + [d] && (list + [d])[..|list + [d]| - 1] == list;
      }
    }
  }

  // ---- findings ----

  // Finding r: order record j needs more, with all that is due no later, than inventory record i can give.
  predicate Finds(evidence: seq<Evidence>, today: int, i: nat, j: nat, r: Risk, lower: string -> string) {
    && i < |evidence| && j < |evidence| && NamesPart(evidence[i], r.part) && Counts(evidence[j], today, lower)
    && evidence[j].part == Some(r.part) && Known(evidence[i].available) && Known(evidence[i].safety)
    && r.inventory == evidence[i].id && r.inventoryVersion == evidence[i].version
    && r.order == evidence[j].id && r.start == evidence[j].start.value
    && r.committed == Required(evidence, today, r.part, r.start, lower)
    && r.projected == evidence[i].available.value - evidence[i].safety.value - r.committed
    && r.shortfall == -r.projected > 0
  }

  // Every finding is one of an inventory record and a committed order of its part.
  lemma FindingsAreReal(evidence: seq<Evidence>, today: int, r: Risk, lower: string -> string) returns (i: nat, j: nat)
    requires Evaluation(evidence, today, lower).Some? && r in Evaluation(evidence, today, lower).value
    ensures Finds(evidence, today, i, j, r, lower)
  {
    var table, demands := Inventories(evidence).value, Demands(evidence, today, lower).value.demands;
    EvaluationFinds(evidence, today, r, lower);
    i := RecordBehind(evidence, r.part);
    var inv, sorted := table[r.part], Sort(demands[r.part]);
    RisksCarryPart(r.part, inv, sorted, sorted, r);
    ShortIfListed(r.part, inv, sorted, sorted, r);
    var k :| 0 <= k < |sorted| && r == RiskOf(r.part, inv, sorted, sorted[k]);
    j := SourceOf(evidence, today, r.part, sorted[k], lower);
    SortKeepsSum(demands[r.part], r.start);
    ListedIsRequired(evidence, today, r.part, r.start, lower);
    hide Inventories, Demands, Sort, CommittedBy, Required, RisksOf, Sources, InventoryRefused;
  }

  lemma RecordBehind(evidence: seq<Evidence>, part: string) returns (i: nat)
    requires Inventories(evidence).Some? && part in Inventories(evidence).value
    ensures i < |evidence| && NamesPart(evidence[i], part) && RowOf(Inventories(evidence).value, evidence[i], part)
  {
    InventoryIs(evidence);
    hide Inventories, RowOf;
    i :| 0 <= i < |evidence| && NamesPart(evidence[i], part);
  }

  // The order record behind a demand.
  lemma SourceOf(evidence: seq<Evidence>, today: int, part: string, d: Demand, lower: string -> string) returns (j: nat)
    requires Demands(evidence, today, lower).Some? && part in Demands(evidence, today, lower).value.demands
    requires d in Sort(Demands(evidence, today, lower).value.demands[part])
    ensures j < |evidence| && Counts(evidence[j], today, lower) && evidence[j].part == Some(part)
            && evidence[j].id == d.id && evidence[j].start.value == d.start
  {
    var listed := Demands(evidence, today, lower).value.demands[part];
    SortSorts(listed);
    assert d in multiset(Sort(listed));
    assert d in multiset(listed);
    DemandsCollect(evidence, today, part, d, lower);
    j :| 0 <= j < |evidence| && Gives(evidence[j], today, part, d, lower);
  }

  lemma {:induction false} ShortIfListed(part: string, inv: Inventory, demands: seq<Demand>, targets: seq<Demand>, r: Risk)
    requires r in RisksOf(part, inv, demands, targets)
    ensures r.shortfall > 0
  {
    hide Sources, CommittedBy;
    if r in RisksOf(part, inv, demands, targets[..|targets| - 1]) { ShortIfListed(part, inv, demands, targets[..|targets| - 1], r); }
  }

  // And every such pair is found.
  lemma ShortagesAreFound(evidence: seq<Evidence>, today: int, part: string, i: nat, j: nat, lower: string -> string) returns (r: Risk)
    requires Evaluation(evidence, today, lower).Some?
    requires i < |evidence| && NamesPart(evidence[i], part) && Known(evidence[i].available) && Known(evidence[i].safety)
    requires j < |evidence| && Counts(evidence[j], today, lower) && evidence[j].part == Some(part)
    requires evidence[i].available.value - evidence[i].safety.value < Required(evidence, today, part, evidence[j].start.value, lower)
    ensures r.part == part && r in Evaluation(evidence, today, lower).value && Finds(evidence, today, i, j, r, lower)
  {
    var table, demands := Inventories(evidence).value, Demands(evidence, today, lower).value.demands;
    RowIs(evidence, i, part);
    var d := DemandBehind(evidence, today, part, j, lower);
    var inv, sorted := table[part], Sort(demands[part]);
    SortKeepsSum(demands[part], d.start);
    ListedIsRequired(evidence, today, part, d.start, lower);
    r := RiskOf(part, inv, sorted, d);
    hide Inventories, Demands, Sort, CommittedBy, Required, RisksOf, Sources, InventoryRefused;
    ListedIfShort(part, inv, sorted, sorted, d);
    EvaluationFinds(evidence, today, r, lower);
  }

  lemma RowIs(evidence: seq<Evidence>, i: nat, part: string)
    requires Inventories(evidence).Some? && i < |evidence| && NamesPart(evidence[i], part)
    ensures RowOf(Inventories(evidence).value, evidence[i], part)
  {
    InventoryIs(evidence);
    hide Inventories, RowOf;
  }

  // The demand that an order record gives.
  lemma DemandBehind(evidence: seq<Evidence>, today: int, part: string, j: nat, lower: string -> string) returns (d: Demand)
    requires Demands(evidence, today, lower).Some? && j < |evidence| && Counts(evidence[j], today, lower) && evidence[j].part == Some(part)
    ensures part in Demands(evidence, today, lower).value.demands && d in Sort(Demands(evidence, today, lower).value.demands[part])
    ensures d.id == evidence[j].id && d.start == evidence[j].start.value
  {
    OrdersRead(evidence, today, j, lower);
    d := DemandOf(evidence[j]);
    assert Gives(evidence[j], today, part, d, lower);
    DemandsCollect(evidence, today, part, d, lower);
    var listed := Demands(evidence, today, lower).value.demands[part];
    SortSorts(listed);
    hide Demands;
    assert d in multiset(listed);
    assert d in multiset(Sort(listed));
  }

  lemma {:induction false} ListedIfShort(part: string, inv: Inventory, demands: seq<Demand>, targets: seq<Demand>, d: Demand)
    requires d in targets && Shortfall(inv, demands, d.start) > 0
    ensures RiskOf(part, inv, demands, d) in RisksOf(part, inv, demands, targets)
  {
    hide RiskOf, Shortfall;
    var front := targets[..|targets| - 1];
    if d in front { ListedIfShort(part, inv, demands, front, d); }
  }
}
