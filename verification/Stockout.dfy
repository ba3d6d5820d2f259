/** Stockout detection: which committed production orders a part's inventory cannot cover, and the
    evidence that each finding is bound to. */
module Stockout {
  import opened Records
  import Canonical

  // None stands for a payload field that is missing, malformed or negative: its reader raises.
  datatype Evidence =
    | InventoryRecord(id: string, version: nat, part: Option<string>, available: Option<Quantity>, safety: Option<Quantity>)
    | OrderRecord(id: string, version: nat, status: Option<string>, start: Option<int>, part: Option<string>,
                  required: Option<Quantity>)
    | OtherRecord

  datatype Inventory = Inventory(id: string, version: nat, available: Quantity, safety: Quantity)

  datatype Demand = Demand(id: string, version: nat, required: Quantity, start: int)

  datatype Risk = Risk(part: string, order: string, inventory: string, start: int, committed: Quantity,
                       projected: Quantity, shortfall: Quantity, inventoryVersion: nat, sources: map<string, nat>)

  // ---- reading the evidence ----

  predicate Readable(q: Option<Quantity>) { q.Some? && q.value >= 0 }

  predicate InventoryReads(e: Evidence) {
    e.InventoryRecord? && e.part.Some? && Readable(e.available) && Readable(e.safety)
  }

  // None: a record cannot be read, or a part has two inventory records.
  function Inventories(evidence: seq<Evidence>): Option<map<string, Inventory>> {
    if evidence == [] then Some(map[])
    else
      var before, e := Inventories(evidence[..|evidence| - 1]), evidence[|evidence| - 1];
      if before.None? || !e.InventoryRecord? then before
      else if !InventoryReads(e) || e.part.value in before.value then None
      else Some(before.value[e.part.value := Inventory(e.id, e.version, e.available.value, e.safety.value)])
  }

  // status.lower(), whatever alphabet it is in: `lower` is any function.
  predicate Committed(status: string, lower: string -> string) { lower(status) == "in_progress" || lower(status) == "scheduled" }

  // A committed order that has not started yet.
  predicate Current(e: Evidence, today: int, lower: string -> string) {
    e.OrderRecord? && e.status.Some? && e.start.Some? && Committed(e.status.value, lower) && e.start.value >= today
  }

  predicate OrderReads(e: Evidence, today: int, lower: string -> string) {
    e.OrderRecord? && e.status.Some? && e.start.Some? && (Current(e, today, lower) ==> e.part.Some? && Readable(e.required))
  }

  // A dictionary of lists: its keys in insertion order, and the lists.
  datatype Grouped = Grouped(parts: seq<string>, demands: map<string, seq<Demand>>)

  function Group(g: Grouped, part: string, d: Demand): Grouped {
    if part in g.demands then g.(demands := g.demands[part := g.demands[part] + [d]])
    else Grouped(g.parts + [part], g.demands[part := [d]])
  }

  function Demands(evidence: seq<Evidence>, today: int, lower: string -> string): Option<Grouped> {
    if evidence == [] then Some(Grouped([], map[]))
    else
      var before, e := Demands(evidence[..|evidence| - 1], today, lower), evidence[|evidence| - 1];
      if before.None? || !e.OrderRecord? then before
      else if !OrderReads(e, today, lower) then None
      else if !Current(e, today, lower) then before
      else Some(Group(before.value, e.part.value, Demand(e.id, e.version, e.required.value, e.start.value)))
  }

  // ---- sorting by (start date, record id) ----

  predicate Earlier(a: Demand, b: Demand) { a.start < b.start || (a.start == b.start && Canonical.Less(a.id, b.id)) }

  function Insert(d: Demand, s: seq<Demand>): seq<Demand> {
    if s != [] && Earlier(d, s[|s| - 1]) then Insert(d, s[..|s| - 1]) + [s[|s| - 1]] else s + [d]
  }

  function Sort(s: seq<Demand>): seq<Demand> {
    if s == [] then [] else Insert(s[|s| - 1], Sort(s[..|s| - 1]))
  }

  predicate InOrder(s: seq<Demand>) { forall i, j :: 0 <= i < j < |s| ==> !Earlier(s[j], s[i]) }

  lemma {:induction false} InsertHas(d: Demand, s: seq<Demand>)
    ensures multiset(Insert(d, s)) == multiset(s) + multiset{d}
  {
    if s != [] {
      assert s == s[..|s| - 1] + [s[|s| - 1]];
      if Earlier(d, s[|s| - 1]) { InsertHas(d, s[..|s| - 1]); }
    }
  }

  lemma NotEarlier(a: Demand, b: Demand, c: Demand)
    requires !Earlier(b, a) && !Earlier(c, b)
    ensures !Earlier(c, a)
  {
    Canonical.LessIsTotal(a.id, b.id);
    Canonical.LessIsTotal(b.id, c.id);
    if a.id != b.id && b.id != c.id && a.start == b.start == c.start { Canonical.LessIsTransitive(a.id, b.id, c.id); }
    Canonical.LessIsTotal(a.id, c.id);
  }

  lemma EarlierIsOneWay(a: Demand, b: Demand)
    requires Earlier(a, b)
    ensures !Earlier(b, a)
  {
    Canonical.LessIsTotal(a.id, b.id);
  }

  lemma {:induction false} InsertKeepsOrder(d: Demand, s: seq<Demand>)
    requires InOrder(s)
    ensures InOrder(Insert(d, s))
  {
    if s != [] && Earlier(d, s[|s| - 1]) {
      var front, last := s[..|s| - 1], s[|s| - 1];
      InsertKeepsOrder(d, front);
      InsertHas(d, front);
      EarlierIsOneWay(d, last);
      var rest := Insert(d, front);
      forall i | 0 <= i < |rest| ensures !Earlier(last, rest[i]) {
        assert rest[i] in multiset(rest);
        if rest[i] != d {
          assert rest[i] in multiset(front);
          var k :| 0 <= k < |front| && front[k] == rest[i];
          assert s[k] == rest[i];
        }
      }
    } else if s != [] {
      forall i | 0 <= i < |s| ensures !Earlier(d, s[i]) {
        if i < |s| - 1 { NotEarlier(s[i], s[|s| - 1], d); }
      }
    }
  }

  lemma {:induction false} SortSorts(s: seq<Demand>)
    ensures InOrder(Sort(s)) && multiset(Sort(s)) == multiset(s)
  {
    if s != [] {
      assert s == s[..|s| - 1] + [s[|s| - 1]];
      SortSorts(s[..|s| - 1]);
      InsertHas(s[|s| - 1], Sort(s[..|s| - 1]));
      InsertKeepsOrder(s[|s| - 1], Sort(s[..|s| - 1]));
    }
  }

  // ---- the calculation ----

  // The sum written per target: every demand of the part that starts no later.
  function CommittedBy(demands: seq<Demand>, start: int): Quantity {
    if demands == [] then 0
    else
      var d := demands[|demands| - 1];
      CommittedBy(demands[..|demands| - 1], start) + if d.start <= start then d.required else 0
  }

  function OrderKey(id: string): string { "production_order:" + id }

  function InventoryKey(id: string): string { "inventory:" + id }

  // The inventory record and the orders summed, each with its version.
  function Sources(inv: Inventory, demands: seq<Demand>, start: int): map<string, nat> {
    if demands == [] then map[InventoryKey(inv.id) := inv.version]
    else
      var rest, d := Sources(inv, demands[..|demands| - 1], start), demands[|demands| - 1];
      if d.start <= start then rest[OrderKey(d.id) := d.version] else rest
  }

  function Projected(inv: Inventory, demands: seq<Demand>, start: int): Quantity {
    inv.available - inv.safety - CommittedBy(demands, start)
  }

  function Shortfall(inv: Inventory, demands: seq<Demand>, start: int): Quantity {
    if Projected(inv, demands, start) < 0 then -Projected(inv, demands, start) else 0
  }

  function RiskOf(part: string, inv: Inventory, demands: seq<Demand>, target: Demand): Risk {
    Risk(part, target.id, inv.id, target.start, CommittedBy(demands, target.start), Projected(inv, demands, target.start),
         Shortfall(inv, demands, target.start), inv.version, Sources(inv, demands, target.start))
  }

  function RisksOf(part: string, inv: Inventory, demands: seq<Demand>, targets: seq<Demand>): seq<Risk> {
    if targets == [] then []
    else
      var rest, target := RisksOf(part, inv, demands, targets[..|targets| - 1]), targets[|targets| - 1];
      if Shortfall(inv, demands, target.start) <= 0 then rest else rest + [RiskOf(part, inv, demands, target)]
  }

  function PartRisks(inventories: map<string, Inventory>, demands: map<string, seq<Demand>>, parts: seq<string>): seq<Risk> {
    if parts == [] then []
    else
      var rest, part := PartRisks(inventories, demands, parts[..|parts| - 1]), parts[|parts| - 1];
      if part !in inventories || part !in demands then rest
      else rest + RisksOf(part, inventories[part], Sort(demands[part]), Sort(demands[part]))
  }

  // None stands for the ValueError that rejects the evidence.
  function Evaluation(evidence: seq<Evidence>, today: int, lower: string -> string): Option<seq<Risk>> {
    var inventories, grouped := Inventories(evidence), Demands(evidence, today, lower);
    if inventories.None? || grouped.None? then None
    else Some(PartRisks(inventories.value, grouped.value.demands, grouped.value.parts))
  }

  // ---- the loops ----

  lemma {:induction false} InventoriesFail(evidence: seq<Evidence>, n: nat)
    requires n <= |evidence| && Inventories(evidence[..n]).None?
    ensures Inventories(evidence).None?
  {
    if n < |evidence| {
      assert evidence[..|evidence| - 1][..n] == evidence[..n];
      InventoriesFail(evidence[..|evidence| - 1], n);
    } else {
      assert evidence[..n] == evidence;
    }
  }

  method InventoryByPart(evidence: seq<Evidence>) returns (inventories: Option<map<string, Inventory>>)
    ensures inventories == Inventories(evidence)
  {
    var found: map<string, Inventory> := map[];
    var n := 0;
    while n < |evidence|
      invariant 0 <= n <= |evidence|
      invariant Inventories(evidence[..n]) == Some(found)
    {
      var e := evidence[n];
      assert evidence[..n + 1][..n] == evidence[..n];
      if e.InventoryRecord? {
        if !InventoryReads(e) || e.part.value in found {
          InventoriesFail(evidence, n + 1);
          return None;
        }
        found := found[e.part.value := Inventory(e.id, e.version, e.available.value, e.safety.value)];
      }
      n := n + 1;
    }
    assert evidence[..n] == evidence;
    inventories := Some(found);
  }

  lemma {:induction false} DemandsFail(evidence: seq<Evidence>, today: int, n: nat, lower: string -> string)
    requires n <= |evidence| && Demands(evidence[..n], today, lower).None?
    ensures Demands(evidence, today, lower).None?
  {
    if n < |evidence| {
      assert evidence[..|evidence| - 1][..n] == evidence[..n];
      DemandsFail(evidence[..|evidence| - 1], today, n, lower);
    } else {
      assert evidence[..n] == evidence;
    }
  }

  method CommittedDemandsByPart(evidence: seq<Evidence>, today: int, lower: string -> string) returns (grouped: Option<Grouped>)
    ensures grouped == Demands(evidence, today, lower)
  {
    var g := Grouped([], map[]);
    var n := 0;
    while n < |evidence|
      invariant 0 <= n <= |evidence|
      invariant Demands(evidence[..n], today, lower) == Some(g)
    {
      var e := evidence[n];
      assert evidence[..n + 1][..n] == evidence[..n];
      if e.OrderRecord? {
        if !OrderReads(e, today, lower) {
          DemandsFail(evidence, today, n + 1, lower);
          return None;
        }
        if Current(e, today, lower) {
          g := Group(g, e.part.value, Demand(e.id, e.version, e.required.value, e.start.value));
        }
      }
      n := n + 1;
    }
    assert evidence[..n] == evidence;
    grouped := Some(g);
  }

  // The inner loop: one pass over the demands for each target.
  method Assess(part: string, inv: Inventory, demands: seq<Demand>, target: Demand) returns (risk: Option<Risk>)
    ensures risk == if Shortfall(inv, demands, target.start) <= 0 then None else Some(RiskOf(part, inv, demands, target))
  {
    var committed, sources := 0, map[InventoryKey(inv.id) := inv.version];
    var n := 0;
    while n < |demands|
      invariant 0 <= n <= |demands|
      invariant committed == CommittedBy(demands[..n], target.start)
      invariant sources == Sources(inv, demands[..n], target.start)
    {
      assert demands[..n + 1][..n] == demands[..n];
      if demands[n].start <= target.start {
        committed := committed + demands[n].required;
        sources := sources[OrderKey(demands[n].id) := demands[n].version];
      }
      n := n + 1;
    }
    assert demands[..n] == demands;
    var projected := inv.available - inv.safety - committed;
    var shortfall := if projected < 0 then -projected else 0;
    if shortfall <= 0 { return None; }
    risk := Some(Risk(part, target.id, inv.id, target.start, committed, projected, shortfall, inv.version, sources));
  }

  method Evaluate(evidence: seq<Evidence>, today: int, lower: string -> string) returns (risks: Option<seq<Risk>>)
    ensures risks == Evaluation(evidence, today, lower)
  {
    hide Inventories, Demands, Sort, RiskOf, Shortfall, CommittedBy, Sources;
    var inventories := InventoryByPart(evidence);
    if inventories.None? { return None; }
    var grouped := CommittedDemandsByPart(evidence, today, lower);
    if grouped.None? { return None; }
    var parts := grouped.value.parts;
    var found: seq<Risk> := [];
    var p := 0;
    while p < |parts|
      invariant 0 <= p <= |parts|
      invariant found == PartRisks(inventories.value, grouped.value.demands, parts[..p])
    {
      assert parts[..p + 1][..p] == parts[..p];
      if parts[p] in inventories.value && parts[p] in grouped.value.demands {
        var demands := Sort(grouped.value.demands[parts[p]]);
        var inv := inventories.value[parts[p]];
        ghost var before := found;
        var t := 0;
        while t < |demands|
          invariant 0 <= t <= |demands|
          invariant found == before + RisksOf(parts[p], inv, demands, demands[..t])
        {
          assert demands[..t + 1][..t] == demands[..t];
          var risk := Assess(parts[p], inv, demands, demands[t]);
          if risk.Some? { found := found + [risk.value]; }
          t := t + 1;
        }
        assert demands[..t] == demands;
      }
      p := p + 1;
    }
    assert parts[..p] == parts;
    risks := Some(found);
  }

  // ---- what the calculation means ----

  predicate ByStart(demands: seq<Demand>) { forall i, j :: 0 <= i < j < |demands| ==> demands[i].start <= demands[j].start }

  predicate NonNegative(demands: seq<Demand>) { forall i :: 0 <= i < |demands| ==> demands[i].required >= 0 }

  function Prefix(demands: seq<Demand>): Quantity {
    if demands == [] then 0 else Prefix(demands[..|demands| - 1]) + demands[|demands| - 1].required
  }

  // How many demands, in order, start no later.
  function Reach(demands: seq<Demand>, start: int): (n: nat)
    ensures n <= |demands|
  {
    if demands == [] then 0 else Reach(demands[..|demands| - 1], start) + if demands[|demands| - 1].start <= start then 1 else 0
  }

  function RunningSum(demands: seq<Demand>, start: int): Quantity { Prefix(demands[..Reach(demands, start)]) }

  // Over demands in date order the sum per target is one running sum, cut after the last tie.
  lemma {:induction false} SumIsPrefix(demands: seq<Demand>, start: int)
    requires ByStart(demands)
    ensures forall i :: 0 <= i < |demands| ==> (i < Reach(demands, start) <==> demands[i].start <= start)
    ensures CommittedBy(demands, start) == RunningSum(demands, start)
  {
    if demands != [] {
      var front := demands[..|demands| - 1];
      SumIsPrefix(front, start);
      if demands[|demands| - 1].start <= start {
        forall i | 0 <= i < |front| ensures front[i].start <= start { assert demands[i] == front[i]; }
        assert Reach(front, start) == |front| && front[..|front|] == front;
        assert demands[..|demands|] == demands;
      } else {
        assert demands[..Reach(front, start)] == front[..Reach(front, start)];
      }
    }
  }

  lemma {:induction false} CommittedGrows(demands: seq<Demand>, a: int, b: int)
    requires NonNegative(demands) && a <= b
    ensures CommittedBy(demands, a) <= CommittedBy(demands, b)
  {
    if demands != [] { CommittedGrows(demands[..|demands| - 1], a, b); }
  }

  // A later target is short by at least as much; a tie is short by the same.
  lemma ShortfallGrows(inv: Inventory, demands: seq<Demand>, i: nat, j: nat)
    requires ByStart(demands) && NonNegative(demands) && i <= j < |demands|
    ensures Shortfall(inv, demands, demands[i].start) <= Shortfall(inv, demands, demands[j].start)
    ensures demands[i].start == demands[j].start ==>
              Shortfall(inv, demands, demands[i].start) == Shortfall(inv, demands, demands[j].start)
  {
    CommittedGrows(demands, demands[i].start, demands[j].start);
  }

  // The orders at risk are those from some position on, in order.
  lemma {:induction false} RisksAreSuffix(part: string, inv: Inventory, demands: seq<Demand>, n: nat) returns (k: nat)
    requires ByStart(demands) && NonNegative(demands) && n <= |demands|
    ensures k <= n
    ensures forall i :: 0 <= i < n ==> (Shortfall(inv, demands, demands[i].start) > 0 <==> i >= k)
    ensures var risks := RisksOf(part, inv, demands, demands[..n]);
            |risks| == n - k && forall i :: 0 <= i < n - k ==> risks[i] == RiskOf(part, inv, demands, demands[k + i])
  {
    k := 0;
    if n > 0 {
      k := RisksAreSuffix(part, inv, demands, n - 1);
      assert demands[..n][..n - 1] == demands[..n - 1];
      if k < n - 1 { ShortfallGrows(inv, demands, k, n - 1); }
      if Shortfall(inv, demands, demands[n - 1].start) <= 0 { k := n; }
    }
  }

  lemma OrderIsByStart(demands: seq<Demand>)
    requires InOrder(demands)
    ensures ByStart(demands)
  {
    forall i, j | 0 <= i < j < |demands| ensures demands[i].start <= demands[j].start {
      assert !Earlier(demands[j], demands[i]);
    }
  }

  predicate Bound(demands: seq<Demand>, start: int, key: string, version: nat) {
    exists i :: 0 <= i < |demands| && demands[i].start <= start && OrderKey(demands[i].id) == key && demands[i].version == version
  }

  predicate DistinctIds(demands: seq<Demand>) { forall i, j :: 0 <= i < j < |demands| ==> demands[i].id != demands[j].id }

  lemma KeysDiffer(a: string, b: string)
    ensures OrderKey(a) != InventoryKey(b) && (OrderKey(a) == OrderKey(b) ==> a == b)
  {
    assert OrderKey(a)[0] == 'p' && InventoryKey(b)[0] == 'i';
    assert OrderKey(a)[17..] == a && OrderKey(b)[17..] == b;
  }

  // The trigger names exactly the inventory record and the orders that were summed, at the versions read.
  lemma {:induction false} SourcesAreExact(inv: Inventory, demands: seq<Demand>, start: int, key: string, version: nat)
    requires DistinctIds(demands)
    ensures var sources := Sources(inv, demands, start);
            key in sources && sources[key] == version <==>
            (key == InventoryKey(inv.id) && version == inv.version) || Bound(demands, start, key, version)
  {
    if demands == [] {
      assert !Bound(demands, start, key, version);
    } else {
      var front, d := demands[..|demands| - 1], demands[|demands| - 1];
      SourcesAreExact(inv, front, start, key, version);
      KeysDiffer(d.id, inv.id);
      BoundByFrontOrLast(demands, start, key, version);
      if key == OrderKey(d.id) { FrontDoesNotBind(demands, start, version); }
    }
  }

  lemma BoundByFrontOrLast(demands: seq<Demand>, start: int, key: string, version: nat)
    requires demands != []
    ensures var d := demands[|demands| - 1];
            Bound(demands, start, key, version) <==>
            Bound(demands[..|demands| - 1], start, key, version) || (d.start <= start && OrderKey(d.id) == key && d.version == version)
  {
    var front := demands[..|demands| - 1];
    if Bound(front, start, key, version) {
      var i :| 0 <= i < |front| && front[i].start <= start && OrderKey(front[i].id) == key && front[i].version == version;
      assert demands[i] == front[i];
    }
    if Bound(demands, start, key, version) {
      var i :| 0 <= i < |demands| && demands[i].start <= start && OrderKey(demands[i].id) == key && demands[i].version == version;
      if i < |front| { assert front[i] == demands[i]; }
    }
  }

  lemma FrontDoesNotBind(demands: seq<Demand>, start: int, version: nat)
    requires demands != [] && DistinctIds(demands)
    ensures !Bound(demands[..|demands| - 1], start, OrderKey(demands[|demands| - 1].id), version)
  {
    var front, d := demands[..|demands| - 1], demands[|demands| - 1];
    forall i | 0 <= i < |front| ensures OrderKey(front[i].id) != OrderKey(d.id) {
      assert demands[i].id != d.id;
      KeysDiffer(front[i].id, d.id);
    }
  }

  // ---- from the evidence to the demands ----

  function DemandOf(e: Evidence): Demand
    requires e.OrderRecord? && Readable(e.required) && e.start.Some?
  {
    Demand(e.id, e.version, e.required.value, e.start.value)
  }

  predicate Gives(e: Evidence, today: int, part: string, d: Demand, lower: string -> string) {
    Current(e, today, lower) && OrderReads(e, today, lower) && e.part == Some(part) && DemandOf(e) == d
  }

  // The lists hold exactly the current committed orders of each part.
  predicate Collects(evidence: seq<Evidence>, today: int, g: Grouped, part: string, d: Demand, lower: string -> string) {
    (part in g.demands && d in g.demands[part]) <==> exists i :: 0 <= i < |evidence| && Gives(evidence[i], today, part, d, lower)
  }

  lemma {:induction false} DemandsCollect(evidence: seq<Evidence>, today: int, part: string, d: Demand, lower: string -> string)
    requires Demands(evidence, today, lower).Some?
    ensures Collects(evidence, today, Demands(evidence, today, lower).value, part, d, lower)
  {
    if evidence != [] {
      var front, e := evidence[..|evidence| - 1], evidence[|evidence| - 1];
      DemandsCollect(front, today, part, d, lower);
      if exists i :: 0 <= i < |front| && Gives(front[i], today, part, d, lower) {
        var i :| 0 <= i < |front| && Gives(front[i], today, part, d, lower);
        assert Gives(evidence[i], today, part, d, lower);
      }
      if exists i :: 0 <= i < |evidence| && Gives(evidence[i], today, part, d, lower) {
        var i :| 0 <= i < |evidence| && Gives(evidence[i], today, part, d, lower);
        if i < |front| { assert Gives(front[i], today, part, d, lower); }
      }
      if Gives(e, today, part, d, lower) { assert Gives(evidence[|evidence| - 1], today, part, d, lower); }
    }
  }

  lemma ListedDemandsFit(evidence: seq<Evidence>, today: int, part: string, lower: string -> string)
    requires Demands(evidence, today, lower).Some? && part in Demands(evidence, today, lower).value.demands
    ensures var listed := Demands(evidence, today, lower).value.demands[part]; var demands := Sort(listed);
            InOrder(demands) && multiset(demands) == multiset(listed) && ByStart(demands) && NonNegative(demands)
  {
    var listed := Demands(evidence, today, lower).value.demands[part];
    var demands := Sort(listed);
    SortSorts(listed);
    OrderIsByStart(demands);
    forall i | 0 <= i < |demands| ensures demands[i].required >= 0 {
      assert demands[i] in multiset(listed);
      DemandsCollect(evidence, today, part, demands[i], lower);
    }
  }

  lemma OrderIs(demands: seq<Demand>)
    requires InOrder(demands)
    ensures forall i, j :: 0 <= i < j < |demands| ==>
              demands[i].start <= demands[j].start
              && (demands[i].start == demands[j].start ==> !Canonical.Less(demands[j].id, demands[i].id))
  {
    forall i, j | 0 <= i < j < |demands|
      ensures demands[i].start <= demands[j].start
              && (demands[i].start == demands[j].start ==> !Canonical.Less(demands[j].id, demands[i].id))
    {
      assert !Earlier(demands[j], demands[i]);
    }
  }

  lemma ShortBy(part: string, inv: Inventory, demands: seq<Demand>, target: Demand)
    requires ByStart(demands)
    ensures var stock := inv.available - inv.safety; var sum := RunningSum(demands, target.start);
            && (Shortfall(inv, demands, target.start) > 0 <==> stock < sum)
            && (stock < sum ==> RiskOf(part, inv, demands, target).shortfall == sum - stock)
            && RiskOf(part, inv, demands, target).order == target.id
  {
    SumIsPrefix(demands, target.start);
    hide CommittedBy, RunningSum, Sources;
  }

  lemma SuffixOf(part: string, inv: Inventory, demands: seq<Demand>) returns (k: nat)
    requires ByStart(demands) && NonNegative(demands)
    ensures var risks := RisksOf(part, inv, demands, demands); var stock := inv.available - inv.safety;
            && k <= |demands| && |risks| == |demands| - k
            && (forall i :: 0 <= i < |demands| ==> (stock < RunningSum(demands, demands[i].start) <==> i >= k))
            && forall i :: 0 <= i < |risks| ==>
                 risks[i].order == demands[k + i].id
                 && risks[i].shortfall == RunningSum(demands, demands[k + i].start) - stock > 0
  {
    hide RunningSum, CommittedBy, RisksOf, Sources, RiskOf, Shortfall, ByStart, NonNegative;
    k := RisksAreSuffix(part, inv, demands, |demands|);
    assert demands[..|demands|] == demands;
    forall i | 0 <= i < |demands|
      ensures Shortfall(inv, demands, demands[i].start) > 0 <==> inv.available - inv.safety < RunningSum(demands, demands[i].start)
      ensures inv.available - inv.safety < RunningSum(demands, demands[i].start) ==>
        RiskOf(part, inv, demands, demands[i]).shortfall == RunningSum(demands, demands[i].start) - (inv.available - inv.safety)
      ensures RiskOf(part, inv, demands, demands[i]).order == demands[i].id
    {
      ShortBy(part, inv, demands, demands[i]);
    }
  }

  // Whatever evidence is accepted, a part's findings are the orders of a suffix of its demands in
  // (date, id) order, each short by the running sum up to its date less what stock there is.
  lemma FindingsAreASuffix(evidence: seq<Evidence>, today: int, part: string, inv: Inventory, lower: string -> string) returns (k: nat)
    requires Demands(evidence, today, lower).Some? && part in Demands(evidence, today, lower).value.demands
    ensures var listed := Demands(evidence, today, lower).value.demands[part]; var demands := Sort(listed);
            var risks := RisksOf(part, inv, demands, demands); var stock := inv.available - inv.safety;
            && multiset(demands) == multiset(listed)
            && (forall i, j :: 0 <= i < j < |demands| ==>
                  demands[i].start <= demands[j].start
                  && (demands[i].start == demands[j].start ==> !Canonical.Less(demands[j].id, demands[i].id)))
            && k <= |demands| && |risks| == |demands| - k
            && (forall i :: 0 <= i < |demands| ==> (stock < RunningSum(demands, demands[i].start) <==> i >= k))
            && forall i :: 0 <= i < |risks| ==>
                 risks[i].order == demands[k + i].id
                 && risks[i].shortfall == RunningSum(demands, demands[k + i].start) - stock > 0
  {
    var demands := Sort(Demands(evidence, today, lower).value.demands[part]);
    ListedDemandsFit(evidence, today, part, lower);
    var listed := Demands(evidence, today, lower).value.demands[part];
    OrderIs(demands);
    hide *;
    k := SuffixOf(part, inv, demands);
  }

  // ---- the findings of an evaluation ----

  lemma {:induction false} PartsAreKeys(evidence: seq<Evidence>, today: int, part: string, lower: string -> string)
    requires Demands(evidence, today, lower).Some?
    ensures var g := Demands(evidence, today, lower).value; part in g.parts <==> part in g.demands
  {
    if evidence != [] { PartsAreKeys(evidence[..|evidence| - 1], today, part, lower); }
  }

  predicate Found(inventories: map<string, Inventory>, demands: map<string, seq<Demand>>, part: string, r: Risk) {
    part in inventories && part in demands && r in RisksOf(part, inventories[part], Sort(demands[part]), Sort(demands[part]))
  }

  lemma {:induction false} PartRisksAre(inventories: map<string, Inventory>, demands: map<string, seq<Demand>>,
                                        parts: seq<string>, r: Risk)
    ensures r in PartRisks(inventories, demands, parts) <==> exists i :: 0 <= i < |parts| && Found(inventories, demands, parts[i], r)
  {
    hide RisksOf, Sort;
    if parts != [] {
      var front, part := parts[..|parts| - 1], parts[|parts| - 1];
      PartRisksAre(inventories, demands, front, r);
      if i :| 0 <= i < |front| && Found(inventories, demands, front[i], r) { assert Found(inventories, demands, parts[i], r); }
      if i :| 0 <= i < |parts| && Found(inventories, demands, parts[i], r) {
        if i < |front| { assert Found(inventories, demands, front[i], r); }
      }
      if Found(inventories, demands, part, r) { assert Found(inventories, demands, parts[|parts| - 1], r); }
    }
  }

  lemma {:induction false} RisksCarryPart(part: string, inv: Inventory, demands: seq<Demand>, targets: seq<Demand>, r: Risk)
    requires r in RisksOf(part, inv, demands, targets)
    ensures exists i :: 0 <= i < |targets| && r == RiskOf(part, inv, demands, targets[i])
  {
    hide RiskOf, Shortfall;
    var front, target := targets[..|targets| - 1], targets[|targets| - 1];
    if r in RisksOf(part, inv, demands, front) {
      RisksCarryPart(part, inv, demands, front, r);
      var i :| 0 <= i < |front| && r == RiskOf(part, inv, demands, front[i]);
      assert targets[i] == front[i];
    } else {
      assert r == RiskOf(part, inv, demands, targets[|targets| - 1]);
    }
  }

  // An evaluation's findings are those of the parts with an inventory record: FindingsAreASuffix says
  // which orders of each part they are.
  lemma EvaluationFinds(evidence: seq<Evidence>, today: int, r: Risk, lower: string -> string)
    requires Evaluation(evidence, today, lower).Some?
    ensures r in Evaluation(evidence, today, lower).value <==>
            Found(Inventories(evidence).value, Demands(evidence, today, lower).value.demands, r.part, r)
  {
    var inventories, g := Inventories(evidence).value, Demands(evidence, today, lower).value;
    PartRisksAre(inventories, g.demands, g.parts, r);
    if i :| 0 <= i < |g.parts| && Found(inventories, g.demands, g.parts[i], r) {
      var sorted := Sort(g.demands[g.parts[i]]);
      RisksCarryPart(g.parts[i], inventories[g.parts[i]], sorted, sorted, r);
    }
    if Found(inventories, g.demands, r.part, r) {
      PartsAreKeys(evidence, today, r.part, lower);
      var i :| 0 <= i < |g.parts| && g.parts[i] == r.part;
      assert Found(inventories, g.demands, g.parts[i], r);
    }
  }

  // Record ids are primary keys.
  predicate DistinctRecords(evidence: seq<Evidence>) {
    forall i, j :: 0 <= i < j < |evidence| && evidence[i].OrderRecord? && evidence[j].OrderRecord? ==> evidence[i].id != evidence[j].id
  }

  lemma {:induction false} ListedIdsDiffer(evidence: seq<Evidence>, today: int, part: string, lower: string -> string)
    requires DistinctRecords(evidence) && Demands(evidence, today, lower).Some? && part in Demands(evidence, today, lower).value.demands
    ensures DistinctIds(Demands(evidence, today, lower).value.demands[part])
  {
    if evidence != [] {
      var front, e := evidence[..|evidence| - 1], evidence[|evidence| - 1];
      var before := Demands(front, today, lower).value;
      if part in before.demands {
        ListedIdsDiffer(front, today, part, lower);
        forall i | 0 <= i < |before.demands[part]| && Current(e, today, lower) ensures before.demands[part][i].id != e.id {
          DemandsCollect(front, today, part, before.demands[part][i], lower);
          var k :| 0 <= k < |front| && Gives(front[k], today, part, before.demands[part][i], lower);
          assert evidence[k] == front[k] && evidence[|evidence| - 1] == e;
        }
      }
    }
  }

  lemma {:induction false} InsertIdsDiffer(d: Demand, s: seq<Demand>)
    requires DistinctIds(s) && forall i :: 0 <= i < |s| ==> s[i].id != d.id
    ensures DistinctIds(Insert(d, s))
  {
    if s != [] && Earlier(d, s[|s| - 1]) {
      var front, rest := s[..|s| - 1], Insert(d, s[..|s| - 1]);
      InsertIdsDiffer(d, front);
      InsertHas(d, front);
      forall i | 0 <= i < |rest| ensures rest[i].id != s[|s| - 1].id {
        assert rest[i] in multiset(rest);
        if rest[i] != d {
          assert rest[i] in multiset(front);
          var k :| 0 <= k < |front| && front[k] == rest[i];
          assert s[k] == rest[i];
        }
      }
    }
  }

  lemma {:induction false} SortIdsDiffer(s: seq<Demand>)
    requires DistinctIds(s)
    ensures DistinctIds(Sort(s))
  {
    if s != [] {
      var front, d := s[..|s| - 1], s[|s| - 1];
      SortIdsDiffer(front);
      SortSorts(front);
      var sorted := Sort(front);
      forall i | 0 <= i < |sorted| ensures sorted[i].id != d.id {
        assert sorted[i] in multiset(front);
        var k :| 0 <= k < |front| && front[k] == sorted[i];
        assert s[k] == sorted[i];
      }
      InsertIdsDiffer(d, sorted);
    }
  }

  // A current order of the part that starts no later, under this key at this version.
  predicate Summed(evidence: seq<Evidence>, today: int, r: Risk, key: string, version: nat, lower: string -> string) {
    exists i :: 0 <= i < |evidence| && Current(evidence[i], today, lower) && evidence[i].part == Some(r.part)
      && evidence[i].start.value <= r.start && OrderKey(evidence[i].id) == key && evidence[i].version == version
  }

  // Every finding's trigger names exactly its inventory record and the orders of the evidence that
  // were summed, at the versions read.
  lemma TriggersAreExact(evidence: seq<Evidence>, today: int, r: Risk, key: string, version: nat, lower: string -> string)
    requires DistinctRecords(evidence) && Evaluation(evidence, today, lower).Some? && r in Evaluation(evidence, today, lower).value
    ensures key in r.sources && r.sources[key] == version <==>
            (key == InventoryKey(r.inventory) && version == r.inventoryVersion) || Summed(evidence, today, r, key, version, lower)
  {
    var inventories, g := Inventories(evidence).value, Demands(evidence, today, lower).value;
    EvaluationFinds(evidence, today, r, lower);
    var inv, listed := inventories[r.part], g.demands[r.part];
    var demands := Sort(listed);
    RisksCarryPart(r.part, inv, demands, demands, r);
    ListedIdsDiffer(evidence, today, r.part, lower);
    SortIdsDiffer(listed);
    SortSorts(listed);
    SourcesAreExact(inv, demands, r.start, key, version);
    BoundAreSummed(evidence, today, r, demands, key, version, lower);
    hide RisksOf, Sources, Sort, Demands, Inventories, Bound, Summed;
  }

  lemma BoundAreSummed(evidence: seq<Evidence>, today: int, r: Risk, demands: seq<Demand>, key: string, version: nat, lower: string -> string)
    requires Demands(evidence, today, lower).Some? && r.part in Demands(evidence, today, lower).value.demands
    requires multiset(demands) == multiset(Demands(evidence, today, lower).value.demands[r.part])
    ensures Bound(demands, r.start, key, version) <==> Summed(evidence, today, r, key, version, lower)
  {
    var listed := Demands(evidence, today, lower).value.demands[r.part];
    if Bound(demands, r.start, key, version) {
      var i :| 0 <= i < |demands| && demands[i].start <= r.start && OrderKey(demands[i].id) == key && demands[i].version == version;
      assert demands[i] in multiset(listed);
      DemandsCollect(evidence, today, r.part, demands[i], lower);
      var k :| 0 <= k < |evidence| && Gives(evidence[k], today, r.part, demands[i], lower);
    }
    if Summed(evidence, today, r, key, version, lower) {
      var k :| 0 <= k < |evidence| && Current(evidence[k], today, lower) && evidence[k].part == Some(r.part)
               && evidence[k].start.value <= r.start && OrderKey(evidence[k].id) == key && evidence[k].version == version;
      OrdersRead(evidence, today, k, lower);
      var d := DemandOf(evidence[k]);
      assert Gives(evidence[k], today, r.part, d, lower);
      DemandsCollect(evidence, today, r.part, d, lower);
      assert d in multiset(demands);
      var i :| 0 <= i < |demands| && demands[i] == d;
    }
  }

  lemma {:induction false} OrdersRead(evidence: seq<Evidence>, today: int, k: nat, lower: string -> string)
    requires Demands(evidence, today, lower).Some? && k < |evidence| && evidence[k].OrderRecord?
    ensures OrderReads(evidence[k], today, lower)
  {
    if k < |evidence| - 1 { OrdersRead(evidence[..|evidence| - 1], today, k, lower); }
  }
}
