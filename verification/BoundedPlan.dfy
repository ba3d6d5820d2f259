/** Bounded tool plans: calls serialized into a plan's parameters, and decoded again at execution. */
module BoundedPlan {
  import opened Records
  import opened Texts
  import opened Clocks
  import opened Json
  import opened Canonical
  import opened PlanHash
  import Keys

  // ---- scalars ----

  function ReadNumber(s: string): Option<int> {
    if s != "" && s[0] == '-' then
      (if |s| > 1 && AllDigits(s[1..]) then Some(-(ReadDigits(s[1..]) as int)) else None)
    else if s != "" && AllDigits(s) then Some(ReadDigits(s)) else None
  }

  // A non-negative decimal as Python's Decimal keeps it: digits / 10^places, trailing zeros included.
  datatype Dec = Dec(digits: nat, places: nat)

  function Zeros(n: nat): string { if n == 0 then "" else "0" + Zeros(n - 1) }

  // At least `width` digits.
  function Filled(n: nat, width: nat): string {
    if |Decimal(n)| < width then Zeros(width - |Decimal(n)|) + Decimal(n) else Decimal(n)
  }

  lemma {:induction false} FilledIsLong(n: nat, width: nat)
    ensures |Filled(n, width)| >= width && |Filled(n, width)| >= 1
  {
    DecimalIsText(n);
    ZerosAre(if |Decimal(n)| < width then width - |Decimal(n)| else 0);
  }

  lemma {:induction false} ZerosAre(n: nat)
    ensures |Zeros(n)| == n && AllDigits(Zeros(n)) && ReadDigits(Zeros(n)) == 0
  {
    if n > 0 {
      ZerosAre(n - 1);
      ZerosPrefix("0", Zeros(n - 1));
      assert "0"[..0] == "" && ReadDigits("0") == 0;
    }
  }

  lemma {:induction false} ZerosPrefix(z: string, s: string)
    requires ReadDigits(z) == 0
    ensures ReadDigits(z + s) == ReadDigits(s)
  {
    if s == "" {
      assert z + s == z;
    } else {
      assert (z + s)[..|z + s| - 1] == z + s[..|s| - 1] && (z + s)[|z + s| - 1] == s[|s| - 1];
      ZerosPrefix(z, s[..|s| - 1]);
    }
  }

  // str(Decimal), which sets the point `places` digits from the right.
  function DecText(d: Dec): string {
    if d.places == 0 then Decimal(d.digits)
    else
      FilledIsLong(d.digits, d.places + 1);
      var all := Filled(d.digits, d.places + 1);
      all[..|all| - d.places] + ("." + all[|all| - d.places..])
  }

  function Point(s: string): nat { if s == "" || s[0] == '.' then 0 else 1 + Point(s[1..]) }

  lemma {:induction false} PointFits(s: string)
    ensures Point(s) <= |s|
  {
    if s != "" { PointFits(s[1..]); }
  }

  function ReadDec(s: string): Option<Dec> {
    PointFits(s);
    var k := Point(s);
    if k == |s| then (if s != "" && AllDigits(s) then Some(Dec(ReadDigits(s), 0)) else None)
    else if k == 0 || k + 1 == |s| || !AllDigits(s[..k]) || !AllDigits(s[k + 1..]) then None
    else Some(Dec(ReadDigits(s[..k] + s[k + 1..]), |s| - k - 1))
  }

  lemma {:induction false} PointIs(a: string, rest: string)
    requires AllDigits(a) && (rest == "" || rest[0] == '.')
    ensures Point(a + rest) == |a|
  {
    if a == "" {
      assert a + rest == rest;
    } else {
      assert (a + rest)[0] == a[0] && (a + rest)[1..] == a[1..] + rest && a[0] in a;
      PointIs(a[1..], rest);
    }
  }

  lemma FilledReadsBack(n: nat, width: nat)
    ensures AllDigits(Filled(n, width)) && ReadDigits(Filled(n, width)) == n
  {
    DecimalIsText(n);
    DecimalReadsBack(n);
    if |Decimal(n)| < width {
      ZerosAre(width - |Decimal(n)|);
      ZerosPrefix(Zeros(width - |Decimal(n)|), Decimal(n));
      hide Zeros, Decimal, ReadDigits;
    }
  }

  lemma DecReadsBack(d: Dec)
    ensures ReadDec(DecText(d)) == Some(d)
  {
    if d.places == 0 {
      WholeReadsBack(d.digits);
    } else {
      FilledIsLong(d.digits, d.places + 1);
      FilledReadsBack(d.digits, d.places + 1);
      hide Filled, ReadDigits, ReadDec, AllDigits;
      PointSplits(Filled(d.digits, d.places + 1), d.places);
    }
  }

  lemma WholeReadsBack(n: nat)
    ensures ReadDec(Decimal(n)) == Some(Dec(n, 0))
  {
    DecimalIsText(n);
    DecimalReadsBack(n);
    PointIs(Decimal(n), "");
    hide Decimal, ReadDigits, Point;
    assert Decimal(n) + "" == Decimal(n);
  }

  lemma PointSplits(all: string, places: nat)
    requires 0 < places < |all| && AllDigits(all)
    ensures ReadDec(all[..|all| - places] + ("." + all[|all| - places..])) == Some(Dec(ReadDigits(all), places))
  {
    var a, b := all[..|all| - places], all[|all| - places..];
    hide ReadDigits, Point, ReadDec;
    assert a + b == all;
    TwoParts(a, b);
  }

  lemma TwoParts(a: string, b: string)
    requires a != "" && b != "" && AllDigits(a) && AllDigits(b)
    ensures ReadDec(a + ("." + b)) == Some(Dec(ReadDigits(a + b), |b|))
  {
    PointIs(a, "." + b);
    hide ReadDigits, Point, AllDigits;
    ThreeParts(a, ".", b);
  }

  // The texts that are numbers: digits, with a minus before them for an integer, or with one point between
  // them for a decimal; and what they read as.
  lemma NumeralsRead(digits: string)
    requires digits != "" && AllDigits(digits)
    ensures ReadNumber(digits) == Some(ReadDigits(digits)) && ReadNumber("-" + digits) == Some(-(ReadDigits(digits) as int))
    ensures ReadDec(digits) == Some(Dec(ReadDigits(digits), 0))
  {
    assert digits[0] in digits && ("-" + digits)[1..] == digits;
    PointIs(digits, "");
    assert digits + "" == digits;
  }

  lemma OnlyNumbersRead(s: string) returns (d: string)
    requires ReadNumber(s).Some?
    ensures d != "" && AllDigits(d) && (s == d || s == "-" + d)
  {
    hide ReadDigits, AllDigits;
    d := if s[0] == '-' then s[1..] else s;
    assert s[0] == '-' ==> s == "-" + s[1..];
  }

  lemma OnlyDecimalsRead(s: string) returns (a: string, b: string)
    requires ReadDec(s).Some?
    ensures a != "" && AllDigits(a) && AllDigits(b) && s == if b == "" then a else a + ("." + b)
  {
    hide ReadDigits, AllDigits;
    PointAt(s);
    var k := Point(s);
    if k == |s| {
      NoDigits();
      return s, "";
    }
    a, b := s[..k], s[k + 1..];
    assert s == s[..k] + ("." + s[k + 1..]);
  }

  lemma NoDigits()
    ensures AllDigits("")
  {}

  lemma {:induction false} PointAt(s: string)
    ensures Point(s) <= |s| && (Point(s) < |s| ==> s[Point(s)] == '.')
  {
    if s != "" { PointAt(s[1..]); }
  }

  // NonBlankText: stripped, and not empty after that.
  function ReadText(v: Value): Option<string> {
    if !v.Str? || Strip(v.s) == "" then None else Some(Strip(v.s))
  }

  function ReadInt(v: Value): Option<int> {
    match v
    case Num(n) => Some(n)
    case Str(s) => ReadNumber(s)
    case _ => None
  }

  function ReadDecimal(v: Value): Option<Dec> {
    match v
    case Num(n) => if n >= 0 then Some(Dec(n, 0)) else None
    case Str(s) => ReadDec(s)
    case _ => None
  }

  function ReadQuantity(v: Value): Option<Dec> {
    if ReadDecimal(v).Some? && ReadDecimal(v).value.digits > 0 then ReadDecimal(v) else None
  }

  function ReadTime(v: Value): Option<Clock> { if v.Str? then ReadClock(v.s) else None }

  // ---- calls ----

  // The input models: identifiers are text here, and rows only once the tool runs.
  datatype PlannedInput =
    | PlanCreate(original: string, supplier: string, production: string, quantity: Dec)
    | PlanReduce(original: string, quantity: Dec)
    | PlanHold(original: string, production: string, expectedVersion: int)
    | PlanReallocate(lot: string, from: Option<string>, to: string, quantity: Dec)
    | PlanFlag(production: string, part: string, quantity: Dec)
    | PlanNotify(production: string, message: string)
    | PlanCheck(original: string, dueAt: Clock)

  function PlannedTool(input: PlannedInput): ToolName {
    match input
    case PlanCreate(_, _, _, _) => CreateReplacementPo
    case PlanReduce(_, _) => ReduceOrCancelPo
    case PlanHold(_, _, _) => PlacePurchaseOrderHold
    case PlanReallocate(_, _, _, _) => ReallocateLot
    case PlanFlag(_, _, _) => FlagShortageToPurchasing
    case PlanNotify(_, _) => NotifyProduction
    case PlanCheck(_, _) => ScheduleArrivalCheck
  }

  // What constructing the input model guarantees.
  predicate Constructed(input: PlannedInput) {
    match input
    case PlanCreate(original, supplier, production, quantity) =>
      Clean(original) && Clean(supplier) && Clean(production) && quantity.digits > 0
    case PlanReduce(original, quantity) => Clean(original) && quantity.digits > 0
    case PlanHold(original, production, version) => Clean(original) && Clean(production) && version >= 1
    case PlanReallocate(lot, from, to, quantity) =>
      Clean(lot) && (from.Some? ==> Clean(from.value)) && Clean(to) && from != Some(to) && quantity.digits > 0
    case PlanFlag(production, part, quantity) => Clean(production) && Clean(part) && quantity.digits > 0
    case PlanNotify(production, message) => Clean(production) && Clean(message)
    case PlanCheck(original, dueAt) => Clean(original) && Valid(dueAt)
  }

  function Quantified(d: Dec): Value { Str(DecText(d)) }

  // model_dump(mode="json")
  function InputFields(input: PlannedInput): seq<Field>
    requires input.PlanCheck? ==> IsOffset(input.dueAt.offset)
  {
    match input
    case PlanCreate(original, supplier, production, quantity) =>
      [("original_purchase_order_id", Str(original)), ("supplier_id", Str(supplier)),
       ("production_order_id", Str(production)), ("quantity", Quantified(quantity))]
    case PlanReduce(original, quantity) => [("original_purchase_order_id", Str(original)), ("quantity", Quantified(quantity))]
    case PlanHold(original, production, version) =>
      [("purchase_order_id", Str(original)), ("production_order_id", Str(production)),
       ("expected_purchase_order_version", Num(version))]
    case PlanReallocate(lot, from, to, quantity) =>
      [("quality_lot_id", Str(lot)), ("from_production_order_id", if from.Some? then Str(from.value) else Null),
       ("to_production_order_id", Str(to)), ("quantity", Quantified(quantity))]
    case PlanFlag(production, part, quantity) =>
      [("production_order_id", Str(production)), ("part_id", Str(part)), ("shortage_quantity", Quantified(quantity))]
    case PlanNotify(production, message) => [("production_order_id", Str(production)), ("message", Str(message))]
    case PlanCheck(original, dueAt) => [("purchase_order_id", Str(original)), ("due_at", Str(IsoZ(dueAt)))]
  }

  function CallValue(input: PlannedInput): Value
    requires Constructed(input)
  {
    Obj([("tool_name", Str(Keys.ToolText(PlannedTool(input)))), ("input", Obj(InputFields(input)))])
  }

  function KeySet(fields: seq<Field>): set<string> { set i | 0 <= i < |fields| :: fields[i].0 }

  function Get(fields: seq<Field>, key: string): Value {
    if fields == [] then Null else if fields[0].0 == key then fields[0].1 else Get(fields[1..], key)
  }

  function ReadTool(text: string): Option<ToolName> {
    if text == "create_replacement_po" then Some(CreateReplacementPo)
    else if text == "reduce_or_cancel_po" then Some(ReduceOrCancelPo)
    else if text == "place_purchase_order_hold" then Some(PlacePurchaseOrderHold)
    else if text == "notify_production" then Some(NotifyProduction)
    else if text == "schedule_arrival_check" then Some(ScheduleArrivalCheck)
    else if text == "reallocate_lot" then Some(ReallocateLot)
    else if text == "flag_shortage_to_purchasing" then Some(FlagShortageToPurchasing)
    else None
  }

  // model_validate with extra fields forbidden.
  function ReadInput(tool: ToolName, f: seq<Field>): Option<PlannedInput> {
    match tool
    case CreateReplacementPo =>
      var o, s := ReadText(Get(f, "original_purchase_order_id")), ReadText(Get(f, "supplier_id"));
      var p, q := ReadText(Get(f, "production_order_id")), ReadQuantity(Get(f, "quantity"));
      if KeySet(f) != {"original_purchase_order_id", "supplier_id", "production_order_id", "quantity"}
         || o.None? || s.None? || p.None? || q.None? then None
      else Some(PlanCreate(o.value, s.value, p.value, q.value))
    case ReduceOrCancelPo =>
      var o, q := ReadText(Get(f, "original_purchase_order_id")), ReadQuantity(Get(f, "quantity"));
      if KeySet(f) != {"original_purchase_order_id", "quantity"} || o.None? || q.None? then None
      else Some(PlanReduce(o.value, q.value))
    case PlacePurchaseOrderHold =>
      var o, p := ReadText(Get(f, "purchase_order_id")), ReadText(Get(f, "production_order_id"));
      var v := ReadInt(Get(f, "expected_purchase_order_version"));
      if KeySet(f) != {"purchase_order_id", "production_order_id", "expected_purchase_order_version"}
         || o.None? || p.None? || v.None? || v.value < 1 then None
      else Some(PlanHold(o.value, p.value, v.value))
    case ReallocateLot =>
      var l, t := ReadText(Get(f, "quality_lot_id")), ReadText(Get(f, "to_production_order_id"));
      var from, q := Get(f, "from_production_order_id"), ReadQuantity(Get(f, "quantity"));
      if KeySet(f) + {"from_production_order_id"}
         != {"quality_lot_id", "from_production_order_id", "to_production_order_id", "quantity"}
         || l.None? || t.None? || q.None? || (!from.Null? && ReadText(from).None?)
         || (!from.Null? && ReadText(from) == t) then None
      else Some(PlanReallocate(l.value, if from.Null? then None else ReadText(from), t.value, q.value))
    case FlagShortageToPurchasing =>
      var p, part := ReadText(Get(f, "production_order_id")), ReadText(Get(f, "part_id"));
      var q := ReadQuantity(Get(f, "shortage_quantity"));
      if KeySet(f) != {"production_order_id", "part_id", "shortage_quantity"} || p.None? || part.None? || q.None? then None
      else Some(PlanFlag(p.value, part.value, q.value))
    case NotifyProduction =>
      var p, m := ReadText(Get(f, "production_order_id")), ReadText(Get(f, "message"));
      if KeySet(f) != {"production_order_id", "message"} || p.None? || m.None? then None
      else Some(PlanNotify(p.value, m.value))
    case ScheduleArrivalCheck =>
      var o, d := ReadText(Get(f, "purchase_order_id")), ReadTime(Get(f, "due_at"));
      if KeySet(f) != {"purchase_order_id", "due_at"} || o.None? || d.None? then None
      else Some(PlanCheck(o.value, d.value))
  }

  function ReadCall(v: Value): Option<PlannedInput> {
    if !v.Obj? || KeySet(v.fields) != {"tool_name", "input"} then None
    else
      var name, input := Get(v.fields, "tool_name"), Get(v.fields, "input");
      if !name.Str? || !input.Obj? || ReadTool(name.s).None? then None
      else ReadInput(ReadTool(name.s).value, input.fields)
  }

  // ---- reading a reordered object ----

  lemma {:induction false} GetIs(f: seq<Field>, i: nat)
    requires i < |f| && DistinctKeys(f)
    ensures Get(f, f[i].0) == f[i].1
  {
    if i > 0 {
      assert f[0].0 != f[i].0;
      assert f[1..][i - 1] == f[i];
      GetIs(f[1..], i - 1);
    }
  }

  // Reordering keeps the keys, and what is found under each.
  lemma ReorderedGet(f: seq<Field>, g: seq<Field>, i: nat)
    requires Same(Obj(f), Obj(g)) && DistinctKeys(g) && i < |f|
    ensures Same(f[i].1, Get(g, f[i].0))
  {
    hide Same;
    SameIs(Obj(f), Obj(g), ("", Null), ("", Null));
    assert MatchedIn(f[i], g);
    var j :| 0 <= j < |g| && SameField(f[i], g[j]);
    SameIs(Null, Null, f[i], g[j]);
    GetIs(g, j);
  }

  lemma ReorderedKeys(f: seq<Field>, g: seq<Field>)
    requires Same(Obj(f), Obj(g))
    ensures KeySet(f) == KeySet(g)
  {
    hide Same, SameField;
    SameIs(Obj(f), Obj(g), ("", Null), ("", Null));
    forall k | k in KeySet(f) ensures k in KeySet(g) {
      var i :| 0 <= i < |f| && f[i].0 == k;
      assert MatchedIn(f[i], g);
      var j :| 0 <= j < |g| && SameField(f[i], g[j]);
      SameIs(Null, Null, f[i], g[j]);
      assert g[j].0 in KeySet(g);
    }
    forall k | k in KeySet(g) ensures k in KeySet(f) {
      var j :| 0 <= j < |g| && g[j].0 == k;
      assert MatchedBy(f, g[j]);
      var i :| 0 <= i < |f| && SameField(f[i], g[j]);
      SameIs(Null, Null, f[i], g[j]);
      assert f[i].0 in KeySet(f);
    }
  }

  lemma ScalarGet(f: seq<Field>, g: seq<Field>, i: nat)
    requires Same(Obj(f), Obj(g)) && DistinctKeys(g) && i < |f| && !f[i].1.Arr? && !f[i].1.Obj?
    ensures Get(g, f[i].0) == f[i].1
  {
    ReorderedGet(f, g, i);
    SameIs(f[i].1, Get(g, f[i].0), ("", Null), ("", Null));
  }

  lemma QuantityReadsBack(d: Dec)
    requires d.digits > 0
    ensures ReadQuantity(Quantified(d)) == Some(d)
  {
    DecReadsBack(d);
  }

  lemma TimeReadsBack(c: Clock)
    requires Valid(c)
    ensures ReadTime(Str(IsoZ(c))) == Some(c)
  {
    IsoReadsBack(c);
  }

  lemma CleanReadsBack(s: string)
    requires Clean(s)
    ensures ReadText(Str(s)) == Some(s)
  {
    CleanIsStripped(s);
  }

  lemma ToolReadsBack(tool: ToolName)
    ensures ReadTool(Keys.ToolText(tool)) == Some(tool)
  {
    Keys.ToolTextLength(tool);
  }

  // Every scalar field of a reordered input is found under its key.
  lemma FieldsFound(f: seq<Field>, g: seq<Field>)
    requires Same(Obj(f), Obj(g)) && DistinctKeys(g)
    requires forall i :: 0 <= i < |f| ==> !f[i].1.Arr? && !f[i].1.Obj?
    ensures forall i :: 0 <= i < |f| ==> Get(g, f[i].0) == f[i].1
    ensures KeySet(g) == KeySet(f)
  {
    hide Same;
    forall i | 0 <= i < |f| ensures Get(g, f[i].0) == f[i].1 { ScalarGet(f, g, i); }
    ReorderedKeys(f, g);
  }

  // What a reordered object holds of these fields.
  predicate Found(f: seq<Field>, g: seq<Field>) {
    (forall i :: 0 <= i < |f| ==> Get(g, f[i].0) == f[i].1) && KeySet(g) == KeySet(f)
  }

  lemma CreateReadsBack(input: PlannedInput, g: seq<Field>)
    requires Constructed(input) && input.PlanCreate? && Found(InputFields(input), g)
    ensures ReadInput(PlannedTool(input), g) == Some(input)
  {
    hide Get, ReadQuantity, ReadInt, ReadText, ReadTime, Quantified, Clean;
    var f := InputFields(input);
    assert f[0].0 in KeySet(f) && f[1].0 in KeySet(f) && f[2].0 in KeySet(f) && f[3].0 in KeySet(f);
    CleanReadsBack(input.original);
    CleanReadsBack(input.supplier);
    CleanReadsBack(input.production);
    QuantityReadsBack(input.quantity);
  }

  lemma ReallocateReadsBack(input: PlannedInput, g: seq<Field>)
    requires Constructed(input) && input.PlanReallocate? && Found(InputFields(input), g)
    ensures ReadInput(PlannedTool(input), g) == Some(input)
  {
    hide Get, ReadQuantity, ReadInt, ReadText, ReadTime, Quantified, Clean;
    var f := InputFields(input);
    assert f[0].0 in KeySet(f) && f[1].0 in KeySet(f) && f[2].0 in KeySet(f) && f[3].0 in KeySet(f);
    CleanReadsBack(input.lot);
    if input.from.Some? { CleanReadsBack(input.from.value); }
    CleanReadsBack(input.to);
    QuantityReadsBack(input.quantity);
  }

  lemma OtherReadsBack(input: PlannedInput, g: seq<Field>)
    requires Constructed(input) && !input.PlanCreate? && !input.PlanReallocate? && Found(InputFields(input), g)
    ensures ReadInput(PlannedTool(input), g) == Some(input)
  {
    hide Get, ReadQuantity, ReadInt, ReadText, ReadTime, Quantified, Clean, IsoZ, IsDate, IsOffset;
    var f := InputFields(input);
    assert f[0].0 in KeySet(f) && f[1].0 in KeySet(f);
    match input {
      case PlanReduce(original, quantity) =>
        CleanReadsBack(original);
        QuantityReadsBack(quantity);
      case PlanHold(original, production, version) =>
        assert f[2].0 in KeySet(f);
        CleanReadsBack(original);
        CleanReadsBack(production);
        NumReadsBack(version);
      case PlanFlag(production, part, quantity) =>
        assert f[2].0 in KeySet(f);
        CleanReadsBack(production);
        CleanReadsBack(part);
        QuantityReadsBack(quantity);
      case PlanNotify(production, message) =>
        CleanReadsBack(production);
        CleanReadsBack(message);
      case PlanCheck(original, dueAt) =>
        CleanReadsBack(original);
        TimeReadsBack(dueAt);
      case _ =>
    }
  }

  lemma InputReadsBack(input: PlannedInput, g: seq<Field>)
    requires Constructed(input) && Same(Obj(InputFields(input)), Obj(g)) && DistinctKeys(g)
    ensures ReadInput(PlannedTool(input), g) == Some(input)
  {
    InputIsScalar(input);
    FieldsFound(InputFields(input), g);
    hide Same, InputFields, ReadInput, Constructed, Get;
    match input {
      case PlanCreate(_, _, _, _) => CreateReadsBack(input, g);
      case PlanReallocate(_, _, _, _) => ReallocateReadsBack(input, g);
      case _ => OtherReadsBack(input, g);
    }
  }

  lemma InputIsScalar(input: PlannedInput)
    requires Constructed(input)
    ensures forall i :: 0 <= i < |InputFields(input)| ==> !InputFields(input)[i].1.Arr? && !InputFields(input)[i].1.Obj?
  {}

  lemma NumReadsBack(n: int)
    ensures ReadInt(Num(n)) == Some(n)
  {}

  lemma CallShape(input: PlannedInput, v: Value)
    requires Constructed(input) && Same(CallValue(input), v) && WellFormed(v)
    ensures v.Obj? && KeySet(v.fields) == {"tool_name", "input"}
    ensures var name, value := Get(v.fields, "tool_name"), Get(v.fields, "input");
            && name.Str? && ReadTool(name.s) == Some(PlannedTool(input))
            && value.Obj? && Same(Obj(InputFields(input)), value) && DistinctKeys(value.fields)
  {
    var f := CallValue(input).fields;
    var g := v.fields;
    hide Get, InputFields, ReadTool;
    ReorderedKeys(f, g);
    assert f[0].0 in KeySet(f) && f[1].0 in KeySet(f);
    ScalarGet(f, g, 0);
    ReorderedGet(f, g, 1);
    FoundFits(g, "input");
    ToolReadsBack(PlannedTool(input));
  }

  lemma CallReadsBack(input: PlannedInput, v: Value)
    requires Constructed(input) && Same(CallValue(input), v) && WellFormed(v)
    ensures ReadCall(v) == Some(input)
  {
    var f := CallValue(input).fields;
    CallShape(input, v);
    hide Get, ReadInput, InputFields, Same, WellFormed, ReadTool, PlannedTool, Constructed, CallValue;
    InputReadsBack(input, Get(v.fields, "input").fields);
  }

  lemma {:induction false} FoundFits(g: seq<Field>, key: string)
    requires forall i :: 0 <= i < |g| ==> WellFormed(g[i].1)
    ensures WellFormed(Get(g, key))
  {
    if g != [] && g[0].0 != key { FoundFits(g[1..], key); }
  }

  // ---- plans of calls ----

  const INTENT := "bounded_tool_plan"

  predicate IsBounded(p: Plan) {
    p.intent == INTENT && p.workflowName == Some(INTENT) && p.workflowVersion == Some(1)
  }

  predicate AllConstructed(calls: seq<PlannedInput>) { forall i :: 0 <= i < |calls| ==> Constructed(calls[i]) }

  function CallValues(calls: seq<PlannedInput>): (r: seq<Value>)
    requires AllConstructed(calls)
    ensures |r| == |calls| && forall i :: 0 <= i < |calls| ==> r[i] == CallValue(calls[i])
  {
    seq(|calls|, i requires 0 <= i < |calls| => CallValue(calls[i]))
  }

  function Parameters(calls: seq<PlannedInput>): seq<Field>
    requires AllConstructed(calls)
  {
    [("tool_calls", Arr(CallValues(calls)))]
  }

  function ReadCalls(values: seq<Value>): Option<seq<PlannedInput>> {
    if values == [] then Some([])
    else
      var first, rest := ReadCall(values[0]), ReadCalls(values[1..]);
      if first.None? || rest.None? then None else Some([first.value] + rest.value)
  }

  // None stands for the error that refuses the plan.
  function CallsFromPlan(p: Plan): Option<seq<PlannedInput>> {
    if !IsBounded(p) || KeySet(p.parameters) != {"tool_calls"} then None
    else
      var v := Get(p.parameters, "tool_calls");
      if !v.Arr? || v.items == [] then None else ReadCalls(v.items)
  }

  lemma {:induction false} ReadCallsAppend(values: seq<Value>, v: Value)
    ensures ReadCalls(values + [v]) ==
      if ReadCalls(values).None? || ReadCall(v).None? then None else Some(ReadCalls(values).value + [ReadCall(v).value])
  {
    hide ReadCall;
    if values == [] {
      assert values + [v] == [v] && [v][1..] == [];
      var last := ReadCall(v);
      if last.Some? { assert [last.value] + [] == [] + [last.value]; }
    } else {
      assert (values + [v])[0] == values[0] && (values + [v])[1..] == values[1..] + [v];
      ReadCallsAppend(values[1..], v);
      var first, rest, last := ReadCall(values[0]), ReadCalls(values[1..]), ReadCall(v);
      if first.Some? && rest.Some? && last.Some? {
        assert [first.value] + (rest.value + [last.value]) == ([first.value] + rest.value) + [last.value];
      }
    }
  }

  lemma {:induction false} ReadCallsFails(values: seq<Value>, n: nat)
    requires n <= |values| && ReadCalls(values[..n]).None?
    ensures ReadCalls(values).None?
  {
    hide ReadCall;
    if n > 0 {
      assert values[..n][0] == values[0] && values[..n][1..] == values[1..][..n - 1];
      if ReadCalls(values[1..][..n - 1]).None? { ReadCallsFails(values[1..], n - 1); }
    }
  }

  // The decoder as written: a loop that stops at the first bad call.
  method BoundedToolCalls(p: Plan) returns (calls: Option<seq<PlannedInput>>)
    ensures calls == CallsFromPlan(p)
  {
    hide ReadCall, KeySet, Get;
    if !IsBounded(p) || KeySet(p.parameters) != {"tool_calls"} { return None; }
    var v := Get(p.parameters, "tool_calls");
    if !v.Arr? || v.items == [] { return None; }
    var decoded: seq<PlannedInput> := [];
    var i := 0;
    while i < |v.items|
      invariant 0 <= i <= |v.items|
      invariant ReadCalls(v.items[..i]) == Some(decoded)
    {
      var call := ReadCall(v.items[i]);
      assert v.items[..i + 1] == v.items[..i] + [v.items[i]];
      ReadCallsAppend(v.items[..i], v.items[i]);
      if call.None? {
        ReadCallsFails(v.items, i + 1);
        return None;
      }
      decoded := decoded + [call.value];
      i := i + 1;
    }
    assert v.items[..i] == v.items;
    calls := Some(decoded);
  }

  lemma {:induction false} CallsReadBack(calls: seq<PlannedInput>, values: seq<Value>)
    requires |values| == |calls| && AllConstructed(calls)
    requires forall i :: 0 <= i < |calls| ==> Same(CallValue(calls[i]), values[i]) && WellFormed(values[i])
    ensures ReadCalls(values) == Some(calls)
  {
    hide Same, WellFormed, CallValue, ReadCall;
    if calls == [] {
      assert values == [];
    } else {
      CallReadsBack(calls[0], values[0]);
      CallsReadBack(calls[1..], values[1..]);
      assert [calls[0]] + calls[1..] == calls;
    }
  }

  predicate BuiltFrom(p: Plan, calls: seq<PlannedInput>) {
    && calls != [] && AllConstructed(calls)
    && IsBounded(p) && p.parameters == Parameters(calls)
  }

  // However storage reorders the parameters, the plan decodes to exactly the calls it was built from.
  lemma CallsRoundTrip(p: Plan, calls: seq<PlannedInput>, q: Plan)
    requires BuiltFrom(p, calls) && IsBounded(q) && PlanFits(q) && Same(Obj(p.parameters), Obj(q.parameters))
    ensures CallsFromPlan(q) == Some(calls)
  {
    hide CallValues, Constructed;
    var f, g := p.parameters, q.parameters;
    ReorderedKeys(f, g);
    assert f[0].0 in KeySet(f);
    ReorderedGet(f, g, 0);
    FoundFits(g, "tool_calls");
    CallsReadBack(calls, Get(g, "tool_calls").items);
  }

  lemma TextIsClean(v: Value)
    requires ReadText(v).Some?
    ensures Clean(ReadText(v).value)
  {
    KeptIsClean(v.s);
  }

  lemma TimeIsValid(v: Value)
    requires ReadTime(v).Some?
    ensures Valid(ReadTime(v).value)
  {}

  // Whatever is decoded is an input that could have been constructed, and no field was ignored.
  lemma InputIsConstructed(tool: ToolName, f: seq<Field>)
    requires ReadInput(tool, f).Some?
    ensures var input := ReadInput(tool, f).value;
            && PlannedTool(input) == tool && Constructed(input) && KeySet(f) <= KeySet(InputFields(input))
            && (input.PlanReallocate? && input.from.None? ==> Get(f, "from_production_order_id") == Null)
  {
    hide ReadText, ReadQuantity, ReadTime, ReadInt, Clean, Get, IsOffset, IsDate, Quantified, IsoZ;
    forall v | ReadText(v).Some? ensures Clean(ReadText(v).value) { TextIsClean(v); }
    forall v | ReadQuantity(v).Some? ensures ReadQuantity(v).value.digits > 0 { QuantityIsPositive(v); }
    forall v | ReadTime(v).Some? ensures Valid(ReadTime(v).value) { TimeIsValid(v); }
    KeysOf(ReadInput(tool, f).value);
  }

  lemma QuantityIsPositive(v: Value)
    requires ReadQuantity(v).Some?
    ensures ReadQuantity(v).value.digits > 0
  {}

  // The fields of each tool's input, by name.
  lemma KeysOf(input: PlannedInput)
    requires Constructed(input)
    ensures KeySet(InputFields(input)) ==
            match input
            case PlanCreate(_, _, _, _) => {"original_purchase_order_id", "supplier_id", "production_order_id", "quantity"}
            case PlanReduce(_, _) => {"original_purchase_order_id", "quantity"}
            case PlanHold(_, _, _) => {"purchase_order_id", "production_order_id", "expected_purchase_order_version"}
            case PlanReallocate(_, _, _, _) => {"quality_lot_id", "from_production_order_id", "to_production_order_id", "quantity"}
            case PlanFlag(_, _, _) => {"production_order_id", "part_id", "shortage_quantity"}
            case PlanNotify(_, _) => {"production_order_id", "message"}
            case PlanCheck(_, _) => {"purchase_order_id", "due_at"}
  {
    hide Quantified, IsoZ, Clean;
    var f := InputFields(input);
    assert forall k :: k in KeySet(f) <==> exists i :: 0 <= i < |f| && f[i].0 == k;
    assert f[0].0 in KeySet(f) && f[1].0 in KeySet(f) && (|f| > 2 ==> f[2].0 in KeySet(f)) && (|f| > 3 ==> f[3].0 in KeySet(f));
  }

  lemma {:induction false} CallsAreConstructed(values: seq<Value>)
    requires ReadCalls(values).Some?
    ensures |ReadCalls(values).value| == |values| && AllConstructed(ReadCalls(values).value)
    ensures forall i :: 0 <= i < |values| ==> values[i].Obj? && KeySet(values[i].fields) == {"tool_name", "input"}
  {
    hide ReadCall, Constructed, KeySet;
    if values != [] {
      CallIsConstructed(values[0]);
      CallsAreConstructed(values[1..]);
    }
  }

  lemma CallIsConstructed(v: Value)
    requires ReadCall(v).Some?
    ensures Constructed(ReadCall(v).value) && v.Obj? && KeySet(v.fields) == {"tool_name", "input"}
  {
    hide ReadInput, Constructed, Get, KeySet, ReadTool;
    InputIsConstructed(ReadTool(Get(v.fields, "tool_name").s).value, Get(v.fields, "input").fields);
  }

  // A plan decodes to nothing but what could have been built into it: at least one call, and each with
  // stripped text, positive quantities and different orders. Nothing else is in it that could be ignored.
  lemma DecodedCallsAreConstructed(p: Plan)
    requires CallsFromPlan(p).Some?
    ensures CallsFromPlan(p).value != [] && AllConstructed(CallsFromPlan(p).value)
    ensures forall v :: Get(p.parameters, "tool_calls").Arr? && v in Get(p.parameters, "tool_calls").items ==>
              v.Obj? && KeySet(v.fields) == {"tool_name", "input"}
    ensures KeySet(p.parameters) == {"tool_calls"} && Get(p.parameters, "tool_calls").Arr?
    ensures p.intent == "bounded_tool_plan" && p.workflowName == Some("bounded_tool_plan") && p.workflowVersion == Some(1)
  {
    hide ReadCalls, KeySet;
    CallsAreConstructed(Get(p.parameters, "tool_calls").items);
  }

  // What was approved is what runs: a plan whose recomputed hash is that of a plan built from these
  // calls decodes to these calls, in this order.
  lemma HashFixesCalls(p: Plan, calls: seq<PlannedInput>, q: Plan, digest: string -> string)
    requires BuiltFrom(p, calls) && PlanFits(p) && PlanFits(q) && CollisionFree(digest)
    requires RecomputeHash(q, digest) == RecomputeHash(p, digest)
    ensures CallsFromPlan(q) == Some(calls)
  {
    HashIdentifies(p, q, digest);
    CallsRoundTrip(p, calls, q);
  }
}
