/** How idempotency keys are put together: they name their step, and tell steps from reversals. */
module Keys {
  import opened Records
  import opened Texts
  import opened WorkflowState
  import opened WorkflowStore

  const TOOL_PREFIX := "tool:v1:"
  const COMPENSATION_PREFIX := "compensation:v1:"

  predicate StartsWith(text: string, prefix: string) { |prefix| <= |text| && text[..|prefix|] == prefix }

  predicate IsToolKey(key: Key) { StartsWith(key, TOOL_PREFIX) }

  predicate IsCompensationKey(key: Key) { StartsWith(key, COMPENSATION_PREFIX) }

  lemma KeysDiffer(key: Key)
    ensures !(IsToolKey(key) && IsCompensationKey(key))
  {
    if IsToolKey(key) { assert key[0] == key[..|TOOL_PREFIX|][0] == 't'; }
    if IsCompensationKey(key) { assert key[0] == key[..|COMPENSATION_PREFIX|][0] == 'c'; }
  }

  // ---- the builders ----

  function ToolText(tool: ToolName): string {
    match tool
    case CreateReplacementPo => "create_replacement_po"
    case ReduceOrCancelPo => "reduce_or_cancel_po"
    case PlacePurchaseOrderHold => "place_purchase_order_hold"
    case NotifyProduction => "notify_production"
    case ScheduleArrivalCheck => "schedule_arrival_check"
    case ReallocateLot => "reallocate_lot"
    case FlagShortageToPurchasing => "flag_shortage_to_purchasing"
  }

  function ActionText(action: ReverseAction): string {
    match action
    case CancelCreatedReplacementPo => "cancel_created_replacement_po"
    case RestoreOriginalPurchaseOrder => "restore_original_purchase_order"
    case RestoreHeldPurchaseOrder => "restore_held_purchase_order"
    case SendCorrectionNotification => "send_correction_notification"
    case CancelArrivalCheck => "cancel_arrival_check"
    case RestorePriorAllocation => "restore_prior_allocation"
  }

  function Fields(a: string, b: string, c: string, d: string): string { a + ":" + (b + ":" + (c + ":" + d)) }

  // `digest` is the truncated SHA-256 of the canonical input, respectively of the original key.
  function ToolKey(id: WorkflowId, index: nat, tool: ToolName, digest: string): Key {
    TOOL_PREFIX + Fields(id, Decimal(index), ToolText(tool), digest)
  }

  function CompensationKey(id: WorkflowId, index: nat, action: ReverseAction, digest: string): Key {
    COMPENSATION_PREFIX + Fields(id, Decimal(index), ActionText(action), digest)
  }

  // ---- reading a key back ----

  predicate NoColon(s: string) { ':' !in s }

  function FirstColon(s: string): nat {
    if s == "" || s[0] == ':' then 0 else 1 + FirstColon(s[1..])
  }

  lemma {:induction false} FirstColonIs(a: string, rest: string)
    requires NoColon(a)
    ensures FirstColon(a + ":" + rest) == |a|
  {
    if a == "" {
      assert (a + ":" + rest)[0] == ':';
    } else {
      assert (a + ":" + rest)[0] == a[0] && (a + ":" + rest)[1..] == a[1..] + ":" + rest;
      FirstColonIs(a[1..], rest);
    }
  }

  lemma FirstFieldIs(a: string, x: string, b: string, y: string)
    requires NoColon(a) && NoColon(b) && a + ":" + x == b + ":" + y
    ensures a == b && x == y
  {
    FirstColonIs(a, x);
    FirstColonIs(b, y);
    assert (a + ":" + x)[..|a|] == a && (b + ":" + y)[..|b|] == b;
    assert (a + ":" + x)[|a| + 1..] == x && (b + ":" + y)[|b| + 1..] == y;
  }

  lemma FieldsAre(a: string, b: string, c: string, d: string, a': string, b': string, c': string, d': string)
    requires NoColon(a) && NoColon(b) && NoColon(c) && NoColon(a') && NoColon(b') && NoColon(c')
    requires Fields(a, b, c, d) == Fields(a', b', c', d')
    ensures a == a' && b == b' && c == c' && d == d'
  {
    FirstFieldIs(a, b + ":" + (c + ":" + d), a', b' + ":" + (c' + ":" + d'));
    FirstFieldIs(b, c + ":" + d, b', c' + ":" + d');
    FirstFieldIs(c, d, c', d');
  }

  lemma ToolTextLength(tool: ToolName)
    ensures |ToolText(tool)| == match tool
                                case CreateReplacementPo => 21
                                case ReduceOrCancelPo => 19
                                case PlacePurchaseOrderHold => 25
                                case NotifyProduction => 17
                                case ScheduleArrivalCheck => 22
                                case ReallocateLot => 14
                                case FlagShortageToPurchasing => 27
  {}

  lemma ToolTextIdentifies(a: ToolName, b: ToolName)
    requires ToolText(a) == ToolText(b)
    ensures a == b
  {
    ToolTextLength(a);
    ToolTextLength(b);
  }

  lemma ToolTextIsText(tool: ToolName)
    ensures NoColon(ToolText(tool))
  {
    match tool
    case CreateReplacementPo => assert NoColon("create_replacement_po");
    case ReduceOrCancelPo => assert NoColon("reduce_or_cancel_po");
    case PlacePurchaseOrderHold => assert NoColon("place_purchase_order_hold");
    case NotifyProduction => assert NoColon("notify_production");
    case ScheduleArrivalCheck => assert NoColon("schedule_arrival_check");
    case ReallocateLot => assert NoColon("reallocate_lot");
    case FlagShortageToPurchasing => assert NoColon("flag_shortage_to_purchasing");
  }

  // A tool key gives back the workflow, the step, the tool and the digest it was built from.
  lemma ToolKeyIdentifies(id: WorkflowId, index: nat, tool: ToolName, digest: string,
                          id': WorkflowId, index': nat, tool': ToolName, digest': string)
    requires NoColon(id) && NoColon(id') && ToolKey(id, index, tool, digest) == ToolKey(id', index', tool', digest')
    ensures id == id' && index == index' && tool == tool' && digest == digest'
  {
    var a, b := ToolKey(id, index, tool, digest), ToolKey(id', index', tool', digest');
    assert a[|TOOL_PREFIX|..] == Fields(id, Decimal(index), ToolText(tool), digest);
    assert b[|TOOL_PREFIX|..] == Fields(id', Decimal(index'), ToolText(tool'), digest');
    DecimalIsText(index);
    DecimalIsText(index');
    ToolTextIsText(tool);
    ToolTextIsText(tool');
    FieldsAre(id, Decimal(index), ToolText(tool), digest, id', Decimal(index'), ToolText(tool'), digest');
    DecimalIdentifies(index, index');
    ToolTextIdentifies(tool, tool');
  }

  // The text of the keys.
  lemma KeysRead(id: WorkflowId, digest: string)
    ensures ToolKey(id, 2, ReallocateLot, digest) == "tool:v1:" + (id + ":" + ("2" + ":" + ("reallocate_lot" + ":" + digest)))
    ensures CompensationKey(id, 13, RestorePriorAllocation, digest) ==
            "compensation:v1:" + (id + ":" + ("13" + ":" + ("restore_prior_allocation" + ":" + digest)))
  {
    DecimalsAre();
    hide Decimal;
  }

  lemma DecimalsAre()
    ensures Decimal(2) == "2" && Decimal(13) == "13"
  {}

  // No key serves a tool call and a reversal.
  lemma BuiltKeysDiffer(id: WorkflowId, index: nat, tool: ToolName, digest: string,
                        id': WorkflowId, index': nat, action: ReverseAction, digest': string)
    ensures IsToolKey(ToolKey(id, index, tool, digest))
    ensures IsCompensationKey(CompensationKey(id', index', action, digest'))
    ensures ToolKey(id, index, tool, digest) != CompensationKey(id', index', action, digest')
  {
    assert ToolKey(id, index, tool, digest)[..|TOOL_PREFIX|] == TOOL_PREFIX;
    assert CompensationKey(id', index', action, digest')[..|COMPENSATION_PREFIX|] == COMPENSATION_PREFIX;
    KeysDiffer(ToolKey(id, index, tool, digest));
  }

  // ---- built keys in the store ----

  predicate BuiltFor(id: WorkflowId, index: nat, tool: ToolName, key: Key, digest: string) {
    key == ToolKey(id, index, tool, digest)
  }

  // Every step's key was built for that step; workflow ids are UUID text.
  ghost predicate KeysBuilt(db: Database) {
    (forall id :: id in db ==> NoColon(id)) && forall id, i: nat :: KeyBuiltAt(db, id, i)
  }

  ghost predicate StepKeyBuilt(id: WorkflowId, index: nat, step: Step) {
    step.key.Some? ==> exists tool, digest :: BuiltFor(id, index, tool, step.key.value, digest)
  }

  ghost predicate KeyBuiltAt(db: Database, id: WorkflowId, i: nat) {
    id in db && i < |db[id].steps| ==> StepKeyBuilt(id, i + 1, db[id].steps[i])
  }

  // With built keys the unique constraint never fires: starting a step never raises.
  lemma BuiltKeysNeverCollide(db: Database, id: WorkflowId, op: Op, tool: ToolName, digest: string)
    requires KeysBuilt(db) && op.StartTool? && op.index >= 1 && op.key == ToolKey(id, op.index, tool, digest) && NoColon(id)
    ensures !ApplyTo(db, id, op).Raised?
  {
    hide ToolKey, NoColon, Apply;
    if id in db { StartNeverRaises(db[id], op); }
    forall other, i | other in db && 0 <= i < |db[other].steps| && db[other].steps[i].key == Some(op.key)
      ensures other == id && i == op.index - 1
    {
      OwnerIs(db, id, op, tool, digest, other, i);
    }
  }

  lemma StartNeverRaises(s: Snapshot, op: Op)
    requires op.StartTool?
    ensures !Apply(s, op).Raised?
  {}

  lemma OwnerIs(db: Database, id: WorkflowId, op: Op, tool: ToolName, digest: string, other: WorkflowId, i: nat)
    requires KeysBuilt(db) && op.StartTool? && op.index >= 1 && op.key == ToolKey(id, op.index, tool, digest) && NoColon(id)
    requires other in db && i < |db[other].steps| && db[other].steps[i].key == Some(op.key)
    ensures other == id && i == op.index - 1
  {
    hide ToolKey, NoColon, KeysBuilt;
    var t, d := BuilderOf(db, other, i, op.key);
    ToolKeyIdentifies(id, op.index, tool, digest, other, i + 1, t, d);
  }

  lemma BuilderOf(db: Database, id: WorkflowId, i: nat, key: Key) returns (tool: ToolName, digest: string)
    requires KeysBuilt(db) && id in db && i < |db[id].steps| && db[id].steps[i].key == Some(key)
    ensures key == ToolKey(id, i + 1, tool, digest) && NoColon(id)
  {
    hide StepKeyBuilt, ToolKey, NoColon;
    assert KeyBuiltAt(db, id, i);
    tool, digest := BuilderOfStep(id, i + 1, db[id].steps[i], key);
  }

  lemma BuilderOfStep(id: WorkflowId, index: nat, step: Step, key: Key) returns (tool: ToolName, digest: string)
    requires StepKeyBuilt(id, index, step) && step.key == Some(key)
    ensures key == ToolKey(id, index, tool, digest)
  {
    hide ToolKey;
    tool, digest :| BuiltFor(id, index, tool, key, digest);
  }

  lemma BuiltKeysStay(db: Database, id: WorkflowId, op: Op, tool: ToolName, digest: string)
    requires KeysBuilt(db) && (op.StartTool? && op.index >= 1 ==> op.key == ToolKey(id, op.index, tool, digest))
    ensures KeysBuilt(DatabaseAfter(db, id, op))
  {
    hide ToolKey, NoColon;
    var after := DatabaseAfter(db, id, op);
    forall other, i: nat ensures KeyBuiltAt(after, other, i) {
      assert KeyBuiltAt(db, other, i);
      if ApplyTo(db, id, op).Committed? && other == id && i < |after[id].steps| {
        TransitionKey(db[id], op, i);
        if op.StartTool? && i == op.index - 1 { assert BuiltFor(id, op.index, tool, op.key, digest); }
      }
    }
  }

  lemma TransitionKey(s: Snapshot, op: Op, i: nat)
    requires Apply(s, op).Committed? && i < |Apply(s, op).after.steps|
    ensures i < |s.steps|
    ensures Apply(s, op).after.steps[i].key == if op.StartTool? && i == op.index - 1 then Some(op.key) else s.steps[i].key
  {}

  // ---- over runs of the store ----

  datatype StoreEvent = Creates(id: WorkflowId, snapshot: Snapshot) | Does(id: WorkflowId, op: Op)

  function StoreNext(db: Database, e: StoreEvent): Database {
    match e
    case Creates(id, snapshot) => if id in db then db else db[id := snapshot]
    case Does(id, op) => DatabaseAfter(db, id, op)
  }

  function StoreRun(db: Database, events: seq<StoreEvent>): Database
    decreases |events|
  {
    if events == [] then db else StoreRun(StoreNext(db, events[0]), events[1..])
  }

  // New workflows under UUID text, and steps started under a key built for them.
  ghost predicate WithBuiltKeys(e: StoreEvent) {
    match e
    case Creates(id, snapshot) => Initial(snapshot) && NoColon(id)
    case Does(id, op) => op.StartTool? && op.index >= 1 ==> exists tool, digest :: BuiltFor(id, op.index, tool, op.key, digest)
  }

  lemma {:induction false} RunKeepsBuiltKeys(db: Database, events: seq<StoreEvent>)
    requires KeysBuilt(db) && forall e :: e in events ==> WithBuiltKeys(e)
    ensures KeysBuilt(StoreRun(db, events))
    decreases |events|
  {
    if events != [] {
      var e := events[0];
      assert WithBuiltKeys(e);
      match e {
        case Creates(id, snapshot) => NewKeysBuilt(db, id, snapshot);
        case Does(id, op) =>
          var tool, digest :| op.StartTool? && op.index >= 1 ==> BuiltFor(id, op.index, tool, op.key, digest);
          BuiltKeysStay(db, id, op, tool, digest);
      }
      hide KeysBuilt, StoreNext, WithBuiltKeys;
      RunKeepsBuiltKeys(StoreNext(db, e), events[1..]);
    }
  }

  lemma NewKeysBuilt(db: Database, id: WorkflowId, snapshot: Snapshot)
    requires KeysBuilt(db) && Initial(snapshot) && NoColon(id)
    ensures KeysBuilt(StoreNext(db, Creates(id, snapshot)))
  {
    hide NoColon;
    var after := StoreNext(db, Creates(id, snapshot));
    forall other, i: nat ensures KeyBuiltAt(after, other, i) { assert KeyBuiltAt(db, other, i); }
  }

  // Over every run from empty tables, however keys are digested: starting a step under its built key
  // never meets the unique constraint.
  lemma BuiltKeysNeverRaise(events: seq<StoreEvent>, id: WorkflowId, op: Op, tool: ToolName, digest: string)
    requires (forall e :: e in events ==> WithBuiltKeys(e)) && op.StartTool?
    requires op.index >= 1 ==> op.key == ToolKey(id, op.index, tool, digest)
    ensures !ApplyTo(StoreRun(map[], events), id, op).Raised?
  {
    var db := StoreRun(map[], events);
    hide ToolKey, NoColon, StoreRun;
    assert KeysBuilt(map[]);
    RunKeepsBuiltKeys(map[], events);
    if id in db && op.index >= 1 { BuiltKeysNeverCollide(db, id, op, tool, digest); }
  }
}
