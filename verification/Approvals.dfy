/** Plans and approvals: the tables with their triggers, the two compare-and-swap statements, and the
    checks that callers make on a snapshot loaded beforehand. */
module Approvals {
  import opened Records
  import opened PlanHash
  import opened Texts
  import opened Clocks
  import opened Json
  import opened Canonical
  import opened BoundedPlan

  type UserId = string
  type ApprovalId = string

  datatype ApprovalStatus = Waiting | Rerouted | Approved | Rejected

  datatype Approval = Approval(
    planId: string, planHash: string, requester: UserId, approver: UserId, status: ApprovalStatus,
    requestedAt: Time, expiresAt: Time, decidedAt: Option<Time>)

  datatype Store = Store(plans: map<string, Plan>, approvals: map<ApprovalId, Approval>)

  // ---- the triggers ----

  // trg_approvals_plan_hash, before every insert and update.
  predicate HashMatches(s: Store, row: Approval) {
    row.planId in s.plans && s.plans[row.planId].hash == row.planHash
  }

  // trg_approvals_binding_immutable, before every update.
  predicate BindingKept(before: Approval, row: Approval) {
    row.planId == before.planId && row.planHash == before.planHash && row.requester == before.requester
    && row.requestedAt == before.requestedAt && row.expiresAt == before.expiresAt
  }

  // Any UPDATE of one approval row, as the triggers let it through; plans admit no UPDATE or DELETE.
  predicate UpdateAllowed(s: Store, id: ApprovalId, row: Approval) {
    id in s.approvals && HashMatches(s, row) && BindingKept(s.approvals[id], row)
  }

  // ---- the statements ----

  predicate Undecided(a: Approval) { a.status == Waiting || a.status == Rerouted }

  // None: no row matched. The two inserts are one transaction, so either failing leaves nothing.
  function CreatePending(s: Store, plan: Plan, id: ApprovalId, row: Approval): Option<Store> {
    if plan.id in s.plans || id in s.approvals then None
    else
      var withPlan := s.(plans := s.plans[plan.id := plan]);
      var inserted := row.(decidedAt := None);
      if !HashMatches(withPlan, inserted) then None
      else Some(withPlan.(approvals := s.approvals[id := inserted]))
  }

  function Decide(s: Store, id: ApprovalId, hash: string, decider: UserId, decision: ApprovalStatus, at: Time): Option<Store> {
    if id !in s.approvals then None
    else
      var a := s.approvals[id];
      if !(Undecided(a) && a.planHash == hash && a.approver == decider && a.expiresAt > at) then None
      else Some(s.(approvals := s.approvals[id := a.(status := decision, decidedAt := Some(at))]))
  }

  function Reroute(s: Store, id: ApprovalId, hash: string, original: UserId, backup: UserId, at: Time): Option<Store> {
    if id !in s.approvals then None
    else
      var a := s.approvals[id];
      if !(a.status == Waiting && a.planHash == hash && a.approver == original && a.expiresAt > at) then None
      else Some(s.(approvals := s.approvals[id := a.(approver := backup, status := Rerouted)]))
  }

  class ApprovalTables {
    var store: Store

    constructor ()
      ensures store == Store(map[], map[])
    {
      store := Store(map[], map[]);
    }

    method InsertPending(plan: Plan, id: ApprovalId, row: Approval) returns (ok: bool)
      modifies this
      ensures ok == CreatePending(old(store), plan, id, row).Some?
      ensures store == if ok then CreatePending(old(store), plan, id, row).value else old(store)
    {
      if plan.id in store.plans { return false; }
      var before := store;
      store := store.(plans := store.plans[plan.id := plan]);
      var inserted := row.(decidedAt := None);
      if id in store.approvals || inserted.planId !in store.plans || store.plans[inserted.planId].hash != inserted.planHash {
        store := before;  // roll back
        return false;
      }
      store := store.(approvals := store.approvals[id := inserted]);
      ok := true;
    }

    // approve and reject. Under the stored-hash invariant the update triggers never fire.
    method DecideActive(id: ApprovalId, hash: string, decider: UserId, decision: ApprovalStatus, at: Time)
      returns (row: Option<Approval>)
      modifies this
      ensures row.Some? <==> Decide(old(store), id, hash, decider, decision, at).Some?
      ensures store == if row.Some? then Decide(old(store), id, hash, decider, decision, at).value else old(store)
      ensures row.Some? ==> id in store.approvals && row.value == store.approvals[id]
    {
      if id !in store.approvals { return None; }
      var a := store.approvals[id];
      if a.status != Waiting && a.status != Rerouted { return None; }
      if a.planHash != hash || a.approver != decider || a.expiresAt <= at { return None; }
      a := a.(status := decision, decidedAt := Some(at));
      store := store.(approvals := store.approvals[id := a]);
      row := Some(a);
    }

    method ReroutePending(id: ApprovalId, hash: string, original: UserId, backup: UserId, at: Time)
      returns (row: Option<Approval>)
      modifies this
      ensures row.Some? <==> Reroute(old(store), id, hash, original, backup, at).Some?
      ensures store == if row.Some? then Reroute(old(store), id, hash, original, backup, at).value else old(store)
      ensures row.Some? ==> id in store.approvals && row.value == store.approvals[id]
    {
      if id !in store.approvals { return None; }
      var a := store.approvals[id];
      if a.status != Waiting || a.planHash != hash || a.approver != original || a.expiresAt <= at { return None; }
      a := a.(approver := backup, status := Rerouted);
      store := store.(approvals := store.approvals[id := a]);
      row := Some(a);
    }
  }

  function Loaded(s: Store, id: ApprovalId): Option<(Plan, Approval)> {
    if id !in s.approvals || s.approvals[id].planId !in s.plans then None
    else Some((s.plans[s.approvals[id].planId], s.approvals[id]))
  }

  // ---- what callers check on the snapshot they loaded ----

  datatype Refusal = Missing | NotOpen | NotApprover | PlanExpired | WrongHash | ContentChanged | Stale

  // sources: the current source versions, for an approval; None for a rejection, which skips that check.
  datatype DecisionCall = DecisionCall(id: ApprovalId, hash: string, decider: UserId, decision: ApprovalStatus,
                                       sources: Option<seq<Field>>, at: Time)

  ghost function DecisionRefused(record: Option<(Plan, Approval)>, c: DecisionCall, recompute: Plan -> string): Option<Refusal> {
    match record
    case None => Some(Missing)
    case Some((plan, a)) =>
      if !Undecided(a) then Some(NotOpen)
      else if c.decider != a.approver then Some(NotApprover)
      else if c.at >= Instant(plan.expiresAt) || c.at >= a.expiresAt then Some(PlanExpired)
      else if c.hash != plan.hash || a.planHash != plan.hash then Some(WrongHash)
      else if recompute(plan) != plan.hash then Some(ContentChanged)
      else if c.sources.Some? && !Same(Obj(c.sources.value), Obj(plan.sourceVersions)) then Some(Stale)
      else None
  }

  datatype RoutingOutcome =
    | Routed | NotPending | RoutingExpired | StaleTask | MissingApproval | NoBackup | BackupNotAuthorized
    | OriginalAvailable | RaceLost

  // What the identity directory says of a user: current scopes, and limits by currency.
  datatype Authority = Authority(scopes: set<string>, limits: map<string, Dec>)

  predicate AtMost(a: Dec, b: Dec) { a.digits * Pow10(b.places) <= b.digits * Pow10(a.places) }

  // A calendar event in days: the day it was observed on, and the day it ends where it says so.
  datatype CalendarEvent = CalendarEvent(outOfOffice: bool, observed: int, ends: Option<int>)

  // What the claimed task carries, what the directory answers for the original approver's backup,
  // and the calendar events of the original approver; dueDay is the day of the task's due time.
  datatype RoutingCall = RoutingCall(id: ApprovalId, original: UserId, hash: string, backup: Option<UserId>,
                                     authority: Authority, events: seq<CalendarEvent>, dueDay: int, at: Time)

  // Explicit authority to decide, and a limit that covers the plan's value in its currency.
  predicate CanDecide(authority: Authority, plan: Plan) {
    var amount, currency := Get(plan.parameters, "estimated_value_amount"), Get(plan.parameters, "estimated_value_currency");
    && "approval:decide" in authority.scopes && currency.Str?
    && var value := ReadDecimal(amount);
    value.Some? && Upper(currency.s) in authority.limits && AtMost(value.value, authority.limits[Upper(currency.s)])
  }

  // Away on this very day.
  predicate Away(events: seq<CalendarEvent>, day: int) {
    exists i :: 0 <= i < |events| && events[i].outOfOffice
      && events[i].observed <= day <= (if events[i].ends.Some? then events[i].ends.value else events[i].observed)
  }

  // Routed: go on to the swap.
  function RoutingChecked(record: Option<(Plan, Approval)>, c: RoutingCall): RoutingOutcome {
    match record
    case None => MissingApproval
    case Some((plan, a)) =>
      if a.status != Waiting then NotPending
      else if a.planHash != c.hash || plan.hash != c.hash || a.approver != c.original || plan.approver != c.original then StaleTask
      else if a.expiresAt <= c.at || Instant(plan.expiresAt) <= c.at then RoutingExpired
      else if c.backup.None? then NoBackup
      else if !CanDecide(c.authority, plan) then BackupNotAuthorized
      else if !Away(c.events, c.dueDay + 1) then OriginalAvailable
      else Routed
  }
}
