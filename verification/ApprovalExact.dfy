/** What each approval call does from start to end, in terms of the rows and of what the caller brings:
    requests, decisions and escalations, where nobody else interferes and where somebody may. */
module ApprovalExact {
  import opened Records
  import opened Texts
  import opened Clocks
  import opened Json
  import opened Canonical
  import opened PlanHash
  import opened BoundedPlan
  import opened Approvals
  import opened ApprovalRuns

  // The decider, the hash, both expiries and, for an approval, the source versions are as they must be.
  ghost predicate Decidable(plan: Plan, a: Approval, c: DecisionCall, recompute: Plan -> string) {
    && (a.status == Waiting || a.status == Rerouted)
    && c.decider == a.approver
    && c.at < Instant(plan.expiresAt) && c.at < a.expiresAt
    && c.hash == a.planHash == plan.hash == recompute(plan)
    && match c.sources
       case Some(current) => Same(Obj(current), Obj(plan.sourceVersions))
       case None => true
  }

  // The checks pass exactly for a decidable approval.
  lemma DecisionPassesIff(record: Option<(Plan, Approval)>, c: DecisionCall, recompute: Plan -> string)
    ensures DecisionRefused(record, c, recompute).None? <==>
            record.Some? && Decidable(record.value.0, record.value.1, c, recompute)
  {
    hide Same, Instant;
  }

  lemma LoadedIs(s: State, id: ApprovalId, recompute: Plan -> string)
    requires StateOk(s, recompute)
    ensures Loaded(s.store, id).Some? <==> id in s.store.approvals
    ensures id in s.store.approvals ==>
              var a := s.store.approvals[id];
              a.planId in s.store.plans && Loaded(s.store, id) == Some((s.store.plans[a.planId], a)) && a.planHash == s.store.plans[a.planId].hash
  {
    hide Fits, CheckedOk;
    if id in s.store.approvals { assert RowOk(s, id, recompute); }
  }

  // A decision that nobody comes in between of commits exactly for a decidable approval, and writes
  // the decision and its time; otherwise no row changes.
  lemma DecisionCommits(s: State, caller: nat, c: DecisionCall, recompute: Plan -> string)
    requires StateOk(s, recompute) && WellAsked(c) && caller !in s.callers
    ensures var t := Next(Next(s, CheckDecision(caller, c), recompute), SwapNow(caller), recompute);
            if c.id in s.store.approvals && s.store.approvals[c.id].planId in s.store.plans
               && Decidable(s.store.plans[s.store.approvals[c.id].planId], s.store.approvals[c.id], c, recompute)
            then t.store == s.store.(approvals := s.store.approvals[c.id :=
                              s.store.approvals[c.id].(status := c.decision, decidedAt := Some(c.at))])
            else t.store == s.store
  {
    LoadedIs(s, c.id, recompute);
    DecisionPassesIff(Loaded(s.store, c.id), c, recompute);
    SwapResultIs(s.store, DecideSwap(c));
    hide StateOk, DecisionRefused, Loaded, SwapResult, Same, Instant;
  }

  // ---- escalation ----

  lemma {:induction false} Pow10IsPositive(places: nat)
    ensures Pow10(places) > 0
  {
    if places > 0 { Pow10IsPositive(places - 1); }
  }

  function Amount(d: Dec): real {
    Pow10IsPositive(d.places);
    d.digits as real / Pow10(d.places) as real
  }

  // Decimals compare as the numbers they stand for.
  lemma AtMostIsOrder(a: Dec, b: Dec)
    ensures AtMost(a, b) <==> Amount(a) <= Amount(b)
  {
    Pow10IsPositive(a.places);
    Pow10IsPositive(b.places);
    Ratios(a.digits, Pow10(a.places), b.digits, Pow10(b.places));
  }

  lemma Ratios(m: nat, p: nat, n: nat, q: nat)
    requires p > 0 && q > 0
    ensures m * q <= n * p <==> m as real / p as real <= n as real / q as real
  {
    var x, y, u, v := m as real, n as real, p as real, q as real;
    assert (m * q) as real == x * v && (n * p) as real == y * u;
    assert x / u * u == x && y / v * v == y;
    Scaled(x / u, y / v, u * v);
    assert x / u * (u * v) == (x / u * u) * v == x * v;
    assert y / v * (u * v) == (y / v * v) * u == y * u;
  }

  lemma Scaled(a: real, b: real, k: real)
    requires k > 0.0
    ensures a <= b <==> a * k <= b * k
  {}

  // The right to decide, and a limit in the plan's currency that is not below its value.
  predicate Authorized(authority: Authority, plan: Plan) {
    var currency, value := Get(plan.parameters, "estimated_value_currency"), ReadDecimal(Get(plan.parameters, "estimated_value_amount"));
    && "approval:decide" in authority.scopes && currency.Str? && value.Some? && Upper(currency.s) in authority.limits
    && Amount(value.value) <= Amount(authority.limits[Upper(currency.s)])
  }

  // An out-of-office event covers the day: it was observed by then, and ends then or later, or was
  // observed on that day and has no end.
  predicate Absent(events: seq<CalendarEvent>, day: int) {
    exists e :: e in events && e.outOfOffice
             && if e.ends.Some? then e.observed <= day && day <= e.ends.value else e.observed == day
  }

  predicate SameTask(plan: Plan, a: Approval, c: RoutingCall) {
    a.planHash == plan.hash == c.hash && a.approver == plan.approver == c.original
  }

  // Every outcome of the checks, and exactly when it is given: the first obstacle decides.
  lemma RoutingOutcomes(plan: Plan, a: Approval, c: RoutingCall)
    ensures RoutingChecked(None, c) == MissingApproval
    ensures var waiting := a.status == Waiting;
            var bound := waiting && SameTask(plan, a, c);
            var open := bound && c.at < a.expiresAt && c.at < Instant(plan.expiresAt);
            var backed := open && c.backup.Some?;
            var authorized := backed && Authorized(c.authority, plan);
            var outcome := RoutingChecked(Some((plan, a)), c);
            && (outcome == NotPending <==> !waiting)
            && (outcome == StaleTask <==> waiting && !bound)
            && (outcome == RoutingExpired <==> bound && !open)
            && (outcome == NoBackup <==> open && !backed)
            && (outcome == BackupNotAuthorized <==> backed && !authorized)
            && (outcome == OriginalAvailable <==> authorized && !Absent(c.events, c.dueDay + 1))
            && (outcome == Routed <==> authorized && Absent(c.events, c.dueDay + 1))
  {
    CanDecideIs(c.authority, plan);
    AwayIs(c.events, c.dueDay + 1);
    hide CanDecide, Away, Instant, Authorized, Absent;
  }

  lemma CanDecideIs(authority: Authority, plan: Plan)
    ensures CanDecide(authority, plan) <==> Authorized(authority, plan)
  {
    var currency, value := Get(plan.parameters, "estimated_value_currency"), ReadDecimal(Get(plan.parameters, "estimated_value_amount"));
    if currency.Str? && value.Some? && Upper(currency.s) in authority.limits {
      AtMostIsOrder(value.value, authority.limits[Upper(currency.s)]);
    }
    hide AtMost, Amount, Get, ReadDecimal, Upper;
  }

  lemma AwayIs(events: seq<CalendarEvent>, day: int)
    ensures Away(events, day) <==> Absent(events, day)
  {}

  // An escalation that nobody comes in between of moves the approval to the backup exactly if the
  // outcome is Routed, and otherwise changes no row.
  lemma RoutingCommits(s: State, caller: nat, c: RoutingCall, recompute: Plan -> string)
    requires StateOk(s, recompute) && caller !in s.callers
    ensures var t := Next(Next(s, CheckRouting(caller, c), recompute), SwapNow(caller), recompute);
            if c.id in s.store.approvals && s.store.approvals[c.id].planId in s.store.plans
               && var plan, a := s.store.plans[s.store.approvals[c.id].planId], s.store.approvals[c.id];
               && a.status == Waiting && SameTask(plan, a, c) && c.at < a.expiresAt && c.at < Instant(plan.expiresAt)
               && c.backup.Some? && Authorized(c.authority, plan) && Absent(c.events, c.dueDay + 1)
            then t.store == s.store.(approvals := s.store.approvals[c.id :=
                              s.store.approvals[c.id].(approver := c.backup.value, status := Rerouted)])
            else t.store == s.store
  {
    LoadedIs(s, c.id, recompute);
    if c.id in s.store.approvals { RoutingOutcomes(s.store.plans[s.store.approvals[c.id].planId], s.store.approvals[c.id], c); }
    SwapResultIs(s.store, RerouteSwap(c));
    hide StateOk, RoutingChecked, Loaded, SwapResult, Instant, Authorized, Absent;
  }

  // ---- requests ----

  // A plan gets its rows exactly if it has not expired, was built at this moment, has the hash of its
  // own content, and both ids are new.
  lemma RequestIs(s: State, id: ApprovalId, built: Plan, plan: Plan, session: int, at: Time, recompute: Plan -> string)
    requires ReloadedAs(built, plan, session)
    ensures var t := Next(s, Request(id, built, plan, at), recompute);
            if at < Instant(built.expiresAt) && at == Instant(built.createdAt) && built.hash == recompute(built)
               && built.id !in s.store.plans && id !in s.store.approvals
            then t.store == Store(s.store.plans[built.id := plan],
                                  s.store.approvals[id := Approval(built.id, built.hash, built.actor, built.approver, Waiting, at,
                                                                   Instant(built.expiresAt), None)])
            else t == s
  {
    assert KeptAs(built, plan);
    assert plan.id == built.id && plan.hash == built.hash && plan.actor == built.actor && plan.approver == built.approver;
    assert Instant(plan.expiresAt) == Instant(built.expiresAt);
    hide Instant, KeptAs, ReloadedAs;
  }

  // The triggers let an UPDATE change the approver, the status and the time of a decision, and nothing else,
  // and only while the row has the stored hash of its plan.
  lemma UpdateAllowedIff(s: Store, id: ApprovalId, row: Approval)
    ensures UpdateAllowed(s, id, row) <==>
            && id in s.approvals && row.planId in s.plans && row.planHash == s.plans[row.planId].hash
            && row == s.approvals[id].(approver := row.approver, status := row.status, decidedAt := row.decidedAt)
  {}

  // Whatever approval row is sent along with a plan, both are inserted exactly if they are new and the
  // row carries the stored hash of the plan it names; it then starts undecided.
  lemma PendingIs(s: Store, plan: Plan, id: ApprovalId, row: Approval)
    ensures CreatePending(s, plan, id, row) ==
            if plan.id in s.plans || id in s.approvals then None
            else if row.planId == plan.id && row.planHash == plan.hash
            then Some(Store(s.plans[plan.id := plan], s.approvals[id := row.(decidedAt := None)]))
            else if row.planId in s.plans && row.planId != plan.id && row.planHash == s.plans[row.planId].hash
            then Some(Store(s.plans[plan.id := plan], s.approvals[id := row.(decidedAt := None)]))
            else None
  {}
}
