/** Every interleaving of requests, deciders and routing: each caller loads and checks first, and
    swaps some time later, when anything may have happened in between. */
module ApprovalRuns {
  import opened Records
  import opened Clocks
  import opened Json
  import opened Canonical
  import opened PlanHash
  import opened Approvals

  // A caller between its checks and its swap.
  datatype Swap = DecideSwap(d: DecisionCall) | RerouteSwap(r: RoutingCall)

  function Target(swap: Swap): ApprovalId { if swap.DecideSwap? then swap.d.id else swap.r.id }

  function Hash(swap: Swap): string { if swap.DecideSwap? then swap.d.hash else swap.r.hash }

  function When(swap: Swap): Time { if swap.DecideSwap? then swap.d.at else swap.r.at }

  datatype Entry =
    | Decided(who: UserId, decision: ApprovalStatus, sources: Option<seq<Field>>, at: Time)
    | Moved(r: RoutingCall)

  // history: what was committed to each approval, oldest first.
  datatype State = State(store: Store, callers: map<nat, Swap>, history: map<ApprovalId, seq<Entry>>)

  datatype Event =
    | Request(id: ApprovalId, built: Plan, plan: Plan, at: Time)   // plan: what storage makes of built
    | CheckDecision(caller: nat, d: DecisionCall)
    | CheckRouting(caller: nat, r: RoutingCall)
    | SwapNow(caller: nat)          // a caller that crashed never gets here

  // The row that the request service inserts for a plan.
  function Requested(plan: Plan, at: Time): Approval {
    Approval(plan.id, plan.hash, plan.actor, plan.approver, Waiting, at, Instant(plan.expiresAt), None)
  }

  function HistoryOf(s: State, id: ApprovalId): seq<Entry> { if id in s.history then s.history[id] else [] }

  function SwapResult(s: Store, swap: Swap): Option<Store> {
    match swap
    case DecideSwap(c) => Decide(s, c.id, c.hash, c.decider, c.decision, c.at)
    case RerouteSwap(c) => if c.backup.None? then None else Reroute(s, c.id, c.hash, c.original, c.backup.value, c.at)
  }

  function EntryOf(swap: Swap): Entry {
    match swap
    case DecideSwap(c) => Decided(c.decider, c.decision, c.sources, c.at)
    case RerouteSwap(c) => Moved(c)
  }

  ghost predicate KeptAs(built: Plan, plan: Plan) { exists session :: ReloadedAs(built, plan, session) }

  // approve takes the current source versions, and reject takes none.
  predicate WellAsked(c: DecisionCall) {
    if c.sources.Some? then c.decision == Approved else c.decision == Rejected
  }

  ghost function Next(s: State, e: Event, recompute: Plan -> string): State {
    match e
    case Request(id, built, plan, at) =>
      if Instant(built.expiresAt) <= at || Instant(built.createdAt) != at || recompute(built) != built.hash || !KeptAs(built, plan) then s
      else
        var created := CreatePending(s.store, plan, id, Requested(plan, at));
        if created.None? then s else s.(store := created.value, history := s.history[id := []])
    case CheckDecision(caller, c) =>
      if WellAsked(c) && DecisionRefused(Loaded(s.store, c.id), c, recompute).None?
      then s.(callers := s.callers[caller := DecideSwap(c)]) else s
    case CheckRouting(caller, c) =>
      if RoutingChecked(Loaded(s.store, c.id), c) == Routed then s.(callers := s.callers[caller := RerouteSwap(c)]) else s
    case SwapNow(caller) =>
      if caller !in s.callers then s
      else
        var swap := s.callers[caller];
        var result := SwapResult(s.store, swap);
        var gone := s.(callers := s.callers - {caller});
        if result.None? then gone
        else gone.(store := result.value, history := s.history[Target(swap) := HistoryOf(s, Target(swap)) + [EntryOf(swap)]])
  }

  const EMPTY := State(Store(map[], map[]), map[], map[])

  ghost function Run(s: State, events: seq<Event>, recompute: Plan -> string): State
    decreases |events|
  {
    if events == [] then s else Run(Next(s, events[0], recompute), events[1..], recompute)
  }

  // ---- what every state satisfies ----

  // An approval is given on the plan's own source versions, whatever order they come in; a rejection
  // on none.
  ghost predicate OnSources(plan: Plan, decision: ApprovalStatus, sources: Option<seq<Field>>) {
    match decision
    case Approved => sources.Some? && Same(Obj(sources.value), Obj(plan.sourceVersions))
    case Rejected => sources.None?
    case _ => false
  }

  // A decision is made by `approver`, in time for the plan and for the approval, on unchanged content,
  // and an approval on current evidence.
  ghost predicate Proper(plan: Plan, a: Approval, e: Entry, approver: UserId, recompute: Plan -> string) {
    && e.Decided? && e.who == approver && OnSources(plan, e.decision, e.sources)
    && e.at < Instant(plan.expiresAt) && e.at < a.expiresAt
    && a.planHash == plan.hash == recompute(plan)
  }

  // A move is in time, to a backup with the authority for this plan's value, while the original
  // approver is away on the day after the task was due.
  predicate MovedFrom(plan: Plan, a: Approval, e: Entry) {
    && e.Moved? && e.r.original == plan.approver && e.r.at < Instant(plan.expiresAt) && e.r.at < a.expiresAt
    && e.r.backup.Some? && CanDecide(e.r.authority, plan) && Away(e.r.events, e.r.dueDay + 1)
  }

  function MovedTo(e: Entry): UserId { if e.Moved? && e.r.backup.Some? then e.r.backup.value else "" }

  // The only four histories an approval can have.
  ghost predicate Fits(plan: Plan, a: Approval, h: seq<Entry>, recompute: Plan -> string) {
    match |h|
    case 0 => a.status == Waiting && a.approver == plan.approver && a.decidedAt.None?
    case 1 =>
      if h[0].Moved? then MovedFrom(plan, a, h[0]) && a.status == Rerouted && a.approver == MovedTo(h[0]) && a.decidedAt.None?
      else Proper(plan, a, h[0], plan.approver, recompute) && a.approver == plan.approver
           && a.status == h[0].decision && a.decidedAt == Some(h[0].at)
    case _ =>
      (&& |h| == 2 && MovedFrom(plan, a, h[0]) && Proper(plan, a, h[1], MovedTo(h[0]), recompute)
       && a.approver == MovedTo(h[0]) && a.status == h[1].decision && a.decidedAt == Some(h[1].at))
  }

  ghost predicate RowOk(s: State, id: ApprovalId, recompute: Plan -> string)
    requires id in s.store.approvals
  {
    var a := s.store.approvals[id];
    && a.planId in s.store.plans && HashMatches(s.store, a) && id in s.history
    && Fits(s.store.plans[a.planId], a, s.history[id], recompute)
  }

  // What a caller's checks leave true until its swap: it rests on fields that never change.
  ghost predicate CheckedOk(s: Store, swap: Swap, recompute: Plan -> string) {
    && Target(swap) in s.approvals
    && var a := s.approvals[Target(swap)];
    && a.planId in s.plans
    && var plan := s.plans[a.planId];
    && Hash(swap) == plan.hash && When(swap) < Instant(plan.expiresAt) && When(swap) < a.expiresAt
    && match swap
       case DecideSwap(c) => OnSources(plan, c.decision, c.sources) && plan.hash == recompute(plan)
       case RerouteSwap(c) => c.original == plan.approver && c.backup.Some? && CanDecide(c.authority, plan) && Away(c.events, c.dueDay + 1)
  }

  ghost predicate StateOk(s: State, recompute: Plan -> string) {
    && (forall id :: id in s.store.approvals ==> RowOk(s, id, recompute))
    && (forall caller :: caller in s.callers ==> CheckedOk(s.store, s.callers[caller], recompute))
  }

  // Nothing ever committed is undone: plans stay, and bindings stay.
  predicate Extends(a: Store, b: Store) {
    && (forall p :: p in a.plans ==> p in b.plans && b.plans[p] == a.plans[p])
    && (forall id :: id in a.approvals ==> id in b.approvals && BindingKept(a.approvals[id], b.approvals[id]))
  }

  // The triggers never stop a swap, and no UPDATE they let through, whoever sends it, changes what
  // an approval is bound to.
  lemma TriggersFixBindings(s: Store, swap: Swap, id: ApprovalId, row: Approval)
    requires forall k :: k in s.approvals ==> HashMatches(s, s.approvals[k])
    ensures SwapResult(s, swap).Some? ==> UpdateAllowed(s, Target(swap), SwapResult(s, swap).value.approvals[Target(swap)])
    ensures UpdateAllowed(s, id, row) ==>
      var t := s.(approvals := s.approvals[id := row]);
      Extends(s, t) && forall k :: k in t.approvals ==> HashMatches(t, t.approvals[k])
  {
    SwapResultIs(s, swap);
    hide SwapResult;
  }

  lemma CheckStays(a: Store, b: Store, swap: Swap, recompute: Plan -> string)
    requires Extends(a, b) && CheckedOk(a, swap, recompute)
    ensures CheckedOk(b, swap, recompute)
  {}

  // A row after a swap, and its history with the swap's entry.
  function Swapped(a: Approval, swap: Swap): Approval {
    match swap
    case DecideSwap(d) => a.(status := d.decision, decidedAt := Some(d.at))
    case RerouteSwap(r) => a.(approver := if r.backup.Some? then r.backup.value else "", status := Rerouted)
  }

  predicate Matches(a: Approval, swap: Swap) {
    && a.planHash == Hash(swap) && a.expiresAt > When(swap)
    && match swap
       case DecideSwap(d) => (a.status == Waiting || a.status == Rerouted) && a.approver == d.decider
       case RerouteSwap(r) => a.status == Waiting && a.approver == r.original && r.backup.Some?
  }

  lemma SwapResultIs(s: Store, swap: Swap)
    ensures SwapResult(s, swap).Some? <==> Target(swap) in s.approvals && Matches(s.approvals[Target(swap)], swap)
    ensures SwapResult(s, swap).Some? ==>
      SwapResult(s, swap).value == s.(approvals := s.approvals[Target(swap) := Swapped(s.approvals[Target(swap)], swap)])
  {}

  lemma SwappedFits(plan: Plan, a: Approval, h: seq<Entry>, swap: Swap, recompute: Plan -> string)
    requires Fits(plan, a, h, recompute) && Matches(a, swap) && a.planHash == plan.hash
    requires When(swap) < Instant(plan.expiresAt)
    requires match swap
             case DecideSwap(d) => OnSources(plan, d.decision, d.sources) && plan.hash == recompute(plan)
             case RerouteSwap(r) =>
               r.original == plan.approver && r.backup.Some? && CanDecide(r.authority, plan) && Away(r.events, r.dueDay + 1)
    ensures Fits(plan, Swapped(a, swap), h + [EntryOf(swap)], recompute)
  {}

  lemma SwapMoves(s: State, caller: nat, recompute: Plan -> string)
    requires caller in s.callers && SwapResult(s.store, s.callers[caller]).Some?
    ensures var n, swap := Next(s, SwapNow(caller), recompute), s.callers[caller];
            && Target(swap) in s.store.approvals && var a := s.store.approvals[Target(swap)];
            && Matches(a, swap)
            && n.store == s.store.(approvals := s.store.approvals[Target(swap) := Swapped(a, swap)])
            && n.history == s.history[Target(swap) := HistoryOf(s, Target(swap)) + [EntryOf(swap)]]
            && n.callers == s.callers - {caller}
  {
    SwapResultIs(s.store, s.callers[caller]);
    hide SwapResult, Swapped, Matches, EntryOf;
  }

  lemma SwapKeepsState(s: State, caller: nat, recompute: Plan -> string)
    requires StateOk(s, recompute) && caller in s.callers && SwapResult(s.store, s.callers[caller]).Some?
    ensures var n := Next(s, SwapNow(caller), recompute); StateOk(n, recompute) && Extends(s.store, n.store)
  {
    var n, swap := Next(s, SwapNow(caller), recompute), s.callers[caller];
    var moved := Target(swap);
    SwapMoves(s, caller, recompute);
    assert RowOk(s, moved, recompute) && CheckedOk(s.store, swap, recompute);
    hide SwapResult, Swapped, Fits, Matches, Next, EntryOf, CheckedOk, RowOk;
    SwappedRowOk(s, n, swap, recompute);
    SwapExtends(s.store, n.store, swap);
    hide Extends;
    forall id | id in n.store.approvals ensures RowOk(n, id, recompute) {
      if id != moved { RowStays(s, n, id, recompute); }
    }
    CallersStay(s, n, recompute);
  }

  lemma SwapExtends(s: Store, t: Store, swap: Swap)
    requires Target(swap) in s.approvals && t == s.(approvals := s.approvals[Target(swap) := Swapped(s.approvals[Target(swap)], swap)])
    ensures Extends(s, t)
  {
    hide Swapped;
    SwappedKeepsBinding(s.approvals[Target(swap)], swap);
  }

  lemma RowStays(s: State, n: State, id: ApprovalId, recompute: Plan -> string)
    requires id in s.store.approvals && RowOk(s, id, recompute)
    requires id in n.store.approvals && n.store.approvals[id] == s.store.approvals[id]
    requires n.store.plans == s.store.plans && id in n.history && (id in s.history ==> n.history[id] == s.history[id])
    ensures RowOk(n, id, recompute)
  {
    hide Fits;
  }

  lemma SwappedRowOk(s: State, n: State, swap: Swap, recompute: Plan -> string)
    requires Target(swap) in s.store.approvals && RowOk(s, Target(swap), recompute) && CheckedOk(s.store, swap, recompute)
    requires Matches(s.store.approvals[Target(swap)], swap)
    requires n.store == s.store.(approvals := s.store.approvals[Target(swap) := Swapped(s.store.approvals[Target(swap)], swap)])
    requires n.history == s.history[Target(swap) := s.history[Target(swap)] + [EntryOf(swap)]]
    ensures RowOk(n, Target(swap), recompute)
  {
    hide Fits, Matches, Swapped;
    var a := s.store.approvals[Target(swap)];
    SwappedKeepsBinding(a, swap);
    SwappedFits(s.store.plans[a.planId], a, s.history[Target(swap)], swap, recompute);
  }

  lemma SwappedKeepsBinding(a: Approval, swap: Swap)
    ensures BindingKept(a, Swapped(a, swap))
  {}

  lemma RequestAdds(s: State, e: Event, recompute: Plan -> string)
    requires e.Request? && Next(s, e, recompute) != s
    ensures var n := Next(s, e, recompute);
            && e.plan.id !in s.store.plans && e.id !in s.store.approvals
            && n.store == Store(s.store.plans[e.plan.id := e.plan], s.store.approvals[e.id := Requested(e.plan, e.at)])
            && n.history == s.history[e.id := []] && n.callers == s.callers && RowOk(n, e.id, recompute)
  {}

  lemma KeptByRequest(s: State, n: State, e: Event, id: ApprovalId, recompute: Plan -> string)
    requires e.Request? && e.plan.id !in s.store.plans && e.id !in s.store.approvals && id in s.store.approvals
    requires n.store == Store(s.store.plans[e.plan.id := e.plan], s.store.approvals[e.id := Requested(e.plan, e.at)])
    requires n.history == s.history[e.id := []] && RowOk(s, id, recompute)
    ensures RowOk(n, id, recompute)
  {
    hide Fits;
  }

  lemma RequestKeepsState(s: State, e: Event, recompute: Plan -> string)
    requires StateOk(s, recompute) && e.Request?
    ensures var n := Next(s, e, recompute); StateOk(n, recompute) && Extends(s.store, n.store)
  {
    var n := Next(s, e, recompute);
    hide Next, CheckedOk, Fits, HashMatches;
    if n != s {
      RequestAdds(s, e, recompute);
      forall id | id in n.store.approvals ensures RowOk(n, id, recompute) {
        if id != e.id { assert RowOk(s, id, recompute); KeptByRequest(s, n, e, id, recompute); }
      }
      hide RowOk;
      CallersStay(s, n, recompute);
    }
  }

  lemma CheckKeepsState(s: State, e: Event, recompute: Plan -> string)
    requires StateOk(s, recompute) && (e.CheckDecision? || e.CheckRouting?)
    ensures var n := Next(s, e, recompute); StateOk(n, recompute) && n.store == s.store
  {
    var n := Next(s, e, recompute);
    hide Fits;
    forall id | id in n.store.approvals ensures RowOk(n, id, recompute) { assert RowOk(s, id, recompute); }
    forall caller | caller in n.callers ensures CheckedOk(n.store, n.callers[caller], recompute) {
      if caller in s.callers && n.callers[caller] == s.callers[caller] {
        assert CheckedOk(s.store, s.callers[caller], recompute);
      }
    }
  }

  lemma NextKeepsState(s: State, e: Event, recompute: Plan -> string)
    requires StateOk(s, recompute)
    ensures StateOk(Next(s, e, recompute), recompute) && Extends(s.store, Next(s, e, recompute).store)
  {
    match e
    case Request(_, _, _, _) => RequestKeepsState(s, e, recompute);
    case CheckDecision(_, _) => CheckKeepsState(s, e, recompute);
    case CheckRouting(_, _) => CheckKeepsState(s, e, recompute);
    case SwapNow(caller) =>
      if caller in s.callers && SwapResult(s.store, s.callers[caller]).Some? {
        SwapKeepsState(s, caller, recompute);
      } else {
        MissKeepsState(s, caller, recompute);
      }
  }

  lemma MissKeepsState(s: State, caller: nat, recompute: Plan -> string)
    requires StateOk(s, recompute) && (caller in s.callers ==> SwapResult(s.store, s.callers[caller]).None?)
    ensures var n := Next(s, SwapNow(caller), recompute); StateOk(n, recompute) && n.store == s.store
  {
    hide Fits, CheckedOk;
    var n := Next(s, SwapNow(caller), recompute);
    forall id | id in n.store.approvals ensures RowOk(n, id, recompute) { assert RowOk(s, id, recompute); }
  }

  lemma CallersStay(s: State, n: State, recompute: Plan -> string)
    requires StateOk(s, recompute) && Extends(s.store, n.store)
    requires forall caller :: caller in n.callers ==> caller in s.callers && n.callers[caller] == s.callers[caller]
    ensures forall caller :: caller in n.callers ==> CheckedOk(n.store, n.callers[caller], recompute)
  {
    forall caller | caller in n.callers ensures CheckedOk(n.store, n.callers[caller], recompute) {
      CheckStays(s.store, n.store, s.callers[caller], recompute);
    }
  }

  lemma {:induction false} RunKeepsState(s: State, events: seq<Event>, recompute: Plan -> string)
    requires StateOk(s, recompute)
    ensures StateOk(Run(s, events, recompute), recompute) && Extends(s.store, Run(s, events, recompute).store)
    decreases |events|
  {
    hide StateOk, Next;
    if events != [] {
      NextKeepsState(s, events[0], recompute);
      RunKeepsState(Next(s, events[0], recompute), events[1..], recompute);
    }
  }

  // Over every interleaving: an approval is decided at most once and rerouted at most once, never
  // rerouted after its decision, and decided only by whoever held it then. An APPROVED row was
  // decided by its current approver, before both expiries, on content that still has its hash
  // and on current source versions that are the plan's own.
  lemma ApprovalSafety(events: seq<Event>, recompute: Plan -> string, id: ApprovalId)
    requires id in Run(EMPTY, events, recompute).store.approvals
    ensures var s := Run(EMPTY, events, recompute); var a := s.store.approvals[id]; var h := HistoryOf(s, id);
            && a.planId in s.store.plans && var plan := s.store.plans[a.planId];
            && |h| <= 2
            && (forall i :: 0 <= i < |h| ==> if h[i].Moved? then i == 0 else i == |h| - 1)
            && (forall i :: 0 <= i < |h| && h[i].Moved? ==> MovedFrom(plan, a, h[i]))
            && (forall i :: 0 <= i < |h| && h[i].Decided? ==>
                  h[i].who == if |h| == 2 && h[0].Moved? then MovedTo(h[0]) else plan.approver)
            && (a.status == Approved || a.status == Rejected <==> h != [] && h[|h| - 1].Decided?)
            && (a.status == Rerouted <==> h != [] && h[|h| - 1].Moved?)
            && (a.status == Approved ==>
                  && h != [] && var last := h[|h| - 1];
                  && last == Decided(a.approver, Approved, last.sources, last.at) && a.decidedAt == Some(last.at)
                  && last.at < Instant(plan.expiresAt) && last.at < a.expiresAt
                  && a.planHash == plan.hash == recompute(plan)
                  && last.sources.Some? && Same(Obj(last.sources.value), Obj(plan.sourceVersions)))
  {
    var s := Run(EMPTY, events, recompute);
    ReachedFits(events, recompute, id);
    hide *;
    hide HistoryOf;
    HistoriesMean(s.store.plans[s.store.approvals[id].planId], s.store.approvals[id], HistoryOf(s, id), recompute);
  }

  lemma ReachedFits(events: seq<Event>, recompute: Plan -> string, id: ApprovalId)
    requires id in Run(EMPTY, events, recompute).store.approvals
    ensures var s := Run(EMPTY, events, recompute); var a := s.store.approvals[id];
            a.planId in s.store.plans && Fits(s.store.plans[a.planId], a, HistoryOf(s, id), recompute)
  {
    RunKeepsState(EMPTY, events, recompute);
    var s := Run(EMPTY, events, recompute);
    hide Run, Fits;
    assert RowOk(s, id, recompute);
  }

  // What the four histories say.
  lemma HistoriesMean(plan: Plan, a: Approval, h: seq<Entry>, recompute: Plan -> string)
    requires Fits(plan, a, h, recompute)
    ensures |h| <= 2
    ensures forall i :: 0 <= i < |h| ==> if h[i].Moved? then i == 0 && MovedFrom(plan, a, h[i]) else i == |h| - 1
    ensures forall i :: 0 <= i < |h| && h[i].Decided? ==> h[i].who == if |h| == 2 && h[0].Moved? then MovedTo(h[0]) else plan.approver
    ensures a.status == Approved || a.status == Rejected <==> h != [] && h[|h| - 1].Decided?
    ensures a.status == Rerouted <==> h != [] && h[|h| - 1].Moved?
    ensures a.status == Approved ==>
              && h != [] && var last := h[|h| - 1];
              && last == Decided(a.approver, Approved, last.sources, last.at) && a.decidedAt == Some(last.at)
              && last.at < Instant(plan.expiresAt) && last.at < a.expiresAt && a.planHash == plan.hash == recompute(plan)
              && last.sources.Some? && Same(Obj(last.sources.value), Obj(plan.sourceVersions))
  {
    hide Same, CanDecide, Away, Instant;
  }

  // A request that was accepted is what every later load returns. The tables here hold a plan as the
  // session shows it: `built` with its fields in storage order and its times at the session's offset.
  lemma LoadReturnsTheRequest(before: seq<Event>, id: ApprovalId, built: Plan, plan: Plan, session: int, at: Time,
                              after: seq<Event>, recompute: Plan -> string)
    requires ReloadedAs(built, plan, session)
    requires id !in Run(EMPTY, before, recompute).store.approvals
    requires id in Next(Run(EMPTY, before, recompute), Request(id, built, plan, at), recompute).store.approvals
    ensures var t := Run(Next(Run(EMPTY, before, recompute), Request(id, built, plan, at), recompute), after, recompute);
            && Loaded(t.store, id).Some? && var (loaded, a) := Loaded(t.store, id).value;
            && ReloadedAs(built, loaded, session) && loaded.hash == built.hash == a.planHash
            && a.planId == built.id && a.requester == built.actor && a.requestedAt == at && a.expiresAt == Instant(built.expiresAt)
  {
    var s := Run(EMPTY, before, recompute);
    RunKeepsState(EMPTY, before, recompute);
    var n := Next(s, Request(id, built, plan, at), recompute);
    assert n != s;
    RequestAdds(s, Request(id, built, plan, at), recompute);
    hide Run, Next, StateOk, Instant, RowOk;
    NextKeepsState(s, Request(id, built, plan, at), recompute);
    RunKeepsState(n, after, recompute);
    LoadExtends(n.store, Run(n, after, recompute).store, id);
    SameRequest(built, plan, session, at);
    hide ReloadedAs;
  }

  lemma SameRequest(built: Plan, plan: Plan, session: int, at: Time)
    requires ReloadedAs(built, plan, session)
    ensures Requested(plan, at) == Requested(built, at) && plan.hash == built.hash
  {}

  lemma LoadExtends(a: Store, b: Store, id: ApprovalId)
    requires Extends(a, b) && Loaded(a, id).Some?
    ensures Loaded(b, id).Some? && Loaded(b, id).value.0 == Loaded(a, id).value.0
            && BindingKept(Loaded(a, id).value.1, Loaded(b, id).value.1)
  {}

  // Once an approval has moved to somebody else, its original approver never decides it: neither a
  // check made before the move nor one made after it lets that swap through.
  lemma OriginalCannotDecideAfterMove(s: State, events: seq<Event>, recompute: Plan -> string, id: ApprovalId, c: DecisionCall)
    requires StateOk(s, recompute) && id in s.store.approvals && s.store.approvals[id].status == Rerouted
    requires s.store.approvals[id].planId in s.store.plans
    requires s.store.approvals[id].approver != s.store.plans[s.store.approvals[id].planId].approver
    requires c.id == id && c.decider == s.store.plans[s.store.approvals[id].planId].approver
    ensures var t := Run(s, events, recompute);
            Decide(t.store, id, c.hash, c.decider, c.decision, c.at).None? && DecisionRefused(Loaded(t.store, id), c, recompute).Some?
  {
    RunKeepsState(s, events, recompute);
    MovedStaysMoved(s, events, recompute, id);
  }

  lemma {:induction false} MovedStaysMoved(s: State, events: seq<Event>, recompute: Plan -> string, id: ApprovalId)
    requires StateOk(s, recompute) && id in s.store.approvals && s.store.approvals[id].status != Waiting
    ensures var t := Run(s, events, recompute);
            id in t.store.approvals && t.store.approvals[id].status != Waiting
            && t.store.approvals[id].approver == s.store.approvals[id].approver
    decreases |events|
  {
    hide StateOk;
    if events != [] {
      NextKeepsState(s, events[0], recompute);
      StaysMoved(s, events[0], recompute, id);
      hide Next;
      MovedStaysMoved(Next(s, events[0], recompute), events[1..], recompute, id);
    }
  }

  lemma StaysMoved(s: State, e: Event, recompute: Plan -> string, id: ApprovalId)
    requires StateOk(s, recompute) && id in s.store.approvals && s.store.approvals[id].status != Waiting
    ensures var t := Next(s, e, recompute);
            id in t.store.approvals && t.store.approvals[id].status != Waiting
            && t.store.approvals[id].approver == s.store.approvals[id].approver
  {
    hide RowOk, Fits, CanDecide, Away, DecisionRefused, RoutingChecked, HashMatches;
    if e.SwapNow? && e.caller in s.callers {
      assert CheckedOk(s.store, s.callers[e.caller], recompute);
      SwapResultIs(s.store, s.callers[e.caller]);
      hide SwapResult;
    }
  }

  // A plan whose expiry was not written at the session's offset can be requested but never approved.
  lemma OnlySessionOffsetsAreApproved(p: Plan, stored: Plan, session: int, a: Approval, c: DecisionCall,
                                      digest: string -> string, recompute: Plan -> string)
    requires PlanFits(p) && PlanFits(stored) && CollisionFree(digest) && ReloadedAs(p, stored, session)
    requires p.hash == RecomputeHash(p, digest)
    requires recompute(stored) == RecomputeHash(stored, digest)
    requires DecisionRefused(Some((stored, a)), c, recompute).None?
    ensures p.expiresAt.offset == session
  {
    ReloadKeepsHashIff(p, stored, session, digest);
  }
}
