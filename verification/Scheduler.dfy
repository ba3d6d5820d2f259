/** Scheduled tasks under leases: idempotent scheduling, ordered claims of due work, completion. */
module Scheduler {
  import opened Records
  import opened Texts
  import opened Json
  import opened Canonical

  // Task ids are ordered as their UUID text is; instants and durations share one unit.
  datatype Task = Task(id: nat, kind: string, dueAt: Time, status: TaskStatus, key: Key, payload: Value,
                       attempts: nat, leaseExpiresAt: Option<Time>, completedAt: Option<Time>)

  // The table, in no particular order of its own.
  type Tasks = seq<Task>

  // ---- scheduling ----

  datatype ScheduleReply = Inserted | Replayed | KeyBoundElsewhere | DuplicateId | Invalid

  predicate NewTask(t: Task) {
    t.status == TaskPending && t.attempts == 0 && t.leaseExpiresAt.None? && t.completedAt.None?
    && Strip(t.kind) != "" && Strip(t.key) != ""
  }

  function WithKey(tasks: Tasks, key: Key): Option<Task> {
    if tasks == [] then None else if tasks[0].key == key then Some(tasks[0]) else WithKey(tasks[1..], key)
  }

  predicate SameInput(a: Task, b: Task) {
    a.id == b.id && a.kind == b.kind && a.dueAt == b.dueAt && a.key == b.key && Normal(a.payload) == Normal(b.payload)
  }

  predicate HasId(tasks: Tasks, id: nat) { exists i :: 0 <= i < |tasks| && tasks[i].id == id }

  function ScheduleIn(tasks: Tasks, t: Task): (Tasks, ScheduleReply) {
    if !NewTask(t) then (tasks, Invalid)
    else
      match WithKey(tasks, t.key)
      case Some(row) => (tasks, if SameInput(row, t) then Replayed else KeyBoundElsewhere)
      case None => if HasId(tasks, t.id) then (tasks, DuplicateId) else (tasks + [t], Inserted)
  }

  // ---- claiming ----

  predicate Ready(t: Task, now: Time) {
    (t.status == TaskPending && t.dueAt <= now)
    || (t.status == TaskClaimed && t.leaseExpiresAt.Some? && t.leaseExpiresAt.value <= now)
  }

  // ORDER BY due_at ASC, id ASC
  predicate Before(a: Task, b: Task) { a.dueAt < b.dueAt || (a.dueAt == b.dueAt && a.id < b.id) }

  function Place(t: Task, queue: Tasks): Tasks {
    if queue == [] || Before(t, queue[0]) then [t] + queue else [queue[0]] + Place(t, queue[1..])
  }

  // The ready rows that no other transaction has locked, in claim order.
  function Queue(tasks: Tasks, now: Time, locked: set<nat>): Tasks {
    if tasks == [] then []
    else
      var rest, t := Queue(tasks[..|tasks| - 1], now, locked), tasks[|tasks| - 1];
      if Ready(t, now) && t.id !in locked then Place(t, rest) else rest
  }

  function Chosen(tasks: Tasks, now: Time, limit: nat, locked: set<nat>): Tasks {
    var queue := Queue(tasks, now, locked);
    if |queue| <= limit then queue else queue[..limit]
  }

  function Leased(t: Task, expiresAt: Time): Task {
    t.(status := TaskClaimed, attempts := t.attempts + 1, leaseExpiresAt := Some(expiresAt))
  }

  function IdsOf(tasks: Tasks): set<nat> { set i | 0 <= i < |tasks| :: tasks[i].id }

  function LeaseAll(tasks: Tasks, ids: set<nat>, expiresAt: Time): (r: Tasks)
    ensures |r| == |tasks| && forall i :: 0 <= i < |tasks| ==> r[i] == if tasks[i].id in ids then Leased(tasks[i], expiresAt) else tasks[i]
  {
    seq(|tasks|, i requires 0 <= i < |tasks| => if tasks[i].id in ids then Leased(tasks[i], expiresAt) else tasks[i])
  }

  function ClaimIn(tasks: Tasks, now: Time, limit: nat, locked: set<nat>, duration: nat): Tasks {
    LeaseAll(tasks, IdsOf(Chosen(tasks, now, limit, locked)), now + duration)
  }

  // ---- completing and cancelling ----

  predicate Completable(t: Task, at: Time) {
    t.status == TaskClaimed && t.leaseExpiresAt.Some? && t.leaseExpiresAt.value > at
  }

  function Completed(t: Task, at: Time): Task { t.(status := TaskSucceeded, leaseExpiresAt := None, completedAt := Some(at)) }

  function CompleteIn(tasks: Tasks, id: nat, at: Time): (r: Tasks)
    ensures |r| == |tasks|
    ensures forall i :: 0 <= i < |tasks| ==>
      r[i] == if tasks[i].id == id && Completable(tasks[i], at) then Completed(tasks[i], at) else tasks[i]
  {
    seq(|tasks|, i requires 0 <= i < |tasks| => if tasks[i].id == id && Completable(tasks[i], at) then Completed(tasks[i], at) else tasks[i])
  }

  // The reverse of an arrival check, run by the tool adapter.
  function CancelIn(tasks: Tasks, id: nat, key: Key, at: Time): (r: Tasks)
    ensures |r| == |tasks|
    ensures forall i :: 0 <= i < |tasks| ==>
      r[i] == if tasks[i].id == id && tasks[i].key == key && tasks[i].status == TaskPending
              then tasks[i].(status := TaskCancelled, completedAt := Some(at)) else tasks[i]
  {
    seq(|tasks|, i requires 0 <= i < |tasks| =>
      if tasks[i].id == id && tasks[i].key == key && tasks[i].status == TaskPending
      then tasks[i].(status := TaskCancelled, completedAt := Some(at)) else tasks[i])
  }

  class SchedulerTable {
    var tasks: Tasks
    const duration: nat

    constructor (duration: nat)
      requires duration > 0
      ensures tasks == [] && this.duration == duration
    {
      tasks := [];
      this.duration := duration;
    }

    method Schedule(t: Task) returns (reply: ScheduleReply)
      modifies this
      ensures (tasks, reply) == ScheduleIn(old(tasks), t)
    {
      if !NewTask(t) { return Invalid; }
      var existing := WithKey(tasks, t.key);
      if existing.Some? { return if SameInput(existing.value, t) then Replayed else KeyBoundElsewhere; }
      if HasId(tasks, t.id) { return DuplicateId; }
      tasks := tasks + [t];
      reply := Inserted;
    }

    // locked: the rows that SKIP LOCKED passes over. None: the limit is not positive, an error.
    method ClaimDue(now: Time, limit: int, locked: set<nat>) returns (reply: Option<Tasks>)
      modifies this
      ensures reply.None? <==> limit <= 0
      ensures tasks == if limit <= 0 then old(tasks) else ClaimIn(old(tasks), now, limit, locked, duration)
      ensures reply.Some? ==>
                var claimed, chosen := reply.value, Chosen(old(tasks), now, limit, locked);
                |claimed| == |chosen| && forall i :: 0 <= i < |chosen| ==> claimed[i] == Leased(chosen[i], now + duration)
    {
      if limit <= 0 { return None; }
      var queue: Tasks := [];
      var n := 0;
      while n < |tasks|
        invariant 0 <= n <= |tasks| && tasks == old(tasks)
        invariant queue == Queue(tasks[..n], now, locked)
      {
        assert tasks[..n + 1][..n] == tasks[..n];
        if Ready(tasks[n], now) && tasks[n].id !in locked { queue := Place(tasks[n], queue); }
        n := n + 1;
      }
      assert tasks[..n] == tasks;
      if |queue| > limit { queue := queue[..limit]; }
      var ids := IdsOf(queue);
      var updated: Tasks := [];
      n := 0;
      while n < |tasks|
        invariant 0 <= n <= |tasks| == |old(tasks)| && tasks == old(tasks)
        invariant |updated| == n
        invariant forall i :: 0 <= i < n ==> updated[i] == if tasks[i].id in ids then Leased(tasks[i], now + duration) else tasks[i]
      {
        updated := updated + [if tasks[n].id in ids then Leased(tasks[n], now + duration) else tasks[n]];
        n := n + 1;
      }
      assert updated == LeaseAll(tasks, ids, now + duration);
      tasks := updated;
      reply := Some(seq(|queue|, i requires 0 <= i < |queue| => Leased(queue[i], now + duration)));
    }

    // False: no row matched, and the caller is told that its claim is lost. Nothing here asks which
    // worker completes the task.
    method MarkSucceeded(id: nat, at: Time) returns (ok: bool)
      modifies this
      ensures tasks == CompleteIn(old(tasks), id, at)
      ensures ok <==> exists i :: 0 <= i < |old(tasks)| && old(tasks)[i].id == id && old(tasks)[i].status == TaskClaimed
                               && old(tasks)[i].leaseExpiresAt.Some? && at < old(tasks)[i].leaseExpiresAt.value
    {
      ok := false;
      var updated: Tasks := [];
      var n := 0;
      while n < |tasks|
        invariant 0 <= n <= |tasks| && tasks == old(tasks) && |updated| == n
        invariant forall i :: 0 <= i < n ==>
          updated[i] == if tasks[i].id == id && Completable(tasks[i], at) then Completed(tasks[i], at) else tasks[i]
        invariant ok <==> exists i :: 0 <= i < n && tasks[i].id == id && Completable(tasks[i], at)
      {
        if tasks[n].id == id && Completable(tasks[n], at) {
          updated := updated + [Completed(tasks[n], at)];
          ok := true;
        } else {
          updated := updated + [tasks[n]];
        }
        n := n + 1;
      }
      assert updated == CompleteIn(tasks, id, at);
      tasks := updated;
    }
  }

  // ---- a claim takes the first ready tasks ----

  predicate InOrder(queue: Tasks) { forall i, j :: 0 <= i < j < |queue| ==> !Before(queue[j], queue[i]) }

  lemma {:induction false} PlaceHas(t: Task, queue: Tasks, x: Task)
    ensures x in Place(t, queue) <==> x == t || x in queue
    ensures |Place(t, queue)| == |queue| + 1
  {
    if queue != [] && !Before(t, queue[0]) { PlaceHas(t, queue[1..], x); }
  }

  lemma {:induction false} PlaceKeepsOrder(t: Task, queue: Tasks)
    requires InOrder(queue)
    ensures InOrder(Place(t, queue))
  {
    if queue != [] && !Before(t, queue[0]) {
      PlaceKeepsOrder(t, queue[1..]);
      var rest := Place(t, queue[1..]);
      forall j | 0 <= j < |rest| ensures !Before(rest[j], queue[0]) { PlaceHas(t, queue[1..], rest[j]); }
    }
  }

  lemma {:induction false} QueueHas(tasks: Tasks, now: Time, locked: set<nat>, x: Task)
    ensures x in Queue(tasks, now, locked) <==> x in tasks && Ready(x, now) && x.id !in locked
    ensures InOrder(Queue(tasks, now, locked))
  {
    if tasks != [] {
      var front, t := tasks[..|tasks| - 1], tasks[|tasks| - 1];
      assert tasks == front + [t];
      QueueHas(front, now, locked, x);
      PlaceHas(t, Queue(front, now, locked), x);
      PlaceKeepsOrder(t, Queue(front, now, locked));
    }
  }

  // Pending and due, or claimed under a lease that has run out.
  predicate Waits(t: Task, now: Time) {
    match t.status
    case TaskPending => t.dueAt <= now
    case TaskClaimed => t.leaseExpiresAt.Some? && t.leaseExpiresAt.value <= now
    case _ => false
  }

  // In the order of due times, and of ids where these are equal.
  predicate NotAfter(a: Task, b: Task) { a.dueAt <= b.dueAt && (a.dueAt == b.dueAt ==> a.id <= b.id) }

  // Every claimed task was waiting and unlocked; such a task is left out only when the limit is
  // reached, and then none of the claimed ones comes after it.
  lemma ClaimTakesTheFirst(tasks: Tasks, now: Time, limit: nat, locked: set<nat>, x: Task)
    ensures var chosen := Chosen(tasks, now, limit, locked);
            && |chosen| <= limit && (forall i, j :: 0 <= i < j < |chosen| ==> NotAfter(chosen[i], chosen[j]))
            && (x in chosen ==> x in tasks && Waits(x, now) && x.id !in locked)
            && (x in tasks && Waits(x, now) && x.id !in locked && x !in chosen ==>
                  |chosen| == limit && forall i :: 0 <= i < |chosen| ==> NotAfter(chosen[i], x))
  {
    QueueHas(tasks, now, locked, x);
    var queue, chosen := Queue(tasks, now, locked), Chosen(tasks, now, limit, locked);
    if x in queue && x !in chosen {
      var k :| 0 <= k < |queue| && queue[k] == x;
      assert forall m :: 0 <= m < |chosen| ==> chosen[m] == queue[m];
    }
  }

  predicate Strict(queue: Tasks) { forall i, j :: 0 <= i < j < |queue| ==> Before(queue[i], queue[j]) }

  lemma {:induction false} PlaceKeepsStrict(t: Task, queue: Tasks)
    requires Strict(queue) && forall x :: x in queue ==> x.id != t.id
    ensures Strict(Place(t, queue))
  {
    if queue != [] && !Before(t, queue[0]) {
      PlaceKeepsStrict(t, queue[1..]);
      var rest := Place(t, queue[1..]);
      forall j | 0 <= j < |rest| ensures Before(queue[0], rest[j]) { PlaceHas(t, queue[1..], rest[j]); }
    }
  }

  lemma {:induction false} QueueIsStrict(tasks: Tasks, now: Time, locked: set<nat>)
    requires forall i, j :: 0 <= i < j < |tasks| ==> tasks[i].id != tasks[j].id
    ensures Strict(Queue(tasks, now, locked))
  {
    if tasks != [] {
      var front, t := tasks[..|tasks| - 1], tasks[|tasks| - 1];
      QueueIsStrict(front, now, locked);
      forall x | x in Queue(front, now, locked) ensures x.id != t.id {
        QueueHas(front, now, locked, x);
        var i :| 0 <= i < |front| && front[i] == x;
        assert tasks[i] == x;
      }
      PlaceKeepsStrict(t, Queue(front, now, locked));
    }
  }

  // Nothing is claimed twice in one claim, and the claimed tasks come in strict (due, id) order.
  lemma ClaimIsStrictlyOrdered(tasks: Tasks, now: Time, limit: nat, locked: set<nat>)
    requires forall i, j :: 0 <= i < j < |tasks| ==> tasks[i].id != tasks[j].id
    ensures var chosen := Chosen(tasks, now, limit, locked);
            forall i, j :: 0 <= i < j < |chosen| ==> NotAfter(chosen[i], chosen[j]) && chosen[i].id != chosen[j].id
  {
    QueueIsStrict(tasks, now, locked);
    var queue, chosen := Queue(tasks, now, locked), Chosen(tasks, now, limit, locked);
    assert forall i :: 0 <= i < |chosen| ==> chosen[i] == queue[i];
    forall i, j | 0 <= i < j < |chosen| ensures NotAfter(chosen[i], chosen[j]) && chosen[i].id != chosen[j].id {
      assert Before(queue[i], queue[j]);
      QueueHas(tasks, now, locked, queue[i]);
      QueueHas(tasks, now, locked, queue[j]);
    }
  }

  // ---- leases over whole runs ----

  datatype Act =
    | ScheduleAct(t: Task)
    | ClaimAct(now: Time, limit: nat, locked: set<nat>)
    | CompleteAct(id: nat, at: Time)
    | CancelAct(id: nat, key: Key, at: Time)

  function Next(tasks: Tasks, act: Act, duration: nat): Tasks {
    match act
    case ScheduleAct(t) => ScheduleIn(tasks, t).0
    case ClaimAct(now, limit, locked) => ClaimIn(tasks, now, limit, locked, duration)
    case CompleteAct(id, at) => CompleteIn(tasks, id, at)
    case CancelAct(id, key, at) => CancelIn(tasks, id, key, at)
  }

  function Run(tasks: Tasks, acts: seq<Act>, duration: nat): Tasks
    decreases |acts|
  {
    if acts == [] then tasks else Run(Next(tasks, acts[0], duration), acts[1..], duration)
  }

  // However clocks jump, every attempt has used up a whole lease since the task was due.
  predicate LeaseOk(t: Task, duration: nat) {
    && (t.status == TaskPending ==> t.attempts == 0 && t.leaseExpiresAt.None? && t.completedAt.None?)
    && (t.status == TaskClaimed ==>
          t.attempts >= 1 && t.leaseExpiresAt.Some? && t.attempts * duration <= t.leaseExpiresAt.value - t.dueAt)
    && (t.status == TaskCancelled ==> t.attempts == 0)
    && (t.status == TaskSucceeded || t.status == TaskCancelled ==> t.leaseExpiresAt.None? && t.completedAt.Some?)
  }

  predicate IdsDiffer(tasks: Tasks) { forall i, j :: 0 <= i < j < |tasks| ==> tasks[i].id != tasks[j].id && tasks[i].key != tasks[j].key }

  predicate TableOk(tasks: Tasks, duration: nat) {
    IdsDiffer(tasks) && forall i :: 0 <= i < |tasks| ==> LeaseOk(tasks[i], duration)
  }

  // What a task may turn into.
  predicate Follows(a: Task, b: Task) {
    && b.id == a.id && b.key == a.key && b.kind == a.kind && b.dueAt == a.dueAt && b.payload == a.payload
    && b.attempts >= a.attempts
    && (a.status == TaskSucceeded || a.status == TaskCancelled ==> b == a)
  }

  predicate Evolves(a: Tasks, b: Tasks) { |a| <= |b| && forall i :: 0 <= i < |a| ==> Follows(a[i], b[i]) }

  lemma LeaseExtends(t: Task, now: Time, duration: nat)
    requires LeaseOk(t, duration) && Ready(t, now)
    ensures LeaseOk(Leased(t, now + duration), duration)
  {
    assert (t.attempts + 1) * duration == t.attempts * duration + duration;
  }

  lemma {:induction false} WithKeyFinds(tasks: Tasks, key: Key)
    ensures WithKey(tasks, key).None? ==> forall i :: 0 <= i < |tasks| ==> tasks[i].key != key
    ensures WithKey(tasks, key).Some? ==> WithKey(tasks, key).value in tasks && WithKey(tasks, key).value.key == key
  {
    if tasks != [] { WithKeyFinds(tasks[1..], key); }
  }

  lemma ChosenIsReady(tasks: Tasks, now: Time, limit: nat, locked: set<nat>, i: nat)
    requires IdsDiffer(tasks) && i < |tasks| && tasks[i].id in IdsOf(Chosen(tasks, now, limit, locked))
    ensures Ready(tasks[i], now)
  {
    var chosen := Chosen(tasks, now, limit, locked);
    var k :| 0 <= k < |chosen| && chosen[k].id == tasks[i].id;
    ClaimTakesTheFirst(tasks, now, limit, locked, chosen[k]);
    var j :| 0 <= j < |tasks| && tasks[j] == chosen[k];
  }

  lemma ScheduleKeepsTable(tasks: Tasks, t: Task, duration: nat)
    requires TableOk(tasks, duration)
    ensures TableOk(ScheduleIn(tasks, t).0, duration) && Evolves(tasks, ScheduleIn(tasks, t).0)
  {
    WithKeyFinds(tasks, t.key);
  }

  lemma ClaimKeepsTable(tasks: Tasks, now: Time, limit: nat, locked: set<nat>, duration: nat)
    requires TableOk(tasks, duration)
    ensures var n := ClaimIn(tasks, now, limit, locked, duration); TableOk(n, duration) && Evolves(tasks, n)
  {
    hide Chosen, Ready, LeaseOk;
    var n := ClaimIn(tasks, now, limit, locked, duration);
    forall i | 0 <= i < |tasks| ensures LeaseOk(n[i], duration) && Follows(tasks[i], n[i]) {
      if tasks[i].id in IdsOf(Chosen(tasks, now, limit, locked)) {
        ChosenIsReady(tasks, now, limit, locked, i);
        LeaseExtends(tasks[i], now, duration);
        ReadyIsOpen(tasks[i], now);
      }
    }
  }

  lemma NextKeepsTable(tasks: Tasks, act: Act, duration: nat)
    requires TableOk(tasks, duration)
    ensures TableOk(Next(tasks, act, duration), duration) && Evolves(tasks, Next(tasks, act, duration))
  {
    match act
    case ScheduleAct(t) => ScheduleKeepsTable(tasks, t, duration);
    case ClaimAct(now, limit, locked) => ClaimKeepsTable(tasks, now, limit, locked, duration);
    case CompleteAct(id, at) =>
    case CancelAct(id, key, at) =>
  }

  lemma ReadyIsOpen(t: Task, now: Time)
    requires Ready(t, now)
    ensures t.status == TaskPending || t.status == TaskClaimed
  {}

  lemma {:induction false} RunKeepsTable(tasks: Tasks, acts: seq<Act>, duration: nat)
    requires TableOk(tasks, duration)
    ensures TableOk(Run(tasks, acts, duration), duration) && Evolves(tasks, Run(tasks, acts, duration))
    decreases |acts|
  {
    hide TableOk, Next, Follows;
    if acts == [] {
      FollowsItself(tasks);
    } else {
      var n := Next(tasks, acts[0], duration);
      NextKeepsTable(tasks, acts[0], duration);
      RunKeepsTable(n, acts[1..], duration);
      forall i | 0 <= i < |tasks| ensures Follows(tasks[i], Run(n, acts[1..], duration)[i]) {
        FollowsOn(tasks[i], n[i], Run(n, acts[1..], duration)[i]);
      }
    }
  }

  lemma FollowsItself(tasks: Tasks)
    ensures Evolves(tasks, tasks)
  {}

  lemma FollowsOn(a: Task, b: Task, c: Task)
    requires Follows(a, b) && Follows(b, c)
    ensures Follows(a, c)
  {}

  // From an empty table, whatever is scheduled, claimed, completed and cancelled at whatever times:
  // a CLAIMED task with n attempts has a lease that ends at least n lease durations after it was due.
  lemma LeaseBound(acts: seq<Act>, duration: nat, i: nat)
    requires i < |Run([], acts, duration)| && Run([], acts, duration)[i].status == TaskClaimed
    ensures var t := Run([], acts, duration)[i];
            t.leaseExpiresAt.Some? && 1 <= t.attempts && t.attempts * duration <= t.leaseExpiresAt.value - t.dueAt
  {
    RunKeepsTable([], acts, duration);
  }

  // A succeeded or cancelled task never changes again, and no task changes what it is.
  lemma FinishedTasksStay(before: seq<Act>, after: seq<Act>, duration: nat, i: nat)
    requires i < |Run([], before, duration)|
    ensures var a, b := Run([], before, duration), Run(Run([], before, duration), after, duration);
            && i < |b| && Follows(a[i], b[i])
            && (a[i].status == TaskSucceeded || a[i].status == TaskCancelled ==> b[i] == a[i])
  {
    RunKeepsTable([], before, duration);
    RunKeepsTable(Run([], before, duration), after, duration);
  }

  // Scheduling the same input again, at any later point, changes nothing and is accepted; any other
  // input under the key is refused.
  lemma ReplayIsIdempotent(tasks: Tasks, t: Task, acts: seq<Act>, u: Task, duration: nat)
    requires TableOk(tasks, duration) && ScheduleIn(tasks, t).1 == Inserted && NewTask(u) && u.key == t.key
    ensures var later := Run(ScheduleIn(tasks, t).0, acts, duration);
            ScheduleIn(later, u) == (later, if SameInput(t, u) then Replayed else KeyBoundElsewhere)
  {
    var first := ScheduleIn(tasks, t).0;
    NextKeepsTable(tasks, ScheduleAct(t), duration);
    RunKeepsTable(first, acts, duration);
    var later := Run(first, acts, duration);
    var last := |tasks|;
    assert first[last] == t && Follows(first[last], later[last]);
    WithKeyFinds(later, u.key);
    var row := WithKey(later, u.key).value;
    var k :| 0 <= k < |later| && later[k] == row;
    assert k == last;
  }

  // The dictionary comparison of a replayed payload.
  lemma PayloadsCompareAsDictionaries(a: Task, b: Task)
    requires WellFormed(a.payload) && WellFormed(b.payload)
    ensures SameInput(a, b) <==>
            a.id == b.id && a.kind == b.kind && a.dueAt == b.dueAt && a.key == b.key && Same(a.payload, b.payload)
  {
    SameIsNormalEqual(a.payload, b.payload);
  }

  // ---- what one call does to one row ----

  // A task is completed exactly while its lease runs, and then has no lease and the time it was done.
  lemma CompleteIs(tasks: Tasks, id: nat, at: Time, duration: nat, i: nat)
    requires TableOk(tasks, duration) && i < |tasks|
    ensures CompleteIn(tasks, id, at)[i] ==
            if tasks[i].id == id && tasks[i].status == TaskClaimed && at < tasks[i].leaseExpiresAt.value
            then tasks[i].(status := TaskSucceeded, leaseExpiresAt := None, completedAt := Some(at)) else tasks[i]
  {
    assert LeaseOk(tasks[i], duration);
  }

  // Whoever claims a task has one lease duration to complete it, and not a moment more.
  lemma ClaimLeavesTime(tasks: Tasks, now: Time, limit: nat, locked: set<nat>, duration: nat, i: nat, at: Time)
    requires TableOk(tasks, duration) && i < |tasks| && tasks[i] in Chosen(tasks, now, limit, locked)
    ensures var claimed := ClaimIn(tasks, now, limit, locked, duration);
            && claimed[i] == tasks[i].(status := TaskClaimed, attempts := tasks[i].attempts + 1, leaseExpiresAt := Some(now + duration))
            && (CompleteIn(claimed, tasks[i].id, at)[i].status == TaskSucceeded <==> at < now + duration)
  {
    var chosen := Chosen(tasks, now, limit, locked);
    var k :| 0 <= k < |chosen| && chosen[k] == tasks[i];
    assert chosen[k].id in IdsOf(chosen);
    ClaimKeepsTable(tasks, now, limit, locked, duration);
    hide Chosen;
    CompleteIs(ClaimIn(tasks, now, limit, locked, duration), tasks[i].id, at, duration, i);
  }

  // Only a pending task is cancelled, under its own id and key.
  lemma CancelIs(tasks: Tasks, id: nat, key: Key, at: Time, i: nat)
    requires i < |tasks|
    ensures var t := tasks[i];
            CancelIn(tasks, id, key, at)[i] ==
            match t.status
            case TaskPending => if t.id == id && t.key == key then t.(status := TaskCancelled, completedAt := Some(at)) else t
            case _ => t
  {}

  // A task as a caller may schedule it: pending, never tried, with a type and a key that show something.
  predicate Schedulable(t: Task) {
    && t.status == TaskPending && t.attempts == 0 && t.leaseExpiresAt == None && t.completedAt == None
    && (exists c :: c in t.kind && !Space(c)) && (exists c :: c in t.key && !Space(c))
  }

  // Every answer to a call, and when it is given. Only an insert changes the table.
  lemma ScheduleIs(tasks: Tasks, t: Task)
    requires IdsDiffer(tasks) && WellFormed(t.payload) && forall i :: 0 <= i < |tasks| ==> WellFormed(tasks[i].payload)
    ensures var (after, reply) := ScheduleIn(tasks, t);
            && after == (if reply == Inserted then tasks + [t] else tasks)
            && (reply == Invalid <==> !Schedulable(t))
            && (forall i :: 0 <= i < |tasks| && tasks[i].key == t.key && Schedulable(t) ==>
                  reply == if tasks[i].id == t.id && tasks[i].kind == t.kind && tasks[i].dueAt == t.dueAt && Same(tasks[i].payload, t.payload)
                           then Replayed else KeyBoundElsewhere)
            && ((forall i :: 0 <= i < |tasks| ==> tasks[i].key != t.key) && Schedulable(t) ==>
                  reply == if exists i :: 0 <= i < |tasks| && tasks[i].id == t.id then DuplicateId else Inserted)
  {
    WithKeyFinds(tasks, t.key);
    StripIsEmptyIff(t.kind);
    StripIsEmptyIff(t.key);
    hide Same, Normal, Strip;
    forall i | 0 <= i < |tasks| { PayloadsCompareAsDictionaries(tasks[i], t); }
    hide SameInput;
  }
}
