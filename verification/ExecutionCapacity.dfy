/** Tenant-aware execution capacity (_ExecutionCapacity).

A ticket is admitted into a bounded queue, takes its tenant's semaphore and then the
global one, runs, gives both back and only afterwards leaves the in-flight counters. A
tenant's semaphore is created on first use and thrown away when the tenant looks idle.
The model shows that this reclamation never lets two semaphores of one tenant be in use,
so the limits hold in every interleaving.
*/
module ExecutionCapacity {
  import opened Counting
  import opened Wrappers

  type SlotId = nat
  type TicketId = nat

  datatype Limits = Limits(
    globalLimit: nat, tenantLimit: nat, globalQueue: nat, tenantQueue: nat)

  /** The constructor's checks. */
  predicate ValidLimits(l: Limits) {
    && l.globalLimit >= 1 && l.tenantLimit >= 1 && l.globalQueue >= 1 && l.tenantQueue >= 1
    && l.tenantLimit <= l.globalLimit && l.tenantQueue <= l.globalQueue
  }

  /** The fields the ticket methods share. `slots` maps a tenant to its semaphore. */
  datatype Counters = Counters(
    queued: nat, queuedBy: map<string, nat>,
    inflight: nat, inflightBy: map<string, nat>,
    slots: map<string, SlotId>)

  datatype Rejection = GlobalQueueFull | TenantQueueFull

  // ---------------------------------------------------------------- guarded sections

  function Value(m: map<string, nat>, tenant: string): nat {
    if tenant in m then m[tenant] else 0
  }

  function Decremented(m: map<string, nat>, tenant: string): map<string, nat>
    requires tenant in m && m[tenant] >= 1
  {
    if m[tenant] == 1 then m - {tenant} else m[tenant := m[tenant] - 1]
  }

  function Refusal(c: Counters, l: Limits, tenant: string): Option<Rejection> {
    if c.queued >= l.globalQueue then Some(GlobalQueueFull)
    else if Value(c.queuedBy, tenant) >= l.tenantQueue then Some(TenantQueueFull)
    else None
  }

  function Queued(c: Counters, tenant: string): Counters {
    c.(queued := c.queued + 1, queuedBy := c.queuedBy[tenant := Value(c.queuedBy, tenant) + 1])
  }

  function Unqueued(c: Counters, tenant: string): Counters
    requires c.queued >= 1 && tenant in c.queuedBy && c.queuedBy[tenant] >= 1
  {
    c.(queued := c.queued - 1, queuedBy := Decremented(c.queuedBy, tenant))
  }

  function Discarded(c: Counters, tenant: string): Counters {
    if tenant !in c.queuedBy && tenant !in c.inflightBy then c.(slots := c.slots - {tenant}) else c
  }

  function Started(c: Counters, tenant: string): Counters
    requires c.queued >= 1 && tenant in c.queuedBy && c.queuedBy[tenant] >= 1
  {
    var left := Unqueued(c, tenant);
    left.(inflight := left.inflight + 1,
          inflightBy := left.inflightBy[tenant := Value(left.inflightBy, tenant) + 1])
  }

  function Stopped(c: Counters, tenant: string): Counters
    requires c.inflight >= 1 && tenant in c.inflightBy && c.inflightBy[tenant] >= 1
  {
    Discarded(
      c.(inflight := c.inflight - 1, inflightBy := Decremented(c.inflightBy, tenant)), tenant)
  }

  function Dropped(c: Counters, tenant: string): Counters
    requires c.queued >= 1 && tenant in c.queuedBy && c.queuedBy[tenant] >= 1
  {
    Discarded(Unqueued(c, tenant), tenant)
  }

  class Capacity {
    const limits: Limits
    var queued: nat
    var queuedBy: map<string, nat>
    var inflight: nat
    var inflightBy: map<string, nat>
    var slots: map<string, SlotId>
    var created: nat

    function View(): Counters
      reads this
    {
      Counters(queued, queuedBy, inflight, inflightBy, slots)
    }

    constructor (limits: Limits)
      requires ValidLimits(limits)
      ensures this.limits == limits && created == 0
      ensures View() == Counters(0, map[], 0, map[], map[])
    {
      this.limits := limits;
      queued, queuedBy, inflight, inflightBy := 0, map[], 0, map[];
      slots, created := map[], 0;
    }

    method Admit(tenant: string) returns (reason: Option<Rejection>)
      modifies this
      ensures reason == Refusal(old(View()), limits, tenant)
      ensures View() == if reason.None? then Queued(old(View()), tenant) else old(View())
      ensures created == old(created)
    {
      var tenantQueued := if tenant in queuedBy then queuedBy[tenant] else 0;
      if queued >= limits.globalQueue {
        return Some(GlobalQueueFull);
      } else if tenantQueued >= limits.tenantQueue {
        return Some(TenantQueueFull);
      }
      queued := queued + 1;
      queuedBy := queuedBy[tenant := tenantQueued + 1];
      return None;
    }

    /** The `setdefault` at the start of `execute`. */
    method Slot(tenant: string) returns (slot: SlotId)
      modifies this`slots, this`created
      ensures tenant in old(slots) ==> slots == old(slots) && created == old(created)
      ensures tenant !in old(slots) ==>
        slots == old(slots)[tenant := old(created)] && created == old(created) + 1
      ensures tenant in slots && slot == slots[tenant]
    {
      if tenant !in slots {
        slots := slots[tenant := created];
        created := created + 1;
      }
      slot := slots[tenant];
    }

    method LeaveQueue(tenant: string)
      requires queued >= 1 && tenant in queuedBy && queuedBy[tenant] >= 1
      modifies this
      ensures View() == Unqueued(old(View()), tenant) && created == old(created)
    {
      queued := queued - 1;
      var tenantQueued := queuedBy[tenant] - 1;
      if tenantQueued != 0 {
        queuedBy := queuedBy[tenant := tenantQueued];
      } else {
        queuedBy := queuedBy - {tenant};
      }
    }

    method DiscardIdleTenant(tenant: string)
      modifies this`slots
      ensures View() == Discarded(old(View()), tenant)
    {
      if tenant !in queuedBy && tenant !in inflightBy {
        slots := slots - {tenant};
      }
    }

    method MarkStarted(tenant: string)
      requires queued >= 1 && tenant in queuedBy && queuedBy[tenant] >= 1
      modifies this
      ensures View() == Started(old(View()), tenant) && created == old(created)
    {
      LeaveQueue(tenant);
      inflight := inflight + 1;
      inflightBy := inflightBy[tenant := (if tenant in inflightBy then inflightBy[tenant] else 0) + 1];
    }

    method MarkFinished(tenant: string)
      requires inflight >= 1 && tenant in inflightBy && inflightBy[tenant] >= 1
      modifies this
      ensures View() == Stopped(old(View()), tenant) && created == old(created)
    {
      inflight := inflight - 1;
      var tenantInflight := inflightBy[tenant] - 1;
      if tenantInflight != 0 {
        inflightBy := inflightBy[tenant := tenantInflight];
      } else {
        inflightBy := inflightBy - {tenant};
      }
      DiscardIdleTenant(tenant);
    }

    /** The guarded part of `close`, reached only while the ticket is still queued. */
    method Close(tenant: string)
      requires queued >= 1 && tenant in queuedBy && queuedBy[tenant] >= 1
      modifies this
      ensures View() == Dropped(old(View()), tenant) && created == old(created)
    {
      LeaveQueue(tenant);
      DiscardIdleTenant(tenant);
    }
  }

  // ---------------------------------------------------------------- the state machine

  datatype Stage =
    | Admitted     // queued, not executing yet
    | WantTenant   // waiting for the tenant semaphore
    | WantGlobal   // owns a tenant permit, waiting for a global one
    | Expired      // timed out while owning a tenant permit
    | Slotted      // owns both permits, still queued
    | Running      // owns both permits, in flight
    | Finishing    // permits given back, still in flight
    | Unwound      // timed out, owns nothing, still queued
    | Closed

  datatype Ticket = Ticket(tenant: string, stage: Stage, slot: SlotId)

  predicate IsQueued(t: Ticket) {
    t.stage in {Admitted, WantTenant, WantGlobal, Expired, Slotted, Unwound}
  }

  predicate IsActive(t: Ticket) { t.stage in {Running, Finishing} }

  predicate OwnsTenantPermit(t: Ticket) { t.stage in {WantGlobal, Expired, Slotted, Running} }

  predicate OwnsGlobalPermit(t: Ticket) { t.stage in {Slotted, Running} }

  predicate UsesSlot(t: Ticket) { t.stage == WantTenant || OwnsTenantPermit(t) }

  function QueuedOf(tenant: string): Ticket -> bool {
    (t: Ticket) => t.tenant == tenant && IsQueued(t)
  }

  function ActiveOf(tenant: string): Ticket -> bool {
    (t: Ticket) => t.tenant == tenant && IsActive(t)
  }

  function HoldersOf(tenant: string): Ticket -> bool {
    (t: Ticket) => t.tenant == tenant && OwnsTenantPermit(t)
  }

  const AnyQueued: Ticket -> bool := (t: Ticket) => IsQueued(t)
  const AnyActive: Ticket -> bool := (t: Ticket) => IsActive(t)
  const AnyHolder: Ticket -> bool := (t: Ticket) => OwnsGlobalPermit(t)

  /** `permits` holds the free permits of each tenant semaphore ever created. */
  datatype State = State(
    limits: Limits, counters: Counters, permits: map<SlotId, nat>, free: nat, created: nat,
    tickets: map<TicketId, Ticket>)

  datatype Event =
    | Admit(id: TicketId, tenant: string)
    | Begin(id: TicketId)          // execute: look up or create the tenant semaphore
    | TakeTenant(id: TicketId)
    | TakeGlobal(id: TicketId)
    | Start(id: TicketId)          // _mark_started
    | Expire(id: TicketId)         // a semaphore wait timed out
    | Unwind(id: TicketId)         // the finally block of a timed-out wait
    | GiveBack(id: TicketId)       // the finally block after the body
    | Finish(id: TicketId)         // _mark_finished
    | Close(id: TicketId)

  predicate At(s: State, id: TicketId, stages: set<Stage>) {
    id in s.tickets && s.tickets[id].stage in stages
  }

  predicate CanUnqueue(s: State, tenant: string) {
    s.counters.queued >= 1 && tenant in s.counters.queuedBy && s.counters.queuedBy[tenant] >= 1
  }

  predicate Enabled(s: State, e: Event) {
    match e
    case Admit(id, tenant) => id !in s.tickets && Refusal(s.counters, s.limits, tenant).None?
    case Begin(id) => At(s, id, {Admitted})
    case TakeTenant(id) =>
      At(s, id, {WantTenant}) && s.tickets[id].slot in s.permits && s.permits[s.tickets[id].slot] > 0
    case TakeGlobal(id) => At(s, id, {WantGlobal}) && s.free > 0
    case Start(id) => At(s, id, {Slotted}) && CanUnqueue(s, s.tickets[id].tenant)
    case Expire(id) => At(s, id, {WantTenant, WantGlobal})
    case Unwind(id) => At(s, id, {Expired}) && s.tickets[id].slot in s.permits
    case GiveBack(id) => At(s, id, {Running}) && s.tickets[id].slot in s.permits
    case Finish(id) =>
      && At(s, id, {Finishing}) && s.counters.inflight >= 1
      && s.tickets[id].tenant in s.counters.inflightBy
      && s.counters.inflightBy[s.tickets[id].tenant] >= 1
    case Close(id) => At(s, id, {Admitted, Unwound}) && CanUnqueue(s, s.tickets[id].tenant)
  }

  function Moved(s: State, id: TicketId, stage: Stage): map<TicketId, Ticket>
    requires id in s.tickets
  {
    s.tickets[id := s.tickets[id].(stage := stage)]
  }

  function BeginBy(s: State, id: TicketId): State
    requires id in s.tickets
  {
    var t := s.tickets[id];
    if t.tenant in s.counters.slots then
      s.(tickets := s.tickets[id := t.(stage := WantTenant, slot := s.counters.slots[t.tenant])])
    else
      s.(counters := s.counters.(slots := s.counters.slots[t.tenant := s.created]),
         permits := s.permits[s.created := s.limits.tenantLimit],
         created := s.created + 1,
         tickets := s.tickets[id := t.(stage := WantTenant, slot := s.created)])
  }

  function WithPermit(s: State, slot: SlotId, delta: int): map<SlotId, nat>
    requires slot in s.permits && s.permits[slot] + delta >= 0
  {
    s.permits[slot := s.permits[slot] + delta]
  }

  function Next(s: State, e: Event): State
    requires Enabled(s, e)
  {
    match e
    case Admit(id, tenant) =>
      s.(counters := Queued(s.counters, tenant), tickets := s.tickets[id := Ticket(tenant, Admitted, 0)])
    case Begin(id) => BeginBy(s, id)
    case TakeTenant(id) =>
      s.(permits := WithPermit(s, s.tickets[id].slot, -1), tickets := Moved(s, id, WantGlobal))
    case TakeGlobal(id) => s.(free := s.free - 1, tickets := Moved(s, id, Slotted))
    case Start(id) =>
      s.(counters := Started(s.counters, s.tickets[id].tenant), tickets := Moved(s, id, Running))
    case Expire(id) =>
      s.(tickets := Moved(s, id, if s.tickets[id].stage == WantTenant then Unwound else Expired))
    case Unwind(id) =>
      s.(permits := WithPermit(s, s.tickets[id].slot, 1), tickets := Moved(s, id, Unwound))
    case GiveBack(id) =>
      s.(permits := WithPermit(s, s.tickets[id].slot, 1), free := s.free + 1,
         tickets := Moved(s, id, Finishing))
    case Finish(id) =>
      s.(counters := Stopped(s.counters, s.tickets[id].tenant), tickets := Moved(s, id, Closed))
    case Close(id) =>
      s.(counters := Dropped(s.counters, s.tickets[id].tenant), tickets := Moved(s, id, Closed))
  }

  predicate Initial(s: State) {
    && ValidLimits(s.limits)
    && s == State(s.limits, Counters(0, map[], 0, map[], map[]), map[], s.limits.globalLimit, 0, map[])
  }

  // ---------------------------------------------------------------- invariants

  /** The queue counters are the numbers of queued tickets, absent keys meaning none,
      and stay within their limits. */
  ghost predicate QueueExact(s: State) {
    && s.counters.queued == Count(s.tickets, AnyQueued) <= s.limits.globalQueue
    && forall x: string :: Value(s.counters.queuedBy, x) == Count(s.tickets, QueuedOf(x))
                           && Value(s.counters.queuedBy, x) <= s.limits.tenantQueue
                           && (x in s.counters.queuedBy ==> s.counters.queuedBy[x] >= 1)
  }

  ghost predicate ActiveExact(s: State) {
    && s.counters.inflight == Count(s.tickets, AnyActive)
    && forall x: string :: Value(s.counters.inflightBy, x) == Count(s.tickets, ActiveOf(x))
                           && (x in s.counters.inflightBy ==> s.counters.inflightBy[x] >= 1)
  }

  /** All tickets of a tenant that wait for or own a tenant permit use the mapped semaphore. */
  ghost predicate SlotsShared(s: State) {
    forall id :: id in s.tickets && UsesSlot(s.tickets[id]) ==>
      s.tickets[id].tenant in s.counters.slots
      && s.counters.slots[s.tickets[id].tenant] == s.tickets[id].slot
  }

  ghost predicate SlotsDistinct(s: State) {
    && (forall x :: x in s.counters.slots ==> s.counters.slots[x] < s.created)
    && (forall x, y :: x in s.counters.slots && y in s.counters.slots && x != y ==>
          s.counters.slots[x] != s.counters.slots[y])
  }

  /** Free and owned permits of each mapped semaphore add up to the tenant limit. */
  ghost predicate PermitsExact(s: State) {
    forall x :: x in s.counters.slots ==>
      s.counters.slots[x] in s.permits
      && s.permits[s.counters.slots[x]] + Count(s.tickets, HoldersOf(x)) == s.limits.tenantLimit
  }

  ghost predicate GlobalExact(s: State) {
    s.free + Count(s.tickets, AnyHolder) == s.limits.globalLimit
  }

  /** A mapped semaphore belongs to a tenant with a queued or in-flight ticket. */
  predicate NoIdleSlots(s: State) {
    forall x :: x in s.counters.slots ==> x in s.counters.queuedBy || x in s.counters.inflightBy
  }

  ghost predicate Inv(s: State) {
    && ValidLimits(s.limits) && QueueExact(s) && ActiveExact(s) && SlotsShared(s)
    && SlotsDistinct(s) && PermitsExact(s) && GlobalExact(s) && NoIdleSlots(s)
  }

  // ---------------------------------------------------------------- preservation

  /** `s'` differs from `s` in ticket `id`, which keeps its tenant. */
  ghost predicate OnlyMoves(s: State, s': State, id: TicketId) {
    && s'.limits == s.limits && id in s'.tickets && s'.tickets == s.tickets[id := s'.tickets[id]]
    && (id in s.tickets ==> s'.tickets[id].tenant == s.tickets[id].tenant)
  }

  function Was(s: State, id: TicketId, p: Ticket -> bool): int {
    if id in s.tickets && p(s.tickets[id]) then 1 else 0
  }

  lemma Recount(s: State, s': State, id: TicketId, p: Ticket -> bool)
    requires OnlyMoves(s, s', id)
    ensures Count(s'.tickets, p) == Count(s.tickets, p) - Was(s, id, p) + Was(s', id, p)
  {
    hide Count;
    CountUpdate(s.tickets, id, s'.tickets[id], p);
  }

  /** The queue counters follow the ticket: +1 when it joins, -1 when it leaves. */
  lemma QueueKept(s: State, s': State, id: TicketId, tenant: string)
    requires QueueExact(s) && OnlyMoves(s, s', id) && s'.tickets[id].tenant == tenant
    requires var was, now := id in s.tickets && IsQueued(s.tickets[id]), IsQueued(s'.tickets[id]);
             && (was == now ==> s'.counters.queued == s.counters.queued
                                && s'.counters.queuedBy == s.counters.queuedBy)
             && (!was && now ==> Refusal(s.counters, s.limits, tenant).None?
                                 && s'.counters.queued == s.counters.queued + 1
                                 && s'.counters.queuedBy == Queued(s.counters, tenant).queuedBy)
             && (was && !now ==> CanUnqueue(s, tenant)
                                 && s'.counters.queued == s.counters.queued - 1
                                 && s'.counters.queuedBy == Unqueued(s.counters, tenant).queuedBy)
    ensures QueueExact(s')
  {
    hide Count;
    Recount(s, s', id, AnyQueued);
    forall x: string
      ensures Count(s'.tickets, QueuedOf(x)) == Value(s'.counters.queuedBy, x)
    {
      Recount(s, s', id, QueuedOf(x));
    }
  }

  lemma ActiveKept(s: State, s': State, id: TicketId, tenant: string)
    requires ActiveExact(s) && OnlyMoves(s, s', id) && s'.tickets[id].tenant == tenant
    requires var was, now := id in s.tickets && IsActive(s.tickets[id]), IsActive(s'.tickets[id]);
             && (was == now ==> s'.counters.inflight == s.counters.inflight
                                && s'.counters.inflightBy == s.counters.inflightBy)
             && (!was && now ==>
                   s'.counters.inflight == s.counters.inflight + 1
                   && s'.counters.inflightBy ==
                        s.counters.inflightBy[tenant := Value(s.counters.inflightBy, tenant) + 1])
             && (was && !now ==>
                   s.counters.inflight >= 1 && tenant in s.counters.inflightBy
                   && s'.counters.inflight == s.counters.inflight - 1
                   && s.counters.inflightBy[tenant] >= 1
                   && s'.counters.inflightBy == Decremented(s.counters.inflightBy, tenant))
    ensures ActiveExact(s')
  {
    hide Count;
    Recount(s, s', id, AnyActive);
    forall x: string
      ensures Count(s'.tickets, ActiveOf(x)) == Value(s'.counters.inflightBy, x)
    {
      Recount(s, s', id, ActiveOf(x));
    }
  }

  /** A permit moves between the semaphore and the ticket, or neither gains one. */
  ghost predicate PermitMoves(s: State, s': State, id: TicketId)
    requires id in s.tickets && id in s'.tickets
  {
    var was, now := OwnsTenantPermit(s.tickets[id]), OwnsTenantPermit(s'.tickets[id]);
    var delta: int := if was then 1 else -1;
    var slot := s.tickets[id].slot;
    if was == now then s'.permits == s.permits
    else UsesSlot(s.tickets[id]) && slot in s.permits && s.permits[slot] as int + delta >= 0
         && s'.permits == WithPermit(s, slot, delta)
  }

  lemma PermitsKept(s: State, s': State, id: TicketId)
    requires PermitsExact(s) && SlotsDistinct(s) && SlotsShared(s) && OnlyMoves(s, s', id)
    requires id in s.tickets && s'.counters.slots == s.counters.slots
    requires PermitMoves(s, s', id)
    ensures PermitsExact(s')
  {
    hide Count;
    forall x | x in s'.counters.slots
      ensures s'.counters.slots[x] in s'.permits
      ensures s'.permits[s'.counters.slots[x]] + Count(s'.tickets, HoldersOf(x)) == s'.limits.tenantLimit
    {
      Recount(s, s', id, HoldersOf(x));
    }
  }

  lemma GlobalKept(s: State, s': State, id: TicketId)
    requires GlobalExact(s) && OnlyMoves(s, s', id)
    requires s'.free == s.free + Was(s, id, AnyHolder) - Was(s', id, AnyHolder)
    ensures GlobalExact(s')
  {
    hide Count;
    Recount(s, s', id, AnyHolder);
  }

  lemma AdmitKeeps(s: State, id: TicketId, tenant: string)
    requires Inv(s) && Enabled(s, Admit(id, tenant))
    ensures Inv(Next(s, Admit(id, tenant)))
  {
    hide QueueExact, ActiveExact, GlobalExact, Count;
    var s' := Next(s, Admit(id, tenant));
    QueueKept(s, s', id, tenant);
    ActiveKept(s, s', id, tenant);
    GlobalKept(s, s', id);
    forall x | x in s'.counters.slots
      ensures s'.permits[s'.counters.slots[x]] + Count(s'.tickets, HoldersOf(x)) == s'.limits.tenantLimit
    {
      Recount(s, s', id, HoldersOf(x));
    }
  }

  lemma BeginKeeps(s: State, id: TicketId)
    requires Inv(s) && At(s, id, {Admitted})
    ensures Inv(BeginBy(s, id))
  {
    hide QueueExact, ActiveExact, GlobalExact, Count, PermitsExact, SlotsShared;
    var s' := BeginBy(s, id);
    QueueKept(s, s', id, s.tickets[id].tenant);
    ActiveKept(s, s', id, s.tickets[id].tenant);
    GlobalKept(s, s', id);
    BeginPermits(s, id);
    BeginShares(s, id);
    QueuedIsMapped(s, id);
  }

  lemma BeginShares(s: State, id: TicketId)
    requires SlotsShared(s) && At(s, id, {Admitted})
    ensures SlotsShared(BeginBy(s, id))
  {
  }

  /** A new semaphore starts full, and no ticket of its tenant owns a permit then. */
  lemma BeginPermits(s: State, id: TicketId)
    requires PermitsExact(s) && SlotsShared(s) && SlotsDistinct(s) && At(s, id, {Admitted})
    ensures PermitsExact(BeginBy(s, id))
  {
    hide Count;
    var s' := BeginBy(s, id);
    forall x | x in s'.counters.slots
      ensures s'.counters.slots[x] in s'.permits
      ensures s'.permits[s'.counters.slots[x]] + Count(s'.tickets, HoldersOf(x)) == s'.limits.tenantLimit
    {
      Recount(s, s', id, HoldersOf(x));
      if x !in s.counters.slots {
        CountPositive(s.tickets, HoldersOf(x));
      }
    }
  }

  lemma QueuedIsMapped(s: State, id: TicketId)
    requires QueueExact(s) && id in s.tickets && IsQueued(s.tickets[id])
    ensures CanUnqueue(s, s.tickets[id].tenant)
  {
    hide Count;
    var tenant := s.tickets[id].tenant;
    CountPositive(s.tickets, AnyQueued);
    CountPositive(s.tickets, QueuedOf(tenant));
    assert QueuedOf(tenant)(s.tickets[id]);
    assert AnyQueued(s.tickets[id]);
  }

  lemma ActiveIsMapped(s: State, id: TicketId)
    requires ActiveExact(s) && id in s.tickets && IsActive(s.tickets[id])
    ensures s.counters.inflight >= 1
    ensures s.tickets[id].tenant in s.counters.inflightBy
  {
    hide Count;
    var tenant := s.tickets[id].tenant;
    CountPositive(s.tickets, AnyActive);
    CountPositive(s.tickets, ActiveOf(tenant));
    assert ActiveOf(tenant)(s.tickets[id]);
    assert AnyActive(s.tickets[id]);
  }

  /** Steps that leave the counters alone. */
  lemma PermitStepKeeps(s: State, s': State, id: TicketId)
    requires Inv(s) && OnlyMoves(s, s', id) && id in s.tickets
    requires s'.counters == s.counters && s'.created == s.created
    requires IsQueued(s.tickets[id]) == IsQueued(s'.tickets[id])
    requires IsActive(s.tickets[id]) == IsActive(s'.tickets[id])
    requires s'.tickets[id].slot == s.tickets[id].slot
    requires UsesSlot(s'.tickets[id]) ==> UsesSlot(s.tickets[id])
    requires s'.free == s.free + Was(s, id, AnyHolder) - Was(s', id, AnyHolder)
    requires PermitMoves(s, s', id)
    ensures Inv(s')
  {
    hide QueueExact, ActiveExact, GlobalExact, PermitsExact;
    QueueKept(s, s', id, s.tickets[id].tenant);
    ActiveKept(s, s', id, s.tickets[id].tenant);
    GlobalKept(s, s', id);
    PermitsKept(s, s', id);
  }

  lemma StartKeeps(s: State, id: TicketId)
    requires Inv(s) && Enabled(s, Start(id))
    ensures Inv(Next(s, Start(id)))
  {
    hide QueueExact, ActiveExact, GlobalExact, PermitsExact;
    var s' := Next(s, Start(id));
    QueueKept(s, s', id, s.tickets[id].tenant);
    ActiveKept(s, s', id, s.tickets[id].tenant);
    GlobalKept(s, s', id);
    PermitsKept(s, s', id);
  }

  /** When a tenant looks idle no ticket of it uses its semaphore, so dropping it is safe. */
  lemma IdleUnused(s: State, tenant: string, id: TicketId)
    requires QueueExact(s) && ActiveExact(s)
    requires tenant !in s.counters.queuedBy && tenant !in s.counters.inflightBy
    requires id in s.tickets && s.tickets[id].tenant == tenant
    ensures !UsesSlot(s.tickets[id])
  {
    hide QueueExact, ActiveExact;
    if UsesSlot(s.tickets[id]) {
      if IsQueued(s.tickets[id]) {
        QueuedIsMapped(s, id);
      } else {
        ActiveIsMapped(s, id);
      }
    }
  }

  /** Leaving the queue or the in-flight set, and dropping the semaphore when idle. */
  lemma DiscardKeeps(s: State, s': State, id: TicketId)
    requires Inv(s) && id in s.tickets && OnlyMoves(s, s', id)
    requires s'.permits == s.permits && s'.free == s.free && s'.created == s.created
    requires !UsesSlot(s.tickets[id]) && s'.tickets[id].stage == Closed
    requires QueueExact(s') && ActiveExact(s')
    requires var tenant := s.tickets[id].tenant;
             && (forall x :: x != tenant && (x in s.counters.queuedBy || x in s.counters.inflightBy) ==>
                   x in s'.counters.queuedBy || x in s'.counters.inflightBy)
             && s'.counters.slots ==
                  if tenant in s'.counters.queuedBy || tenant in s'.counters.inflightBy
                  then s.counters.slots else s.counters.slots - {tenant}
    ensures Inv(s')
  {
    hide QueueExact, ActiveExact, GlobalExact, PermitsExact;
    GlobalKept(s, s', id);
    DiscardPermits(s, s', id);
    forall other | other in s'.tickets && UsesSlot(s'.tickets[other])
      ensures s'.tickets[other].tenant in s'.counters.slots
      ensures s'.counters.slots[s'.tickets[other].tenant] == s'.tickets[other].slot
    {
      var tenant := s.tickets[id].tenant;
      if s'.tickets[other].tenant == tenant
         && tenant !in s'.counters.queuedBy && tenant !in s'.counters.inflightBy {
        IdleUnused(s', tenant, other);
      }
    }
  }

  lemma DiscardPermits(s: State, s': State, id: TicketId)
    requires PermitsExact(s) && id in s.tickets && OnlyMoves(s, s', id) && s'.permits == s.permits
    requires !OwnsTenantPermit(s.tickets[id]) && s'.tickets[id].stage == Closed
    requires forall x :: x in s'.counters.slots ==>
               x in s.counters.slots && s'.counters.slots[x] == s.counters.slots[x]
    ensures PermitsExact(s')
  {
    hide Count;
    forall x | x in s'.counters.slots
      ensures s'.counters.slots[x] in s'.permits
      ensures s'.permits[s'.counters.slots[x]] + Count(s'.tickets, HoldersOf(x)) == s'.limits.tenantLimit
    {
      Recount(s, s', id, HoldersOf(x));
    }
  }

  lemma FinishKeeps(s: State, id: TicketId)
    requires Inv(s) && Enabled(s, Finish(id))
    ensures Inv(Next(s, Finish(id)))
  {
    hide QueueExact, ActiveExact, GlobalExact, PermitsExact, SlotsShared, SlotsDistinct;
    var s' := Next(s, Finish(id));
    QueueKept(s, s', id, s.tickets[id].tenant);
    ActiveKept(s, s', id, s.tickets[id].tenant);
    DiscardKeeps(s, s', id);
  }

  lemma CloseKeeps(s: State, id: TicketId)
    requires Inv(s) && Enabled(s, Close(id))
    ensures Inv(Next(s, Close(id)))
  {
    hide QueueExact, ActiveExact, GlobalExact, PermitsExact, SlotsShared, SlotsDistinct;
    var s' := Next(s, Close(id));
    QueueKept(s, s', id, s.tickets[id].tenant);
    ActiveKept(s, s', id, s.tickets[id].tenant);
    DiscardKeeps(s, s', id);
  }

  lemma StepKeeps(s: State, e: Event)
    requires Inv(s) && Enabled(s, e)
    ensures Inv(Next(s, e))
  {
    hide QueueExact, ActiveExact, GlobalExact, PermitsExact, SlotsShared, SlotsDistinct, NoIdleSlots;
    match e
    case Admit(id, tenant) => AdmitKeeps(s, id, tenant);
    case Begin(id) => BeginKeeps(s, id);
    case Start(id) => StartKeeps(s, id);
    case Finish(id) => FinishKeeps(s, id);
    case Close(id) => CloseKeeps(s, id);
    case TakeTenant(id) => PermitStepKeeps(s, Next(s, e), id);
    case TakeGlobal(id) => PermitStepKeeps(s, Next(s, e), id);
    case Expire(id) => PermitStepKeeps(s, Next(s, e), id);
    case Unwind(id) => PermitStepKeeps(s, Next(s, e), id);
    case GiveBack(id) => PermitStepKeeps(s, Next(s, e), id);
  }

  // ---------------------------------------------------------------- whole runs

  ghost predicate Run(states: seq<State>, events: seq<Event>) {
    && |states| == |events| + 1
    && Initial(states[0])
    && forall i :: 0 <= i < |events| ==>
         Enabled(states[i], events[i]) && states[i + 1] == Next(states[i], events[i])
  }

  lemma {:induction false} RunInv(states: seq<State>, events: seq<Event>, i: nat)
    requires Run(states, events) && i < |states|
    ensures Inv(states[i]) && states[i].limits == states[0].limits
  {
    hide QueueExact, ActiveExact, GlobalExact, PermitsExact, SlotsShared, SlotsDistinct, NoIdleSlots;
    if i == 0 {
      InitialInv(states[0]);
    } else {
      RunInv(states, events, i - 1);
      StepKeeps(states[i - 1], events[i - 1]);
    }
  }

  lemma InitialInv(s: State)
    requires Initial(s)
    ensures Inv(s)
  {
    assert forall p: Ticket -> bool :: Select(s.tickets, p) == {};
  }

  /** In every state of every run the permits in use respect both limits, the counters are
      the true queue depths within their limits, and no idle tenant keeps a semaphore. */
  lemma CapacityBounds(states: seq<State>, events: seq<Event>, i: nat, tenant: string)
    requires Run(states, events) && i < |states|
    ensures var s, l := states[i], states[0].limits;
            && Count(s.tickets, HoldersOf(tenant)) <= l.tenantLimit
            && Count(s.tickets, AnyHolder) <= l.globalLimit
            && s.counters.queued == Count(s.tickets, AnyQueued) <= l.globalQueue
            && Value(s.counters.queuedBy, tenant) == Count(s.tickets, QueuedOf(tenant)) <= l.tenantQueue
            && s.counters.inflight == Count(s.tickets, AnyActive)
            && (tenant in s.counters.slots ==>
                  Count(s.tickets, QueuedOf(tenant)) + Count(s.tickets, ActiveOf(tenant)) > 0)
  {
    hide Count, Select;
    var s := states[i];
    RunInv(states, events, i);
    CountPositive(s.tickets, HoldersOf(tenant));
    assert tenant !in s.counters.slots ==>
        forall id :: id in s.tickets ==> !HoldersOf(tenant)(s.tickets[id]);
  }

  /** Two tickets of one tenant that wait for or own tenant permits use one semaphore. */
  lemma OneSemaphorePerTenant(
    states: seq<State>, events: seq<Event>, i: nat, a: TicketId, b: TicketId)
    requires Run(states, events) && i < |states| && a in states[i].tickets && b in states[i].tickets
    requires UsesSlot(states[i].tickets[a]) && UsesSlot(states[i].tickets[b])
    ensures states[i].tickets[a].slot == states[i].tickets[b].slot
            <==> states[i].tickets[a].tenant == states[i].tickets[b].tenant
  {
    hide Count;
    RunInv(states, events, i);
  }

  /** The guards that protect the counters from underflow never block a ticket. */
  lemma CountersNeverUnderflow(states: seq<State>, events: seq<Event>, i: nat, id: TicketId)
    requires Run(states, events) && i < |states| && id in states[i].tickets
    ensures states[i].tickets[id].stage == Slotted ==> Enabled(states[i], Start(id))
    ensures states[i].tickets[id].stage == Finishing ==> Enabled(states[i], Finish(id))
    ensures states[i].tickets[id].stage in {Admitted, Unwound} ==> Enabled(states[i], Close(id))
    ensures states[i].tickets[id].stage == Expired ==> Enabled(states[i], Unwind(id))
    ensures states[i].tickets[id].stage == Running ==> Enabled(states[i], GiveBack(id))
  {
    hide Count, GlobalExact, SlotsDistinct;
    RunInv(states, events, i);
    if IsQueued(states[i].tickets[id]) {
      QueuedIsMapped(states[i], id);
    } else if IsActive(states[i].tickets[id]) {
      ActiveIsMapped(states[i], id);
    }
  }

  /** In every state a ticket is refused exactly when as many tickets as the global queue holds are
      waiting, or as many of its tenant as the tenant's queue holds. */
  lemma RefusedIff(states: seq<State>, events: seq<Event>, i: nat, tenant: string)
    requires Run(states, events) && i < |states|
    ensures var s, l := states[i], states[0].limits;
            var all, own := Count(s.tickets, AnyQueued), Count(s.tickets, QueuedOf(tenant));
            Refusal(s.counters, s.limits, tenant) ==
              if all == l.globalQueue then Some(GlobalQueueFull)
              else if own == l.tenantQueue then Some(TenantQueueFull)
              else None
  {
    hide Count, Select;
    RunInv(states, events, i);
  }

  // ---------------------------------------------------------------- progress

  /** A waiting ticket can take a tenant permit exactly when fewer tickets of its tenant than the
      tenant limit own one, and a global one exactly when fewer than the global limit own one. */
  lemma PermitIff(states: seq<State>, events: seq<Event>, i: nat, id: TicketId)
    requires Run(states, events) && i < |states| && id in states[i].tickets
    ensures var s, l, t := states[i], states[0].limits, states[i].tickets[id];
            && (Enabled(s, TakeTenant(id)) <==>
                  t.stage == WantTenant && Count(s.tickets, HoldersOf(t.tenant)) < l.tenantLimit)
            && (Enabled(s, TakeGlobal(id)) <==>
                  t.stage == WantGlobal && Count(s.tickets, AnyHolder) < l.globalLimit)
  {
    hide Count, QueueExact, ActiveExact, SlotsDistinct, NoIdleSlots;
    RunInv(states, events, i);
  }

  /** How far a ticket has come. */
  function Rank(stage: Stage): nat {
    match stage
    case Admitted => 0
    case WantTenant => 1
    case WantGlobal => 2
    case Expired => 3
    case Slotted => 3
    case Running => 4
    case Unwound => 5
    case Finishing => 5
    case Closed => 6
  }

  /** Every step takes its own ticket further and moves no other, so a ticket takes at most six
      steps. */
  lemma TicketsAdvance(s: State, e: Event)
    requires Enabled(s, e)
    ensures e.id in Next(s, e).tickets
    ensures e.Admit? ==> Next(s, e).tickets[e.id].tenant == e.tenant && Next(s, e).tickets[e.id].stage == Admitted
    ensures e.id in s.tickets ==>
      && Rank(s.tickets[e.id].stage) < Rank(Next(s, e).tickets[e.id].stage)
      && Next(s, e).tickets[e.id].tenant == s.tickets[e.id].tenant
    ensures forall other :: other != e.id ==> Get(Next(s, e).tickets, other) == Get(s.tickets, other)
  {
  }

  /** While a ticket is open the capacity is never stuck: some open ticket has a step that needs
      neither a new ticket nor a timeout. */
  lemma NeverStuck(states: seq<State>, events: seq<Event>, i: nat, id: TicketId) returns (e: Event)
    requires Run(states, events) && i < |states|
    requires id in states[i].tickets && states[i].tickets[id].stage != Closed
    ensures Enabled(states[i], e) && !e.Admit? && !e.Expire?
  {
    hide Count, QueueExact, ActiveExact, SlotsDistinct, NoIdleSlots, Inv;
    var s := states[i];
    CountersNeverUnderflow(states, events, i, id);
    match s.tickets[id].stage
    case Admitted => e := Begin(id);
    case Expired => e := Unwind(id);
    case Slotted => e := Start(id);
    case Running => e := GiveBack(id);
    case Finishing => e := Finish(id);
    case Unwound => e := Close(id);
    case WantGlobal => e := GlobalProgress(states, events, i, id);
    case WantTenant =>
      PermitIff(states, events, i, id);
      if Count(s.tickets, HoldersOf(s.tickets[id].tenant)) == 0 {
        LimitsPositive(states, events);
        e := TakeTenant(id);
      } else {
        CountPositive(s.tickets, HoldersOf(s.tickets[id].tenant));
        var other :| other in s.tickets && HoldersOf(s.tickets[id].tenant)(s.tickets[other]);
        e := HolderProgress(states, events, i, other);
      }
  }

  lemma LimitsPositive(states: seq<State>, events: seq<Event>)
    requires Run(states, events)
    ensures states[0].limits.tenantLimit >= 1 && states[0].limits.globalLimit >= 1
  {
    hide Next, Enabled;
  }

  lemma GlobalProgress(states: seq<State>, events: seq<Event>, i: nat, id: TicketId) returns (e: Event)
    requires Run(states, events) && i < |states| && id in states[i].tickets && states[i].tickets[id].stage == WantGlobal
    ensures Enabled(states[i], e) && !e.Admit? && !e.Expire?
  {
    hide Count, Inv;
    var s := states[i];
    PermitIff(states, events, i, id);
    if Count(s.tickets, AnyHolder) == 0 {
      LimitsPositive(states, events);
      e := TakeGlobal(id);
    } else {
      CountPositive(s.tickets, AnyHolder);
      var other :| other in s.tickets && AnyHolder(s.tickets[other]);
      CountersNeverUnderflow(states, events, i, other);
      e := if s.tickets[other].stage == Slotted then Start(other) else GiveBack(other);
    }
  }

  lemma HolderProgress(states: seq<State>, events: seq<Event>, i: nat, id: TicketId) returns (e: Event)
    requires Run(states, events) && i < |states| && id in states[i].tickets && OwnsTenantPermit(states[i].tickets[id])
    ensures Enabled(states[i], e) && !e.Admit? && !e.Expire?
  {
    hide Count, Inv;
    CountersNeverUnderflow(states, events, i, id);
    match states[i].tickets[id].stage
    case WantGlobal => e := GlobalProgress(states, events, i, id);
    case Expired => e := Unwind(id);
    case Slotted => e := Start(id);
    case Running => e := GiveBack(id);
  }
}
