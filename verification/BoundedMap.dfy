/** Mapping with a global and per-partition concurrency bound (bounded_partition_map).

Workers claim the first pending item all of whose partition keys are below their limits,
run the callback on it, store its result, and give the keys back, waking every waiting
worker. A worker that finds no eligible item waits on the condition; one that finds
nothing pending stops.
*/
module BoundedMap {
  import opened Counting
  import opened Wrappers

  type Item = string
  type Value = int
  type WorkerId = nat

  datatype Partition = Partition(selector: Item -> string, limit: int)

  datatype Config = Config(items: seq<Item>, maxConcurrent: int, partitions: seq<Partition>)

  /** What the call accepts; anything else is a ValueError or the partition-free map. */
  predicate Accepted(c: Config) {
    && c.partitions != []
    && forall p :: 0 <= p < |c.partitions| ==> 1 <= c.partitions[p].limit <= c.maxConcurrent
  }

  /** A partition's key: one active counter. */
  datatype Slot = Slot(partition: nat, key: string)

  type Counters = map<Slot, int>

  // ---------------------------------------------------------------- counters

  /** Reading a missing counter gives zero. */
  function Of(active: Counters, slot: Slot): int {
    if slot in active then active[slot] else 0
  }

  function SlotsOf(c: Config, index: nat): (slots: seq<Slot>)
    requires index < |c.items|
    ensures |slots| == |c.partitions|
    ensures forall p :: 0 <= p < |slots| ==>
      slots[p] == Slot(p, c.partitions[p].selector(c.items[index]))
  {
    seq(|c.partitions|, p requires 0 <= p < |c.partitions| =>
      Slot(p, c.partitions[p].selector(c.items[index])))
  }

  predicate Eligible(c: Config, active: Counters, index: nat)
    requires index < |c.items|
  {
    forall p :: 0 <= p < |c.partitions| ==>
      Of(active, SlotsOf(c, index)[p]) < c.partitions[p].limit
  }

  function Raised(active: Counters, slots: seq<Slot>): Counters {
    if slots == [] then active
    else
      var rest := Raised(active, slots[..|slots| - 1]);
      rest[slots[|slots| - 1] := Of(rest, slots[|slots| - 1]) + 1]
  }

  function LoweredOnce(active: Counters, slot: Slot): Counters {
    if Of(active, slot) - 1 == 0 then active - {slot} else active[slot := Of(active, slot) - 1]
  }

  function Lowered(active: Counters, slots: seq<Slot>): Counters {
    if slots == [] then active
    else LoweredOnce(Lowered(active, slots[..|slots| - 1]), slots[|slots| - 1])
  }

  ghost predicate DistinctSlots(slots: seq<Slot>) {
    forall i, j :: 0 <= i < j < |slots| ==> slots[i] != slots[j]
  }

  lemma {:induction false} RaisedAt(active: Counters, slots: seq<Slot>, slot: Slot)
    requires DistinctSlots(slots)
    ensures Of(Raised(active, slots), slot) == Of(active, slot) + (if slot in slots then 1 else 0)
  {
    if slots != [] {
      RaisedAt(active, slots[..|slots| - 1], slot);
      assert slots == slots[..|slots| - 1] + [slots[|slots| - 1]];
    }
  }

  lemma {:induction false} LoweredAt(active: Counters, slots: seq<Slot>, slot: Slot)
    requires DistinctSlots(slots)
    ensures Of(Lowered(active, slots), slot) == Of(active, slot) - (if slot in slots then 1 else 0)
  {
    if slots != [] {
      LoweredAt(active, slots[..|slots| - 1], slot);
      assert slots == slots[..|slots| - 1] + [slots[|slots| - 1]];
    }
  }

  // ---------------------------------------------------------------- the shared fields

  /** `position` is the first eligible place in the pending list. */
  predicate FirstEligible(c: Config, pending: seq<nat>, active: Counters, position: nat)
    requires forall i :: 0 <= i < |pending| ==> pending[i] < |c.items|
  {
    && position < |pending| && Eligible(c, active, pending[position])
    && forall i :: 0 <= i < position ==> !Eligible(c, active, pending[i])
  }

  class Scheduler {
    const config: Config
    var pending: seq<nat>
    var active: Counters

    predicate Valid()
      reads this
    {
      forall i :: 0 <= i < |pending| ==> pending[i] < |config.items|
    }

    constructor (config: Config)
      requires Accepted(config)
      ensures this.config == config && Valid()
      ensures pending == seq(|config.items|, i => i)
      ensures active == map[]
    {
      this.config := config;
      pending := seq(|config.items|, i => i);
      active := map[];
    }

    /** One scan under the condition: claims the first eligible pending item, if any. */
    method Acquire() returns (claimed: Option<nat>, position: nat)
      requires Valid()
      modifies this`pending, this`active
      ensures Valid()
      ensures claimed.Some? ==>
        && FirstEligible(config, old(pending), old(active), position)
        && claimed.value == old(pending)[position]
        && pending == old(pending)[..position] + old(pending)[position + 1..]
        && active == Raised(old(active), SlotsOf(config, claimed.value))
      ensures claimed.None? ==>
        && pending == old(pending) && active == old(active)
        && forall i :: 0 <= i < |pending| ==> !Eligible(config, active, pending[i])
    {
      hide Raised, Eligible;
      position := 0;
      while position < |pending|
        invariant position <= |pending| && pending == old(pending) && active == old(active)
        invariant forall i :: 0 <= i < position ==> !Eligible(config, active, pending[i])
      {
        var index := pending[position];
        if Eligible(config, active, index) {
          pending := pending[..position] + pending[position + 1..];
          Take(index);
          return Some(index), position;
        }
        position := position + 1;
      }
      return None, position;
    }

    method Take(index: nat)
      requires Valid() && index < |config.items|
      modifies this`active
      ensures Valid() && active == Raised(old(active), SlotsOf(config, index))
    {
      var slots := SlotsOf(config, index);
      for p := 0 to |slots|
        invariant active == Raised(old(active), slots[..p])
      {
        assert slots[..p + 1][..p] == slots[..p];
        active := active[slots[p] := Of(active, slots[p]) + 1];
      }
      assert slots[..|slots|] == slots;
    }

    /** Gives an item's keys back; a counter that reaches zero is deleted. */
    method Release(index: nat)
      requires Valid() && index < |config.items|
      modifies this`active
      ensures Valid() && active == Lowered(old(active), SlotsOf(config, index))
    {
      var slots := SlotsOf(config, index);
      for p := 0 to |slots|
        invariant active == Lowered(old(active), slots[..p])
      {
        assert slots[..p + 1][..p] == slots[..p];
        active := active[slots[p] := Of(active, slots[p]) - 1];
        if active[slots[p]] == 0 {
          active := active - {slots[p]};
        }
      }
      assert slots[..|slots|] == slots;
    }
  }

  // ---------------------------------------------------------------- the state machine

  datatype Worker =
    | Idle                              // about to scan
    | Waiting                           // in the condition's wait
    | Running(index: nat)               // in the callback
    | Releasing(index: nat, ok: bool)   // the callback is over, its keys are still held
    | Stopped
    | Failed

  /** `started` lists the callbacks begun and `returned` the values they gave, in order. */
  datatype State = State(
    config: Config, pending: seq<nat>, active: Counters, results: seq<Option<Value>>,
    workers: map<WorkerId, Worker>, started: seq<nat>, returned: seq<(nat, Value)>)

  datatype Event =
    | Claim(worker: WorkerId, position: nat)
    | Wait(worker: WorkerId)
    | Stop(worker: WorkerId)
    | Return(worker: WorkerId, value: Value)
    | Raise(worker: WorkerId)
    | Release(worker: WorkerId)

  ghost predicate InRange(s: State) {
    && (forall i :: 0 <= i < |s.pending| ==> s.pending[i] < |s.config.items|)
    && (forall w :: w in s.workers && Holds(s.workers[w]) ==> s.workers[w].index < |s.config.items|)
    && |s.results| == |s.config.items|
  }

  predicate Holds(w: Worker) {
    w.Running? || w.Releasing?
  }

  ghost predicate Enabled(s: State, e: Event) {
    InRange(s) && e.worker in s.workers &&
    var w := s.workers[e.worker];
    match e
    case Claim(_, position) => w.Idle? && FirstEligible(s.config, s.pending, s.active, position)
    case Wait(_) =>
      && w.Idle? && s.pending != []
      && forall i :: 0 <= i < |s.pending| ==> !Eligible(s.config, s.active, s.pending[i])
    case Stop(_) => w.Idle? && s.pending == []
    case Return(_, _) => w.Running?
    case Raise(_) => w.Running?
    case Release(_) => w.Releasing?
  }

  function Woken(workers: map<WorkerId, Worker>): map<WorkerId, Worker> {
    map w | w in workers :: if workers[w].Waiting? then Idle else workers[w]
  }

  ghost function Next(s: State, e: Event): State
    requires Enabled(s, e)
  {
    var at := e.worker;
    match e
    case Claim(_, position) =>
      var index := s.pending[position];
      s.(pending := s.pending[..position] + s.pending[position + 1..],
         active := Raised(s.active, SlotsOf(s.config, index)),
         workers := s.workers[at := Running(index)],
         started := s.started + [index])
    case Wait(_) => s.(workers := s.workers[at := Waiting])
    case Stop(_) => s.(workers := s.workers[at := Stopped])
    case Return(_, value) =>
      var index := s.workers[at].index;
      s.(results := s.results[index := Some(value)],
         workers := s.workers[at := Releasing(index, true)],
         returned := s.returned + [(index, value)])
    case Raise(_) => s.(workers := s.workers[at := Releasing(s.workers[at].index, false)])
    case Release(_) =>
      s.(active := Lowered(s.active, SlotsOf(s.config, s.workers[at].index)),
         workers := Woken(s.workers[at := if s.workers[at].ok then Idle else Failed]))
  }

  function WorkerCount(c: Config): (n: nat)
    requires Accepted(c)
    ensures n <= c.maxConcurrent && (n == 0 <==> c.items == [])
  {
    assert c.partitions[0].limit >= 1;
    if c.maxConcurrent < |c.items| then c.maxConcurrent else |c.items|
  }

  function Fleet(n: nat): (workers: map<WorkerId, Worker>)
    ensures |workers.Keys| == n
    ensures forall w :: w in workers ==> 0 <= w < n && workers[w] == Idle
  {
    if n == 0 then map[]
    else
      var rest := Fleet(n - 1);
      assert rest[n - 1 := Idle].Keys == rest.Keys + {n - 1};
      rest[n - 1 := Idle]
  }

  ghost predicate Initial(s: State) {
    && Accepted(s.config)
    && s == State(s.config, seq(|s.config.items|, i => i), map[],
                  seq(|s.config.items|, _ => None),
                  Fleet(WorkerCount(s.config)), [], [])
  }

  // ---------------------------------------------------------------- invariants

  function HoldsSlot(c: Config, slot: Slot): Worker -> bool {
    (w: Worker) => Holds(w) && w.index < |c.items| && slot in SlotsOf(c, w.index)
  }

  /** Every counter is the number of workers that hold its key. */
  ghost predicate Exact(s: State) {
    forall slot :: Of(s.active, slot) == Count(s.workers, HoldsSlot(s.config, slot))
  }

  ghost predicate WithinLimits(s: State) {
    forall p, key :: 0 <= p < |s.config.partitions| ==>
      Of(s.active, Slot(p, key)) <= s.config.partitions[p].limit
  }

  /** A waiting worker can count on another one that holds keys and will release them. */
  ghost predicate WaitersHaveHolder(s: State) {
    (exists w :: w in s.workers && s.workers[w].Waiting?) ==>
      exists h :: h in s.workers && Holds(s.workers[h])
  }

  ghost predicate Unrepeated(xs: seq<nat>) {
    forall i, j :: 0 <= i < j < |xs| ==> xs[i] != xs[j]
  }

  /** Items are either pending or started, never both, and each at most once. */
  ghost predicate ClaimedOnce(s: State) {
    && Unrepeated(s.pending) && Unrepeated(s.started)
    && (forall i :: 0 <= i < |s.config.items| ==> (i in s.pending <==> i !in s.started))
    && (forall i :: i in s.started ==> 0 <= i < |s.config.items|)
  }

  /** A running item was started and has no result yet; no two workers run the same one. */
  ghost predicate RunningOnce(s: State) {
    && (forall w :: w in s.workers && s.workers[w].Running? ==>
          s.workers[w].index in s.started && s.workers[w].index < |s.results|
          && s.results[s.workers[w].index].None?)
    && (forall i :: 0 <= i < |s.results| && s.results[i].Some? ==> i in s.started)
    && (forall v, w ::
          v in s.workers && w in s.workers && v != w
          && s.workers[v].Running? && s.workers[w].Running? ==>
          s.workers[v].index != s.workers[w].index)
  }

  /** Results are what the callbacks returned, one return per item. */
  ghost predicate ResultsReturned(s: State) {
    && (forall i :: 0 <= i < |s.returned| ==>
          s.returned[i].0 < |s.results| && s.results[s.returned[i].0] == Some(s.returned[i].1))
    && (forall i, j :: 0 <= i < j < |s.returned| ==> s.returned[i].0 != s.returned[j].0)
    && (forall k :: 0 <= k < |s.results| && s.results[k].Some? ==> (k, s.results[k].value) in s.returned)
  }

  ghost predicate Aborted(s: State) {
    exists w :: w in s.workers && (s.workers[w].Failed? || (s.workers[w].Releasing? && !s.workers[w].ok))
  }

  /** Unless a callback raised, a started item has a result or is still running. */
  ghost predicate Accounted(s: State) {
    !Aborted(s) ==>
      forall i :: i in s.started && 0 <= i < |s.results| && s.results[i].None? ==>
        exists w :: w in s.workers && s.workers[w] == Running(i)
  }

  ghost predicate StoppedMeansDrained(s: State) {
    (exists w :: w in s.workers && s.workers[w].Stopped?) ==> s.pending == []
  }

  ghost predicate Shaped(s: State) {
    && Accepted(s.config) && InRange(s)
    && |s.workers.Keys| == WorkerCount(s.config)
  }

  ghost predicate Inv(s: State) {
    && Shaped(s) && Exact(s) && WithinLimits(s) && WaitersHaveHolder(s)
    && ClaimedOnce(s) && RunningOnce(s) && ResultsReturned(s) && Accounted(s)
    && StoppedMeansDrained(s)
  }

  // ---------------------------------------------------------------- every step keeps the invariants

  lemma StepShaped(s: State, e: Event)
    requires Shaped(s) && Enabled(s, e)
    ensures Shaped(Next(s, e))
  {
    hide Raised, Lowered, Eligible;
    var s' := Next(s, e);
    assert s'.workers.Keys == s.workers.Keys;
  }

  lemma SlotsDistinct(c: Config, index: nat)
    requires index < |c.items|
    ensures DistinctSlots(SlotsOf(c, index))
  {
  }

  lemma WokenCount(workers: map<WorkerId, Worker>, p: Worker -> bool)
    requires !p(Waiting) && !p(Idle)
    ensures Count(Woken(workers), p) == Count(workers, p)
  {
    assert Select(Woken(workers), p) == Select(workers, p);
  }

  lemma StepExact(s: State, e: Event)
    requires Shaped(s) && Exact(s) && Enabled(s, e)
    ensures Exact(Next(s, e))
  {
    hide Exact, Count, Raised, Lowered, FirstEligible, Woken, Shaped;
    var s' := Next(s, e);
    forall slot ensures Of(s'.active, slot) == Count(s'.workers, HoldsSlot(s'.config, slot)) {
      SlotExact(s, e, slot);
    }
    assert Exact(s') by { ExactFrom(s'); }
  }

  lemma ExactFrom(s: State)
    requires forall slot :: Of(s.active, slot) == Count(s.workers, HoldsSlot(s.config, slot))
    ensures Exact(s)
  {
  }

  lemma ExactAt(s: State, slot: Slot)
    requires Exact(s)
    ensures Of(s.active, slot) == Count(s.workers, HoldsSlot(s.config, slot))
  {
  }

  lemma SlotExact(s: State, e: Event, slot: Slot)
    requires Shaped(s) && Exact(s) && Enabled(s, e)
    ensures var s' := Next(s, e);
            Of(s'.active, slot) == Count(s'.workers, HoldsSlot(s'.config, slot))
  {
    hide Exact, Count, Raised, Lowered, Of, Woken, Eligible;
    var s', at := Next(s, e), e.worker;
    var p := HoldsSlot(s.config, slot);
    ExactAt(s, slot);
    match e
    case Claim(_, position) =>
      var index := s.pending[position];
      SlotsDistinct(s.config, index);
      RaisedAt(s.active, SlotsOf(s.config, index), slot);
      CountUpdate(s.workers, at, Running(index), p);
    case Wait(_) => CountUpdate(s.workers, at, Waiting, p);
    case Stop(_) => CountUpdate(s.workers, at, Stopped, p);
    case Return(_, _) => CountUpdate(s.workers, at, Releasing(s.workers[at].index, true), p);
    case Raise(_) => CountUpdate(s.workers, at, Releasing(s.workers[at].index, false), p);
    case Release(_) =>
      var index, next := s.workers[at].index, if s.workers[at].ok then Idle else Failed;
      SlotsDistinct(s.config, index);
      LoweredAt(s.active, SlotsOf(s.config, index), slot);
      CountUpdate(s.workers, at, next, p);
      WokenCount(s.workers[at := next], p);
  }

  lemma StepWithinLimits(s: State, e: Event)
    requires Shaped(s) && WithinLimits(s) && Enabled(s, e)
    ensures WithinLimits(Next(s, e))
  {
    hide Raised, Lowered, Woken, Of;
    var s' := Next(s, e);
    forall p, key | 0 <= p < |s.config.partitions|
      ensures Of(s'.active, Slot(p, key)) <= s.config.partitions[p].limit
    {
      match e
      case Claim(_, position) =>
        var index := s.pending[position];
        SlotsDistinct(s.config, index);
        RaisedAt(s.active, SlotsOf(s.config, index), Slot(p, key));
        assert Of(s.active, SlotsOf(s.config, index)[p]) < s.config.partitions[p].limit;
      case Release(_) =>
        SlotsDistinct(s.config, s.workers[e.worker].index);
        LoweredAt(s.active, SlotsOf(s.config, s.workers[e.worker].index), Slot(p, key));
      case Wait(_) =>
      case Stop(_) =>
      case Return(_, _) =>
      case Raise(_) =>
    }
  }

  /** A saturated counter has a holder, so a worker that finds nothing eligible is not alone. */
  lemma BlockedHasHolder(s: State, i: nat)
    requires Shaped(s) && Exact(s) && i < |s.pending| && !Eligible(s.config, s.active, s.pending[i])
    ensures exists h :: h in s.workers && Holds(s.workers[h])
  {
  }

  lemma StepWaitersHaveHolder(s: State, e: Event)
    requires Shaped(s) && Exact(s) && WaitersHaveHolder(s) && Enabled(s, e)
    ensures WaitersHaveHolder(Next(s, e))
  {
    hide Exact, Raised, Lowered, FirstEligible, Eligible;
    var s', at := Next(s, e), e.worker;
    match e
    case Claim(_, _) => assert Holds(s'.workers[at]);
    case Wait(_) =>
      BlockedHasHolder(s, 0);
      var h :| h in s.workers && Holds(s.workers[h]);
      assert Holds(s'.workers[h]);
    case Stop(_) => HolderStays(s, s', at);
    case Return(_, _) => assert Holds(s'.workers[at]);
    case Raise(_) => assert Holds(s'.workers[at]);
    case Release(_) =>
  }

  lemma HolderStays(s: State, s': State, at: WorkerId)
    requires WaitersHaveHolder(s) && at in s.workers && !Holds(s.workers[at])
    requires s'.workers == s.workers[at := Stopped]
    ensures WaitersHaveHolder(s')
  {
    if w :| w in s'.workers && s'.workers[w].Waiting? {
      assert s.workers[w].Waiting?;
      var h :| h in s.workers && Holds(s.workers[h]);
      assert Holds(s'.workers[h]);
    }
  }

  lemma RemovedAt(xs: seq<nat>, position: nat)
    requires Unrepeated(xs) && position < |xs|
    ensures var rest := xs[..position] + xs[position + 1..];
            && Unrepeated(rest)
            && forall i :: i in rest <==> i in xs && i != xs[position]
  {
  }

  lemma StepClaimedOnce(s: State, e: Event)
    requires Shaped(s) && ClaimedOnce(s) && Enabled(s, e)
    ensures ClaimedOnce(Next(s, e))
  {
    hide Raised, Lowered, Woken, Eligible;
    if e.Claim? {
      var index, s' := s.pending[e.position], Next(s, e);
      RemovedAt(s.pending, e.position);
      assert index in s.pending && index !in s.started;
      assert forall i :: i in s'.started <==> i in s.started || i == index;
    }
  }

  lemma StepRunningOnce(s: State, e: Event)
    requires Shaped(s) && ClaimedOnce(s) && RunningOnce(s) && Enabled(s, e)
    ensures RunningOnce(Next(s, e))
  {
    hide Raised, Lowered, Eligible;
    var s' := Next(s, e);
    if e.Claim? {
      var index := s.pending[e.position];
      assert index in s.pending && index !in s.started;
      assert s.results[index].None?;
      assert index in [index] && s'.started == s.started + [index];
    }
  }

  lemma StepResultsReturned(s: State, e: Event)
    requires Shaped(s) && RunningOnce(s) && ResultsReturned(s) && Enabled(s, e)
    ensures ResultsReturned(Next(s, e))
  {
    hide Raised, Lowered, Woken, Eligible;
    if e.Return? {
      var index := s.workers[e.worker].index;
      assert s.results[index].None?;
      assert (index, e.value) in Next(s, e).returned;
    }
  }

  lemma StepAccounted(s: State, e: Event)
    requires Shaped(s) && RunningOnce(s) && Accounted(s) && Enabled(s, e)
    ensures Accounted(Next(s, e))
  {
    hide Raised, Lowered, Eligible, Aborted;
    var s', at := Next(s, e), e.worker;
    if !Aborted(s') {
      StepAborts(s, e);
      forall i | i in s'.started && 0 <= i < |s'.results| && s'.results[i].None?
        ensures exists w :: w in s'.workers && s'.workers[w] == Running(i)
      {
        if i in s.started && s.results[i].None? {
          var w :| w in s.workers && s.workers[w] == Running(i);
          assert s'.workers[w] == Running(i);
        } else {
          assert s'.workers[at] == Running(i);
        }
      }
    }
  }

  /** An exception is never forgotten, and raising one is what aborts. */
  lemma StepAborts(s: State, e: Event)
    requires Shaped(s) && Enabled(s, e)
    ensures Aborted(Next(s, e)) <==> Aborted(s) || e.Raise?
  {
    hide Raised, Lowered, Eligible;
    var s', at := Next(s, e), e.worker;
    if Aborted(s) {
      var w :| w in s.workers && (s.workers[w].Failed? || (s.workers[w].Releasing? && !s.workers[w].ok));
      assert s'.workers[w].Failed? || (s'.workers[w].Releasing? && !s'.workers[w].ok);
    }
    if e.Raise? {
      assert s'.workers[at].Releasing? && !s'.workers[at].ok;
    }
  }

  lemma StepStoppedMeansDrained(s: State, e: Event)
    requires Shaped(s) && StoppedMeansDrained(s) && Enabled(s, e)
    ensures StoppedMeansDrained(Next(s, e))
  {
    hide Raised, Lowered, Eligible;
  }

  lemma StepKeeps(s: State, e: Event)
    requires Inv(s) && Enabled(s, e)
    ensures Inv(Next(s, e))
  {
    hide Shaped, Exact, WithinLimits, WaitersHaveHolder, ClaimedOnce, RunningOnce;
    hide ResultsReturned, Accounted, StoppedMeansDrained, Next, Enabled;
    StepShaped(s, e);
    StepExact(s, e);
    StepWithinLimits(s, e);
    StepWaitersHaveHolder(s, e);
    StepClaimedOnce(s, e);
    StepRunningOnce(s, e);
    StepResultsReturned(s, e);
    StepAccounted(s, e);
    StepStoppedMeansDrained(s, e);
  }

  lemma InitialInv(s: State)
    requires Initial(s)
    ensures Inv(s)
  {
    hide Count;
    forall slot ensures Of(s.active, slot) == Count(s.workers, HoldsSlot(s.config, slot)) {
      CountPositive(s.workers, HoldsSlot(s.config, slot));
    }
    assert forall i :: 0 <= i < |s.config.items| ==> s.pending[i] == i;
    assert forall i :: 0 <= i < |s.config.items| ==> i in s.pending by {
      forall i | 0 <= i < |s.config.items| ensures i in s.pending { assert s.pending[i] == i; }
    }
  }

  // ---------------------------------------------------------------- whole runs

  ghost predicate Run(states: seq<State>, events: seq<Event>) {
    && |states| == |events| + 1
    && Initial(states[0])
    && forall i :: 0 <= i < |events| ==>
         Enabled(states[i], events[i]) && states[i + 1] == Next(states[i], events[i])
  }

  lemma {:induction false} RunInv(states: seq<State>, events: seq<Event>, i: nat)
    requires Run(states, events) && i < |states|
    ensures Inv(states[i]) && states[i].config == states[0].config
  {
    hide Inv, Initial;
    if i == 0 {
      InitialInv(states[0]);
    } else {
      hide Raised, Lowered, Woken, Eligible, FirstEligible;
      RunInv(states, events, i - 1);
      StepKeeps(states[i - 1], events[i - 1]);
    }
  }

  /** In every state the running callbacks stay within the global bound, and those that share
      a key of a partition within that partition's limit. */
  lemma ConcurrencyBounds(states: seq<State>, events: seq<Event>, i: nat, p: nat, key: string)
    requires Run(states, events) && i < |states|
    requires p < |states[0].config.partitions|
    ensures var s, c := states[i], states[0].config;
            && Count(s.workers, Holds) <= c.maxConcurrent
            && Of(s.active, Slot(p, key)) == Count(s.workers, HoldsSlot(c, Slot(p, key)))
            && Count(s.workers, HoldsSlot(c, Slot(p, key))) <= c.partitions[p].limit
  {
    hide Count;
    RunInv(states, events, i);
    var s := states[i];
    ExactAt(s, Slot(p, key));
    CountAtMostSize(s.workers, Holds);
  }

  /** In every partition fewer workers than the limit hold the key of this item. */
  ghost predicate HasRoom(s: State, index: nat)
    requires index < |s.config.items|
  {
    forall p :: 0 <= p < |s.config.partitions| ==>
      Count(s.workers, HoldsSlot(s.config, Slot(p, s.config.partitions[p].selector(s.config.items[index]))))
        < s.config.partitions[p].limit
  }

  lemma RoomIff(s: State, index: nat)
    requires Shaped(s) && Exact(s) && index < |s.config.items|
    ensures Eligible(s.config, s.active, index) <==> HasRoom(s, index)
  {
    hide Count;
    forall p | 0 <= p < |s.config.partitions|
      ensures Of(s.active, SlotsOf(s.config, index)[p]) ==
        Count(s.workers, HoldsSlot(s.config, Slot(p, s.config.partitions[p].selector(s.config.items[index]))))
    {
      ExactAt(s, SlotsOf(s.config, index)[p]);
    }
  }

  /** In every state an idle worker claims the earliest pending item that has room, waits exactly
      when items are pending and none has, and stops exactly when none is pending. */
  lemma ScanIff(states: seq<State>, events: seq<Event>, i: nat, worker: WorkerId, position: nat)
    requires Run(states, events) && i < |states| && worker in states[i].workers && states[i].workers[worker].Idle?
    ensures var s := states[i];
            && (forall q :: 0 <= q < |s.pending| ==> s.pending[q] < |s.config.items|)
            && (Enabled(s, Claim(worker, position)) <==>
                  && position < |s.pending| && HasRoom(s, s.pending[position])
                  && forall q :: 0 <= q < position ==> !HasRoom(s, s.pending[q]))
            && (Enabled(s, Wait(worker)) <==>
                  s.pending != [] && forall q :: 0 <= q < |s.pending| ==> !HasRoom(s, s.pending[q]))
            && (Enabled(s, Stop(worker)) <==> s.pending == [])
  {
    hide Eligible, HasRoom, Exact;
    RunInv(states, events, i);
    InvShaped(states[i]);
    var s := states[i];
    forall q | 0 <= q < |s.pending|
      ensures s.pending[q] < |s.config.items|
      ensures Eligible(s.config, s.active, s.pending[q]) <==> HasRoom(s, s.pending[q])
    {
      RoomIff(s, s.pending[q]);
    }
  }

  lemma CountAtMostSize(workers: map<WorkerId, Worker>, p: Worker -> bool)
    ensures Count(workers, p) <= |workers.Keys|
  {
    SubsetSize(Select(workers, p), workers.Keys);
  }

  predicate Finished(w: Worker) {
    w.Stopped? || w.Failed?
  }

  /** No reachable state is stuck: while a worker is unfinished, some step is possible. */
  lemma NeverStuck(states: seq<State>, events: seq<Event>, i: nat)
    requires Run(states, events) && i < |states|
    requires exists w :: w in states[i].workers && !Finished(states[i].workers[w])
    ensures exists e :: Enabled(states[i], e)
  {
    RunInv(states, events, i);
    var s := states[i];
    var w :| w in s.workers && !Finished(s.workers[w]);
    var e := StepOf(s, w);
    assert Enabled(s, e);
  }

  lemma StepOf(s: State, w: WorkerId) returns (e: Event)
    requires Inv(s) && w in s.workers && !Finished(s.workers[w])
    ensures Enabled(s, e)
  {
    hide Exact, WithinLimits, ClaimedOnce, RunningOnce, ResultsReturned, Accounted, Eligible;
    var at := w;
    if s.workers[w].Waiting? {
      at :| at in s.workers && Holds(s.workers[at]);
    }
    if s.workers[at].Running? {
      e := Return(at, 0);
    } else if s.workers[at].Releasing? {
      e := Release(at);
    } else if s.pending == [] {
      e := Stop(at);
    } else if i :| 0 <= i < |s.pending| && Eligible(s.config, s.active, s.pending[i]) {
      var position := LeastEligible(s, i);
      e := Claim(at, position);
    } else {
      e := Wait(at);
    }
  }

  lemma LeastEligible(s: State, i: nat) returns (position: nat)
    requires InRange(s) && i < |s.pending| && Eligible(s.config, s.active, s.pending[i])
    ensures FirstEligible(s.config, s.pending, s.active, position)
  {
    hide Eligible;
    position := i;
    if j :| 0 <= j < i && Eligible(s.config, s.active, s.pending[j]) {
      position := LeastEligible(s, j);
    }
  }

  /** What is left of the items: three steps for a pending one, two in the callback, one held. */
  ghost function Left(s: State): nat {
    3 * |s.pending| + Count(s.workers, Holds) + Count(s.workers, IsRunning)
  }

  ghost function Product(a: nat, b: nat): nat {
    a * b
  }

  /** Every step lowers this measure, so every run is finite. */
  ghost function Work(s: State): nat {
    Product(Left(s), |s.workers.Keys| + 1) + Count(s.workers, IsIdle)
  }

  predicate IsRunning(w: Worker) {
    w.Running?
  }

  predicate IsIdle(w: Worker) {
    w.Idle?
  }

  predicate Parks(e: Event) {
    e.Wait? || e.Stop?
  }

  lemma LeftDrops(s: State, e: Event)
    requires Shaped(s) && Enabled(s, e)
    ensures Left(Next(s, e)) <= if Parks(e) then Left(s) else Left(s) - 1
  {
    hide Count, Raised, Lowered, Woken, Eligible, Shaped;
    var at := e.worker;
    var next := match e
      case Claim(_, position) => Running(s.pending[position])
      case Wait(_) => Waiting
      case Stop(_) => Stopped
      case Return(_, _) => Releasing(s.workers[at].index, true)
      case Raise(_) => Releasing(s.workers[at].index, false)
      case Release(_) => if s.workers[at].ok then Idle else Failed;
    CountUpdate(s.workers, at, next, Holds);
    CountUpdate(s.workers, at, next, IsRunning);
    WokenCount(s.workers[at := next], Holds);
    WokenCount(s.workers[at := next], IsRunning);
  }

  lemma IdleDrops(s: State, e: Event)
    requires Shaped(s) && Enabled(s, e)
    ensures Next(s, e).workers.Keys == s.workers.Keys
    ensures Count(Next(s, e).workers, IsIdle) <= |s.workers.Keys|
    ensures Parks(e) ==> Count(Next(s, e).workers, IsIdle) == Count(s.workers, IsIdle) - 1
  {
    hide Count, Raised, Lowered, Eligible, Shaped;
    CountAtMostSize(Next(s, e).workers, IsIdle);
    assert Next(s, e).workers.Keys == s.workers.Keys;
    if Parks(e) {
      CountUpdate(s.workers, e.worker, if e.Wait? then Waiting else Stopped, IsIdle);
    }
  }

  lemma ProductDrops(a: nat, b: nat, k: nat)
    requires a <= b - 1
    ensures Product(a, k) + k <= Product(b, k)
  {
    assert (b - 1 - a) * k >= 0;
  }

  lemma WorkDrops(s: State, e: Event)
    requires Shaped(s) && Enabled(s, e)
    ensures Work(Next(s, e)) < Work(s)
  {
    hide Left, Product, Count, Next, Enabled, Shaped;
    var s', k := Next(s, e), |s.workers.Keys| + 1;
    LeftDrops(s, e);
    IdleDrops(s, e);
    if Left(s') < Left(s) {
      ProductDrops(Left(s'), Left(s), k);
    }
  }

  lemma InvShaped(s: State)
    requires Inv(s)
    ensures Shaped(s)
  {
  }

  lemma RunWorkDrops(states: seq<State>, events: seq<Event>, i: nat)
    requires Run(states, events) && i + 1 < |states|
    ensures Work(states[i + 1]) < Work(states[i])
  {
    hide Work, Initial, Next, Enabled, Inv, Shaped;
    RunInv(states, events, i);
    InvShaped(states[i]);
    WorkDrops(states[i], events[i]);
  }

  /** A run has at most as many steps as the work it starts with. */
  lemma {:induction false} RunIsBounded(states: seq<State>, events: seq<Event>, i: nat)
    requires Run(states, events) && i < |states|
    ensures Work(states[i]) + i <= Work(states[0])
  {
    hide Work, Run;
    if i > 0 {
      RunIsBounded(states, events, i - 1);
      RunWorkDrops(states, events, i - 1);
    }
  }

  ghost predicate Clean(events: seq<Event>) {
    forall i :: 0 <= i < |events| ==> !events[i].Raise?
  }

  lemma {:induction false} CleanRun(states: seq<State>, events: seq<Event>, i: nat)
    requires Run(states, events) && i < |states| && Clean(events)
    ensures !Aborted(states[i])
  {
    hide Inv, Next, Enabled, Initial, Aborted;
    if i > 0 {
      CleanRun(states, events, i - 1);
      RunInv(states, events, i - 1);
      CleanStep(states, events, i - 1);
    } else {
      InitialClean(states, events);
    }
  }

  lemma InitialClean(states: seq<State>, events: seq<Event>)
    requires Run(states, events)
    ensures !Aborted(states[0])
  {
    hide Next, Enabled;
  }

  lemma CleanStep(states: seq<State>, events: seq<Event>, i: nat)
    requires Run(states, events) && i < |events| && Clean(events)
    requires Inv(states[i]) && !Aborted(states[i])
    ensures !Aborted(states[i + 1])
  {
    hide Next, Enabled, Exact, WithinLimits, WaitersHaveHolder, ClaimedOnce, RunningOnce;
    hide ResultsReturned, Accounted, StoppedMeansDrained, Aborted, Shaped, Initial;
    StepAborts(states[i], events[i]);
  }

  /** When all workers have finished and no callback raised, every item was started exactly
      once, returned exactly once, and result i is what the callback on item i returned. */
  lemma EveryItemOnce(states: seq<State>, events: seq<Event>, i: nat)
    requires Run(states, events) && i < |states| && Clean(events)
    requires forall w :: w in states[i].workers ==> Finished(states[i].workers[w])
    ensures var s, n := states[i], |states[0].config.items|;
            && |s.results| == n
            && Unrepeated(s.started) && (forall k :: k in s.started <==> 0 <= k < n)
            && (forall a, b :: 0 <= a < b < |s.returned| ==> s.returned[a].0 != s.returned[b].0)
            && (forall k :: 0 <= k < n ==>
                  s.results[k].Some? && (k, s.results[k].value) in s.returned)
  {
    hide Exact, WithinLimits, Work;
    RunInv(states, events, i);
    CleanRun(states, events, i);
    var s, n := states[i], |states[0].config.items|;
    if n > 0 {
      var w :| w in s.workers.Keys;
      assert Finished(s.workers[w]) && s.workers[w].Stopped?;
    }
    assert s.pending == [];
    forall k | 0 <= k < n ensures s.results[k].Some? {
      assert k in s.started;
    }
  }

  /** The pending list stays in the order of the items, and a claim takes the earliest
      eligible one, so the schedule depends on the counters alone. */
  lemma {:induction false} PendingInOrder(states: seq<State>, events: seq<Event>, i: nat)
    requires Run(states, events) && i < |states|
    ensures forall a, b :: 0 <= a < b < |states[i].pending| ==> states[i].pending[a] < states[i].pending[b]
  {
    hide Raised, Lowered, Woken, Eligible;
    if i > 0 {
      PendingInOrder(states, events, i - 1);
      assert Enabled(states[i - 1], events[i - 1]);
    }
  }
}
