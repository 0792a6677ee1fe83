/** The generation-fenced resource cache (ManagedResourceGateway.read, invalidate, _load).

A read is answered from the cache, by joining the registered load of its key, or by a new
load that captures the generation counter of its (tenant, uri). A load stores its result
only if the counter still has the captured value. Counters are deleted when nothing refers
to them and start again from zero, so the danger is a counter that returns to an old value
under a load that captured it.

A load of a registered resource takes the contents along when it is created. A load from a
connector takes its data later, while it is in flight.
*/
module ResourceGateway {
  import opened Counting
  import opened Wrappers

  type LoadId = nat

  datatype CacheKey = CacheKey(
    tenant: string, rootSession: string, session: string, uri: string, revision: Option<string>)

  /** What a generation counter belongs to. */
  datatype Subject = Subject(tenant: string, uri: string)

  /** A cached result, named by the load that produced it. */
  datatype Entry = Entry(load: LoadId, expiresAt: int)

  datatype Shared = Shared(
    cache: map<CacheKey, Entry>, loads: map<CacheKey, LoadId>, generations: map<Subject, nat>,
    queued: nat, inflight: nat)

  datatype Config = Config(ttl: nat, maxConcurrent: nat, maxQueued: nat)

  predicate ValidConfig(c: Config) {
    c.maxConcurrent >= 1 && c.maxQueued >= 1
  }

  function SubjectOf(key: CacheKey): Subject {
    Subject(key.tenant, key.uri)
  }

  function Generation(sh: Shared, subject: Subject): nat {
    if subject in sh.generations then sh.generations[subject] else 0
  }

  // ---------------------------------------------------------------- sections under the state lock

  datatype Answer =
    | Hit(entry: Entry)
    | Join(load: LoadId)
    | Busy
    | Begin(load: LoadId, generation: nat)

  function ReadAnswer(sh: Shared, c: Config, key: CacheKey, now: int, newLoad: LoadId): Answer {
    if key in sh.cache && sh.cache[key].expiresAt > now then Hit(sh.cache[key])
    else if key in sh.loads then Join(sh.loads[key])
    else if sh.queued >= c.maxQueued then Busy
    else Begin(newLoad, Generation(sh, SubjectOf(key)))
  }

  function AfterRead(sh: Shared, c: Config, key: CacheKey, now: int, newLoad: LoadId): Shared {
    if ReadAnswer(sh, c, key, now, newLoad).Begin?
    then sh.(queued := sh.queued + 1, loads := sh.loads[key := newLoad]) else sh
  }

  /** `tenant` None covers every tenant. */
  predicate Covers(uri: string, tenant: Option<string>, subject: Subject) {
    subject.uri == uri && (tenant.None? || subject.tenant == tenant.value)
  }

  function Affected(sh: Shared, uri: string, tenant: Option<string>): set<string> {
    set k | k in sh.cache.Keys + sh.loads.Keys && Covers(uri, tenant, SubjectOf(k)) :: k.tenant
  }

  function Bumped(generations: map<Subject, nat>, uri: string, tenants: set<string>): map<Subject, nat> {
    map x | x in generations.Keys + (set t | t in tenants :: Subject(t, uri)) ::
      (if x in generations then generations[x] else 0)
      + (if x.uri == uri && x.tenant in tenants then 1 else 0)
  }

  function CoveredKeys(cache: map<CacheKey, Entry>, uri: string, tenant: Option<string>): set<CacheKey> {
    set k | k in cache && Covers(uri, tenant, SubjectOf(k))
  }

  function Uncovered(cache: map<CacheKey, Entry>, uri: string, tenant: Option<string>): map<CacheKey, Entry> {
    map k | k in cache && !Covers(uri, tenant, SubjectOf(k)) :: cache[k]
  }

  function Invalidated(sh: Shared, uri: string, tenant: Option<string>): Shared {
    sh.(generations := Bumped(sh.generations, uri, Affected(sh, uri, tenant)),
        cache := Uncovered(sh.cache, uri, tenant))
  }

  function Stored(sh: Shared, c: Config, key: CacheKey, generation: nat, revisionMatches: bool,
                  entry: Entry): Shared {
    if c.ttl > 0 && Generation(sh, SubjectOf(key)) == generation && revisionMatches
    then sh.(cache := sh.cache[key := entry]) else sh
  }

  predicate Referenced(sh: Shared, subject: Subject) {
    exists k :: k in sh.loads.Keys + sh.cache.Keys && SubjectOf(k) == subject
  }

  function Unregistered(sh: Shared, key: CacheKey, load: LoadId): Shared {
    var left := if key in sh.loads && sh.loads[key] == load then sh.(loads := sh.loads - {key}) else sh;
    if Referenced(left, SubjectOf(key)) then left
    else left.(generations := left.generations - {SubjectOf(key)})
  }

  /** The last section of a load's `finally`. */
  function Ended(sh: Shared, key: CacheKey, load: LoadId, started: bool): Shared
    requires if started then sh.inflight >= 1 else sh.queued >= 1
  {
    Unregistered(
      if started then sh.(inflight := sh.inflight - 1) else sh.(queued := sh.queued - 1), key, load)
  }

  class Gateway {
    const config: Config
    var cache: map<CacheKey, Entry>
    var loads: map<CacheKey, LoadId>
    var generations: map<Subject, nat>
    var queued: nat
    var inflight: nat

    function View(): Shared
      reads this
    {
      Shared(cache, loads, generations, queued, inflight)
    }

    constructor (config: Config)
      requires ValidConfig(config)
      ensures this.config == config && View() == Shared(map[], map[], map[], 0, 0)
    {
      this.config := config;
      cache, loads, generations, queued, inflight := map[], map[], map[], 0, 0;
    }

    method Read(key: CacheKey, now: int, newLoad: LoadId) returns (answer: Answer)
      modifies this
      ensures answer == ReadAnswer(old(View()), config, key, now, newLoad)
      ensures View() == AfterRead(old(View()), config, key, now, newLoad)
    {
      if key in cache && cache[key].expiresAt > now {
        return Hit(cache[key]);
      }
      if key in loads {
        return Join(loads[key]);
      }
      if queued >= config.maxQueued {
        return Busy;
      }
      queued := queued + 1;
      var subject := Subject(key.tenant, key.uri);
      answer := Begin(newLoad, if subject in generations then generations[subject] else 0);
      loads := loads[key := newLoad];
    }

    method Invalidate(uri: string, tenant: Option<string>) returns (removed: nat)
      modifies this
      ensures View() == Invalidated(old(View()), uri, tenant)
      ensures removed == |CoveredKeys(old(cache), uri, tenant)|
    {
      hide Bumped, Affected, Uncovered, CoveredKeys;
      var affected := Affected(View(), uri, tenant);
      Bump(uri, affected);
      removed := Drop(uri, tenant);
    }

    /** Removal of the covered entries. */
    method Drop(uri: string, tenant: Option<string>) returns (removed: nat)
      modifies this`cache
      ensures cache == Uncovered(old(cache), uri, tenant)
      ensures removed == |CoveredKeys(old(cache), uri, tenant)|
    {
      hide Covers, SubjectOf;
      var keys := CoveredKeys(cache, uri, tenant);
      cache := cache - keys;
      removed := |keys|;
    }

    /** The loop over the affected tenants. */
    method Bump(uri: string, tenants: set<string>)
      modifies this`generations
      ensures generations == Bumped(old(generations), uri, tenants)
    {
      hide Bumped;
      ghost var before := generations;
      BumpNone(before, uri);
      var todo, done := tenants, {};
      while todo != {}
        invariant done !! todo && tenants == done + todo
        invariant generations == Bumped(before, uri, done)
        decreases todo
      {
        var t :| t in todo;
        var subject := Subject(t, uri);
        BumpOne(before, uri, done, t);
        generations := generations[subject := (if subject in generations then generations[subject] else 0) + 1];
        todo, done := todo - {t}, done + {t};
      }
    }

    method Store(key: CacheKey, generation: nat, revisionMatches: bool, load: LoadId, now: int)
      modifies this
      ensures View() == Stored(old(View()), config, key, generation, revisionMatches,
                               Entry(load, now + config.ttl))
    {
      var subject := Subject(key.tenant, key.uri);
      var generationMatches := (if subject in generations then generations[subject] else 0) == generation;
      if config.ttl > 0 && generationMatches && revisionMatches {
        cache := cache[key := Entry(load, now + config.ttl)];
      }
    }

    method Finish(key: CacheKey, load: LoadId, started: bool)
      requires if started then inflight >= 1 else queued >= 1
      modifies this
      ensures View() == Ended(old(View()), key, load, started)
    {
      if !started {
        queued := queued - 1;
      } else {
        inflight := inflight - 1;
      }
      if key in loads && loads[key] == load {
        loads := loads - {key};
      }
      if !(exists k :: k in loads.Keys + cache.Keys && SubjectOf(k) == SubjectOf(key)) {
        generations := generations - {SubjectOf(key)};
      }
    }
  }

  lemma BumpNone(generations: map<Subject, nat>, uri: string)
    ensures Bumped(generations, uri, {}) == generations
  {
  }

  lemma BumpOne(generations: map<Subject, nat>, uri: string, tenants: set<string>, t: string)
    requires t !in tenants
    ensures var before := Bumped(generations, uri, tenants);
            var subject := Subject(t, uri);
            Bumped(generations, uri, tenants + {t}) ==
              before[subject := (if subject in before then before[subject] else 0) + 1]
  {
  }

  // ---------------------------------------------------------------- the state machine

  datatype Stage =
    | Queued     // waiting for capacity
    | Acquired   // owns a permit, still counted as queued
    | Fetching   // counted as in flight, owns a permit; the data may or may not be there yet
    | Abandoned  // timed out while queued
    | Returning  // permit given back, still registered
    | Done

  /** `created` is the position of the read that created the load, `fetched` that of the step
      that took its data from the source. */
  datatype Load = Load(key: CacheKey, generation: nat, created: nat, fetched: Option<nat>, stage: Stage)

  datatype State = State(
    config: Config, shared: Shared, free: nat, clock: nat, tasks: map<LoadId, Load>)

  datatype Event =
    | Read(key: CacheKey, now: int, newLoad: LoadId, registered: bool)
    | Acquire(load: LoadId)
    | TimeOut(load: LoadId)
    | Start(load: LoadId)
    | Fetch(load: LoadId)
    | Store(load: LoadId, now: int, revisionMatches: bool)
    | Fail(load: LoadId)
    | End(load: LoadId)
    | Invalidate(uri: string, tenant: Option<string>)

  predicate At(s: State, load: LoadId, stages: set<Stage>) {
    load in s.tasks && s.tasks[load].stage in stages
  }

  predicate Enabled(s: State, e: Event) {
    match e
    case Read(_, _, newLoad, _) => newLoad !in s.tasks
    case Acquire(load) => At(s, load, {Queued}) && s.free > 0
    case TimeOut(load) => At(s, load, {Queued})
    case Start(load) => At(s, load, {Acquired}) && s.shared.queued >= 1
    case Fetch(load) => At(s, load, {Fetching}) && s.tasks[load].fetched.None?
    case Store(load, _, _) => At(s, load, {Fetching}) && s.tasks[load].fetched.Some?
    case Fail(load) => At(s, load, {Fetching})
    case End(load) =>
      && At(s, load, {Abandoned, Returning})
      && (if s.tasks[load].stage == Returning then s.shared.inflight >= 1 else s.shared.queued >= 1)
    case Invalidate(_, _) => true
  }

  function Moved(s: State, load: LoadId, stage: Stage): map<LoadId, Load>
    requires load in s.tasks
  {
    s.tasks[load := s.tasks[load].(stage := stage)]
  }

  /** A load of a registered resource has its data from the start. */
  function ReadBy(s: State, key: CacheKey, now: int, newLoad: LoadId, registered: bool): State {
    var answer := ReadAnswer(s.shared, s.config, key, now, newLoad);
    var fetched := if registered then Some(s.clock) else None;
    s.(shared := AfterRead(s.shared, s.config, key, now, newLoad),
       tasks := if answer.Begin?
                then s.tasks[newLoad := Load(key, answer.generation, s.clock, fetched, Queued)]
                else s.tasks)
  }

  function StoreBy(s: State, load: LoadId, now: int, revisionMatches: bool): State
    requires load in s.tasks
  {
    var t := s.tasks[load];
    s.(shared := Stored(s.shared, s.config, t.key, t.generation, revisionMatches,
                        Entry(load, now + s.config.ttl)),
       free := s.free + 1, tasks := Moved(s, load, Returning))
  }

  function EndBy(s: State, load: LoadId): State
    requires Enabled(s, End(load))
  {
    var t := s.tasks[load];
    s.(shared := Ended(s.shared, t.key, load, t.stage == Returning), tasks := Moved(s, load, Done))
  }

  function Effect(s: State, e: Event): State
    requires Enabled(s, e)
  {
    match e
    case Read(key, now, newLoad, registered) => ReadBy(s, key, now, newLoad, registered)
    case Acquire(load) => s.(free := s.free - 1, tasks := Moved(s, load, Acquired))
    case TimeOut(load) => s.(tasks := Moved(s, load, Abandoned))
    case Start(load) =>
      s.(shared := s.shared.(queued := s.shared.queued - 1, inflight := s.shared.inflight + 1),
         tasks := Moved(s, load, Fetching))
    case Fetch(load) => s.(tasks := s.tasks[load := s.tasks[load].(fetched := Some(s.clock))])
    case Store(load, now, revisionMatches) => StoreBy(s, load, now, revisionMatches)
    case Fail(load) => s.(free := s.free + 1, tasks := Moved(s, load, Returning))
    case End(load) => EndBy(s, load)
    case Invalidate(uri, tenant) => s.(shared := Invalidated(s.shared, uri, tenant))
  }

  /** One step; the clock counts the steps of the run. */
  function Next(s: State, e: Event): State
    requires Enabled(s, e)
  {
    Effect(s, e).(clock := s.clock + 1)
  }

  predicate Initial(s: State) {
    && ValidConfig(s.config)
    && s == State(s.config, Shared(map[], map[], map[], 0, 0), s.config.maxConcurrent, 0, map[])
  }

  // ---------------------------------------------------------------- counters and registration

  predicate Live(t: Load) { t.stage != Done }

  predicate IsQueued(t: Load) { t.stage in {Queued, Acquired, Abandoned} }

  predicate IsInflight(t: Load) { t.stage in {Fetching, Returning} }

  predicate OwnsPermit(t: Load) { t.stage in {Acquired, Fetching} }

  const QueuedLoads: Load -> bool := (t: Load) => IsQueued(t)
  const InflightLoads: Load -> bool := (t: Load) => IsInflight(t)
  const Permits: Load -> bool := (t: Load) => OwnsPermit(t)

  /** The registered loads are exactly the unfinished ones, each under its own key. */
  ghost predicate RegisteredExactly(s: State) {
    && (forall id :: id in s.tasks && Live(s.tasks[id]) ==>
          s.tasks[id].key in s.shared.loads && s.shared.loads[s.tasks[id].key] == id)
    && (forall k :: k in s.shared.loads ==>
          s.shared.loads[k] in s.tasks && Live(s.tasks[s.shared.loads[k]])
          && s.tasks[s.shared.loads[k]].key == k)
  }

  ghost predicate CountersExact(s: State) {
    && s.shared.queued == Count(s.tasks, QueuedLoads) <= s.config.maxQueued
    && s.shared.inflight == Count(s.tasks, InflightLoads)
    && s.free + Count(s.tasks, Permits) == s.config.maxConcurrent
  }

  /** Entries come from loads of their key that have data, and data is taken after creation. */
  predicate CacheNamed(s: State) {
    EntriesNamed(s) && LoadsStamped(s)
  }

  predicate EntriesNamed(s: State) {
    forall k :: k in s.shared.cache ==>
      && s.shared.cache[k].load in s.tasks && s.tasks[s.shared.cache[k].load].key == k
      && s.tasks[s.shared.cache[k].load].fetched.Some?
  }

  predicate LoadsStamped(s: State) {
    forall id :: id in s.tasks ==>
      && s.tasks[id].created < s.clock
      && (s.tasks[id].fetched.Some? ==> s.tasks[id].created <= s.tasks[id].fetched.value < s.clock)
  }

  ghost predicate Inv(s: State) {
    RegisteredExactly(s) && CountersExact(s) && CacheNamed(s)
  }

  function One(b: bool): nat {
    if b then 1 else 0
  }

  /** How the three counts change with one load. */
  lemma MoveCounts(before: map<LoadId, Load>, id: LoadId, t: Load)
    requires id in before
    ensures var after := before[id := t];
            && Count(after, QueuedLoads) ==
                 Count(before, QueuedLoads) - One(IsQueued(before[id])) + One(IsQueued(t))
            && Count(after, InflightLoads) ==
                 Count(before, InflightLoads) - One(IsInflight(before[id])) + One(IsInflight(t))
            && Count(after, Permits) ==
                 Count(before, Permits) - One(OwnsPermit(before[id])) + One(OwnsPermit(t))
  {
    hide Count;
    CountUpdate(before, id, t, QueuedLoads);
    CountUpdate(before, id, t, InflightLoads);
    CountUpdate(before, id, t, Permits);
  }

  lemma AddCounts(before: map<LoadId, Load>, id: LoadId, t: Load)
    requires id !in before && t.stage == Queued
    ensures var after := before[id := t];
            && Count(after, QueuedLoads) == Count(before, QueuedLoads) + 1
            && Count(after, InflightLoads) == Count(before, InflightLoads)
            && Count(after, Permits) == Count(before, Permits)
  {
    hide Count;
    CountUpdate(before, id, t, QueuedLoads);
    CountUpdate(before, id, t, InflightLoads);
    CountUpdate(before, id, t, Permits);
  }

  lemma CountersPositive(s: State, id: LoadId)
    requires CountersExact(s) && id in s.tasks
    ensures IsQueued(s.tasks[id]) ==> s.shared.queued >= 1
    ensures IsInflight(s.tasks[id]) ==> s.shared.inflight >= 1
  {
    hide Count;
    CountPositive(s.tasks, QueuedLoads);
    CountPositive(s.tasks, InflightLoads);
    assert QueuedLoads(s.tasks[id]) == IsQueued(s.tasks[id]);
    assert InflightLoads(s.tasks[id]) == IsInflight(s.tasks[id]);
  }

  lemma ReadCounters(s: State, e: Event)
    requires CountersExact(s) && Enabled(s, e) && e.Read?
    ensures CountersExact(Next(s, e))
  {
    hide Count;
    if ReadAnswer(s.shared, s.config, e.key, e.now, e.newLoad).Begin? {
      AddCounts(s.tasks, e.newLoad, Next(s, e).tasks[e.newLoad]);
    }
  }

  /** A load that moves takes its counts along. */
  lemma MoveCounters(s: State, s': State, id: LoadId)
    requires CountersExact(s) && id in s.tasks && id in s'.tasks
    requires s'.tasks == s.tasks[id := s'.tasks[id]] && s'.config == s.config
    requires IsQueued(s'.tasks[id]) ==> IsQueued(s.tasks[id])
    requires s'.shared.queued == s.shared.queued - One(IsQueued(s.tasks[id])) + One(IsQueued(s'.tasks[id]))
    requires s'.shared.inflight ==
               s.shared.inflight - One(IsInflight(s.tasks[id])) + One(IsInflight(s'.tasks[id]))
    requires s'.free == s.free + One(OwnsPermit(s.tasks[id])) - One(OwnsPermit(s'.tasks[id]))
    ensures CountersExact(s')
  {
    hide Count, IsQueued, IsInflight, OwnsPermit;
    MoveCounts(s.tasks, id, s'.tasks[id]);
  }

  lemma QueueCounters(s: State, e: Event)
    requires CountersExact(s) && Enabled(s, e) && (e.Acquire? || e.TimeOut? || e.Start?)
    ensures CountersExact(Next(s, e))
  {
    hide CountersExact;
    MoveCounters(s, Next(s, e), e.load);
  }

  lemma FetchCounters(s: State, e: Event)
    requires CountersExact(s) && Enabled(s, e) && (e.Fetch? || e.Fail?)
    ensures CountersExact(Next(s, e))
  {
    hide CountersExact;
    MoveCounters(s, Next(s, e), e.load);
  }

  lemma StoreCounters(s: State, e: Event)
    requires CountersExact(s) && Enabled(s, e) && e.Store?
    ensures CountersExact(Next(s, e))
  {
    hide CountersExact;
    MoveCounters(s, Next(s, e), e.load);
  }

  lemma EndCounters(s: State, e: Event)
    requires CountersExact(s) && Enabled(s, e) && e.End?
    ensures CountersExact(Next(s, e))
  {
    hide CountersExact, Referenced;
    MoveCounters(s, Next(s, e), e.load);
  }

  lemma StepCounters(s: State, e: Event)
    requires CountersExact(s) && Enabled(s, e)
    ensures CountersExact(Next(s, e))
  {
    hide CountersExact, Next, Enabled;
    match e
    case Read(_, _, _, _) => ReadCounters(s, e);
    case Store(_, _, _) => StoreCounters(s, e);
    case End(_) => EndCounters(s, e);
    case Invalidate(_, _) => InvalidateCounters(s, e);
    case Fetch(_) => FetchCounters(s, e);
    case Fail(_) => FetchCounters(s, e);
    case _ => QueueCounters(s, e);
  }

  lemma InvalidateCounters(s: State, e: Event)
    requires CountersExact(s) && e.Invalidate?
    ensures CountersExact(Next(s, e))
  {
    hide CountersExact;
    SameCounters(s, Next(s, e));
  }

  lemma SameCounters(s: State, s': State)
    requires CountersExact(s) && s'.tasks == s.tasks && s'.config == s.config && s'.free == s.free
    requires s'.shared.queued == s.shared.queued && s'.shared.inflight == s.shared.inflight
    ensures CountersExact(s')
  {
  }

  lemma StepRegistered(s: State, e: Event)
    requires RegisteredExactly(s) && Enabled(s, e)
    ensures RegisteredExactly(Next(s, e))
  {
    hide RegisteredExactly, Bumped;
    var s' := Next(s, e);
    match e
    case Read(key, now, newLoad, _) =>
      if ReadAnswer(s.shared, s.config, key, now, newLoad).Begin? {
        ReadRegisters(s, s', key, newLoad);
      } else {
        SameRegistered(s, s');
      }
    case End(load) => EndUnregisters(s, s', load);
    case Invalidate(uri, tenant) => SameRegistered(s, s');
    case _ => MoveRegistered(s, s', e.load);
  }

  lemma SameRegistered(s: State, s': State)
    requires RegisteredExactly(s) && s'.tasks == s.tasks && s'.shared.loads == s.shared.loads
    ensures RegisteredExactly(s')
  {
  }

  lemma MoveRegistered(s: State, s': State, load: LoadId)
    requires RegisteredExactly(s) && load in s.tasks && s'.shared.loads == s.shared.loads
    requires load in s'.tasks && s'.tasks == s.tasks[load := s'.tasks[load]]
    requires s'.tasks[load].key == s.tasks[load].key && Live(s.tasks[load]) && Live(s'.tasks[load])
    ensures RegisteredExactly(s')
  {
  }

  lemma ReadRegisters(s: State, s': State, key: CacheKey, newLoad: LoadId)
    requires RegisteredExactly(s) && newLoad !in s.tasks && key !in s.shared.loads
    requires newLoad in s'.tasks && s'.tasks == s.tasks[newLoad := s'.tasks[newLoad]]
    requires s'.tasks[newLoad].key == key && Live(s'.tasks[newLoad])
    requires s'.shared.loads == s.shared.loads[key := newLoad]
    ensures RegisteredExactly(s')
  {
  }

  lemma EndUnregisters(s: State, s': State, load: LoadId)
    requires RegisteredExactly(s) && load in s.tasks && Live(s.tasks[load])
    requires load in s'.tasks && s'.tasks == s.tasks[load := s'.tasks[load]]
    requires s'.tasks[load].key == s.tasks[load].key && !Live(s'.tasks[load])
    requires var key := s.tasks[load].key;
             s'.shared.loads == if key in s.shared.loads && s.shared.loads[key] == load
                                then s.shared.loads - {key} else s.shared.loads
    ensures RegisteredExactly(s')
  {
  }

  lemma StepEntriesNamed(s: State, e: Event)
    requires EntriesNamed(s) && Enabled(s, e)
    ensures EntriesNamed(Next(s, e))
  {
    hide Bumped, Referenced;
  }

  lemma StepLoadsStamped(s: State, e: Event)
    requires LoadsStamped(s) && Enabled(s, e)
    ensures LoadsStamped(Next(s, e))
  {
    hide Invalidated, Unregistered, Referenced;
  }

  lemma StepNamed(s: State, e: Event)
    requires CacheNamed(s) && Enabled(s, e)
    ensures CacheNamed(Next(s, e))
  {
    hide EntriesNamed, LoadsStamped, Next, Enabled;
    StepEntriesNamed(s, e);
    StepLoadsStamped(s, e);
  }

  // ---------------------------------------------------------------- whole runs

  ghost predicate Run(states: seq<State>, events: seq<Event>) {
    && |states| == |events| + 1
    && Initial(states[0])
    && forall i :: 0 <= i < |events| ==>
         Enabled(states[i], events[i]) && states[i + 1] == Next(states[i], events[i])
  }

  lemma {:induction false} RunInv(states: seq<State>, events: seq<Event>, i: nat)
    requires Run(states, events) && i < |states|
    ensures Inv(states[i]) && states[i].clock == i && states[i].config == states[0].config
  {
    hide CountersExact, RegisteredExactly, CacheNamed;
    if i == 0 {
      InitialInv(states[0]);
    } else {
      RunInv(states, events, i - 1);
      StepCounters(states[i - 1], events[i - 1]);
      StepRegistered(states[i - 1], events[i - 1]);
      StepNamed(states[i - 1], events[i - 1]);
    }
  }

  lemma InitialInv(s: State)
    requires ValidConfig(s.config) && s.tasks == map[] && s.free == s.config.maxConcurrent
    requires s.shared == Shared(map[], map[], map[], 0, 0)
    ensures Inv(s)
  {
    hide Count;
    CountNone(s.tasks, QueuedLoads);
    CountNone(s.tasks, InflightLoads);
    CountNone(s.tasks, Permits);
  }

  /** Single flight, the queue bound and the permit bound, in every state of every run. */
  lemma LoadBounds(states: seq<State>, events: seq<Event>, j: nat)
    requires Run(states, events) && j < |states|
    ensures var s, c := states[j], states[0].config;
            && (forall a, b ::
                  a in s.tasks && b in s.tasks && a != b && Live(s.tasks[a]) && Live(s.tasks[b]) ==>
                  s.tasks[a].key != s.tasks[b].key)
            && s.shared.queued == Count(s.tasks, QueuedLoads) <= c.maxQueued
            && s.shared.inflight == Count(s.tasks, InflightLoads)
            && Count(s.tasks, Permits) <= c.maxConcurrent
  {
    hide Count;
    RunInv(states, events, j);
  }

  /** The counters never underflow: every load that needs to move can. */
  lemma LoadsCanFinish(states: seq<State>, events: seq<Event>, j: nat, id: LoadId)
    requires Run(states, events) && j < |states| && id in states[j].tasks
    ensures states[j].tasks[id].stage == Acquired ==> Enabled(states[j], Start(id))
    ensures states[j].tasks[id].stage.Abandoned? || states[j].tasks[id].stage.Returning? ==>
      Enabled(states[j], End(id))
  {
    hide CountersExact, RegisteredExactly, CacheNamed;
    RunInv(states, events, j);
    CountersPositive(states[j], id);
  }

  // ---------------------------------------------------------------- progress

  /** How far a load has come. */
  function Rank(t: Load): nat {
    match t.stage
    case Queued => 0
    case Acquired => 1
    case Fetching => if t.fetched.None? then 2 else 3
    case Abandoned => 4
    case Returning => 4
    case Done => 5
  }

  /** Every step of a load takes it further and no step moves another load. */
  lemma LoadsAdvance(s: State, e: Event)
    requires Enabled(s, e) && !e.Read? && !e.Invalidate?
    ensures e.load in Next(s, e).tasks && Rank(s.tasks[e.load]) < Rank(Next(s, e).tasks[e.load])
    ensures forall id :: id != e.load ==> Get(Next(s, e).tasks, id) == Get(s.tasks, id)
  {
    hide Referenced;
  }

  /** A load can take a permit exactly when fewer loads than may run own one. */
  lemma AcquireIff(states: seq<State>, events: seq<Event>, j: nat, id: LoadId)
    requires Run(states, events) && j < |states| && id in states[j].tasks
    ensures Enabled(states[j], Acquire(id)) <==>
      states[j].tasks[id].stage == Queued && Count(states[j].tasks, Permits) < states[0].config.maxConcurrent
  {
    hide Count, RegisteredExactly, CacheNamed;
    RunInv(states, events, j);
  }

  /** While a load is unfinished the gateway is never stuck: some load has a step that is neither a
      timeout nor a failure. */
  lemma NeverStuck(states: seq<State>, events: seq<Event>, j: nat, id: LoadId) returns (e: Event)
    requires Run(states, events) && j < |states| && id in states[j].tasks && Live(states[j].tasks[id])
    ensures Enabled(states[j], e) && !e.Read? && !e.Invalidate? && !e.TimeOut? && !e.Fail?
  {
    hide Count, Inv;
    var s := states[j];
    LoadsCanFinish(states, events, j, id);
    if s.tasks[id].stage == Queued {
      AcquireIff(states, events, j, id);
      if Count(s.tasks, Permits) == 0 {
        OnePermit(states, events);
        e := Acquire(id);
      } else {
        CountPositive(s.tasks, Permits);
        var other :| other in s.tasks && Permits(s.tasks[other]);
        LoadsCanFinish(states, events, j, other);
        e := OwnerStep(s, other);
      }
    } else if s.tasks[id].stage == Abandoned || s.tasks[id].stage == Returning {
      e := End(id);
    } else {
      e := OwnerStep(s, id);
    }
  }

  lemma OnePermit(states: seq<State>, events: seq<Event>)
    requires Run(states, events)
    ensures states[0].config.maxConcurrent >= 1
  {
    hide Next, Enabled;
  }

  lemma OwnerStep(s: State, id: LoadId) returns (e: Event)
    requires id in s.tasks && (s.tasks[id].stage == Acquired || s.tasks[id].stage == Fetching)
    requires s.tasks[id].stage == Acquired ==> Enabled(s, Start(id))
    ensures Enabled(s, e) && !e.Read? && !e.Invalidate? && !e.TimeOut? && !e.Fail?
  {
    e := if s.tasks[id].stage == Acquired then Start(id)
         else if s.tasks[id].fetched.None? then Fetch(id) else Store(id, 0, true);
  }

  /** When the last load of a subject ends and nothing of it is cached, its counter is dropped. */
  lemma EndReclaims(s: State, load: LoadId)
    requires Enabled(s, End(load))
    ensures var s', subject := Next(s, End(load)), SubjectOf(s.tasks[load].key);
            subject in s'.shared.generations ==>
              exists k :: (k in s'.shared.loads || k in s'.shared.cache) && SubjectOf(k) == subject
  {
  }

  /** An invalidate removes exactly the entries of the URI, of one tenant or of all, and returns how
      many it removed. */
  lemma InvalidateRemoves(sh: Shared, uri: string, tenant: Option<string>)
    ensures var after := Invalidated(sh, uri, tenant).cache;
            && |after| + |CoveredKeys(sh.cache, uri, tenant)| == |sh.cache|
            && forall k :: k in after <==>
                 k in sh.cache && !(k.uri == uri && (tenant.None? || k.tenant == tenant.value))
  {
    var after, gone := Invalidated(sh, uri, tenant).cache, CoveredKeys(sh.cache, uri, tenant);
    assert after.Keys + gone == sh.cache.Keys && after.Keys !! gone;
    assert |after| == |after.Keys| && |sh.cache| == |sh.cache.Keys|;
  }
}
