/** What a resource read is answered, over whole runs: from the cache exactly while a stored
result is unexpired and no covering invalidate came after it, by joining exactly when a load of
the key is running, and with a refusal exactly when the queue is full. */
module ResourceAnswers {
  import opened Counting
  import opened Wrappers
  import opened ResourceGateway

  /** The step stores the result of a load of this key: caching is on, the revision still matches,
      and the generation is the captured one. */
  predicate Caches(s: State, e: Event, key: CacheKey) {
    && e.Store? && e.revisionMatches && s.config.ttl > 0
    && e.load in s.tasks && s.tasks[e.load].key == key
    && s.tasks[e.load].generation == Generation(s.shared, SubjectOf(key))
  }

  predicate Clears(e: Event, key: CacheKey) {
    e.Invalidate? && e.uri == key.uri && (e.tenant.None? || e.tenant.value == key.tenant)
  }

  lemma CacheStep(s: State, e: Event, key: CacheKey)
    requires Enabled(s, e)
    ensures Get(Next(s, e).shared.cache, key) ==
      if Caches(s, e, key) then Some(Entry(e.load, e.now + s.config.ttl))
      else if Clears(e, key) then None
      else Get(s.shared.cache, key)
  {
    hide Bumped, Referenced;
  }

  /** Step `i` cached the entry and no step up to `j` replaced or cleared it. */
  ghost predicate CachedSince(
    states: seq<State>, events: seq<Event>, i: nat, j: nat, key: CacheKey, entry: Entry)
    requires |states| == |events| + 1 && j < |states|
  {
    && i < j && Caches(states[i], events[i], key)
    && entry == Entry(events[i].load, events[i].now + states[0].config.ttl)
    && forall n :: i < n < j ==> !Caches(states[n], events[n], key) && !Clears(events[n], key)
  }

  /** An entry is in the cache exactly when a step stored it and no later step stored another one
      or invalidated it. */
  lemma {:induction false} CachedIff(states: seq<State>, events: seq<Event>, j: nat, key: CacheKey, entry: Entry)
    requires Run(states, events) && j < |states|
    ensures Get(states[j].shared.cache, key) == Some(entry) <==>
      exists i: nat :: CachedSince(states, events, i, j, key, entry)
    decreases j
  {
    hide Inv, Next, Enabled, Caches, Clears;
    if j == 0 {
      NothingCached(states, events);
    } else {
      var s, e := states[j - 1], events[j - 1];
      RunInv(states, events, j - 1);
      CachedIff(states, events, j - 1, key, entry);
      CacheStep(s, e, key);
      if Caches(s, e, key) {
        CachedJust(states, events, j, key, entry);
      } else {
        CachedBefore(states, events, j - 1, j, key, entry);
      }
    }
  }

  lemma NothingCached(states: seq<State>, events: seq<Event>)
    requires Run(states, events)
    ensures states[0].shared.cache == map[]
  {
    hide Next, Enabled;
  }

  lemma CachedJust(states: seq<State>, events: seq<Event>, j: nat, key: CacheKey, entry: Entry)
    requires |states| == |events| + 1 && 0 < j < |states| && Caches(states[j - 1], events[j - 1], key)
    ensures (exists i: nat :: CachedSince(states, events, i, j, key, entry)) <==>
      entry == Entry(events[j - 1].load, events[j - 1].now + states[0].config.ttl)
  {
    hide Clears, Generation;
    if entry == Entry(events[j - 1].load, events[j - 1].now + states[0].config.ttl) {
      assert CachedSince(states, events, j - 1, j, key, entry);
    }
    if i: nat :| CachedSince(states, events, i, j, key, entry) {
      assert i == j - 1;
    }
  }

  lemma CachedBefore(states: seq<State>, events: seq<Event>, n: nat, j: nat, key: CacheKey, entry: Entry)
    requires |states| == |events| + 1 && j == n + 1 < |states| && !Caches(states[n], events[n], key)
    ensures (exists i: nat :: CachedSince(states, events, i, j, key, entry)) <==>
      && !Clears(events[n], key)
      && exists i: nat :: CachedSince(states, events, i, n, key, entry)
  {
    hide Caches, Clears;
    if i: nat :| CachedSince(states, events, i, j, key, entry) {
      assert CachedSince(states, events, i, n, key, entry);
    }
    if i: nat :| CachedSince(states, events, i, n, key, entry) {
      if !Clears(events[n], key) {
        assert CachedSince(states, events, i, j, key, entry);
      }
    }
  }

  /** A read is answered from the cache exactly when a step stored a result of its key less than
      the time to live ago, and no later step replaced or invalidated it. */
  lemma HitIff(states: seq<State>, events: seq<Event>, j: nat, key: CacheKey, now: int, newLoad: LoadId, entry: Entry)
    requires Run(states, events) && j < |states|
    ensures ReadAnswer(states[j].shared, states[j].config, key, now, newLoad) == Hit(entry) <==>
      exists i: nat :: CachedSince(states, events, i, j, key, entry) && now < events[i].now + states[0].config.ttl
  {
    hide Inv, Next, Enabled, Initial;
    CachedIff(states, events, j, key, entry);
    if i: nat :| CachedSince(states, events, i, j, key, entry) {
      assert entry.expiresAt == events[i].now + states[0].config.ttl;
    }
  }

  /** The load of this key that is queued, fetching or returning. */
  predicate RunsFor(s: State, id: LoadId, key: CacheKey) {
    id in s.tasks && s.tasks[id].key == key && s.tasks[id].stage != Done
  }

  /** A read that is not answered from the cache joins the running load of its key; without one it
      is refused exactly when as many loads are queued as may be, and otherwise begins a load at
      the current generation. */
  lemma MissIff(states: seq<State>, events: seq<Event>, j: nat, key: CacheKey, now: int, newLoad: LoadId)
    requires Run(states, events) && j < |states|
    requires !ReadAnswer(states[j].shared, states[j].config, key, now, newLoad).Hit?
    ensures var s := states[j];
            var answer := ReadAnswer(s.shared, s.config, key, now, newLoad);
            && (forall id :: answer == Join(id) <==> RunsFor(s, id, key))
            && (answer == Busy <==>
                  && (forall id :: !RunsFor(s, id, key))
                  && Count(s.tasks, QueuedLoads) == states[0].config.maxQueued)
            && (answer.Begin? ==> answer == Begin(newLoad, Generation(s.shared, SubjectOf(key))))
  {
    hide Next, Enabled, Run, Count, CacheNamed;
    RunInv(states, events, j);
  }
}
