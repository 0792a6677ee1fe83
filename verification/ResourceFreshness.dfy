/** Freshness of the resource cache over whole runs: what is cached was loaded after the last
invalidate that covers it, although generation counters are deleted and start from zero. */
module ResourceFreshness {
  import opened Wrappers
  import opened ResourceGateway

  /** Some invalidate at a position in [from, to) covers the subject. */
  ghost predicate Superseded(events: seq<Event>, from: nat, to: nat, subject: Subject)
    requires to <= |events|
  {
    exists k :: from <= k < to && InvalidatesAt(events, k, subject)
  }

  predicate InvalidatesAt(events: seq<Event>, k: nat, subject: Subject)
    requires k < |events|
  {
    events[k].Invalidate? && Covers(events[k].uri, events[k].tenant, subject)
  }

  /** Every cached entry postdates the last covering invalidate, and a registered load's
      captured generation is current exactly when no covering invalidate came after it. */
  ghost predicate FreshAt(states: seq<State>, events: seq<Event>, j: nat)
    requires Run(states, events) && j < |states| && Inv(states[j])
  {
    var s := states[j];
    && (forall k :: k in s.shared.cache ==>
          !Superseded(events, s.tasks[s.shared.cache[k].load].created, j, SubjectOf(k)))
    && (forall id :: id in s.tasks && Live(s.tasks[id]) ==>
          var subject := SubjectOf(s.tasks[id].key);
          && s.tasks[id].generation <= Generation(s.shared, subject)
          && (s.tasks[id].generation == Generation(s.shared, subject)
              <==> !Superseded(events, s.tasks[id].created, j, subject)))
  }

  lemma SupersededStep(events: seq<Event>, from: nat, j: nat, subject: Subject)
    requires from <= j < |events|
    ensures Superseded(events, from, j + 1, subject) <==>
            Superseded(events, from, j, subject) || InvalidatesAt(events, j, subject)
  {
  }

  /** An invalidate raises the counter of a registered load's subject iff it covers it. */
  lemma InvalidateBumps(sh: Shared, uri: string, tenant: Option<string>, key: CacheKey)
    requires key in sh.loads
    ensures Generation(Invalidated(sh, uri, tenant), SubjectOf(key)) ==
            Generation(sh, SubjectOf(key)) + (if Covers(uri, tenant, SubjectOf(key)) then 1 else 0)
  {
  }

  /** The counter of a subject with a registered load survives the end of other loads. */
  lemma EndSpares(sh: Shared, ended: CacheKey, load: LoadId, started: bool, key: CacheKey)
    requires if started then sh.inflight >= 1 else sh.queued >= 1
    requires key in Ended(sh, ended, load, started).loads
    ensures Generation(Ended(sh, ended, load, started), SubjectOf(key)) == Generation(sh, SubjectOf(key))
  {
  }

  /** A counter is deleted only when no load that captured it is still registered. */
  lemma GenerationKept(s: State, e: Event, id: LoadId)
    requires RegisteredExactly(s) && Enabled(s, e) && id in s.tasks && Live(s.tasks[id])
    requires id in Next(s, e).tasks && Live(Next(s, e).tasks[id])
    ensures var subject := SubjectOf(s.tasks[id].key);
            Generation(Next(s, e).shared, subject) ==
              Generation(s.shared, subject)
              + (if e.Invalidate? && Covers(e.uri, e.tenant, subject) then 1 else 0)
  {
    hide Invalidated, Unregistered;
    var key := s.tasks[id].key;
    FramesKept(s, e, id);
    StepRegistered(s, e);
    match e
    case Invalidate(uri, tenant) => InvalidateBumps(s.shared, uri, tenant, key);
    case End(load) =>
      EndSpares(s.shared, s.tasks[load].key, load, s.tasks[load].stage == Returning, key);
    case _ =>
  }

  lemma LoadsFresh(states: seq<State>, events: seq<Event>, j: nat, id: LoadId)
    requires Run(states, events) && j < |events| && Inv(states[j]) && Inv(states[j + 1])
    requires states[j].clock == j && FreshAt(states, events, j)
    requires id in states[j + 1].tasks && Live(states[j + 1].tasks[id])
    ensures var s := states[j + 1];
            var subject := SubjectOf(s.tasks[id].key);
            && s.tasks[id].generation <= Generation(s.shared, subject)
            && (s.tasks[id].generation == Generation(s.shared, subject)
                <==> !Superseded(events, s.tasks[id].created, j + 1, subject))
  {
    hide CountersExact, RegisteredExactly;
    var s, s', e := states[j], states[j + 1], events[j];
    var subject := SubjectOf(s'.tasks[id].key);
    if id in s.tasks {
      FramesKept(s, e, id);
      GenerationKept(s, e, id);
      SupersededStep(events, s.tasks[id].created, j, subject);
    } else {
      assert e.Read? && s'.tasks[id].created == j;
      SupersededStep(events, j, j, subject);
    }
  }

  /** A step never changes a load's key, generation, creation or data, nor revives a finished
      load; data that was not there is taken at that very step. */
  lemma FramesKept(s: State, e: Event, id: LoadId)
    requires Enabled(s, e) && id in s.tasks
    ensures id in Next(s, e).tasks
    ensures var t := Next(s, e).tasks[id];
            && t == s.tasks[id].(stage := t.stage, fetched := t.fetched)
            && (t.fetched == s.tasks[id].fetched || (s.tasks[id].fetched.None? && t.fetched == Some(s.clock)))
    ensures Live(Next(s, e).tasks[id]) ==> Live(s.tasks[id])
  {
  }

  lemma CacheFresh(states: seq<State>, events: seq<Event>, j: nat, k: CacheKey)
    requires Run(states, events) && j < |events| && Inv(states[j]) && Inv(states[j + 1])
    requires states[j].clock == j && FreshAt(states, events, j)
    requires k in states[j + 1].shared.cache
    ensures !Superseded(events, states[j + 1].tasks[states[j + 1].shared.cache[k].load].created,
                        j + 1, SubjectOf(k))
  {
    hide CountersExact, RegisteredExactly;
    var s, s', e := states[j], states[j + 1], events[j];
    var id := s'.shared.cache[k].load;
    CacheOrigin(s, e, k);
    FramesKept(s, e, id);
    SupersededStep(events, s.tasks[id].created, j, SubjectOf(k));
  }

  /** A cached entry was cached before, or this step stored it with a current generation. */
  lemma CacheOrigin(s: State, e: Event, k: CacheKey)
    requires Inv(s) && Enabled(s, e) && k in Next(s, e).shared.cache
    ensures var entry := Next(s, e).shared.cache[k];
            && entry.load in s.tasks && s.tasks[entry.load].key == k
            && !(e.Invalidate? && Covers(e.uri, e.tenant, SubjectOf(k)))
            && ((k in s.shared.cache && s.shared.cache[k] == entry)
                || (Live(s.tasks[entry.load])
                    && s.tasks[entry.load].generation == Generation(s.shared, SubjectOf(k))))
  {
    hide CountersExact, RegisteredExactly;
  }

  lemma {:induction false} RunFresh(states: seq<State>, events: seq<Event>, j: nat)
    requires Run(states, events) && j < |states|
    ensures Inv(states[j]) && states[j].clock == j && FreshAt(states, events, j)
  {
    hide CountersExact, RegisteredExactly, InvalidatesAt, Superseded;
    RunInv(states, events, j);
    if j > 0 {
      RunFresh(states, events, j - 1);
      forall k | k in states[j].shared.cache
        ensures !Superseded(events, states[j].tasks[states[j].shared.cache[k].load].created, j, SubjectOf(k))
      {
        CacheFresh(states, events, j - 1, k);
      }
      forall id | id in states[j].tasks && Live(states[j].tasks[id])
        ensures var subject := SubjectOf(states[j].tasks[id].key);
                && states[j].tasks[id].generation <= Generation(states[j].shared, subject)
                && (states[j].tasks[id].generation == Generation(states[j].shared, subject)
                    <==> !Superseded(events, states[j].tasks[id].created, j, subject))
      {
        LoadsFresh(states, events, j - 1, id);
      }
    }
  }

  /** Main result: in every state of every run, a cached entry came from a load of the same
      key created after the last invalidate that covers its tenant and uri, and its data was
      taken after that. */
  lemma CachedEntriesAreFresh(states: seq<State>, events: seq<Event>, j: nat, key: CacheKey)
    requires Run(states, events) && j < |states| && key in states[j].shared.cache
    ensures var id := states[j].shared.cache[key].load;
            && id in states[j].tasks && states[j].tasks[id].key == key
            && states[j].tasks[id].fetched.Some?
            && states[j].tasks[id].created <= states[j].tasks[id].fetched.value < j
            && forall k :: states[j].tasks[id].created <= k < j ==>
                 !InvalidatesAt(events, k, SubjectOf(key))
  {
    hide CountersExact, RegisteredExactly;
    RunFresh(states, events, j);
  }

  /** A registered load's captured generation is the current one if and only if no covering
      invalidate came since the load was created. */
  lemma GenerationCurrentIff(states: seq<State>, events: seq<Event>, j: nat, key: CacheKey)
    requires Run(states, events) && j < |states| && key in states[j].shared.loads
    ensures var id := states[j].shared.loads[key];
            && id in states[j].tasks
            && ((forall k :: states[j].tasks[id].created <= k < j ==>
                   !InvalidatesAt(events, k, SubjectOf(key)))
                <==> states[j].tasks[id].generation == Generation(states[j].shared, SubjectOf(key)))
  {
    hide CountersExact;
    RunFresh(states, events, j);
    RunInv(states, events, j);
    var id := states[j].shared.loads[key];
    assert !Superseded(events, states[j].tasks[id].created, j, SubjectOf(key)) <==>
        forall k :: states[j].tasks[id].created <= k < j ==> !InvalidatesAt(events, k, SubjectOf(key));
  }
}
