/** What a read gets that joins a running resource load: data that may be older than an
invalidate, and exactly when it is not. */
module ResourceJoins {
  import opened Wrappers
  import opened ResourceGateway
  import opened ResourceFreshness

  /** While a load lives, its subject's counter counts the covering invalidates: it is unchanged
      between two states if and only if there was none in between. */
  lemma {:induction false} CounterUnchangedIff(states: seq<State>, events: seq<Event>, i: nat, j: nat, id: LoadId)
    requires Run(states, events) && i <= j < |states| && id in states[i].tasks
    requires id in states[j].tasks && Live(states[j].tasks[id])
    ensures var subject := SubjectOf(states[j].tasks[id].key);
            && states[i].tasks[id].key == states[j].tasks[id].key && Live(states[i].tasks[id])
            && Generation(states[i].shared, subject) <= Generation(states[j].shared, subject)
            && (Generation(states[i].shared, subject) == Generation(states[j].shared, subject)
                <==> !Superseded(events, i, j, subject))
    decreases j
  {
    hide Inv, Enabled, Next, InvalidatesAt, Superseded, Generation;
    if i == j {
      NotSupersededYet(events, i, SubjectOf(states[j].tasks[id].key));
    } else {
      TaskStays(states, events, i, j - 1, id);
      CounterStep(states, events, j - 1, id);
      SupersededStep(events, i, j - 1, SubjectOf(states[j].tasks[id].key));
      CounterUnchangedIff(states, events, i, j - 1, id);
    }
  }

  lemma NotSupersededYet(events: seq<Event>, i: nat, subject: Subject)
    requires i <= |events|
    ensures !Superseded(events, i, i, subject)
  {
  }

  lemma CounterStep(states: seq<State>, events: seq<Event>, j: nat, id: LoadId)
    requires Run(states, events) && j < |events| && id in states[j].tasks
    requires id in states[j + 1].tasks && Live(states[j + 1].tasks[id])
    ensures var subject := SubjectOf(states[j + 1].tasks[id].key);
            && states[j].tasks[id].key == states[j + 1].tasks[id].key && Live(states[j].tasks[id])
            && Generation(states[j + 1].shared, subject) ==
                 Generation(states[j].shared, subject) + One(InvalidatesAt(events, j, subject))
  {
    hide CountersExact, CacheNamed, Next, Enabled, Generation;
    RunInv(states, events, j);
    FramesKept(states[j], events[j], id);
    GenerationKept(states[j], events[j], id);
  }

  /** A load's frame is never forgotten, and data once taken stays the same. */
  lemma {:induction false} TaskStays(states: seq<State>, events: seq<Event>, i: nat, j: nat, id: LoadId)
    requires Run(states, events) && i <= j < |states| && id in states[i].tasks
    ensures id in states[j].tasks
    ensures states[i].tasks[id].fetched.Some? ==> states[j].tasks[id].fetched == states[i].tasks[id].fetched
    ensures states[i].tasks[id].fetched.None? && states[j].tasks[id].fetched.Some? ==>
      i <= states[j].tasks[id].fetched.value
    decreases j
  {
    hide Inv, Enabled, Next;
    if i < j {
      TaskStays(states, events, i, j - 1, id);
      RunInv(states, events, j - 1);
      FramesKept(states[j - 1], events[j - 1], id);
    }
  }

  /** The step that takes a load's data: the load exists from the next state on, and the step
      itself moves no counter. */
  lemma {:induction false} FetchStep(states: seq<State>, events: seq<Event>, j: nat, id: LoadId)
    requires Run(states, events) && j < |states| && id in states[j].tasks && states[j].tasks[id].fetched.Some?
    ensures var f := states[j].tasks[id].fetched.value;
            && f < j && id in states[f + 1].tasks && !events[f].Invalidate?
            && states[f + 1].shared.generations == states[f].shared.generations
  {
    hide Inv, Enabled, Next, Generation;
    RunInv(states, events, j - 1);
    var s, e := states[j - 1], events[j - 1];
    if id in s.tasks {
      FramesKept(s, e, id);
    }
    if id in s.tasks && s.tasks[id].fetched.Some? {
      FetchStep(states, events, j - 1, id);
    } else {
      TakingStep(s, e, id);
    }
  }

  lemma TakingStep(s: State, e: Event, id: LoadId)
    requires Enabled(s, e) && id in Next(s, e).tasks && Next(s, e).tasks[id].fetched.Some?
    requires id in s.tasks ==> s.tasks[id].fetched.None?
    ensures Next(s, e).tasks[id].fetched.value == s.clock && !e.Invalidate?
    ensures Next(s, e).shared.generations == s.shared.generations
  {
  }

  /** A read that joins a registered load at state `j` gets, when the load has its data at state
      `n`, data taken after every covering invalidate before the join, if and only if at the join
      the data was not there yet or the counter is what it was when the data was taken. */
  lemma JoinedDataFreshIff(states: seq<State>, events: seq<Event>, j: nat, n: nat, key: CacheKey)
    requires Run(states, events) && j <= n < |states| && key in states[j].shared.loads
    requires states[j].shared.loads[key] in states[n].tasks
    requires states[n].tasks[states[j].shared.loads[key]].fetched.Some?
    ensures var id, subject := states[j].shared.loads[key], SubjectOf(key);
            && id in states[j].tasks
            && (!Superseded(events, states[n].tasks[id].fetched.value, j, subject) <==>
                  var fetched := states[j].tasks[id].fetched;
                  fetched.None? || (fetched.value < j
                    && Generation(states[fetched.value].shared, subject) == Generation(states[j].shared, subject)))
  {
    hide CountersExact, CacheNamed, Enabled, Next, InvalidatesAt;
    RunInv(states, events, j);
    var id, subject := states[j].shared.loads[key], SubjectOf(key);
    TaskStays(states, events, j, n, id);
    if states[j].tasks[id].fetched.Some? {
      var f := states[j].tasks[id].fetched.value;
      FetchStep(states, events, j, id);
      CounterUnchangedIff(states, events, f + 1, j, id);
      SupersededFrom(events, f, j, subject);
    }
  }

  lemma SupersededFrom(events: seq<Event>, f: nat, j: nat, subject: Subject)
    requires f < j <= |events| && !events[f].Invalidate?
    ensures Superseded(events, f, j, subject) <==> Superseded(events, f + 1, j, subject)
  {
  }

  lemma RunGrows(states: seq<State>, events: seq<Event>, e: Event)
    requires Run(states, events) && Enabled(states[|events|], e)
    ensures Run(states + [Next(states[|events|], e)], events + [e])
  {
    hide Next, Enabled;
  }

  /** A queued load can go on and take its data. */
  lemma QueuedFetch(states: seq<State>, events: seq<Event>) returns (states': seq<State>, events': seq<Event>)
    requires Run(states, events)
    requires var s := states[|events|];
             && s.free > 0 && s.shared.queued > 0
             && 0 in s.tasks && s.tasks[0].stage == Queued && s.tasks[0].fetched.None?
    ensures Run(states', events') && states <= states' && events' == events + [Acquire(0), Start(0), Fetch(0)]
    ensures var s, s' := states[|events|], states'[|events'|];
            && s'.shared.(queued := s.shared.queued, inflight := s.shared.inflight) == s.shared
            && s'.config == s.config && 0 in s'.tasks && s'.tasks[0].fetched == Some(s.clock + 2)
  {
    hide Run;
    OneMore(states, events);
    var s1 := Next(states[|events|], Acquire(0));
    var s2 := Next(s1, Start(0));
    RunGrows(states, events, Acquire(0));
    states', events' := states + [s1], events + [Acquire(0)];
    RunGrows(states', events', Start(0));
    states', events' := states' + [s2], events' + [Start(0)];
    RunGrows(states', events', Fetch(0));
    states', events' := states' + [Next(s2, Fetch(0))], events' + [Fetch(0)];
  }

  lemma OneMore(states: seq<State>, events: seq<Event>)
    requires Run(states, events)
    ensures |states| == |events| + 1
  {
  }

  lemma FirstRead(key: CacheKey) returns (states: seq<State>, events: seq<Event>)
    ensures Run(states, events) && events == [Read(key, 0, 0, false)]
    ensures states[1] == State(Config(1, 1, 1), Shared(map[], map[key := 0], map[], 1, 0), 1, 1,
                               map[0 := Load(key, 0, 0, None, Queued)])
  {
    var s0 := State(Config(1, 1, 1), Shared(map[], map[], map[], 0, 0), 1, 0, map[]);
    states, events := [s0, Next(s0, Read(key, 0, 0, false))], [Read(key, 0, 0, false)];
  }

  /** Such a stale join exists: the load takes its data, an invalidate comes, and then a read of
      the same key joins the load. */
  lemma StaleJoinExists(key: CacheKey) returns (states: seq<State>, events: seq<Event>)
    ensures Run(states, events) && |events| == 5 && InvalidatesAt(events, 4, SubjectOf(key))
    ensures ReadAnswer(states[5].shared, states[5].config, key, 0, 1) == Join(0)
    ensures 0 in states[5].tasks && states[5].tasks[0].fetched == Some(3)
  {
    hide Run;
    states, events := FirstRead(key);
    OneMore(states, events);
    states, events := QueuedFetch(states, events);
    OneMore(states, events);
    var e := Invalidate(key.uri, None);
    RunGrows(states, events, e);
    states, events := states + [Next(states[4], e)], events + [e];
  }

  /** And an outdated generation alone does not make a join stale: a load that takes its data
      after the invalidate delivers fresh data. */
  lemma LateFetchIsFresh(key: CacheKey) returns (states: seq<State>, events: seq<Event>)
    ensures Run(states, events) && |events| == 5 && InvalidatesAt(events, 1, SubjectOf(key))
    ensures ReadAnswer(states[2].shared, states[2].config, key, 0, 1) == Join(0)
    ensures 0 in states[2].tasks && 0 in states[5].tasks
    ensures states[2].tasks[0].generation != Generation(states[2].shared, SubjectOf(key))
    ensures states[5].tasks[0].fetched == Some(4)
  {
    hide Run;
    states, events := FirstRead(key);
    OneMore(states, events);
    var e := Invalidate(key.uri, None);
    InvalidateBumps(states[1].shared, key.uri, None, key);
    RunGrows(states, events, e);
    states, events := states + [Next(states[1], e)], events + [e];
    states, events := QueuedFetch(states, events);
  }
}
