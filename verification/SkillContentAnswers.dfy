/** What a package lookup is answered, over whole runs: a hit exactly while a package inserted for
its key is unexpired and was neither evicted nor pruned, and one download per key otherwise. */
module SkillContentAnswers {
  import opened SkillContentCache

  /** The step inserts this slot: a load fetched the package and it is small enough. */
  predicate Inserts(s: State, e: Event, x: Slot) {
    && e.Insert? && e.task in s.tasks && x == Slot(s.tasks[e.task].key, e.entry)
    && e.entry.size <= s.config.maxBytes
  }

  lemma InsertStep(s: State, e: Event, x: Slot)
    requires Inv(s) && Enabled(s, e) && e.Insert?
    ensures Inserts(s, e, x) ==> x in Next(s, e).shared.entries
    ensures x in Next(s, e).shared.entries ==> x in s.shared.entries || Inserts(s, e, x)
    ensures e.entry.size > s.config.maxBytes ==> Next(s, e).shared.entries == s.shared.entries
  {
    hide Keep, TotalSize, Registered, Evicted, Get, Distinct, Recency;
    var key := s.tasks[e.task].key;
    if e.entry.size <= s.config.maxBytes {
      var n := InsertedSurvives(s.shared, s.config, key, e.entry);
      var after := Next(s, e).shared.entries;
      assert after == s.shared.entries[n..] + [Slot(key, e.entry)];
      assert after[|after| - 1] == Slot(key, e.entry);
    }
  }

  /** A lookup drops the slot of its key when it has expired, and no other. */
  lemma LookupStep(s: State, e: Event, x: Slot)
    requires Inv(s) && Enabled(s, e) && e.Lookup?
    ensures x in Next(s, e).shared.entries <==>
      x in s.shared.entries && (x.key == e.key ==> e.now < x.entry.expiresAt)
  {
    hide Keep, TotalSize, Registered, Evicted, Recency, Get, Has;
    var a := s.shared.entries;
    KeepHolds(a, Other(e.key), x);
    if x in a {
      SlotIsGet(a, x);
    }
    if Has(a, e.key) {
      GetIsSlot(a, e.key);
    }
  }

  lemma SlotIsGet(a: Slots, x: Slot)
    requires Distinct(a) && x in a
    ensures Has(a, x.key) && Get(a, x.key) == x.entry
  {
    hide Get, Distinct;
    var i :| 0 <= i < |a| && a[i] == x;
    GetAt(a, i);
  }

  lemma GetIsSlot(a: Slots, key: Key)
    requires Distinct(a) && Has(a, key)
    ensures Slot(key, Get(a, key)) in a
  {
    hide Get;
    var i :| 0 <= i < |a| && a[i].key == key;
    GetAt(a, i);
  }

  /** Pruning a tenant removes exactly its slots whose digest is not listed. */
  lemma PruneStep(s: State, e: Event, x: Slot)
    requires e.Prune?
    ensures x in Next(s, e).shared.entries <==>
      x in s.shared.entries && (x.key.tenant == e.tenant ==> x.key.digest in e.digests)
  {
    KeepHolds(s.shared.entries, Retained(e.tenant, e.digests), x);
  }

  /** Every cached package was inserted by a load of its key. */
  lemma {:induction false} EntryHasOrigin(states: seq<State>, events: seq<Event>, j: nat, x: Slot)
    requires Run(states, events) && j < |states| && x in states[j].shared.entries
    ensures exists i :: 0 <= i < j && Inserts(states[i], events[i], x)
  {
    hide Inv, Next, Enabled, Inserts;
    NothingCached(states, events);
    var s, e := states[j - 1], events[j - 1];
    RunInv(states, events, j - 1);
    SlotStep(s, e, x);
    if !Inserts(s, e, x) {
      EntryHasOrigin(states, events, j - 1, x);
    }
  }

  lemma SlotStep(s: State, e: Event, x: Slot)
    requires Inv(s) && Enabled(s, e) && x in Next(s, e).shared.entries
    ensures x in s.shared.entries || Inserts(s, e, x)
  {
    hide Inv;
    match e
    case Insert(_, _, _) => InsertStep(s, e, x);
    case Lookup(_, _, _) => LookupStep(s, e, x);
    case Prune(_, _) => PruneStep(s, e, x);
    case _ =>
  }

  lemma NothingCached(states: seq<State>, events: seq<Event>)
    requires Run(states, events)
    ensures states[0].shared.entries == []
  {
    hide Next, Enabled;
  }

  /** A lookup is a hit exactly when a slot of its key is there and unexpired; it was then inserted,
      with the requested digest, less than the time to live ago. */
  lemma HitIff(states: seq<State>, events: seq<Event>, j: nat, key: Key, now: int, newTask: TaskId, entry: Entry)
    requires Run(states, events) && j < |states|
    ensures LookupAnswer(states[j].shared, key, now, newTask) == Hit(entry) <==>
      Slot(key, entry) in states[j].shared.entries && now < entry.expiresAt
    ensures LookupAnswer(states[j].shared, key, now, newTask) == Hit(entry) ==>
      && entry.packageDigest == key.digest
      && exists i :: 0 <= i < j && Inserts(states[i], events[i], Slot(key, entry))
                     && now < events[i].now + states[0].config.ttl
  {
    hide TotalSize, Registered, Recency, Next, Get, Has, Distinct;
    RunInv(states, events, j);
    var a := states[j].shared.entries;
    if Slot(key, entry) in a {
      SlotIsGet(a, Slot(key, entry));
      EntryHasOrigin(states, events, j, Slot(key, entry));
      var i :| 0 <= i < j && Inserts(states[i], events[i], Slot(key, entry));
      RunInv(states, events, i);
    }
    if Has(a, key) {
      GetIsSlot(a, key);
    }
  }

  /** Right after a package that fits was inserted, a lookup finds it until it expires. */
  lemma InsertedIsHit(states: seq<State>, events: seq<Event>, i: nat, now: int, newTask: TaskId)
    requires Run(states, events) && i < |events| && events[i].Insert?
    requires events[i].entry.size <= states[0].config.maxBytes && now < events[i].now + states[0].config.ttl
    ensures events[i].task in states[i].tasks
    ensures LookupAnswer(states[i + 1].shared, states[i].tasks[events[i].task].key, now, newTask) ==
      Hit(events[i].entry)
  {
    hide TotalSize, Registered, Recency, Next, Get, Has, Distinct;
    RunInv(states, events, i);
    assert Enabled(states[i], events[i]);
    var x := Slot(states[i].tasks[events[i].task].key, events[i].entry);
    InsertStep(states[i], events[i], x);
    HitIff(states, events, i + 1, x.key, now, newTask, x.entry);
  }

  /** A lookup that is no hit joins the unfinished download of its key, or begins one when there is
      none. */
  lemma MissIff(states: seq<State>, events: seq<Event>, j: nat, key: Key, now: int, newTask: TaskId)
    requires Run(states, events) && j < |states| && !LookupAnswer(states[j].shared, key, now, newTask).Hit?
    ensures var s, answer := states[j], LookupAnswer(states[j].shared, key, now, newTask);
            && (forall t :: answer == Join(t) <==> t in s.tasks && s.tasks[t].key == key && s.tasks[t].stage != Done)
            && (answer.Begin? ==> answer == Begin(newTask))
  {
    hide Accounted, FetchingAbsent, Recency, Next, Get, Has;
    RunInv(states, events, j);
  }

  /** A download is settled once and then ends; only its own steps move it. */
  lemma LoadsAdvance(s: State, e: Event, t: TaskId)
    requires Enabled(s, e) && t in s.tasks
    ensures t in Next(s, e).tasks && Next(s, e).tasks[t].key == s.tasks[t].key
    ensures Next(s, e).tasks[t].stage ==
      if (e.Insert? || e.Fail?) && e.task == t then Settled
      else if e.Finish? && e.task == t then Done
      else s.tasks[t].stage
  {
    hide Keep, Evicted, Get, TotalSize, Has;
  }

  lemma LoadsCanFinish(s: State, t: TaskId)
    requires t in s.tasks
    ensures s.tasks[t].stage == Fetching <==> Enabled(s, Fail(t))
    ensures s.tasks[t].stage == Settled <==> Enabled(s, Finish(t))
  {
  }
}
