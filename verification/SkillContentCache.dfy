/** The single-flight, least-recently-used package cache (SkillPackageContentCache).

The ordered dictionary of entries is a sequence of slots from least to most recently used.
A lookup answers from the cache, joins the registered load of its key, or registers a new
load; a finished load inserts its entry and evicts from the old end until both capacity
bounds hold again.
*/
module SkillContentCache {

  type TaskId = nat

  datatype Key = Key(tenant: string, digest: string)

  /** A package is named by its content digest; hashes are taken to be injective. */
  datatype Entry = Entry(packageDigest: string, size: nat, expiresAt: int)

  datatype Slot = Slot(key: Key, entry: Entry)

  type Slots = seq<Slot>

  datatype Config = Config(maxBytes: nat, maxEntries: nat, ttl: nat)

  predicate ValidConfig(c: Config) {
    c.maxBytes >= 1 && c.maxEntries >= 1 && c.ttl >= 1
  }

  datatype Shared = Shared(entries: Slots, loads: map<Key, TaskId>, resident: int)

  // ---------------------------------------------------------------- ordered dictionary

  function TotalSize(entries: Slots): nat {
    if entries == [] then 0 else entries[0].entry.size + TotalSize(entries[1..])
  }

  predicate Has(entries: Slots, key: Key) {
    exists i :: 0 <= i < |entries| && entries[i].key == key
  }

  predicate Distinct(entries: Slots) {
    forall i, j :: 0 <= i < j < |entries| ==> entries[i].key != entries[j].key
  }

  function Get(entries: Slots, key: Key): (e: Entry)
    requires Has(entries, key)
    ensures exists i :: 0 <= i < |entries| && entries[i] == Slot(key, e)
  {
    if entries[0].key == key then entries[0].entry
    else
      assert Has(entries[1..], key) by {
        var i :| 0 <= i < |entries| && entries[i].key == key;
        assert entries[1..][i - 1] == entries[i];
      }
      var e := Get(entries[1..], key);
      assert exists i :: 0 <= i < |entries| && entries[i] == Slot(key, e) by {
        var i :| 0 <= i < |entries[1..]| && entries[1..][i] == Slot(key, e);
        assert entries[i + 1] == Slot(key, e);
      }
      e
  }

  /** The slots whose key satisfies `keep`, in order. */
  function Keep(entries: Slots, keep: Key -> bool): Slots {
    if entries == [] then []
    else if keep(entries[0].key) then [entries[0]] + Keep(entries[1..], keep)
    else Keep(entries[1..], keep)
  }

  function Other(key: Key): Key -> bool {
    (k: Key) => k != key
  }

  function Retained(tenant: string, digests: set<string>): Key -> bool {
    (k: Key) => k.tenant != tenant || k.digest in digests
  }

  function Without(entries: Slots, key: Key): Slots {
    Keep(entries, Other(key))
  }

  lemma {:induction false} KeepConcat(a: Slots, b: Slots, keep: Key -> bool)
    ensures Keep(a + b, keep) == Keep(a, keep) + Keep(b, keep)
  {
    if a == [] {
      assert a + b == b;
    } else {
      KeepConcat(a[1..], b, keep);
      assert (a + b)[1..] == a[1..] + b;
    }
  }

  lemma {:induction false} SizeConcat(a: Slots, b: Slots)
    ensures TotalSize(a + b) == TotalSize(a) + TotalSize(b)
  {
    if a == [] {
      assert a + b == b;
    } else {
      SizeConcat(a[1..], b);
      assert (a + b)[1..] == a[1..] + b;
    }
  }

  lemma {:induction false} KeepAll(a: Slots, keep: Key -> bool)
    requires forall i :: 0 <= i < |a| ==> keep(a[i].key)
    ensures Keep(a, keep) == a
  {
    if a != [] {
      KeepAll(a[1..], keep);
    }
  }

  /** Kept slots are the slots that satisfy `keep`, each found at no earlier a position. */
  lemma {:induction false} KeepSound(a: Slots, keep: Key -> bool, i: nat) returns (j: nat)
    requires i < |Keep(a, keep)|
    ensures i <= j < |a| && Keep(a, keep)[i] == a[j] && keep(a[j].key)
  {
    if keep(a[0].key) {
      if i == 0 {
        j := 0;
      } else {
        j := KeepSound(a[1..], keep, i - 1);
        j := j + 1;
      }
    } else {
      j := KeepSound(a[1..], keep, i);
      j := j + 1;
    }
  }

  lemma {:induction false} KeepComplete(a: Slots, keep: Key -> bool, j: nat) returns (i: nat)
    requires j < |a| && keep(a[j].key)
    ensures i < |Keep(a, keep)| && Keep(a, keep)[i] == a[j]
  {
    if j == 0 {
      i := 0;
    } else {
      i := KeepComplete(a[1..], keep, j - 1);
      assert a[1..][j - 1] == a[j];
      if keep(a[0].key) {
        i := i + 1;
      }
    }
  }

  /** Removing the one slot of a key from a dictionary. */
  lemma WithoutSplits(a: Slots, key: Key, i: nat)
    requires Distinct(a) && i < |a| && a[i].key == key
    ensures Without(a, key) == a[..i] + a[i + 1..]
  {
    hide Keep;
    var keep := Other(key);
    assert a == a[..i] + a[i..] && a[i..] == [a[i]] + a[i + 1..];
    KeepConcat(a[..i], a[i..], keep);
    KeepConcat([a[i]], a[i + 1..], keep);
    KeepAll(a[..i], keep);
    KeepAll(a[i + 1..], keep);
    KeepNone(a[i], keep);
  }

  lemma KeepNone(slot: Slot, keep: Key -> bool)
    requires !keep(slot.key)
    ensures Keep([slot], keep) == []
  {
  }

  lemma SizeSplits(a: Slots, i: nat)
    requires i < |a|
    ensures TotalSize(a[..i] + a[i + 1..]) == TotalSize(a) - a[i].entry.size
  {
    hide TotalSize;
    assert a == a[..i] + a[i..] && a[i..] == [a[i]] + a[i + 1..];
    SizeConcat(a[..i], a[i..]);
    SizeConcat([a[i]], a[i + 1..]);
    SizeConcat(a[..i], a[i + 1..]);
    SizeSingle(a[i]);
  }

  lemma SizeSingle(slot: Slot)
    ensures TotalSize([slot]) == slot.entry.size
  {
  }

  lemma WithoutAbsent(a: Slots, key: Key)
    requires !Has(a, key)
    ensures Without(a, key) == a
  {
    KeepAll(a, Other(key));
  }

  // ---------------------------------------------------------------- sections under the cache lock

  predicate Full(entries: Slots, resident: int, c: Config) {
    entries != [] && (|entries| > c.maxEntries || resident > c.maxBytes)
  }

  /** What the eviction loop leaves. */
  function Evicted(entries: Slots, resident: int, c: Config): (Slots, int) {
    if Full(entries, resident, c) then Evicted(entries[1..], resident - entries[0].entry.size, c)
    else (entries, resident)
  }

  function Removed(sh: Shared, key: Key): Shared {
    if Has(sh.entries, key)
    then sh.(entries := Without(sh.entries, key), resident := sh.resident - Get(sh.entries, key).size)
    else sh
  }

  datatype Answer = Hit(entry: Entry) | Join(task: TaskId) | Begin(task: TaskId)

  predicate Usable(sh: Shared, key: Key, now: int) {
    Has(sh.entries, key) && Get(sh.entries, key).expiresAt > now
  }

  function LookupAnswer(sh: Shared, key: Key, now: int, newTask: TaskId): Answer {
    if Usable(sh, key, now) then Hit(Get(sh.entries, key))
    else if key in sh.loads then Join(sh.loads[key])
    else Begin(newTask)
  }

  function AfterLookup(sh: Shared, key: Key, now: int, newTask: TaskId): Shared {
    if Usable(sh, key, now) then
      sh.(entries := Without(sh.entries, key) + [Slot(key, Get(sh.entries, key))])
    else
      var left := Removed(sh, key);
      if key in left.loads then left else left.(loads := left.loads[key := newTask])
  }

  /** Assigning a dictionary key and moving it to the end, then evicting. The byte count is
      raised by the new size only, so it stays right just because the key is absent. */
  function Inserted(sh: Shared, c: Config, key: Key, entry: Entry): Shared {
    if entry.size <= c.maxBytes then
      var (entries, resident) :=
        Evicted(Without(sh.entries, key) + [Slot(key, entry)], sh.resident + entry.size, c);
      sh.(entries := entries, resident := resident)
    else sh
  }

  function Unregistered(sh: Shared, key: Key, task: TaskId): Shared {
    if key in sh.loads && sh.loads[key] == task then sh.(loads := sh.loads - {key}) else sh
  }

  function Pruned(sh: Shared, tenant: string, digests: set<string>): Shared {
    var entries := Keep(sh.entries, Retained(tenant, digests));
    sh.(entries := entries, resident := sh.resident - (TotalSize(sh.entries) - TotalSize(entries)))
  }

  class Cache {
    const config: Config
    var entries: Slots
    var loads: map<Key, TaskId>
    var resident: int

    function View(): Shared
      reads this
    {
      Shared(entries, loads, resident)
    }

    constructor (config: Config)
      requires ValidConfig(config)
      ensures this.config == config && View() == Shared([], map[], 0)
    {
      this.config := config;
      entries, loads, resident := [], map[], 0;
    }

    method EvictLocked() returns (evicted: nat)
      modifies this`entries, this`resident
      ensures (entries, resident) == Evicted(old(entries), old(resident), config)
      ensures evicted <= |old(entries)| && entries == old(entries)[evicted..]
    {
      evicted := 0;
      while entries != [] && (|entries| > config.maxEntries || resident > config.maxBytes)
        invariant evicted <= |old(entries)| && entries == old(entries)[evicted..]
        invariant Evicted(entries, resident, config) == Evicted(old(entries), old(resident), config)
        decreases |entries|
      {
        resident := resident - entries[0].entry.size;
        entries := entries[1..];
        evicted := evicted + 1;
      }
    }

    method RemoveLocked(key: Key)
      modifies this`entries, this`resident
      ensures View() == Removed(old(View()), key)
    {
      if Has(entries, key) {
        resident := resident - Get(entries, key).size;
        entries := Without(entries, key);
      }
    }

    method Lookup(key: Key, now: int, newTask: TaskId) returns (answer: Answer)
      modifies this
      ensures answer == LookupAnswer(old(View()), key, now, newTask)
      ensures View() == AfterLookup(old(View()), key, now, newTask)
    {
      if Has(entries, key) && Get(entries, key).expiresAt > now {
        var entry := Get(entries, key);
        entries := Without(entries, key) + [Slot(key, entry)];
        return Hit(entry);
      }
      RemoveLocked(key);
      if key in loads {
        return Join(loads[key]);
      }
      loads := loads[key := newTask];
      return Begin(newTask);
    }

    method Insert(key: Key, packageDigest: string, size: nat, now: int) returns (evicted: nat)
      modifies this
      ensures View() == Inserted(old(View()), config, key, Entry(packageDigest, size, now + config.ttl))
      ensures size > config.maxBytes ==> evicted == 0
      ensures size <= config.maxBytes ==>
        var grown := Without(old(entries), key) + [Slot(key, Entry(packageDigest, size, now + config.ttl))];
        evicted <= |grown| && entries == grown[evicted..]
    {
      evicted := 0;
      if size <= config.maxBytes {
        entries := Without(entries, key) + [Slot(key, Entry(packageDigest, size, now + config.ttl))];
        resident := resident + size;
        evicted := EvictLocked();
      }
    }

    method Unregister(key: Key, task: TaskId)
      modifies this`loads
      ensures View() == Unregistered(old(View()), key, task)
    {
      if key in loads && loads[key] == task {
        loads := loads - {key};
      }
    }

    /** Removes the tenant's entries that are not retained, one at a time. */
    method PruneTenant(tenant: string, digests: set<string>) returns (removed: nat)
      requires Distinct(entries)
      modifies this`entries, this`resident
      ensures View() == Pruned(old(View()), tenant, digests)
      ensures removed == |old(entries)| - |entries|
    {
      hide Keep, TotalSize, Get, Distinct, Without, Has, Partway;
      var snapshot := entries;
      var keep := Retained(tenant, digests);
      var i := 0;
      removed := 0;
      PruneStart(snapshot, keep);
      while i < |snapshot|
        invariant 0 <= i <= |snapshot| && Distinct(snapshot)
        invariant entries == Partway(snapshot, keep, i)
        invariant resident == old(resident) - (TotalSize(snapshot) - TotalSize(entries))
        invariant removed == |snapshot| - |entries|
        invariant loads == old(loads)
      {
        PruneOne(snapshot, keep, i);
        if !keep(snapshot[i].key) {
          RemoveLocked(snapshot[i].key);
          removed := removed + 1;
        }
        i := i + 1;
      }
      PruneEnd(snapshot, keep);
    }
  }

  /** The entries when the prune loop has looked at the first `n`. */
  ghost function Partway(snapshot: Slots, keep: Key -> bool, n: nat): Slots
    requires n <= |snapshot|
  {
    Keep(snapshot[..n], keep) + snapshot[n..]
  }

  lemma PruneStart(snapshot: Slots, keep: Key -> bool)
    ensures Partway(snapshot, keep, 0) == snapshot
  {
  }

  lemma PruneEnd(snapshot: Slots, keep: Key -> bool)
    ensures Partway(snapshot, keep, |snapshot|) == Keep(snapshot, keep)
  {
    assert snapshot[..|snapshot|] == snapshot;
  }

  /** One round of the prune loop. */
  lemma PruneOne(snapshot: Slots, keep: Key -> bool, i: nat)
    requires Distinct(snapshot) && i < |snapshot|
    ensures var before, after := Partway(snapshot, keep, i), Partway(snapshot, keep, i + 1);
            if keep(snapshot[i].key) then after == before
            else && Has(before, snapshot[i].key)
                 && Without(before, snapshot[i].key) == after
                 && |after| == |before| - 1
                 && TotalSize(after) == TotalSize(before) - Get(before, snapshot[i].key).size
  {
    var before := Keep(snapshot[..i], keep) + snapshot[i..];
    assert snapshot[..i + 1] == snapshot[..i] + [snapshot[i]];
    KeepConcat(snapshot[..i], [snapshot[i]], keep);
    assert snapshot[i..] == [snapshot[i]] + snapshot[i + 1..];
    if !keep(snapshot[i].key) {
      PruneDistinct(snapshot, keep, i);
      var at := |Keep(snapshot[..i], keep)|;
      assert before[at] == snapshot[i];
      WithoutSplits(before, snapshot[i].key, at);
      SizeSplits(before, at);
      assert before[..at] == Keep(snapshot[..i], keep) && before[at + 1..] == snapshot[i + 1..];
      GetAt(before, at);
    }
  }

  lemma {:induction false} GetAt(a: Slots, i: nat)
    requires Distinct(a) && i < |a|
    ensures Has(a, a[i].key) && Get(a, a[i].key) == a[i].entry
  {
    assert Has(a, a[i].key);
  }

  lemma PruneDistinct(snapshot: Slots, keep: Key -> bool, n: nat)
    requires Distinct(snapshot) && n <= |snapshot|
    ensures Distinct(Partway(snapshot, keep, n))
  {
    KeepDistinct(snapshot[..n], keep);
    var kept := Keep(snapshot[..n], keep);
    forall i, j | 0 <= i < |kept| && n <= j < |snapshot|
      ensures kept[i].key != snapshot[j].key
    {
      var k := KeepSound(snapshot[..n], keep, i);
    }
  }

  lemma {:induction false} KeepDistinct(a: Slots, keep: Key -> bool)
    requires Distinct(a)
    ensures Distinct(Keep(a, keep))
  {
    if a != [] {
      KeepDistinct(a[1..], keep);
      var kept := Keep(a[1..], keep);
      forall i | 0 <= i < |kept| ensures kept[i].key != a[0].key {
        var j := KeepSound(a[1..], keep, i);
      }
    }
  }

  // ---------------------------------------------------------------- eviction

  /** The loop drops the shortest prefix after which both bounds hold. */
  lemma {:induction false} EvictionIsMinimal(entries: Slots, c: Config) returns (n: nat)
    ensures n <= |entries|
    ensures Evicted(entries, TotalSize(entries), c) == (entries[n..], TotalSize(entries[n..]))
    ensures !Full(entries[n..], TotalSize(entries[n..]), c)
    ensures forall m :: 0 <= m < n ==> Full(entries[m..], TotalSize(entries[m..]), c)
  {
    n := 0;
    if Full(entries, TotalSize(entries), c) {
      n := EvictionIsMinimal(entries[1..], c);
      assert entries[1..][n..] == entries[n + 1..];
      forall m | 0 <= m < n + 1 ensures Full(entries[m..], TotalSize(entries[m..]), c) {
        if m > 0 {
          assert entries[1..][m - 1..] == entries[m..];
        }
      }
      n := n + 1;
    }
  }

  /** An entry that fits is never evicted by its own insertion. */
  lemma InsertedSurvives(sh: Shared, c: Config, key: Key, entry: Entry) returns (n: nat)
    requires ValidConfig(c) && sh.resident == TotalSize(sh.entries) && !Has(sh.entries, key)
    requires entry.size <= c.maxBytes
    ensures n <= |sh.entries|
    ensures var sh' := Inserted(sh, c, key, entry);
            && sh'.entries == sh.entries[n..] + [Slot(key, entry)]
            && sh'.resident == TotalSize(sh'.entries) <= c.maxBytes
            && |sh'.entries| <= c.maxEntries
  {
    hide TotalSize, Keep;
    WithoutAbsent(sh.entries, key);
    var grown := sh.entries + [Slot(key, entry)];
    SizeConcat(sh.entries, [Slot(key, entry)]);
    n := EvictionIsMinimal(grown, c);
    assert grown[|sh.entries|..] == [Slot(key, entry)];
    SizeSingle(Slot(key, entry));
    assert !Full(grown[|sh.entries|..], TotalSize(grown[|sh.entries|..]), c);
    assert grown[n..] == sh.entries[n..] + [Slot(key, entry)];
  }

  // ---------------------------------------------------------------- the state machine

  datatype Stage = Fetching | Settled | Done

  datatype Load = Load(key: Key, stage: Stage)

  /** `clock` counts steps; `used` records when a key was last inserted or hit. */
  datatype State = State(
    config: Config, shared: Shared, clock: nat, used: map<Key, nat>, tasks: map<TaskId, Load>)

  datatype Event =
    | Lookup(key: Key, now: int, newTask: TaskId)
    | Insert(task: TaskId, entry: Entry, now: int)     // the digest was checked before
    | Fail(task: TaskId)
    | Finish(task: TaskId)
    | Prune(tenant: string, digests: set<string>)

  predicate Enabled(s: State, e: Event) {
    match e
    case Lookup(_, _, newTask) => newTask !in s.tasks
    case Insert(task, entry, now) =>
      && task in s.tasks && s.tasks[task].stage == Fetching
      && entry.packageDigest == s.tasks[task].key.digest && entry.expiresAt == now + s.config.ttl
    case Fail(task) => task in s.tasks && s.tasks[task].stage == Fetching
    case Finish(task) => task in s.tasks && s.tasks[task].stage == Settled
    case Prune(_, _) => true
  }

  function LookupBy(s: State, key: Key, now: int, newTask: TaskId): State {
    var answer := LookupAnswer(s.shared, key, now, newTask);
    s.(shared := AfterLookup(s.shared, key, now, newTask),
       used := if answer.Hit? then s.used[key := s.clock] else s.used,
       tasks := if answer.Begin? then s.tasks[newTask := Load(key, Fetching)] else s.tasks)
  }

  function InsertBy(s: State, task: TaskId, entry: Entry): State
    requires task in s.tasks
  {
    var key := s.tasks[task].key;
    s.(shared := Inserted(s.shared, s.config, key, entry),
       used := s.used[key := s.clock],
       tasks := s.tasks[task := Load(key, Settled)])
  }

  function Next(s: State, e: Event): State
    requires Enabled(s, e)
  {
    var after := match e
      case Lookup(key, now, newTask) => LookupBy(s, key, now, newTask)
      case Insert(task, entry, _) => InsertBy(s, task, entry)
      case Fail(task) => s.(tasks := s.tasks[task := Load(s.tasks[task].key, Settled)])
      case Finish(task) =>
        s.(shared := Unregistered(s.shared, s.tasks[task].key, task),
           tasks := s.tasks[task := Load(s.tasks[task].key, Done)])
      case Prune(tenant, digests) => s.(shared := Pruned(s.shared, tenant, digests));
    after.(clock := s.clock + 1)
  }

  predicate Initial(s: State) {
    ValidConfig(s.config) && s == State(s.config, Shared([], map[], 0), 0, map[], map[])
  }

  // ---------------------------------------------------------------- invariants

  /** Bytes are accounted exactly, both bounds hold, and packages match their keys. */
  predicate Accounted(s: State) {
    && ValidConfig(s.config)
    && Distinct(s.shared.entries)
    && s.shared.resident == TotalSize(s.shared.entries) <= s.config.maxBytes
    && |s.shared.entries| <= s.config.maxEntries
    && forall i :: 0 <= i < |s.shared.entries| ==>
         s.shared.entries[i].entry.packageDigest == s.shared.entries[i].key.digest
  }

  /** Registered loads are the unfinished ones, one per key. */
  predicate Registered(s: State) {
    && (forall t :: t in s.tasks && s.tasks[t].stage != Done ==>
          s.tasks[t].key in s.shared.loads && s.shared.loads[s.tasks[t].key] == t)
    && (forall k :: k in s.shared.loads ==>
          s.shared.loads[k] in s.tasks && s.tasks[s.shared.loads[k]].key == k
          && s.tasks[s.shared.loads[k]].stage != Done)
  }

  /** A load that has not inserted yet has no entry under its key. */
  predicate FetchingAbsent(s: State) {
    forall t :: t in s.tasks && s.tasks[t].stage == Fetching ==> !Has(s.shared.entries, s.tasks[t].key)
  }

  /** The slots stand in the order of their last use. */
  predicate Recency(entries: Slots, used: map<Key, nat>, clock: nat) {
    && (forall i :: 0 <= i < |entries| ==> entries[i].key in used && used[entries[i].key] < clock)
    && (forall i, j :: 0 <= i < j < |entries| ==> used[entries[i].key] < used[entries[j].key])
  }

  predicate Inv(s: State) {
    && Accounted(s) && Registered(s) && FetchingAbsent(s)
    && Recency(s.shared.entries, s.used, s.clock)
  }

  /** Dropping slots keeps the accounting, the order of use and absence. */
  lemma KeptSlots(a: Slots, keep: Key -> bool, used: map<Key, nat>, clock: nat)
    requires Distinct(a) && Recency(a, used, clock)
    ensures Distinct(Keep(a, keep)) && Recency(Keep(a, keep), used, clock)
    ensures |Keep(a, keep)| <= |a| && TotalSize(Keep(a, keep)) <= TotalSize(a)
    ensures forall k :: Has(Keep(a, keep), k) <==> Has(a, k) && keep(k)
    ensures forall i :: 0 <= i < |Keep(a, keep)| ==> Keep(a, keep)[i] in a
  {
    hide Recency, TotalSize, Distinct;
    KeepDistinct(a, keep);
    KeepSmaller(a, keep);
    KeepRecency(a, keep, used, clock);
    forall i | 0 <= i < |Keep(a, keep)| ensures Keep(a, keep)[i] in a {
      var j := KeepSound(a, keep, i);
    }
    forall k ensures Has(Keep(a, keep), k) <==> Has(a, k) && keep(k) {
      KeepHas(a, keep, k);
    }
  }

  lemma KeepHas(a: Slots, keep: Key -> bool, k: Key)
    ensures Has(Keep(a, keep), k) <==> Has(a, k) && keep(k)
  {
    if Has(Keep(a, keep), k) {
      var i :| 0 <= i < |Keep(a, keep)| && Keep(a, keep)[i].key == k;
      var j := KeepSound(a, keep, i);
    }
    if Has(a, k) && keep(k) {
      var j :| 0 <= j < |a| && a[j].key == k;
      var i := KeepComplete(a, keep, j);
    }
  }

  lemma {:induction false} KeepSmaller(a: Slots, keep: Key -> bool)
    ensures |Keep(a, keep)| <= |a| && TotalSize(Keep(a, keep)) <= TotalSize(a)
  {
    if a != [] {
      KeepSmaller(a[1..], keep);
      if keep(a[0].key) {
        assert Keep(a, keep)[1..] == Keep(a[1..], keep);
      }
    }
  }

  lemma {:induction false} KeepRecency(a: Slots, keep: Key -> bool, used: map<Key, nat>, clock: nat)
    requires Recency(a, used, clock)
    ensures Recency(Keep(a, keep), used, clock)
  {
    if a != [] {
      KeepRecency(a[1..], keep, used, clock);
      var kept := Keep(a[1..], keep);
      forall i | 0 <= i < |kept| ensures kept[i].key in used && used[a[0].key] < used[kept[i].key] {
        var j := KeepSound(a[1..], keep, i);
        assert a[1..][j] == a[j + 1];
      }
    }
  }

  lemma RemovedKeeps(sh: Shared, key: Key, used: map<Key, nat>, clock: nat)
    requires Distinct(sh.entries) && sh.resident == TotalSize(sh.entries)
    requires Recency(sh.entries, used, clock)
    ensures var sh' := Removed(sh, key);
            && sh'.entries == Without(sh.entries, key) && sh'.loads == sh.loads
            && sh'.resident == TotalSize(sh'.entries)
  {
    hide Recency, Keep, TotalSize, Distinct, Get;
    if Has(sh.entries, key) {
      var i :| 0 <= i < |sh.entries| && sh.entries[i].key == key;
      WithoutSplits(sh.entries, key, i);
      SizeSplits(sh.entries, i);
      GetAt(sh.entries, i);
    } else {
      WithoutAbsent(sh.entries, key);
    }
  }

  lemma LookupKeeps(s: State, key: Key, now: int, newTask: TaskId)
    requires Inv(s) && newTask !in s.tasks
    ensures Inv(Next(s, Lookup(key, now, newTask)))
  {
    hide Keep, Recency, TotalSize, Registered, Get, Distinct;
    var s' := Next(s, Lookup(key, now, newTask));
    LookupRegisters(s, key, now, newTask);
    RemovedKeeps(s.shared, key, s.used, s.clock);
    KeptSlots(s.shared.entries, Other(key), s.used, s.clock);
    if Usable(s.shared, key, now) {
      HitKeeps(s, key);
    } else {
      RecencyLater(s'.shared.entries, s.used, s.clock);
    }
  }

  lemma RecencyLater(a: Slots, used: map<Key, nat>, clock: nat)
    requires Recency(a, used, clock)
    ensures Recency(a, used, clock + 1)
  {
  }

  lemma LookupRegisters(s: State, key: Key, now: int, newTask: TaskId)
    requires Registered(s) && newTask !in s.tasks
    ensures Registered(Next(s, Lookup(key, now, newTask)))
  {
    hide Keep, Get;
  }

  /** A hit moves its slot to the recently used end and changes nothing else. */
  lemma HitKeeps(s: State, key: Key)
    requires Accounted(s) && Recency(s.shared.entries, s.used, s.clock) && Has(s.shared.entries, key)
    ensures var a := Without(s.shared.entries, key) + [Slot(key, Get(s.shared.entries, key))];
            && Distinct(a) && TotalSize(a) == TotalSize(s.shared.entries)
            && |a| == |s.shared.entries|
            && Recency(a, s.used[key := s.clock], s.clock + 1)
            && (forall k :: Has(a, k) <==> Has(s.shared.entries, k))
            && (forall i :: 0 <= i < |a| ==> a[i].entry.packageDigest == a[i].key.digest)
  {
    hide Keep, TotalSize, Get, Distinct, Recency;
    var slots := s.shared.entries;
    var i :| 0 <= i < |slots| && slots[i].key == key;
    WithoutSplits(slots, key, i);
    GetAt(slots, i);
    MoveKeepsKeys(slots, i);
    MoveKeepsSize(slots, i);
    MoveKeepsOrder(slots, i, s.used, s.clock);
    var a := slots[..i] + slots[i + 1..] + [slots[i]];
    forall j | 0 <= j < |a| ensures a[j] in slots {
    }
  }

  lemma MoveKeepsSize(slots: Slots, i: nat)
    requires i < |slots|
    ensures TotalSize(slots[..i] + slots[i + 1..] + [slots[i]]) == TotalSize(slots)
  {
    hide TotalSize;
    SizeSplits(slots, i);
    SizeConcat(slots[..i] + slots[i + 1..], [slots[i]]);
    SizeSingle(slots[i]);
  }

  lemma MoveKeepsOrder(slots: Slots, i: nat, used: map<Key, nat>, clock: nat)
    requires i < |slots| && Distinct(slots) && Recency(slots, used, clock)
    ensures var a := slots[..i] + slots[i + 1..] + [slots[i]];
            Distinct(a) && Recency(a, used[slots[i].key := clock], clock + 1)
  {
    var a := slots[..i] + slots[i + 1..] + [slots[i]];
    assert forall j :: 0 <= j < i ==> a[j] == slots[j];
    assert forall j :: i <= j < |a| - 1 ==> a[j] == slots[j + 1];
  }

  lemma MoveKeepsKeys(slots: Slots, i: nat)
    requires i < |slots|
    ensures forall k :: Has(slots[..i] + slots[i + 1..] + [slots[i]], k) <==> Has(slots, k)
  {
    var a := slots[..i] + slots[i + 1..] + [slots[i]];
    forall k ensures Has(a, k) <==> Has(slots, k) {
      if Has(slots, k) {
        var j :| 0 <= j < |slots| && slots[j].key == k;
        assert a[if j < i then j else if j == i then |a| - 1 else j - 1] == slots[j];
      }
      if Has(a, k) {
        var j :| 0 <= j < |a| && a[j].key == k;
        assert slots[if j < i then j else if j == |a| - 1 then i else j + 1] == a[j];
      }
    }
  }

  /** What eviction and insertion leave: a suffix of the old slots, then the new slot. */
  lemma SuffixAndNew(slots: Slots, n: nat, slot: Slot, used: map<Key, nat>, clock: nat)
    requires n <= |slots| && Distinct(slots) && Recency(slots, used, clock) && !Has(slots, slot.key)
    ensures var a := slots[n..] + [slot];
            && Distinct(a) && Recency(a, used[slot.key := clock], clock + 1)
            && (forall k :: Has(a, k) ==> k == slot.key || Has(slots, k))
            && (forall j :: n <= j < |slots| ==> Has(a, slots[j].key))
            && Has(a, slot.key)
  {
    var a := slots[n..] + [slot];
    assert forall j :: 0 <= j < |a| - 1 ==> a[j] == slots[n + j];
    assert a[|a| - 1] == slot;
    forall j | n <= j < |slots| ensures Has(a, slots[j].key) {
      assert a[j - n] == slots[j];
    }
  }

  lemma InsertKeeps(s: State, task: TaskId, entry: Entry, now: int)
    requires Inv(s) && Enabled(s, Insert(task, entry, now))
    ensures Inv(Next(s, Insert(task, entry, now)))
  {
    hide Keep, TotalSize, Registered, Evicted, Get, Distinct, Recency, Has;
    var s' := Next(s, Insert(task, entry, now));
    var key := s.tasks[task].key;
    assert Registered(s') by { InsertRegisters(s, task, entry, now); }
    OneFetch(s, task);
    if entry.size <= s.config.maxBytes {
      var n := InsertedSurvives(s.shared, s.config, key, entry);
      SuffixAndNew(s.shared.entries, n, Slot(key, entry), s.used, s.clock);
    } else {
      RecencyElsewhere(s.shared.entries, key, s.used, s.clock);
    }
  }

  lemma RecencyElsewhere(a: Slots, key: Key, used: map<Key, nat>, clock: nat)
    requires Recency(a, used, clock) && !Has(a, key)
    ensures Recency(a, used[key := clock], clock + 1)
  {
  }

  lemma OneFetch(s: State, task: TaskId)
    requires Registered(s) && task in s.tasks && s.tasks[task].stage != Done
    ensures forall t :: t in s.tasks && s.tasks[t].stage != Done && t != task ==>
      s.tasks[t].key != s.tasks[task].key
  {
  }

  lemma InsertRegisters(s: State, task: TaskId, entry: Entry, now: int)
    requires Registered(s) && Enabled(s, Insert(task, entry, now))
    ensures Registered(Next(s, Insert(task, entry, now)))
  {
    hide Keep, TotalSize, Evicted;
  }

  lemma PruneKeeps(s: State, tenant: string, digests: set<string>)
    requires Inv(s)
    ensures Inv(Next(s, Prune(tenant, digests)))
  {
    hide Keep, Recency, TotalSize, Registered, Distinct;
    var s' := Next(s, Prune(tenant, digests));
    KeptSlots(s.shared.entries, Retained(tenant, digests), s.used, s.clock);
    RecencyLater(s'.shared.entries, s.used, s.clock);
    assert Registered(s') by { SameRegistered(s, s'); }
  }

  lemma SameRegistered(s: State, s': State)
    requires Registered(s) && s'.tasks == s.tasks && s'.shared.loads == s.shared.loads
    ensures Registered(s')
  {
  }

  lemma StepKeeps(s: State, e: Event)
    requires Inv(s) && Enabled(s, e)
    ensures Inv(Next(s, e))
  {
    match e
    case Lookup(key, now, newTask) => LookupKeeps(s, key, now, newTask);
    case Insert(task, entry, now) => InsertKeeps(s, task, entry, now);
    case Prune(tenant, digests) => PruneKeeps(s, tenant, digests);
    case Fail(task) => SettleKeeps(s, e);
    case Finish(task) => SettleKeeps(s, e);
  }

  lemma SettleKeeps(s: State, e: Event)
    requires Inv(s) && Enabled(s, e) && (e.Fail? || e.Finish?)
    ensures Inv(Next(s, e))
  {
    hide Recency, TotalSize, Distinct;
    RecencyLater(s.shared.entries, s.used, s.clock);
  }

  // ---------------------------------------------------------------- whole runs

  ghost predicate Run(states: seq<State>, events: seq<Event>) {
    && |states| == |events| + 1
    && Initial(states[0])
    && forall i :: 0 <= i < |events| ==>
         Enabled(states[i], events[i]) && states[i + 1] == Next(states[i], events[i])
  }

  lemma {:induction false} RunInv(states: seq<State>, events: seq<Event>, i: nat)
    requires Run(states, events) && i < |states|
    ensures Inv(states[i]) && states[i].config == states[0].config
  {
    if i > 0 {
      hide Accounted, Registered, FetchingAbsent, Recency;
      RunInv(states, events, i - 1);
      StepKeeps(states[i - 1], events[i - 1]);
    }
  }

  /** In every state of every run the byte count is the sum of the resident sizes, both
      capacity bounds hold, at most one load per key is unfinished, and a load that has not
      inserted finds its key absent. */
  lemma CacheBounds(states: seq<State>, events: seq<Event>, i: nat)
    requires Run(states, events) && i < |states|
    ensures var s, c := states[i], states[0].config;
            && s.shared.resident == TotalSize(s.shared.entries) <= c.maxBytes
            && |s.shared.entries| <= c.maxEntries
            && (forall t, u ::
                  t in s.tasks && u in s.tasks && t != u
                  && s.tasks[t].stage != Done && s.tasks[u].stage != Done ==>
                  s.tasks[t].key != s.tasks[u].key)
            && (forall t :: t in s.tasks && s.tasks[t].stage == Fetching ==>
                  !Has(s.shared.entries, s.tasks[t].key))
  {
    hide Recency, TotalSize;
    RunInv(states, events, i);
  }

  /** A hit returns an unexpired package with the digest that was asked for. */
  lemma HitsMatch(states: seq<State>, events: seq<Event>, i: nat, key: Key, now: int, newTask: TaskId)
    requires Run(states, events) && i < |states|
    requires LookupAnswer(states[i].shared, key, now, newTask).Hit?
    ensures var entry := LookupAnswer(states[i].shared, key, now, newTask).entry;
            entry.packageDigest == key.digest && entry.expiresAt > now
  {
    RunInv(states, events, i);
  }

  /** Insertion evicts least recently used entries first, and never the new one. */
  lemma InsertEvictsOldest(states: seq<State>, events: seq<Event>, i: nat, gone: Key, stays: Key)
    requires Run(states, events) && i < |events| && events[i].Insert?
    requires events[i].entry.size <= states[0].config.maxBytes
    requires Has(states[i].shared.entries, gone) && !Has(states[i + 1].shared.entries, gone)
    requires Has(states[i + 1].shared.entries, stays)
    ensures gone in states[i + 1].used && stays in states[i + 1].used
    ensures states[i + 1].used[gone] < states[i + 1].used[stays]
    ensures Has(states[i + 1].shared.entries, states[i].tasks[events[i].task].key)
  {
    hide Keep, TotalSize, Registered, Evicted, Get;
    RunInv(states, events, i);
    var s, task, entry := states[i], events[i].task, events[i].entry;
    var key := s.tasks[task].key;
    var n := InsertedSurvives(s.shared, s.config, key, entry);
    var s' := states[i + 1];
    assert s'.shared.entries == s.shared.entries[n..] + [Slot(key, entry)];
    SuffixAndNew(s.shared.entries, n, Slot(key, entry), s.used, s.clock);
    var g :| 0 <= g < |s.shared.entries| && s.shared.entries[g].key == gone;
    var k :| 0 <= k < |s'.shared.entries| && s'.shared.entries[k].key == stays;
    if k < |s'.shared.entries| - 1 {
      assert s'.shared.entries[k] == s.shared.entries[n + k];
    }
  }

  lemma {:induction false} KeepHolds(entries: Slots, keep: Key -> bool, x: Slot)
    ensures x in Keep(entries, keep) <==> x in entries && keep(x.key)
  {
    if entries != [] {
      KeepHolds(entries[1..], keep, x);
    }
  }
}
