/** Idempotent tool execution without an invocation store (ToolGateway, _KeyedLocks).

Every call reserves a reference-counted lock for its (tenant, idempotency key), waits for
it, consults the result ledger, and only then dispatches. Lock entries are dropped when
the last reference goes and created again later, while other calls may still be between
releasing the lock and giving back their reference. The model is a state machine whose
steps are the stretches of code between suspension points, in any interleaving.
*/
module ToolGateway {
  import opened Counting
  import opened Wrappers

  datatype Key = Key(tenant: string, idempotencyKey: string)

  datatype ToolResult = ToolResult(status: string, content: string)

  type LockId = nat
  type TaskId = nat

  datatype LockEntry = LockEntry(lock: LockId, references: nat)

  /** `held` maps a locked lock to its owner; `created` is the next lock identity. */
  datatype Locks = Locks(entries: map<Key, LockEntry>, held: map<LockId, TaskId>, created: nat)

  // ---------------------------------------------------------------- lock sections

  function EntryFor(l: Locks, key: Key): LockEntry {
    if key in l.entries then l.entries[key] else LockEntry(l.created, 0)
  }

  function Reserved(l: Locks, key: Key): Locks {
    var entry := EntryFor(l, key);
    l.(entries := l.entries[key := entry.(references := entry.references + 1)],
       created := if key in l.entries then l.created else l.created + 1)
  }

  function Dereferenced(l: Locks, key: Key): Locks
    requires key in l.entries && l.entries[key].references >= 1
  {
    if l.entries[key].references == 1 then l.(entries := l.entries - {key})
    else l.(entries := l.entries[key := LockEntry(l.entries[key].lock, l.entries[key].references - 1)])
  }

  class KeyedLocks {
    var entries: map<Key, LockEntry>
    var held: map<LockId, TaskId>
    var created: nat

    function View(): Locks
      reads this
    {
      Locks(entries, held, created)
    }

    constructor ()
      ensures View() == Locks(map[], map[], 0)
    {
      entries, held, created := map[], map[], 0;
    }

    /** The guarded prologue of `hold`. */
    method Reserve(key: Key) returns (lock: LockId)
      modifies this
      ensures View() == Reserved(old(View()), key)
      ensures key in entries && lock == entries[key].lock
    {
      var references := 0;
      if key in entries {
        lock, references := entries[key].lock, entries[key].references;
      } else {
        lock := created;
        created := created + 1;
      }
      entries := entries[key := LockEntry(lock, references + 1)];
    }

    method Acquire(lock: LockId, task: TaskId)
      requires lock !in held
      modifies this`held
      ensures held == old(held)[lock := task]
    {
      held := held[lock := task];
    }

    method Release(lock: LockId)
      modifies this`held
      ensures held == old(held) - {lock}
    {
      held := held - {lock};
    }

    method RemoveReference(key: Key)
      requires key in entries && entries[key].references >= 1
      modifies this`entries
      ensures View() == Dereferenced(old(View()), key)
    {
      var current, references := entries[key].lock, entries[key].references;
      if references == 1 {
        entries := entries - {key};
      } else {
        entries := entries[key := LockEntry(current, references - 1)];
      }
    }
  }

  // ---------------------------------------------------------------- the ledger

  type Ledger = map<Key, (string, ToolResult)>

  datatype Outcome =
    | Replayed(result: ToolResult)   // the recorded result of the same action
    | Conflict                       // idempotency_conflict
    | Recorded(result: ToolResult)   // policy denial or dispatch result
    | Unrecorded                     // approval required, capacity rejected, or an exception
    | TimedOut                       // the lock was not obtained in time

  /** What a call that holds the lock finds in the ledger. */
  function Consult(ledger: Ledger, key: Key, digest: string, cached: bool): Option<Outcome> {
    if !cached || key !in ledger then None
    else if ledger[key].0 != digest then Some(Conflict)
    else Some(Replayed(ledger[key].1))
  }

  function Record(ledger: Ledger, key: Key, digest: string, cached: bool, result: ToolResult): Ledger {
    if cached then ledger[key := (digest, result)] else ledger
  }

  class ResultLedger {
    var results: Ledger

    constructor ()
      ensures results == map[]
    {
      results := map[];
    }

    method Previous(key: Key, digest: string, cached: bool) returns (answer: Option<Outcome>)
      ensures answer == Consult(results, key, digest, cached)
    {
      if cached && key in results {
        var (previousDigest, previousResult) := results[key];
        if previousDigest != digest {
          return Some(Conflict);
        }
        return Some(Replayed(previousResult));
      }
      return None;
    }

    method Store(key: Key, digest: string, cached: bool, result: ToolResult)
      modifies this
      ensures results == Record(old(results), key, digest, cached, result)
    {
      if cached {
        results := results[key := (digest, result)];
      }
    }
  }

  // ---------------------------------------------------------------- the state machine

  /** Where a call is suspended. */
  datatype Stage =
    | Waiting      // queued on the lock
    | Acquired     // owns the lock, ledger not consulted yet
    | Ready        // ledger had no answer; capacity, policy and approval come next
    | Dispatching  // the tool is running
    | Releasing    // outcome decided, lock still owned
    | Leaving      // lock not owned, reference not given back
    | Finished

  datatype Call = Call(
    key: Key, digest: string, cached: bool, lock: LockId, stage: Stage, outcome: Option<Outcome>)

  datatype State = State(locks: Locks, ledger: Ledger, calls: map<TaskId, Call>)

  datatype Event =
    | Enter(task: TaskId, key: Key, digest: string, cached: bool)
    | Acquire(task: TaskId)
    | TimeOut(task: TaskId)
    | Check(task: TaskId)
    | Refuse(task: TaskId)                      // capacity, approval, or an exception before dispatch
    | Deny(task: TaskId, result: ToolResult)    // policy denial
    | Dispatch(task: TaskId)
    | Complete(task: TaskId, result: ToolResult)
    | Raise(task: TaskId)                       // the dispatch raised
    | Release(task: TaskId)
    | Leave(task: TaskId)

  predicate At(s: State, task: TaskId, stage: Stage) {
    task in s.calls && s.calls[task].stage == stage
  }

  predicate Enabled(s: State, e: Event) {
    match e
    case Enter(task, _, _, _) => task !in s.calls
    case Acquire(task) => At(s, task, Waiting) && s.calls[task].lock !in s.locks.held
    case TimeOut(task) => At(s, task, Waiting)
    case Check(task) => At(s, task, Acquired)
    case Refuse(task) => At(s, task, Ready)
    case Deny(task, _) => At(s, task, Ready)
    case Dispatch(task) => At(s, task, Ready)
    case Complete(task, _) => At(s, task, Dispatching)
    case Raise(task) => At(s, task, Dispatching)
    case Release(task) => At(s, task, Releasing)
    case Leave(task) =>
      && At(s, task, Leaving)
      && s.calls[task].key in s.locks.entries
      && s.locks.entries[s.calls[task].key].references >= 1
  }

  function Moved(s: State, task: TaskId, stage: Stage): map<TaskId, Call>
    requires task in s.calls
  {
    s.calls[task := s.calls[task].(stage := stage)]
  }

  function Decided(s: State, task: TaskId, stage: Stage, outcome: Outcome): map<TaskId, Call>
    requires task in s.calls
  {
    s.calls[task := s.calls[task].(stage := stage, outcome := Some(outcome))]
  }

  function RecordBy(s: State, task: TaskId, result: ToolResult): State
    requires task in s.calls
  {
    var c := s.calls[task];
    s.(ledger := Record(s.ledger, c.key, c.digest, c.cached, result),
       calls := Decided(s, task, Releasing, Recorded(result)))
  }

  function CheckBy(s: State, task: TaskId): State
    requires task in s.calls
  {
    var c := s.calls[task];
    match Consult(s.ledger, c.key, c.digest, c.cached)
    case None => s.(calls := Moved(s, task, Ready))
    case Some(outcome) => s.(calls := Decided(s, task, Releasing, outcome))
  }

  function EnterBy(s: State, task: TaskId, key: Key, digest: string, cached: bool): State {
    s.(locks := Reserved(s.locks, key),
       calls := s.calls[task := Call(key, digest, cached, EntryFor(s.locks, key).lock, Waiting, None)])
  }

  function AcquireBy(s: State, task: TaskId): State
    requires task in s.calls
  {
    s.(locks := s.locks.(held := s.locks.held[s.calls[task].lock := task]),
       calls := Moved(s, task, Acquired))
  }

  function ReleaseBy(s: State, task: TaskId): State
    requires task in s.calls
  {
    s.(locks := s.locks.(held := s.locks.held - {s.calls[task].lock}),
       calls := Moved(s, task, Leaving))
  }

  function LeaveBy(s: State, task: TaskId): State
    requires Enabled(s, Leave(task))
  {
    s.(locks := Dereferenced(s.locks, s.calls[task].key), calls := Moved(s, task, Finished))
  }

  function Next(s: State, e: Event): State
    requires Enabled(s, e)
  {
    match e
    case Enter(task, key, digest, cached) => EnterBy(s, task, key, digest, cached)
    case Acquire(task) => AcquireBy(s, task)
    case TimeOut(task) => s.(calls := Decided(s, task, Leaving, TimedOut))
    case Check(task) => CheckBy(s, task)
    case Refuse(task) => s.(calls := Decided(s, task, Releasing, Unrecorded))
    case Deny(task, result) => RecordBy(s, task, result)
    case Dispatch(task) => s.(calls := Moved(s, task, Dispatching))
    case Complete(task, result) => RecordBy(s, task, result)
    case Raise(task) => s.(calls := Decided(s, task, Releasing, Unrecorded))
    case Release(task) => ReleaseBy(s, task)
    case Leave(task) => LeaveBy(s, task)
  }

  const Initial := State(Locks(map[], map[], 0), map[], map[])

  // ---------------------------------------------------------------- invariants

  predicate Holds(c: Call) {
    c.stage in {Acquired, Ready, Dispatching, Releasing}
  }

  /** The calls that still have a reference on `key`. */
  function LiveOn(key: Key): Call -> bool {
    (c: Call) => c.key == key && c.stage != Finished
  }

  /** Live calls use the mapped lock of their key. */
  ghost predicate LocksShared(s: State) {
    forall t :: t in s.calls && s.calls[t].stage != Finished ==>
      s.calls[t].key in s.locks.entries && s.locks.entries[s.calls[t].key].lock == s.calls[t].lock
  }

  /** An entry's reference count is the number of live calls on its key. */
  ghost predicate CountsExact(s: State) {
    forall k :: k in s.locks.entries ==>
      s.locks.entries[k].references == Count(s.calls, LiveOn(k)) && s.locks.entries[k].references >= 1
  }

  ghost predicate LocksDistinct(s: State) {
    && (forall k :: k in s.locks.entries ==> s.locks.entries[k].lock < s.locks.created)
    && (forall j, k :: j in s.locks.entries && k in s.locks.entries && j != k ==>
          s.locks.entries[j].lock != s.locks.entries[k].lock)
  }

  ghost predicate ReferencesExact(s: State) {
    LocksShared(s) && CountsExact(s) && LocksDistinct(s)
  }

  /** A lock is owned by exactly the call that is past acquiring and not past releasing it. */
  ghost predicate OwnersExact(s: State) {
    && (forall l :: l in s.locks.held ==>
          s.locks.held[l] in s.calls && Holds(s.calls[s.locks.held[l]])
          && s.calls[s.locks.held[l]].lock == l)
    && (forall t :: t in s.calls && Holds(s.calls[t]) ==>
          s.calls[t].lock in s.locks.held && s.locks.held[s.calls[t].lock] == t)
  }

  /** What the ledger says about each call. */
  predicate OutcomeTrue(ledger: Ledger, c: Call) {
    && (c.cached && c.stage in {Ready, Dispatching} ==> c.key !in ledger)
    && (c.outcome.Some? <==> c.stage in {Releasing, Leaving, Finished})
    && (c.outcome.Some? ==>
          match c.outcome.value
          case Replayed(result) => c.cached && c.key in ledger && ledger[c.key] == (c.digest, result)
          case Conflict => c.cached && c.key in ledger && ledger[c.key].0 != c.digest
          case Recorded(result) =>
            c.cached ==> c.key in ledger && ledger[c.key] == (c.digest, result)
          case Unrecorded => true
          case TimedOut => true)
  }

  ghost predicate Inv(s: State) {
    && ReferencesExact(s)
    && OwnersExact(s)
    && (forall t :: t in s.calls ==> OutcomeTrue(s.ledger, s.calls[t]))
  }

  /** At most one call per key owns the key's lock, however often the entry was recreated. */
  lemma OneOwner(s: State, a: TaskId, b: TaskId)
    requires Inv(s) && a in s.calls && b in s.calls
    requires Holds(s.calls[a]) && Holds(s.calls[b]) && s.calls[a].key == s.calls[b].key
    ensures a == b
  {
  }

  lemma EnterKeeps(s: State, task: TaskId, key: Key, digest: string, cached: bool)
    requires Inv(s) && task !in s.calls
    ensures Inv(EnterBy(s, task, key, digest, cached))
  {
    hide Count, ReferencesExact;
    EnterCounts(s, task, key, digest, cached);
    var s' := EnterBy(s, task, key, digest, cached);
    assert OwnersExact(s') by {
      assert s'.locks.held == s.locks.held;
    }
  }

  lemma EnterCounts(s: State, task: TaskId, key: Key, digest: string, cached: bool)
    requires ReferencesExact(s) && task !in s.calls
    ensures ReferencesExact(EnterBy(s, task, key, digest, cached))
  {
    hide Count;
    var s' := EnterBy(s, task, key, digest, cached);
    forall k | k in s'.locks.entries
      ensures s'.locks.entries[k].references == Count(s'.calls, LiveOn(k))
    {
      EnterCount(s, task, key, digest, cached, k);
    }
  }

  lemma EnterCount(s: State, task: TaskId, key: Key, digest: string, cached: bool, k: Key)
    requires LocksShared(s) && CountsExact(s) && task !in s.calls
    requires k in EnterBy(s, task, key, digest, cached).locks.entries
    ensures var s' := EnterBy(s, task, key, digest, cached);
            s'.locks.entries[k].references == Count(s'.calls, LiveOn(k))
  {
    hide Count;
    var s' := EnterBy(s, task, key, digest, cached);
    CountUpdate(s.calls, task, s'.calls[task], LiveOn(k));
    if k !in s.locks.entries {
      CountPositive(s.calls, LiveOn(k));
    }
  }

  /** Only `task`'s frame differs, and it keeps its key and its lock. */
  ghost predicate OnlyMoves(s: State, s': State, task: TaskId) {
    && task in s.calls && task in s'.calls
    && s'.calls == s.calls[task := s'.calls[task]]
    && s'.calls[task].key == s.calls[task].key && s'.calls[task].lock == s.calls[task].lock
  }

  /** A step that keeps a call live keeps the reference counts. */
  lemma SameReferences(s: State, s': State, task: TaskId)
    requires ReferencesExact(s) && OnlyMoves(s, s', task)
    requires s'.locks.entries == s.locks.entries && s'.locks.created == s.locks.created
    requires s.calls[task].stage != Finished && s'.calls[task].stage != Finished
    ensures ReferencesExact(s')
  {
    hide Count;
    forall k | k in s'.locks.entries
      ensures s'.locks.entries[k].references == Count(s'.calls, LiveOn(k))
    {
      CountUpdate(s.calls, task, s'.calls[task], LiveOn(k));
    }
  }

  lemma SameOwners(s: State, s': State, task: TaskId)
    requires OwnersExact(s) && OnlyMoves(s, s', task)
    requires s'.locks.held == s.locks.held && Holds(s.calls[task]) == Holds(s'.calls[task])
    ensures OwnersExact(s')
  {
  }

  /** A step that leaves the locks and the ledger alone and whose new outcome is true. */
  lemma QuietKeeps(s: State, s': State, task: TaskId)
    requires Inv(s) && OnlyMoves(s, s', task)
    requires s'.locks == s.locks && s'.ledger == s.ledger
    requires s.calls[task].stage != Finished && s'.calls[task].stage != Finished
    requires Holds(s.calls[task]) == Holds(s'.calls[task])
    requires OutcomeTrue(s.ledger, s'.calls[task])
    ensures Inv(s')
  {
    hide OutcomeTrue, ReferencesExact, OwnersExact;
    SameReferences(s, s', task);
    SameOwners(s, s', task);
  }

  lemma AcquireKeeps(s: State, task: TaskId)
    requires Inv(s) && At(s, task, Waiting) && s.calls[task].lock !in s.locks.held
    ensures Inv(AcquireBy(s, task))
  {
    hide ReferencesExact;
    SameReferences(s, AcquireBy(s, task), task);
  }

  lemma ReleaseKeeps(s: State, task: TaskId)
    requires Inv(s) && At(s, task, Releasing)
    ensures Inv(ReleaseBy(s, task))
  {
    hide ReferencesExact, OwnersExact;
    var s' := ReleaseBy(s, task);
    SameReferences(s, s', task);
    ReleaseOwners(s, task);
    forall t | t in s'.calls ensures OutcomeTrue(s'.ledger, s'.calls[t]) {
      assert OutcomeTrue(s.ledger, s.calls[t]);
    }
  }

  lemma ReleaseOwners(s: State, task: TaskId)
    requires OwnersExact(s) && At(s, task, Releasing)
    ensures OwnersExact(ReleaseBy(s, task))
  {
  }

  /** Giving back the last reference drops the entry only when no live call is left on it. */
  lemma LeaveCounts(s: State, task: TaskId)
    requires ReferencesExact(s) && Enabled(s, Leave(task))
    ensures ReferencesExact(LeaveBy(s, task))
  {
    hide Count;
    var s' := LeaveBy(s, task);
    var key := s.calls[task].key;
    forall k | k in s.locks.entries
      ensures Count(s'.calls, LiveOn(k)) == s.locks.entries[k].references - (if k == key then 1 else 0)
    {
      CountUpdate(s.calls, task, s'.calls[task], LiveOn(k));
    }
    CountPositive(s'.calls, LiveOn(key));
    forall t | t in s'.calls && s'.calls[t].stage != Finished
      ensures s'.calls[t].key in s'.locks.entries
      ensures s'.locks.entries[s'.calls[t].key].lock == s'.calls[t].lock
    {
      if s'.calls[t].key == key {
        assert LiveOn(key)(s'.calls[t]);
      }
    }
  }

  lemma LeaveKeeps(s: State, task: TaskId)
    requires Inv(s) && Enabled(s, Leave(task))
    ensures Inv(LeaveBy(s, task))
  {
    hide ReferencesExact, OwnersExact;
    LeaveCounts(s, task);
    SameOwners(s, LeaveBy(s, task), task);
  }

  lemma RecordKeeps(s: State, task: TaskId, result: ToolResult)
    requires Inv(s) && (At(s, task, Ready) || At(s, task, Dispatching))
    ensures Inv(RecordBy(s, task, result))
  {
    hide ReferencesExact, OwnersExact;
    var s' := RecordBy(s, task, result);
    SameReferences(s, s', task);
    SameOwners(s, s', task);
    forall t | t in s'.calls ensures OutcomeTrue(s'.ledger, s'.calls[t]) {
      assert OutcomeTrue(s.ledger, s.calls[t]);
      if t != task && s.calls[t].key == s.calls[task].key && s.calls[t].stage in {Ready, Dispatching} {
        OneOwner(s, t, task);
      }
    }
  }

  lemma CheckKeeps(s: State, task: TaskId)
    requires Inv(s) && At(s, task, Acquired)
    ensures Inv(CheckBy(s, task))
  {
    hide ReferencesExact, OwnersExact;
    QuietKeeps(s, CheckBy(s, task), task);
  }

  lemma StepKeeps(s: State, e: Event)
    requires Inv(s) && Enabled(s, e)
    ensures Inv(Next(s, e))
  {
    hide ReferencesExact, OwnersExact;
    match e
    case Enter(task, key, digest, cached) => EnterKeeps(s, task, key, digest, cached);
    case Acquire(task) => AcquireKeeps(s, task);
    case TimeOut(task) => QuietKeeps(s, s.(calls := Decided(s, task, Leaving, TimedOut)), task);
    case Check(task) => CheckKeeps(s, task);
    case Refuse(task) => QuietKeeps(s, s.(calls := Decided(s, task, Releasing, Unrecorded)), task);
    case Deny(task, result) => RecordKeeps(s, task, result);
    case Dispatch(task) => QuietKeeps(s, s.(calls := Moved(s, task, Dispatching)), task);
    case Complete(task, result) => RecordKeeps(s, task, result);
    case Raise(task) => QuietKeeps(s, s.(calls := Decided(s, task, Releasing, Unrecorded)), task);
    case Release(task) => ReleaseKeeps(s, task);
    case Leave(task) => LeaveKeeps(s, task);
  }

  // ---------------------------------------------------------------- whole runs

  ghost predicate Run(states: seq<State>, events: seq<Event>) {
    && |states| == |events| + 1
    && states[0] == Initial
    && forall i :: 0 <= i < |events| ==>
         Enabled(states[i], events[i]) && states[i + 1] == Next(states[i], events[i])
  }

  lemma {:induction false} RunInv(states: seq<State>, events: seq<Event>, i: nat)
    requires Run(states, events) && i < |states|
    ensures Inv(states[i])
  {
    if i > 0 {
      RunInv(states, events, i - 1);
      StepKeeps(states[i - 1], events[i - 1]);
    }
  }

  /** Dispatches of one key never overlap, in any state of any run. */
  lemma DispatchesNeverOverlap(states: seq<State>, events: seq<Event>, i: nat, a: TaskId, b: TaskId)
    requires Run(states, events) && i < |states|
    requires At(states[i], a, Dispatching) && At(states[i], b, Dispatching)
    requires states[i].calls[a].key == states[i].calls[b].key
    ensures a == b
  {
    RunInv(states, events, i);
    OneOwner(states[i], a, b);
  }

  lemma StepKeepsRecord(s: State, e: Event, key: Key)
    requires Inv(s) && Enabled(s, e) && key in s.ledger
    ensures key in Next(s, e).ledger && Next(s, e).ledger[key] == s.ledger[key]
  {
    hide ReferencesExact, OwnersExact;
  }

  /** The first recorded (digest, result) of a key is never replaced. */
  lemma {:induction false} FirstRecordStays(
    states: seq<State>, events: seq<Event>, i: nat, j: nat, key: Key)
    requires Run(states, events) && i <= j < |states| && key in states[i].ledger
    ensures key in states[j].ledger && states[j].ledger[key] == states[i].ledger[key]
    decreases j
  {
    hide Inv, Next, Enabled;
    if i < j {
      FirstRecordStays(states, events, i, j - 1, key);
      RunInv(states, events, j - 1);
      StepKeepsRecord(states[j - 1], events[j - 1], key);
    }
  }

  /** Once a key is recorded no call of a result-caching tool dispatches or records it again. */
  lemma NoDispatchAfterRecord(
    states: seq<State>, events: seq<Event>, i: nat, j: nat, key: Key)
    requires Run(states, events) && i <= j < |events| && key in states[i].ledger
    requires events[j].Dispatch? || events[j].Complete? || events[j].Deny?
    requires states[j].calls[events[j].task].key == key
    ensures !states[j].calls[events[j].task].cached
  {
    FirstRecordStays(states, events, i, j, key);
    RunInv(states, events, j);
    assert OutcomeTrue(states[j].ledger, states[j].calls[events[j].task]);
  }

  /** A call that consults the ledger after a record gets that result for the same digest
      and a conflict for another one, and its answer stays true for the rest of the run. */
  lemma LaterCallsAnswered(
    states: seq<State>, events: seq<Event>, i: nat, j: nat, n: nat, task: TaskId)
    requires Run(states, events) && i <= j < |events| && j < n < |states|
    requires events[j] == Check(task) && states[j].calls[task].cached
    requires states[j].calls[task].key in states[i].ledger
    ensures var c := states[j].calls[task];
            var (digest, result) := states[i].ledger[c.key];
            && task in states[n].calls
            && states[n].calls[task].outcome ==
                 Some(if digest == c.digest then Replayed(result) else Conflict)
  {
    var c := states[j].calls[task];
    FirstRecordStays(states, events, i, j, c.key);
    OutcomeStays(states, events, j + 1, n, task);
  }

  lemma {:induction false} OutcomeStays(
    states: seq<State>, events: seq<Event>, i: nat, j: nat, task: TaskId)
    requires Run(states, events) && i <= j < |states|
    requires task in states[i].calls && states[i].calls[task].outcome.Some?
    ensures task in states[j].calls && states[j].calls[task].outcome == states[i].calls[task].outcome
    decreases j
  {
    hide Inv, Next, Enabled;
    if i < j {
      OutcomeStays(states, events, i, j - 1, task);
      RunInv(states, events, j - 1);
      StepKeepsOutcome(states[j - 1], events[j - 1], task);
    }
  }

  lemma StepKeepsOutcome(s: State, e: Event, task: TaskId)
    requires Inv(s) && Enabled(s, e) && task in s.calls && s.calls[task].outcome.Some?
    ensures task in Next(s, e).calls && Next(s, e).calls[task].outcome == s.calls[task].outcome
  {
    hide ReferencesExact, OwnersExact;
    assert OutcomeTrue(s.ledger, s.calls[task]);
  }

  /** Two calls of result-caching tools that both return a tool result for one key ran the
      same action and return the same result. */
  lemma OneResultPerKey(states: seq<State>, events: seq<Event>, i: nat, a: TaskId, b: TaskId)
    requires Run(states, events) && i < |states| && a in states[i].calls && b in states[i].calls
    requires var s := states[i];
             && s.calls[a].key == s.calls[b].key && s.calls[a].cached && s.calls[b].cached
             && s.calls[a].outcome.Some? && s.calls[b].outcome.Some?
             && (s.calls[a].outcome.value.Replayed? || s.calls[a].outcome.value.Recorded?)
             && (s.calls[b].outcome.value.Replayed? || s.calls[b].outcome.value.Recorded?)
    ensures states[i].calls[a].digest == states[i].calls[b].digest
    ensures states[i].calls[a].outcome.value.result == states[i].calls[b].outcome.value.result
  {
    RunInv(states, events, i);
    assert OutcomeTrue(states[i].ledger, states[i].calls[a]);
    assert OutcomeTrue(states[i].ledger, states[i].calls[b]);
  }

  /** When every call has finished, every lock entry has been reclaimed. */
  lemma EntriesReclaimed(states: seq<State>, events: seq<Event>, i: nat)
    requires Run(states, events) && i < |states|
    requires forall t :: t in states[i].calls ==> states[i].calls[t].stage == Finished
    ensures states[i].locks.entries == map[] && states[i].locks.held == map[]
  {
    RunInv(states, events, i);
    forall k | k in states[i].locks.entries ensures false {
      CountPositive(states[i].calls, LiveOn(k));
    }
  }
}
