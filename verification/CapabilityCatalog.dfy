/** Catalog leases, generations and index stamps (InMemoryCapabilityCatalogStore and the
publishing path of CapabilityCatalog).

A reconciler claims a lease that records the server's generation, gathers a snapshot, and
commits it under that lease. The commit raises the generation by one and stamps every
capability of the snapshot with it; the search index was stamped beforehand with the
generation the lease foresees. Releasing a lease forgets it, so fencing tokens may restart.
*/
module CapabilityCatalog {
  import opened Wrappers

  type ServerId = string

  datatype Server = Server(id: ServerId, configRevision: Option<int>, enabled: bool, usable: bool)

  /** The part of a search index entry that its reader checks. */
  datatype IndexEntry = IndexEntry(
    capabilityId: string, generation: int, contentDigest: string, model: string, policy: string,
    template: string)

  datatype Capability = Capability(
    id: string, server: ServerId, contentDigest: string, generation: Option<int>, index: Option<IndexEntry>)

  datatype Lease = Lease(
    server: ServerId, owner: string, token: int, configRevision: int, previousGeneration: int, expiresAt: int)

  type Capabilities = map<string, Capability>

  datatype Store = Store(
    servers: map<ServerId, Server>, capabilities: Capabilities, generations: map<ServerId, int>,
    leases: map<ServerId, Lease>, digests: map<ServerId, string>)

  const EMPTY: Store := Store(map[], map[], map[], map[], map[])

  const POLICY := "capability-hybrid-rrf-v1"
  const TEMPLATE := "capability-summary-v1"

  // ---------------------------------------------------------------- store operations

  function Generation(st: Store, server: ServerId): int {
    if server in st.generations then st.generations[server] else 0
  }

  function Revision(server: Server): int {
    if server.configRevision.Some? then server.configRevision.value else 0
  }

  predicate Outdated(st: Store, server: Server, allowRollback: bool) {
    && !allowRollback && server.id in st.servers
    && st.servers[server.id].configRevision.Some? && server.configRevision.Some?
    && server.configRevision.value < st.servers[server.id].configRevision.value
  }

  function Upserted(st: Store, server: Server, allowRollback: bool): Store {
    if Outdated(st, server, allowRollback) then st else st.(servers := st.servers[server.id := server])
  }

  predicate Claimable(st: Store, server: ServerId, now: int) {
    (server in st.leases ==> st.leases[server].expiresAt <= now) && server in st.servers
  }

  function NewLease(st: Store, server: ServerId, owner: string, now: int, ttl: int): Lease
    requires server in st.servers
  {
    Lease(server, owner, (if server in st.leases then st.leases[server].token else 0) + 1,
          Revision(st.servers[server]), Generation(st, server), now + ttl)
  }

  function Claimed(st: Store, server: ServerId, owner: string, now: int, ttl: int): Store {
    if Claimable(st, server, now)
    then st.(leases := st.leases[server := NewLease(st, server, owner, now, ttl)]) else st
  }

  function Released(st: Store, lease: Lease): Store {
    if lease.server in st.leases && st.leases[lease.server] == lease
    then st.(leases := st.leases - {lease.server}) else st
  }

  /** The lease is the stored one, still runs, and nothing moved underneath it. */
  predicate Owns(st: Store, server: ServerId, lease: Lease, now: int) {
    && server in st.leases && st.leases[server] == lease && lease.expiresAt > now
    && server in st.servers && Revision(st.servers[server]) == lease.configRevision
    && Generation(st, server) == lease.previousGeneration
  }

  predicate Commits(st: Store, server: ServerId, lease: Lease, digest: string, now: int) {
    Owns(st, server, lease, now) && !(server in st.digests && st.digests[server] == digest)
  }

  function Stamp(c: Capability, generation: int): Capability {
    c.(generation := Some(generation))
  }

  function OfOthers(capabilities: Capabilities, server: ServerId): Capabilities {
    map k | k in capabilities && capabilities[k].server != server :: capabilities[k]
  }

  /** Later entries of a snapshot win, as in a dictionary built from it. */
  function Added(capabilities: Capabilities, snapshot: seq<Capability>, generation: int): Capabilities {
    if snapshot == [] then capabilities
    else
      var last := snapshot[|snapshot| - 1];
      Added(capabilities, snapshot[..|snapshot| - 1], generation)[last.id := Stamp(last, generation)]
  }

  function Replaced(st: Store, server: ServerId, snapshot: seq<Capability>, lease: Lease, digest: string, now: int)
    : Store
  {
    if !Commits(st, server, lease, digest, now) then st
    else
      var generation := lease.previousGeneration + 1;
      st.(capabilities := Added(OfOthers(st.capabilities, server), snapshot, generation),
          generations := st.generations[server := generation],
          digests := st.digests[server := digest])
  }

  function Removed(st: Store, server: ServerId): Store {
    Store(st.servers - {server}, OfOthers(st.capabilities, server), st.generations - {server},
          st.leases - {server}, st.digests - {server})
  }

  datatype CommitResult = Stale | Unchanged(generation: int) | Committed(generation: int)

  function CommitAnswer(st: Store, server: ServerId, lease: Lease, digest: string, now: int): CommitResult {
    if !Owns(st, server, lease, now) then Stale
    else if server in st.digests && st.digests[server] == digest then Unchanged(Generation(st, server))
    else Committed(lease.previousGeneration + 1)
  }

  class CatalogStore {
    var servers: map<ServerId, Server>
    var capabilities: Capabilities
    var generations: map<ServerId, int>
    var leases: map<ServerId, Lease>
    var digests: map<ServerId, string>

    function View(): Store
      reads this
    {
      Store(servers, capabilities, generations, leases, digests)
    }

    constructor ()
      ensures View() == EMPTY
    {
      servers, capabilities, generations, leases, digests := map[], map[], map[], map[], map[];
    }

    method UpsertServer(server: Server, allowRollback: bool)
      modifies this`servers
      ensures View() == Upserted(old(View()), server, allowRollback)
    {
      if !allowRollback && server.id in servers && servers[server.id].configRevision.Some?
         && server.configRevision.Some?
         && server.configRevision.value < servers[server.id].configRevision.value {
        return;
      }
      servers := servers[server.id := server];
    }

    method ClaimReconcile(server: ServerId, owner: string, now: int, ttl: int) returns (lease: Option<Lease>)
      modifies this`leases
      ensures View() == Claimed(old(View()), server, owner, now, ttl)
      ensures lease == if Claimable(old(View()), server, now)
                       then Some(NewLease(old(View()), server, owner, now, ttl)) else None
    {
      if server in leases && leases[server].expiresAt > now {
        return None;
      }
      if server !in servers {
        return None;
      }
      var granted := Lease(server, owner, (if server in leases then leases[server].token else 0) + 1,
                           Revision(servers[server]),
                           if server in generations then generations[server] else 0, now + ttl);
      leases := leases[server := granted];
      return Some(granted);
    }

    method ReleaseReconcile(lease: Lease)
      modifies this`leases
      ensures View() == Released(old(View()), lease)
    {
      if lease.server in leases && leases[lease.server] == lease {
        leases := leases - {lease.server};
      }
    }

    method ReplaceCapabilities(
      server: ServerId, snapshot: seq<Capability>, lease: Lease, digest: string, now: int)
      returns (answer: CommitResult)
      modifies this
      ensures answer == CommitAnswer(old(View()), server, lease, digest, now)
      ensures View() == Replaced(old(View()), server, snapshot, lease, digest, now)
    {
      if !Owns(View(), server, lease, now) {
        return Stale;
      }
      if server in digests && digests[server] == digest {
        return Unchanged(Generation(View(), server));
      }
      var generation := lease.previousGeneration + 1;
      capabilities := map k | k in capabilities && capabilities[k].server != server :: capabilities[k];
      ghost var kept := capabilities;
      for i := 0 to |snapshot|
        invariant capabilities == Added(kept, snapshot[..i], generation)
        invariant servers == old(servers) && generations == old(generations)
        invariant leases == old(leases) && digests == old(digests)
      {
        assert snapshot[..i + 1][..i] == snapshot[..i];
        capabilities := capabilities[snapshot[i].id := Stamp(snapshot[i], generation)];
      }
      assert snapshot[..|snapshot|] == snapshot;
      generations := generations[server := generation];
      digests := digests[server := digest];
      return Committed(generation);
    }

    method RemoveServer(server: ServerId)
      modifies this
      ensures View() == Removed(old(View()), server)
    {
      servers, generations, leases := servers - {server}, generations - {server}, leases - {server};
      digests := digests - {server};
      capabilities := map k | k in capabilities && capabilities[k].server != server :: capabilities[k];
    }
  }

  // ---------------------------------------------------------------- publishing and reading the index

  function EntryFor(c: Capability, generation: int, model: string): IndexEntry {
    IndexEntry(c.id, generation, c.contentDigest, model, POLICY, TEMPLATE)
  }

  function Indexed(snapshot: seq<Capability>, generation: int, model: string): seq<Capability> {
    seq(|snapshot|, i requires 0 <= i < |snapshot| =>
      snapshot[i].(index := Some(EntryFor(snapshot[i], generation, model))))
  }

  /** Gives every capability of a snapshot its index entry. */
  method IndexCapabilities(snapshot: seq<Capability>, generation: int, model: string)
    returns (indexed: seq<Capability>)
    ensures indexed == Indexed(snapshot, generation, model)
  {
    indexed := [];
    for i := 0 to |snapshot|
      invariant indexed == Indexed(snapshot[..i], generation, model)
    {
      var entry := IndexEntry(snapshot[i].id, generation, snapshot[i].contentDigest, model, POLICY, TEMPLATE);
      indexed := indexed + [snapshot[i].(index := Some(entry))];
    }
    assert snapshot[..|snapshot|] == snapshot;
  }

  /** The entry, if it belongs to this very capability at its current generation. */
  function ReadIndex(c: Capability, model: string): Option<IndexEntry> {
    if c.index.Some? && c.index.value.capabilityId == c.id
       && c.generation == Some(c.index.value.generation)
       && c.index.value.contentDigest == c.contentDigest
       && c.index.value.model == model && c.index.value.policy == POLICY
       && c.index.value.template == TEMPLATE
    then c.index else None
  }

  /** An entry is read exactly when it was built for this capability as it is now, with this model
      and the current policy and template. */
  lemma ReadIndexIff(c: Capability, model: string, entry: IndexEntry)
    ensures ReadIndex(c, model) == Some(entry) <==>
      && c.index == Some(entry) && c.generation.Some?
      && entry == IndexEntry(c.id, c.generation.value, c.contentDigest, model,
                             "capability-hybrid-rrf-v1", "capability-summary-v1")
  {
  }

  /** The service refuses capabilities of another server before it touches the store. */
  predicate Belongs(server: ServerId, snapshot: seq<Capability>) {
    forall i :: 0 <= i < |snapshot| ==> snapshot[i].server == server
  }

  function Published(
    st: Store, server: ServerId, snapshot: seq<Capability>, lease: Lease, model: Option<string>,
    digest: string, now: int): Store
  {
    if server !in st.servers || !Belongs(server, snapshot) then st
    else
      var indexed := if model.Some? then Indexed(snapshot, lease.previousGeneration + 1, model.value) else snapshot;
      Replaced(st, server, indexed, lease, digest, now)
  }

  // ---------------------------------------------------------------- the state machine

  /** `models` records which model indexed each server's committed snapshot. */
  datatype State = State(store: Store, models: map<ServerId, Option<string>>)

  datatype Event =
    | Upsert(server: Server, allowRollback: bool)
    | Claim(id: ServerId, owner: string, now: int, ttl: int)
    | Release(lease: Lease)
    | Publish(id: ServerId, snapshot: seq<Capability>, lease: Lease, model: Option<string>, digest: string, now: int)
    | Remove(id: ServerId)

  predicate IsCommit(st: Store, e: Event) {
    && e.Publish? && e.id in st.servers && Belongs(e.id, e.snapshot)
    && Commits(st, e.id, e.lease, e.digest, e.now)
  }

  function NextStore(st: Store, e: Event): Store {
    match e
    case Upsert(server, allowRollback) => Upserted(st, server, allowRollback)
    case Claim(id, owner, now, ttl) => Claimed(st, id, owner, now, ttl)
    case Release(lease) => Released(st, lease)
    case Publish(id, snapshot, lease, model, digest, now) => Published(st, id, snapshot, lease, model, digest, now)
    case Remove(id) => Removed(st, id)
  }

  function Next(s: State, e: Event): State {
    State(NextStore(s.store, e),
          if IsCommit(s.store, e) then s.models[e.id := e.model] else s.models)
  }

  ghost predicate Run(states: seq<State>, events: seq<Event>) {
    && |states| == |events| + 1 && states[0] == State(EMPTY, map[])
    && forall i :: 0 <= i < |events| ==> states[i + 1] == Next(states[i], events[i])
  }

  // ---------------------------------------------------------------- invariants

  /** Every capability carries the current generation of its server, and can be read back with
      the model that indexed the snapshot. */
  ghost predicate Stamped(s: State) {
    forall k :: k in s.store.capabilities ==> StampedAt(s, s.store.capabilities[k], k)
  }

  ghost predicate StampedAt(s: State, c: Capability, k: string) {
    && c.id == k && c.server in s.store.generations && c.generation == Some(s.store.generations[c.server])
    && c.server in s.models
    && (s.models[c.server].Some? ==> ReadIndex(c, s.models[c.server].value).Some?)
  }

  ghost predicate LeasesNamed(st: Store) {
    forall k :: k in st.leases ==> st.leases[k].server == k
  }

  lemma {:induction false} AddedAre(capabilities: Capabilities, snapshot: seq<Capability>, generation: int, k: string)
    requires k in Added(capabilities, snapshot, generation)
    ensures var c := Added(capabilities, snapshot, generation)[k];
            (k in capabilities && c == capabilities[k])
            || exists i :: 0 <= i < |snapshot| && snapshot[i].id == k && c == Stamp(snapshot[i], generation)
  {
    if snapshot != [] {
      var n := |snapshot| - 1;
      if k == snapshot[n].id {
        assert Added(capabilities, snapshot, generation)[k] == Stamp(snapshot[n], generation);
      } else {
        AddedAre(capabilities, snapshot[..n], generation, k);
      }
    }
  }

  lemma CommitStamps(s: State, e: Event)
    requires Stamped(s) && IsCommit(s.store, e)
    ensures Stamped(Next(s, e))
  {
    hide Commits;
    var s', generation := Next(s, e), e.lease.previousGeneration + 1;
    var kept := OfOthers(s.store.capabilities, e.id);
    var snapshot := if e.model.Some? then Indexed(e.snapshot, generation, e.model.value) else e.snapshot;
    assert s'.store.capabilities == Added(kept, snapshot, generation);
    forall k | k in s'.store.capabilities ensures StampedAt(s', s'.store.capabilities[k], k) {
      AddedAre(kept, snapshot, generation, k);
      if k in kept { assert StampedAt(s, s.store.capabilities[k], k); }
    }
  }

  /** Entry `i` of the snapshot is the last with its id. */
  predicate LastWithId(snapshot: seq<Capability>, i: nat) {
    i < |snapshot| && forall j :: i < j < |snapshot| ==> snapshot[j].id != snapshot[i].id
  }

  lemma {:induction false} AddedSpares(capabilities: Capabilities, snapshot: seq<Capability>,
                                           generation: int, k: string)
    requires forall i :: 0 <= i < |snapshot| ==> snapshot[i].id != k
    ensures Get(Added(capabilities, snapshot, generation), k) == Get(capabilities, k)
  {
    if snapshot != [] {
      AddedSpares(capabilities, snapshot[..|snapshot| - 1], generation, k);
    }
  }

  /** Adding a snapshot gives each of its ids the last entry with that id. */
  lemma {:induction false} AddedPuts(capabilities: Capabilities, snapshot: seq<Capability>, generation: int, i: nat)
    requires LastWithId(snapshot, i)
    ensures Get(Added(capabilities, snapshot, generation), snapshot[i].id) == Some(Stamp(snapshot[i], generation))
  {
    var n := |snapshot| - 1;
    if i < n {
      assert snapshot[..n][i] == snapshot[i] && snapshot[n].id != snapshot[i].id;
      AddedPuts(capabilities, snapshot[..n], generation, i);
    }
  }

  /** Every id of a snapshot has a last entry. */
  lemma {:induction false} LastEntry(snapshot: seq<Capability>, k: string, i: nat) returns (last: nat)
    requires i < |snapshot| && snapshot[i].id == k
    ensures LastWithId(snapshot, last) && snapshot[last].id == k
    decreases |snapshot| - i
  {
    last := i;
    if j :| i < j < |snapshot| && snapshot[j].id == k {
      last := LastEntry(snapshot, k, j);
    }
  }

  /** What a snapshot entry looks like once committed. */
  function CommittedAs(c: Capability, generation: int, model: Option<string>): Capability {
    c.(generation := Some(generation),
       index := if model.None? then c.index
                else Some(IndexEntry(c.id, generation, c.contentDigest, model.value, POLICY, TEMPLATE)))
  }

  /** The entries a publish hands to the store. */
  function Handed(e: Event): (snapshot: seq<Capability>)
    requires e.Publish?
    ensures |snapshot| == |e.snapshot| && forall i :: 0 <= i < |snapshot| ==> snapshot[i].id == e.snapshot[i].id
  {
    if e.model.Some? then Indexed(e.snapshot, e.lease.previousGeneration + 1, e.model.value) else e.snapshot
  }

  lemma CommitAdds(s: State, e: Event)
    requires IsCommit(s.store, e)
    ensures var generation := Generation(s.store, e.id) + 1;
            && generation == e.lease.previousGeneration + 1 == Generation(Next(s, e).store, e.id)
            && Next(s, e).store.capabilities ==
                 Added(OfOthers(s.store.capabilities, e.id), Handed(e), generation)
  {
    hide Added, Indexed, OfOthers;
  }

  /** Capabilities that the snapshot does not name stay if they are of another server. */
  lemma CommitSpares(s: State, e: Event, k: string)
    requires IsCommit(s.store, e) && forall i :: 0 <= i < |e.snapshot| ==> e.snapshot[i].id != k
    ensures var before, after := s.store.capabilities, Next(s, e).store.capabilities;
            Get(after, k) == if k in before && before[k].server != e.id then Some(before[k]) else None
  {
    hide Commits, Next;
    CommitAdds(s, e);
    AddedSpares(OfOthers(s.store.capabilities, e.id), Handed(e), Generation(s.store, e.id) + 1, k);
  }

  /** The last entry of each id is in the catalog afterwards, stamped and indexed. */
  lemma CommitPuts(s: State, e: Event, i: nat)
    requires IsCommit(s.store, e) && LastWithId(e.snapshot, i)
    ensures Get(Next(s, e).store.capabilities, e.snapshot[i].id) ==
            Some(CommittedAs(e.snapshot[i], Generation(s.store, e.id) + 1, e.model))
  {
    hide Commits, Next, Added;
    CommitAdds(s, e);
    assert LastWithId(Handed(e), i);
    AddedPuts(OfOthers(s.store.capabilities, e.id), Handed(e), Generation(s.store, e.id) + 1, i);
  }

  /** So what the catalog holds of the server is exactly the committed snapshot. */
  lemma CommitHolds(s: State, e: Event, k: string)
    requires IsCommit(s.store, e)
    ensures var after := Next(s, e).store.capabilities;
            k in after && after[k].server == e.id <==> exists i :: 0 <= i < |e.snapshot| && e.snapshot[i].id == k
  {
    hide Next, Commits;
    if i :| 0 <= i < |e.snapshot| && e.snapshot[i].id == k {
      var last := LastEntry(e.snapshot, k, i);
      CommitPuts(s, e, last);
    } else {
      CommitSpares(s, e, k);
    }
  }

  lemma StepStamped(s: State, e: Event)
    requires Stamped(s)
    ensures Stamped(Next(s, e))
  {
    hide Added, Indexed, ReadIndex, Commits;
    if IsCommit(s.store, e) {
      CommitStamps(s, e);
    }
  }

  lemma {:induction false} RunStamped(states: seq<State>, events: seq<Event>, i: nat)
    requires Run(states, events) && i < |states|
    ensures Stamped(states[i]) && LeasesNamed(states[i].store)
  {
    hide Added, Indexed, ReadIndex, Commits;
    if i > 0 {
      RunStamped(states, events, i - 1);
      StepStamped(states[i - 1], events[i - 1]);
    }
  }

  // ---------------------------------------------------------------- whole runs

  /** In every state all capabilities of a server carry one generation, the server's current
      one, and every capability of an indexed snapshot passes its reader's check. */
  lemma OneGenerationPerServer(states: seq<State>, events: seq<Event>, i: nat, k: string)
    requires Run(states, events) && i < |states| && k in states[i].store.capabilities
    ensures var s, c := states[i], states[i].store.capabilities[k];
            && c.generation == Some(Generation(s.store, c.server))
            && c.server in s.models
            && (s.models[c.server].Some? ==>
                  ReadIndex(c, s.models[c.server].value) == c.index && c.index.Some?
                  && c.index.value.generation == Generation(s.store, c.server))
  {
    hide NextStore;
    RunStamped(states, events, i);
    assert StampedAt(states[i], states[i].store.capabilities[k], k);
  }

  /** The capability with this id, if it is the server's. */
  function HeldBy(st: Store, id: ServerId, k: string): Option<Capability> {
    if k in st.capabilities && st.capabilities[k].server == id then Some(st.capabilities[k]) else None
  }

  /** The step commits a snapshot of the server, removes it, or commits a snapshot of another
      server that takes this capability id over. */
  predicate Touches(s: State, e: Event, id: ServerId, k: string) {
    || e == Remove(id)
    || (IsCommit(s.store, e) && (e.id == id || exists i :: 0 <= i < |e.snapshot| && e.snapshot[i].id == k))
  }

  lemma UntouchedStays(s: State, e: Event, id: ServerId, k: string)
    requires !Touches(s, e, id, k)
    ensures HeldBy(Next(s, e).store, id, k) == HeldBy(s.store, id, k)
  {
    hide Added, Indexed, Commits;
    if IsCommit(s.store, e) {
      hide Next;
      CommitSpares(s, e, k);
    }
  }

  /** What a commit leaves of one capability id of its server. */
  ghost predicate HeldFrom(e: Event, generation: int, k: string, held: Option<Capability>)
    requires e.Publish?
  {
    && (held.Some? <==> exists n :: 0 <= n < |e.snapshot| && e.snapshot[n].id == k)
    && forall n: nat :: LastWithId(e.snapshot, n) && e.snapshot[n].id == k ==>
         held == Some(CommittedAs(e.snapshot[n], generation, e.model))
  }

  lemma CommitHeld(s: State, e: Event, k: string)
    requires IsCommit(s.store, e)
    ensures HeldFrom(e, Generation(s.store, e.id) + 1, k, HeldBy(Next(s, e).store, e.id, k))
  {
    hide Next, Commits;
    CommitHolds(s, e, k);
    forall n: nat | LastWithId(e.snapshot, n) && e.snapshot[n].id == k
      ensures HeldBy(Next(s, e).store, e.id, k) ==
        Some(CommittedAs(e.snapshot[n], Generation(s.store, e.id) + 1, e.model))
    {
      CommitPuts(s, e, n);
    }
  }

  /** Between its commits the catalog holds of a server exactly its last committed snapshot. */
  lemma {:induction false} CatalogIsLastCommit(
    states: seq<State>, events: seq<Event>, i: nat, j: nat, k: string)
    requires Run(states, events) && i < j < |states| && IsCommit(states[i].store, events[i])
    requires forall n :: i < n < j ==> !Touches(states[n], events[n], events[i].id, k)
    ensures HeldFrom(events[i], Generation(states[i].store, events[i].id) + 1, k,
                     HeldBy(states[j].store, events[i].id, k))
    decreases j
  {
    hide Next, Commits, HeldFrom, HeldBy, Generation;
    if i + 1 < j {
      CatalogIsLastCommit(states, events, i, j - 1, k);
      UntouchedStays(states[j - 1], events[j - 1], events[i].id, k);
    } else {
      CommitHeld(states[i], events[i], k);
    }
  }

  /** The snapshots of `id` committed by the steps from `i` up to `j`. */
  ghost function CommitCount(states: seq<State>, events: seq<Event>, id: ServerId, i: nat, j: nat): nat
    requires |states| == |events| + 1 && i <= j < |states|
    decreases j
  {
    if i == j then 0
    else CommitCount(states, events, id, i, j - 1)
         + (if IsCommit(states[j - 1].store, events[j - 1]) && events[j - 1].id == id then 1 else 0)
  }

  ghost predicate NotRemoved(events: seq<Event>, id: ServerId, i: nat, j: nat)
    requires j <= |events|
  {
    forall k :: i <= k < j ==> events[k] != Remove(id)
  }

  lemma StepGeneration(s: State, e: Event, id: ServerId)
    requires e != Remove(id)
    ensures Generation(Next(s, e).store, id) ==
      Generation(s.store, id) + (if IsCommit(s.store, e) && e.id == id then 1 else 0)
  {
    hide Added, Indexed, OfOthers;
  }

  /** Generations rise by exactly one per committed snapshot. */
  lemma {:induction false} GenerationCountsCommits(
    states: seq<State>, events: seq<Event>, id: ServerId, i: nat, j: nat)
    requires Run(states, events) && i <= j < |states| && NotRemoved(events, id, i, j)
    ensures Generation(states[j].store, id)
         == Generation(states[i].store, id) + CommitCount(states, events, id, i, j)
    decreases j
  {
    hide Generation, IsCommit, Next;
    if i < j {
      GenerationCountsCommits(states, events, id, i, j - 1);
      StepGeneration(states[j - 1], events[j - 1], id);
    }
  }

  lemma {:induction false} CountIncludes(
    states: seq<State>, events: seq<Event>, id: ServerId, i: nat, k: nat, j: nat)
    requires |states| == |events| + 1 && i <= k < j < |states|
    requires IsCommit(states[k].store, events[k]) && events[k].id == id
    ensures CommitCount(states, events, id, i, j) >= 1
    decreases j
  {
    hide IsCommit;
    if k < j - 1 {
      CountIncludes(states, events, id, i, k, j - 1);
    }
  }

  ghost predicate Grants(st: Store, e: Event, lease: Lease) {
    e.Claim? && Claimable(st, e.id, e.now) && NewLease(st, e.id, e.owner, e.now, e.ttl) == lease
  }

  /** A lease that was forgotten is stored again only by granting it again. */
  lemma {:induction false} GrantedAgain(states: seq<State>, events: seq<Event>, lease: Lease, m: nat, j: nat)
    requires Run(states, events) && m <= j < |states|
    requires lease.server !in states[m].store.leases
    requires lease.server in states[j].store.leases && states[j].store.leases[lease.server] == lease
    ensures exists k :: m <= k < j && Grants(states[k].store, events[k], lease)
    decreases j
  {
    hide Added, Indexed, OfOthers;
    if j > m {
      var st, e := states[j - 1].store, events[j - 1];
      if lease.server in st.leases && st.leases[lease.server] == lease {
        GrantedAgain(states, events, lease, m, j - 1);
      } else {
        assert Grants(st, e, lease);
      }
    }
  }

  lemma RemovedMeansGrantedAgain(states: seq<State>, events: seq<Event>, lease: Lease, i: nat, j: nat)
    requires Run(states, events) && i < j < |states| && !NotRemoved(events, lease.server, i + 1, j)
    requires lease.server in states[j].store.leases && states[j].store.leases[lease.server] == lease
    ensures exists k :: i < k < j && Grants(states[k].store, events[k], lease)
  {
    hide Grants;
    var m :| i + 1 <= m < j && events[m] == Remove(lease.server);
    assert states[m + 1] == Next(states[m], events[m]);
    GrantedAgain(states, events, lease, m + 1, j);
  }

  /** A commit succeeds only if no snapshot of the server was committed since its lease was granted. */
  lemma CommitMeansUndisturbed(
    states: seq<State>, events: seq<Event>, lease: Lease, i: nat, k: nat, j: nat)
    requires Run(states, events) && i < k < j < |events|
    requires Grants(states[i].store, events[i], lease)
    requires forall m :: i < m < j ==> !Grants(states[m].store, events[m], lease)
    requires IsCommit(states[j].store, events[j]) && events[j].lease == lease && events[j].id == lease.server
    ensures !(IsCommit(states[k].store, events[k]) && events[k].id == lease.server)
  {
    hide Next;
    if !NotRemoved(events, lease.server, i + 1, j) {
      RemovedMeansGrantedAgain(states, events, lease, i, j);
    }
    GenerationCountsCommits(states, events, lease.server, i, j);
    if IsCommit(states[k].store, events[k]) && events[k].id == lease.server {
      CountIncludes(states, events, lease.server, i, k, j);
    }
  }

  /** A granted lease commits at most one snapshot: between two commits under equal leases the
      lease was granted anew. */
  lemma LeaseCommitsOnce(states: seq<State>, events: seq<Event>, lease: Lease, j: nat, k: nat)
    requires Run(states, events) && j < k < |events|
    requires IsCommit(states[j].store, events[j]) && events[j].lease == lease && events[j].id == lease.server
    requires IsCommit(states[k].store, events[k]) && events[k].lease == lease && events[k].id == lease.server
    ensures exists m :: j < m < k && Grants(states[m].store, events[m], lease)
  {
    hide Next, Grants;
    if NotRemoved(events, lease.server, j + 1, k) {
      GenerationCountsCommits(states, events, lease.server, j, k);
      CountIncludes(states, events, lease.server, j, j, k);
    } else {
      RemovedMeansGrantedAgain(states, events, lease, j, k);
    }
  }
}
