/** Servers, reconcile leases and snapshot digests of the capability catalog over whole runs: who
may commit, and what a commit under a lease rules out. */
module CatalogLeases {
  import opened Wrappers
  import opened CapabilityCatalog

  // ---------------------------------------------------------------- servers

  /** The upsert is stored: it may roll back, or one of the two revisions is missing, or the new one
      is not lower. */
  predicate Stores(st: Store, e: Event, id: ServerId) {
    && e.Upsert? && e.server.id == id
    && (|| e.allowRollback || id !in st.servers
        || st.servers[id].configRevision.None? || e.server.configRevision.None?
        || st.servers[id].configRevision.value <= e.server.configRevision.value)
  }

  lemma ServerStep(s: State, e: Event, id: ServerId)
    ensures Get(Next(s, e).store.servers, id) ==
      if e == Remove(id) then None
      else if Stores(s.store, e, id) then Some(e.server)
      else Get(s.store.servers, id)
  {
    hide Added, Indexed, OfOthers, Commits;
  }

  /** Step `i` stored the definition and no later step before `j` stored another or removed it. */
  ghost predicate DefinedSince(states: seq<State>, events: seq<Event>, i: nat, j: nat, id: ServerId)
    requires |states| == |events| + 1 && j < |states|
  {
    && i < j && Stores(states[i].store, events[i], id)
    && forall n :: i < n < j ==> events[n] != Remove(id) && !Stores(states[n].store, events[n], id)
  }

  /** The catalog's definition of a server is the last one it stored. */
  lemma {:induction false} ServerIsLastStored(
    states: seq<State>, events: seq<Event>, i: nat, j: nat, id: ServerId)
    requires Run(states, events) && j < |states| && DefinedSince(states, events, i, j, id)
    ensures Get(states[j].store.servers, id) == Some(events[i].server)
    decreases j
  {
    hide Next, Stores;
    ServerStep(states[j - 1], events[j - 1], id);
    if i < j - 1 {
      assert DefinedSince(states, events, i, j - 1, id);
      ServerIsLastStored(states, events, i, j - 1, id);
    } else {
      StoresUpsert(states[i].store, events[i], id);
    }
  }

  lemma StoresUpsert(st: Store, e: Event, id: ServerId)
    requires Stores(st, e, id)
    ensures e.Upsert? && e != Remove(id)
  {
  }

  /** The event removes the server, forgets its revision, or rolls it back. */
  predicate Lowers(st: Store, e: Event, id: ServerId) {
    || e == Remove(id)
    || (e.Upsert? && e.server.id == id
        && (|| e.server.configRevision.None?
            || (e.allowRollback && id in st.servers && st.servers[id].configRevision.Some?
                && e.server.configRevision.value < st.servers[id].configRevision.value)))
  }

  /** The server is known at this revision or a later one. */
  predicate AtLeast(st: Store, id: ServerId, revision: int) {
    && id in st.servers && st.servers[id].configRevision.Some?
    && revision <= st.servers[id].configRevision.value
  }

  /** A step keeps the revision of a server, or raises it, exactly when it is none of these. */
  lemma RevisionKeptIff(s: State, e: Event, id: ServerId)
    requires id in s.store.servers && s.store.servers[id].configRevision.Some?
    ensures AtLeast(Next(s, e).store, id, s.store.servers[id].configRevision.value) <==> !Lowers(s.store, e, id)
  {
    hide Next;
    ServerStep(s, e, id);
  }

  /** So without such a step the revision never falls. */
  lemma {:induction false} RevisionNeverFalls(
    states: seq<State>, events: seq<Event>, id: ServerId, revision: int, i: nat, j: nat)
    requires Run(states, events) && i <= j < |states| && AtLeast(states[i].store, id, revision)
    requires forall n :: i <= n < j ==> !Lowers(states[n].store, events[n], id)
    ensures AtLeast(states[j].store, id, revision)
    decreases j
  {
    hide Next, Lowers;
    if i < j {
      RevisionNeverFalls(states, events, id, revision, i, j - 1);
      RevisionKeptIff(states[j - 1], events[j - 1], id);
    }
  }

  /** With one it can, even if none may roll back: an upsert without a revision forgets it. */
  lemma RevisionCanFall(id: ServerId) returns (states: seq<State>, events: seq<Event>)
    ensures Run(states, events) && |events| == 3
    ensures forall n :: 0 <= n < 3 ==> events[n].Upsert? && events[n].server.id == id && !events[n].allowRollback
    ensures id in states[1].store.servers && id in states[3].store.servers
    ensures states[1].store.servers[id].configRevision == Some(2)
    ensures states[3].store.servers[id].configRevision == Some(1)
  {
    var e0 := Upsert(Server(id, Some(2), true, true), false);
    var e1 := Upsert(Server(id, None, true, true), false);
    var e2 := Upsert(Server(id, Some(1), true, true), false);
    var s0 := State(EMPTY, map[]);
    var s1 := Next(s0, e0);
    var s2 := Next(s1, e1);
    states, events := [s0, s1, s2, Next(s2, e2)], [e0, e1, e2];
  }

  // ---------------------------------------------------------------- leases

  /** The claim is granted: the server is known and no lease on it still runs. */
  predicate Granted(st: Store, e: Event, id: ServerId) {
    && e.Claim? && e.id == id && id in st.servers
    && (id in st.leases ==> st.leases[id].expiresAt <= e.now)
  }

  /** The lease a granted claim hands out. */
  function GrantedLease(st: Store, e: Event, id: ServerId): Lease
    requires Granted(st, e, id)
  {
    var server := st.servers[id];
    Lease(id, e.owner, if id in st.leases then st.leases[id].token + 1 else 1,
          if server.configRevision.Some? then server.configRevision.value else 0,
          if id in st.generations then st.generations[id] else 0, e.now + e.ttl)
  }

  lemma LeaseStep(s: State, e: Event, id: ServerId)
    ensures Get(Next(s, e).store.leases, id) ==
      if Granted(s.store, e, id) then Some(GrantedLease(s.store, e, id))
      else if e == Remove(id) then None
      else if e.Release? && e.lease.server == id && Get(s.store.leases, id) == Some(e.lease) then None
      else Get(s.store.leases, id)
  {
    hide Added, Indexed, OfOthers, Commits;
  }

  /** A lease of the server is released, or the server is removed. */
  predicate LetsGo(e: Event, id: ServerId) {
    e == Remove(id) || (e.Release? && e.lease.server == id)
  }

  /** While nothing lets go of a lease it stays, unless a newer grant replaces it, and the token of
      the stored lease tells how many grants there were. */
  lemma {:induction false} TokensGrow(states: seq<State>, events: seq<Event>, id: ServerId, i: nat, j: nat)
    requires Run(states, events) && i <= j < |states| && id in states[i].store.leases
    requires forall n :: i <= n < j ==> !LetsGo(events[n], id)
    ensures id in states[j].store.leases
    ensures states[i].store.leases[id].token <= states[j].store.leases[id].token
    ensures (forall n :: i <= n < j ==> !Granted(states[n].store, events[n], id)) ==>
      states[j].store.leases[id] == states[i].store.leases[id]
    ensures (exists n :: i <= n < j && Granted(states[n].store, events[n], id)) ==>
      states[i].store.leases[id].token < states[j].store.leases[id].token
    decreases j
  {
    hide Next, Granted;
    if i < j {
      TokensGrow(states, events, id, i, j - 1);
      LeaseStep(states[j - 1], events[j - 1], id);
      if Granted(states[j - 1].store, events[j - 1], id) {
        TokenOfGrant(states[j - 1].store, events[j - 1], id);
      }
    }
  }

  lemma TokenOfGrant(st: Store, e: Event, id: ServerId)
    requires Granted(st, e, id) && id in st.leases
    ensures GrantedLease(st, e, id).token == st.leases[id].token + 1
  {
  }

  /** Two grants of a server do not overlap: unless something let go of the first lease, it had run
      out when the second was granted. */
  lemma LeasesNeverOverlap(states: seq<State>, events: seq<Event>, id: ServerId, i: nat, k: nat)
    requires Run(states, events) && i < k < |events|
    requires Granted(states[i].store, events[i], id) && Granted(states[k].store, events[k], id)
    requires forall n :: i < n < k ==> !LetsGo(events[n], id)
    requires forall n :: i < n < k ==> !Granted(states[n].store, events[n], id)
    ensures GrantedLease(states[i].store, events[i], id).expiresAt <= events[k].now
  {
    hide Next;
    LeaseStep(states[i], events[i], id);
    TokensGrow(states, events, id, i + 1, k);
  }

  // ---------------------------------------------------------------- commits under a lease

  /** The lease is stored for the server and still runs, and neither the configuration nor the
      generation moved since it was granted. */
  predicate HoldsLease(st: Store, id: ServerId, lease: Lease, now: int) {
    && id in st.leases && st.leases[id] == lease && now < lease.expiresAt
    && id in st.servers
    && lease.configRevision ==
         (if st.servers[id].configRevision.Some? then st.servers[id].configRevision.value else 0)
    && lease.previousGeneration == (if id in st.generations then st.generations[id] else 0)
  }

  /** A snapshot is committed exactly by the holder of the lease and only if it differs from the
      committed one; its holder is told the generation, and anyone else that it is stale. */
  lemma CommitAnswerIs(st: Store, id: ServerId, lease: Lease, digest: string, now: int)
    ensures CommitAnswer(st, id, lease, digest, now) ==
      if !HoldsLease(st, id, lease, now) then Stale
      else if Get(st.digests, id) == Some(digest) then Unchanged(lease.previousGeneration)
      else Committed(lease.previousGeneration + 1)
  {
  }

  lemma CommitIff(s: State, e: Event)
    requires e.Publish?
    ensures IsCommit(s.store, e) <==>
      && HoldsLease(s.store, e.id, e.lease, e.now) && Get(s.store.digests, e.id) != Some(e.digest)
      && forall i :: 0 <= i < |e.snapshot| ==> e.snapshot[i].server == e.id
  {
  }

  lemma DigestStep(s: State, e: Event, id: ServerId)
    ensures Get(Next(s, e).store.digests, id) ==
      if e == Remove(id) then None
      else if e.Publish? && e.id == id && IsCommit(s.store, e) then Some(e.digest)
      else Get(s.store.digests, id)
  {
    hide Added, Indexed, OfOthers, Commits;
  }

  lemma GenerationStep(s: State, e: Event, id: ServerId)
    ensures Get(Next(s, e).store.generations, id) ==
      if e == Remove(id) then None
      else if e.Publish? && e.id == id && IsCommit(s.store, e) then Some(e.lease.previousGeneration + 1)
      else Get(s.store.generations, id)
  {
    hide Added, Indexed, OfOthers, Commits;
  }

  /** Under a lease that was granted at `i` a snapshot is committed at `j` only before it expires, and
      only if in between no other lease was granted and nothing let go of it. */
  lemma CommitMeansHeld(states: seq<State>, events: seq<Event>, i: nat, k: nat, j: nat, id: ServerId)
    requires Run(states, events) && i < k < j < |events| && Granted(states[i].store, events[i], id)
    requires IsCommit(states[j].store, events[j]) && events[j].id == id
    requires events[j].lease == GrantedLease(states[i].store, events[i], id)
    requires forall n :: i < n < j ==>
      !(Granted(states[n].store, events[n], id) && GrantedLease(states[n].store, events[n], id) == events[j].lease)
    ensures events[j].now < events[i].now + events[i].ttl
    ensures Get(states[k].store.leases, id) == Some(events[j].lease)
    ensures !Granted(states[k].store, events[k], id) && events[k] != Remove(id) && events[k] != Release(events[j].lease)
  {
    hide Next, Granted;
    CommitIff(states[j], events[j]);
    LeaseNeverReturns(states, events, id, events[j].lease, k, j);
    LeaseNeverReturns(states, events, id, events[j].lease, k + 1, j);
    LeaseStep(states[k], events[k], id);
    GrantExpires(states[i].store, events[i], id);
  }

  lemma GrantExpires(st: Store, e: Event, id: ServerId)
    requires Granted(st, e, id)
    ensures e.Claim? && GrantedLease(st, e, id).expiresAt == e.now + e.ttl
  {
  }

  /** A lease that is stored at `j` was stored since its last grant. */
  lemma {:induction false} LeaseNeverReturns(
    states: seq<State>, events: seq<Event>, id: ServerId, lease: Lease, k: nat, j: nat)
    requires Run(states, events) && k <= j < |states| && Get(states[j].store.leases, id) == Some(lease)
    requires forall n :: k <= n < j ==>
      !(Granted(states[n].store, events[n], id) && GrantedLease(states[n].store, events[n], id) == lease)
    ensures Get(states[k].store.leases, id) == Some(lease)
    decreases j
  {
    hide Next, Granted;
    if k < j {
      LeaseStep(states[j - 1], events[j - 1], id);
      LeaseNeverReturns(states, events, id, lease, k, j - 1);
    }
  }
}
