/** Publishing, management, retention and cleanup of Skills over whole runs: what every step of
every interleaving keeps, the pin that never goes down, and commands that act once. */
module SkillPublicationRuns {
  import opened Wrappers
  import opened VersionOrder
  import opened SkillLifecycle
  import opened SkillPublication

  // ---------------------------------------------------------------- the state machine

  type History = map<SkillId, seq<Installation>>

  /** `history` keeps every record an installation ever had, oldest first. */
  datatype State = State(store: Store, history: History)

  predicate WasStored(history: History, r: Installation) {
    r.skill in history && r in history[r.skill]
  }

  function Remembered(history: History, now: Installations): History {
    map k | k in now ::
      var past := if k in history then history[k] else [];
      if past != [] && past[|past| - 1] == now[k] then past else past + [now[k]]
  }

  datatype Event =
    | Publish(request: Request, seen: Reads)
    | ChangeInstallation(
        read: Installation, status: InstallationStatus, key: CommandKey, requestDigest: string, expected: int)
    | Drain(drained: Installation)
    | Transition(from: Publication, to: PublicationStatus, action: Option<RevocationAction>, expected: int)
    | Restore(key: CommandKey, requestDigest: string, expected: int, updated: Publication)
    | Retain(package: Package, expected: int)
    | ClaimUpgrade(state: Upgrade, token: nat, now: int, until: int)
    | RenewUpgrade(state: Upgrade, token: nat, now: int, until: int)
    | SetPhase(state: Upgrade, token: nat, phase: Phase, now: int)
    | Remove(state: Upgrade, token: nat, package: Package, now: int)

  /** Management moves publications out of use; only publishing stages or activates them. The
      source writes Revoked; the other states, Retired among them, only add runs. Stored
      publications have a revision of at least one. */
  predicate Enabled(s: State, e: Event) {
    match e
    case Publish(q, seen) => ReadsFit(q, seen)
    case ChangeInstallation(read, _, _, _, _) => WasStored(s.history, read)
    case Drain(read) => WasStored(s.history, read)
    case Transition(from, to, _, _) => from.revision >= 1 && to != Staged && to != Active
    case _ => true
  }

  function Moved(read: Installation, status: InstallationStatus): Installation {
    if read.status == status then read else read.(status := status, revision := read.revision + 1)
  }

  function AfterDrain(st: Store, read: Installation): Store {
    var r := read.(status := Uninstalled, revision := read.revision + 1);
    if InstallationError(st.installations, r, read.revision).Some? then st
    else st.(installations := st.installations[r.skill := r])
  }

  function AfterTransition(
    st: Store, from: Publication, to: PublicationStatus, action: Option<RevocationAction>, expected: int): Store
  {
    var r := from.(status := to, action := action, revision := from.revision + 1);
    if PublicationError(st.packages, st.publications, r, expected).Some? then st
    else st.(publications := st.publications[r.id := r])
  }

  function AfterRequest(st: Store, q: Request, seen: Reads): Store {
    var built := CommitNow(st, q, seen);
    if built.Err? then st else AfterPublish(st, built.value)
  }

  function NextStore(st: Store, e: Event): Store {
    match e
    case Publish(q, seen) => AfterRequest(st, q, seen)
    case ChangeInstallation(read, status, key, requestDigest, expected) =>
      AfterInstallationChange(st, key, requestDigest, expected, Moved(read, status))
    case Drain(read) => AfterDrain(st, read)
    case Transition(from, to, action, expected) => AfterTransition(st, from, to, action, expected)
    case Restore(key, requestDigest, expected, updated) =>
      AfterRestore(st, key, requestDigest, expected, updated)
    case Retain(package, expected) =>
      if RetentionError(st, package, expected).Some? then st else WithRetention(st, package)
    case ClaimUpgrade(state, token, now, until) =>
      if Claimable(st, state, now) then WithClaim(st, state, token, until) else st
    case RenewUpgrade(state, token, now, until) =>
      if OwnsUpgrade(st, state, token, now) then WithClaim(st, state, token, until) else st
    case SetPhase(state, token, phase, now) =>
      if OwnsUpgrade(st, state, token, now) then WithPhase(st, state, phase) else st
    case Remove(state, token, package, now) =>
      if Removable(st, state, token, package, now) then Removed(st, package) else st
  }

  function Next(s: State, e: Event): State {
    var store := NextStore(s.store, e);
    State(store, Remembered(s.history, store.installations))
  }

  predicate Initial(s: State) {
    s == State(EMPTY, map[])
  }

  // ---------------------------------------------------------------- invariants

  /** An installed Skill is pinned to a published version with exactly the pinned digest. */
  ghost predicate PinBacked(st: Store) {
    forall k :: k in st.installations ==> PinnedAt(st, k)
  }

  ghost predicate PinnedAt(st: Store, k: SkillId)
    requires k in st.installations
  {
    var r := st.installations[k];
    var id := VersionId(k, r.pinned.version);
    && r.skill == k && r.revision >= 1
    && id in st.publications && st.publications[id].digest == r.pinned
    && st.publications[id].status != Staged
  }

  lemma PinBackedAt(st: Store, k: SkillId)
    requires PinBacked(st) && k in st.installations
    ensures PinnedAt(st, k)
  {
  }

  lemma PinBackedFrom(st: Store)
    requires forall k :: k in st.installations ==> PinnedAt(st, k)
    ensures PinBacked(st)
  {
  }

  lemma BuildsNow(st: Store, q: Request, seen: Reads)
    requires PinBacked(st) && ReadsFit(q, seen) && CommitNow(st, q, seen).Ok?
    ensures WellBuilt(CommitNow(st, q, seen).value)
    ensures SkillOf(CommitNow(st, q, seen).value.package) == SkillFor(q)
  {
    hide PinBacked, BuildCommit, WellBuilt, ReadsFit;
    if SkillFor(q) in st.installations {
      PinBackedAt(st, SkillFor(q));
    }
    BuildsWell(q, seen, Get(st.installations, SkillFor(q)));
  }

  /** The records of an installation carry the revisions 1, 2, 3 and so on, and the last of
      them is the stored one. */
  ghost predicate Chained(installations: Installations, history: History) {
    && history.Keys == installations.Keys
    && (forall k :: k in history ==> ChainOf(history[k], k, installations[k]))
  }

  ghost predicate ChainOf(past: seq<Installation>, k: SkillId, now: Installation) {
    && past != [] && past[|past| - 1] == now
    && forall i :: 0 <= i < |past| ==> past[i].skill == k && past[i].revision == i + 1
  }

  ghost predicate Inv(s: State) {
    Backed(s.store) && PinBacked(s.store) && Chained(s.store.installations, s.history)
  }

  lemma CommitBacked(st: Store, c: Commit, st': Store)
    requires Backed(st) && CommitEffect(st, c, st')
    ensures Backed(st')
  {
    hide InstallationEffect, IdOf, Backed;
    forall k ensures k in st'.packages ==> IdOf(st'.packages[k]) == k && k in st'.publications {
      BackedAt(st, k);
    }
    forall k ensures k in st'.publications ==>
      && st'.publications[k].id == k && st'.publications[k].revision >= 1
      && k in st'.packages && st'.packages[k].digest == st'.publications[k].digest
    {
      BackedAt(st, k);
    }
    BackedFrom(st');
  }

  lemma BackedFrom(st: Store)
    requires forall k :: k in st.packages ==> IdOf(st.packages[k]) == k && k in st.publications
    requires forall k :: k in st.publications ==>
      && st.publications[k].id == k && st.publications[k].revision >= 1
      && k in st.packages && st.packages[k].digest == st.publications[k].digest
    ensures Backed(st)
  {
  }

  lemma CommitPinBacked(st: Store, c: Commit, st': Store)
    requires WellBuilt(c) && PinBacked(st) && CommitEffect(st, c, st')
    ensures PinBacked(st')
  {
    hide PackageEffect, PublicationEffect, NewerPublished, PinBacked;
    forall k | k in st'.installations ensures PinnedAt(st', k) {
      if k in st.installations { PinBackedAt(st, k); }
      var stays := k in st.installations && st'.installations[k] == st.installations[k];
      if stays {
        PublicationSurvives(st.publications, c, st'.publications,
                            VersionId(k, st.installations[k].pinned.version));
      } else {
        PublishedAt(st.publications, c, c.upgrade.Some?, st'.publications);
      }
    }
    PinBackedFrom(st');
  }

  /** A commit leaves a published version published, with the same digest unless it replaces
      the purged package of that very version. */
  lemma PublicationSurvives(before: Publications, c: Commit, after: Publications, id: VersionId)
    requires PublicationEffect(before, c, c.upgrade.Some?, after)
    requires id in before && before[id].status != Staged && !(c.replacePurged && id == IdOf(c.package))
    ensures id in after && after[id].digest == before[id].digest && after[id].status != Staged
  {
    hide IdOf;
  }

  /** In one step an installation stays or moves to its next revision, and no version is
      published that is newer than a pin it moves to. */
  ghost predicate Stepped(st: Store, after: Installations) {
    && st.installations.Keys <= after.Keys
    && (forall k :: k in after ==> InstallationStepped(st, k, after[k]))
  }

  ghost predicate InstallationStepped(st: Store, k: SkillId, r: Installation) {
    && r.skill == k
    && if k in st.installations
       then
         || r == st.installations[k]
         || (r.revision == st.installations[k].revision + 1
             && (r.pinned == st.installations[k].pinned
                 || !NewerPublished(st.publications, k, r.pinned.version)))
       else r.revision == 1
  }

  ghost predicate Kept(st: Store, st': Store) {
    Backed(st') && PinBacked(st') && Stepped(st, st'.installations)
  }

  lemma UnmovedStepped(st: Store)
    requires PinBacked(st)
    ensures Stepped(st, st.installations)
  {
    hide NewerPublished;
  }

  lemma CommitStepped(st: Store, c: Commit, after: Installations)
    requires PinBacked(st) && WellBuilt(c) && InstallationEffect(st.installations, st, c, after)
    ensures Stepped(st, after)
  {
    hide NewerPublished, IdOf;
  }

  lemma PublishKept(st: Store, q: Request, seen: Reads)
    requires Backed(st) && PinBacked(st) && ReadsFit(q, seen)
    ensures Kept(st, AfterRequest(st, q, seen))
  {
    hide Backed, PinBacked, CommitNow, AfterPublish, FirstCommit, WellBuilt, ReadsFit;
    hide PackageEffect, PublicationEffect, InstallationEffect, Stepped;
    UnmovedStepped(st);
    var built, st' := CommitNow(st, q, seen), AfterRequest(st, q, seen);
    if built.Ok? {
      BuildsNow(st, q, seen);
      CommitIsAtomic(st, built.value);
      if FirstCommit(st, built.value) {
        CommitBacked(st, built.value, st');
        CommitPinBacked(st, built.value, st');
        CommitStepped(st, built.value, st'.installations);
      }
    }
  }

  /** Management writes an installation it read, so a matching revision means it read the
      current record and the pin stays. */
  lemma InstallationWritten(installations: Installations, history: History, read: Installation,
                            r: Installation, expected: int)
    requires Chained(installations, history) && WasStored(history, read)
    requires r.skill == read.skill && r.pinned == read.pinned
    requires r.revision == read.revision + 1 || r == read
    requires InstallationError(installations, r, expected).None?
    ensures read.skill in installations && read == installations[read.skill]
    ensures r.revision == read.revision + 1
  {
    assert ChainOf(history[read.skill], read.skill, installations[read.skill]);
  }

  lemma InstallationKept(st: Store, read: Installation, r: Installation, st': Store)
    requires Backed(st) && PinBacked(st)
    requires read.skill in st.installations && read == st.installations[read.skill]
    requires r.skill == read.skill && r.pinned == read.pinned && r.revision == read.revision + 1
    requires st'.installations == st.installations[r.skill := r]
    requires st'.publications == st.publications && st'.packages == st.packages
    ensures Kept(st, st')
  {
    hide NewerPublished, IdOf;
  }

  lemma SameKept(st: Store, st': Store)
    requires Backed(st) && PinBacked(st)
    requires st'.installations == st.installations
    requires st'.publications == st.publications && st'.packages == st.packages
    ensures Kept(st, st')
  {
    hide Stepped, IdOf;
    UnmovedStepped(st);
  }

  lemma ChangeKept(s: State, read: Installation, status: InstallationStatus, key: CommandKey,
                   requestDigest: string, expected: int)
    requires Inv(s) && WasStored(s.history, read)
    ensures Kept(s.store, AfterInstallationChange(s.store, key, requestDigest, expected, Moved(read, status)))
  {
    hide Backed, PinBacked, Kept, Chained, InstallationError, WasStored;
    var st, r := s.store, Moved(read, status);
    if key in st.installationCommands || InstallationError(st.installations, r, expected).Some? {
      SameKept(st, st);
    } else {
      InstallationWritten(st.installations, s.history, read, r, expected);
      InstallationKept(st, read, r, AfterInstallationChange(st, key, requestDigest, expected, r));
    }
  }

  lemma DrainKept(s: State, read: Installation)
    requires Inv(s) && WasStored(s.history, read)
    ensures Kept(s.store, AfterDrain(s.store, read))
  {
    hide Backed, PinBacked, Kept, Chained, InstallationError, WasStored;
    var st, r := s.store, read.(status := Uninstalled, revision := read.revision + 1);
    if InstallationError(st.installations, r, read.revision).Some? {
      SameKept(st, st);
    } else {
      InstallationWritten(st.installations, s.history, read, r, read.revision);
      InstallationKept(st, read, r, AfterDrain(st, read));
    }
  }

  /** A publication replaced by a later revision with the same digest, never a staged one. */
  lemma PublicationKept(st: Store, r: Publication, st': Store)
    requires Backed(st) && PinBacked(st)
    requires r.id in st.publications && r.digest == st.publications[r.id].digest
    requires r.revision >= 1 && r.status != Staged
    requires st'.publications == st.publications[r.id := r]
    requires st'.packages == st.packages && st'.installations == st.installations
    ensures Kept(st, st')
  {
    hide Stepped, IdOf;
    UnmovedStepped(st);
  }

  lemma TransitionKept(st: Store, from: Publication, to: PublicationStatus,
                       action: Option<RevocationAction>, expected: int)
    requires Backed(st) && PinBacked(st) && to != Staged && from.revision >= 1
    ensures Kept(st, AfterTransition(st, from, to, action, expected))
  {
    hide PinBacked, Kept, Backed;
    var r := from.(status := to, action := action, revision := from.revision + 1);
    if PublicationError(st.packages, st.publications, r, expected).Some? {
      SameKept(st, st);
    } else {
      PublicationKept(st, r, AfterTransition(st, from, to, action, expected));
    }
  }

  lemma RestoreKept(st: Store, key: CommandKey, requestDigest: string, expected: int, updated: Publication)
    requires Backed(st) && PinBacked(st)
    ensures Kept(st, AfterRestore(st, key, requestDigest, expected, updated))
  {
    hide PinBacked, Kept, Backed;
    if key in st.restoreCommands || RestoreError(st, expected, updated).Some? {
      SameKept(st, st);
    } else {
      BackedAt(st, updated.id);
      PublicationKept(st, updated, AfterRestore(st, key, requestDigest, expected, updated));
    }
  }

  lemma RetainKept(st: Store, p: Package, expected: int)
    requires Backed(st) && PinBacked(st) && RetentionError(st, p, expected).None?
    ensures Kept(st, WithRetention(st, p))
  {
    hide Stepped, PinBacked, IdOf;
    UnmovedStepped(st);
    SamePins(st, WithRetention(st, p));
  }

  lemma SamePins(st: Store, st': Store)
    requires PinBacked(st)
    requires st'.installations == st.installations && st'.publications == st.publications
    ensures PinBacked(st')
  {
  }

  /** The pinned version is never removed: its package has the pinned digest. */
  lemma RemoveKept(st: Store, state: Upgrade, token: nat, p: Package, now: int)
    requires Backed(st) && PinBacked(st) && Removable(st, state, token, p, now)
    ensures Kept(st, Removed(st, p))
  {
    hide Stepped, OwnsUpgrade, IsReplaced, FilterOut, Forgotten, Unsent, CommandsOf;
    UnmovedStepped(st);
    var st' := Removed(st, p);
    forall k | k in st.installations
      ensures VersionId(k, st.installations[k].pinned.version) in st'.publications
    {
      assert VersionId(k, st.installations[k].pinned.version) in st.publications;
    }
  }

  lemma StepKept(s: State, e: Event)
    requires Inv(s) && Enabled(s, e)
    ensures Kept(s.store, NextStore(s.store, e))
  {
    hide Backed, PinBacked, Chained, Kept, AfterRequest, AfterInstallationChange, AfterDrain;
    hide AfterTransition, AfterRestore, RetentionError, Claimable, OwnsUpgrade, Removable, Removed;
    hide ReadsFit, WasStored, WithRetention;
    var st := s.store;
    SameKept(st, st);
    match e
    case Publish(q, seen) => PublishKept(st, q, seen);
    case ChangeInstallation(read, status, key, requestDigest, expected) =>
      ChangeKept(s, read, status, key, requestDigest, expected);
    case Drain(read) => DrainKept(s, read);
    case Transition(from, to, action, expected) => TransitionKept(st, from, to, action, expected);
    case Restore(key, requestDigest, expected, updated) =>
      RestoreKept(st, key, requestDigest, expected, updated);
    case Retain(package, expected) =>
      if RetentionError(st, package, expected).None? { RetainKept(st, package, expected); }
    case ClaimUpgrade(_, _, _, _) => SameKept(st, NextStore(st, e));
    case RenewUpgrade(_, _, _, _) => SameKept(st, NextStore(st, e));
    case SetPhase(_, _, _, _) => SetPhaseKept(st, e);
    case Remove(state, token, package, now) =>
      if Removable(st, state, token, package, now) { RemoveKept(st, state, token, package, now); }
  }

  lemma SetPhaseKept(st: Store, e: Event)
    requires Backed(st) && PinBacked(st) && e.SetPhase?
    ensures Kept(st, NextStore(st, e))
  {
    hide Backed, PinBacked, Kept;
    SameKept(st, NextStore(st, e));
  }

  lemma StepKeeps(s: State, e: Event)
    requires Inv(s) && Enabled(s, e)
    ensures Inv(Next(s, e))
  {
    hide Backed, PinBacked, NextStore, Enabled, Chained, Remembered, Stepped;
    StepKept(s, e);
    KeptChains(s.store, s.history, NextStore(s.store, e).installations);
  }

  lemma KeptChains(st: Store, history: History, after: Installations)
    requires Chained(st.installations, history) && Stepped(st, after)
    ensures Chained(after, Remembered(history, after))
  {
    hide ChainOf, Stepped, Chained, Remembered;
    var later := Remembered(history, after);
    RememberedKeys(history, after);
    forall k | k in later ensures ChainOf(later[k], k, after[k]) {
      SteppedAt(st, after, k);
      ChainedAt(st.installations, history, k);
      ChainGrows(if k in history then history[k] else [], k, st.installations, after[k], later[k]);
    }
    ChainedFrom(after, later);
  }

  lemma RememberedKeys(history: History, after: Installations)
    ensures Remembered(history, after).Keys == after.Keys
    ensures forall k :: k in after ==>
      var past := if k in history then history[k] else [];
      Remembered(history, after)[k] == if past != [] && past[|past| - 1] == after[k] then past else past + [after[k]]
  {
  }

  lemma ChainedAt(installations: Installations, history: History, k: SkillId)
    requires Chained(installations, history)
    ensures k in history <==> k in installations
    ensures k in history ==> ChainOf(history[k], k, installations[k])
  {
    hide ChainOf;
  }

  lemma ChainedFrom(installations: Installations, history: History)
    requires history.Keys == installations.Keys
    requires forall k :: k in history ==> ChainOf(history[k], k, installations[k])
    ensures Chained(installations, history)
  {
    hide ChainOf;
  }

  lemma SteppedAt(st: Store, after: Installations, k: SkillId)
    requires Stepped(st, after) && k in after
    ensures after[k].skill == k
    ensures k in st.installations ==>
      after[k] == st.installations[k] || after[k].revision == st.installations[k].revision + 1
    ensures k !in st.installations ==> after[k].revision == 1
  {
  }

  lemma ChainGrows(past: seq<Installation>, k: SkillId, before: Installations, r: Installation,
                   later: seq<Installation>)
    requires r.skill == k
    requires if k in before
             then ChainOf(past, k, before[k]) && (r == before[k] || r.revision == before[k].revision + 1)
             else past == [] && r.revision == 1
    requires later == if past != [] && past[|past| - 1] == r then past else past + [r]
    ensures ChainOf(later, k, r)
  {
  }

  // ---------------------------------------------------------------- whole runs

  ghost predicate Run(states: seq<State>, events: seq<Event>) {
    && |states| == |events| + 1
    && Initial(states[0])
    && forall i :: 0 <= i < |events| ==>
         Enabled(states[i], events[i]) && states[i + 1] == Next(states[i], events[i])
  }

  lemma {:induction false} RunInv(states: seq<State>, events: seq<Event>, i: nat)
    requires Run(states, events) && i < |states|
    ensures Inv(states[i])
  {
    if i > 0 {
      hide Inv, Enabled, Next;
      RunInv(states, events, i - 1);
      StepKeeps(states[i - 1], events[i - 1]);
    }
  }

  /** In every reachable state each publication has a package under its own key with an equal
      digest, no package is left without one, and each installation is pinned to such a
      publication, never a staged one. */
  lemma PublicationsHavePackages(states: seq<State>, events: seq<Event>, i: nat)
    requires Run(states, events) && i < |states|
    ensures var st := states[i].store;
            && st.packages.Keys == st.publications.Keys
            && (forall k :: k in st.publications ==> st.packages[k].digest == st.publications[k].digest)
            && (forall k :: k in st.installations ==> PinnedAt(st, k))
  {
    hide Enabled, Next;
    RunInv(states, events, i);
  }

  /** No single step lowers a pinned version or forgets an installation. */
  lemma StepNeverDowngrades(s: State, e: Event, k: SkillId)
    requires Inv(s) && Enabled(s, e) && k in s.store.installations
    ensures k in Next(s, e).store.installations
    ensures Le(s.store.installations[k].pinned.version, Next(s, e).store.installations[k].pinned.version)
  {
    hide Backed, Chained, NextStore, Enabled, Remembered, Lt;
    StepKept(s, e);
    var st, r := s.store, Next(s, e).store.installations[k];
    assert InstallationStepped(st, k, r);
    var pinned := st.installations[k].pinned;
    VersionPreorder(pinned.version, pinned.version, pinned.version);
    assert PinnedAt(st, k);
    if !NewerPublished(st.publications, k, r.pinned.version) {
      assert !Lt(r.pinned.version, VersionId(k, pinned.version).version);
    }
  }

  /** Over any run, however publishes interleave with each other and with every other
      operation, the version a Skill is pinned to never goes down. */
  lemma {:induction false} PinNeverGoesDown(
    states: seq<State>, events: seq<Event>, i: nat, j: nat, k: SkillId)
    requires Run(states, events) && i <= j < |states| && k in states[i].store.installations
    ensures k in states[j].store.installations
    ensures Le(states[i].store.installations[k].pinned.version,
               states[j].store.installations[k].pinned.version)
  {
    hide Inv, Enabled, Next, Le;
    var v := states[i].store.installations[k].pinned.version;
    if i == j {
      VersionPreorder(v, v, v);
    } else {
      PinNeverGoesDown(states, events, i, j - 1, k);
      RunInv(states, events, j - 1);
      StepNeverDowngrades(states[j - 1], events[j - 1], k);
      VersionPreorder(v, states[j - 1].store.installations[k].pinned.version,
                      states[j].store.installations[k].pinned.version);
    }
  }

  // ---------------------------------------------------------------- command ids

  lemma PublishKeepsCommand(st: Store, q: Request, seen: Reads, key: CommandKey)
    requires Backed(st) && PinBacked(st) && ReadsFit(q, seen) && key in st.commands
    ensures key in AfterRequest(st, q, seen).commands
    ensures AfterRequest(st, q, seen).commands[key] == st.commands[key]
  {
    hide Backed, PinBacked, WellBuilt, CommitEffect, CommitNow, AfterPublish, FirstCommit, ReadsFit;
    var built := CommitNow(st, q, seen);
    if built.Ok? {
      BuildsNow(st, q, seen);
      CommitIsAtomic(st, built.value);
      if FirstCommit(st, built.value) {
        FirstMeansNew(st, built.value);
      }
    }
  }

  /** No operation drops a recorded command or changes its request digest. */
  lemma StepKeepsCommand(s: State, e: Event, key: CommandKey)
    requires Inv(s) && Enabled(s, e) && key in s.store.commands
    ensures key in Next(s, e).store.commands
    ensures Next(s, e).store.commands[key].requestDigest == s.store.commands[key].requestDigest
  {
    hide Backed, Chained, Remembered, PinBacked, Removable, OwnsUpgrade, Claimable, RetentionError;
    hide RestoreError, InstallationError, PublicationError, FilterOut, Unsent, CommandsOf, AfterRequest;
    hide ReadsFit, WasStored, IdOf, SkillOf, Moved, ResultOf;
    if e.Publish? {
      PublishKeepsCommand(s.store, e.request, e.seen, key);
    }
  }

  lemma FirstMeansNew(st: Store, c: Commit)
    requires FirstCommit(st, c)
    ensures CommandOf(c) !in st.commands
  {
  }

  lemma {:induction false} CommandStays(states: seq<State>, events: seq<Event>, i: nat, j: nat, key: CommandKey)
    requires Run(states, events) && i <= j < |states| && key in states[i].store.commands
    ensures key in states[j].store.commands
    ensures states[j].store.commands[key].requestDigest == states[i].store.commands[key].requestDigest
  {
    hide Inv, Enabled, Next;
    if i < j {
      CommandStays(states, events, i, j - 1, key);
      RunInv(states, events, j - 1);
      StepKeepsCommand(states[j - 1], events[j - 1], key);
    }
  }

  /** Once a command has committed, the same id changes nothing ever again: with the same request
      digest it is answered from the record, or refused if the version was removed since; with
      another digest it is refused. */
  lemma ReplayChangesNothing(states: seq<State>, events: seq<Event>, i: nat, j: nat, c: Commit)
    requires Run(states, events) && i <= j < |states| && CommandOf(c) in states[i].store.commands
    ensures var st, digest := states[j].store, states[i].store.commands[CommandOf(c)].requestDigest;
            && AfterPublish(st, c) == st
            && (PublishAnswer(st, c) == Err(CommandReused) <==> c.requestDigest != digest)
            && (c.requestDigest == digest ==>
                  PublishAnswer(st, c).Ok? || PublishAnswer(st, c) == Err(VersionRemoved))
  {
    hide Enabled, Next, Committed;
    CommandStays(states, events, i, j, CommandOf(c));
  }
}
