/** What each operation leaves of a Skill's packages, publications, installation, upgrade and claim,
written on the records themselves. */
module SkillStoreLaws {
  import opened Wrappers
  import opened VersionOrder
  import opened SkillLifecycle
  import opened SkillPublication
  import opened SkillPublicationRuns
  import opened SkillActiveVersion

  // ---------------------------------------------------------------- publishing

  /** The package a request publishes. */
  function NewPackage(q: Request): Package {
    Package(q.tenant, q.digest, Retained, false, 1)
  }

  /** The publication that a request leaves, given the stored one. */
  function LeftPublication(st: Store, q: Request, id: VersionId): Publication {
    var status := if q.activate then Active else Staged;
    if id !in st.publications then Publication(id, q.digest, status, None, 1)
    else
      var stored := st.publications[id];
      if q.activate && PurgedAndUninstalled(st, id) then Publication(id, q.digest, Active, None, stored.revision + 1)
      else if stored.status == status then stored
      else Publication(id, stored.digest, status, stored.action, stored.revision + 1)
  }

  /** The installation that an activation leaves, given the stored one. */
  function LeftInstallation(st: Store, q: Request, id: VersionId): Installation {
    if id.skill !in st.installations then Installation(id.skill, q.digest, Installed, 1)
    else
      var stored := st.installations[id.skill];
      if PurgedAndUninstalled(st, id) then Installation(id.skill, q.digest, Installed, stored.revision + 1)
      else if stored.pinned == q.digest then stored
      else Installation(id.skill, q.digest, stored.status, stored.revision + 1)
  }

  /** A first publish from the current store leaves exactly these records. */
  lemma FreshPublishLeaves(st: Store, q: Request, policyAllows: bool)
    requires Backed(st) && PinBacked(st) && MayPublish(st, q, policyAllows)
    requires CommandKey(q.tenant, q.commandId) !in st.commands
    ensures var st', id := AfterRequest(st, q, FreshReads(st, q, policyAllows)), IdFor(q);
            && Get(st'.publications, id) == Some(LeftPublication(st, q, id))
            && Get(st'.packages, id) ==
                 (if id !in st.publications || (q.activate && PurgedAndUninstalled(st, id))
                  then Some(NewPackage(q)) else Get(st.packages, id))
            && Get(st'.installations, id.skill) ==
                 (if q.activate then Some(LeftInstallation(st, q, id)) else Get(st.installations, id.skill))
  {
    hide Backed, PinBacked, MayPublish, NewerPublished, Superseded, Upgraded, Recorded, FirstCommit, AfterPublish;
    hide UpgradeError, PackageError, ReplaceError, OwnedElsewhere;
    FreshAcceptedIff(st, q, policyAllows);
    FreshPublishCommits(st, q, policyAllows);
    FreshFacts(st, q, policyAllows);
    FreshWritten(st, q, policyAllows);
    CommittedIs(st, CommitNow(st, q, FreshReads(st, q, policyAllows)).value);
  }

  lemma PinnedFits(st: Store, q: Request)
    requires PinBacked(st)
    ensures SkillFor(q) in st.installations ==> st.installations[SkillFor(q)].skill == SkillFor(q)
  {
  }

  /** What a first commit leaves of the commit's own version is what it wrote. */
  lemma CommittedIs(st: Store, c: Commit)
    requires FirstCommit(st, c) && WrittenId(st, c) == IdOf(c.package)
    ensures Written(st, c).Ok?
    ensures var left, st' := Written(st, c).value.0, AfterPublish(st, c);
            && Get(st'.publications, IdOf(c.package)) == Get(left.publications, IdOf(c.package))
            && st'.packages == left.packages && st'.installations == left.installations
  {
    hide Written, UpgradeError, IdOf;
  }

  /** The version whose publication a commit answers with. */
  function WrittenId(st: Store, c: Commit): VersionId {
    if Written(st, c).Ok? then Written(st, c).value.1.publication.id else IdOf(c.package)
  }

  /** The parts of a commit built from the current store. */
  lemma FreshShape(st: Store, q: Request, policyAllows: bool)
    requires Backed(st) && PinBacked(st) && CommitNow(st, q, FreshReads(st, q, policyAllows)).Ok?
    ensures var c, id := CommitNow(st, q, FreshReads(st, q, policyAllows)).value, IdFor(q);
            var replaced := q.activate && PurgedAndUninstalled(st, id);
            && c.replacePurged == replaced && IdOf(c.package) == id
            && (if id !in st.publications || replaced then c.package == NewPackage(q)
                else Some(c.package) == Get(st.packages, id))
            && c.publication == LeftPublication(st, q, id)
            && c.installation ==
                 (if q.activate && (id.skill !in st.installations || replaced
                                    || st.installations[id.skill].pinned != q.digest)
                  then Some(LeftInstallation(st, q, id)) else None)
            && (c.installation.Some? && id.skill in st.installations ==> c.upgrade.Some?)
  {
    hide NewerPublished, Backed, PinBacked;
    FreshFacts(st, q, policyAllows);
    StoredId(st, IdFor(q));
    PinnedFits(st, q);
  }

  lemma WrittenReplace(st: Store, c: Commit)
    requires Written(st, c).Ok? && c.replacePurged
    ensures c.installation.Some?
    ensures var left, id := Written(st, c).value.0, IdOf(c.package);
            && Get(left.publications, id) == Some(c.publication) && Get(left.packages, id) == Some(c.package)
            && Get(left.installations, SkillOf(c.package)) == c.installation
            && Written(st, c).value.1.publication == c.publication
  {
    hide IdOf, SkillOf;
  }

  lemma WrittenPublication(st: Store, c: Commit)
    requires Written(st, c).Ok? && !c.replacePurged && c.publication.id == IdOf(c.package)
    ensures var left, id := Written(st, c).value.0, IdOf(c.package);
            && left.packages == WithPackage(st.packages, c.package)
            && Get(left.publications, id) ==
                 (if AlreadyPublished(st.publications, c) then Get(st.publications, id) else Some(c.publication))
            && Some(Written(st, c).value.1.publication) == Get(left.publications, id)
  {
    hide IdOf, SkillOf, InstallationStep, PackageError, PublicationError, WithPackage;
  }

  lemma WrittenInstallation(st: Store, c: Commit)
    requires Written(st, c).Ok? && !c.replacePurged
    requires c.installation.Some? ==> c.installation.value.skill == SkillOf(c.package)
    requires c.installation.Some? && SkillOf(c.package) in st.installations ==> c.upgrade.Some?
    ensures Get(Written(st, c).value.0.installations, SkillOf(c.package)) ==
      if c.installation.Some? then c.installation else Get(st.installations, SkillOf(c.package))
  {
    hide IdOf, SkillOf, PackageError, PublicationStep, InstallationError, WithPackage;
  }

  lemma FreshWritten(st: Store, q: Request, policyAllows: bool)
    requires Backed(st) && PinBacked(st) && CommitNow(st, q, FreshReads(st, q, policyAllows)).Ok?
    requires FirstCommit(st, CommitNow(st, q, FreshReads(st, q, policyAllows)).value)
    ensures var c, id := CommitNow(st, q, FreshReads(st, q, policyAllows)).value, IdFor(q);
            && IdOf(c.package) == id && WrittenId(st, c) == id && Written(st, c).Ok?
            && var left := Written(st, c).value.0;
               && Get(left.publications, id) == Some(LeftPublication(st, q, id))
               && Get(left.packages, id) ==
                    (if id !in st.publications || (q.activate && PurgedAndUninstalled(st, id))
                     then Some(NewPackage(q)) else Get(st.packages, id))
               && Get(left.installations, id.skill) ==
                    (if q.activate then Some(LeftInstallation(st, q, id)) else Get(st.installations, id.skill))
  {
    hide Backed, PinBacked, Written, CommitNow, FreshReads, UpgradeError, Upgraded, Recorded, PurgedAndUninstalled;
    var c := CommitNow(st, q, FreshReads(st, q, policyAllows)).value;
    FreshShape(st, q, policyAllows);
    StoredId(st, IdFor(q));
    PackageIffPublished(st, IdFor(q));
    LeftIds(st, q);
    if c.replacePurged {
      WrittenReplace(st, c);
    } else {
      WrittenPublication(st, c);
      WrittenInstallation(st, c);
    }
  }

  lemma LeftIds(st: Store, q: Request)
    requires Backed(st) && PinBacked(st)
    ensures LeftPublication(st, q, IdFor(q)).id == IdFor(q) && LeftInstallation(st, q, IdFor(q)).skill == SkillFor(q)
  {
    hide PurgedAndUninstalled, Backed, PinBacked;
    StoredId(st, IdFor(q));
    PinnedFits(st, q);
  }

  lemma PackageIffPublished(st: Store, id: VersionId)
    requires Backed(st)
    ensures id in st.packages <==> id in st.publications
  {
    BackedAt(st, id);
  }

  lemma StoredId(st: Store, id: VersionId)
    requires Backed(st)
    ensures id in st.publications ==> st.publications[id].id == id && st.publications[id].revision >= 1
  {
    BackedAt(st, id);
  }

  /** The request moves the pin of an installed Skill. */
  predicate MovesPin(st: Store, q: Request) {
    && q.activate && SkillFor(q) in st.installations
    && (PurgedAndUninstalled(st, IdFor(q)) || st.installations[SkillFor(q)].pinned != q.digest)
  }

  /** Moving the pin revokes every other active version, lets its runs continue, and begins an
      upgrade at the new installation revision; otherwise no other version changes. */
  lemma PublishSupersedes(st: Store, q: Request, policyAllows: bool, k: VersionId)
    requires Backed(st) && PinBacked(st) && MayPublish(st, q, policyAllows)
    requires CommandKey(q.tenant, q.commandId) !in st.commands && k != IdFor(q) && k in st.publications
    ensures var st', r := AfterRequest(st, q, FreshReads(st, q, policyAllows)), st.publications[k];
            && Get(st'.publications, k) ==
                 Some(if MovesPin(st, q) && k.skill == SkillFor(q) && r.status == Active
                      then Publication(r.id, r.digest, Revoked, Some(Continue), r.revision + 1) else r)
            && st'.upgrades ==
                 (if MovesPin(st, q)
                  then st.upgrades[SkillFor(q) := Upgrade(SkillFor(q), q.digest.version, q.digest,
                                                          st.installations[SkillFor(q)].revision + 1, PhaseDraining)]
                  else st.upgrades)
  {
    hide Backed, PinBacked, MayPublish, FirstCommit, AfterPublish, PackageEffect, InstallationEffect, CommitNow;
    hide FreshReads, WellBuilt, PurgedAndUninstalled;
    FreshAcceptedIff(st, q, policyAllows);
    FreshPublishCommits(st, q, policyAllows);
    FreshFacts(st, q, policyAllows);
    var c := CommitNow(st, q, FreshReads(st, q, policyAllows)).value;
    BuildsNow(st, q, FreshReads(st, q, policyAllows));
    CommitIsAtomic(st, c);
    FreshUpgrade(st, q, policyAllows);
    UpgradesAre(st, c);
  }

  lemma FreshUpgrade(st: Store, q: Request, policyAllows: bool)
    requires Backed(st) && PinBacked(st) && CommitNow(st, q, FreshReads(st, q, policyAllows)).Ok?
    ensures var c := CommitNow(st, q, FreshReads(st, q, policyAllows)).value;
            && IdOf(c.package) == IdFor(q)
            && c.upgrade ==
                 if MovesPin(st, q)
                 then Some(Upgrade(SkillFor(q), q.digest.version, q.digest,
                                   st.installations[SkillFor(q)].revision + 1, PhaseDraining))
                 else None
  {
    hide NewerPublished, Backed, PinBacked;
    FreshFacts(st, q, policyAllows);
  }

  lemma UpgradesAre(st: Store, c: Commit)
    requires Backed(st) && FirstCommit(st, c) && WellBuilt(c)
    ensures AfterPublish(st, c).upgrades ==
      if c.upgrade.Some? then st.upgrades[SkillOf(c.package) := c.upgrade.value] else st.upgrades
  {
    hide UpgradeError, Superseded, PackageError, PublicationStep, InstallationStep, ReplaceError, SkillOf, WellBuilt;
    hide Backed, CommitEffect;
    WrittenEffect(st, c);
  }

  // ---------------------------------------------------------------- what the store accepts

  /** The commit moves an installation that is as the service saw it, and no later version was
      published. */
  ghost predicate MayUpgrade(st: Store, c: Commit, skill: SkillId) {
    && skill in st.installations && c.installation.Some?
    && c.expectedInstallationRevision == Some(st.installations[skill].revision)
    && c.installation.value.revision == st.installations[skill].revision + 1
    && forall k :: k in st.publications && k.skill == skill && st.publications[k].status != Staged ==>
         !Lt(c.package.digest.version, k.version)
  }

  /** A retained package may replace a purged one that is revoked, while the Skill is uninstalled. */
  predicate MayReplace(st: Store, c: Commit, id: VersionId) {
    && c.package.retention == Retained && c.publication.status == Active
    && c.publication.digest == c.package.digest
    && c.installation.Some? && c.installation.value.status == Installed
    && c.installation.value.pinned == c.package.digest
    && id in st.packages && st.packages[id].retention == Purged && !st.packages[id].legalHold
    && id in st.publications && st.publications[id].status == Revoked
    && st.publications[id].revision == c.expectedPublicationRevision
    && c.publication.revision == c.expectedPublicationRevision + 1
    && id.skill in st.installations && st.installations[id.skill].status == Uninstalled
  }

  /** The version is new or has the digest, and its publication stands already or is the next
      revision of what the service saw. */
  predicate MayWrite(st: Store, c: Commit, id: VersionId) {
    && (id in st.publications ==> st.publications[id].digest == c.package.digest)
    && (|| (id in st.publications && st.publications[id].digest == c.publication.digest
            && st.publications[id].status == c.publication.status
            && c.publication.revision == c.expectedPublicationRevision)
        || (c.publication.digest == c.package.digest
            && c.publication.revision == c.expectedPublicationRevision + 1
            && c.expectedPublicationRevision ==
                 (if id in st.publications then st.publications[id].revision else 0)))
  }

  /** The first installation of a Skill, or one that is there already. */
  predicate MayInstall(st: Store, r: Installation) {
    if r.skill !in st.installations then r.revision == 1
    else st.installations[r.skill].status == r.status && st.installations[r.skill].pinned == r.pinned
  }

  /** The store accepts a first commit that the service built, however old its reads, if and only if
      nothing it relies on has changed. */
  lemma CommitAcceptedIff(st: Store, c: Commit)
    requires Backed(st) && WellBuilt(c) && CommandOf(c) !in st.commands
    ensures PublishAnswer(st, c).Ok? <==>
      var id := IdOf(c.package);
      && (c.upgrade.Some? ==> MayUpgrade(st, c, id.skill))
      && (if c.replacePurged then MayReplace(st, c, id)
          else && MayWrite(st, c, id)
               && (c.installation.Some? && c.upgrade.None? ==> MayInstall(st, c.installation.value)))
  {
    hide Backed, Superseded, OwnedElsewhere, Upgraded, Recorded;
    BackedAt(st, IdOf(c.package));
    NeverOwnedElsewhere(st, c.package);
  }

  lemma NeverOwnedElsewhere(st: Store, p: Package)
    requires Backed(st)
    ensures !OwnedElsewhere(st.packages, p)
  {
  }

  /** A repeated publish changes nothing: it is refused for other content or when the version was
      removed since, and otherwise answered as before, with the publication as it is now. */
  lemma RepeatedPublish(st: Store, c: Commit)
    requires CommandOf(c) in st.commands
    ensures AfterPublish(st, c) == st
    ensures var command := st.commands[CommandOf(c)];
            PublishAnswer(st, c) ==
              if c.requestDigest != command.requestDigest then Err(CommandReused)
              else if command.result.None? then Err(VersionRemoved)
              else
                var was := command.result.value;
                Ok(CommitResult(was.package,
                                if was.publication.id in st.publications then st.publications[was.publication.id]
                                else was.publication,
                                was.installation))
  {
  }

  // ---------------------------------------------------------------- removal

  /** Whoever holds the cleanup claim of this upgrade. */
  predicate HoldsCleanup(st: Store, state: Upgrade, token: nat, now: int) {
    && state.skill in st.upgrades && st.upgrades[state.skill].generation == state.generation
    && state.skill in st.claims && st.claims[state.skill].generation == state.generation
    && st.claims[state.skill].token == token && now < st.claims[state.skill].expiresAt
  }

  /** A replaced version that nothing needs: older than the upgrade or as old with another digest,
      under no legal hold, not pinned, and revoked with its runs cancelled. */
  ghost predicate Unneeded(st: Store, state: Upgrade, p: Package, id: VersionId) {
    && id == VersionId(state.skill, p.digest.version)
    && state.skill == SkillId(p.tenant, p.digest.publisher, p.digest.name)
    && p.digest != state.digest && !Lt(state.version, p.digest.version)
    && !p.legalHold
    && (id.skill in st.installations ==> st.installations[id.skill].pinned != p.digest)
    && (id in st.packages && st.packages[id].digest == p.digest ==>
          && !st.packages[id].legalHold
          && (id in st.publications ==>
                st.publications[id].status == Revoked && st.publications[id].action == Some(Cancel)))
  }

  /** A removal goes through exactly when the holder of the cleanup claim asks for it and nothing
      needs the version. */
  lemma RemovalIff(st: Store, state: Upgrade, token: nat, p: Package, now: int)
    ensures Removable(st, state, token, p, now) <==>
      HoldsCleanup(st, state, token, now) && Unneeded(st, state, p, IdOf(p))
  {
  }

  /** A package leaves the store exactly when the holder of the cleanup claim removes it and nothing
      needs it. */
  lemma PackageGoneIff(s: State, e: Event, id: VersionId)
    requires Inv(s) && Enabled(s, e) && id in s.store.packages
    ensures id !in Next(s, e).store.packages <==>
      && e.Remove? && s.store.packages[id].digest == e.package.digest
      && HoldsCleanup(s.store, e.state, e.token, e.now) && Unneeded(s.store, e.state, e.package, id)
  {
    hide Backed, PinBacked, Chained, Remembered, FilterOut, Unsent, CommandsOf, Forgotten;
    hide Removable, HoldsCleanup, AfterRequest, WasStored;
    if e.Publish? {
      PublishKeepsPackages(s.store, e.request, e.seen, id);
    } else if e.Remove? {
      RemovalIff(s.store, e.state, e.token, e.package, e.now);
    }
  }

  lemma PublishKeepsPackages(st: Store, q: Request, seen: Reads, id: VersionId)
    requires Backed(st) && PinBacked(st) && ReadsFit(q, seen) && id in st.packages
    ensures id in AfterRequest(st, q, seen).packages
  {
    hide Backed, PinBacked, FirstCommit, AfterPublish, PublicationEffect, InstallationEffect, CommitNow, WellBuilt;
    var built := CommitNow(st, q, seen);
    if built.Ok? {
      BuildsNow(st, q, seen);
      CommitIsAtomic(st, built.value);
    }
  }

  lemma {:induction false} FilteredTombstone(tombstones: seq<Package>, p: Package, x: Package)
    ensures x in FilterOut(tombstones, p) <==> x in tombstones && !(IdOf(x) == IdOf(p) && x.digest == p.digest)
  {
    hide IdOf;
    if tombstones != [] {
      FilteredTombstone(tombstones[1..], p, x);
      assert tombstones == [tombstones[0]] + tombstones[1..];
    }
  }

  /** The package that a command published, if its result is still known. */
  predicate PublishedBy(command: PublishCommand, p: Package) {
    && command.result.Some? && command.result.value.package.digest == p.digest
    && command.result.value.package.tenant == p.tenant
  }

  /** A removal also takes the package's tombstones, the results of the commands that published it
      and their outbox rows; the commands themselves stay known. */
  lemma RemovalLeaves(st: Store, p: Package, x: Package, k: CommandKey, row: string)
    ensures var st' := Removed(st, p);
            && (x in st'.tombstones <==> x in st.tombstones && !(x.tenant == p.tenant && x.digest == p.digest))
            && Get(st'.commands, k) ==
                 (if k in st.commands && PublishedBy(st.commands[k], p)
                  then Some(PublishCommand(st.commands[k].requestDigest, None)) else Get(st.commands, k))
            && Get(st'.outbox, row) ==
                 (if row in st.outbox && st.outbox[row].command in st.commands
                     && PublishedBy(st.commands[st.outbox[row].command], p)
                  then None else Get(st.outbox, row))
  {
    hide FilterOut;
    FilteredTombstone(st.tombstones, p, x);
  }

  // ---------------------------------------------------------------- other writes of publications

  /** A first command restores this retired version from the revision it saw. */
  predicate Restores(st: Store, e: Event, k: VersionId) {
    && e.Restore? && e.updated.id == k && e.key !in st.restoreCommands && k in st.publications
    && st.publications[k].revision == e.expected && st.publications[k].status == Retired
    && e.updated.status == Restoring && e.updated.revision == e.expected + 1
    && e.updated.digest == st.publications[k].digest
  }

  /** Besides publishing, a publication changes only by a transition of the current revision, by a
      restore of a retired version, or with the removal of its package. */
  lemma OtherPublicationStep(s: State, e: Event, k: VersionId)
    requires Inv(s) && Enabled(s, e) && !e.Publish?
    ensures var st := s.store;
            Get(Next(s, e).store.publications, k) ==
              if e.Transition? && e.from.id == k && k in st.publications
                 && st.publications[k].revision == e.expected == e.from.revision
                 && st.publications[k].digest == e.from.digest
              then Some(Publication(k, e.from.digest, e.to, e.action, e.expected + 1))
              else if Restores(st, e, k) then Some(e.updated)
              else if k in st.packages && k !in Next(s, e).store.packages then None
              else Get(st.publications, k)
  {
    hide PinBacked, Chained, Remembered, FilterOut, Unsent, CommandsOf, Forgotten, Removable, Backed;
    StoredId(s.store, k);
    PackageIffPublished(s.store, k);
    BackedAt(s.store, k);
    if e.Transition? {
      StoredId(s.store, e.from.id);
      BackedAt(s.store, e.from.id);
    }
  }

  /** The answer to a restore: a first one is answered with what it wrote, exactly when it restores;
      a repeated one changes nothing and shows the version as it is now, or is refused for other
      content. */
  lemma RestoreAnswerIs(s: State, e: Event)
    requires Inv(s) && Enabled(s, e) && e.Restore?
    ensures var st, k := s.store, e.updated.id;
            var answer := RestoreAnswer(st, e.key, e.requestDigest, e.expected, e.updated);
            if e.key in st.restoreCommands
            then && Next(s, e).store == st
                 && answer == (if st.restoreCommands[e.key] != e.requestDigest then Err(CommandReused)
                               else if k in st.publications then Ok(st.publications[k])
                               else Err(ResultIncomplete))
            else && (answer.Ok? <==> Restores(st, e, k))
                 && (answer.Ok? ==> answer.value == e.updated)
  {
    hide Backed, PinBacked, Chained, Remembered;
  }

  lemma RestoreCommandStep(s: State, e: Event, key: CommandKey)
    requires Inv(s) && Enabled(s, e)
    ensures Get(Next(s, e).store.restoreCommands, key) ==
      if e.Restore? && e.key == key && Restores(s.store, e, e.updated.id) then Some(e.requestDigest)
      else Get(s.store.restoreCommands, key)
  {
    hide Backed, PinBacked, Chained, Remembered, FilterOut, Unsent, CommandsOf, Forgotten, Removable;
    if e.Publish? {
      PublishKeepsCommands(s.store, e.request, e.seen);
    }
  }

  lemma PublishKeepsCommands(st: Store, q: Request, seen: Reads)
    ensures AfterRequest(st, q, seen).restoreCommands == st.restoreCommands
    ensures AfterRequest(st, q, seen).installationCommands == st.installationCommands
  {
    hide CommitNow, AfterPublish;
    if CommitNow(st, q, seen).Ok? {
      CommitKeepsCommands(st, CommitNow(st, q, seen).value);
    }
  }

  lemma CommitKeepsCommands(st: Store, c: Commit)
    ensures AfterPublish(st, c).restoreCommands == st.restoreCommands
    ensures AfterPublish(st, c).installationCommands == st.installationCommands
  {
    hide UpgradeError, PackageError, PublicationStep, InstallationStep, ReplaceReady, Superseded, IdOf, SkillOf;
    hide WithPackage, CommandOf, OutboxId;
  }

  /** A restore is remembered for the rest of the run, so its command never restores again. */
  lemma {:induction false} RestoreIsRemembered(states: seq<State>, events: seq<Event>, i: nat, j: nat)
    requires Run(states, events) && i < j < |states|
    requires events[i].Restore? && Restores(states[i].store, events[i], events[i].updated.id)
    ensures Get(states[j].store.restoreCommands, events[i].key) == Some(events[i].requestDigest)
    decreases j
  {
    hide Next, Enabled, Inv, Restores;
    RunInv(states, events, j - 1);
    RestoreCommandStep(states[j - 1], events[j - 1], events[i].key);
    if i < j - 1 {
      RestoreIsRemembered(states, events, i, j - 1);
      NoSecondRestore(states[j - 1].store, events[j - 1], events[i].key);
    }
  }

  lemma NoSecondRestore(st: Store, e: Event, key: CommandKey)
    requires key in st.restoreCommands
    ensures e.Restore? && e.key == key ==> !Restores(st, e, e.updated.id)
  {
  }

  // ---------------------------------------------------------------- packages and their retention

  /** Besides publishing and removal, a package changes only by a retention write of the next
      revision that keeps its digest. */
  lemma RetentionStep(s: State, e: Event, id: VersionId)
    requires Inv(s) && Enabled(s, e) && !e.Publish? && !e.Remove?
    ensures var st := s.store;
            Get(Next(s, e).store.packages, id) ==
              if e.Retain? && IdOf(e.package) == id && id in st.packages && st.packages[id].digest == e.package.digest
                 && st.packages[id].retentionRevision == e.expected && e.package.retentionRevision == e.expected + 1
              then Some(e.package) else Get(st.packages, id)
  {
    hide Backed, PinBacked, Chained, Remembered;
  }

  // ---------------------------------------------------------------- installations

  /** A first command moves the current record to another status. */
  predicate Changes(st: Store, e: Event, skill: SkillId) {
    && e.ChangeInstallation? && e.key !in st.installationCommands
    && Get(st.installations, skill) == Some(e.read) && e.read.skill == skill
    && e.expected == e.read.revision && e.status != e.read.status
  }

  /** Besides publishing, an installation changes only when management moves the current record to
      another status, once per command, or when the drainer uninstalls it. */
  lemma OtherInstallationStep(s: State, e: Event, skill: SkillId)
    requires Inv(s) && Enabled(s, e) && !e.Publish?
    ensures var st := s.store;
            Get(Next(s, e).store.installations, skill) ==
              if Changes(st, e, skill)
              then Some(Installation(skill, e.read.pinned, e.status, e.read.revision + 1))
              else if e.Drain? && Get(st.installations, skill) == Some(e.drained) && e.drained.skill == skill
              then Some(Installation(skill, e.drained.pinned, Uninstalled, e.drained.revision + 1))
              else Get(st.installations, skill)
  {
    hide Backed, PinBacked, Chained, Remembered, FilterOut, Unsent, CommandsOf, Forgotten, Removable, WasStored;
    if e.ChangeInstallation? {
      var r := Moved(e.read, e.status);
      if InstallationError(s.store.installations, r, e.expected).None? {
        InstallationWritten(s.store.installations, s.history, e.read, r, e.expected);
      }
    } else if e.Drain? {
      var r := e.drained.(status := Uninstalled, revision := e.drained.revision + 1);
      if InstallationError(s.store.installations, r, e.drained.revision).None? {
        InstallationWritten(s.store.installations, s.history, e.drained, r, e.drained.revision);
      }
    }
  }

  /** The answer to a management command: a first one is answered with what it wrote, exactly when it
      changes the current record; a repeated one changes nothing and shows the current record, or is
      refused for other content. */
  lemma ChangeAnswerIs(s: State, e: Event)
    requires Inv(s) && Enabled(s, e) && e.ChangeInstallation?
    ensures var st, r := s.store, e.read;
            var answer := InstallationAnswer(st, e.key, e.requestDigest, e.expected, Moved(r, e.status));
            if e.key in st.installationCommands
            then var (digest, skill) := st.installationCommands[e.key];
                 && Next(s, e).store == st
                 && answer == (if digest != e.requestDigest then Err(CommandReused)
                               else if skill in st.installations then Ok(st.installations[skill])
                               else Err(ResultIncomplete))
            else && (answer.Ok? <==> Changes(st, e, r.skill))
                 && (answer.Ok? ==> answer.value == Installation(r.skill, r.pinned, e.status, r.revision + 1))
  {
    hide Backed, PinBacked, Chained, Remembered, WasStored;
    var r := Moved(e.read, e.status);
    if InstallationError(s.store.installations, r, e.expected).None? {
      InstallationWritten(s.store.installations, s.history, e.read, r, e.expected);
    }
  }

  lemma ChangeCommandStep(s: State, e: Event, key: CommandKey)
    requires Inv(s) && Enabled(s, e)
    ensures Get(Next(s, e).store.installationCommands, key) ==
      if e.ChangeInstallation? && e.key == key && Changes(s.store, e, e.read.skill)
      then Some((e.requestDigest, e.read.skill))
      else Get(s.store.installationCommands, key)
  {
    hide Backed, PinBacked, Chained, Remembered, FilterOut, Unsent, CommandsOf, Forgotten, Removable, WasStored;
    if e.Publish? {
      PublishKeepsCommands(s.store, e.request, e.seen);
    } else if e.ChangeInstallation? {
      var r := Moved(e.read, e.status);
      if InstallationError(s.store.installations, r, e.expected).None? {
        InstallationWritten(s.store.installations, s.history, e.read, r, e.expected);
      }
    }
  }

  /** So is a management command: repeated with its content it shows the Skill's current record. */
  lemma {:induction false} ChangeIsRemembered(states: seq<State>, events: seq<Event>, i: nat, j: nat)
    requires Run(states, events) && i < j < |states|
    requires events[i].ChangeInstallation? && Changes(states[i].store, events[i], events[i].read.skill)
    ensures Get(states[j].store.installationCommands, events[i].key) ==
      Some((events[i].requestDigest, events[i].read.skill))
    decreases j
  {
    hide Next, Enabled, Inv, Changes;
    RunInv(states, events, j - 1);
    ChangeCommandStep(states[j - 1], events[j - 1], events[i].key);
    if i < j - 1 {
      ChangeIsRemembered(states, events, i, j - 1);
      NoSecondChange(states[j - 1].store, events[j - 1], events[i].key);
    }
  }

  lemma NoSecondChange(st: Store, e: Event, key: CommandKey)
    requires key in st.installationCommands
    ensures e.ChangeInstallation? && e.key == key ==> !Changes(st, e, e.read.skill)
  {
  }

  // ---------------------------------------------------------------- upgrades and cleanup claims

  /** An upgrade's cleanup can be claimed while it is not complete and no claim on it runs. */
  predicate MayClaim(st: Store, state: Upgrade, now: int) {
    && state.skill in st.upgrades && st.upgrades[state.skill].generation == state.generation
    && st.upgrades[state.skill].phase != PhaseCompleted
    && (state.skill in st.claims ==> st.claims[state.skill].expiresAt <= now)
  }

  /** A cleanup claim is taken when none runs, extended by its holder, and given back by its holder
      with every phase but the deleting one. */
  lemma CleanupStep(s: State, e: Event, skill: SkillId)
    requires Inv(s) && Enabled(s, e)
    ensures var st := s.store;
            Get(Next(s, e).store.claims, skill) ==
              if e.ClaimUpgrade? && e.state.skill == skill && MayClaim(st, e.state, e.now)
              then Some(Claim(e.token, e.state.generation, e.until))
              else if e.RenewUpgrade? && e.state.skill == skill && HoldsCleanup(st, e.state, e.token, e.now)
              then Some(Claim(e.token, e.state.generation, e.until))
              else if e.SetPhase? && e.state.skill == skill && HoldsCleanup(st, e.state, e.token, e.now)
                      && e.phase != PhaseDeleting
              then None
              else Get(st.claims, skill)
  {
    hide Backed, PinBacked, Chained, Remembered, FilterOut, Unsent, CommandsOf, Forgotten, Removable;
    if e.Publish? {
      PublishKeepsClaims(s.store, e.request, e.seen);
    }
  }

  lemma PublishKeepsClaims(st: Store, q: Request, seen: Reads)
    requires Backed(st) && PinBacked(st) && ReadsFit(q, seen)
    ensures AfterRequest(st, q, seen).claims == st.claims
  {
    hide Backed, PinBacked, FirstCommit, AfterPublish, CommitEffect, CommitNow, WellBuilt;
    var built := CommitNow(st, q, seen);
    if built.Ok? {
      BuildsNow(st, q, seen);
      CommitIsAtomic(st, built.value);
    }
  }

  /** The phase of an upgrade is set by the holder of its cleanup claim and by nobody else. */
  lemma PhaseStep(s: State, e: Event, skill: SkillId)
    requires Inv(s) && Enabled(s, e) && !e.Publish?
    ensures Get(Next(s, e).store.upgrades, skill) ==
      if e.SetPhase? && e.state.skill == skill && HoldsCleanup(s.store, e.state, e.token, e.now)
      then Some(s.store.upgrades[skill].(phase := e.phase))
      else Get(s.store.upgrades, skill)
  {
    hide Backed, PinBacked, Chained, Remembered, FilterOut, Unsent, CommandsOf, Forgotten, Removable;
  }
}
