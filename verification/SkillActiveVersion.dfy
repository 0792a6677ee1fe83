/** At most one active version of a Skill: what a publish does when nothing interferes, the
condition on a commit, and the property over every run. */
module SkillActiveVersion {
  import opened Wrappers
  import opened VersionOrder
  import opened SkillLifecycle
  import opened SkillPublication
  import opened SkillPublicationRuns

  // ---------------------------------------------------------------- one active version

  /** Every active version is the one its Skill is pinned to. */
  ghost predicate ActiveIsPinned(st: Store) {
    forall k :: k in st.publications && st.publications[k].status == Active ==>
      k.skill in st.installations && st.installations[k.skill].pinned.version == k.version
  }

  /** What the commit must find: it activates nothing, or upgrades, or activates the pinned
      version, or installs a Skill that is not installed. */
  predicate Covered(st: Store, c: Commit) {
    var skill := SkillOf(c.package);
    || c.publication.status != Active
    || c.upgrade.Some?
    || (if skill in st.installations
        then st.installations[skill].pinned.version == c.package.digest.version
        else c.installation.Some?)
  }

  /** Exactly the covered commits keep every active version pinned. */
  lemma ActiveIsPinnedIffCovered(st: Store, c: Commit)
    requires Backed(st) && PinBacked(st) && ActiveIsPinned(st) && WellBuilt(c) && FirstCommit(st, c)
    ensures ActiveIsPinned(AfterPublish(st, c)) <==> Covered(st, c)
  {
    hide Backed, PinBacked, FirstCommit, AfterPublish, PackageEffect, NewerPublished;
    CommitIsAtomic(st, c);
    var st', id := AfterPublish(st, c), IdOf(c.package);
    if !Covered(st, c) {
      assert st'.publications[id].status == Active && id.skill == SkillOf(c.package);
    }
  }

  /** A request's own commit is covered whenever it succeeds, however old its first reads are:
      it either finds the pin it read right before, or is refused. */
  lemma CommitNowIsCovered(st: Store, q: Request, seen: Reads)
    requires PinBacked(st) && ReadsFit(q, seen) && CommitNow(st, q, seen).Ok?
    requires FirstCommit(st, CommitNow(st, q, seen).value)
    ensures Covered(st, CommitNow(st, q, seen).value)
  {
    hide NewerPublished, PinBacked, ReplaceError, PackageError, PublicationStep, Upgraded, Recorded;
    BuildsNow(st, q, seen);
  }

  lemma NeverOwnedElsewhere(st: Store, p: Package)
    requires Backed(st)
    ensures !OwnedElsewhere(st.packages, p)
  {
  }

  /** What a fresh read of a store with the invariants can look like. */
  lemma FreshFacts(st: Store, q: Request, policyAllows: bool)
    requires Backed(st) && PinBacked(st)
    ensures var seen := FreshReads(st, q, policyAllows);
            && ReadsFit(q, seen)
            && (seen.existing.Some? ==>
                  && seen.package.Some? && seen.package.value.digest == seen.existing.value.digest
                  && seen.existing.value.revision >= 1)
            && (IdFor(q) in st.packages <==> seen.existing.Some?)
  {
    FreshFits(st, q, policyAllows);
    BackedAt(st, IdFor(q));
  }

  lemma FreshUpgradeAccepted(st: Store, q: Request, policyAllows: bool)
    requires Backed(st) && PinBacked(st) && CommitNow(st, q, FreshReads(st, q, policyAllows)).Ok?
    ensures var c := CommitNow(st, q, FreshReads(st, q, policyAllows)).value;
            c.upgrade.Some? ==> UpgradeError(st, c).None?
  {
    hide NewerPublished, Backed, PinBacked;
    FreshFacts(st, q, policyAllows);
  }

  lemma FreshReplaceAccepted(st: Store, q: Request, policyAllows: bool)
    requires Backed(st) && PinBacked(st) && CommitNow(st, q, FreshReads(st, q, policyAllows)).Ok?
    ensures var c := CommitNow(st, q, FreshReads(st, q, policyAllows)).value;
            c.replacePurged ==> ReplaceError(st, c).None?
  {
    hide NewerPublished, Backed, PinBacked;
    FreshFacts(st, q, policyAllows);
  }

  lemma FreshPackageAccepted(st: Store, q: Request, policyAllows: bool)
    requires Backed(st) && PinBacked(st) && CommitNow(st, q, FreshReads(st, q, policyAllows)).Ok?
    ensures var c := CommitNow(st, q, FreshReads(st, q, policyAllows)).value;
            !c.replacePurged ==> PackageError(st.packages, c.package).None?
  {
    hide NewerPublished, Backed, PinBacked, OwnedElsewhere;
    FreshFacts(st, q, policyAllows);
    NeverOwnedElsewhere(st, CommitNow(st, q, FreshReads(st, q, policyAllows)).value.package);
  }

  lemma FreshPublicationAccepted(st: Store, q: Request, policyAllows: bool)
    requires Backed(st) && PinBacked(st) && CommitNow(st, q, FreshReads(st, q, policyAllows)).Ok?
    ensures var c := CommitNow(st, q, FreshReads(st, q, policyAllows)).value;
            !c.replacePurged ==> PublicationStep(WithPackage(st.packages, c.package), st.publications, c).Ok?
  {
    hide NewerPublished, Backed, PinBacked;
    FreshFacts(st, q, policyAllows);
  }

  lemma FreshInstallationAccepted(st: Store, q: Request, policyAllows: bool)
    requires Backed(st) && PinBacked(st) && CommitNow(st, q, FreshReads(st, q, policyAllows)).Ok?
    ensures var c := CommitNow(st, q, FreshReads(st, q, policyAllows)).value;
            !c.replacePurged ==> InstallationStep(st.installations, c).Ok?
  {
    hide NewerPublished, Backed, PinBacked;
    FreshFacts(st, q, policyAllows);
  }

  /** What the service accepts the store accepts: an atomic publish with a new command id that
      passes the service's decision always commits. */
  lemma FreshPublishCommits(st: Store, q: Request, policyAllows: bool)
    requires Backed(st) && PinBacked(st) && CommitNow(st, q, FreshReads(st, q, policyAllows)).Ok?
    requires CommandKey(q.tenant, q.commandId) !in st.commands
    ensures FirstCommit(st, CommitNow(st, q, FreshReads(st, q, policyAllows)).value)
  {
    hide CommitNow, FreshReads, Backed, PinBacked, UpgradeError, ReplaceError, PackageError;
    hide PublicationStep, InstallationStep, Upgraded, Recorded;
    FreshUpgradeAccepted(st, q, policyAllows);
    FreshReplaceAccepted(st, q, policyAllows);
    FreshPackageAccepted(st, q, policyAllows);
    FreshPublicationAccepted(st, q, policyAllows);
    FreshInstallationAccepted(st, q, policyAllows);
    FreshCommandIs(st, q, policyAllows);
  }

  lemma FreshCommandIs(st: Store, q: Request, policyAllows: bool)
    requires Backed(st) && PinBacked(st) && CommitNow(st, q, FreshReads(st, q, policyAllows)).Ok?
    ensures CommandOf(CommitNow(st, q, FreshReads(st, q, policyAllows)).value) == CommandKey(q.tenant, q.commandId)
  {
    hide NewerPublished, Backed, PinBacked;
    FreshFacts(st, q, policyAllows);
  }

  /** Then an activation leaves the requested version active and pinned, and staging leaves the
      installations alone. */
  lemma FreshPublishDelivers(st: Store, q: Request, policyAllows: bool)
    requires Backed(st) && PinBacked(st) && CommitNow(st, q, FreshReads(st, q, policyAllows)).Ok?
    requires CommandKey(q.tenant, q.commandId) !in st.commands
    ensures var st' := AfterRequest(st, q, FreshReads(st, q, policyAllows));
            && IdFor(q) in st'.publications && st'.publications[IdFor(q)].digest == q.digest
            && st'.publications[IdFor(q)].status == Desired(q)
            && (if q.activate
                then SkillFor(q) in st'.installations && st'.installations[SkillFor(q)].pinned == q.digest
                else st'.installations == st.installations)
  {
    hide Backed, PinBacked, FirstCommit, AfterPublish, PackageEffect, PublicationEffect, NewerPublished, CommitNow;
    hide FreshReads, WellBuilt;
    var seen := FreshReads(st, q, policyAllows);
    var c := CommitNow(st, q, seen).value;
    FreshPublishCommits(st, q, policyAllows);
    FreshFacts(st, q, policyAllows);
    BuildsNow(st, q, seen);
    CommitIsAtomic(st, c);
    PublishedAt(st.publications, c, c.upgrade.Some?, AfterPublish(st, c).publications);
    FreshCommitIs(st, q, policyAllows);
  }

  /** The parts of a fresh commit that decide what it delivers. */
  lemma FreshCommitIs(st: Store, q: Request, policyAllows: bool)
    requires Backed(st) && PinBacked(st) && CommitNow(st, q, FreshReads(st, q, policyAllows)).Ok?
    ensures var c := CommitNow(st, q, FreshReads(st, q, policyAllows)).value;
            && c.package.digest == q.digest && IdOf(c.package) == IdFor(q)
            && c.publication.status == Desired(q)
            && (if q.activate
                then if c.installation.Some?
                     then c.installation.value.pinned == q.digest
                          && (SkillFor(q) in st.installations ==> c.upgrade.Some?)
                     else SkillFor(q) in st.installations && st.installations[SkillFor(q)].pinned == q.digest
                else c.installation.None?)
  {
    hide NewerPublished, Backed, PinBacked;
    FreshFacts(st, q, policyAllows);
  }

  lemma FreshFits(st: Store, q: Request, policyAllows: bool)
    requires Backed(st) && PinBacked(st)
    ensures ReadsFit(q, FreshReads(st, q, policyAllows))
  {
  }

  lemma StepKeepsActive(s: State, e: Event)
    requires Inv(s) && Enabled(s, e) && ActiveIsPinned(s.store)
    ensures ActiveIsPinned(Next(s, e).store)
  {
    if e.Publish? {
      hide Chained, Remembered, PinBacked, Backed, CommitNow, FirstCommit, AfterPublish, ReadsFit, Covered;
      hide ActiveIsPinned, WellBuilt, CommitEffect;
      var built := CommitNow(s.store, e.request, e.seen);
      if built.Ok? {
        BuildsNow(s.store, e.request, e.seen);
        CommitIsAtomic(s.store, built.value);
        if FirstCommit(s.store, built.value) {
          CommitNowIsCovered(s.store, e.request, e.seen);
          ActiveIsPinnedIffCovered(s.store, built.value);
        }
      }
    } else {
      OtherStepActive(s, e);
    }
  }

  /** Nothing but publishing activates a version or moves a pin. */
  lemma OtherStepActive(s: State, e: Event)
    requires Inv(s) && Enabled(s, e) && !e.Publish? && ActiveIsPinned(s.store)
    ensures ActiveIsPinned(Next(s, e).store)
  {
    hide Remembered, PinBacked, Backed, Removable, OwnsUpgrade, Claimable, RetentionError;
    hide InstallationError, FilterOut, Unsent, CommandsOf, Forgotten, IdOf, SkillOf, AfterRequest;
    hide ReadsFit, Chained, WasStored;
    if e.ChangeInstallation? {
      var r := Moved(e.read, e.status);
      if InstallationError(s.store.installations, r, e.expected).None? {
        InstallationWritten(s.store.installations, s.history, e.read, r, e.expected);
      }
    } else if e.Drain? {
      var r := e.drained.(status := Uninstalled, revision := e.drained.revision + 1);
      if InstallationError(s.store.installations, r, e.drained.revision).None? {
        InstallationWritten(s.store.installations, s.history, e.drained, r, e.drained.revision);
      }
    }
  }

  /** Over every run, however publishes interleave with each other and with every other
      operation, every active version is the pinned one. */
  lemma {:induction false} ActiveStaysPinned(states: seq<State>, events: seq<Event>, i: nat)
    requires Run(states, events) && i < |states|
    ensures ActiveIsPinned(states[i].store)
  {
    if i > 0 {
      hide Inv, Enabled, Next, ActiveIsPinned, Initial;
      ActiveStaysPinned(states, events, i - 1);
      RunInv(states, events, i - 1);
      StepKeepsActive(states[i - 1], events[i - 1]);
    }
  }

  /** So at most one version of a Skill is active, and it is the pinned one. */
  lemma OneActiveVersion(states: seq<State>, events: seq<Event>, i: nat, a: VersionId, b: VersionId)
    requires Run(states, events) && i < |states|
    requires a in states[i].store.publications && states[i].store.publications[a].status == Active
    requires b in states[i].store.publications && states[i].store.publications[b].status == Active
    ensures a.skill in states[i].store.installations
    ensures states[i].store.installations[a.skill].pinned.version == a.version
    ensures a.skill == b.skill ==> a == b
  {
    hide Enabled, Next, Initial, Run;
    ActiveStaysPinned(states, events, i);
  }

  // ---------------------------------------------------------------- which versions can be activated

  /** A revoked version whose package was purged, is not under legal hold, and whose Skill is
      uninstalled. */
  predicate PurgedAndUninstalled(st: Store, id: VersionId) {
    && id in st.publications && st.publications[id].status == Revoked
    && id in st.packages && st.packages[id].retention == Purged && !st.packages[id].legalHold
    && id.skill in st.installations && st.installations[id.skill].status == Uninstalled
  }

  /** When a request may be published, read off the store: the installation is the expected one or
      the command was seen before with this content, no later version was published, policy admits
      a changed pin; and the version is new, or purged and to be replaced, or has the digest and
      either the wanted status already or is staged or restoring at the expected revision. */
  ghost predicate MayPublish(st: Store, q: Request, policyAllows: bool) {
    var skill := SkillId(q.tenant, q.digest.publisher, q.digest.name);
    var id, key := VersionId(skill, q.digest.version), CommandKey(q.tenant, q.commandId);
    && (q.activate ==>
          && (q.expectedInstallationRevision.Some? ==>
                || q.expectedInstallationRevision.value ==
                     (if skill in st.installations then st.installations[skill].revision else 0)
                || (key in st.commands && st.commands[key].requestDigest == q.requestDigest))
          && (forall k :: k in st.publications && k.skill == skill && st.publications[k].status != Staged ==>
                !Lt(q.digest.version, k.version))
          && (skill in st.installations && st.installations[skill].pinned != q.digest ==> policyAllows))
    && (if id !in st.publications then q.expectedRevision == 0
        else
          var stored := st.publications[id];
          || (q.activate && PurgedAndUninstalled(st, id))
          || (stored.digest == q.digest && stored.status == (if q.activate then Active else Staged))
          || (stored.digest == q.digest && q.activate && stored.revision == q.expectedRevision
              && (stored.status == Staged || stored.status == Restoring)))
  }

  /** A request read from the current store is accepted exactly then. */
  lemma FreshAcceptedIff(st: Store, q: Request, policyAllows: bool)
    requires Backed(st) && PinBacked(st)
    ensures CommitNow(st, q, FreshReads(st, q, policyAllows)).Ok? <==> MayPublish(st, q, policyAllows)
  {
    hide Backed, PinBacked, CommitFor, Lt;
    FreshFacts(st, q, policyAllows);
    var seen := FreshReads(st, q, policyAllows);
    assert NewerPublished(seen.publications, SkillFor(q), q.digest.version) <==>
        !forall k :: k in st.publications && k.skill == SkillFor(q) && st.publications[k].status != Staged ==>
          !Lt(q.digest.version, k.version);
  }

  /** Only a publish activates a version, and only its own: a new one, a purged one of an
      uninstalled Skill, or one it saw staged or restoring at the stored revision. */
  lemma ActivationsAre(s: State, e: Event, k: VersionId)
    requires Inv(s) && Enabled(s, e)
    requires k in Next(s, e).store.publications && Next(s, e).store.publications[k].status == Active
    requires k in s.store.publications ==> s.store.publications[k].status != Active
    ensures e.Publish? && e.request.activate && k == IdFor(e.request)
    ensures k in s.store.publications ==>
      || PurgedAndUninstalled(s.store, k)
      || (e.seen.existing.Some?
          && (e.seen.existing.value.status == Staged || e.seen.existing.value.status == Restoring)
          && e.seen.existing.value.revision == s.store.publications[k].revision)
  {
    if e.Publish? {
      PublishActivates(s.store, e.request, e.seen, k);
    } else {
      OtherStepActivatesNone(s, e, k);
    }
  }

  lemma OtherStepActivatesNone(s: State, e: Event, k: VersionId)
    requires Inv(s) && Enabled(s, e) && !e.Publish?
    requires k in Next(s, e).store.publications && Next(s, e).store.publications[k].status == Active
    ensures k in s.store.publications && s.store.publications[k].status == Active
  {
    hide Remembered, PinBacked, Backed, Removable, OwnsUpgrade, Claimable, RetentionError;
    hide InstallationError, FilterOut, Unsent, CommandsOf, Forgotten, IdOf, SkillOf, AfterRequest;
    hide ReadsFit, Chained, WasStored;
  }

  lemma PublishActivates(st: Store, q: Request, seen: Reads, k: VersionId)
    requires Backed(st) && PinBacked(st) && ReadsFit(q, seen)
    requires k in AfterRequest(st, q, seen).publications
    requires AfterRequest(st, q, seen).publications[k].status == Active
    requires k in st.publications ==> st.publications[k].status != Active
    ensures q.activate && k == IdFor(q)
    ensures k in st.publications ==>
      || PurgedAndUninstalled(st, k)
      || (seen.existing.Some?
          && (seen.existing.value.status == Staged || seen.existing.value.status == Restoring)
          && seen.existing.value.revision == st.publications[k].revision)
  {
    hide Backed, PinBacked, FirstCommit, AfterPublish, PackageEffect, InstallationEffect, CommitNow, WellBuilt;
    var built := CommitNow(st, q, seen);
    if built.Ok? {
      BuildsNow(st, q, seen);
      CommitIsAtomic(st, built.value);
      if FirstCommit(st, built.value) {
        CommitActivates(st, q, seen);
      }
    }
  }

  /** What the store checks of an activating commit, whatever the request saw. */
  lemma CommitActivates(st: Store, q: Request, seen: Reads)
    requires Backed(st) && PinBacked(st) && ReadsFit(q, seen) && CommitNow(st, q, seen).Ok?
    requires FirstCommit(st, CommitNow(st, q, seen).value)
    ensures var c, k := CommitNow(st, q, seen).value, IdFor(q);
            && IdOf(c.package) == k && (c.publication.status == Active <==> q.activate)
            && (q.activate && k in st.publications && st.publications[k].status != Active ==>
                  || PurgedAndUninstalled(st, k)
                  || (seen.existing.Some?
                      && (seen.existing.value.status == Staged || seen.existing.value.status == Restoring)
                      && seen.existing.value.revision == st.publications[k].revision))
  {
    hide NewerPublished, PinBacked, UpgradeError, PackageError, InstallationStep, Upgraded, Recorded;
  }

  /** So a publish with current reads activates no other revoked, quarantined or retired version. */
  lemma FreshPublishRevivesNone(s: State, q: Request, policyAllows: bool, k: VersionId)
    requires Inv(s) && k in s.store.publications && s.store.publications[k].status != Active
    requires var s' := Next(s, Publish(q, FreshReads(s.store, q, policyAllows)));
             k in s'.store.publications && s'.store.publications[k].status == Active
    ensures k == IdFor(q)
    ensures s.store.publications[k].status == Staged || s.store.publications[k].status == Restoring
            || PurgedAndUninstalled(s.store, k)
  {
    hide Next, PurgedAndUninstalled, Chained, Backed, PinBacked;
    FreshFits(s.store, q, policyAllows);
    ActivationsAre(s, Publish(q, FreshReads(s.store, q, policyAllows)), k);
  }
}
