/** How a publish request becomes a commit, and what the commit changes.

A publish request reads the store, decides, builds a commit from what it read, and hands it
to the store in a later step (SkillPublicationService._publish). Between the first reads and
the commit any other operation may run, so the model lets a commit be built from any values
these reads may have had. The installation is read once more right before the commit, with
no suspension in between, so that read belongs to the committing step and is current.
*/
module SkillPublication {
  import opened Wrappers
  import opened VersionOrder
  import opened SkillLifecycle

  datatype Request = Request(
    tenant: string, commandId: string, requestDigest: string, digest: Digest, activate: bool,
    expectedRevision: int, expectedInstallationRevision: Option<int>)

  /** What a publish read first, each at its own time. `policyAllows` stands for the dependency
      checks of an upgrade. */
  datatype Reads = Reads(
    existing: Option<Publication>, package: Option<Package>, installation: Option<Installation>,
    publications: Publications, replayDigest: Option<string>, policyAllows: bool)

  datatype Refusal =
    | RefusedRevision | RefusedDowngrade | RefusedImmutable | RefusedTransition
    | RefusedMissingPackage | RefusedPolicy

  function SkillFor(q: Request): SkillId {
    SkillId(q.tenant, q.digest.publisher, q.digest.name)
  }

  function IdFor(q: Request): VersionId {
    VersionId(SkillFor(q), q.digest.version)
  }

  function Desired(q: Request): PublicationStatus {
    if q.activate then Active else Staged
  }

  // ---------------------------------------------------------------- the decision

  predicate ReplacesPurged(q: Request, seen: Reads) {
    && seen.existing.Some? && seen.existing.value.status == Revoked
    && seen.package.Some? && seen.package.value.retention == Purged && !seen.package.value.legalHold
    && seen.installation.Some? && seen.installation.value.status == Uninstalled
    && q.activate
  }

  function RequestRefusal(q: Request, seen: Reads): Option<Refusal> {
    var revision := if seen.installation.Some? then seen.installation.value.revision else 0;
    if q.activate && q.expectedInstallationRevision.Some? && q.expectedInstallationRevision.value != revision
       && seen.replayDigest != Some(q.requestDigest)
    then Some(RefusedRevision)
    else if q.activate && NewerPublished(seen.publications, SkillFor(q), q.digest.version)
    then Some(RefusedDowngrade)
    else None
  }

  function ExistingRefusal(q: Request, seen: Reads): Option<Refusal> {
    if seen.existing.None? then
      if q.expectedRevision != 0 then Some(RefusedRevision) else None
    else if ReplacesPurged(q, seen) then None
    else
      var existing := seen.existing.value;
      if existing.digest != q.digest then Some(RefusedImmutable)
      else if existing.status == Desired(q) then None
      else if !(q.activate && (existing.status == Staged || existing.status == Restoring))
      then Some(RefusedTransition)
      else if existing.revision != q.expectedRevision then Some(RefusedRevision)
      else None
  }

  /** The package the commit carries; None when the publication's package is missing. */
  function PackageFor(q: Request, seen: Reads): Option<Package> {
    if seen.existing.None? || ReplacesPurged(q, seen)
    then Some(Package(q.tenant, q.digest, Retained, false, 1))
    else seen.package
  }

  function PolicyRefuses(q: Request, seen: Reads, package: Package): bool {
    q.activate && seen.installation.Some? && seen.installation.value.pinned != package.digest
    && !seen.policyAllows
  }

  // ---------------------------------------------------------------- the commit

  /** The new publication record and the revision it expects to find. */
  function PublicationFor(q: Request, seen: Reads, package: Package): (Publication, int) {
    if seen.existing.None? then (Publication(IdFor(q), package.digest, Desired(q), None, 1), 0)
    else
      var existing := seen.existing.value;
      if ReplacesPurged(q, seen) then
        (existing.(digest := package.digest, status := Active, action := None,
                   revision := existing.revision + 1), existing.revision)
      else if existing.status != Desired(q) then
        (existing.(status := Desired(q), revision := existing.revision + 1), q.expectedRevision)
      else (existing, existing.revision)
  }

  /** `again` is the installation as read right before the commit. */
  function InstallationFor(q: Request, seen: Reads, again: Option<Installation>, package: Package)
    : Option<Installation>
  {
    if ReplacesPurged(q, seen) then
      var current := seen.installation.value;
      Some(current.(pinned := package.digest, status := Installed, revision := current.revision + 1))
    else if !q.activate then None
    else if again.Some? then
      var current := again.value;
      if current.pinned == package.digest then None
      else Some(current.(pinned := package.digest, revision := current.revision + 1))
    else Some(Installation(SkillFor(q), package.digest, Installed, 1))
  }

  function CommitFor(q: Request, seen: Reads, again: Option<Installation>, package: Package): Commit {
    var (publication, expected) := PublicationFor(q, seen, package);
    var installation := InstallationFor(q, seen, again, package);
    var upgrade :=
      if installation.Some? && seen.installation.Some?
      then Some(Upgrade(SkillFor(q), q.digest.version, package.digest,
                        installation.value.revision, PhaseDraining))
      else None;
    Commit(q.commandId, q.requestDigest, expected, package, publication, installation,
           ReplacesPurged(q, seen), upgrade,
           if (ReplacesPurged(q, seen) || upgrade.Some?) && seen.installation.Some?
           then Some(seen.installation.value.revision) else None)
  }

  function BuildCommit(q: Request, seen: Reads, again: Option<Installation>): Result<Commit, Refusal> {
    var request := RequestRefusal(q, seen);
    if request.Some? then Err(request.value)
    else
      var existing := ExistingRefusal(q, seen);
      if existing.Some? then Err(existing.value)
      else
        var package := PackageFor(q, seen);
        if package.None? then Err(RefusedMissingPackage)
        else if PolicyRefuses(q, seen, package.value) then Err(RefusedPolicy)
        else Ok(CommitFor(q, seen, again, package.value))
  }

  /** Records read by key are records of that key. */
  predicate ReadsFit(q: Request, seen: Reads) {
    && (seen.existing.Some? ==> seen.existing.value.id == IdFor(q))
    && (seen.package.Some? ==> IdOf(seen.package.value) == IdFor(q))
    && (seen.installation.Some? ==> seen.installation.value.skill == SkillFor(q))
  }

  function FreshReads(st: Store, q: Request, policyAllows: bool): Reads {
    Reads(Get(st.publications, IdFor(q)),
          if IdFor(q) in st.publications then Get(st.packages, IdFor(q)) else None,
          Get(st.installations, SkillFor(q)), st.publications,
          if CommandKey(q.tenant, q.commandId) in st.commands
          then Some(st.commands[CommandKey(q.tenant, q.commandId)].requestDigest) else None,
          policyAllows)
  }

  /** The commit a request builds in the step that commits it. */
  function CommitNow(st: Store, q: Request, seen: Reads): Result<Commit, Refusal> {
    BuildCommit(q, seen, Get(st.installations, SkillFor(q)))
  }

  /** What every commit the service builds has in common, however old its reads are. */
  predicate WellBuilt(c: Commit) {
    && c.publication.id == IdOf(c.package)
    && (c.installation.Some? ==>
          && c.installation.value.skill == SkillOf(c.package)
          && c.installation.value.pinned == c.package.digest
          && c.publication.status == Active)
    && (c.replacePurged ==> c.upgrade.Some? && c.publication.digest == c.package.digest)
    && (c.upgrade.Some? ==>
          && c.installation.Some?
          && c.upgrade.value.skill == SkillOf(c.package)
          && c.upgrade.value.digest == c.package.digest)
    && (c.publication.status == Staged ==>
          c.publication.revision == c.expectedPublicationRevision || c.expectedPublicationRevision == 0)
  }

  lemma BuildsWell(q: Request, seen: Reads, again: Option<Installation>)
    requires ReadsFit(q, seen) && (again.Some? ==> again.value.skill == SkillFor(q))
    requires BuildCommit(q, seen, again).Ok?
    ensures WellBuilt(BuildCommit(q, seen, again).value)
    ensures SkillOf(BuildCommit(q, seen, again).value.package) == SkillFor(q)
  {
    hide NewerPublished;
  }

  // ---------------------------------------------------------------- what a commit changes

  /** Only the commit's own key can gain or change a package, and it ends up with that digest. */
  ghost predicate PackageEffect(before: Packages, c: Commit, after: Packages) {
    var id := IdOf(c.package);
    && after.Keys == before.Keys + {id}
    && (forall k :: k in before && k != id ==> after[k] == before[k])
    && IdOf(after[id]) == id && after[id].digest == c.package.digest
  }

  /** The commit's own publication ends up with the wanted status; with `superseding`, the other
      active versions of the Skill are revoked, and nothing else changes. */
  ghost predicate PublicationEffect(before: Publications, c: Commit, superseding: bool, after: Publications) {
    var id := IdOf(c.package);
    && after.Keys == before.Keys + {id}
    && after[id].id == id && after[id].digest == c.package.digest
    && after[id].status == c.publication.status && after[id].revision >= 1
    && (id in before ==>
          && after[id].revision >= before[id].revision
          && (!c.replacePurged ==> after[id].digest == before[id].digest)
          && (c.publication.status == Staged ==> before[id].status == Staged))
    && (forall k :: k in before && k != id ==>
          after[k] == if superseding && k.skill == id.skill && before[k].status == Active
                     then Supersede(before[k]) else before[k])
  }

  /** Only the Skill's own installation can change, by one revision; when there was one, only
      an upgrade changes it, and no published version is newer than the new pin. */
  ghost predicate InstallationEffect(before: Installations, st: Store, c: Commit, after: Installations) {
    var skill := SkillOf(c.package);
    if c.installation.None? || (skill in before && c.upgrade.None?) then after == before
    else
      && after == before[skill := c.installation.value]
      && (if skill in before
          then c.installation.value.revision == before[skill].revision + 1
               && !NewerPublished(st.publications, skill, c.package.digest.version)
          else c.installation.value.revision == 1)
  }

  /** The exact effect of a successful first commit on each dictionary. */
  ghost predicate CommitEffect(st: Store, c: Commit, st': Store) {
    var id := IdOf(c.package);
    && PackageEffect(st.packages, c, st'.packages)
    && PublicationEffect(st.publications, c, c.upgrade.Some?, st'.publications)
    && InstallationEffect(st.installations, st, c, st'.installations)
    && st'.tombstones ==
         (if c.replacePurged && id in st.packages then st.tombstones + [st.packages[id]] else st.tombstones)
  }

  /** Packages and publications come in pairs of equal key and digest, and revisions start at one. */
  ghost predicate Backed(st: Store) {
    && (forall k :: k in st.packages ==> IdOf(st.packages[k]) == k && k in st.publications)
    && (forall k :: k in st.publications ==>
          && st.publications[k].id == k && st.publications[k].revision >= 1
          && k in st.packages && st.packages[k].digest == st.publications[k].digest)
  }

  lemma PackageStepEffect(packages: Packages, c: Commit)
    requires forall k :: k in packages ==> IdOf(packages[k]) == k
    requires PackageError(packages, c.package).None?
    ensures PackageEffect(packages, c, WithPackage(packages, c.package))
  {
    hide OwnedElsewhere, IdOf;
  }

  lemma PublicationStepEffect(packages: Packages, publications: Publications, c: Commit)
    requires c.publication.id == IdOf(c.package)
    requires c.publication.status == Staged ==>
      c.publication.revision == c.expectedPublicationRevision || c.expectedPublicationRevision == 0
    requires IdOf(c.package) in packages && packages[IdOf(c.package)].digest == c.package.digest
    requires IdOf(c.package) in publications ==>
      && publications[IdOf(c.package)].id == IdOf(c.package)
      && publications[IdOf(c.package)].revision >= 1
      && publications[IdOf(c.package)].digest == c.package.digest
    requires PublicationStep(packages, publications, c).Ok?
    ensures PublicationEffect(publications, c, false, PublicationStep(packages, publications, c).value)
  {
    hide IdOf;
  }

  lemma InstallationStepEffect(st: Store, c: Commit)
    requires WellBuilt(c) && InstallationStep(st.installations, c).Ok?
    requires c.upgrade.Some? ==> UpgradeError(st, c).None?
    ensures InstallationEffect(st.installations, st, c, InstallationStep(st.installations, c).value.0)
  {
    hide NewerPublished, IdOf;
  }

  lemma ReplacedEffect(st: Store, c: Commit)
    requires Backed(st) && WellBuilt(c) && ReplaceError(st, c).None? && UpgradeError(st, c).None?
    requires c.replacePurged
    ensures IdOf(c.package) in st.packages
    ensures var st' := Replaced(st, c);
            && PackageEffect(st.packages, c, st'.packages)
            && PublicationEffect(st.publications, c, false, st'.publications)
            && InstallationEffect(st.installations, st, c, st'.installations)
            && st'.tombstones == st.tombstones + [st.packages[IdOf(c.package)]]
  {
    hide NewerPublished, IdOf, PackageEffect, PublicationEffect, Backed;
    var id := IdOf(c.package);
    assert PackageEffect(st.packages, c, Replaced(st, c).packages) by {
      PackagePutEffect(st.packages, c);
    }
    assert PublicationEffect(st.publications, c, false, Replaced(st, c).publications) by {
      BackedAt(st, id);
      PublicationPutEffect(st.publications, c);
    }
  }

  lemma BackedKeys(st: Store)
    requires Backed(st)
    ensures forall k :: k in st.packages ==> IdOf(st.packages[k]) == k
  {
  }

  lemma BackedAt(st: Store, id: VersionId)
    requires Backed(st)
    ensures id in st.packages ==> IdOf(st.packages[id]) == id && id in st.publications
    ensures id in st.publications ==>
      && st.publications[id].id == id && st.publications[id].revision >= 1
      && id in st.packages && st.packages[id].digest == st.publications[id].digest
  {
  }

  lemma PackagePutEffect(packages: Packages, c: Commit)
    ensures PackageEffect(packages, c, packages[IdOf(c.package) := c.package])
  {
    hide IdOf;
  }

  lemma PublicationPutEffect(publications: Publications, c: Commit)
    requires c.publication.id == IdOf(c.package) && c.publication.digest == c.package.digest
    requires c.publication.revision >= 1
    requires IdOf(c.package) in publications ==>
      && c.publication.revision > publications[IdOf(c.package)].revision && c.publication.status != Staged
      && (c.replacePurged || publications[IdOf(c.package)].digest == c.package.digest)
    ensures PublicationEffect(publications, c, false, publications[c.publication.id := c.publication])
  {
    hide IdOf;
  }

  lemma SupersededEffect(before: Publications, c: Commit, after: Publications)
    requires PublicationEffect(before, c, false, after)
    ensures PublicationEffect(before, c, true, Superseded(after, IdOf(c.package)))
  {
  }

  /** The dictionaries a commit writes, before superseding. */
  lemma WrittenEffect(st: Store, c: Commit)
    requires Backed(st) && WellBuilt(c) && Written(st, c).Ok?
    requires c.upgrade.Some? ==> UpgradeError(st, c).None?
    ensures var (left, result) := Written(st, c).value;
            && CommitEffect(st, c, left.(publications := Upgraded(left, c, result).publications))
            && SkillOf(result.package) == SkillOf(c.package)
            && left.commands == st.commands && left.outbox == st.outbox && left.claims == st.claims
  {
    hide PackageEffect, PublicationEffect, InstallationEffect, Superseded, UpgradeError;
    hide PackageError, ReplaceError, PublicationStep, InstallationStep, Backed, IdOf, SkillOf;
    BackedAt(st, IdOf(c.package));
    BackedKeys(st);
    var (left, result) := Written(st, c).value;
    if c.replacePurged {
      ReplacedEffect(st, c);
    } else {
      hide ReplaceReady;
      PackageStepEffect(st.packages, c);
      var packages := WithPackage(st.packages, c.package);
      KeyedAt(st.packages, c, packages);
      PublicationStepEffect(packages, st.publications, c);
      PublishedAt(st.publications, c, false, left.publications);
      InstallationStepEffect(st, c);
    }
    if c.upgrade.Some? {
      SupersededEffect(st.publications, c, left.publications);
    }
  }

  lemma KeyedAt(before: Packages, c: Commit, after: Packages)
    requires PackageEffect(before, c, after)
    ensures var id := IdOf(c.package);
            && id in after && SkillOf(after[id]) == SkillOf(c.package)
            && after[id].digest == c.package.digest
            && (id in before && !c.replacePurged && PackageError(before, c.package).None? ==>
                  before[id].digest == c.package.digest)
  {
  }

  lemma PublishedAt(before: Publications, c: Commit, superseding: bool, after: Publications)
    requires PublicationEffect(before, c, superseding, after)
    ensures var id := IdOf(c.package);
            && id in after && after[id].id == id
            && after[id].digest == c.package.digest && after[id].status == c.publication.status
  {
  }

  predicate FirstCommit(st: Store, c: Commit) {
    CommandOf(c) !in st.commands && PublishAnswer(st, c).Ok?
  }

  /** A failed or repeated commit changes nothing; a first one has exactly the stated effect,
      records its answer and adds its outbox row. */
  lemma CommitIsAtomic(st: Store, c: Commit)
    requires Backed(st) && WellBuilt(c)
    ensures !FirstCommit(st, c) ==> AfterPublish(st, c) == st
    ensures FirstCommit(st, c) ==>
      var st', answer := AfterPublish(st, c), PublishAnswer(st, c).value;
      && CommitEffect(st, c, st')
      && st'.commands == st.commands[CommandOf(c) := PublishCommand(c.requestDigest, Some(answer))]
      && st'.outbox == st.outbox[OutboxId(CommandOf(c)) := OutboxRow(CommandOf(c), answer)]
      && st'.claims == st.claims
  {
    hide Written, UpgradeError, WellBuilt, Backed, PackageEffect, PublicationEffect, InstallationEffect;
    hide Superseded, Replay;
    if FirstCommit(st, c) {
      WrittenEffect(st, c);
    }
  }
}
