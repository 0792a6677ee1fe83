/** The in-memory Skill lifecycle store (InMemorySkillLifecycleStore).

Packages, publications and installations live in separate dictionaries that a publish
commit changes together, with a snapshot to roll back to. The functions give the effect of
each store method on the store's value; the class carries the methods out in place.

A package digest is a hash of the whole package, manifest included, so it determines the
publisher, the name and the version; the model keeps these in the digest.
*/
module SkillLifecycle {
  import opened Wrappers
  import opened VersionOrder

  type Version = string

  datatype SkillId = SkillId(tenant: string, publisher: string, name: string)

  datatype VersionId = VersionId(skill: SkillId, version: Version)

  datatype Digest = Digest(publisher: string, name: string, version: Version, content: string)

  datatype Retention = Retained | Purged

  datatype Package = Package(
    tenant: string, digest: Digest, retention: Retention, legalHold: bool, retentionRevision: int)

  datatype PublicationStatus = Staged | Validating | Active | Restoring | Quarantined | Retired | Revoked

  datatype RevocationAction = Continue | Pause | Cancel

  datatype Publication = Publication(
    id: VersionId, digest: Digest, status: PublicationStatus, action: Option<RevocationAction>, revision: int)

  datatype InstallationStatus = Installed | Disabled | Draining | Uninstalled

  /** The version constraint is always "=" and the version of the pinned digest. */
  datatype Installation = Installation(
    skill: SkillId, pinned: Digest, status: InstallationStatus, revision: int)

  datatype Phase = PhaseDraining | PhaseDeleting | PhaseCompleted | PhaseBlocked

  datatype Upgrade = Upgrade(
    skill: SkillId, version: Version, digest: Digest, generation: int, phase: Phase)

  datatype Claim = Claim(token: nat, generation: int, expiresAt: int)

  datatype Commit = Commit(
    commandId: string, requestDigest: string, expectedPublicationRevision: int, package: Package,
    publication: Publication, installation: Option<Installation>, replacePurged: bool,
    upgrade: Option<Upgrade>, expectedInstallationRevision: Option<int>)

  datatype CommitResult = CommitResult(
    package: Package, publication: Publication, installation: Option<Installation>)

  datatype CommandKey = CommandKey(tenant: string, commandId: string)

  datatype PublishCommand = PublishCommand(requestDigest: string, result: Option<CommitResult>)

  datatype OutboxRow = OutboxRow(command: CommandKey, result: CommitResult)

  type Packages = map<VersionId, Package>
  type Publications = map<VersionId, Publication>
  type Installations = map<SkillId, Installation>

  datatype Store = Store(
    packages: Packages, tombstones: seq<Package>,
    publications: Publications, installations: Installations,
    upgrades: map<SkillId, Upgrade>, claims: map<SkillId, Claim>,
    commands: map<CommandKey, PublishCommand>, outbox: map<string, OutboxRow>,
    installationCommands: map<CommandKey, (string, SkillId)>, restoreCommands: map<CommandKey, string>)

  const EMPTY: Store := Store(map[], [], map[], map[], map[], map[], map[], map[], map[], map[])

  datatype Error =
    | CommandReused | VersionRemoved | RevisionConflict | NextRevisionInvalid | Downgrade
    | Immutable | DigestOwned | PackageMissing | DigestMismatch | PreconditionsChanged
    | NotFound | NotRetired | RestoreInvalid | ResultIncomplete

  // ---------------------------------------------------------------- keys

  function SkillOf(p: Package): SkillId {
    SkillId(p.tenant, p.digest.publisher, p.digest.name)
  }

  function IdOf(p: Package): VersionId {
    VersionId(SkillOf(p), p.digest.version)
  }

  function CommandOf(c: Commit): CommandKey {
    CommandKey(c.package.tenant, c.commandId)
  }

  function OutboxId(key: CommandKey): string {
    key.tenant + ":" + key.commandId + ":published"
  }

  // ---------------------------------------------------------------- single records

  function RevisionError(current: int, revision: int, expected: int): Option<Error> {
    if current != expected then Some(RevisionConflict)
    else if revision != expected + 1 then Some(NextRevisionInvalid)
    else None
  }

  predicate OwnedElsewhere(packages: Packages, p: Package) {
    exists k :: k in packages && k != IdOf(p)
      && packages[k].tenant == p.tenant && packages[k].digest == p.digest
  }

  function PackageError(packages: Packages, p: Package): Option<Error> {
    if IdOf(p) in packages
    then if packages[IdOf(p)].digest != p.digest then Some(Immutable) else None
    else if OwnedElsewhere(packages, p) then Some(DigestOwned) else None
  }

  function WithPackage(packages: Packages, p: Package): Packages {
    if IdOf(p) in packages then packages else packages[IdOf(p) := p]
  }

  function PublicationError(
    packages: Packages, publications: Publications, r: Publication, expected: int): Option<Error>
  {
    var current := if r.id in publications then publications[r.id].revision else 0;
    var revision := RevisionError(current, r.revision, expected);
    if revision.Some? then revision
    else if r.id !in packages then Some(PackageMissing)
    else if packages[r.id].digest != r.digest then Some(DigestMismatch)
    else if r.id in publications && publications[r.id].digest != r.digest then Some(Immutable)
    else None
  }

  function InstallationError(installations: Installations, r: Installation, expected: int): Option<Error> {
    RevisionError(if r.skill in installations then installations[r.skill].revision else 0,
                  r.revision, expected)
  }

  function InstalledRevision(installations: Installations, skill: SkillId): int {
    if skill in installations then installations[skill].revision else 0
  }

  /** The record belongs to a stored package with its digest. */
  predicate BackedBy(packages: Packages, r: Publication) {
    r.id in packages && packages[r.id].digest == r.digest
  }

  /** The record is the next revision of the one it replaces and keeps its digest. */
  predicate NextOf(current: Option<Publication>, r: Publication) {
    match current
    case None => r.revision == 1
    case Some(c) => r.revision == c.revision + 1 && r.digest == c.digest
  }

  // ---------------------------------------------------------------- publishing

  /** A newer published version of the same Skill stands in the way. */
  predicate NewerPublished(publications: Publications, skill: SkillId, version: Version) {
    exists k :: k in publications && k.skill == skill
      && publications[k].status != Staged && Lt(version, k.version)
  }

  function UpgradeError(st: Store, c: Commit): Option<Error> {
    var skill := SkillOf(c.package);
    if skill !in st.installations
       || c.expectedInstallationRevision != Some(st.installations[skill].revision)
    then Some(RevisionConflict)
    else if c.installation.None? || c.installation.value.revision != st.installations[skill].revision + 1
    then Some(NextRevisionInvalid)
    else if NewerPublished(st.publications, skill, c.package.digest.version) then Some(Downgrade)
    else None
  }

  predicate ReplaceReady(st: Store, c: Commit) {
    var id, skill := IdOf(c.package), SkillOf(c.package);
    && c.package.retention == Retained && c.publication.status == Active
    && c.publication.digest == c.package.digest
    && c.installation.Some? && c.installation.value.status == Installed
    && c.installation.value.pinned == c.package.digest
    && id in st.packages && st.packages[id].retention == Purged && !st.packages[id].legalHold
    && id in st.publications && st.publications[id].status == Revoked
    && st.publications[id].revision == c.expectedPublicationRevision
    && skill in st.installations && st.installations[skill].status == Uninstalled
    && c.expectedInstallationRevision == Some(st.installations[skill].revision)
  }

  function ReplaceError(st: Store, c: Commit): Option<Error> {
    if !ReplaceReady(st, c) then Some(PreconditionsChanged)
    else if c.publication.revision != st.publications[IdOf(c.package)].revision + 1 then Some(NextRevisionInvalid)
    else if c.installation.value.revision != st.installations[SkillOf(c.package)].revision + 1
    then Some(NextRevisionInvalid)
    else None
  }

  function Replaced(st: Store, c: Commit): Store
    requires ReplaceReady(st, c)
  {
    var id := IdOf(c.package);
    st.(tombstones := st.tombstones + [st.packages[id]],
        packages := st.packages[id := c.package],
        publications := st.publications[id := c.publication],
        installations := st.installations[SkillOf(c.package) := c.installation.value])
  }

  /** The publication already stands as the commit wants it. */
  predicate AlreadyPublished(publications: Publications, c: Commit) {
    && c.publication.id in publications
    && c.publication.revision == c.expectedPublicationRevision
    && publications[c.publication.id].digest == c.publication.digest
    && publications[c.publication.id].status == c.publication.status
  }

  function PublicationStep(packages: Packages, publications: Publications, c: Commit)
    : Result<Publications, Error>
  {
    if AlreadyPublished(publications, c) then Ok(publications)
    else
      var error := PublicationError(packages, publications, c.publication, c.expectedPublicationRevision);
      if error.Some? then Err(error.value) else Ok(publications[c.publication.id := c.publication])
  }

  function InstallationStep(installations: Installations, c: Commit)
    : Result<(Installations, Option<Installation>), Error>
  {
    if c.installation.None? then Ok((installations, None))
    else
      var r := c.installation.value;
      if r.skill !in installations || c.upgrade.Some? then
        var expected := if r.skill !in installations then 0
                        else if c.expectedInstallationRevision.Some? then c.expectedInstallationRevision.value
                        else 0;
        var error := InstallationError(installations, r, expected);
        if error.Some? then Err(error.value) else Ok((installations[r.skill := r], Some(r)))
      else
        var current := installations[r.skill];
        if current.status != r.status || current.pinned != r.pinned then Err(RevisionConflict)
        else Ok((installations, Some(current)))
  }

  /** The three dictionaries after a commit's package, publication and installation. */
  function Written(st: Store, c: Commit): Result<(Store, CommitResult), Error> {
    if c.replacePurged then
      var error := ReplaceError(st, c);
      if error.Some? then Err(error.value)
      else Ok((Replaced(st, c), CommitResult(c.package, c.publication, c.installation)))
    else
      var error := PackageError(st.packages, c.package);
      if error.Some? then Err(error.value)
      else
        var packages := WithPackage(st.packages, c.package);
        var published := PublicationStep(packages, st.publications, c);
        if published.Err? then Err(published.error)
        else
          var installed := InstallationStep(st.installations, c);
          if installed.Err? then Err(installed.error)
          else Ok((st.(packages := packages, publications := published.value,
                       installations := installed.value.0),
                   CommitResult(packages[IdOf(c.package)], published.value[c.publication.id],
                                installed.value.1)))
  }

  function Supersede(r: Publication): Publication {
    r.(status := Revoked, action := Some(Continue), revision := r.revision + 1)
  }

  /** Every other active version of the Skill is superseded. */
  function Superseded(publications: Publications, id: VersionId): Publications {
    map k | k in publications ::
      if k.skill == id.skill && k != id && publications[k].status == Active
      then Supersede(publications[k]) else publications[k]
  }

  function Upgraded(st: Store, c: Commit, result: CommitResult): Store {
    if c.upgrade.None? then st
    else st.(publications := Superseded(st.publications, result.publication.id),
             upgrades := st.upgrades[SkillOf(result.package) := c.upgrade.value])
  }

  function Recorded(st: Store, c: Commit, result: CommitResult): Store {
    var key := CommandOf(c);
    st.(commands := st.commands[key := PublishCommand(c.requestDigest, Some(result))],
        outbox := st.outbox[OutboxId(key) := OutboxRow(key, result)])
  }

  /** A first commit of a command: the new store and the result, or the error. */
  function Committed(st: Store, c: Commit): Result<(Store, CommitResult), Error> {
    var upgradeError := if c.upgrade.Some? then UpgradeError(st, c) else None;
    if upgradeError.Some? then Err(upgradeError.value)
    else
      var written := Written(st, c);
      if written.Err? then Err(written.error)
      else
        var (left, result) := written.value;
        Ok((Recorded(Upgraded(left, c, result), c, result), result))
  }

  /** The answer to a repeated command. */
  function Replay(st: Store, c: Commit): Result<CommitResult, Error>
    requires CommandOf(c) in st.commands
  {
    var command := st.commands[CommandOf(c)];
    if command.requestDigest != c.requestDigest then Err(CommandReused)
    else if command.result.None? then Err(VersionRemoved)
    else
      var result := command.result.value;
      if result.publication.id in st.publications
      then Ok(result.(publication := st.publications[result.publication.id])) else Ok(result)
  }

  function AfterPublish(st: Store, c: Commit): Store {
    if CommandOf(c) in st.commands || Committed(st, c).Err? then st else Committed(st, c).value.0
  }

  function PublishAnswer(st: Store, c: Commit): Result<CommitResult, Error> {
    if CommandOf(c) in st.commands then Replay(st, c)
    else if Committed(st, c).Err? then Err(Committed(st, c).error)
    else Ok(Committed(st, c).value.1)
  }

  // ---------------------------------------------------------------- other operations

  function RestoreError(st: Store, expected: int, updated: Publication): Option<Error> {
    if updated.id !in st.publications then Some(NotFound)
    else
      var current := st.publications[updated.id];
      if current.revision != expected then Some(RevisionConflict)
      else if current.status != Retired then Some(NotRetired)
      else if updated.status != Restoring || updated.revision != current.revision + 1
              || updated.digest != current.digest then Some(RestoreInvalid)
      else None
  }

  predicate OwnsUpgrade(st: Store, state: Upgrade, token: nat, now: int) {
    && state.skill in st.upgrades && st.upgrades[state.skill].generation == state.generation
    && state.skill in st.claims && st.claims[state.skill].token == token
    && st.claims[state.skill].generation == state.generation && st.claims[state.skill].expiresAt > now
  }

  predicate IsReplaced(state: Upgrade, p: Package) {
    SkillOf(p) == state.skill && p.digest != state.digest && Le(p.digest.version, state.version)
  }

  predicate Removable(st: Store, state: Upgrade, token: nat, p: Package, now: int) {
    && OwnsUpgrade(st, state, token, now) && IsReplaced(state, p) && !p.legalHold
    && (SkillOf(p) in st.installations ==> st.installations[SkillOf(p)].pinned != p.digest)
    && (IdOf(p) in st.packages && st.packages[IdOf(p)].digest == p.digest ==>
          && !st.packages[IdOf(p)].legalHold
          && (IdOf(p) in st.publications ==>
                st.publications[IdOf(p)].status == Revoked
                && st.publications[IdOf(p)].action == Some(Cancel)))
  }

  function FilterOut(tombstones: seq<Package>, p: Package): seq<Package> {
    if tombstones == [] then []
    else if IdOf(tombstones[0]) == IdOf(p) && tombstones[0].digest == p.digest
    then FilterOut(tombstones[1..], p)
    else [tombstones[0]] + FilterOut(tombstones[1..], p)
  }

  predicate ResultOf(command: PublishCommand, p: Package) {
    command.result.Some? && IdOf(command.result.value.package) == IdOf(p)
      && command.result.value.package.digest == p.digest
  }

  function Forgotten(commands: map<CommandKey, PublishCommand>, p: Package): map<CommandKey, PublishCommand> {
    map k | k in commands ::
      if ResultOf(commands[k], p) then PublishCommand(commands[k].requestDigest, None) else commands[k]
  }

  function CommandsOf(commands: map<CommandKey, PublishCommand>, p: Package): set<CommandKey> {
    set k | k in commands && ResultOf(commands[k], p)
  }

  function Unsent(outbox: map<string, OutboxRow>, gone: set<CommandKey>): map<string, OutboxRow> {
    map x | x in outbox && outbox[x].command !in gone :: outbox[x]
  }

  function Removed(st: Store, p: Package): Store {
    var current := IdOf(p) in st.packages && st.packages[IdOf(p)].digest == p.digest;
    st.(packages := if current then st.packages - {IdOf(p)} else st.packages,
        publications := if current then st.publications - {IdOf(p)} else st.publications,
        tombstones := FilterOut(st.tombstones, p),
        commands := Forgotten(st.commands, p),
        outbox := Unsent(st.outbox, CommandsOf(st.commands, p)))
  }

  function AfterInstallationChange(
    st: Store, key: CommandKey, requestDigest: string, expected: int, r: Installation): Store
  {
    if key in st.installationCommands || InstallationError(st.installations, r, expected).Some? then st
    else st.(
      installations := st.installations[r.skill := r],
      installationCommands := st.installationCommands[key := (requestDigest, r.skill)])
  }

  function InstallationAnswer(
    st: Store, key: CommandKey, requestDigest: string, expected: int, r: Installation)
    : Result<Installation, Error>
  {
    if key in st.installationCommands then
      var (digest, skill) := st.installationCommands[key];
      if digest != requestDigest then Err(CommandReused)
      else if skill !in st.installations then Err(ResultIncomplete)
      else Ok(st.installations[skill])
    else
      var error := InstallationError(st.installations, r, expected);
      if error.Some? then Err(error.value) else Ok(r)
  }

  function AfterRestore(
    st: Store, key: CommandKey, requestDigest: string, expected: int, updated: Publication): Store
  {
    if key in st.restoreCommands || RestoreError(st, expected, updated).Some? then st
    else st.(publications := st.publications[updated.id := updated],
             restoreCommands := st.restoreCommands[key := requestDigest])
  }

  function RestoreAnswer(
    st: Store, key: CommandKey, requestDigest: string, expected: int, updated: Publication)
    : Result<Publication, Error>
  {
    if key in st.restoreCommands then
      if st.restoreCommands[key] != requestDigest then Err(CommandReused)
      else if updated.id !in st.publications then Err(ResultIncomplete)
      else Ok(st.publications[updated.id])
    else
      var error := RestoreError(st, expected, updated);
      if error.Some? then Err(error.value) else Ok(updated)
  }

  function RetentionError(st: Store, p: Package, expected: int): Option<Error> {
    if IdOf(p) !in st.packages then Some(NotFound)
    else if st.packages[IdOf(p)].digest != p.digest then Some(Immutable)
    else RevisionError(st.packages[IdOf(p)].retentionRevision, p.retentionRevision, expected)
  }

  function WithRetention(st: Store, p: Package): Store {
    st.(packages := st.packages[IdOf(p) := p])
  }

  predicate Claimable(st: Store, state: Upgrade, now: int) {
    && state.skill in st.upgrades && st.upgrades[state.skill].generation == state.generation
    && st.upgrades[state.skill].phase != PhaseCompleted
    && (state.skill in st.claims ==> st.claims[state.skill].expiresAt <= now)
  }

  function WithClaim(st: Store, state: Upgrade, token: nat, until: int): Store {
    st.(claims := st.claims[state.skill := Claim(token, state.generation, until)])
  }

  function WithPhase(st: Store, state: Upgrade, phase: Phase): Store
    requires state.skill in st.upgrades
  {
    st.(upgrades := st.upgrades[state.skill := st.upgrades[state.skill].(phase := phase)],
        claims := if phase != PhaseDeleting then st.claims - {state.skill} else st.claims)
  }

  // ---------------------------------------------------------------- the store, updated in place

  class LifecycleStore {
    var packages: Packages
    var tombstones: seq<Package>
    var publications: Publications
    var installations: Installations
    var upgrades: map<SkillId, Upgrade>
    var claims: map<SkillId, Claim>
    var commands: map<CommandKey, PublishCommand>
    var outbox: map<string, OutboxRow>
    var installationCommands: map<CommandKey, (string, SkillId)>
    var restoreCommands: map<CommandKey, string>

    function View(): Store
      reads this
    {
      Store(packages, tombstones, publications, installations, upgrades, claims, commands, outbox,
            installationCommands, restoreCommands)
    }

    constructor ()
      ensures View() == EMPTY
    {
      packages, tombstones, publications, installations := map[], [], map[], map[];
      upgrades, claims, commands, outbox := map[], map[], map[], map[];
      installationCommands, restoreCommands := map[], map[];
    }

    method PutPackage(p: Package) returns (error: Option<Error>)
      modifies this`packages
      ensures error == PackageError(old(packages), p)
      ensures packages == if error.None? then WithPackage(old(packages), p) else old(packages)
    {
      if IdOf(p) in packages {
        return if packages[IdOf(p)].digest != p.digest then Some(Immutable) else None;
      }
      if OwnedElsewhere(packages, p) {
        return Some(DigestOwned);
      }
      packages := packages[IdOf(p) := p];
      return None;
    }

    method PutPublication(r: Publication, expected: int) returns (error: Option<Error>)
      modifies this`publications
      ensures error == PublicationError(packages, old(publications), r, expected)
      ensures publications == if error.None? then old(publications)[r.id := r] else old(publications)
      ensures error.None? ==> BackedBy(packages, r) && NextOf(Get(old(publications), r.id), r)
    {
      var current := 0;
      if r.id in publications {
        current := publications[r.id].revision;
      }
      if current != expected {
        return Some(RevisionConflict);
      }
      if r.revision != expected + 1 {
        return Some(NextRevisionInvalid);
      }
      if r.id !in packages {
        return Some(PackageMissing);
      }
      if packages[r.id].digest != r.digest {
        return Some(DigestMismatch);
      }
      if r.id in publications && publications[r.id].digest != r.digest {
        return Some(Immutable);
      }
      publications := publications[r.id := r];
      return None;
    }

    method PutInstallation(r: Installation, expected: int) returns (error: Option<Error>)
      modifies this`installations
      ensures error == InstallationError(old(installations), r, expected)
      ensures installations == if error.None? then old(installations)[r.skill := r] else old(installations)
      ensures error.None? <==> InstalledRevision(old(installations), r.skill) == expected == r.revision - 1
    {
      var current := 0;
      if r.skill in installations {
        current := installations[r.skill].revision;
      }
      if current != expected {
        return Some(RevisionConflict);
      }
      if r.revision != expected + 1 {
        return Some(NextRevisionInvalid);
      }
      installations := installations[r.skill := r];
      return None;
    }

    method ReplacePurged(c: Commit) returns (error: Option<Error>)
      modifies this`packages, this`tombstones, this`publications, this`installations
      ensures error == ReplaceError(old(View()), c)
      ensures View() == if error.None? then Replaced(old(View()), c) else old(View())
      ensures error.None? ==>
        var id, skill := IdOf(c.package), SkillOf(c.package);
        && old(publications)[id].revision + 1 == publications[id].revision == c.publication.revision
        && InstalledRevision(old(installations), skill) + 1 == InstalledRevision(installations, skill)
        && publications[id].digest == packages[id].digest == installations[skill].pinned
        && old(packages)[id].retention == Purged && tombstones == old(tombstones) + [old(packages)[id]]
    {
      var id, skill := IdOf(c.package), SkillOf(c.package);
      if c.package.retention != Retained
         || c.publication.status != Active || c.publication.digest != c.package.digest
         || c.installation.None? || c.installation.value.status != Installed
         || c.installation.value.pinned != c.package.digest
         || id !in packages || packages[id].retention != Purged || packages[id].legalHold
         || id !in publications || publications[id].status != Revoked
         || publications[id].revision != c.expectedPublicationRevision
         || skill !in installations || installations[skill].status != Uninstalled
         || Some(installations[skill].revision) != c.expectedInstallationRevision
      {
        return Some(PreconditionsChanged);
      }
      if c.publication.revision != publications[id].revision + 1 {
        return Some(NextRevisionInvalid);
      }
      if c.installation.value.revision != installations[skill].revision + 1 {
        return Some(NextRevisionInvalid);
      }
      tombstones := tombstones + [packages[id]];
      packages := packages[id := c.package];
      publications := publications[id := c.publication];
      installations := installations[skill := c.installation.value];
      return None;
    }

    /** The part of a commit that may fail half way through. */
    method Write(c: Commit) returns (result: Result<CommitResult, Error>)
      modifies this`packages, this`tombstones, this`publications, this`installations
      ensures result.Ok? <==> Written(old(View()), c).Ok?
      ensures result.Ok? ==> (View(), result.value) == Written(old(View()), c).value
      ensures result.Err? ==> result.error == Written(old(View()), c).error
    {
      hide PublicationError, PackageError, ReplaceError, InstallationError;
      if c.replacePurged {
        var error := ReplacePurged(c);
        return if error.Some? then Err(error.value)
               else Ok(CommitResult(c.package, c.publication, c.installation));
      }
      var error := PutPackage(c.package);
      if error.Some? {
        return Err(error.value);
      }
      var package := packages[IdOf(c.package)];
      if !AlreadyPublished(publications, c) {
        error := PutPublication(c.publication, c.expectedPublicationRevision);
        if error.Some? {
          return Err(error.value);
        }
      }
      var publication := publications[c.publication.id];
      if c.installation.None? {
        return Ok(CommitResult(package, publication, None));
      }
      var r := c.installation.value;
      if r.skill !in installations {
        error := PutInstallation(r, 0);
      } else if c.upgrade.Some? {
        error := PutInstallation(r, if c.expectedInstallationRevision.Some?
                                    then c.expectedInstallationRevision.value else 0);
      } else if installations[r.skill].status != r.status || installations[r.skill].pinned != r.pinned {
        error := Some(RevisionConflict);
      } else {
        return Ok(CommitResult(package, publication, Some(installations[r.skill])));
      }
      return if error.Some? then Err(error.value) else Ok(CommitResult(package, publication, Some(r)));
    }

    /** The loop that supersedes the other active versions. */
    method SupersedeOthers(id: VersionId)
      modifies this`publications
      ensures publications == Superseded(old(publications), id)
    {
      ghost var before := publications;
      var todo := publications.Keys;
      while todo != {}
        invariant todo <= publications.Keys == before.Keys
        invariant forall k :: k in before ==>
          publications[k] == if k in todo then before[k] else Superseded(before, id)[k]
        decreases todo
      {
        var k :| k in todo;
        if k.skill == id.skill && k.version != id.version && publications[k].status == Active {
          publications := publications[k := Supersede(publications[k])];
        }
        todo := todo - {k};
      }
    }

    /** commit_publish: on any error the snapshot is restored, so a failed commit changes nothing. */
    method CommitPublish(c: Commit) returns (answer: Result<CommitResult, Error>)
      modifies this
      ensures answer == PublishAnswer(old(View()), c)
      ensures View() == AfterPublish(old(View()), c)
    {
      hide Written, UpgradeError, Superseded;
      var key := CommandOf(c);
      if key in commands {
        return Replay(View(), c);
      }
      if c.upgrade.Some? {
        var error := UpgradeError(View(), c);
        if error.Some? {
          return Err(error.value);
        }
      }
      var oldPackages, oldTombstones := packages, tombstones;
      var oldPublications, oldInstallations := publications, installations;
      var result := Write(c);
      if result.Err? {
        packages, tombstones := oldPackages, oldTombstones;
        publications, installations := oldPublications, oldInstallations;
        return Err(result.error);
      }
      if c.upgrade.Some? {
        SupersedeOthers(result.value.publication.id);
        upgrades := upgrades[SkillOf(result.value.package) := c.upgrade.value];
      }
      commands := commands[key := PublishCommand(c.requestDigest, Some(result.value))];
      outbox := outbox[OutboxId(key) := OutboxRow(key, result.value)];
      return Ok(result.value);
    }

    method CommitInstallationChange(
      key: CommandKey, requestDigest: string, expected: int, r: Installation)
      returns (answer: Result<Installation, Error>)
      modifies this
      ensures answer == InstallationAnswer(old(View()), key, requestDigest, expected, r)
      ensures View() == AfterInstallationChange(old(View()), key, requestDigest, expected, r)
    {
      hide InstallationError;
      if key in installationCommands {
        var (digest, skill) := installationCommands[key];
        return if digest != requestDigest then Err(CommandReused)
               else if skill !in installations then Err(ResultIncomplete)
               else Ok(installations[skill]);
      }
      var error := PutInstallation(r, expected);
      if error.Some? {
        return Err(error.value);
      }
      installationCommands := installationCommands[key := (requestDigest, r.skill)];
      return Ok(r);
    }

    method CommitRestore(key: CommandKey, requestDigest: string, expected: int, updated: Publication)
      returns (answer: Result<Publication, Error>)
      modifies this
      ensures answer == RestoreAnswer(old(View()), key, requestDigest, expected, updated)
      ensures View() == AfterRestore(old(View()), key, requestDigest, expected, updated)
    {
      if key in restoreCommands {
        return if restoreCommands[key] != requestDigest then Err(CommandReused)
               else if updated.id !in publications then Err(ResultIncomplete)
               else Ok(publications[updated.id]);
      }
      if updated.id !in publications {
        return Err(NotFound);
      }
      var current := publications[updated.id];
      if current.revision != expected {
        return Err(RevisionConflict);
      }
      if current.status != Retired {
        return Err(NotRetired);
      }
      if updated.status != Restoring || updated.revision != current.revision + 1
         || updated.digest != current.digest
      {
        return Err(RestoreInvalid);
      }
      publications := publications[updated.id := updated];
      restoreCommands := restoreCommands[key := requestDigest];
      return Ok(updated);
    }

    method RemoveReplaced(state: Upgrade, token: nat, p: Package, now: int) returns (removed: bool)
      modifies this
      ensures removed == Removable(old(View()), state, token, p, now)
      ensures View() == if removed then Removed(old(View()), p) else old(View())
    {
      hide Removed, Removable;
      removed := MayRemove(state, token, p, now);
      if removed {
        Erase(p);
      }
    }

    method MayRemove(state: Upgrade, token: nat, p: Package, now: int) returns (may: bool)
      ensures may == Removable(View(), state, token, p, now)
    {
      hide OwnsUpgrade, IsReplaced;
      if !OwnsUpgrade(View(), state, token, now) || !IsReplaced(state, p) || p.legalHold {
        return false;
      }
      var id := IdOf(p);
      if SkillOf(p) in installations && installations[SkillOf(p)].pinned == p.digest {
        return false;
      }
      if id in packages && packages[id].digest == p.digest {
        if id in publications
           && (publications[id].status != Revoked || publications[id].action != Some(Cancel)) {
          return false;
        }
        if packages[id].legalHold {
          return false;
        }
      }
      return true;
    }

    method Erase(p: Package)
      modifies this
      ensures View() == Removed(old(View()), p)
    {
      hide Forgotten, CommandsOf, Unsent, FilterOut, IdOf;
      var id := IdOf(p);
      if id in packages && packages[id].digest == p.digest {
        publications := publications - {id};
        packages := packages - {id};
      }
      FilterTombstones(p);
      var gone := ForgetResults(p);
      DropOutbox(gone);
    }

    method FilterTombstones(p: Package)
      modifies this`tombstones
      ensures tombstones == FilterOut(old(tombstones), p)
    {
      var kept: seq<Package> := [];
      for i := 0 to |tombstones|
        invariant kept + FilterOut(tombstones[i..], p) == FilterOut(tombstones, p)
        invariant tombstones == old(tombstones)
      {
        if !(IdOf(tombstones[i]) == IdOf(p) && tombstones[i].digest == p.digest) {
          kept := kept + [tombstones[i]];
        }
      }
      tombstones := kept;
    }

    /** Commands that published the package keep their digest and lose their result. */
    method ForgetResults(p: Package) returns (gone: set<CommandKey>)
      modifies this`commands
      ensures commands == Forgotten(old(commands), p) && gone == CommandsOf(old(commands), p)
    {
      hide ResultOf;
      ghost var before := commands;
      gone := {};
      var todo := commands.Keys;
      while todo != {}
        invariant todo <= commands.Keys == before.Keys
        invariant forall k :: k in before ==>
          commands[k] == if k in todo then before[k] else Forgotten(before, p)[k]
        invariant forall k :: k in gone <==> k in before && k !in todo && ResultOf(before[k], p)
        decreases todo
      {
        var k :| k in todo;
        if ResultOf(commands[k], p) {
          commands := commands[k := PublishCommand(commands[k].requestDigest, None)];
          gone := gone + {k};
        }
        todo := todo - {k};
      }
    }

    method DropOutbox(gone: set<CommandKey>)
      modifies this`outbox
      ensures outbox == Unsent(old(outbox), gone)
    {
      ghost var before := outbox;
      var todo := outbox.Keys;
      while todo != {}
        invariant todo <= outbox.Keys <= before.Keys
        invariant forall x :: x in outbox <==> x in before && (x in todo || before[x].command !in gone)
        invariant forall x :: x in outbox ==> outbox[x] == before[x]
        decreases todo
      {
        var x :| x in todo;
        if outbox[x].command in gone {
          outbox := outbox - {x};
        }
        todo := todo - {x};
      }
    }
  }
}
