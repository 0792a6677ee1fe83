/** Selection of publications, tools and resources for the requirements of a Skill
(SkillPackageRegistry.candidates, _resolve_tool, _resolve_resource): of everything that meets a
requirement, the first of the newest is taken. */
module SkillSelection {
  import opened Wrappers
  import opened VersionOrder

  datatype ToolRequirement = ToolRequirement(name: string, version: string)

  datatype SkillRequirement = SkillRequirement(name: string, version: string, publisher: Option<string>)

  /** `usable` says that the publication is active and discoverable. */
  datatype Publication = Publication(
    publisher: string, name: string, version: string, digest: string, usable: bool,
    roles: set<string>, tools: seq<ToolRequirement>, resources: seq<string>, skills: seq<SkillRequirement>)

  datatype Kind = Tool | Resource | ResourceTemplate | OtherKind

  /** `live` says that the capability is active or degraded. */
  datatype Capability = Capability(
    id: string, kind: Kind, name: string, version: string, uriTemplate: Option<string>,
    digest: string, readOnly: bool, server: string, live: bool)

  /** The registry in insertion order, the catalog, the version rule and the policy. The policy
      sees the publication and the names of the active Skills. */
  datatype World = World(
    publications: seq<Publication>, capabilities: seq<Capability>,
    satisfies: (string, string) -> bool, allows: (Publication, seq<string>) -> bool)

  datatype Error = NotFound | Cycle | RoleDenied | PolicyDenied | InvalidVersion

  datatype ResolvedTool = ResolvedTool(id: string, name: string, version: string, digest: string, readOnly: bool)

  datatype ResolvedResource = ResolvedResource(id: string, server: string, uriTemplate: string, digest: string)

  // ---------------------------------------------------------------- choosing the newest

  function Filter<T>(xs: seq<T>, keep: T -> bool): seq<T> {
    if xs == [] then []
    else Filter(xs[..|xs| - 1], keep) + (if keep(xs[|xs| - 1]) then [xs[|xs| - 1]] else [])
  }

  lemma {:induction false} FilterMembers<T>(xs: seq<T>, keep: T -> bool, x: T)
    ensures x in Filter(xs, keep) <==> x in xs && keep(x)
  {
    if xs != [] {
      FilterMembers(xs[..|xs| - 1], keep, x);
      assert xs == xs[..|xs| - 1] + [xs[|xs| - 1]];
    }
  }

  function Semver(version: string): Option<seq<nat>> {
    var parts := Split(Before(version, '-'), '.');
    if |parts| == 3 && CoreParses(parts) then Some(Numbers(parts)) else None
  }

  /** On versions of Semantic Versioning 2.0.0 these are the three numbers. */
  lemma SemverOfRender(v: SemVer)
    requires ValidIdents(v.prerelease)
    ensures Semver(Render(v)) == Some([v.major, v.minor, v.patch])
  {
    hide Split, Before, After, Render, ParseNat, Decimal, CoreText;
    RenderParts(v);
    CoreTextSplits(v);
    ParseDecimal(v.major);
    ParseDecimal(v.minor);
    ParseDecimal(v.patch);
    assert Numbers([Decimal(v.major), Decimal(v.minor), Decimal(v.patch)]) == [v.major, v.minor, v.patch];
  }

  predicate AllSemantic<T>(xs: seq<T>, version: T -> string) {
    forall i :: 0 <= i < |xs| ==> Semver(version(xs[i])).Some?
  }

  /** Both versions are semantic and the first has the lower numbers. */
  predicate LowerVersion(v: string, w: string) {
    var a, b := Semver(v), Semver(w);
    a.Some? && b.Some? && LexLt(NatLt, a.value, b.value)
  }

  predicate Older<T>(version: T -> string, x: T, y: T) {
    LowerVersion(version(x), version(y))
  }

  /** The first of the newest. */
  function Newest<T>(xs: seq<T>, version: T -> string): (x: T)
    requires xs != []
    ensures x in xs
  {
    if |xs| == 1 then xs[0]
    else
      var best := Newest(xs[..|xs| - 1], version);
      if Older(version, best, xs[|xs| - 1]) then xs[|xs| - 1] else best
  }

  /** On semantic versions not being older is a total order up to equal numbers. */
  lemma OlderOrder<T>(version: T -> string, x: T, y: T, z: T)
    ensures !Older(version, x, x)
    ensures Older(version, x, y) && Older(version, y, z) ==> Older(version, x, z)
    ensures Semver(version(x)).Some? && !Older(version, y, x) && Older(version, y, z) ==> Older(version, x, z)
  {
    hide Semver, LexLt;
    assert StrictTotal(NatLt);
    var a, b, c := Semver(version(x)), Semver(version(y)), Semver(version(z));
    if a.Some? { LexIrreflexive(NatLt, a.value); }
    if a.Some? && b.Some? {
      LexTotal(NatLt, a.value, b.value);
      if Older(version, x, y) && Older(version, y, z) {
        LexTransitive(NatLt, a.value, b.value, c.value);
      }
    }
  }

  /** `x` fits, no fitting item is newer, and every earlier fitting item is older. */
  ghost predicate FirstNewest<T>(xs: seq<T>, fits: T -> bool, version: T -> string, x: T) {
    exists i: nat :: FirstNewestAt(xs, fits, version, x, i)
  }

  ghost predicate FirstNewestAt<T>(xs: seq<T>, fits: T -> bool, version: T -> string, x: T, i: nat) {
    && i < |xs| && xs[i] == x && fits(x)
    && (forall j :: 0 <= j < i && fits(xs[j]) ==> Older(version, xs[j], x))
    && (forall j :: i < j < |xs| && fits(xs[j]) ==> !Older(version, x, xs[j]))
  }

  lemma FirstNewestUnique<T>(xs: seq<T>, fits: T -> bool, version: T -> string, x: T, y: T)
    requires FirstNewest(xs, fits, version, x) && FirstNewest(xs, fits, version, y)
    ensures x == y
  {
    hide Older;
    var i: nat :| FirstNewestAt(xs, fits, version, x, i);
    var j: nat :| FirstNewestAt(xs, fits, version, y, j);
  }

  ghost predicate AllFitSemantic<T>(xs: seq<T>, fits: T -> bool, version: T -> string) {
    forall i :: 0 <= i < |xs| && fits(xs[i]) ==> Semver(version(xs[i])).Some?
  }

  lemma FilterSemantic<T>(xs: seq<T>, fits: T -> bool, version: T -> string)
    ensures AllSemantic(Filter(xs, fits), version) <==> AllFitSemantic(xs, fits, version)
  {
    hide Semver;
    var kept := Filter(xs, fits);
    forall i | 0 <= i < |kept| ensures kept[i] in xs && fits(kept[i]) {
      FilterMembers(xs, fits, kept[i]);
    }
    forall i | 0 <= i < |xs| && fits(xs[i]) ensures xs[i] in kept {
      FilterMembers(xs, fits, xs[i]);
    }
  }

  /** The newest of the fitting items is the first of those that nothing fitting is newer than. */
  lemma {:induction false} NewestIsNewest<T>(xs: seq<T>, fits: T -> bool, version: T -> string)
    requires Filter(xs, fits) != [] && AllFitSemantic(xs, fits, version)
    ensures FirstNewest(xs, fits, version, Newest(Filter(xs, fits), version))
  {
    hide Older, Semver, FirstNewestAt, AllFitSemantic;
    var n := |xs| - 1;
    var front, last := xs[..n], xs[n];
    var kept := Filter(front, fits);
    FrontSemantic(xs, fits, version);
    if kept != [] {
      NewestIsNewest(front, fits, version);
      var best := Newest(kept, version);
      var i: nat :| FirstNewestAt(front, fits, version, best, i);
      if fits(last) {
        assert (kept + [last])[..|kept|] == kept;
        NewestGrows(xs, fits, version, best, i);
      } else {
        assert Filter(xs, fits) == kept;
        NewestStays(xs, fits, version, best, i);
      }
    } else {
      NewestAlone(xs, fits, version);
    }
  }

  lemma FrontSemantic<T>(xs: seq<T>, fits: T -> bool, version: T -> string)
    requires xs != [] && AllFitSemantic(xs, fits, version)
    ensures AllFitSemantic(xs[..|xs| - 1], fits, version)
  {
    hide Semver;
  }

  lemma NewestAlone<T>(xs: seq<T>, fits: T -> bool, version: T -> string)
    requires xs != [] && Filter(xs[..|xs| - 1], fits) == [] && fits(xs[|xs| - 1])
    ensures FirstNewestAt(xs, fits, version, xs[|xs| - 1], |xs| - 1)
  {
    hide Older;
    var n := |xs| - 1;
    forall j | 0 <= j < n ensures !fits(xs[j]) {
      assert xs[..n][j] == xs[j];
      FilterMembers(xs[..n], fits, xs[j]);
    }
  }

  lemma NewestStays<T>(xs: seq<T>, fits: T -> bool, version: T -> string, best: T, i: nat)
    requires xs != [] && !fits(xs[|xs| - 1]) && FirstNewestAt(xs[..|xs| - 1], fits, version, best, i)
    ensures FirstNewestAt(xs, fits, version, best, i)
  {
    hide Older;
    var n := |xs| - 1;
    assert forall j :: 0 <= j < n ==> xs[..n][j] == xs[j];
  }

  lemma NewestGrows<T>(xs: seq<T>, fits: T -> bool, version: T -> string, best: T, i: nat)
    requires xs != [] && AllFitSemantic(xs, fits, version) && fits(xs[|xs| - 1])
    requires FirstNewestAt(xs[..|xs| - 1], fits, version, best, i)
    ensures var n := |xs| - 1;
            if Older(version, best, xs[n]) then FirstNewestAt(xs, fits, version, xs[n], n)
            else FirstNewestAt(xs, fits, version, best, i)
  {
    hide Older, Semver;
    var n := |xs| - 1;
    assert forall j :: 0 <= j < n ==> xs[..n][j] == xs[j];
    if Older(version, xs[i], xs[n]) {
      forall j | 0 <= j < n && fits(xs[j]) ensures Older(version, xs[j], xs[n]) {
        OlderOrder(version, xs[j], xs[i], xs[n]);
      }
    }
  }

  function PublicationVersion(): Publication -> string {
    (p: Publication) => p.version
  }

  function CapabilityVersion(): Capability -> string {
    (c: Capability) => c.version
  }

  function NamedBy(req: SkillRequirement): Publication -> bool {
    (p: Publication) => p.usable && p.name == req.name && (req.publisher.None? || p.publisher == req.publisher.value)
  }

  function Satisfying(world: World, req: SkillRequirement): Publication -> bool {
    (p: Publication) => world.satisfies(p.version, req.version)
  }

  function Choose(world: World, req: SkillRequirement): Result<Publication, Error> {
    var candidates := Filter(world.publications, NamedBy(req));
    if !AllSemantic(candidates, PublicationVersion()) then Err(InvalidVersion)
    else
      var matching := Filter(candidates, Satisfying(world, req));
      if matching == [] then Err(NotFound) else Ok(Newest(matching, PublicationVersion()))
  }

  lemma FilterSnoc<T>(xs: seq<T>, last: T, keep: T -> bool)
    ensures Filter(xs + [last], keep) == Filter(xs, keep) + if keep(last) then [last] else []
  {
    assert (xs + [last])[..|xs|] == xs;
  }

  lemma {:induction false} FilterTwice<T>(xs: seq<T>, first: T -> bool, second: T -> bool, both: T -> bool)
    requires forall x :: x in xs ==> (both(x) <==> first(x) && second(x))
    ensures Filter(Filter(xs, first), second) == Filter(xs, both)
  {
    if xs != [] {
      hide Filter;
      var front, last := xs[..|xs| - 1], xs[|xs| - 1];
      assert xs == front + [last];
      FilterTwice(front, first, second, both);
      FilterSnoc(front, last, first);
      FilterSnoc(front, last, both);
      FilterSnoc(Filter(front, first), last, second);
      assert Filter(front, first) + [] == Filter(front, first);
    }
  }

  /** A usable publication of the required name and publisher. */
  predicate Offers(req: SkillRequirement, p: Publication) {
    p.usable && p.name == req.name && (req.publisher.Some? ==> p.publisher == req.publisher.value)
  }

  /** `p` is at `i` the first of the newest offers that satisfy the requirement. */
  ghost predicate ChosenAt(world: World, req: SkillRequirement, p: Publication, i: nat) {
    var all := world.publications;
    && i < |all| && all[i] == p && Offers(req, p) && world.satisfies(p.version, req.version)
    && (forall j :: 0 <= j < i && Offers(req, all[j]) && world.satisfies(all[j].version, req.version) ==>
          LowerVersion(all[j].version, p.version))
    && (forall j :: i < j < |all| && Offers(req, all[j]) && world.satisfies(all[j].version, req.version) ==>
          !LowerVersion(p.version, all[j].version))
  }

  /** A publication is chosen if and only if every offer has a semantic version and it is the
      first of the newest offers that satisfy the requirement. */
  lemma ChoiceIff(world: World, req: SkillRequirement, p: Publication)
    ensures Choose(world, req) == Ok(p) <==>
      && (forall x :: x in world.publications && Offers(req, x) ==> Semver(x.version).Some?)
      && exists i: nat :: ChosenAt(world, req, p, i)
    ensures Choose(world, req) == Err(NotFound) <==>
      && (forall x :: x in world.publications && Offers(req, x) ==> Semver(x.version).Some?)
      && forall x :: x in world.publications && Offers(req, x) ==> !world.satisfies(x.version, req.version)
  {
    hide LowerVersion, Semver, Newest, Filter;
    var all, version := world.publications, PublicationVersion();
    var meets := (x: Publication) => NamedBy(req)(x) && Satisfying(world, req)(x);
    FilterSemantic(all, NamedBy(req), version);
    FilterTwice(all, NamedBy(req), Satisfying(world, req), meets);
    var matching := Filter(all, meets);
    forall x ensures x in matching <==> x in all && meets(x) {
      FilterMembers(all, meets, x);
    }
    forall x, i: nat ensures FirstNewestAt(all, meets, version, x, i) <==> ChosenAt(world, req, x, i) {
    }
    if AllFitSemantic(all, NamedBy(req), version) && matching != [] {
      NewestIsNewest(all, meets, version);
      if FirstNewest(all, meets, version, p) {
        FirstNewestUnique(all, meets, version, p, Newest(matching, version));
      }
    }
    if i: nat :| ChosenAt(world, req, p, i) {
      assert p in matching && FirstNewestAt(all, meets, version, p, i);
    }
  }

  lemma ChoiceErrors(world: World, req: SkillRequirement)
    ensures Choose(world, req).Err? ==>
      Choose(world, req).error == NotFound || Choose(world, req).error == InvalidVersion
  {
  }

  /** The choice is a usable publication that meets the requirement. */
  lemma ChoiceMeets(world: World, req: SkillRequirement)
    requires Choose(world, req).Ok?
    ensures var p := Choose(world, req).value;
            p in world.publications && Offers(req, p) && world.satisfies(p.version, req.version)
  {
    hide LowerVersion, Semver, Choose;
    ChoiceIff(world, req, Choose(world, req).value);
  }

  // ---------------------------------------------------------------- tools and resources

  function ToolFits(world: World, req: ToolRequirement): Capability -> bool {
    (c: Capability) => c.live && c.kind == Tool && c.name == req.name && world.satisfies(c.version, req.version)
  }

  function ResourceFits(uriTemplate: string): Capability -> bool {
    (c: Capability) => c.live && (c.kind == Resource || c.kind == ResourceTemplate)
      && (c.uriTemplate == Some(uriTemplate) || c.name == uriTemplate)
  }

  function Select(world: World, fits: Capability -> bool): Result<Capability, Error> {
    var candidates := Filter(world.capabilities, fits);
    if candidates == [] then Err(NotFound)
    else if !AllSemantic(candidates, CapabilityVersion()) then Err(InvalidVersion)
    else Ok(Newest(candidates, CapabilityVersion()))
  }

  function ToolOf(c: Capability): ResolvedTool {
    ResolvedTool(c.id, c.name, c.version, c.digest, c.readOnly)
  }

  function SelectTool(world: World, req: ToolRequirement): Result<ResolvedTool, Error> {
    var selected := Select(world, ToolFits(world, req));
    if selected.Ok? then Ok(ToolOf(selected.value)) else Err(selected.error)
  }

  function SelectResource(world: World, uriTemplate: string): Result<ResolvedResource, Error> {
    var selected := Select(world, ResourceFits(uriTemplate));
    if selected.Ok?
    then Ok(ResolvedResource(selected.value.id, selected.value.server, uriTemplate, selected.value.digest))
    else Err(selected.error)
  }

  /** A live tool of the required name and version. */
  predicate MeetsTool(world: World, req: ToolRequirement, c: Capability) {
    c.live && c.kind == Tool && c.name == req.name && world.satisfies(c.version, req.version)
  }

  /** A live resource or template known under the URI. */
  predicate MeetsResource(uri: string, c: Capability) {
    c.live && (c.kind == Resource || c.kind == ResourceTemplate) && (c.uriTemplate == Some(uri) || c.name == uri)
  }

  /** `c` is at `i` the first of the newest tools that meet the requirement. */
  ghost predicate ToolAt(world: World, req: ToolRequirement, c: Capability, i: nat) {
    var all := world.capabilities;
    && i < |all| && all[i] == c && MeetsTool(world, req, c)
    && (forall j :: 0 <= j < i && MeetsTool(world, req, all[j]) ==> LowerVersion(all[j].version, c.version))
    && (forall j :: i < j < |all| && MeetsTool(world, req, all[j]) ==> !LowerVersion(c.version, all[j].version))
  }

  /** The same of the resources. */
  ghost predicate ResourceAt(world: World, uri: string, c: Capability, i: nat) {
    var all := world.capabilities;
    && i < |all| && all[i] == c && MeetsResource(uri, c)
    && (forall j :: 0 <= j < i && MeetsResource(uri, all[j]) ==> LowerVersion(all[j].version, c.version))
    && (forall j :: i < j < |all| && MeetsResource(uri, all[j]) ==> !LowerVersion(c.version, all[j].version))
  }

  ghost predicate PicksTool(world: World, req: ToolRequirement, t: ResolvedTool) {
    && (forall c :: c in world.capabilities && MeetsTool(world, req, c) ==> Semver(c.version).Some?)
    && exists c, i: nat :: ToolAt(world, req, c, i) && t == ResolvedTool(c.id, c.name, c.version, c.digest, c.readOnly)
  }

  ghost predicate PicksResource(world: World, uri: string, r: ResolvedResource) {
    && (forall c :: c in world.capabilities && MeetsResource(uri, c) ==> Semver(c.version).Some?)
    && exists c, i: nat :: ResourceAt(world, uri, c, i) && r == ResolvedResource(c.id, c.server, uri, c.digest)
  }

  lemma SelectIff(world: World, fits: Capability -> bool, c: Capability)
    ensures Select(world, fits) == Ok(c) <==>
      && AllFitSemantic(world.capabilities, fits, CapabilityVersion())
      && FirstNewest(world.capabilities, fits, CapabilityVersion(), c)
  {
    hide LowerVersion, Semver, Newest, Filter;
    var all, version := world.capabilities, CapabilityVersion();
    var matching := Filter(all, fits);
    FilterSemantic(all, fits, version);
    FilterMembers(all, fits, c);
    if i: nat :| FirstNewestAt(all, fits, version, c, i) {
      assert c in matching;
    }
    if AllFitSemantic(all, fits, version) && matching != [] {
      NewestIsNewest(all, fits, version);
      if FirstNewest(all, fits, version, c) {
        FirstNewestUnique(all, fits, version, c, Newest(matching, version));
      }
    }
  }

  lemma SelectErrs(world: World, fits: Capability -> bool)
    ensures Select(world, fits) == Err(NotFound) <==> forall x :: x in world.capabilities ==> !fits(x)
  {
    hide LowerVersion, Semver, Newest, Filter, AllSemantic;
    var matching := Filter(world.capabilities, fits);
    forall x ensures x in matching <==> x in world.capabilities && fits(x) {
      FilterMembers(world.capabilities, fits, x);
    }
    assert matching != [] ==> matching[0] in matching;
  }

  /** A tool requirement is bound to the first of the newest live tools that meet it, not found
      exactly when there is none, and invalid when one of them has no semantic version. */
  lemma ToolSelection(world: World, req: ToolRequirement, t: ResolvedTool)
    ensures SelectTool(world, req) == Ok(t) <==> PicksTool(world, req, t)
    ensures SelectTool(world, req) == Err(NotFound) <==>
      forall c :: c in world.capabilities ==> !MeetsTool(world, req, c)
  {
    hide LowerVersion, Semver, Select;
    var fits, version := ToolFits(world, req), CapabilityVersion();
    forall c, i: nat
      ensures FirstNewestAt(world.capabilities, fits, version, c, i) <==> ToolAt(world, req, c, i)
    {
    }
    SelectErrs(world, fits);
    if Select(world, fits).Ok? {
      var c := Select(world, fits).value;
      SelectIff(world, fits, c);
      var i: nat :| FirstNewestAt(world.capabilities, fits, version, c, i);
      assert ToolAt(world, req, c, i);
    }
    if PicksTool(world, req, t) {
      var c, i: nat :| ToolAt(world, req, c, i) && t == ResolvedTool(c.id, c.name, c.version, c.digest, c.readOnly);
      assert FirstNewestAt(world.capabilities, fits, version, c, i);
      SelectIff(world, fits, c);
    }
  }

  /** The same of a resource requirement. */
  lemma ResourceSelection(world: World, uri: string, r: ResolvedResource)
    ensures SelectResource(world, uri) == Ok(r) <==> PicksResource(world, uri, r)
    ensures SelectResource(world, uri) == Err(NotFound) <==>
      forall c :: c in world.capabilities ==> !MeetsResource(uri, c)
  {
    hide LowerVersion, Semver, Select;
    var fits, version := ResourceFits(uri), CapabilityVersion();
    forall c, i: nat
      ensures FirstNewestAt(world.capabilities, fits, version, c, i) <==> ResourceAt(world, uri, c, i)
    {
    }
    SelectErrs(world, fits);
    if Select(world, fits).Ok? {
      var c := Select(world, fits).value;
      SelectIff(world, fits, c);
      var i: nat :| FirstNewestAt(world.capabilities, fits, version, c, i);
      assert ResourceAt(world, uri, c, i);
    }
    if PicksResource(world, uri, r) {
      var c, i: nat :| ResourceAt(world, uri, c, i) && r == ResolvedResource(c.id, c.server, uri, c.digest);
      assert FirstNewestAt(world.capabilities, fits, version, c, i);
      SelectIff(world, fits, c);
    }
  }

  lemma ToolErrors(world: World, req: ToolRequirement)
    ensures SelectTool(world, req).Err? ==>
      SelectTool(world, req).error == NotFound || SelectTool(world, req).error == InvalidVersion
  {
  }

  lemma ResourceErrors(world: World, uri: string)
    ensures SelectResource(world, uri).Err? ==>
      SelectResource(world, uri).error == NotFound || SelectResource(world, uri).error == InvalidVersion
  {
  }

  /** Results in order, or the first error. */
  function Collect<T, U>(xs: seq<T>, each: T -> Result<U, Error>): Result<seq<U>, Error> {
    if xs == [] then Ok([])
    else
      var front := Collect(xs[..|xs| - 1], each);
      if front.Err? then front
      else
        var last := each(xs[|xs| - 1]);
        if last.Err? then Err(last.error) else Ok(front.value + [last.value])
  }

  lemma {:induction false} CollectAll<T, U>(xs: seq<T>, each: T -> Result<U, Error>)
    ensures Collect(xs, each).Ok? <==> forall i :: 0 <= i < |xs| ==> each(xs[i]).Ok?
    ensures Collect(xs, each).Ok? ==>
      && |Collect(xs, each).value| == |xs|
      && forall i :: 0 <= i < |xs| ==> each(xs[i]) == Ok(Collect(xs, each).value[i])
  {
    if xs != [] {
      CollectAll(xs[..|xs| - 1], each);
    }
  }

  function OwnTools(world: World, p: Publication): Result<seq<ResolvedTool>, Error> {
    Collect(p.tools, (req: ToolRequirement) => SelectTool(world, req))
  }

  function OwnResources(world: World, p: Publication): Result<seq<ResolvedResource>, Error> {
    Collect(p.resources, (uri: string) => SelectResource(world, uri))
  }
}
