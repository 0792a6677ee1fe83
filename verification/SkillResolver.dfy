/** Resolution of a Skill and its dependencies (SkillResolver.resolve) on a frozen registry.

Resolving a Skill picks a publication, then its tools and resources, then resolves every
required Skill with the name added to the dependency path, and merges what the children
found. A name that is already on the path is a cycle.
*/
module SkillResolver {
  import opened Wrappers
  import opened SkillSelection

  /** The capability id of a Skill hashes its publisher, name and version. */
  datatype SkillKey = SkillKey(publisher: string, name: string, version: string)

  datatype Dependency = Dependency(key: SkillKey, digest: string)

  datatype Binding = Binding(
    skill: Dependency, tools: seq<ResolvedTool>, resources: seq<ResolvedResource>, skills: seq<Dependency>)

  function KeyFor(p: Publication): SkillKey {
    SkillKey(p.publisher, p.name, p.version)
  }

  function DependencyFor(p: Publication): Dependency {
    Dependency(KeyFor(p), p.digest)
  }

  /** Structural assignment roles stand for the roles of Skill policy. */
  function EffectiveRole(assignment: string): string {
    if assignment == "root" then "coordinator"
    else if assignment == "repair" then "worker"
    else assignment
  }

  // ---------------------------------------------------------------- first occurrences

  /** The items whose id did not occur before. */
  function Unique<T, I(==)>(items: seq<T>, id: T -> I): seq<T> {
    if items == [] then []
    else
      var front, last := items[..|items| - 1], items[|items| - 1];
      Unique(front, id) + (if exists i :: 0 <= i < |front| && id(front[i]) == id(last) then [] else [last])
  }

  /** The dictionary loop: setdefault keeps the first item of each id, in order. */
  method UniqueById<T, I(==)>(items: seq<T>, id: T -> I) returns (unique: seq<T>)
    ensures unique == Unique(items, id)
  {
    var known: set<I> := {};
    unique := [];
    for n := 0 to |items|
      invariant unique == Unique(items[..n], id)
      invariant known == set i | 0 <= i < n :: id(items[i])
    {
      assert items[..n + 1][..n] == items[..n];
      if id(items[n]) !in known {
        known := known + {id(items[n])};
        unique := unique + [items[n]];
      }
    }
    assert items[..|items|] == items;
  }

  lemma {:induction false} UniqueSubset<T, I>(items: seq<T>, id: T -> I, x: T)
    requires x in Unique(items, id)
    ensures x in items
  {
    var front, last := items[..|items| - 1], items[|items| - 1];
    if x in Unique(front, id) {
      UniqueSubset(front, id, x);
    }
  }

  predicate HasId<T, I(==)>(items: seq<T>, id: T -> I, i: I) {
    exists k :: 0 <= k < |items| && id(items[k]) == i
  }

  lemma HasIdEither<T, I>(a: seq<T>, b: seq<T>, id: T -> I, i: I)
    ensures HasId(a + b, id, i) <==> HasId(a, id, i) || HasId(b, id, i)
  {
    if k :| 0 <= k < |a| && id(a[k]) == i { assert (a + b)[k] == a[k]; }
    if k :| 0 <= k < |b| && id(b[k]) == i { assert (a + b)[|a| + k] == b[k]; }
  }

  lemma UniqueSnoc<T, I>(items: seq<T>, last: T, id: T -> I)
    ensures HasId(items, id, id(last)) ==> Unique(items + [last], id) == Unique(items, id)
    ensures !HasId(items, id, id(last)) ==> Unique(items + [last], id) == Unique(items, id) + [last]
  {
    assert (items + [last])[..|items|] == items;
  }

  lemma {:induction false} UniqueHasIds<T, I>(items: seq<T>, id: T -> I, i: I)
    ensures HasId(Unique(items, id), id, i) <==> HasId(items, id, i)
  {
    if items != [] {
      var front, last := items[..|items| - 1], items[|items| - 1];
      hide Unique;
      UniqueHasIds(front, id, i);
      assert items == front + [last];
      UniqueSnoc(front, last, id);
      HasIdEither(front, [last], id, i);
      HasIdEither(Unique(front, id), [last], id, i);
      assert HasId([last], id, i) <==> id([last][0]) == i;
    }
  }

  lemma Regroup<T>(a: seq<T>, b: seq<T>, c: seq<T>)
    ensures a + (b + c) == (a + b) + c
  {
  }

  lemma UniqueRightStep<T, I>(a: seq<T>, b: seq<T>, last: T, id: T -> I)
    requires Unique(a + Unique(b, id), id) == Unique(a + b, id)
    ensures Unique(a + Unique(b + [last], id), id) == Unique(a + (b + [last]), id)
  {
    hide Unique, HasId;
    UniqueSnoc(b, last, id);
    UniqueHasIds(b, id, id(last));
    HasIdEither(a, b, id, id(last));
    HasIdEither(a, Unique(b, id), id, id(last));
    Regroup(a, b, [last]);
    UniqueSnoc(a + b, last, id);
    Regroup(a, Unique(b, id), [last]);
    UniqueSnoc(a + Unique(b, id), last, id);
  }

  /** Duplicates may be dropped from the second part first. */
  lemma {:induction false} UniqueRight<T, I>(a: seq<T>, b: seq<T>, id: T -> I)
    ensures Unique(a + Unique(b, id), id) == Unique(a + b, id)
  {
    if b != [] {
      hide Unique;
      UniqueRight(a, b[..|b| - 1], id);
      UniqueRightStep(a, b[..|b| - 1], b[|b| - 1], id);
      assert b == b[..|b| - 1] + [b[|b| - 1]];
    }
  }

  lemma UniqueLeftStep<T, I>(a: seq<T>, b: seq<T>, last: T, id: T -> I)
    requires Unique(Unique(a, id) + b, id) == Unique(a + b, id)
    ensures Unique(Unique(a, id) + (b + [last]), id) == Unique(a + (b + [last]), id)
  {
    hide Unique, HasId;
    UniqueHasIds(a, id, id(last));
    HasIdEither(a, b, id, id(last));
    HasIdEither(Unique(a, id), b, id, id(last));
    Regroup(a, b, [last]);
    UniqueSnoc(a + b, last, id);
    Regroup(Unique(a, id), b, [last]);
    UniqueSnoc(Unique(a, id) + b, last, id);
  }

  /** Duplicates may be dropped from the first part first. */
  lemma {:induction false} UniqueLeft<T, I>(a: seq<T>, b: seq<T>, id: T -> I)
    ensures Unique(Unique(a, id) + b, id) == Unique(a + b, id)
  {
    hide Unique;
    if b != [] {
      UniqueLeft(a, b[..|b| - 1], id);
      UniqueLeftStep(a, b[..|b| - 1], b[|b| - 1], id);
      assert b == b[..|b| - 1] + [b[|b| - 1]];
    } else {
      UniqueRight([], a, id);
      assert [] + Unique(a, id) == Unique(a, id) + b && [] + a == a + b;
    }
  }

  /** `x` is the first item with its id. */
  ghost predicate FirstOfId<T, I>(items: seq<T>, id: T -> I, x: T) {
    exists k :: 0 <= k < |items| && items[k] == x && !HasId(items[..k], id, id(x))
  }

  lemma {:induction false} UniqueIsFirst<T, I>(items: seq<T>, id: T -> I, x: T)
    ensures x in Unique(items, id) <==> FirstOfId(items, id, x)
  {
    if items != [] {
      var n := |items| - 1;
      var front, last := items[..n], items[n];
      UniqueIsFirst(front, id, x);
      assert items == front + [last];
      UniqueSnoc(front, last, id);
      if k :| 0 <= k < |front| && front[k] == x && !HasId(front[..k], id, id(x)) {
        assert front[..k] == items[..k] && items[k] == x;
      }
      if k :| 0 <= k < |items| && items[k] == x && !HasId(items[..k], id, id(x)) {
        if k < n {
          assert front[..k] == items[..k] && front[k] == x;
        }
      }
    }
  }

  lemma {:induction false} UniqueDistinct<T, I>(items: seq<T>, id: T -> I)
    ensures forall i, j :: 0 <= i < j < |Unique(items, id)| ==>
      id(Unique(items, id)[i]) != id(Unique(items, id)[j])
  {
    if items != [] {
      var front, last := items[..|items| - 1], items[|items| - 1];
      UniqueDistinct(front, id);
      var unique := Unique(front, id);
      forall i | 0 <= i < |unique| ensures unique[i] in front {
        UniqueSubset(front, id, unique[i]);
      }
    }
  }

  /** Where equal ids mean equal items, nothing is lost. */
  lemma UniqueSame<T, I>(items: seq<T>, id: T -> I, x: T)
    requires forall a, b :: a in items && b in items && id(a) == id(b) ==> a == b
    ensures x in Unique(items, id) <==> x in items
  {
  }

  function Names(known: seq<string>): seq<string> {
    Unique(known, (n: string) => n)
  }

  // ---------------------------------------------------------------- resolution

  function Registered(world: World): set<string> {
    set p | p in world.publications :: p.name
  }

  function OnPath(path: seq<string>): set<string> {
    set n | n in path
  }

  /** What all the children found, in order. */
  function Gather<T>(children: seq<Binding>, found: Binding -> seq<T>): seq<T> {
    if children == [] then []
    else Gather(children[..|children| - 1], found) + found(children[|children| - 1])
  }

  lemma {:induction false} GatherMembers<T>(children: seq<Binding>, found: Binding -> seq<T>, x: T)
    ensures x in Gather(children, found) <==> exists i :: 0 <= i < |children| && x in found(children[i])
  {
    if children != [] {
      var front := children[..|children| - 1];
      GatherMembers(front, found, x);
      if i :| 0 <= i < |front| && x in found(front[i]) {
        assert x in found(children[i]);
      }
    }
  }

  function ToolsOf(): Binding -> seq<ResolvedTool> { (b: Binding) => b.tools }
  function ResourcesOf(): Binding -> seq<ResolvedResource> { (b: Binding) => b.resources }
  function SkillsOf(): Binding -> seq<Dependency> { (b: Binding) => b.skills }

  function ToolId(): ResolvedTool -> string { (t: ResolvedTool) => t.id }
  function ResourceId(): ResolvedResource -> string { (r: ResolvedResource) => r.id }
  function DependencyKey(): Dependency -> SkillKey { (d: Dependency) => d.key }

  function Merge(p: Publication, tools: seq<ResolvedTool>, resources: seq<ResolvedResource>,
                 children: seq<Binding>): Binding
  {
    Binding(DependencyFor(p),
            Unique(tools + Gather(children, ToolsOf()), ToolId()),
            Unique(resources + Gather(children, ResourcesOf()), ResourceId()),
            Unique(Direct(children) + Gather(children, SkillsOf()), DependencyKey()))
  }

  function Direct(children: seq<Binding>): seq<Dependency> {
    seq(|children|, i requires 0 <= i < |children| => children[i].skill)
  }

  /** The measure: registered names that are not yet on the path. */
  function Resolve(world: World, role: string, req: SkillRequirement, active: seq<string>, path: seq<string>)
    : Result<Binding, Error>
    decreases Registered(world) - OnPath(path), 1, 0
  {
    var chosen := Choose(world, req);
    if chosen.Err? then Err(chosen.error)
    else
      var p := chosen.value;
      ChoiceMeets(world, req);
      if p.name in path then Err(Cycle)
      else if EffectiveRole(role) !in p.roles then Err(RoleDenied)
      else
        var tools, resources := OwnTools(world, p), OwnResources(world, p);
        if tools.Err? then Err(tools.error)
        else if resources.Err? then Err(resources.error)
        else
          assert p.name in Registered(world) && p.name !in OnPath(path);
          assert p.name in OnPath(path + [p.name]);
          assert OnPath(path) <= OnPath(path + [p.name]);
          var children := ResolveAll(world, role, p.skills, Names(active + path + [p.name]), path + [p.name]);
          if children.Err? then Err(children.error)
          else if !world.allows(p, active) then Err(PolicyDenied)
          else Ok(Merge(p, tools.value, resources.value, children.value))
  }

  function ResolveAll(world: World, role: string, reqs: seq<SkillRequirement>, active: seq<string>, path: seq<string>)
    : Result<seq<Binding>, Error>
    decreases Registered(world) - OnPath(path), 2, |reqs|
  {
    if reqs == [] then Ok([])
    else
      var front := ResolveAll(world, role, reqs[..|reqs| - 1], active, path);
      if front.Err? then front
      else
        var last := Resolve(world, role, reqs[|reqs| - 1], active, path);
        if last.Err? then Err(last.error) else Ok(front.value + [last.value])
  }

  // ---------------------------------------------------------------- chains of chosen dependencies

  /** `p` requires a Skill for which `q` is chosen. */
  ghost predicate Edge(world: World, p: Publication, q: Publication) {
    exists r :: r in p.skills && Choose(world, r) == Ok(q)
  }

  ghost predicate Chain(world: World, chain: seq<Publication>) {
    chain != [] && forall i :: 0 <= i < |chain| - 1 ==> Edge(world, chain[i], chain[i + 1])
  }

  /** `q` is in the transitive closure of the dependencies of `p`. */
  ghost predicate Reaches(world: World, p: Publication, q: Publication) {
    exists chain :: Chain(world, chain) && |chain| >= 2 && chain[0] == p && chain[|chain| - 1] == q
  }

  lemma ReachesIff(world: World, p: Publication, q: Publication)
    ensures Reaches(world, p, q) <==> exists c :: Edge(world, p, c) && (c == q || Reaches(world, c, q))
  {
    hide Edge;
    if Reaches(world, p, q) {
      var chain: seq<Publication> :| Chain(world, chain) && |chain| >= 2 && chain[0] == p && chain[|chain| - 1] == q;
      assert Edge(world, p, chain[1]);
      if |chain| > 2 {
        ChainTail(world, chain);
        assert chain[1..][|chain| - 2] == q;
      }
    }
    if c :| Edge(world, p, c) && (c == q || Reaches(world, c, q)) {
      if c == q {
        assert Chain(world, [p, q]);
      } else {
        var rest: seq<Publication> :| Chain(world, rest) && |rest| >= 2 && rest[0] == c && rest[|rest| - 1] == q;
        ChainPrepend(world, p, rest);
        assert ([p] + rest)[|rest|] == q;
      }
    }
  }

  lemma ChainTail(world: World, chain: seq<Publication>)
    requires Chain(world, chain) && |chain| > 1
    ensures Chain(world, chain[1..]) && Edge(world, chain[0], chain[1..][0])
  {
  }

  lemma ChainPrepend(world: World, p: Publication, rest: seq<Publication>)
    requires Chain(world, rest) && Edge(world, p, rest[0])
    ensures Chain(world, [p] + rest)
  {
  }

  // ---------------------------------------------------------------- when resolution succeeds

  /** The root works as coordinator, a repair as worker, and every other role as itself. */
  predicate RoleAllowed(role: string, p: Publication) {
    || (role == "root" && "coordinator" in p.roles)
    || (role == "repair" && "worker" in p.roles)
    || (role != "root" && role != "repair" && role in p.roles)
  }

  /** The role may use it and everything it requires itself can be selected. */
  ghost predicate LocallyFine(world: World, role: string, p: Publication) {
    && RoleAllowed(role, p)
    && (forall r :: r in p.tools ==> exists t :: PicksTool(world, r, t))
    && (forall uri :: uri in p.resources ==> exists r :: PicksResource(world, uri, r))
    && (forall r :: r in p.skills ==> Choose(world, r).Ok?)
  }

  lemma OwnToolsIff(world: World, p: Publication)
    ensures OwnTools(world, p).Ok? <==> forall r :: r in p.tools ==> exists t :: PicksTool(world, r, t)
  {
    hide SelectTool, Collect, PicksTool;
    CollectAll(p.tools, (req: ToolRequirement) => SelectTool(world, req));
    forall r: ToolRequirement ensures SelectTool(world, r).Ok? <==> exists t :: PicksTool(world, r, t) {
      if SelectTool(world, r).Ok? {
        ToolSelection(world, r, SelectTool(world, r).value);
      }
      if t :| PicksTool(world, r, t) {
        ToolSelection(world, r, t);
      }
    }
    if OwnTools(world, p).Ok? {
      forall r | r in p.tools ensures SelectTool(world, r).Ok? {
        var i :| 0 <= i < |p.tools| && p.tools[i] == r;
      }
    }
    assert forall i :: 0 <= i < |p.tools| ==> p.tools[i] in p.tools;
  }

  lemma OwnResourcesIff(world: World, p: Publication)
    ensures OwnResources(world, p).Ok? <==>
      forall uri :: uri in p.resources ==> exists r :: PicksResource(world, uri, r)
  {
    hide SelectResource, Collect, PicksResource;
    CollectAll(p.resources, (uri: string) => SelectResource(world, uri));
    forall uri: string ensures SelectResource(world, uri).Ok? <==> exists r :: PicksResource(world, uri, r) {
      if SelectResource(world, uri).Ok? {
        ResourceSelection(world, uri, SelectResource(world, uri).value);
      }
      if r :| PicksResource(world, uri, r) {
        ResourceSelection(world, uri, r);
      }
    }
    if OwnResources(world, p).Ok? {
      forall uri | uri in p.resources ensures SelectResource(world, uri).Ok? {
        var i :| 0 <= i < |p.resources| && p.resources[i] == uri;
      }
    }
    assert forall i :: 0 <= i < |p.resources| ==> p.resources[i] in p.resources;
  }

  function NamesOf(chain: seq<Publication>): seq<string> {
    seq(|chain|, i requires 0 <= i < |chain| => chain[i].name)
  }

  /** The active names the policy sees at the end of a chain. */
  function ActiveAt(active: seq<string>, path: seq<string>, chain: seq<Publication>): seq<string>
    requires chain != []
  {
    if |chain| == 1 then active else Names(active + path + NamesOf(chain[..|chain| - 1]))
  }

  ghost predicate NewNames(path: seq<string>, chain: seq<Publication>) {
    && (forall i :: 0 <= i < |chain| ==> chain[i].name !in path)
    && (forall i, j :: 0 <= i < j < |chain| ==> chain[i].name != chain[j].name)
  }

  lemma NewNamesIff(path: seq<string>, p: Publication, rest: seq<Publication>)
    ensures NewNames(path, [p] + rest) <==> p.name !in path && NewNames(path + [p.name], rest)
  {
    var chain := [p] + rest;
    assert chain[0] == p && forall i :: 0 <= i < |rest| ==> chain[i + 1] == rest[i];
    if NewNames(path, chain) {
      forall i | 0 <= i < |rest| ensures rest[i].name !in path + [p.name] {
        assert chain[i + 1].name !in path && chain[0].name != chain[i + 1].name;
      }
      forall i, j | 0 <= i < j < |rest| ensures rest[i].name != rest[j].name {
        assert chain[i + 1].name != chain[j + 1].name;
      }
    }
    if p.name !in path && NewNames(path + [p.name], rest) {
      assert p.name in path + [p.name];
      forall i, j | 0 <= i < j < |chain| ensures chain[i].name != chain[j].name {
        assert rest[j - 1].name !in path + [p.name];
        if i > 0 {
          assert rest[i - 1].name != rest[j - 1].name;
        }
      }
      forall i | 0 <= i < |chain| ensures chain[i].name !in path {
        if i > 0 {
          assert rest[i - 1].name !in path + [p.name];
        }
      }
    }
  }

  /** No name repeats along the chain or on the path to it, and its end is fine in itself. */
  ghost predicate Fine(world: World, role: string, active: seq<string>, path: seq<string>, chain: seq<Publication>)
    requires chain != []
  {
    && NewNames(path, chain)
    && LocallyFine(world, role, chain[|chain| - 1])
    && world.allows(chain[|chain| - 1], ActiveAt(active, path, chain))
  }

  ghost predicate AllFine(world: World, role: string, p: Publication, active: seq<string>, path: seq<string>) {
    forall chain :: Chain(world, chain) && chain[0] == p ==> Fine(world, role, active, path, chain)
  }

  lemma {:induction false} NamesIdempotent(xs: seq<string>)
    requires forall i, j :: 0 <= i < j < |xs| ==> xs[i] != xs[j]
    ensures Names(xs) == xs
  {
    if xs != [] {
      NamesIdempotent(xs[..|xs| - 1]);
      assert xs == xs[..|xs| - 1] + [xs[|xs| - 1]];
    }
  }

  lemma NamesMembers(xs: seq<string>, x: string)
    ensures x in Names(xs) <==> x in xs
  {
    UniqueSame(xs, (n: string) => n, x);
  }

  /** Removing repetitions early, or adding known names, makes no difference. */
  lemma {:induction false} NamesAbsorb(xs: seq<string>, known: seq<string>, ys: seq<string>)
    requires forall x :: x in known ==> x in xs
    ensures Names(Names(xs) + known + ys) == Names(xs + ys)
  {
    if ys != [] {
      var front, last := ys[..|ys| - 1], ys[|ys| - 1];
      NamesAbsorb(xs, known, front);
      NamesLast(Names(xs) + known + front, last);
      NamesLast(xs + front, last);
      assert (Names(xs) + known + front) + [last] == Names(xs) + known + ys;
      assert (xs + front) + [last] == xs + ys;
      NamesMembers(xs, last);
    } else if known != [] {
      var front, last := known[..|known| - 1], known[|known| - 1];
      NamesAbsorb(xs, front, ys);
      NamesLast(Names(xs) + front, last);
      NamesMembers(xs, last);
      assert Names(xs) + known + ys == (Names(xs) + front) + [last];
      assert Names(xs) + front + ys == Names(xs) + front;
    } else {
      UniqueDistinct(xs, (n: string) => n);
      NamesIdempotent(Names(xs));
      assert Names(xs) + known + ys == Names(xs) && xs + ys == xs;
    }
  }

  lemma NamesLast(xs: seq<string>, x: string)
    ensures Names(xs + [x]) == Names(xs) + (if x in xs then [] else [x])
  {
    assert (xs + [x])[..|xs|] == xs;
  }

  lemma ActiveAtChild(active: seq<string>, path: seq<string>, p: Publication, rest: seq<Publication>)
    requires rest != []
    ensures ActiveAt(Names(active + path + [p.name]), path + [p.name], rest) == ActiveAt(active, path, [p] + rest)
  {
    var chain, before := [p] + rest, active + path + [p.name];
    assert chain[..|chain| - 1] == [p] + rest[..|rest| - 1];
    var tail := NamesOf(rest[..|rest| - 1]);
    assert NamesOf(chain[..|chain| - 1]) == [p.name] + tail;
    assert active + path + NamesOf(chain[..|chain| - 1]) == before + tail;
    if |rest| > 1 {
      NamesAbsorb(before, path + [p.name], tail);
    } else {
      assert before + tail == before;
    }
  }

  /** A chain is fine when its tail is fine one step further down the path. */
  lemma FineIff(world: World, role: string, active: seq<string>, path: seq<string>, p: Publication,
                rest: seq<Publication>)
    requires rest != []
    ensures Fine(world, role, active, path, [p] + rest) <==>
      p.name !in path && Fine(world, role, Names(active + path + [p.name]), path + [p.name], rest)
  {
    hide LocallyFine, ActiveAt, Names, NewNames;
    ActiveAtChild(active, path, p, rest);
    NewNamesIff(path, p, rest);
    assert ([p] + rest)[|rest|] == rest[|rest| - 1];
  }

  lemma AllFineIff(world: World, role: string, p: Publication, active: seq<string>, path: seq<string>)
    ensures AllFine(world, role, p, active, path) <==>
      && p.name !in path && LocallyFine(world, role, p) && world.allows(p, active)
      && forall c :: Edge(world, p, c) ==>
           AllFine(world, role, c, Names(active + path + [p.name]), path + [p.name])
  {
    hide LocallyFine, Names, Edge;
    var active', path' := Names(active + path + [p.name]), path + [p.name];
    if AllFine(world, role, p, active, path) {
      assert Chain(world, [p]);
      assert Fine(world, role, active, path, [p]);
      forall c, rest | Edge(world, p, c) && Chain(world, rest) && rest[0] == c
        ensures Fine(world, role, active', path', rest)
      {
        ChainPrepend(world, p, rest);
        FineIff(world, role, active, path, p, rest);
      }
    }
    if p.name !in path && LocallyFine(world, role, p) && world.allows(p, active)
       && forall c :: Edge(world, p, c) ==> AllFine(world, role, c, active', path') {
      forall chain | Chain(world, chain) && chain[0] == p ensures Fine(world, role, active, path, chain) {
        if |chain| > 1 {
          var rest := chain[1..];
          ChainTail(world, chain);
          assert chain == [p] + rest;
          FineIff(world, role, active, path, p, rest);
        }
      }
    }
  }

  lemma {:induction false} ResolveAllEach(
    world: World, role: string, reqs: seq<SkillRequirement>, active: seq<string>, path: seq<string>)
    ensures var all := ResolveAll(world, role, reqs, active, path);
            && (all.Ok? <==> forall i :: 0 <= i < |reqs| ==> Resolve(world, role, reqs[i], active, path).Ok?)
            && (all.Ok? ==>
                  && |all.value| == |reqs|
                  && forall i :: 0 <= i < |reqs| ==> Resolve(world, role, reqs[i], active, path) == Ok(all.value[i]))
    decreases |reqs|
  {
    hide Resolve;
    if reqs != [] {
      ResolveAllEach(world, role, reqs[..|reqs| - 1], active, path);
    }
  }

  /** Resolution succeeds exactly when a publication is chosen and every chain of chosen
      dependencies from it has distinct names and ends in a publication that is fine in itself. */
  lemma {:induction false} ResolveIff(
    world: World, role: string, req: SkillRequirement, active: seq<string>, path: seq<string>)
    ensures Resolve(world, role, req, active, path).Ok? <==>
      && Choose(world, req).Ok?
      && AllFine(world, role, Choose(world, req).value, active, path)
    decreases Registered(world) - OnPath(path)
  {
    hide AllFine, OwnTools, OwnResources, Choose, Merge, Names, ResolveAll, PicksTool, PicksResource;
    if Choose(world, req).Ok? {
      var p := Choose(world, req).value;
      var active', path' := Names(active + path + [p.name]), path + [p.name];
      AllFineIff(world, role, p, active, path);
      OwnToolsIff(world, p);
      OwnResourcesIff(world, p);
      if p.name !in path {
        PathGrows(world, req, path);
        ResolveAllEach(world, role, p.skills, active', path');
        forall r | r in p.skills
          ensures Resolve(world, role, r, active', path').Ok? <==>
            Choose(world, r).Ok? && AllFine(world, role, Choose(world, r).value, active', path')
        {
          ResolveIff(world, role, r, active', path');
        }
        if forall r :: r in p.skills ==> Choose(world, r).Ok? {
          EdgesAre(world, role, p, active', path');
        }
        assert ResolveAll(world, role, p.skills, active', path').Ok? <==>
            forall r :: r in p.skills ==> Resolve(world, role, r, active', path').Ok?;
      }
    }
  }

  lemma PathGrows(world: World, req: SkillRequirement, path: seq<string>)
    requires Choose(world, req).Ok? && Choose(world, req).value.name !in path
    ensures Registered(world) - OnPath(path + [Choose(world, req).value.name]) < Registered(world) - OnPath(path)
  {
    hide Choose;
    ChoiceMeets(world, req);
    var name := Choose(world, req).value.name;
    assert name in Registered(world) && name !in OnPath(path);
    assert name in path + [name];
    assert name in OnPath(path + [name]) && OnPath(path) <= OnPath(path + [name]);
    assert name in Registered(world) - OnPath(path);
  }

  lemma EdgesAre(world: World, role: string, p: Publication, active: seq<string>, path: seq<string>)
    requires forall r :: r in p.skills ==> Choose(world, r).Ok?
    ensures (forall c :: Edge(world, p, c) ==> AllFine(world, role, c, active, path)) <==>
      forall r :: r in p.skills ==> AllFine(world, role, Choose(world, r).value, active, path)
  {
  }

  // ---------------------------------------------------------------- which requirement a binding keeps

  /** The publications a resolution walks through, depth first, a shared one once per use. */
  function Trail(world: World, p: Publication, path: seq<string>): seq<Publication>
    decreases Registered(world) - OnPath(path), 1, 0
  {
    if p.name in path || p.name !in Registered(world) then []
    else
      assert p.name in OnPath(path + [p.name]);
      assert OnPath(path) <= OnPath(path + [p.name]);
      [p] + TrailAll(world, p.skills, path + [p.name])
  }

  function TrailAll(world: World, reqs: seq<SkillRequirement>, path: seq<string>): seq<Publication>
    decreases Registered(world) - OnPath(path), 2, |reqs|
  {
    if reqs == [] then []
    else
      TrailAll(world, reqs[..|reqs| - 1], path)
      + (match Choose(world, reqs[|reqs| - 1])
         case Ok(c) => Trail(world, c, path)
         case Err(_) => [])
  }

  /** What each publication of a trail has of its own, in that order, with repetitions. */
  function Along<T>(trail: seq<Publication>, own: Publication -> seq<T>): seq<T> {
    if trail == [] then [] else own(trail[0]) + Along(trail[1..], own)
  }

  lemma AlongCons<T>(p: Publication, rest: seq<Publication>, own: Publication -> seq<T>)
    ensures Along([p] + rest, own) == own(p) + Along(rest, own)
  {
    assert ([p] + rest)[1..] == rest;
  }

  lemma {:induction false} AlongConcat<T>(a: seq<Publication>, b: seq<Publication>, own: Publication -> seq<T>)
    ensures Along(a + b, own) == Along(a, own) + Along(b, own)
  {
    if a == [] {
      assert a + b == b;
    } else {
      AlongConcat(a[1..], b, own);
      hide Along;
      AlongCons(a[0], a[1..], own);
      AlongCons(a[0], a[1..] + b, own);
      assert [a[0]] + a[1..] == a && [a[0]] + (a[1..] + b) == a + b;
      Regroup(own(a[0]), Along(a[1..], own), Along(b, own));
    }
  }

  function ToolsOwned(world: World): Publication -> seq<ResolvedTool> {
    (p: Publication) => if OwnTools(world, p).Ok? then OwnTools(world, p).value else []
  }

  function ResourcesOwned(world: World): Publication -> seq<ResolvedResource> {
    (p: Publication) => if OwnResources(world, p).Ok? then OwnResources(world, p).value else []
  }

  function ToolsAlong(world: World, trail: seq<Publication>): seq<ResolvedTool> {
    Along(trail, ToolsOwned(world))
  }

  function ResourcesAlong(world: World, trail: seq<Publication>): seq<ResolvedResource> {
    Along(trail, ResourcesOwned(world))
  }

  /** The binding lists what the trail requires, keeping the first of each capability id. */
  ghost predicate InOrder(world: World, trail: seq<Publication>, b: Binding) {
    && b.tools == Unique(ToolsAlong(world, trail), ToolId())
    && b.resources == Unique(ResourcesAlong(world, trail), ResourceId())
  }

  /** The children of a list of requirements are in order, one by one. */
  ghost predicate AllInOrder(world: World, reqs: seq<SkillRequirement>, path: seq<string>, children: seq<Binding>) {
    && |children| == |reqs|
    && forall i :: 0 <= i < |reqs| ==>
         Choose(world, reqs[i]).Ok? && InOrder(world, Trail(world, Choose(world, reqs[i]).value, path), children[i])
  }

  /** What the children list, after anything else, is what their trails require. */
  lemma {:induction false} GatheredInOrder(
    world: World, reqs: seq<SkillRequirement>, path: seq<string>, children: seq<Binding>,
    tools: seq<ResolvedTool>, resources: seq<ResolvedResource>)
    requires AllInOrder(world, reqs, path, children)
    ensures Unique(tools + Gather(children, ToolsOf()), ToolId()) ==
            Unique(tools + ToolsAlong(world, TrailAll(world, reqs, path)), ToolId())
    ensures Unique(resources + Gather(children, ResourcesOf()), ResourceId()) ==
            Unique(resources + ResourcesAlong(world, TrailAll(world, reqs, path)), ResourceId())
    decreases |reqs|
  {
    hide Unique, Trail, Choose, Along, ToolsOwned, ResourcesOwned;
    if reqs == [] {
      NothingAlong(world);
    } else {
      var n := |reqs| - 1;
      var front, rest := children[..n], TrailAll(world, reqs[..n], path);
      var trail := Trail(world, Choose(world, reqs[n]).value, path);
      GatheredInOrder(world, reqs[..n], path, front, tools, resources);
      AlongConcat(rest, trail, ToolsOwned(world));
      AlongConcat(rest, trail, ResourcesOwned(world));
      AppendUnique(tools, Gather(front, ToolsOf()), ToolsAlong(world, rest), ToolsAlong(world, trail), ToolId());
      AppendUnique(resources, Gather(front, ResourcesOf()), ResourcesAlong(world, rest),
                   ResourcesAlong(world, trail), ResourceId());
    }
  }

  lemma NothingAlong(world: World)
    ensures ToolsAlong(world, []) == [] && ResourcesAlong(world, []) == []
  {
  }

  lemma AppendUnique<T, I>(a: seq<T>, b: seq<T>, b': seq<T>, c: seq<T>, id: T -> I)
    requires Unique(a + b, id) == Unique(a + b', id)
    ensures Unique(a + (b + Unique(c, id)), id) == Unique(a + (b' + c), id)
  {
    hide Unique;
    assert a + (b + Unique(c, id)) == (a + b) + Unique(c, id) && a + (b' + c) == (a + b') + c;
    UniqueRight(a + b, c, id);
    UniqueLeft(a + b, c, id);
    UniqueLeft(a + b', c, id);
  }

  /** A successful resolution lists the tools and resources its trail requires, in that order,
      and of several requirements that select one capability it keeps the first. */
  lemma {:induction false} ResolveInOrder(
    world: World, role: string, req: SkillRequirement, active: seq<string>, path: seq<string>)
    requires Resolve(world, role, req, active, path).Ok?
    ensures Choose(world, req).Ok?
    ensures InOrder(world, Trail(world, Choose(world, req).value, path),
                    Resolve(world, role, req, active, path).value)
    decreases Registered(world) - OnPath(path)
  {
    hide OwnTools, OwnResources, Choose, Names, ResolveAll, Unique, InOrder, Gather, Trail;
    var p := Choose(world, req).value;
    var active', path' := Names(active + path + [p.name]), path + [p.name];
    var children := ResolveAll(world, role, p.skills, active', path').value;
    PathGrows(world, req, path);
    ResolveAllEach(world, role, p.skills, active', path');
    forall i | 0 <= i < |p.skills|
      ensures Choose(world, p.skills[i]).Ok?
      ensures InOrder(world, Trail(world, Choose(world, p.skills[i]).value, path'), children[i])
    {
      ResolveInOrder(world, role, p.skills[i], active', path');
    }
    ChoiceMeets(world, req);
    MergeInOrder(world, p, path, children);
  }

  lemma MergeInOrder(world: World, p: Publication, path: seq<string>, children: seq<Binding>)
    requires p in world.publications && p.name !in path
    requires OwnTools(world, p).Ok? && OwnResources(world, p).Ok?
    requires AllInOrder(world, p.skills, path + [p.name], children)
    ensures InOrder(world, Trail(world, p, path),
                    Merge(p, OwnTools(world, p).value, OwnResources(world, p).value, children))
  {
    hide OwnTools, OwnResources, Unique, Gather, AllInOrder, TrailAll, Along;
    var trail := TrailAll(world, p.skills, path + [p.name]);
    assert p.name in Registered(world);
    AlongCons(p, trail, ToolsOwned(world));
    AlongCons(p, trail, ResourcesOwned(world));
    GatheredInOrder(world, p.skills, path + [p.name], children,
                    OwnTools(world, p).value, OwnResources(world, p).value);
  }

  /** So a bound resource is the selection for the first requirement along the trail that
      selects its capability. */
  lemma BoundResourceIsFirst(
    world: World, role: string, req: SkillRequirement, active: seq<string>, path: seq<string>, r: ResolvedResource)
    requires Resolve(world, role, req, active, path).Ok?
    ensures Choose(world, req).Ok?
    ensures r in Resolve(world, role, req, active, path).value.resources <==>
      FirstOfId(ResourcesAlong(world, Trail(world, Choose(world, req).value, path)), ResourceId(), r)
  {
    hide Resolve, Unique, ResourcesAlong, Trail, Choose, FirstOfId;
    ResolveInOrder(world, role, req, active, path);
    UniqueIsFirst(ResourcesAlong(world, Trail(world, Choose(world, req).value, path)), ResourceId(), r);
  }

  // ---------------------------------------------------------------- what a binding holds

  predicate SameIdentity(p: Publication, q: Publication) {
    p.publisher == q.publisher && p.name == q.name && p.version == q.version
  }

  /** Skill ids and capability ids are unique, as in the registry's and the catalog's dictionaries. */
  ghost predicate UniqueWorld(world: World) {
    && (forall p, q :: p in world.publications && q in world.publications && SameIdentity(p, q) ==> p == q)
    && (forall a, b :: a in world.capabilities && b in world.capabilities && a.id == b.id ==> a == b)
  }

  /** The dependency carries the publication's identity and digest. */
  predicate Stands(d: Dependency, q: Publication) {
    d == Dependency(SkillKey(q.publisher, q.name, q.version), q.digest)
  }

  ghost predicate InClosure(world: World, p: Publication, d: Dependency) {
    exists q :: Reaches(world, p, q) && Stands(d, q)
  }

  ghost predicate NeedsTool(world: World, q: Publication, t: ResolvedTool) {
    exists r :: r in q.tools && PicksTool(world, r, t)
  }

  ghost predicate NeedsResource(world: World, q: Publication, id: string) {
    exists uri, r :: uri in q.resources && PicksResource(world, uri, r) && r.id == id
  }

  ghost predicate Within(world: World, p: Publication, q: Publication) {
    q == p || Reaches(world, p, q)
  }

  ghost predicate ToolInClosure(world: World, p: Publication, t: ResolvedTool) {
    exists q :: Within(world, p, q) && NeedsTool(world, q, t)
  }

  ghost predicate ResourceInClosure(world: World, p: Publication, id: string) {
    exists q :: Within(world, p, q) && NeedsResource(world, q, id)
  }

  predicate HoldsResource(resources: seq<ResolvedResource>, id: string) {
    exists r :: r in resources && r.id == id
  }

  ghost predicate SkillsExact(world: World, p: Publication, skills: seq<Dependency>) {
    && (forall d :: d in skills <==> InClosure(world, p, d))
    && (forall i, j :: 0 <= i < j < |skills| ==> skills[i].key != skills[j].key)
  }

  ghost predicate ToolsExact(world: World, p: Publication, tools: seq<ResolvedTool>) {
    && (forall t :: t in tools <==> ToolInClosure(world, p, t))
    && (forall i, j :: 0 <= i < j < |tools| ==> tools[i].id != tools[j].id)
  }

  ghost predicate ResourcesExact(world: World, p: Publication, resources: seq<ResolvedResource>) {
    && (forall id :: HoldsResource(resources, id) <==> ResourceInClosure(world, p, id))
    && (forall i, j :: 0 <= i < j < |resources| ==> resources[i].id != resources[j].id)
  }

  /** The binding of `p` is exactly what its closure needs. */
  ghost predicate Exact(world: World, p: Publication, b: Binding) {
    && Stands(b.skill, p) && SkillsExact(world, p, b.skills)
    && ToolsExact(world, p, b.tools) && ResourcesExact(world, p, b.resources)
  }

  /** Children stand for the required Skills, in order. */
  ghost predicate Stand(world: World, p: Publication, children: seq<Binding>) {
    && |children| == |p.skills|
    && forall i :: 0 <= i < |children| ==>
         Choose(world, p.skills[i]).Ok? && Exact(world, Choose(world, p.skills[i]).value, children[i])
  }

  /** Each dependency of `p` has its child, and each child its dependency. */
  lemma ChildOf(world: World, p: Publication, children: seq<Binding>, c: Publication) returns (i: nat)
    requires Stand(world, p, children) && Edge(world, p, c)
    ensures i < |children| && Exact(world, c, children[i])
  {
    hide Exact, Choose;
    var r :| r in p.skills && Choose(world, r) == Ok(c);
    i :| 0 <= i < |p.skills| && p.skills[i] == r;
  }

  lemma OfChild(world: World, p: Publication, children: seq<Binding>, i: nat) returns (c: Publication)
    requires Stand(world, p, children) && i < |children|
    ensures Edge(world, p, c) && Exact(world, c, children[i])
  {
    hide Exact, Choose;
    c := Choose(world, p.skills[i]).value;
    assert p.skills[i] in p.skills;
  }

  lemma WithinIff(world: World, p: Publication, q: Publication)
    ensures Within(world, p, q) <==> q == p || exists c :: Edge(world, p, c) && Within(world, c, q)
  {
    hide Reaches, Edge;
    ReachesIff(world, p, q);
  }

  lemma ReachedRegistered(world: World, p: Publication, q: Publication)
    requires Reaches(world, p, q)
    ensures q in world.publications
  {
    hide Choose;
    var chain: seq<Publication> :| Chain(world, chain) && |chain| >= 2 && chain[0] == p && chain[|chain| - 1] == q;
    assert Edge(world, chain[|chain| - 2], chain[|chain| - 2 + 1]);
    var r :| r in chain[|chain| - 2].skills && Choose(world, r) == Ok(q);
    ChoiceMeets(world, r);
  }

  lemma ClosureIff(world: World, p: Publication, children: seq<Binding>, d: Dependency)
    requires Stand(world, p, children)
    ensures InClosure(world, p, d) <==>
      exists i :: 0 <= i < |children| && (d == children[i].skill || d in children[i].skills)
  {
    hide Reaches, Edge, Stand, ToolsExact, ResourcesExact;
    if q :| Reaches(world, p, q) && Stands(d, q) {
      ReachesIff(world, p, q);
      var c :| Edge(world, p, c) && (c == q || Reaches(world, c, q));
      var i := ChildOf(world, p, children, c);
      assert d == children[i].skill || d in children[i].skills;
    }
    if i :| 0 <= i < |children| && (d == children[i].skill || d in children[i].skills) {
      var c := OfChild(world, p, children, i);
      if d == children[i].skill {
        ReachesIff(world, p, c);
      } else {
        var q :| Reaches(world, c, q) && Stands(d, q);
        ReachesIff(world, p, q);
      }
    }
  }

  lemma ToolIff(world: World, p: Publication, children: seq<Binding>, t: ResolvedTool)
    requires Stand(world, p, children)
    ensures ToolInClosure(world, p, t) <==>
      NeedsTool(world, p, t) || exists i :: 0 <= i < |children| && t in children[i].tools
  {
    hide Within, Edge, Stand, NeedsTool, SkillsExact, ResourcesExact;
    if q :| Within(world, p, q) && NeedsTool(world, q, t) {
      WithinIff(world, p, q);
      if q != p {
        var c :| Edge(world, p, c) && Within(world, c, q);
        var i := ChildOf(world, p, children, c);
        assert t in children[i].tools;
      }
    }
    WithinIff(world, p, p);
    if i :| 0 <= i < |children| && t in children[i].tools {
      var c := OfChild(world, p, children, i);
      var q :| Within(world, c, q) && NeedsTool(world, q, t);
      WithinIff(world, p, q);
    }
  }

  lemma ResourceIff(world: World, p: Publication, children: seq<Binding>, id: string)
    requires Stand(world, p, children)
    ensures ResourceInClosure(world, p, id) <==>
      NeedsResource(world, p, id) || exists i :: 0 <= i < |children| && HoldsResource(children[i].resources, id)
  {
    hide Within, Edge, Stand, NeedsResource, SkillsExact, ToolsExact, HoldsResource;
    if q :| Within(world, p, q) && NeedsResource(world, q, id) {
      WithinIff(world, p, q);
      if q != p {
        var c :| Edge(world, p, c) && Within(world, c, q);
        var i := ChildOf(world, p, children, c);
        assert HoldsResource(children[i].resources, id);
      }
    }
    WithinIff(world, p, p);
    if i :| 0 <= i < |children| && HoldsResource(children[i].resources, id) {
      var c := OfChild(world, p, children, i);
      var q :| Within(world, c, q) && NeedsResource(world, q, id);
      WithinIff(world, p, q);
    }
  }

  lemma MergedSkills(world: World, p: Publication, children: seq<Binding>)
    requires UniqueWorld(world) && Stand(world, p, children)
    ensures SkillsExact(world, p, Unique(Direct(children) + Gather(children, SkillsOf()), DependencyKey()))
  {
    hide InClosure, Stand, Unique;
    var items := Direct(children) + Gather(children, SkillsOf());
    forall d ensures d in items <==> InClosure(world, p, d) {
      GatherMembers(children, SkillsOf(), d);
      ClosureIff(world, p, children, d);
      if i :| 0 <= i < |children| && d == children[i].skill { assert Direct(children)[i] == d; }
    }
    forall a, b | a in items && b in items && DependencyKey()(a) == DependencyKey()(b) ensures a == b {
      OneDependencyPerKey(world, p, a, b);
    }
    forall d ensures d in Unique(items, DependencyKey()) <==> d in items {
      UniqueSame(items, DependencyKey(), d);
    }
    UniqueDistinct(items, DependencyKey());
  }

  lemma MergedTools(world: World, p: Publication, children: seq<Binding>)
    requires UniqueWorld(world) && Stand(world, p, children) && OwnTools(world, p).Ok?
    ensures ToolsExact(world, p, Unique(OwnTools(world, p).value + Gather(children, ToolsOf()), ToolId()))
  {
    hide ToolInClosure, Stand, Unique, OwnTools, NeedsTool;
    var items := OwnTools(world, p).value + Gather(children, ToolsOf());
    forall t ensures t in items <==> ToolInClosure(world, p, t) {
      GatherMembers(children, ToolsOf(), t);
      ToolIff(world, p, children, t);
      OwnToolsAre(world, p, t);
    }
    forall a, b | a in items && b in items && ToolId()(a) == ToolId()(b) ensures a == b {
      OneToolPerId(world, p, a, b);
    }
    forall t ensures t in Unique(items, ToolId()) <==> t in items {
      UniqueSame(items, ToolId(), t);
    }
    UniqueDistinct(items, ToolId());
  }

  lemma OwnToolsAre(world: World, p: Publication, t: ResolvedTool)
    requires OwnTools(world, p).Ok?
    ensures t in OwnTools(world, p).value <==> NeedsTool(world, p, t)
  {
    hide SelectTool, Collect, PicksTool;
    CollectAll(p.tools, (req: ToolRequirement) => SelectTool(world, req));
    if r :| r in p.tools && PicksTool(world, r, t) {
      ToolSelection(world, r, t);
      var i :| 0 <= i < |p.tools| && p.tools[i] == r;
      assert OwnTools(world, p).value[i] == t;
    }
    if t in OwnTools(world, p).value {
      var i :| 0 <= i < |p.tools| && OwnTools(world, p).value[i] == t;
      assert SelectTool(world, p.tools[i]) == Ok(t);
      ToolSelection(world, p.tools[i], t);
    }
  }

  lemma OneToolPerId(world: World, p: Publication, a: ResolvedTool, b: ResolvedTool)
    requires UniqueWorld(world) && ToolInClosure(world, p, a) && ToolInClosure(world, p, b) && a.id == b.id
    ensures a == b
  {
    hide Within, LowerVersion, Semver;
    var q :| Within(world, p, q) && NeedsTool(world, q, a);
    var r :| r in q.tools && PicksTool(world, r, a);
    var q' :| Within(world, p, q') && NeedsTool(world, q', b);
    var r' :| r' in q'.tools && PicksTool(world, r', b);
  }

  lemma MergedResources(world: World, p: Publication, children: seq<Binding>)
    requires Stand(world, p, children) && OwnResources(world, p).Ok?
    ensures ResourcesExact(
      world, p, Unique(OwnResources(world, p).value + Gather(children, ResourcesOf()), ResourceId()))
  {
    hide ResourceInClosure, Stand, Unique, OwnResources, NeedsResource;
    var own := OwnResources(world, p).value;
    var items := own + Gather(children, ResourcesOf());
    forall id ensures HoldsResource(Unique(items, ResourceId()), id) <==> ResourceInClosure(world, p, id) {
      UniqueHolds(items, id);
      ResourceIff(world, p, children, id);
      OwnResourcesAre(world, p, id);
      GatherHolds(children, id);
      HoldsEither(own, Gather(children, ResourcesOf()), id);
    }
    UniqueDistinct(items, ResourceId());
  }

  lemma HoldsEither(a: seq<ResolvedResource>, b: seq<ResolvedResource>, id: string)
    ensures HoldsResource(a + b, id) <==> HoldsResource(a, id) || HoldsResource(b, id)
  {
  }

  lemma UniqueHolds(items: seq<ResolvedResource>, id: string)
    ensures HoldsResource(Unique(items, ResourceId()), id) <==> HoldsResource(items, id)
  {
  }

  lemma GatherHolds(children: seq<Binding>, id: string)
    ensures HoldsResource(Gather(children, ResourcesOf()), id) <==>
      exists i :: 0 <= i < |children| && HoldsResource(children[i].resources, id)
  {
    hide Gather;
    if r :| r in Gather(children, ResourcesOf()) && r.id == id {
      GatherMembers(children, ResourcesOf(), r);
    }
    if i :| 0 <= i < |children| && HoldsResource(children[i].resources, id) {
      var r :| r in children[i].resources && r.id == id;
      GatherMembers(children, ResourcesOf(), r);
    }
  }

  lemma OwnResourcesAre(world: World, p: Publication, id: string)
    requires OwnResources(world, p).Ok?
    ensures HoldsResource(OwnResources(world, p).value, id) <==> NeedsResource(world, p, id)
  {
    hide SelectResource, Collect, PicksResource;
    CollectAll(p.resources, (uri: string) => SelectResource(world, uri));
    var own := OwnResources(world, p).value;
    if uri, r :| uri in p.resources && PicksResource(world, uri, r) && r.id == id {
      ResourceSelection(world, uri, r);
      var i :| 0 <= i < |p.resources| && p.resources[i] == uri;
      assert own[i] in own;
    }
    if r :| r in own && r.id == id {
      var i :| 0 <= i < |own| && own[i] == r;
      assert SelectResource(world, p.resources[i]) == Ok(r);
      ResourceSelection(world, p.resources[i], r);
    }
  }

  lemma OneDependencyPerKey(world: World, p: Publication, a: Dependency, b: Dependency)
    requires UniqueWorld(world) && InClosure(world, p, a) && InClosure(world, p, b) && a.key == b.key
    ensures a == b
  {
    hide Reaches;
    var q :| Reaches(world, p, q) && Stands(a, q);
    var r :| Reaches(world, p, r) && Stands(b, r);
    ReachedRegistered(world, p, q);
    ReachedRegistered(world, p, r);
  }

  /** A successful resolution binds exactly the transitive closure of the chosen dependencies,
      each Skill once, with exactly the tools and resources of the root and that closure, in
      the order of the trail and each under the first requirement that selects it. */
  lemma {:induction false} ResolveExact(
    world: World, role: string, req: SkillRequirement, active: seq<string>, path: seq<string>)
    requires UniqueWorld(world) && Resolve(world, role, req, active, path).Ok?
    ensures Choose(world, req).Ok?
    ensures Exact(world, Choose(world, req).value, Resolve(world, role, req, active, path).value)
    ensures InOrder(world, Trail(world, Choose(world, req).value, path),
                    Resolve(world, role, req, active, path).value)
    decreases Registered(world) - OnPath(path)
  {
    hide UniqueWorld, OwnTools, OwnResources, Choose, Names, ResolveAll, Unique, Exact, Gather;
    hide InOrder, Trail;
    ResolveInOrder(world, role, req, active, path);
    var p := Choose(world, req).value;
    var active', path' := Names(active + path + [p.name]), path + [p.name];
    var children := ResolveAll(world, role, p.skills, active', path').value;
    PathGrows(world, req, path);
    ResolveAllEach(world, role, p.skills, active', path');
    forall i | 0 <= i < |p.skills|
      ensures Choose(world, p.skills[i]).Ok? && Exact(world, Choose(world, p.skills[i]).value, children[i])
    {
      ResolveExact(world, role, p.skills[i], active', path');
    }
    MergeExact(world, p, children);
  }

  lemma MergeExact(world: World, p: Publication, children: seq<Binding>)
    requires UniqueWorld(world) && Stand(world, p, children)
    requires OwnTools(world, p).Ok? && OwnResources(world, p).Ok?
    ensures Exact(world, p, Merge(p, OwnTools(world, p).value, OwnResources(world, p).value, children))
  {
    hide UniqueWorld, OwnTools, OwnResources, Unique, SkillsExact, ToolsExact, ResourcesExact, Gather, Stand;
    MergedSkills(world, p, children);
    MergedTools(world, p, children);
    MergedResources(world, p, children);
  }

  // ---------------------------------------------------------------- what an error means

  /** A requirement of the publication itself fails with this error. */
  ghost predicate LocalError(world: World, p: Publication, e: Error) {
    || (exists r :: r in p.tools && SelectTool(world, r) == Err(e))
    || (exists uri :: uri in p.resources && SelectResource(world, uri) == Err(e))
    || (exists r :: r in p.skills && Choose(world, r) == Err(e))
  }

  /** The end of the chain has the fault that the error names. */
  ghost predicate Fault(
    world: World, role: string, active: seq<string>, path: seq<string>, chain: seq<Publication>, e: Error)
    requires chain != []
  {
    var n := |chain| - 1;
    match e
    case Cycle => chain[n].name in path || exists i :: 0 <= i < n && chain[i].name == chain[n].name
    case RoleDenied => !RoleAllowed(role, chain[n])
    case PolicyDenied => !world.allows(chain[n], ActiveAt(active, path, chain))
    case _ => LocalError(world, chain[n], e)
  }

  ghost predicate HasFault(
    world: World, role: string, active: seq<string>, path: seq<string>, p: Publication, e: Error)
  {
    exists chain :: Chain(world, chain) && chain[0] == p && Fault(world, role, active, path, chain, e)
  }

  lemma {:induction false} CollectError<T, U>(xs: seq<T>, each: T -> Result<U, Error>)
    requires Collect(xs, each).Err?
    ensures exists x :: x in xs && each(x) == Err(Collect(xs, each).error)
  {
    var n := |xs| - 1;
    if Collect(xs[..n], each).Err? {
      CollectError(xs[..n], each);
      var x :| x in xs[..n] && each(x) == Err(Collect(xs, each).error);
      assert x in xs;
    } else {
      assert xs[n] in xs;
    }
  }

  lemma {:induction false} ResolveAllError(
    world: World, role: string, reqs: seq<SkillRequirement>, active: seq<string>, path: seq<string>)
    requires ResolveAll(world, role, reqs, active, path).Err?
    ensures var e := ResolveAll(world, role, reqs, active, path).error;
            exists r :: r in reqs && Resolve(world, role, r, active, path) == Err(e)
    decreases |reqs|
  {
    hide Resolve;
    var n := |reqs| - 1;
    var e := ResolveAll(world, role, reqs, active, path).error;
    if ResolveAll(world, role, reqs[..n], active, path).Err? {
      ResolveAllError(world, role, reqs[..n], active, path);
      var r :| r in reqs[..n] && Resolve(world, role, r, active, path) == Err(e);
      assert r in reqs;
    } else {
      assert reqs[n] in reqs;
    }
  }

  lemma FaultPrepend(
    world: World, role: string, active: seq<string>, path: seq<string>, p: Publication, rest: seq<Publication>,
    e: Error)
    requires rest != [] && Fault(world, role, Names(active + path + [p.name]), path + [p.name], rest, e)
    ensures Fault(world, role, active, path, [p] + rest, e)
  {
    hide LocalError, RoleAllowed, ActiveAt, Names;
    ActiveAtChild(active, path, p, rest);
    var chain, n := [p] + rest, |rest|;
    assert chain[n] == rest[n - 1] && chain[0] == p;
    if e == Cycle && rest[n - 1].name !in path + [p.name] {
      var i :| 0 <= i < n - 1 && rest[i].name == rest[n - 1].name;
      assert chain[i + 1].name == chain[n].name;
    }
  }

  lemma OwnErrors(world: World, p: Publication)
    ensures OwnTools(world, p).Err? ==> LocalError(world, p, OwnTools(world, p).error)
    ensures OwnResources(world, p).Err? ==> LocalError(world, p, OwnResources(world, p).error)
    ensures forall e :: LocalError(world, p, e) ==> e == NotFound || e == InvalidVersion
  {
    hide SelectTool, SelectResource, Collect, Choose, PicksTool, PicksResource;
    if OwnTools(world, p).Err? {
      CollectError(p.tools, (req: ToolRequirement) => SelectTool(world, req));
    }
    if OwnResources(world, p).Err? {
      CollectError(p.resources, (uri: string) => SelectResource(world, uri));
    }
    forall e | LocalError(world, p, e) ensures e == NotFound || e == InvalidVersion {
      if r :| r in p.tools && SelectTool(world, r) == Err(e) {
        ToolErrors(world, r);
      } else if uri :| uri in p.resources && SelectResource(world, uri) == Err(e) {
        ResourceErrors(world, uri);
      } else {
        var r :| r in p.skills && Choose(world, r) == Err(e);
        ChoiceErrors(world, r);
      }
    }
  }

  /** An error is true: the requested Skill cannot be chosen, or some chain of chosen dependencies
      ends in a publication with the fault that the error names. */
  lemma {:induction false} ErrorIsTrue(
    world: World, role: string, req: SkillRequirement, active: seq<string>, path: seq<string>)
    requires Resolve(world, role, req, active, path).Err?
    ensures var e := Resolve(world, role, req, active, path).error;
            || Choose(world, req) == Err(e)
            || (Choose(world, req).Ok? && HasFault(world, role, active, path, Choose(world, req).value, e))
    decreases Registered(world) - OnPath(path)
  {
    hide OwnTools, OwnResources, Choose, Merge, Names, ResolveAll, LocalError;
    if Choose(world, req).Ok? {
      var p, e := Choose(world, req).value, Resolve(world, role, req, active, path).error;
      var active', path' := Names(active + path + [p.name]), path + [p.name];
      assert Chain(world, [p]);
      OwnErrors(world, p);
      if p.name !in path && RoleAllowed(role, p) && OwnTools(world, p).Ok? && OwnResources(world, p).Ok?
         && ResolveAll(world, role, p.skills, active', path').Err? {
        PathGrows(world, req, path);
        ResolveAllError(world, role, p.skills, active', path');
        var r :| r in p.skills && Resolve(world, role, r, active', path') == Err(e);
        ErrorIsTrue(world, role, r, active', path');
        ChildFault(world, role, active, path, p, r, e);
      } else {
        assert Fault(world, role, active, path, [p], e);
      }
    }
  }

  /** A fault below a required Skill is a fault of the publication that requires it. */
  lemma ChildFault(
    world: World, role: string, active: seq<string>, path: seq<string>, p: Publication, r: SkillRequirement, e: Error)
    requires r in p.skills
    requires || Choose(world, r) == Err(e)
             || (Choose(world, r).Ok?
                 && HasFault(world, role, Names(active + path + [p.name]), path + [p.name], Choose(world, r).value, e))
    ensures HasFault(world, role, active, path, p, e)
  {
    hide Choose, Names, ActiveAt, RoleAllowed;
    if Choose(world, r) == Err(e) {
      ChoiceErrors(world, r);
      assert Chain(world, [p]) && Fault(world, role, active, path, [p], e);
    } else {
      var rest: seq<Publication> :| Chain(world, rest) && rest[0] == Choose(world, r).value
        && Fault(world, role, Names(active + path + [p.name]), path + [p.name], rest, e);
      assert Edge(world, p, rest[0]);
      ChainPrepend(world, p, rest);
      FaultPrepend(world, role, active, path, p, rest, e);
      assert ([p] + rest)[0] == p;
    }
  }

  /** Every cycle of chosen dependencies below the root is rejected. */
  lemma CycleRejected(world: World, role: string, req: SkillRequirement, active: seq<string>,
                      chain: seq<Publication>, i: nat, j: nat)
    requires Choose(world, req).Ok? && Chain(world, chain) && chain[0] == Choose(world, req).value
    requires i < j < |chain| && chain[i].name == chain[j].name
    ensures Resolve(world, role, req, active, []).Err?
  {
    hide Resolve, Choose, Chain, LocallyFine, ActiveAt;
    ResolveIff(world, role, req, active, []);
  }
}
