/** Availability of a Skill's declared dependencies (SkillDependencyAvailability).

The service walks the dependency graph depth first, carrying the set of capability ids on
the current path. The graph may be cyclic. The model keeps the raw JSON shape of a
contract, because malformed requirements have defined answers, and proves that the
path-sensitive walk decides membership in the least fixed point of "own requirements met
and every required Skill has some available match".
*/
module SkillAvailability {
  import opened Counting
  import opened Wrappers

  datatype Json =
    | Null
    | Bool(flag: bool)
    | Num(number: int)
    | Str(text: string)
    | List(items: seq<Json>)
    | Obj(fields: Fields)

  type Fields = map<string, Json>

  datatype Kind = Tool | Resource | ResourceTemplate | Skill | Prompt

  /** `uriTemplate` and `contract` are the metadata values of those names, Null when absent. */
  datatype Capability = Capability(
    id: string, kind: Kind, name: string, version: string, uriTemplate: Json, contract: Json)

  /** The catalog view of one tenant, with the version rule the catalog applies. */
  datatype Catalog = Catalog(
    candidates: seq<Capability>, versionMatches: (string, string) -> bool)

  predicate Truthy(value: Json) {
    match value
    case Null => false
    case Bool(flag) => flag
    case Num(number) => number != 0
    case Str(text) => text != ""
    case List(items) => items != []
    case Obj(fields) => fields != map[]
  }

  function Get(fields: Fields, field: string, fallback: Json := Null): Json {
    if field in fields then fields[field] else fallback
  }

  // ---------------------------------------------------------------- own requirements

  datatype IdentityKey = ByName | ByUriTemplate

  function KeyName(key: IdentityKey): string {
    if key.ByName? then "name" else "uri_template"
  }

  function Identity(c: Capability, key: IdentityKey): string {
    if key.ByUriTemplate? && c.uriTemplate.Str? then c.uriTemplate.text else c.name
  }

  predicate RequirementMet(cat: Catalog, requirement: Json, kinds: set<Kind>, key: IdentityKey) {
    && requirement.Obj?
    && var identity := Get(requirement.fields, KeyName(key));
       var bound := Get(requirement.fields, "version", Str("*"));
       && identity.Str? && bound.Str?
       && exists c :: c in cat.candidates && c.kind in kinds
                      && Identity(c, key) == identity.text
                      && cat.versionMatches(c.version, bound.text)
  }

  predicate AllRequirementsMet(cat: Catalog, raw: Json, kinds: set<Kind>, key: IdentityKey) {
    if raw.List? then forall r :: r in raw.items ==> RequirementMet(cat, r, kinds, key)
    else !Truthy(raw)
  }

  predicate OwnRequirementsMet(cat: Catalog, contract: Fields) {
    && AllRequirementsMet(cat, Get(contract, "required_tools"), {Tool}, ByName)
    && AllRequirementsMet(
         cat, Get(contract, "required_resources"), {Resource, ResourceTemplate}, ByUriTemplate)
  }

  // ---------------------------------------------------------------- required Skills

  predicate WellShaped(requirement: Json) {
    && requirement.Obj?
    && Get(requirement.fields, "name").Str?
    && Get(requirement.fields, "version", Str("*")).Str?
  }

  predicate PublisherMatches(c: Capability, publisher: Json) {
    publisher.Null? || (c.contract.Obj? && Get(c.contract.fields, "publisher") == publisher)
  }

  predicate Matches(cat: Catalog, requirement: Json, c: Capability)
    requires WellShaped(requirement)
  {
    && c.kind == Skill
    && c.name == Get(requirement.fields, "name").text
    && cat.versionMatches(c.version, Get(requirement.fields, "version", Str("*")).text)
    && PublisherMatches(c, Get(requirement.fields, "publisher"))
  }

  function Ids(cat: Catalog): set<string> {
    set c | c in cat.candidates :: c.id
  }

  /** The walk's answer for a contract reached along the ids in `visiting`. */
  predicate Walk(cat: Catalog, contract: Fields, visiting: set<string>)
    decreases Ids(cat) - visiting, 2
  {
    && OwnRequirementsMet(cat, contract)
    && var required := Get(contract, "required_skills");
       if required.List? then
         forall r :: r in required.items ==> WellShaped(r) && WalkRequirement(cat, r, visiting)
       else !Truthy(required)
  }

  predicate WalkRequirement(cat: Catalog, requirement: Json, visiting: set<string>)
    requires WellShaped(requirement)
    decreases Ids(cat) - visiting, 1
  {
    exists c :: c in cat.candidates && Matches(cat, requirement, c) && WalkMatch(cat, c, visiting)
  }

  predicate WalkMatch(cat: Catalog, c: Capability, visiting: set<string>)
    requires c in cat.candidates
    decreases Ids(cat) - visiting, 0
  {
    && c.id !in visiting
    && (!c.contract.Obj? ||
        (assert c.id in Ids(cat);
         Walk(cat, c.contract.fields, visiting + {c.id})))
  }

  /** The service's entry point; `catalog` is None when no catalog store is configured. */
  predicate IsAvailable(catalog: Option<Catalog>, root: Capability) {
    if !root.contract.Obj? then true
    else if !Truthy(Get(root.contract.fields, "required_tools"))
            && !Truthy(Get(root.contract.fields, "required_resources"))
            && !Truthy(Get(root.contract.fields, "required_skills")) then true
    else if catalog.None? then false
    else Walk(catalog.value, root.contract.fields, {root.id})
  }

  // ---------------------------------------------------------------- the loops

  method RequirementsAvailable(cat: Catalog, raw: Json, kinds: set<Kind>, key: IdentityKey)
    returns (available: bool)
    ensures available == AllRequirementsMet(cat, raw, kinds, key)
  {
    if !raw.List? {
      return !Truthy(raw);
    }
    for i := 0 to |raw.items|
      invariant forall k :: 0 <= k < i ==> RequirementMet(cat, raw.items[k], kinds, key)
    {
      if !RequirementMet(cat, raw.items[i], kinds, key) {
        return false;
      }
    }
    return true;
  }

  method ContractDependenciesAvailable(cat: Catalog, contract: Fields, visiting: set<string>)
    returns (available: bool)
    ensures available == Walk(cat, contract, visiting)
    decreases Ids(cat) - visiting, 1
  {
    var tools := RequirementsAvailable(cat, Get(contract, "required_tools"), {Tool}, ByName);
    if !tools { return false; }
    var resources := RequirementsAvailable(
      cat, Get(contract, "required_resources"), {Resource, ResourceTemplate}, ByUriTemplate);
    if !resources { return false; }
    var required := Get(contract, "required_skills");
    if !required.List? {
      return !Truthy(required);
    }
    for i := 0 to |required.items|
      invariant forall k :: 0 <= k < i ==>
        WellShaped(required.items[k]) && WalkRequirement(cat, required.items[k], visiting)
    {
      if !WellShaped(required.items[i]) { return false; }
      var found := AnyMatchAvailable(cat, required.items[i], visiting);
      if !found { return false; }
    }
    return true;
  }

  method AnyMatchAvailable(cat: Catalog, requirement: Json, visiting: set<string>)
    returns (found: bool)
    requires WellShaped(requirement)
    ensures found == WalkRequirement(cat, requirement, visiting)
    decreases Ids(cat) - visiting, 0
  {
    for i := 0 to |cat.candidates|
      invariant forall k :: 0 <= k < i ==>
        !(Matches(cat, requirement, cat.candidates[k]) && WalkMatch(cat, cat.candidates[k], visiting))
    {
      var c := cat.candidates[i];
      if Matches(cat, requirement, c) && c.id !in visiting {
        assert c.id in Ids(cat);
        var ok := true;
        if c.contract.Obj? {
          ok := ContractDependenciesAvailable(cat, c.contract.fields, visiting + {c.id});
        }
        if ok { return true; }
      }
    }
    return false;
  }

  // ---------------------------------------------------------------- least fixed point

  /** The contract's requirements hold when exactly the Skills in `base` count as available. */
  predicate Supported(cat: Catalog, contract: Fields, base: set<Capability>) {
    && OwnRequirementsMet(cat, contract)
    && var required := Get(contract, "required_skills");
       if required.List? then
         forall r :: r in required.items ==>
           WellShaped(r) && exists c :: c in cat.candidates && Matches(cat, r, c) && c in base
       else !Truthy(required)
  }

  predicate CapabilitySupported(cat: Catalog, c: Capability, base: set<Capability>) {
    !c.contract.Obj? || Supported(cat, c.contract.fields, base)
  }

  ghost predicate Closed(cat: Catalog, base: set<Capability>) {
    forall c :: c in cat.candidates && CapabilitySupported(cat, c, base) ==> c in base
  }

  /** The least set closed under "supported candidates are available". */
  ghost function LeastFixedPoint(cat: Catalog): set<Capability> {
    set c | c in cat.candidates && forall base :: Closed(cat, base) ==> c in base
  }

  /** Candidates available after at most `n` rounds. */
  ghost function Stage(cat: Catalog, n: nat): set<Capability> {
    if n == 0 then {}
    else set c | c in cat.candidates && CapabilitySupported(cat, c, Stage(cat, n - 1))
  }

  ghost predicate UniqueIds(cat: Catalog) {
    forall a, b :: a in cat.candidates && b in cat.candidates && a.id == b.id ==> a == b
  }

  lemma SupportedMonotone(cat: Catalog, contract: Fields, small: set<Capability>, big: set<Capability>)
    requires small <= big && Supported(cat, contract, small)
    ensures Supported(cat, contract, big)
  {
  }

  lemma {:induction false} StageGrows(cat: Catalog, n: nat)
    ensures Stage(cat, n) <= Stage(cat, n + 1)
  {
    if n > 0 {
      StageGrows(cat, n - 1);
      forall c | c in Stage(cat, n) ensures c in Stage(cat, n + 1) {
        if c.contract.Obj? {
          SupportedMonotone(cat, c.contract.fields, Stage(cat, n - 1), Stage(cat, n));
        }
      }
    }
  }

  lemma {:induction false} StageWithin(cat: Catalog, n: nat, base: set<Capability>)
    requires Closed(cat, base)
    ensures Stage(cat, n) <= base
  {
    hide Supported;
    if n > 0 {
      StageWithin(cat, n - 1, base);
      forall c | c in Stage(cat, n) ensures c in base {
        if c.contract.Obj? {
          SupportedMonotone(cat, c.contract.fields, Stage(cat, n - 1), base);
        }
        assert CapabilitySupported(cat, c, base);
      }
    }
  }

  ghost function All(cat: Catalog): set<Capability> {
    set c | c in cat.candidates
  }

  lemma StageBounded(cat: Catalog, n: nat)
    ensures Stage(cat, n) <= All(cat)
  {
  }

  lemma StrictSubsetSize(small: set<Capability>, big: set<Capability>)
    requires small < big
    ensures |small| < |big|
  {
    assert big == small + (big - small);
  }

  /** Either some round before `n` added nothing, or each of the `n` rounds added a candidate. */
  lemma {:induction false} StageStabilises(cat: Catalog, n: nat) returns (k: nat)
    ensures Stage(cat, k) == Stage(cat, k + 1) || |Stage(cat, n)| >= n
  {
    hide *;
    k := n;
    if n > 0 {
      k := StageStabilises(cat, n - 1);
      if Stage(cat, k) != Stage(cat, k + 1) {
        StageGrows(cat, n - 1);
        if Stage(cat, n - 1) == Stage(cat, n) {
          k := n - 1;
        } else {
          StrictSubsetSize(Stage(cat, n - 1), Stage(cat, n));
        }
      }
    }
  }

  /** Finitely many rounds reach the least fixed point. */
  lemma FixedPointIsStage(cat: Catalog) returns (n: nat)
    ensures LeastFixedPoint(cat) == Stage(cat, n)
    ensures Stage(cat, n) == Stage(cat, n + 1)
  {
    var rounds := |All(cat)| + 1;
    n := StageStabilises(cat, rounds);
    StageBounded(cat, rounds);
    SubsetSize(Stage(cat, rounds), All(cat));
    assert Closed(cat, Stage(cat, n));
    forall base | Closed(cat, base) ensures Stage(cat, n) <= base {
      StageWithin(cat, n, base);
    }
  }

  lemma {:induction false} LeastRound(cat: Catalog, c: Capability, n: nat) returns (k: nat)
    requires c in Stage(cat, n)
    ensures 1 <= k <= n && c in Stage(cat, k) && c !in Stage(cat, k - 1)
  {
    hide CapabilitySupported;
    k := n;
    if c in Stage(cat, n - 1) {
      k := LeastRound(cat, c, n - 1);
    }
  }

  /** The walk never claims too much: whatever it accepts lies in every closed set. */
  lemma {:induction false} WalkSound(cat: Catalog, contract: Fields, visiting: set<string>, base: set<Capability>)
    requires Closed(cat, base) && Walk(cat, contract, visiting)
    ensures Supported(cat, contract, base)
    decreases Ids(cat) - visiting
  {
    var required := Get(contract, "required_skills");
    if required.List? {
      forall r | r in required.items
        ensures WellShaped(r) && exists c :: c in cat.candidates && Matches(cat, r, c) && c in base
      {
        assert WalkRequirement(cat, r, visiting);
        var c :| c in cat.candidates && Matches(cat, r, c) && WalkMatch(cat, c, visiting);
        if c.contract.Obj? {
          assert c.id in Ids(cat);
          WalkSound(cat, c.contract.fields, visiting + {c.id}, base);
        }
        assert CapabilitySupported(cat, c, base);
      }
    }
  }

  lemma SubsetTransitive(a: set<Capability>, b: set<Capability>, c: set<Capability>)
    requires a <= b <= c
    ensures a <= c
  {
  }

  lemma {:induction false} StageInLater(cat: Catalog, m: nat, n: nat)
    requires m <= n
    ensures Stage(cat, m) <= Stage(cat, n)
  {
    hide *;
    if m < n {
      StageInLater(cat, m, n - 1);
      StageGrows(cat, n - 1);
      SubsetTransitive(Stage(cat, m), Stage(cat, n - 1), Stage(cat, n));
    }
  }

  ghost predicate AvoidsStage(cat: Catalog, visiting: set<string>, n: nat) {
    forall c :: c in Stage(cat, n) ==> c.id !in visiting
  }

  /** Extending the path by a candidate first available in round `k` leaves every
      candidate of the rounds before `k` off the path. */
  lemma PathAvoidsEarlier(cat: Catalog, visiting: set<string>, c: Capability, k: nat, n: nat)
    requires UniqueIds(cat)
    requires AvoidsStage(cat, visiting, n) && k <= n && c in cat.candidates && c !in Stage(cat, k)
    ensures AvoidsStage(cat, visiting + {c.id}, k)
  {
    StageInLater(cat, k, n);
    StageBounded(cat, k);
  }

  /** The walk never claims too little: the path only blocks candidates that become
      available in the same or a later round, and those are never needed. */
  lemma {:induction false} WalkComplete(cat: Catalog, contract: Fields, visiting: set<string>, n: nat)
    requires UniqueIds(cat)
    requires Supported(cat, contract, Stage(cat, n))
    requires AvoidsStage(cat, visiting, n)
    ensures Walk(cat, contract, visiting)
    decreases n, 1
  {
    var required := Get(contract, "required_skills");
    if required.List? {
      forall r | r in required.items
        ensures WellShaped(r) && WalkRequirement(cat, r, visiting)
      {
        assert WellShaped(r);
        var c :| c in cat.candidates && Matches(cat, r, c) && c in Stage(cat, n);
        WalkMatchComplete(cat, c, visiting, n);
      }
    }
  }

  lemma {:induction false} WalkMatchComplete(cat: Catalog, c: Capability, visiting: set<string>, n: nat)
    requires UniqueIds(cat)
    requires c in cat.candidates && c in Stage(cat, n)
    requires AvoidsStage(cat, visiting, n)
    ensures WalkMatch(cat, c, visiting)
    decreases n, 0
  {
    hide Supported, Walk;
    if c.contract.Obj? {
      var k := LeastRound(cat, c, n);
      PathAvoidsEarlier(cat, visiting, c, k - 1, n);
      WalkComplete(cat, c.contract.fields, visiting + {c.id}, k - 1);
    }
  }

  lemma {:induction false} LeastSupportingRound(cat: Catalog, contract: Fields, n: nat) returns (k: nat)
    requires Supported(cat, contract, Stage(cat, n))
    ensures k <= n && Supported(cat, contract, Stage(cat, k))
    ensures k > 0 ==> !Supported(cat, contract, Stage(cat, k - 1))
  {
    hide *;
    k := n;
    if n > 0 && Supported(cat, contract, Stage(cat, n - 1)) {
      k := LeastSupportingRound(cat, contract, n - 1);
    }
  }

  /** Main result: on any graph, cyclic or not, the walk decides the least fixed point.
      The catalog keys capabilities by id; the root need not be catalogued, but if its id
      is, the catalogued contract is the root's. */
  lemma AvailableIffInLeastFixedPoint(cat: Catalog, root: Capability)
    requires UniqueIds(cat)
    requires forall c :: c in cat.candidates && c.id == root.id ==> c.contract == root.contract
    ensures IsAvailable(Some(cat), root) <==> CapabilitySupported(cat, root, LeastFixedPoint(cat))
    ensures root in cat.candidates ==>
      (IsAvailable(Some(cat), root) <==> root in LeastFixedPoint(cat))
  {
    var n := FixedPointIsStage(cat);
    if root.contract.Obj? {
      var contract := root.contract.fields;
      if Walk(cat, contract, {root.id}) {
        assert Closed(cat, Stage(cat, n));
        WalkSound(cat, contract, {root.id}, Stage(cat, n));
      }
      if Supported(cat, contract, Stage(cat, n)) {
        var k := LeastSupportingRound(cat, contract, n);
        assert AvoidsStage(cat, {root.id}, k);
        WalkComplete(cat, contract, {root.id}, k);
      }
    }
  }

  /** The answer depends on which candidates the catalog holds, not on their order. */
  lemma OrderIrrelevant(cat: Catalog, other: Catalog, root: Capability)
    requires UniqueIds(cat)
    requires forall c :: c in cat.candidates && c.id == root.id ==> c.contract == root.contract
    requires other.versionMatches == cat.versionMatches
    requires forall c :: c in other.candidates <==> c in cat.candidates
    ensures IsAvailable(Some(cat), root) == IsAvailable(Some(other), root)
  {
    SameCandidates(cat, other);
    AvailableIffInLeastFixedPoint(cat, root);
    AvailableIffInLeastFixedPoint(other, root);
    if root.contract.Obj? {
      SameSupport(cat, other, root.contract.fields, LeastFixedPoint(cat));
    }
  }

  lemma SameSupport(cat: Catalog, other: Catalog, contract: Fields, base: set<Capability>)
    requires other.versionMatches == cat.versionMatches
    requires forall c :: c in other.candidates <==> c in cat.candidates
    ensures Supported(cat, contract, base) == Supported(other, contract, base)
  {
  }

  lemma SameCandidates(cat: Catalog, other: Catalog)
    requires other.versionMatches == cat.versionMatches
    requires forall c :: c in other.candidates <==> c in cat.candidates
    ensures LeastFixedPoint(cat) == LeastFixedPoint(other)
  {
  }

  /** Without a catalog a Skill is available exactly when it declares no dependencies. */
  lemma AvailableWithoutCatalog(root: Capability)
    ensures IsAvailable(None, root) <==>
      root.contract.Obj? ==> forall field ::
        field in {"required_tools", "required_resources", "required_skills"} && field in root.contract.fields ==>
        IsEmptyValue(root.contract.fields[field])
  {
  }

  // ---------------------------------------------------------------- the rule in plain terms

  predicate IsEmptyValue(v: Json) {
    v == Null || v == Bool(false) || v == Num(0) || v == Str("") || v == List([]) || v == Obj(map[])
  }

  /** The field is missing or empty, or a list all of whose items are as told. */
  ghost predicate ListsOnly(contract: Fields, field: string, asTold: Json -> bool) {
    field in contract ==>
      || IsEmptyValue(contract[field])
      || (contract[field].List? && forall r :: r in contract[field].items ==> asTold(r))
  }

  /** The requirement names the field with a text, and its version, if it has one, is a text. */
  predicate NamesBy(r: Json, field: string) {
    && r.Obj? && field in r.fields && r.fields[field].Str?
    && ("version" in r.fields ==> r.fields["version"].Str?)
  }

  predicate VersionFits(cat: Catalog, r: Json, c: Capability)
    requires r.Obj? && ("version" in r.fields ==> r.fields["version"].Str?)
  {
    cat.versionMatches(c.version, if "version" in r.fields then r.fields["version"].text else "*")
  }

  ghost predicate ToolIsThere(cat: Catalog, r: Json) {
    NamesBy(r, "name") && exists c :: c in cat.candidates && c.kind == Tool
                            && c.name == r.fields["name"].text && VersionFits(cat, r, c)
  }

  /** A resource is known by its URI template, or by its name when it has no such text. */
  ghost predicate ResourceIsThere(cat: Catalog, r: Json) {
    NamesBy(r, "uri_template") && exists c :: c in cat.candidates && (c.kind == Resource || c.kind == ResourceTemplate)
                                    && (if c.uriTemplate.Str? then c.uriTemplate.text else c.name) ==
                                         r.fields["uri_template"].text
                                    && VersionFits(cat, r, c)
  }

  /** A required Skill may name its publisher, which is then that of the candidate's contract. */
  ghost predicate SkillIsIn(cat: Catalog, r: Json, base: set<Capability>) {
    NamesBy(r, "name") && exists c :: c in cat.candidates && c in base && c.kind == Skill
                            && c.name == r.fields["name"].text && VersionFits(cat, r, c)
                            && ("publisher" !in r.fields || r.fields["publisher"] == Null
                                || (c.contract.Obj? && "publisher" in c.contract.fields
                                    && c.contract.fields["publisher"] == r.fields["publisher"]))
  }

  /** A contract is supported exactly when its tools and resources are in the catalog and each of its
      required Skills has a match among those that count as available. */
  lemma SupportedIff(cat: Catalog, contract: Fields, base: set<Capability>)
    ensures Supported(cat, contract, base) <==>
      && ListsOnly(contract, "required_tools", r => ToolIsThere(cat, r))
      && ListsOnly(contract, "required_resources", r => ResourceIsThere(cat, r))
      && ListsOnly(contract, "required_skills", r => SkillIsIn(cat, r, base))
  {
    hide ToolIsThere, ResourceIsThere, SkillIsIn, RequirementMet, Matches, WellShaped;
    forall r
      ensures RequirementMet(cat, r, {Tool}, ByName) <==> ToolIsThere(cat, r)
      ensures RequirementMet(cat, r, {Resource, ResourceTemplate}, ByUriTemplate) <==> ResourceIsThere(cat, r)
      ensures (WellShaped(r) && exists c :: c in cat.candidates && Matches(cat, r, c) && c in base) <==>
        SkillIsIn(cat, r, base)
    {
      ToolIff(cat, r);
      ResourceIff(cat, r);
      SkillIff(cat, r, base);
    }
    forall v ensures Truthy(v) <==> !IsEmptyValue(v) {
    }
  }

  lemma ToolIff(cat: Catalog, r: Json)
    ensures RequirementMet(cat, r, {Tool}, ByName) <==> ToolIsThere(cat, r)
  {
  }

  lemma ResourceIff(cat: Catalog, r: Json)
    ensures RequirementMet(cat, r, {Resource, ResourceTemplate}, ByUriTemplate) <==> ResourceIsThere(cat, r)
  {
  }

  lemma SkillIff(cat: Catalog, r: Json, base: set<Capability>)
    ensures (WellShaped(r) && exists c :: c in cat.candidates && Matches(cat, r, c) && c in base) <==>
      SkillIsIn(cat, r, base)
  {
  }
}
