/** Tenant-scoped resources (HandsResourceRegistry) and the replacement of one tenant's package
resources (SkillPackageRegistry.replace_tenant).

Several resources may share a URI as long as no tenant sees two of them. An empty scope means
every tenant.
*/
module ResourceRegistry {
  import opened Wrappers

  type Tenant = string

  datatype Content = Content(uri: string, body: string)

  datatype Resource = Resource(uri: Option<string>, name: string, contents: seq<Content>, tenants: seq<Tenant>)

  type Registrations = seq<Resource>
  type Registry = map<string, Registrations>

  datatype Error = UriMissing | ContentMismatch | AlreadyRegistered

  // ---------------------------------------------------------------- scopes

  predicate VisibleTo(scope: seq<Tenant>, tenant: Tenant) {
    scope == [] || tenant in scope
  }

  predicate ScopesOverlap(first: seq<Tenant>, second: seq<Tenant>) {
    first == [] || second == [] || exists t :: t in first && t in second
  }

  /** Scopes overlap exactly when some tenant sees both. */
  lemma OverlapIff(first: seq<Tenant>, second: seq<Tenant>)
    ensures ScopesOverlap(first, second) <==> exists t :: VisibleTo(first, t) && VisibleTo(second, t)
  {
    if first == [] {
      var t := if second == [] then "" else second[0];
      assert VisibleTo(first, t) && VisibleTo(second, t);
    } else if second == [] {
      assert VisibleTo(first, first[0]) && VisibleTo(second, first[0]);
    } else if t :| t in first && t in second {
      assert VisibleTo(first, t) && VisibleTo(second, t);
    }
  }

  function Listed(reg: Registry, uri: string): Registrations {
    if uri in reg then reg[uri] else []
  }

  /** The first resource a tenant sees. */
  function Lookup(list: Registrations, tenant: Tenant): Option<Resource> {
    if list == [] then None
    else if VisibleTo(list[0].tenants, tenant) then Some(list[0])
    else Lookup(list[1..], tenant)
  }

  // ---------------------------------------------------------------- registering and unregistering

  function RegisterError(reg: Registry, r: Resource): Option<Error> {
    if r.uri.None? then Some(UriMissing)
    else if exists i :: 0 <= i < |r.contents| && r.contents[i].uri != r.uri.value then Some(ContentMismatch)
    else if exists i :: 0 <= i < |Listed(reg, r.uri.value)|
              && ScopesOverlap(Listed(reg, r.uri.value)[i].tenants, r.tenants) then Some(AlreadyRegistered)
    else None
  }

  function Registered(reg: Registry, r: Resource): Registry {
    if RegisterError(reg, r).Some? then reg
    else reg[r.uri.value := Listed(reg, r.uri.value) + [r]]
  }

  function Others(scope: seq<Tenant>, tenant: Tenant): seq<Tenant> {
    if scope == [] then []
    else Others(scope[..|scope| - 1], tenant)
         + (if scope[|scope| - 1] != tenant then [scope[|scope| - 1]] else [])
  }

  /** What is left of one registration: itself, the rest of its scope, or nothing. */
  function Left(r: Resource, tenant: Tenant): Registrations {
    if tenant !in r.tenants then [r]
    else if Others(r.tenants, tenant) != [] then [r.(tenants := Others(r.tenants, tenant))]
    else []
  }

  function Remaining(list: Registrations, tenant: Tenant): Registrations {
    if list == [] then [] else Remaining(list[..|list| - 1], tenant) + Left(list[|list| - 1], tenant)
  }

  function Unregistered(reg: Registry, uri: string, tenant: Option<Tenant>): Registry {
    if uri !in reg then reg
    else if tenant.None? || Remaining(reg[uri], tenant.value) == [] then reg - {uri}
    else reg[uri := Remaining(reg[uri], tenant.value)]
  }

  predicate Affects(reg: Registry, uri: string, tenant: Option<Tenant>) {
    && uri in reg
    && (tenant.Some? ==> exists i :: 0 <= i < |reg[uri]| && tenant.value in reg[uri][i].tenants)
  }

  class HandsResourceRegistry {
    var resources: Registry

    constructor ()
      ensures resources == map[]
    {
      resources := map[];
    }

    method RegisterResource(r: Resource) returns (error: Option<Error>)
      modifies this
      ensures error == RegisterError(old(resources), r)
      ensures resources == Registered(old(resources), r)
    {
      if r.uri.None? {
        return Some(UriMissing);
      }
      if exists i :: 0 <= i < |r.contents| && r.contents[i].uri != r.uri.value {
        return Some(ContentMismatch);
      }
      var list := Listed(resources, r.uri.value);
      for i := 0 to |list|
        invariant forall k :: 0 <= k < i ==> !ScopesOverlap(list[k].tenants, r.tenants)
      {
        if ScopesOverlap(list[i].tenants, r.tenants) {
          return Some(AlreadyRegistered);
        }
      }
      resources := resources[r.uri.value := list + [r]];
      return None;
    }

    method UnregisterResource(uri: string, tenant: Option<Tenant>) returns (changed: bool)
      modifies this
      ensures resources == Unregistered(old(resources), uri, tenant)
      ensures changed == Affects(old(resources), uri, tenant)
    {
      if uri !in resources {
        return false;
      }
      if tenant.None? {
        resources := resources - {uri};
        return true;
      }
      var list, remaining := resources[uri], [];
      changed := false;
      for i := 0 to |list|
        invariant remaining == Remaining(list[..i], tenant.value)
        invariant changed <==> exists k :: 0 <= k < i && tenant.value in list[k].tenants
      {
        assert list[..i + 1][..i] == list[..i];
        if tenant.value !in list[i].tenants {
          remaining := remaining + [list[i]];
        } else {
          changed := true;
          var others := Others(list[i].tenants, tenant.value);
          if others != [] {
            remaining := remaining + [list[i].(tenants := others)];
          }
        }
      }
      assert list[..|list|] == list;
      if remaining != [] {
        resources := resources[uri := remaining];
      } else {
        resources := resources - {uri};
      }
    }

    /** Withdraws the resources of the tenant's old packages, then registers the new ones; stops
        at the first that cannot be registered. */
    method ReplaceTenant(tenant: Tenant, withdrawn: seq<string>, added: seq<Resource>) returns (error: Option<Error>)
      modifies this
      ensures resources == Replaced(old(resources), tenant, withdrawn, added)
      ensures error.None? <==> AllRegistered(Withdrawn(old(resources), tenant, withdrawn), added)
    {
      for i := 0 to |withdrawn|
        invariant resources == Withdrawn(old(resources), tenant, withdrawn[..i])
      {
        assert withdrawn[..i + 1][..i] == withdrawn[..i];
        var _ := UnregisterResource(withdrawn[i], Some(tenant));
      }
      assert withdrawn[..|withdrawn|] == withdrawn;
      ghost var before := resources;
      for i := 0 to |added|
        invariant resources == Added(before, added[..i]) && AllRegistered(before, added[..i])
      {
        assert added[..i + 1][..i] == added[..i];
        error := RegisterResource(added[i]);
        if error.Some? {
          AddedStops(before, added, i + 1);
          return;
        }
      }
      assert added[..|added|] == added;
      return None;
    }
  }

  function Withdrawn(reg: Registry, tenant: Tenant, uris: seq<string>): Registry {
    if uris == [] then reg
    else Unregistered(Withdrawn(reg, tenant, uris[..|uris| - 1]), uris[|uris| - 1], Some(tenant))
  }

  predicate AllRegistered(reg: Registry, added: seq<Resource>) {
    if added == [] then true
    else AllRegistered(reg, added[..|added| - 1])
         && RegisterError(Added(reg, added[..|added| - 1]), added[|added| - 1]).None?
  }

  /** Registers in order, up to the first error. */
  function Added(reg: Registry, added: seq<Resource>): Registry {
    if added == [] then reg
    else
      var before := Added(reg, added[..|added| - 1]);
      if AllRegistered(reg, added[..|added| - 1]) then Registered(before, added[|added| - 1]) else before
  }

  lemma {:induction false} AddedStops(reg: Registry, added: seq<Resource>, n: nat)
    requires n <= |added| && !AllRegistered(reg, added[..n])
    ensures Added(reg, added) == Added(reg, added[..n]) && !AllRegistered(reg, added)
    decreases |added|
  {
    if n < |added| {
      assert added[..|added| - 1][..n] == added[..n];
      AddedStops(reg, added[..|added| - 1], n);
    } else {
      assert added[..n] == added;
    }
  }

  function Replaced(reg: Registry, tenant: Tenant, withdrawn: seq<string>, added: seq<Resource>): Registry {
    Added(Withdrawn(reg, tenant, withdrawn), added)
  }

  // ---------------------------------------------------------------- disjoint scopes

  /** No tenant sees two resources of a URI. */
  ghost predicate Disjoint(list: Registrations) {
    forall i, j, t: Tenant :: 0 <= i < j < |list| && VisibleTo(list[i].tenants, t) ==> !VisibleTo(list[j].tenants, t)
  }

  ghost predicate AllDisjoint(reg: Registry) {
    forall uri :: uri in reg ==> Disjoint(reg[uri])
  }

  lemma {:induction false} OthersAre(scope: seq<Tenant>, tenant: Tenant, t: Tenant)
    ensures t in Others(scope, tenant) <==> t in scope && t != tenant
  {
    if scope != [] {
      OthersAre(scope[..|scope| - 1], tenant, t);
      assert scope == scope[..|scope| - 1] + [scope[|scope| - 1]];
    }
  }

  /** What is left of a registration is the same resource, visible to its other tenants, and a
      scoped one never becomes global. */
  lemma LeftSees(r: Resource, tenant: Tenant, t: Tenant)
    ensures |Left(r, tenant)| <= 1
    ensures Left(r, tenant) == [] ==> r.tenants != [] && (VisibleTo(r.tenants, t) ==> t == tenant)
    ensures Left(r, tenant) != [] ==>
      var left := Left(r, tenant)[0];
      && left == r.(tenants := left.tenants) && (left.tenants == [] <==> r.tenants == [])
      && (VisibleTo(left.tenants, t) <==> VisibleTo(r.tenants, t) && (t != tenant || r.tenants == []))
  {
    OthersAre(r.tenants, tenant, t);
  }

  lemma {:induction false} LookupConcat(a: Registrations, b: Registrations, t: Tenant)
    ensures Lookup(a + b, t) == if Lookup(a, t).Some? then Lookup(a, t) else Lookup(b, t)
  {
    if a == [] {
      assert a + b == b;
    } else {
      LookupConcat(a[1..], b, t);
      assert (a + b)[1..] == a[1..] + b;
    }
  }

  /** A remaining resource comes from a registration that the tenant saw as well. */
  lemma {:induction false} RemainingFrom(list: Registrations, tenant: Tenant, i: nat, t: Tenant) returns (j: nat)
    requires i < |Remaining(list, tenant)|
    ensures j < |list|
    ensures var left := Remaining(list, tenant)[i];
            && left == list[j].(tenants := left.tenants) && (left.tenants == [] <==> list[j].tenants == [])
            && (VisibleTo(left.tenants, t) <==> VisibleTo(list[j].tenants, t) && (t != tenant || list[j].tenants == []))
  {
    var n := |list| - 1;
    LeftSees(list[n], tenant, t);
    if i < |Remaining(list[..n], tenant)| {
      j := RemainingFrom(list[..n], tenant, i, t);
    } else {
      j := n;
    }
  }

  lemma DisjointConcat(a: Registrations, b: Registrations)
    requires Disjoint(a) && Disjoint(b)
    requires forall i, j, t: Tenant ::
               0 <= i < |a| && 0 <= j < |b| && VisibleTo(a[i].tenants, t) ==> !VisibleTo(b[j].tenants, t)
    ensures Disjoint(a + b)
  {
    hide VisibleTo;
  }

  lemma {:induction false} RemainingDisjoint(list: Registrations, tenant: Tenant)
    requires Disjoint(list)
    ensures Disjoint(Remaining(list, tenant))
  {
    hide VisibleTo;
    if list != [] {
      var n := |list| - 1;
      RemainingDisjoint(list[..n], tenant);
      var front, last := Remaining(list[..n], tenant), Left(list[n], tenant);
      LeftSees(list[n], tenant, tenant);
      forall i, j, t: Tenant | 0 <= i < |front| && 0 <= j < |last| && VisibleTo(front[i].tenants, t)
        ensures !VisibleTo(last[j].tenants, t)
      {
        var k := RemainingFrom(list[..n], tenant, i, t);
        LeftSees(list[n], tenant, t);
        assert VisibleTo(list[k].tenants, t);
      }
      DisjointConcat(front, last);
    }
  }

  /** What a tenant gets to see of a URI. */
  function Seen(list: Registrations, t: Tenant): Option<(Option<string>, string, seq<Content>)> {
    var r := Lookup(list, t);
    if r.Some? then Some((r.value.uri, r.value.name, r.value.contents)) else None
  }

  /** Unregistering for one tenant changes nothing another tenant sees. */
  lemma {:induction false} OthersUnaffected(list: Registrations, tenant: Tenant, t: Tenant)
    requires t != tenant
    ensures Seen(Remaining(list, tenant), t) == Seen(list, t)
  {
    hide VisibleTo, Left;
    if list != [] {
      var n := |list| - 1;
      OthersUnaffected(list[..n], tenant, t);
      LeftSees(list[n], tenant, t);
      assert list == list[..n] + [list[n]];
      LookupConcat(list[..n], [list[n]], t);
      LookupConcat(Remaining(list[..n], tenant), Left(list[n], tenant), t);
      LookupShort(Left(list[n], tenant), t);
      LookupShort([list[n]], t);
    }
  }

  lemma LookupShort(list: Registrations, t: Tenant)
    requires |list| <= 1
    ensures Lookup(list, t) == if list != [] && VisibleTo(list[0].tenants, t) then Some(list[0]) else None
  {
  }

  lemma {:induction false} LookupFinds(list: Registrations, t: Tenant) returns (i: nat)
    requires Lookup(list, t).Some?
    ensures i < |list| && Lookup(list, t) == Some(list[i]) && VisibleTo(list[i].tenants, t)
  {
    if VisibleTo(list[0].tenants, t) {
      i := 0;
    } else {
      i := LookupFinds(list[1..], t);
      i := i + 1;
    }
  }

  /** The tenant itself is left with global resources only. */
  lemma OnlyGlobalsRemain(list: Registrations, tenant: Tenant)
    ensures Lookup(Remaining(list, tenant), tenant).Some? ==>
      Lookup(Remaining(list, tenant), tenant).value.tenants == []
  {
    hide VisibleTo, Left, Lookup, Remaining;
    if Lookup(Remaining(list, tenant), tenant).Some? {
      var i := LookupFinds(Remaining(list, tenant), tenant);
      var j := RemainingFrom(list, tenant, i, tenant);
    }
  }

  /** Unregistering never makes a scoped resource global: the global ones were global before. */
  lemma GlobalsWereGlobal(list: Registrations, tenant: Tenant, i: nat)
    requires i < |Remaining(list, tenant)| && Remaining(list, tenant)[i].tenants == []
    ensures Remaining(list, tenant)[i] in list
  {
  }

  // ---------------------------------------------------------------- the operations on the registry

  datatype Operation =
    | Register(resource: Resource)
    | Unregister(uri: string, tenant: Option<Tenant>)
    | ReplaceAll(owner: Tenant, withdrawn: seq<string>, added: seq<Resource>)

  function Done(reg: Registry, op: Operation): Registry {
    match op
    case Register(r) => Registered(reg, r)
    case Unregister(uri, tenant) => Unregistered(reg, uri, tenant)
    case ReplaceAll(owner, withdrawn, added) => Replaced(reg, owner, withdrawn, added)
  }

  lemma RegisterKeepsDisjoint(reg: Registry, r: Resource)
    requires AllDisjoint(reg)
    ensures AllDisjoint(Registered(reg, r))
  {
  }

  lemma UnregisterKeepsDisjoint(reg: Registry, uri: string, tenant: Option<Tenant>)
    requires AllDisjoint(reg)
    ensures AllDisjoint(Unregistered(reg, uri, tenant))
  {
    hide VisibleTo, Disjoint, Remaining;
    if uri in reg && tenant.Some? {
      RemainingDisjoint(reg[uri], tenant.value);
    }
  }

  lemma {:induction false} WithdrawKeepsDisjoint(reg: Registry, tenant: Tenant, uris: seq<string>)
    requires AllDisjoint(reg)
    ensures AllDisjoint(Withdrawn(reg, tenant, uris))
  {
    hide AllDisjoint, Unregistered;
    if uris != [] {
      WithdrawKeepsDisjoint(reg, tenant, uris[..|uris| - 1]);
      UnregisterKeepsDisjoint(Withdrawn(reg, tenant, uris[..|uris| - 1]), uris[|uris| - 1], Some(tenant));
    }
  }

  lemma {:induction false} AddKeepsDisjoint(reg: Registry, added: seq<Resource>)
    requires AllDisjoint(reg)
    ensures AllDisjoint(Added(reg, added))
  {
    hide AllDisjoint, Registered, AllRegistered;
    if added != [] {
      AddKeepsDisjoint(reg, added[..|added| - 1]);
      RegisterKeepsDisjoint(Added(reg, added[..|added| - 1]), added[|added| - 1]);
    }
  }

  ghost predicate Run(states: seq<Registry>, ops: seq<Operation>) {
    && |states| == |ops| + 1 && states[0] == map[]
    && forall i :: 0 <= i < |ops| ==> states[i + 1] == Done(states[i], ops[i])
  }

  lemma {:induction false} RunDisjoint(states: seq<Registry>, ops: seq<Operation>, i: nat)
    requires Run(states, ops) && i < |states|
    ensures AllDisjoint(states[i])
  {
    if i > 0 {
      hide AllDisjoint, Registered, Unregistered, Withdrawn, Added;
      RunDisjoint(states, ops, i - 1);
      match ops[i - 1]
      case Register(r) => RegisterKeepsDisjoint(states[i - 1], r);
      case Unregister(uri, tenant) => UnregisterKeepsDisjoint(states[i - 1], uri, tenant);
      case ReplaceAll(owner, withdrawn, added) =>
        WithdrawKeepsDisjoint(states[i - 1], owner, withdrawn);
        AddKeepsDisjoint(Withdrawn(states[i - 1], owner, withdrawn), added);
    }
  }

  /** In every reachable registry a tenant sees at most one resource of a URI. */
  lemma OneVisibleResource(states: seq<Registry>, ops: seq<Operation>, n: nat, uri: string, t: Tenant, i: nat, j: nat)
    requires Run(states, ops) && n < |states| && uri in states[n]
    requires i < |states[n][uri]| && j < |states[n][uri]|
    requires VisibleTo(states[n][uri][i].tenants, t) && VisibleTo(states[n][uri][j].tenants, t)
    ensures i == j
  {
    hide VisibleTo, Run;
    RunDisjoint(states, ops, n);
  }

  // ---------------------------------------------------------------- other tenants

  lemma UnregisterSpares(reg: Registry, uri: string, tenant: Tenant, t: Tenant, at: string)
    requires t != tenant
    ensures Seen(Listed(Unregistered(reg, uri, Some(tenant)), at), t) == Seen(Listed(reg, at), t)
  {
    hide VisibleTo, Remaining, Lookup;
    if uri in reg && at == uri {
      OthersUnaffected(reg[uri], tenant, t);
    }
  }

  lemma RegisterSpares(reg: Registry, r: Resource, tenant: Tenant, t: Tenant, at: string)
    requires t != tenant && r.tenants == [tenant]
    ensures Seen(Listed(Registered(reg, r), at), t) == Seen(Listed(reg, at), t)
  {
    hide Lookup;
    if RegisterError(reg, r).None? && r.uri == Some(at) {
      LookupConcat(Listed(reg, at), [r], t);
      LookupShort([r], t);
    }
  }

  lemma {:induction false} WithdrawSpares(reg: Registry, tenant: Tenant, uris: seq<string>, t: Tenant, at: string)
    requires t != tenant
    ensures Seen(Listed(Withdrawn(reg, tenant, uris), at), t) == Seen(Listed(reg, at), t)
  {
    hide Unregistered, Seen;
    if uris != [] {
      WithdrawSpares(reg, tenant, uris[..|uris| - 1], t, at);
      UnregisterSpares(Withdrawn(reg, tenant, uris[..|uris| - 1]), uris[|uris| - 1], tenant, t, at);
    }
  }

  lemma {:induction false} AddSpares(reg: Registry, added: seq<Resource>, tenant: Tenant, t: Tenant, at: string)
    requires t != tenant && forall i :: 0 <= i < |added| ==> added[i].tenants == [tenant]
    ensures Seen(Listed(Added(reg, added), at), t) == Seen(Listed(reg, at), t)
  {
    hide Registered, Seen, AllRegistered;
    if added != [] {
      AddSpares(reg, added[..|added| - 1], tenant, t, at);
      RegisterSpares(Added(reg, added[..|added| - 1]), added[|added| - 1], tenant, t, at);
    }
  }

  /** Replacing one tenant's packages leaves what every other tenant sees of every URI as it
      was, even when the replacement stops half way. */
  lemma ReplaceSpares(
    reg: Registry, tenant: Tenant, withdrawn: seq<string>, added: seq<Resource>, t: Tenant, at: string)
    requires t != tenant && forall i :: 0 <= i < |added| ==> added[i].tenants == [tenant]
    ensures Seen(Listed(Replaced(reg, tenant, withdrawn, added), at), t) == Seen(Listed(reg, at), t)
  {
    hide Withdrawn, Added, Seen;
    WithdrawSpares(reg, tenant, withdrawn, t, at);
    AddSpares(Withdrawn(reg, tenant, withdrawn), added, tenant, t, at);
  }
}
