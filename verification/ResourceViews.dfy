/** What each tenant sees of the resource registry after an operation, and when an operation is
refused. */
module ResourceViews {
  import opened Wrappers
  import opened ResourceRegistry

  /** The resource a tenant reads under a URI. */
  function View(reg: Registry, uri: string, t: Tenant): Option<Resource> {
    Lookup(if uri in reg then reg[uri] else [], t)
  }

  /** A tenant reads nothing exactly when no registration of the URI includes it. */
  lemma {:induction false} NothingIff(list: Registrations, t: Tenant)
    ensures Lookup(list, t).None? <==>
      forall i :: 0 <= i < |list| ==> list[i].tenants != [] && t !in list[i].tenants
  {
    if list != [] {
      NothingIff(list[1..], t);
      assert forall i :: 1 <= i < |list| ==> list[i] == list[1..][i - 1];
    }
  }

  predicate Reaches(r: Resource, t: Tenant) {
    r.tenants == [] || t in r.tenants
  }

  /** Some tenant would read both resources. */
  ghost predicate Clash(a: Resource, b: Resource) {
    exists t: Tenant :: Reaches(a, t) && Reaches(b, t)
  }

  lemma ClashIff(a: Resource, b: Resource)
    ensures ScopesOverlap(a.tenants, b.tenants) <==> Clash(a, b)
  {
    OverlapIff(a.tenants, b.tenants);
    if t: Tenant :| VisibleTo(a.tenants, t) && VisibleTo(b.tenants, t) {
      assert Reaches(a, t) && Reaches(b, t);
    }
    if t: Tenant :| Reaches(a, t) && Reaches(b, t) {
      assert VisibleTo(a.tenants, t) && VisibleTo(b.tenants, t);
    }
  }

  /** A registration is accepted exactly when the resource has a URI, all its contents have that
      URI, and no tenant already reads a resource there that this one would reach as well. */
  lemma RegisterIff(reg: Registry, r: Resource)
    ensures RegisterError(reg, r).None? <==>
      && r.uri.Some?
      && (forall c :: c in r.contents ==> c.uri == r.uri.value)
      && (r.uri.value in reg ==> forall x :: x in reg[r.uri.value] ==> !Clash(x, r))
    ensures r.uri.None? <==> RegisterError(reg, r) == Some(UriMissing)
    ensures r.uri.Some? ==>
      (RegisterError(reg, r) == Some(ContentMismatch) <==> exists c :: c in r.contents && c.uri != r.uri.value)
  {
    forall x: Resource ensures ScopesOverlap(x.tenants, r.tenants) <==> Clash(x, r) {
      ClashIff(x, r);
    }
    if r.uri.Some? {
      var list := Listed(reg, r.uri.value);
      assert forall i :: 0 <= i < |list| ==> list[i] in list;
      assert forall i :: 0 <= i < |r.contents| ==> r.contents[i] in r.contents;
    }
  }

  /** After a registration exactly the tenants it reaches read the new resource. */
  lemma RegisterShows(reg: Registry, r: Resource, uri: string, t: Tenant)
    ensures View(Registered(reg, r), uri, t) ==
      if RegisterError(reg, r).None? && r.uri == Some(uri) && (r.tenants == [] || t in r.tenants) then Some(r)
      else View(reg, uri, t)
  {
    if RegisterError(reg, r).None? && r.uri == Some(uri) {
      var list := Listed(reg, uri);
      LookupConcat(list, [r], t);
      if Lookup(list, t).Some? {
        var i := LookupFinds(list, t);
        OverlapIff(list[i].tenants, r.tenants);
      }
    }
  }

  /** After its own withdrawal a tenant reads under the URI only what is global; without a tenant
      nobody reads anything there. Other URIs are untouched. */
  lemma UnregisterShows(reg: Registry, uri: string, tenant: Option<Tenant>, at: string, t: Tenant)
    ensures at != uri ==> View(Unregistered(reg, uri, tenant), at, t) == View(reg, at, t)
    ensures tenant.None? ==> View(Unregistered(reg, uri, tenant), uri, t) == None
    ensures tenant == Some(t) ==>
      var seen := View(Unregistered(reg, uri, tenant), uri, t);
      seen.Some? ==> seen.value.tenants == [] && uri in reg && seen.value in reg[uri]
    ensures tenant.Some? && tenant.value != t ==>
      Seen(Listed(Unregistered(reg, uri, tenant), uri), t) == Seen(Listed(reg, uri), t)
  {
    hide Remaining, Lookup;
    LookupNothing(t);
    if uri in reg && tenant.Some? {
      if tenant.value == t {
        OnlyGlobalsRemain(reg[uri], t);
        if Lookup(Remaining(reg[uri], t), t).Some? {
          var i := LookupFinds(Remaining(reg[uri], t), t);
          GlobalsWereGlobal(reg[uri], t, i);
        }
      } else {
        OthersUnaffected(reg[uri], tenant.value, t);
      }
    }
  }

  lemma LookupNothing(t: Tenant)
    ensures Lookup([], t) == None
  {
  }

  /** A global resource stays readable through every withdrawal for one tenant. */
  lemma GlobalStays(reg: Registry, uri: string, tenant: Tenant, t: Tenant)
    requires AllDisjoint(reg) && View(reg, uri, t).Some? && View(reg, uri, t).value.tenants == []
    ensures View(Unregistered(reg, uri, Some(tenant)), uri, t) == View(reg, uri, t)
  {
    hide Remaining;
    var i := LookupFinds(reg[uri], t);
    GlobalExcludes(reg[uri], i);
    GlobalAlone(reg[uri], tenant);
  }

  lemma GlobalExcludes(list: Registrations, i: nat)
    requires Disjoint(list) && i < |list| && list[i].tenants == []
    ensures |list| == 1
  {
    if |list| > 1 {
      OnlyOne(list, i, if i == 0 then 1 else 0);
    }
  }

  lemma OnlyOne(list: Registrations, i: nat, j: nat)
    requires Disjoint(list) && i < |list| && j < |list| && list[i].tenants == []
    ensures i == j
  {
    var t := if list[j].tenants == [] then "" else list[j].tenants[0];
    assert VisibleTo(list[i].tenants, t) && VisibleTo(list[j].tenants, t);
  }

  lemma GlobalAlone(list: Registrations, tenant: Tenant)
    requires |list| == 1 && list[0].tenants == []
    ensures Remaining(list, tenant) == list
  {
    assert list[..0] == [];
  }

  // ---------------------------------------------------------------- no empty lists

  /** A URI is listed only while something is registered under it. */
  ghost predicate Tidy(reg: Registry) {
    forall uri :: uri in reg ==> reg[uri] != []
  }

  lemma {:induction false} WithdrawnTidy(reg: Registry, tenant: Tenant, uris: seq<string>)
    requires Tidy(reg)
    ensures Tidy(Withdrawn(reg, tenant, uris))
  {
    hide Remaining;
    if uris != [] {
      WithdrawnTidy(reg, tenant, uris[..|uris| - 1]);
    }
  }

  lemma {:induction false} AddedTidy(reg: Registry, added: seq<Resource>)
    requires Tidy(reg)
    ensures Tidy(Added(reg, added))
  {
    if added != [] {
      AddedTidy(reg, added[..|added| - 1]);
    }
  }

  /** No operation leaves an empty list behind. */
  lemma {:induction false} RunTidy(states: seq<Registry>, ops: seq<Operation>, i: nat)
    requires Run(states, ops) && i < |states|
    ensures Tidy(states[i])
  {
    hide Remaining, Withdrawn, Added, RegisterError;
    if i > 0 {
      RunTidy(states, ops, i - 1);
      var op := ops[i - 1];
      if op.ReplaceAll? {
        WithdrawnTidy(states[i - 1], op.owner, op.withdrawn);
        AddedTidy(Withdrawn(states[i - 1], op.owner, op.withdrawn), op.added);
      }
    }
  }

  /** So unregistering says that it changed something exactly when it did. */
  lemma ChangedIff(reg: Registry, uri: string, tenant: Option<Tenant>)
    requires Tidy(reg)
    ensures Affects(reg, uri, tenant) <==> Unregistered(reg, uri, tenant) != reg
  {
    hide Remaining;
    if uri in reg && tenant.Some? {
      var list := reg[uri];
      if i :| 0 <= i < |list| && tenant.value in list[i].tenants {
        if Remaining(list, tenant.value) == list {
          RemainingExcludes(list, tenant.value, i);
        }
      } else {
        RemainingKeeps(list, tenant.value);
      }
    }
  }

  lemma RemainingExcludes(list: Registrations, tenant: Tenant, k: nat)
    requires k < |Remaining(list, tenant)|
    ensures tenant !in Remaining(list, tenant)[k].tenants
  {
    hide Remaining;
    var j := RemainingFrom(list, tenant, k, tenant);
  }

  lemma {:induction false} RemainingKeeps(list: Registrations, tenant: Tenant)
    requires forall i :: 0 <= i < |list| ==> tenant !in list[i].tenants
    ensures Remaining(list, tenant) == list
  {
    if list != [] {
      RemainingKeeps(list[..|list| - 1], tenant);
      assert list == list[..|list| - 1] + [list[|list| - 1]];
    }
  }

  // ---------------------------------------------------------------- replacing a tenant's resources

  /** When all of them could be registered, the tenant reads each of its new resources. */
  lemma {:induction false} AddedShows(reg: Registry, added: seq<Resource>, i: nat, t: Tenant)
    requires AllRegistered(reg, added) && i < |added| && added[i].tenants == [t]
    ensures added[i].uri.Some? && View(Added(reg, added), added[i].uri.value, t) == Some(added[i])
  {
    var n := |added| - 1;
    var before := Added(reg, added[..n]);
    RegisterIff(before, added[n]);
    if i < n {
      AddedShows(reg, added[..n], i, t);
      assert added[..n][i] == added[i];
      RegisterShows(before, added[n], added[i].uri.value, t);
      if added[n].uri == added[i].uri {
        StillSeen(before, added[n], added[i].uri.value, t);
      }
    } else {
      RegisterShows(before, added[n], added[n].uri.value, t);
    }
  }

  lemma StillSeen(reg: Registry, r: Resource, uri: string, t: Tenant)
    requires RegisterError(reg, r).None? && View(reg, uri, t).Some? && r.uri == Some(uri)
    ensures r.tenants != [] && t !in r.tenants
  {
    hide Lookup;
    LookupNothing(t);
    var i := LookupFinds(Listed(reg, uri), t);
    OverlapIff(Listed(reg, uri)[i].tenants, r.tenants);
  }

  /** A replacement that goes through shows the tenant exactly the resources it was given. */
  lemma ReplaceShows(reg: Registry, tenant: Tenant, withdrawn: seq<string>, added: seq<Resource>, i: nat)
    requires AllRegistered(Withdrawn(reg, tenant, withdrawn), added) && i < |added| && added[i].tenants == [tenant]
    ensures added[i].uri.Some?
    ensures View(Replaced(reg, tenant, withdrawn, added), added[i].uri.value, tenant) == Some(added[i])
  {
    hide Withdrawn, Added, AllRegistered;
    AddedShows(Withdrawn(reg, tenant, withdrawn), added, i, tenant);
  }
}
