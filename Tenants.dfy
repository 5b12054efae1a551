/**
 * The tenant store: an ordered list of tenants and an ordered list of
 * tenant mappings (a tenant's link to an external resource, carrying a
 * cached copy of the tenant's name). Deleting a tenant also deletes its
 * mappings; nothing else keeps the two lists consistent.
 */
module Tenants {
  import opened Common
  import opened Keyed

  datatype Tenant = Tenant(
    id: string, name: string, domain: string, description: string,
    status: ActiveStatus, createdAt: string)

  /** What `addTenant` is given: a tenant without `id` and `createdAt`. */
  datatype TenantDraft = TenantDraft(name: string, domain: string, description: string, status: ActiveStatus)

  /** `Partial<Tenant>`: `None` stands for a key the update object does not have. */
  datatype TenantPatch = TenantPatch(
    id: Option<string>, name: Option<string>, domain: Option<string>,
    description: Option<string>, status: Option<ActiveStatus>, createdAt: Option<string>)

  datatype TenantMapping = TenantMapping(
    id: string, tenantId: string, tenantName: string,
    resourceType: string, resourceId: string, resourceName: string)

  /** What `addMapping` is given: a mapping without `id`. */
  datatype MappingDraft = MappingDraft(
    tenantId: string, tenantName: string, resourceType: string, resourceId: string, resourceName: string)

  function TenantKey(t: Tenant): string { t.id }
  function TenantName(t: Tenant): string { t.name }
  function MappingKey(m: TenantMapping): string { m.id }
  function MappingTenant(m: TenantMapping): string { m.tenantId }
  function MappingTenantName(m: TenantMapping): string { m.tenantName }

  /** `{ ...tenant, id, createdAt }` where `createdAt` is the date part of
      the ISO clock reading `nowIso` (`toISOString().split('T')[0]`). */
  function NewTenant(d: TenantDraft, newId: string, nowIso: string): Tenant
  {
    Tenant(newId, d.name, d.domain, d.description, d.status, BeforeFirst(nowIso, 'T'))
  }

  /** `{ ...t, ...u }`: every key present in `u` overrides the tenant's. */
  function Merge(t: Tenant, u: TenantPatch): Tenant
  {
    Tenant(u.id.GetOr(t.id), u.name.GetOr(t.name), u.domain.GetOr(t.domain),
           u.description.GetOr(t.description), u.status.GetOr(t.status), u.createdAt.GetOr(t.createdAt))
  }

  function UpdatedTenants(ts: seq<Tenant>, id: string, u: TenantPatch): seq<Tenant>
  {
    Patch(ts, TenantKey, id, (t: Tenant) => Merge(t, u))
  }

  function NewMapping(d: MappingDraft, newId: string): TenantMapping
  {
    TenantMapping(newId, d.tenantId, d.tenantName, d.resourceType, d.resourceId, d.resourceName)
  }

  /** Every mapping names a tenant that exists. The store does not maintain
      this; the lemmas below say which actions keep it. */
  ghost predicate MappingsResolve(ts: seq<Tenant>, ms: seq<TenantMapping>)
  {
    Resolves(ts, TenantKey, ms, MappingTenant)
  }

  const SeedTenants: seq<Tenant> := [
    Tenant("1", "Acme Corporation", "acme.example.com", "Primary enterprise tenant", Active, "2024-01-15"),
    Tenant("2", "TechStart Inc", "techstart.example.com", "Startup tenant", Active, "2024-02-20"),
    Tenant("3", "Global Services", "global.example.com", "International services tenant", Inactive, "2024-03-10")
  ]

  const SeedMappings: seq<TenantMapping> := [
    TenantMapping("1", "1", "Acme Corporation", "Database", "db-001", "Production DB"),
    TenantMapping("2", "1", "Acme Corporation", "Storage", "st-001", "File Storage"),
    TenantMapping("3", "2", "TechStart Inc", "Database", "db-002", "Dev Database")
  ]

  class TenantStore {
    var tenants: seq<Tenant>
    var mappings: seq<TenantMapping>

    constructor ()
      ensures tenants == SeedTenants && mappings == SeedMappings
    {
      tenants := SeedTenants;
      mappings := SeedMappings;
    }

    /** Appends one tenant; the mappings are untouched. */
    method AddTenant(d: TenantDraft, newId: string, nowIso: string)
      modifies this
      ensures tenants == old(tenants) + [NewTenant(d, newId, nowIso)]
      ensures mappings == old(mappings)
    {
      tenants := tenants + [NewTenant(d, newId, nowIso)];
    }

    /** Merges `u` into every tenant whose id is `id`. The mappings, and so
        their cached `tenantName`, are untouched. */
    method UpdateTenant(id: string, u: TenantPatch)
      modifies this
      ensures tenants == UpdatedTenants(old(tenants), id, u)
      ensures mappings == old(mappings)
    {
      tenants := UpdatedTenants(tenants, id, u);
    }

    /** Removes every tenant with that id and every mapping that names it. */
    method DeleteTenant(id: string)
      modifies this
      ensures tenants == Without(old(tenants), TenantKey, id)
      ensures mappings == Without(old(mappings), MappingTenant, id)
    {
      tenants := Without(tenants, TenantKey, id);
      mappings := Without(mappings, MappingTenant, id);
    }

    /** Appends one mapping without checking that its tenant exists. */
    method AddMapping(d: MappingDraft, newId: string)
      modifies this
      ensures mappings == old(mappings) + [NewMapping(d, newId)]
      ensures tenants == old(tenants)
    {
      mappings := mappings + [NewMapping(d, newId)];
    }

    /** Removes every mapping with that id; the tenants are untouched. */
    method DeleteMapping(id: string)
      modifies this
      ensures mappings == Without(old(mappings), MappingKey, id)
      ensures tenants == old(tenants)
    {
      mappings := Without(mappings, MappingKey, id);
    }
  }

  /** The cascade of `deleteTenant`: afterwards no tenant and no mapping
      carries the id, while every other tenant id keeps exactly its tenants
      and its mappings, in their original order. */
  lemma DeleteTenantCascade(ts: seq<Tenant>, ms: seq<TenantMapping>, id: string)
    ensures forall i :: 0 <= i < |Without(ts, TenantKey, id)| ==> Without(ts, TenantKey, id)[i].id != id
    ensures forall j :: 0 <= j < |Without(ms, MappingTenant, id)| ==> Without(ms, MappingTenant, id)[j].tenantId != id
    ensures forall k :: k != id ==>
      && Only(Without(ts, TenantKey, id), TenantKey, k) == Only(ts, TenantKey, k)
      && Only(Without(ms, MappingTenant, id), MappingTenant, k) == Only(ms, MappingTenant, k)
  {
    forall k | k != id
      ensures Only(Without(ts, TenantKey, id), TenantKey, k) == Only(ts, TenantKey, k)
      ensures Only(Without(ms, MappingTenant, id), MappingTenant, k) == Only(ms, MappingTenant, k)
    {
      WithoutKeepsOthers(ts, TenantKey, id, k);
      WithoutKeepsOthers(ms, MappingTenant, id, k);
    }
  }

  /** `deleteTenant` removes exactly the mappings of that tenant: the removed
      ones and the kept ones together are the old mappings. */
  lemma DeleteTenantRemovesExactly(ms: seq<TenantMapping>, id: string)
    ensures multiset(Without(ms, MappingTenant, id)) == multiset(ms) - multiset(Only(ms, MappingTenant, id))
  {
    Partition(ms, MappingTenant, id);
  }

  /** Because of the cascade, deleting a tenant never leaves a mapping
      pointing at a missing tenant. */
  lemma DeleteTenantKeepsResolution(ts: seq<Tenant>, ms: seq<TenantMapping>, id: string)
    requires MappingsResolve(ts, ms)
    ensures MappingsResolve(Without(ts, TenantKey, id), Without(ms, MappingTenant, id))
  {
    CascadeKeepsLinks(ts, TenantKey, ms, MappingTenant, id);
  }

  /** Adding a tenant or deleting a mapping keeps every mapping resolvable. */
  lemma AddTenantAndDeleteMappingKeepResolution(
    ts: seq<Tenant>, ms: seq<TenantMapping>, t: Tenant, mappingId: string)
    requires MappingsResolve(ts, ms)
    ensures MappingsResolve(ts + [t], ms)
    ensures MappingsResolve(ts, Without(ms, MappingKey, mappingId))
  {
    var ms' := Without(ms, MappingKey, mappingId);
    forall j | 0 <= j < |ms'|
      ensures exists i :: 0 <= i < |ts| && ts[i].id == ms'[j].tenantId
    {
      var j0 :| 0 <= j0 < |ms| && ms[j0] == ms'[j];
    }
    forall j | 0 <= j < |ms|
      ensures exists i :: 0 <= i < |ts + [t]| && (ts + [t])[i].id == ms[j].tenantId
    {
      var i :| 0 <= i < |ts| && ts[i].id == ms[j].tenantId;
      assert (ts + [t])[i] == ts[i];
    }
  }

  /** `addMapping` does no check: a mapping that names tenant "9" can be
      added to the seeded store, after which a mapping names no tenant. */
  lemma AddMappingIsUnchecked()
    ensures MappingsResolve(SeedTenants, SeedMappings)
    ensures !MappingsResolve(SeedTenants, SeedMappings + [NewMapping(MappingDraft("9", "Ghost", "Database", "db-9", "Orphan"), "4")])
  {
    var ms := SeedMappings + [NewMapping(MappingDraft("9", "Ghost", "Database", "db-9", "Orphan"), "4")];
    assert ms[3].tenantId == "9";
    assert forall i :: 0 <= i < |SeedTenants| ==> SeedTenants[i].id != "9";
    assert SeedTenants[0].id == SeedMappings[0].tenantId;
    assert SeedTenants[0].id == SeedMappings[1].tenantId;
    assert SeedTenants[1].id == SeedMappings[2].tenantId;
  }

  /** Every seeded mapping names a seeded tenant and carries its name. */
  lemma SeedMappingsConsistent()
    ensures MappingsResolve(SeedTenants, SeedMappings)
    ensures CachedNamesAgree(SeedTenants, TenantKey, TenantName, SeedMappings, MappingTenant, MappingTenantName)
  {
    forall j | 0 <= j < |SeedMappings|
      ensures FindFirst(SeedTenants, TenantKey, MappingTenant(SeedMappings[j])).Some?
      ensures MappingTenantName(SeedMappings[j]) == NameOf(SeedTenants, TenantKey, TenantName, MappingTenant(SeedMappings[j]))
    {
      var i := if SeedMappings[j].tenantId == "1" then 0 else 1;
      assert IsFirst(SeedTenants, TenantKey, MappingTenant(SeedMappings[j]), i);
    }
  }

  /** Renaming a tenant does not refresh the cached name in its mappings:
      after renaming tenant "1" of the seeded store, its mappings no longer
      agree with their tenant. */
  lemma RenameLeavesMappingNameStale()
    ensures !CachedNamesAgree(
      UpdatedTenants(SeedTenants, "1", TenantPatch(None, Some("Acme Ltd"), None, None, None, None)),
      TenantKey, TenantName, SeedMappings, MappingTenant, MappingTenantName)
  {
    var renamed := UpdatedTenants(SeedTenants, "1", TenantPatch(None, Some("Acme Ltd"), None, None, None, None));
    assert renamed[0].name == "Acme Ltd";
    assert IsFirst(renamed, TenantKey, "1", 0);
    assert MappingTenantName(SeedMappings[0]) != NameOf(renamed, TenantKey, TenantName, MappingTenant(SeedMappings[0]));
  }

  /** Applying the same update twice is the same as applying it once, also
      when the update renames the id: the renamed tenants no longer match. */
  lemma {:induction false} UpdateTenantIdempotent(ts: seq<Tenant>, id: string, u: TenantPatch)
    ensures UpdatedTenants(UpdatedTenants(ts, id, u), id, u) == UpdatedTenants(ts, id, u)
  {
    var once := UpdatedTenants(ts, id, u);
    var twice := UpdatedTenants(once, id, u);
    forall i | 0 <= i < |ts| ensures twice[i] == once[i] {
      if ts[i].id == id {
        assert once[i] == Merge(ts[i], u);
        assert Merge(Merge(ts[i], u), u) == Merge(ts[i], u);
      }
    }
  }
}
