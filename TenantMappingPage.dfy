/**
 * The tenant-mapping page: a filtered view of the mappings, an inline form
 * that adds a mapping only for a tenant that exists (copying that
 * tenant's name into it), and a confirmed delete.
 */
module TenantMapping {
  import opened Common
  import opened Keyed
  import opened Tenants

  /** The inline form's four inputs. */
  datatype MappingForm = MappingForm(tenantId: string, resourceType: string, resourceId: string, resourceName: string)

  const EmptyMappingForm := MappingForm("", "", "", "")

  /** The filter's "every tenant" choice. */
  const AllTenants := "all"

  /** `mappings.filter(m => filter === 'all' || m.tenantId === filter)`. */
  function Visible(ms: seq<TenantMapping>, filter: string): (r: seq<TenantMapping>)
    ensures filter == AllTenants ==> r == ms
    ensures filter != AllTenants ==> r == Only(ms, MappingTenant, filter)
  {
    if ms == [] then []
    else (if filter == AllTenants || ms[0].tenantId == filter then [ms[0]] else []) + Visible(ms[1..], filter)
  }

  /** `{ ...newMapping, tenantName }`. */
  function DraftOf(f: MappingForm, tenantName: string): MappingDraft
  {
    MappingDraft(f.tenantId, tenantName, f.resourceType, f.resourceId, f.resourceName)
  }

  /** The mapping the form adds to tenants `ts`, when its tenant exists. */
  function FormMapping(ts: seq<Tenant>, f: MappingForm, newId: string): TenantMapping
  {
    NewMapping(DraftOf(f, NameOf(ts, TenantKey, TenantName, f.tenantId)), newId)
  }

  /** Unlike the store's `addMapping`, the page's add keeps the mappings
      consistent: each names an existing tenant and carries that tenant's name. */
  lemma GatedAddKeepsConsistency(ts: seq<Tenant>, ms: seq<TenantMapping>, f: MappingForm, newId: string)
    requires MappingsResolve(ts, ms)
    requires CachedNamesAgree(ts, TenantKey, TenantName, ms, MappingTenant, MappingTenantName)
    requires FindFirst(ts, TenantKey, f.tenantId).Some?
    ensures MappingsResolve(ts, ms + [FormMapping(ts, f, newId)])
    ensures CachedNamesAgree(ts, TenantKey, TenantName, ms + [FormMapping(ts, f, newId)], MappingTenant, MappingTenantName)
  {
    AppendKeepsLinks(ts, TenantKey, TenantName, ms, MappingTenant, MappingTenantName, FormMapping(ts, f, newId));
  }

  class TenantMappingPage {
    const store: TenantStore
    var tenantFilter: string
    var showAddForm: bool
    var newMapping: MappingForm

    constructor (store: TenantStore)
      ensures this.store == store
      ensures tenantFilter == AllTenants && !showAddForm && newMapping == EmptyMappingForm
    {
      this.store := store;
      tenantFilter, showAddForm, newMapping := AllTenants, false, EmptyMappingForm;
    }

    /** The rows the table shows. */
    function FilteredMappings(): seq<TenantMapping>
      reads this, store
    {
      Visible(store.mappings, tenantFilter)
    }

    method SetTenantFilter(filter: string)
      modifies this`tenantFilter
      ensures tenantFilter == filter
    {
      tenantFilter := filter;
    }

    /** The "Add Mapping"/"Cancel" button. */
    method ToggleAddForm()
      modifies this`showAddForm
      ensures showAddForm == !old(showAddForm)
    {
      showAddForm := !showAddForm;
    }

    /** An edit of one of the inline form's inputs. */
    method EditNewMapping(f: MappingForm)
      modifies this`newMapping
      ensures newMapping == f
    {
      newMapping := f;
    }

    /** Adds the form's mapping only when its tenant exists, with that
        tenant's name; then clears and hides the form. Otherwise nothing
        changes. */
    method HandleAddMapping(newId: string) returns (added: bool)
      modifies this`newMapping, this`showAddForm, store
      ensures added <==> FindFirst(old(store.tenants), TenantKey, old(newMapping).tenantId).Some?
      ensures store.tenants == old(store.tenants)
      ensures added ==> store.mappings == old(store.mappings) + [FormMapping(old(store.tenants), old(newMapping), newId)]
      ensures added ==> newMapping == EmptyMappingForm && !showAddForm
      ensures !added ==> store.mappings == old(store.mappings)
      ensures !added ==> newMapping == old(newMapping) && showAddForm == old(showAddForm)
    {
      match FindFirst(store.tenants, TenantKey, newMapping.tenantId)
      case None =>
        added := false;
      case Some(tenant) =>
        store.AddMapping(DraftOf(newMapping, tenant.name), newId);
        newMapping, showAddForm := EmptyMappingForm, false;
        added := true;
    }

    /** Deletes the mapping only when the user confirms the prompt. */
    method HandleDeleteMapping(id: string, confirmed: bool)
      modifies store
      ensures store.tenants == old(store.tenants)
      ensures confirmed ==> store.mappings == Without(old(store.mappings), MappingKey, id)
      ensures !confirmed ==> store.mappings == old(store.mappings)
    {
      if confirmed {
        store.DeleteMapping(id);
      }
    }
  }
}
