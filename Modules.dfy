/**
 * The module store: an ordered list of the application's feature modules,
 * each with an upper-case code and an optional icon.
 */
module Modules {
  import opened Common
  import opened Keyed

  datatype Module = Module(
    id: string, name: string, code: string, description: string,
    status: ActiveStatus, icon: Option<string>)

  /** What `addModule` is given: a module without `id`. */
  datatype ModuleDraft = ModuleDraft(
    name: string, code: string, description: string, status: ActiveStatus, icon: Option<string>)

  /** `Partial<Module>`: `None` stands for a key the update object does not have. */
  datatype ModulePatch = ModulePatch(
    id: Option<string>, name: Option<string>, code: Option<string>,
    description: Option<string>, status: Option<ActiveStatus>, icon: Option<string>)

  function ModuleKey(m: Module): string { m.id }

  function NewModule(d: ModuleDraft, newId: string): Module
  {
    Module(newId, d.name, d.code, d.description, d.status, d.icon)
  }

  /** `{ ...m, ...u }`; an icon is replaced only by an update that has one. */
  function MergeModule(m: Module, u: ModulePatch): Module
  {
    Module(u.id.GetOr(m.id), u.name.GetOr(m.name), u.code.GetOr(m.code),
           u.description.GetOr(m.description), u.status.GetOr(m.status),
           if u.icon.Some? then u.icon else m.icon)
  }

  function UpdatedModules(ms: seq<Module>, id: string, u: ModulePatch): seq<Module>
  {
    Patch(ms, ModuleKey, id, (m: Module) => MergeModule(m, u))
  }

  const SeedModules: seq<Module> := [
    Module("1", "User Management", "USER_MGMT", "Manage users and roles", Active, None),
    Module("2", "Tenant Management", "TENANT_MGMT", "Manage tenant organizations", Active, None),
    Module("3", "Location Management", "LOC_MGMT", "Manage countries, states and cities", Active, None),
    Module("4", "Billing & Subscriptions", "BILLING", "Manage billing and payments", Active, None)
  ]

  class ModuleStore {
    var modules: seq<Module>

    constructor ()
      ensures modules == SeedModules
    {
      modules := SeedModules;
    }

    method AddModule(d: ModuleDraft, newId: string)
      modifies this
      ensures modules == old(modules) + [NewModule(d, newId)]
    {
      modules := modules + [NewModule(d, newId)];
    }

    method UpdateModule(id: string, u: ModulePatch)
      modifies this
      ensures modules == UpdatedModules(old(modules), id, u)
    {
      modules := UpdatedModules(modules, id, u);
    }

    method DeleteModule(id: string)
      modifies this
      ensures modules == Without(old(modules), ModuleKey, id)
    {
      modules := Without(modules, ModuleKey, id);
    }
  }

  /** `updateModule` keeps length and order, rewrites only the modules with
      the id, and keeps every field the update does not name, the optional
      icon included. */
  lemma UpdateModuleKeepsAbsentFields(ms: seq<Module>, id: string, u: ModulePatch)
    ensures |UpdatedModules(ms, id, u)| == |ms|
    ensures forall i :: 0 <= i < |ms| && ms[i].id != id ==> UpdatedModules(ms, id, u)[i] == ms[i]
    ensures forall i :: 0 <= i < |ms| && u.icon.None? ==> UpdatedModules(ms, id, u)[i].icon == ms[i].icon
    ensures forall i :: 0 <= i < |ms| && u.description.None? ==>
      UpdatedModules(ms, id, u)[i].description == ms[i].description
  {
  }
}
