# offybox-support: stores and form handlers

offybox-support is a React administration console for a multi-tenant
support product. Its state lives in client-side `zustand` stores:

- the **tenant store**: tenants, plus tenant mappings (a tenant's link to an
  external resource; each mapping caches the tenant's name);
- the **location store**: a country > state > city > area hierarchy in which
  every child caches its parent's name;
- the **ticket store**: support tickets, each with a cached tenant name and
  two timestamps;
- the **module store**: feature modules with an upper-case code and an
  optional icon;
- the **user store**: support users fetched from a backend, with a loading
  flag and an error message;
- the **auth store**: a mock session whose login always succeeds.

Create/edit form pages validate their input and then call a store action.
Each form either adds a record or updates the record named by the route's
`:id`. The location, ticket and mapping pages also fill in the cached
parent name from a lookup.

The model gives each store and each page its own module. Shared modules:

- `Common` holds the JavaScript string operations the application uses:
  `trim`, ASCII `toUpperCase` and `split(sep)[0]`.
- `Keyed` holds the list operations every store is built from: filter by
  key, merge into matching records, `find` and its `?.name || ''` lookup.
  It also holds the two consistency predicates of a denormalised
  hierarchy:
  - `Resolves`: every child's parent exists;
  - `CachedNamesAgree`: every cached name matches its parent's name.

Modelling choices:

- Each store and each page is a class whose fields are the source's state.
  Every action's `ensures` gives the new state as a function of the old
  state.
- `Partial<T>` update objects are datatypes of `Option` fields. `None` means
  the key is absent.
- A page's `errors` record is a map from an enumeration of the form's field
  names (`FormField`) to the message. Its keys are exactly the strings the
  page writes.
- A `!value.trim()` test is written `IsBlank(value)`. `Common.Trim` proves
  the two are the same.
- Ids (`Date.now().toString()`) and clock readings (`new Date()`) are
  parameters supplied by the caller.
- Each asynchronous user-store action takes the backend's answer as an input
  (`Users.Outcome`). It is split at its `await` into a `Begin…` method and a
  `Settle…` method, so that other actions can run in between.

## Model

| member | source | states |
|---|---|---|
| `Common.Trim` | src/pages/TenantCreatePage.tsx:42-46 | `trim()` yields the empty (falsy) string exactly for a string made only of ECMAScript whitespace; otherwise the result starts and ends with a non-whitespace character |
| `Common.TrimStart` | src/pages/TenantCreatePage.tsx:42 | drops exactly a whitespace prefix and keeps the rest as a suffix of the input |
| `Common.TrimEnd` | src/pages/TenantCreatePage.tsx:42 | drops exactly a whitespace suffix and keeps the rest as a prefix of the input |
| `Common.ToUpper` | src/pages/ModuleCreatePage.tsx:91 | same length, with every character mapped by ASCII upper-casing |
| `Common.ToUpperIdempotent` | src/pages/CountryCreatePage.tsx:53 | upper-casing leaves no lower-case ASCII letter, and upper-casing twice equals upper-casing once |
| `Common.BeforeFirst` | src/store/authStore.ts:29 | `split(sep)[0]` is a prefix free of `sep`, followed in the input by `sep` whenever it is shorter than the input |
| `Keyed.Only` | src/pages/TenantMappingPage.tsx:21-23 | the filtered list holds exactly the elements with the key, in order |
| `Keyed.Without` | src/store/locationStore.ts:88-91 | `filter(x => x.id !== id)` keeps exactly the elements without the key, and never lengthens the list |
| `Keyed.WithoutAppend` | src/store/tenantStore.ts:106-107 | filtering distributes over concatenation |
| `Keyed.OnlyAppend` | src/pages/TenantMappingPage.tsx:21-23 | selecting by key distributes over concatenation |
| `Keyed.WithoutAbsent` | src/store/tenantStore.ts:116-119 | deleting an id that no element carries changes nothing |
| `Keyed.WithoutIdempotent` | src/store/locationStore.ts:124-127 | deleting twice equals deleting once |
| `Keyed.WithoutKeepsOthers` | src/store/tenantStore.ts:106-107 | deleting one key leaves every other key's elements, in their order |
| `Keyed.Partition` | src/store/tenantStore.ts:107 | the dropped and the kept elements together are the old list (multiset), with sizes adding up |
| `Keyed.Patch` | src/store/locationStore.ts:84-87 | `map(x => x.id === id ? f(x) : x)` keeps length and order, rewrites exactly the matching elements |
| `Keyed.PatchAbsent` | src/store/moduleStore.ts:33-36 | an update of an absent id changes nothing |
| `Keyed.FindFirst` | src/pages/TenantMappingPage.tsx:28-29 | `find` is empty exactly when no element has the key, and otherwise returns the first such element |
| `Keyed.FirstIsUnique` | src/pages/TenantMappingPage.tsx:28 | only one position is the first match |
| `Keyed.FindFirstIsHeadOfOnly` | src/pages/TenantMappingPage.tsx:21-28 | `find` returns the head of the filtered list |
| `Keyed.NameOf` | src/pages/StateCreatePage.tsx:26-27 | `find(...)?.name \|\| ''` is `''` when nothing matches and the first match's name otherwise |
| `Keyed.CascadeKeepsLinks` | src/store/tenantStore.ts:104-108 | deleting a parent together with the children that reference it keeps every remaining link resolving |
| `Keyed.DeleteWithoutCascadeOrphans` | src/store/locationStore.ts:88-115 | deleting a parent that a child references, without a cascade, leaves that child unresolved |
| `Keyed.AppendKeepsLinks` | src/pages/StateCreatePage.tsx:25-39 | appending a child whose parent exists and whose cached name is that parent's keeps the hierarchy consistent |
| `Keyed.AppendUnresolvedOrphans` | src/store/locationStore.ts:92-95 | appending a child whose parent is missing breaks resolution |
| `Tenants.TenantStore.constructor` | src/store/tenantStore.ts:35-86 | the three seeded tenants and three seeded mappings |
| `Tenants.TenantStore.AddTenant` | src/store/tenantStore.ts:87-97 | appends one tenant with the given fields, the new id and the date part of the clock; mappings unchanged |
| `Tenants.TenantStore.UpdateTenant` | src/store/tenantStore.ts:98-103 | merges the update into every tenant with the id; mappings (and their cached names) unchanged |
| `Tenants.TenantStore.DeleteTenant` | src/store/tenantStore.ts:104-108 | removes the tenants with the id and, in cascade, the mappings that reference it |
| `Tenants.TenantStore.AddMapping` | src/store/tenantStore.ts:109-115 | appends one mapping with the new id, unchecked; tenants unchanged |
| `Tenants.TenantStore.DeleteMapping` | src/store/tenantStore.ts:116-119 | removes the mappings with the id; tenants unchanged |
| `Tenants.DeleteTenantCascade` | src/store/tenantStore.ts:104-108 | afterwards no tenant and no mapping carries the id, while every other tenant keeps exactly its tenants and mappings in order |
| `Tenants.DeleteTenantRemovesExactly` | src/store/tenantStore.ts:107 | the deleted mappings are exactly the mappings of that tenant |
| `Tenants.DeleteTenantKeepsResolution` | src/store/tenantStore.ts:104-108 | because of the cascade, deleting a tenant never orphans a mapping |
| `Tenants.AddTenantAndDeleteMappingKeepResolution` | src/store/tenantStore.ts:87-119 | adding a tenant or deleting a mapping keeps every mapping resolvable |
| `Tenants.AddMappingIsUnchecked` | src/store/tenantStore.ts:109-115 | the seeded store resolves, and adding a mapping for tenant "9" makes it not resolve |
| `Tenants.SeedMappingsConsistent` | src/store/tenantStore.ts:35-86 | every seeded mapping names a seeded tenant and carries that tenant's name |
| `Tenants.RenameLeavesMappingNameStale` | src/store/tenantStore.ts:98-103 | after renaming tenant "1" of the seeded store, the mappings' cached names no longer agree with their tenants |
| `Tenants.UpdateTenantIdempotent` | src/store/tenantStore.ts:98-103 | applying the same update twice equals applying it once |
| `Locations.LocationStore.constructor` | src/store/locationStore.ts:58-79 | the seeded four lists |
| `Locations.LocationStore.AddCountry` | src/store/locationStore.ts:80-83 | appends one country with the new id; the other three lists unchanged |
| `Locations.LocationStore.UpdateCountry` | src/store/locationStore.ts:84-87 | merges into matching countries; the other lists, and so the states' cached names, unchanged |
| `Locations.LocationStore.DeleteCountry` | src/store/locationStore.ts:88-91 | removes matching countries, no cascade to states |
| `Locations.LocationStore.AddState` | src/store/locationStore.ts:92-95 | appends one state with the new id; other lists unchanged |
| `Locations.LocationStore.UpdateState` | src/store/locationStore.ts:96-99 | merges into matching states; other lists unchanged |
| `Locations.LocationStore.DeleteState` | src/store/locationStore.ts:100-103 | removes matching states, no cascade to cities |
| `Locations.LocationStore.AddCity` | src/store/locationStore.ts:104-107 | appends one city with the new id; other lists unchanged |
| `Locations.LocationStore.UpdateCity` | src/store/locationStore.ts:108-111 | merges into matching cities; other lists unchanged |
| `Locations.LocationStore.DeleteCity` | src/store/locationStore.ts:112-115 | removes matching cities, no cascade to areas |
| `Locations.LocationStore.AddArea` | src/store/locationStore.ts:116-119 | appends one area with the new id; other lists unchanged |
| `Locations.LocationStore.UpdateArea` | src/store/locationStore.ts:120-123 | merges into matching areas; other lists unchanged |
| `Locations.LocationStore.DeleteArea` | src/store/locationStore.ts:124-127 | removes matching areas; other lists unchanged |
| `Locations.SeedStatesConsistent` | src/store/locationStore.ts:58-68 | every seeded state names an existing country and carries its name |
| `Locations.SeedCitiesConsistent` | src/store/locationStore.ts:63-74 | every seeded city names an existing state and carries its name |
| `Locations.SeedAreasConsistent` | src/store/locationStore.ts:69-79 | every seeded area names an existing city and carries its name |
| `Locations.DeleteDoesNotCascade` | src/store/locationStore.ts:88-115 | deleting country, state or city "1" of the seeded store leaves children pointing at nothing |
| `Locations.RenameCountryLeavesStatesStale` | src/store/locationStore.ts:84-87 | renaming country "1" leaves its states' cached name stale |
| `Tickets.TicketStore.constructor` | src/store/ticketStore.ts:26-49 | the two seeded tickets, stamped with the start-up clock |
| `Tickets.TicketStore.AddTicket` | src/store/ticketStore.ts:50-61 | appends one ticket with the new id and the two clock readings |
| `Tickets.TicketStore.UpdateTicket` | src/store/ticketStore.ts:62-67 | merges the update into matching tickets and stamps them with the clock |
| `Tickets.TicketStore.DeleteTicket` | src/store/ticketStore.ts:68-71 | removes the matching tickets, order kept |
| `Tickets.UpdateTicketStamps` | src/store/ticketStore.ts:62-67 | length kept; every matching ticket gets `updatedAt == now` and keeps `createdAt` unless the update names one; other tickets unchanged, `updatedAt` included |
| `Tickets.SuppliedUpdatedAtIsIgnored` | src/store/ticketStore.ts:65 | an `updatedAt` in the update has no effect |
| `Modules.ModuleStore.constructor` | src/store/moduleStore.ts:23-28 | the four seeded modules |
| `Modules.ModuleStore.AddModule` | src/store/moduleStore.ts:29-32 | appends one module with the given fields and the new id |
| `Modules.ModuleStore.UpdateModule` | src/store/moduleStore.ts:33-36 | merges the update into matching modules |
| `Modules.ModuleStore.DeleteModule` | src/store/moduleStore.ts:37-40 | removes exactly the matching modules |
| `Modules.UpdateModuleKeepsAbsentFields` | src/store/moduleStore.ts:10-35 | length kept, other modules unchanged, the icon and description kept when the update lacks them |
| `Users.ErrorMessage` | src/store/userStore.ts:37 | the first truthy of the response's error and the message, else the fallback |
| `Users.ErrorMessageNeverEmpty` | src/store/userStore.ts:54 | with a non-empty fallback the message is never empty and is one of the three candidates |
| `Users.Replaced` | src/store/userStore.ts:96 | length kept; every user with the id is replaced by the returned record, the others kept |
| `Users.ReplacedAbsent` | src/store/userStore.ts:96 | an id no user has leaves the list unchanged |
| `Users.NoTokenMessagesAreRecorded` | src/services/userApi.ts:18-26 | the rejection raised for a missing token is recorded as the store's error, in place of the fallback, for both read calls |
| `Users.UserStore.constructor` | src/store/userStore.ts:17-20 | empty list, no current user, not loading, no error |
| `Users.UserStore.BeginRequest` | src/store/userStore.ts:23 | loading set, error cleared, lists kept |
| `Users.UserStore.BeginFetchUserById` | src/store/userStore.ts:46 | loading set, error and current user cleared |
| `Users.UserStore.SettleFetchUsers` | src/store/userStore.ts:26-41 | success replaces the list wholesale; failure keeps it and records the message; loading cleared either way |
| `Users.UserStore.SettleFetchUserById` | src/store/userStore.ts:49-58 | success sets the current user; failure records the message; loading cleared |
| `Users.UserStore.SettleAddUser` | src/store/userStore.ts:66-85 | success prepends the user and returns true; failure keeps the list, records the message, returns false |
| `Users.UserStore.SettleUpdateUser` | src/store/userStore.ts:93-112 | success replaces by id and returns true; failure keeps the list and returns false |
| `Users.UserStore.FetchUsers` | src/store/userStore.ts:21-43 | run alone: loading ends false, error `None` on success, the fallback-chosen message on failure |
| `Users.UserStore.FetchUserById` | src/store/userStore.ts:44-60 | run alone: a failure leaves no current user |
| `Users.UserStore.AddUser` | src/store/userStore.ts:61-87 | run alone: prepend and true, or unchanged list, message and false |
| `Users.UserStore.UpdateUser` | src/store/userStore.ts:88-114 | run alone: replace by id and true, or unchanged list, message and false |
| `Auth.LoginName` | src/store/authStore.ts:29 | the name is the e-mail's prefix before the first `@`, the whole address when there is none |
| `Auth.LoginNameExamples` | src/store/authStore.ts:26-30 | `admin@x.com` gives `admin` and `a@b@c` gives `a` |
| `Auth.LoginNameWithoutAt` | src/store/authStore.ts:29 | `operator` gives `operator` |
| `Auth.AuthStore.constructor` | src/store/authStore.ts:20-21 | no user, not authenticated, the flag in step with the user |
| `Auth.AuthStore.Login` | src/store/authStore.ts:22-34 | always true; authenticated with user id "1", the e-mail and its login name, whatever the password |
| `Auth.AuthStore.Logout` | src/store/authStore.ts:35-37 | no user, not authenticated, whatever the state before |
| `TenantCreate.LastDot` | src/pages/TenantCreatePage.tsx:48 | the position of the last dot, with no dot after it, or -1 when there is none |
| `TenantCreate.DomainMatchesRegex` | src/pages/TenantCreatePage.tsx:48 | the last-dot test accepts exactly what `^[a-z0-9.-]+\.[a-z]{2,}$` (case-insensitive) accepts |
| `TenantCreate.SeedDomainExample` | src/pages/TenantCreatePage.tsx:48 | the seeded domain `acme.example.com` passes |
| `TenantCreate.AcceptedDomainExamples` | src/pages/TenantCreatePage.tsx:48 | upper case (`ACME.Example.COM`) and consecutive dots (`a..com`) pass |
| `TenantCreate.RejectedDomainExamples` | src/pages/TenantCreatePage.tsx:48 | `acme.c`, `.com` and `acme` fail |
| `TenantCreate.LastDotIs` | src/pages/TenantCreatePage.tsx:48 | a dot with no dot after it is the last dot |
| `TenantCreate.TenantFormErrors` | src/pages/TenantCreatePage.tsx:39-54 | a name error exactly for a blank name; a domain error exactly for a blank or a non-matching domain, "Domain is required" when blank and "Invalid domain format" otherwise; no other key |
| `TenantCreate.TenantFormValidIff` | src/pages/TenantCreatePage.tsx:39-54 | the form passes exactly when the name is not blank and the regular expression accepts the domain |
| `TenantCreate.TenantFormIgnoresDescriptionAndStatus` | src/pages/TenantCreatePage.tsx:39-54 | description and status never change the errors |
| `TenantCreate.PaddedDomainIsInvalid` | src/pages/TenantCreatePage.tsx:46-49 | a non-blank domain with a leading or trailing space is reported as badly formed |
| `TenantCreate.DomainEnds` | src/pages/TenantCreatePage.tsx:48 | an accepted domain starts with a domain character and ends with a letter |
| `TenantCreate.WhitespaceIsNoDomainChar` | src/pages/TenantCreatePage.tsx:48 | no whitespace character is a domain character or a letter |
| `TenantCreate.TenantCreatePage.constructor` | src/pages/TenantCreatePage.tsx:14-20 | empty form, active status, no errors |
| `TenantCreate.TenantCreatePage.LoadForEdit` | src/pages/TenantCreatePage.tsx:23-37 | in edit mode the form gets the first matching tenant's four fields, or the page is left when none matches |
| `TenantCreate.TenantCreatePage.HandleChange` | src/pages/TenantCreatePage.tsx:74-82 | sets the field, and blanks that field's shown error |
| `TenantCreate.TenantCreatePage.Validate` | src/pages/TenantCreatePage.tsx:39-54 | records the form's errors and returns true exactly when there are none |
| `TenantCreate.TenantCreatePage.HandleSubmit` | src/pages/TenantCreatePage.tsx:56-72 | an invalid form changes no store; a valid one updates the routed tenant in edit mode and adds one otherwise; mappings unchanged |
| `TenantMapping.Visible` | src/pages/TenantMappingPage.tsx:21-23 | filter "all" shows every mapping; any other filter shows exactly that tenant's mappings, in store order |
| `TenantMapping.GatedAddKeepsConsistency` | src/pages/TenantMappingPage.tsx:28-34 | the page's gated add keeps every mapping resolvable and its cached tenant name correct |
| `TenantMapping.TenantMappingPage.constructor` | src/pages/TenantMappingPage.tsx:12-19 | filter "all", form hidden and empty |
| `TenantMapping.TenantMappingPage.SetTenantFilter` | src/pages/TenantMappingPage.tsx:116 | stores the chosen filter |
| `TenantMapping.TenantMappingPage.ToggleAddForm` | src/pages/TenantMappingPage.tsx:62 | flips the form's visibility |
| `TenantMapping.TenantMappingPage.EditNewMapping` | src/pages/TenantMappingPage.tsx:76-106 | stores the edited form |
| `TenantMapping.TenantMappingPage.HandleAddMapping` | src/pages/TenantMappingPage.tsx:25-43 | adds a mapping exactly when a tenant has the chosen id, with the first such tenant's name, then empties and hides the form; otherwise nothing changes |
| `TenantMapping.TenantMappingPage.HandleDeleteMapping` | src/pages/TenantMappingPage.tsx:45-49 | deletes the mapping only after confirmation |
| `TicketCreate.WithTenant` | src/pages/TicketCreatePage.tsx:45-48 | sets the tenant id and the first matching tenant's name, or `''`; other fields unchanged |
| `TicketCreate.TicketFormErrors` | src/pages/TicketCreatePage.tsx:50-57 | an error exactly for a blank subject, a blank description and an empty tenant id, with their messages |
| `TicketCreate.TicketFormValidIff` | src/pages/TicketCreatePage.tsx:50-57 | the form passes exactly when subject and description are not blank and a tenant id is set |
| `TicketCreate.TicketFormIgnoresStatusAndPriority` | src/pages/TicketCreatePage.tsx:50-57 | status and priority never change the errors |
| `TicketCreate.SavedTicketsAreFilledIn` | src/pages/TicketCreatePage.tsx:59-68 | a ticket created or rewritten from a valid form has a non-blank subject and description and a tenant id |
| `TicketCreate.SeedTicketNamesDisagree` | src/store/ticketStore.ts:26-49 | the seeded tickets name seeded tenants but cache names those tenants do not have |
| `TicketCreate.TicketCreatePage.constructor` | src/pages/TicketCreatePage.tsx:17-25 | empty form, status open, priority medium, no errors |
| `TicketCreate.TicketCreatePage.LoadForEdit` | src/pages/TicketCreatePage.tsx:27-43 | in edit mode the form gets the matching ticket's six fields, or the page is left |
| `TicketCreate.TicketCreatePage.HandleChange` | src/pages/TicketCreatePage.tsx:105-142 | sets the edited field; errors stay |
| `TicketCreate.TicketCreatePage.HandleTenantChange` | src/pages/TicketCreatePage.tsx:45-48 | applies the tenant lookup to the form |
| `TicketCreate.TicketCreatePage.Validate` | src/pages/TicketCreatePage.tsx:50-57 | records the form's errors and returns true exactly when there are none |
| `TicketCreate.TicketCreatePage.HandleSubmit` | src/pages/TicketCreatePage.tsx:59-69 | an invalid form changes no store; a valid one updates (stamping with the clock) or adds |
| `ModuleCreate.WithCode` | src/pages/ModuleCreatePage.tsx:91 | the stored code is exactly the typed text upper-cased, with no lower-case letter left; other fields unchanged |
| `ModuleCreate.CodeEntryIsStable` | src/pages/ModuleCreatePage.tsx:91 | typing the stored code again stores the same code |
| `ModuleCreate.ModuleFormErrors` | src/pages/ModuleCreatePage.tsx:39-46 | an error exactly for a blank name, code and description, with their messages |
| `ModuleCreate.ModuleFormValidIff` | src/pages/ModuleCreatePage.tsx:39-46 | the form passes exactly when none of the three is blank |
| `ModuleCreate.ModuleFormIgnoresStatus` | src/pages/ModuleCreatePage.tsx:39-46 | status never changes the errors |
| `ModuleCreate.FormKeepsIcons` | src/pages/ModuleCreatePage.tsx:52-56 | a created module has no icon, an updated module keeps its icon |
| `ModuleCreate.ModuleCreatePage.constructor` | src/pages/ModuleCreatePage.tsx:15-21 | empty form, active status, no errors |
| `ModuleCreate.ModuleCreatePage.LoadForEdit` | src/pages/ModuleCreatePage.tsx:23-37 | in edit mode the form gets the matching module's fields, or the page is left |
| `ModuleCreate.ModuleCreatePage.HandleChange` | src/pages/ModuleCreatePage.tsx:79-114 | sets the edited field |
| `ModuleCreate.ModuleCreatePage.HandleCodeChange` | src/pages/ModuleCreatePage.tsx:91 | stores the upper-cased code |
| `ModuleCreate.ModuleCreatePage.Validate` | src/pages/ModuleCreatePage.tsx:39-46 | records the form's errors and returns true exactly when there are none |
| `ModuleCreate.ModuleCreatePage.HandleSubmit` | src/pages/ModuleCreatePage.tsx:48-58 | an invalid form changes no store; a valid one updates or adds |
| `CountryCreate.WithCode` | src/pages/CountryCreatePage.tsx:53 | the stored code is exactly the typed text upper-cased, with no lower-case letter left; other fields unchanged |
| `CountryCreate.CountryFormErrors` | src/pages/CountryCreatePage.tsx:26-29 | an error exactly for a blank name and a blank code |
| `CountryCreate.CountryFormValidIff` | src/pages/CountryCreatePage.tsx:26-30 | the form passes exactly when neither is blank |
| `CountryCreate.CountryCreatePage.constructor` | src/pages/CountryCreatePage.tsx:13-14 | empty form, active status, no errors |
| `CountryCreate.CountryCreatePage.LoadForEdit` | src/pages/CountryCreatePage.tsx:16-22 | in edit mode the form gets the matching country's fields, or the page is left |
| `CountryCreate.CountryCreatePage.HandleChange` | src/pages/CountryCreatePage.tsx:48-58 | sets the edited field |
| `CountryCreate.CountryCreatePage.HandleCodeChange` | src/pages/CountryCreatePage.tsx:53 | stores the upper-cased code |
| `CountryCreate.CountryCreatePage.HandleSubmit` | src/pages/CountryCreatePage.tsx:24-35 | records the errors; with any, no store change; else update or add; only the country list changes |
| `StateCreate.WithCountry` | src/pages/StateCreatePage.tsx:25-28 | sets the country id and the first matching country's name, or `''`; other fields unchanged |
| `StateCreate.StateFormErrors` | src/pages/StateCreatePage.tsx:32-35 | an error exactly for a blank name and an empty country id; the cached name is not checked |
| `StateCreate.StateFormValidIff` | src/pages/StateCreatePage.tsx:32-36 | the form passes exactly when the name is not blank and a country id is set |
| `StateCreate.PickedCountryKeepsStatesConsistent` | src/pages/StateCreatePage.tsx:25-39 | a state added after picking an existing country keeps the hierarchy consistent; after picking a missing one it is orphaned |
| `StateCreate.StateCreatePage.constructor` | src/pages/StateCreatePage.tsx:14-15 | empty form, active status, no errors |
| `StateCreate.StateCreatePage.LoadForEdit` | src/pages/StateCreatePage.tsx:17-23 | in edit mode the form gets the matching state's fields, or the page is left |
| `StateCreate.StateCreatePage.HandleChange` | src/pages/StateCreatePage.tsx:62-67 | sets the edited field |
| `StateCreate.StateCreatePage.HandleCountryChange` | src/pages/StateCreatePage.tsx:25-28 | applies the country lookup to the form |
| `StateCreate.StateCreatePage.HandleSubmit` | src/pages/StateCreatePage.tsx:30-41 | records the errors; with any, no store change; else update or add; only the state list changes |
| `CityCreate.WithState` | src/pages/CityCreatePage.tsx:25-28 | sets the state id and the first matching state's name, or `''`; other fields unchanged |
| `CityCreate.CityFormErrors` | src/pages/CityCreatePage.tsx:32-35 | an error exactly for a blank name and an empty state id |
| `CityCreate.CityFormValidIff` | src/pages/CityCreatePage.tsx:32-36 | the form passes exactly when the name is not blank and a state id is set |
| `CityCreate.PickedStateKeepsCitiesConsistent` | src/pages/CityCreatePage.tsx:25-39 | a city added after picking an existing state keeps the hierarchy consistent; after picking a missing one it is orphaned |
| `CityCreate.CityCreatePage.constructor` | src/pages/CityCreatePage.tsx:14-15 | empty form, active status, no errors |
| `CityCreate.CityCreatePage.LoadForEdit` | src/pages/CityCreatePage.tsx:17-23 | in edit mode the form gets the matching city's fields, or the page is left |
| `CityCreate.CityCreatePage.HandleChange` | src/pages/CityCreatePage.tsx:62-67 | sets the edited field |
| `CityCreate.CityCreatePage.HandleStateChange` | src/pages/CityCreatePage.tsx:25-28 | applies the state lookup to the form |
| `CityCreate.CityCreatePage.HandleSubmit` | src/pages/CityCreatePage.tsx:30-41 | records the errors; with any, no store change; else update or add; only the city list changes |
| `AreaCreate.WithCity` | src/pages/AreaCreatePage.tsx:25-28 | sets the city id and the first matching city's name, or `''`; other fields unchanged |
| `AreaCreate.AreaFormErrors` | src/pages/AreaCreatePage.tsx:32-36 | an error exactly for a blank name, an empty city id and a blank pincode |
| `AreaCreate.AreaFormValidIff` | src/pages/AreaCreatePage.tsx:32-37 | the form passes exactly when name and pincode are not blank and a city id is set |
| `AreaCreate.PickedCityKeepsAreasConsistent` | src/pages/AreaCreatePage.tsx:25-40 | an area added after picking an existing city keeps the hierarchy consistent; after picking a missing one it is orphaned |
| `AreaCreate.AreaCreatePage.constructor` | src/pages/AreaCreatePage.tsx:14-15 | empty form, active status, no errors |
| `AreaCreate.AreaCreatePage.LoadForEdit` | src/pages/AreaCreatePage.tsx:17-23 | in edit mode the form gets the matching area's fields, or the page is left |
| `AreaCreate.AreaCreatePage.HandleChange` | src/pages/AreaCreatePage.tsx:63-73 | sets the edited field |
| `AreaCreate.AreaCreatePage.HandleCityChange` | src/pages/AreaCreatePage.tsx:25-28 | applies the city lookup to the form |
| `AreaCreate.AreaCreatePage.HandleSubmit` | src/pages/AreaCreatePage.tsx:30-42 | records the errors; with any, no store change; else update or add; only the area list changes |

## Left out

- The backend calls (`userApi`, `tenantApi`, `locationApi`, `apiClient`) and the token scripts are network and file I/O, so they are not modelled. The user store receives their results as `Outcome` inputs.
- `zustand`'s `persist` middleware (local-storage rehydration) is library behaviour outside these files. Every store starts from its seed.
- Id and clock generation are parameters. Nothing makes ids unique, and neither does the source: two adds in the same millisecond share an id.
- The `setTimeout` delays (the tenant form's 300 ms, the login's 500 ms) and the tenant form's `isSubmitting` flag have no effect on the stores, so they are not modelled.
- Completion order between concurrent user-store calls is not modelled beyond the `Begin…`/`Settle…` split. The split shows each step's effect, but no lemma reasons about interleavings.
- `Auth.AuthStore.Login`: the password parameter is accepted and never read, so the model keeps no credential. No forced logout on a 401 response appears in these files.
- The auth store holds no token. The user service (`src/services/userApi.ts:19,32,88`) reads `useAuthStore.getState().token`, a field the store does not declare. So `fetchSupportUsers` and `getUserById` reject with "Please login first …" before any request, and `Users.NoTokenMessagesAreRecorded` states what the store then records. The `Ok` outcomes of `Users.UserStore.FetchUsers` and `Users.UserStore.FetchUserById` stand for a successful request that this program as written never makes. Create and update send an empty `Authorization` header instead; their answer stays an input.
- `Common.Trim` uses ECMAScript's WhiteSpace and LineTerminator code points. `Common.ToUpper` upper-cases ASCII letters only; the other letters that JavaScript's Unicode `toUpperCase` changes are kept as they are.
- `Tickets.TicketStore.constructor` takes one clock reading for all four seed timestamps, where the source reads the clock four times.
- A spread of an update object whose key is present with the value `undefined` is not modelled. An absent key is `None`.
- The browser's form constraints are not modelled: the `required` attribute on the mapping page's selects and the `maxLength={3}` on the country code input.
- Navigation after a save or a cancel is not modelled. `LoadForEdit` returns whether the page would leave; what the page then renders is not modelled.
- The `console.log` and `console.error` calls in the user store (`src/store/userStore.ts:22-39` and after) and in the pages only write to the console, so they are dropped.
- JSX rendering, the list pages' search and status filters, routing and route guards, and the login, register, forgot-password and user-create pages are out of scope.
