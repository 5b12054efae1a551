/**
 * The location store: four ordered lists forming a hierarchy
 * country > state > city > area. Each child record stores its parent's id
 * and a cached copy of the parent's name. The twelve actions each rebuild
 * one list; none of them cascades a delete or a rename to the level below.
 */
module Locations {
  import opened Common
  import opened Keyed

  datatype Country = Country(id: string, name: string, code: string, status: ActiveStatus)
  datatype State = State(id: string, name: string, countryId: string, countryName: string, status: ActiveStatus)
  datatype City = City(id: string, name: string, stateId: string, stateName: string, status: ActiveStatus)
  datatype Area = Area(id: string, name: string, cityId: string, cityName: string, pincode: string, status: ActiveStatus)

  /** What the add actions are given: a record without `id`. */
  datatype CountryDraft = CountryDraft(name: string, code: string, status: ActiveStatus)
  datatype StateDraft = StateDraft(name: string, countryId: string, countryName: string, status: ActiveStatus)
  datatype CityDraft = CityDraft(name: string, stateId: string, stateName: string, status: ActiveStatus)
  datatype AreaDraft = AreaDraft(name: string, cityId: string, cityName: string, pincode: string, status: ActiveStatus)

  /** `Partial<…>` of each record: `None` stands for a key the update object does not have. */
  datatype CountryPatch = CountryPatch(
    id: Option<string>, name: Option<string>, code: Option<string>, status: Option<ActiveStatus>)
  datatype StatePatch = StatePatch(
    id: Option<string>, name: Option<string>, countryId: Option<string>,
    countryName: Option<string>, status: Option<ActiveStatus>)
  datatype CityPatch = CityPatch(
    id: Option<string>, name: Option<string>, stateId: Option<string>,
    stateName: Option<string>, status: Option<ActiveStatus>)
  datatype AreaPatch = AreaPatch(
    id: Option<string>, name: Option<string>, cityId: Option<string>,
    cityName: Option<string>, pincode: Option<string>, status: Option<ActiveStatus>)

  function CountryKey(c: Country): string { c.id }
  function CountryName(c: Country): string { c.name }
  function StateKey(s: State): string { s.id }
  function StateName(s: State): string { s.name }
  function StateCountry(s: State): string { s.countryId }
  function StateCountryName(s: State): string { s.countryName }
  function CityKey(c: City): string { c.id }
  function CityName(c: City): string { c.name }
  function CityState(c: City): string { c.stateId }
  function CityStateName(c: City): string { c.stateName }
  function AreaKey(a: Area): string { a.id }
  function AreaCity(a: Area): string { a.cityId }
  function AreaCityName(a: Area): string { a.cityName }

  /** `{ ...draft, id }` for each level. */
  function NewCountry(d: CountryDraft, newId: string): Country { Country(newId, d.name, d.code, d.status) }
  function NewState(d: StateDraft, newId: string): State { State(newId, d.name, d.countryId, d.countryName, d.status) }
  function NewCity(d: CityDraft, newId: string): City { City(newId, d.name, d.stateId, d.stateName, d.status) }
  function NewArea(d: AreaDraft, newId: string): Area { Area(newId, d.name, d.cityId, d.cityName, d.pincode, d.status) }

  /** `{ ...record, ...updates }` for each level. */
  function MergeCountry(c: Country, u: CountryPatch): Country
  {
    Country(u.id.GetOr(c.id), u.name.GetOr(c.name), u.code.GetOr(c.code), u.status.GetOr(c.status))
  }
  function MergeState(s: State, u: StatePatch): State
  {
    State(u.id.GetOr(s.id), u.name.GetOr(s.name), u.countryId.GetOr(s.countryId),
          u.countryName.GetOr(s.countryName), u.status.GetOr(s.status))
  }
  function MergeCity(c: City, u: CityPatch): City
  {
    City(u.id.GetOr(c.id), u.name.GetOr(c.name), u.stateId.GetOr(c.stateId),
         u.stateName.GetOr(c.stateName), u.status.GetOr(c.status))
  }
  function MergeArea(a: Area, u: AreaPatch): Area
  {
    Area(u.id.GetOr(a.id), u.name.GetOr(a.name), u.cityId.GetOr(a.cityId),
         u.cityName.GetOr(a.cityName), u.pincode.GetOr(a.pincode), u.status.GetOr(a.status))
  }

  function UpdatedCountries(cs: seq<Country>, id: string, u: CountryPatch): seq<Country>
  {
    Patch(cs, CountryKey, id, (c: Country) => MergeCountry(c, u))
  }
  function UpdatedStates(ss: seq<State>, id: string, u: StatePatch): seq<State>
  {
    Patch(ss, StateKey, id, (s: State) => MergeState(s, u))
  }
  function UpdatedCities(cs: seq<City>, id: string, u: CityPatch): seq<City>
  {
    Patch(cs, CityKey, id, (c: City) => MergeCity(c, u))
  }
  function UpdatedAreas(as_: seq<Area>, id: string, u: AreaPatch): seq<Area>
  {
    Patch(as_, AreaKey, id, (a: Area) => MergeArea(a, u))
  }

  const SeedCountries: seq<Country> := [
    Country("1", "United States", "US", Active),
    Country("2", "India", "IN", Active),
    Country("3", "United Kingdom", "UK", Active)
  ]
  const SeedStates: seq<State> := [
    State("1", "California", "1", "United States", Active),
    State("2", "Texas", "1", "United States", Active),
    State("3", "Maharashtra", "2", "India", Active),
    State("4", "Karnataka", "2", "India", Active)
  ]
  const SeedCities: seq<City> := [
    City("1", "Los Angeles", "1", "California", Active),
    City("2", "San Francisco", "1", "California", Active),
    City("3", "Mumbai", "3", "Maharashtra", Active),
    City("4", "Bangalore", "4", "Karnataka", Active)
  ]
  const SeedAreas: seq<Area> := [
    Area("1", "Downtown", "1", "Los Angeles", "90001", Active),
    Area("2", "Bandra", "3", "Mumbai", "400050", Active),
    Area("3", "Koramangala", "4", "Bangalore", "560034", Active)
  ]

  class LocationStore {
    var countries: seq<Country>
    var states: seq<State>
    var cities: seq<City>
    var areas: seq<Area>

    constructor ()
      ensures countries == SeedCountries && states == SeedStates
      ensures cities == SeedCities && areas == SeedAreas
    {
      countries, states, cities, areas := SeedCountries, SeedStates, SeedCities, SeedAreas;
    }

    method AddCountry(d: CountryDraft, newId: string)
      modifies this
      ensures countries == old(countries) + [NewCountry(d, newId)]
      ensures states == old(states) && cities == old(cities) && areas == old(areas)
    {
      countries := countries + [NewCountry(d, newId)];
    }

    /** A rename of a country leaves the cached `countryName` of its states as it was. */
    method UpdateCountry(id: string, u: CountryPatch)
      modifies this
      ensures countries == UpdatedCountries(old(countries), id, u)
      ensures states == old(states) && cities == old(cities) && areas == old(areas)
    {
      countries := UpdatedCountries(countries, id, u);
    }

    /** No cascade: the country's states stay, still naming it. */
    method DeleteCountry(id: string)
      modifies this
      ensures countries == Without(old(countries), CountryKey, id)
      ensures states == old(states) && cities == old(cities) && areas == old(areas)
    {
      countries := Without(countries, CountryKey, id);
    }

    method AddState(d: StateDraft, newId: string)
      modifies this
      ensures states == old(states) + [NewState(d, newId)]
      ensures countries == old(countries) && cities == old(cities) && areas == old(areas)
    {
      states := states + [NewState(d, newId)];
    }

    method UpdateState(id: string, u: StatePatch)
      modifies this
      ensures states == UpdatedStates(old(states), id, u)
      ensures countries == old(countries) && cities == old(cities) && areas == old(areas)
    {
      states := UpdatedStates(states, id, u);
    }

    method DeleteState(id: string)
      modifies this
      ensures states == Without(old(states), StateKey, id)
      ensures countries == old(countries) && cities == old(cities) && areas == old(areas)
    {
      states := Without(states, StateKey, id);
    }

    method AddCity(d: CityDraft, newId: string)
      modifies this
      ensures cities == old(cities) + [NewCity(d, newId)]
      ensures countries == old(countries) && states == old(states) && areas == old(areas)
    {
      cities := cities + [NewCity(d, newId)];
    }

    method UpdateCity(id: string, u: CityPatch)
      modifies this
      ensures cities == UpdatedCities(old(cities), id, u)
      ensures countries == old(countries) && states == old(states) && areas == old(areas)
    {
      cities := UpdatedCities(cities, id, u);
    }

    method DeleteCity(id: string)
      modifies this
      ensures cities == Without(old(cities), CityKey, id)
      ensures countries == old(countries) && states == old(states) && areas == old(areas)
    {
      cities := Without(cities, CityKey, id);
    }

    method AddArea(d: AreaDraft, newId: string)
      modifies this
      ensures areas == old(areas) + [NewArea(d, newId)]
      ensures countries == old(countries) && states == old(states) && cities == old(cities)
    {
      areas := areas + [NewArea(d, newId)];
    }

    method UpdateArea(id: string, u: AreaPatch)
      modifies this
      ensures areas == UpdatedAreas(old(areas), id, u)
      ensures countries == old(countries) && states == old(states) && cities == old(cities)
    {
      areas := UpdatedAreas(areas, id, u);
    }

    method DeleteArea(id: string)
      modifies this
      ensures areas == Without(old(areas), AreaKey, id)
      ensures countries == old(countries) && states == old(states) && cities == old(cities)
    {
      areas := Without(areas, AreaKey, id);
    }
  }

  /** The seeded states name existing countries and carry their names. */
  lemma SeedStatesConsistent()
    ensures Resolves(SeedCountries, CountryKey, SeedStates, StateCountry)
    ensures CachedNamesAgree(SeedCountries, CountryKey, CountryName, SeedStates, StateCountry, StateCountryName)
  {
    var cs, ss := SeedCountries, SeedStates;
    forall j | 0 <= j < |ss|
      ensures FindFirst(cs, CountryKey, StateCountry(ss[j])).Some?
      ensures StateCountryName(ss[j]) == NameOf(cs, CountryKey, CountryName, StateCountry(ss[j]))
    {
      var i := if j < 2 then 0 else 1;
      assert IsFirst(cs, CountryKey, StateCountry(ss[j]), i);
    }
  }

  /** The seeded cities name existing states and carry their names. */
  lemma SeedCitiesConsistent()
    ensures Resolves(SeedStates, StateKey, SeedCities, CityState)
    ensures CachedNamesAgree(SeedStates, StateKey, StateName, SeedCities, CityState, CityStateName)
  {
    var ss, cs := SeedStates, SeedCities;
    forall j | 0 <= j < |cs|
      ensures FindFirst(ss, StateKey, CityState(cs[j])).Some?
      ensures CityStateName(cs[j]) == NameOf(ss, StateKey, StateName, CityState(cs[j]))
    {
      var i := if j < 2 then 0 else j;
      assert IsFirst(ss, StateKey, CityState(cs[j]), i);
    }
  }

  /** The seeded areas name existing cities and carry their names. */
  lemma SeedAreasConsistent()
    ensures Resolves(SeedCities, CityKey, SeedAreas, AreaCity)
    ensures CachedNamesAgree(SeedCities, CityKey, CityName, SeedAreas, AreaCity, AreaCityName)
  {
    var cs, as_ := SeedCities, SeedAreas;
    forall j | 0 <= j < |as_|
      ensures FindFirst(cs, CityKey, AreaCity(as_[j])).Some?
      ensures AreaCityName(as_[j]) == NameOf(cs, CityKey, CityName, AreaCity(as_[j]))
    {
      var i := if j == 0 then 0 else j + 1;
      assert IsFirst(cs, CityKey, AreaCity(as_[j]), i);
    }
  }

  /** No cascade: deleting country "1", state "1" or city "1" of the seeded
      store leaves children that name a parent which no longer exists. */
  lemma DeleteDoesNotCascade()
    ensures !Resolves(Without(SeedCountries, CountryKey, "1"), CountryKey, SeedStates, StateCountry)
    ensures !Resolves(Without(SeedStates, StateKey, "1"), StateKey, SeedCities, CityState)
    ensures !Resolves(Without(SeedCities, CityKey, "1"), CityKey, SeedAreas, AreaCity)
  {
    DeleteWithoutCascadeOrphans(SeedCountries, CountryKey, SeedStates, StateCountry, "1", 0);
    DeleteWithoutCascadeOrphans(SeedStates, StateKey, SeedCities, CityState, "1", 0);
    DeleteWithoutCascadeOrphans(SeedCities, CityKey, SeedAreas, AreaCity, "1", 0);
  }

  /** No rename cascade: renaming country "1" of the seeded store leaves its
      states' cached `countryName` stale. */
  lemma RenameCountryLeavesStatesStale()
    ensures !CachedNamesAgree(
      UpdatedCountries(SeedCountries, "1", CountryPatch(None, Some("USA"), None, None)),
      CountryKey, CountryName, SeedStates, StateCountry, StateCountryName)
  {
    var renamed := UpdatedCountries(SeedCountries, "1", CountryPatch(None, Some("USA"), None, None));
    assert renamed[0].name == "USA";
    assert IsFirst(renamed, CountryKey, "1", 0);
    assert StateCountryName(SeedStates[0]) != NameOf(renamed, CountryKey, CountryName, StateCountry(SeedStates[0]));
  }
}
