/**
 * The create/edit area form: a city picker that copies the city's name
 * into the form, a required name, city and pincode, and the submission
 * that adds an area or updates the routed one.
 */
module AreaCreate {
  import opened Common
  import opened Keyed
  import opened Locations

  /** The keys of the form's `errors` record. */
  datatype FormField = NameField | CityIdField | PincodeField

  const NameRequired := "Name is required"
  const CityRequired := "City is required"
  const PincodeRequired := "Pincode is required"

  datatype AreaForm = AreaForm(name: string, cityId: string, cityName: string, pincode: string, status: ActiveStatus)

  const EmptyAreaForm := AreaForm("", "", "", "", Active)

  datatype AreaInput = NameInput(text: string) | PincodeInput(text: string) | StatusInput(status: ActiveStatus)

  function WithInput(f: AreaForm, input: AreaInput): AreaForm
  {
    match input
    case NameInput(v) => f.(name := v)
    case PincodeInput(v) => f.(pincode := v)
    case StatusInput(st) => f.(status := st)
  }

  /** `handleCityChange`: the chosen id and the name of the first city with
      it, or `''` when no city has it; nothing else changes. */
  function WithCity(f: AreaForm, cities: seq<City>, cityId: string): (r: AreaForm)
    ensures r == f.(cityId := cityId, cityName := r.cityName)
    ensures (forall i :: 0 <= i < |cities| ==> cities[i].id != cityId) ==> r.cityName == ""
    ensures forall i :: IsFirst(cities, CityKey, cityId, i) ==> r.cityName == cities[i].name
  {
    f.(cityId := cityId, cityName := NameOf(cities, CityKey, CityName, cityId))
  }

  /** The errors the submit handler records: a blank name, an empty city id,
      a blank pincode. The pincode's format is not checked. */
  function AreaFormErrors(f: AreaForm): (errs: map<FormField, string>)
    ensures NameField in errs <==> IsBlank(f.name)
    ensures CityIdField in errs <==> f.cityId == ""
    ensures PincodeField in errs <==> IsBlank(f.pincode)
    ensures NameField in errs ==> errs[NameField] == NameRequired
    ensures CityIdField in errs ==> errs[CityIdField] == CityRequired
    ensures PincodeField in errs ==> errs[PincodeField] == PincodeRequired
  {
    var e1: map<FormField, string> := if IsBlank(f.name) then map[NameField := NameRequired] else map[];
    var e2 := if f.cityId == "" then e1[CityIdField := CityRequired] else e1;
    if IsBlank(f.pincode) then e2[PincodeField := PincodeRequired] else e2
  }

  /** The form passes exactly when name and pincode are not blank and a city id is set. */
  lemma AreaFormValidIff(f: AreaForm)
    ensures AreaFormErrors(f) == map[] <==> !IsBlank(f.name) && f.cityId != "" && !IsBlank(f.pincode)
  {
  }

  function DraftOf(f: AreaForm): AreaDraft
  {
    AreaDraft(f.name, f.cityId, f.cityName, f.pincode, f.status)
  }

  /** What `updateArea(id, formData)` receives: the five form keys. */
  function PatchOf(f: AreaForm): AreaPatch
  {
    AreaPatch(None, Some(f.name), Some(f.cityId), Some(f.cityName), Some(f.pincode), Some(f.status))
  }

  function FormOf(a: Area): AreaForm
  {
    AreaForm(a.name, a.cityId, a.cityName, a.pincode, a.status)
  }

  /** An area created after picking an existing city keeps the city-area
      links sound; picking an id no city has (the form accepts any
      non-empty id) leaves the new area orphaned. */
  lemma PickedCityKeepsAreasConsistent(
    cs: seq<City>, as_: seq<Area>, f: AreaForm, cityId: string, newId: string)
    requires Resolves(cs, CityKey, as_, AreaCity)
    requires CachedNamesAgree(cs, CityKey, CityName, as_, AreaCity, AreaCityName)
    ensures var as' := as_ + [NewArea(DraftOf(WithCity(f, cs, cityId)), newId)];
      && (FindFirst(cs, CityKey, cityId).Some? ==>
            Resolves(cs, CityKey, as', AreaCity)
            && CachedNamesAgree(cs, CityKey, CityName, as', AreaCity, AreaCityName))
      && (FindFirst(cs, CityKey, cityId).None? ==> !Resolves(cs, CityKey, as', AreaCity))
  {
    var a := NewArea(DraftOf(WithCity(f, cs, cityId)), newId);
    if FindFirst(cs, CityKey, cityId).Some? {
      AppendKeepsLinks(cs, CityKey, CityName, as_, AreaCity, AreaCityName, a);
    } else {
      AppendUnresolvedOrphans(cs, CityKey, as_, AreaCity, a);
    }
  }

  class AreaCreatePage {
    const store: LocationStore
    /** The `:id` route parameter. */
    const routeId: Option<string>
    var formData: AreaForm
    var errors: map<FormField, string>

    constructor (store: LocationStore, routeId: Option<string>)
      ensures this.store == store && this.routeId == routeId
      ensures formData == EmptyAreaForm && errors == map[]
    {
      this.store, this.routeId := store, routeId;
      formData, errors := EmptyAreaForm, map[];
    }

    predicate IsEditMode()
    {
      routeId.Some? && routeId.value != ""
    }

    /** The edit-mode effect: load the area's form fields, or leave the page
        when no area has the route's id. */
    method LoadForEdit() returns (leave: bool)
      modifies this`formData
      ensures !IsEditMode() ==> !leave && formData == old(formData)
      ensures IsEditMode() ==> leave == FindFirst(store.areas, AreaKey, routeId.value).None?
      ensures IsEditMode() && !leave ==> formData == FormOf(FindFirst(store.areas, AreaKey, routeId.value).value)
      ensures leave ==> formData == old(formData)
    {
      leave := false;
      if IsEditMode() {
        match FindFirst(store.areas, AreaKey, routeId.value)
        case Some(a) => formData := FormOf(a);
        case None => leave := true;
      }
    }

    method HandleChange(input: AreaInput)
      modifies this`formData
      ensures formData == WithInput(old(formData), input)
    {
      formData := WithInput(formData, input);
    }

    method HandleCityChange(cityId: string)
      modifies this`formData
      ensures formData == WithCity(old(formData), store.cities, cityId)
    {
      formData := WithCity(formData, store.cities, cityId);
    }

    /** Validation is inline: record the errors, stop if there are any, else
        update the routed area in edit mode and add one otherwise. Only the
        area list changes. */
    method HandleSubmit(newId: string) returns (saved: bool)
      modifies this`errors, store
      ensures errors == AreaFormErrors(formData)
      ensures saved <==> errors == map[]
      ensures !saved ==> store.areas == old(store.areas)
      ensures saved && IsEditMode() ==> store.areas == UpdatedAreas(old(store.areas), routeId.value, PatchOf(formData))
      ensures saved && !IsEditMode() ==> store.areas == old(store.areas) + [NewArea(DraftOf(formData), newId)]
      ensures store.countries == old(store.countries) && store.states == old(store.states) && store.cities == old(store.cities)
    {
      errors := AreaFormErrors(formData);
      if |errors| > 0 {
        return false;
      }
      if IsEditMode() {
        store.UpdateArea(routeId.value, PatchOf(formData));
      } else {
        store.AddArea(DraftOf(formData), newId);
      }
      saved := true;
    }
  }
}
