/**
 * The create/edit city form: a state picker that copies the state's
 * name into the form, a required name and state, and the submission
 * that adds a city or updates the routed one.
 */
module CityCreate {
  import opened Common
  import opened Keyed
  import opened Locations

  /** The keys of the form's `errors` record. */
  datatype FormField = NameField | StateIdField

  const NameRequired := "Name is required"
  const StateRequired := "State is required"

  datatype CityForm = CityForm(name: string, stateId: string, stateName: string, status: ActiveStatus)

  const EmptyCityForm := CityForm("", "", "", Active)

  datatype CityInput = NameInput(text: string) | StatusInput(status: ActiveStatus)

  function WithInput(f: CityForm, input: CityInput): CityForm
  {
    match input
    case NameInput(v) => f.(name := v)
    case StatusInput(st) => f.(status := st)
  }

  /** `handleStateChange`: the chosen id and the name of the first state
      with it, or `''` when no state has it; nothing else changes. */
  function WithState(f: CityForm, states: seq<State>, stateId: string): (r: CityForm)
    ensures r == f.(stateId := stateId, stateName := r.stateName)
    ensures (forall i :: 0 <= i < |states| ==> states[i].id != stateId) ==> r.stateName == ""
    ensures forall i :: IsFirst(states, StateKey, stateId, i) ==> r.stateName == states[i].name
  {
    f.(stateId := stateId, stateName := NameOf(states, StateKey, StateName, stateId))
  }

  /** The errors the submit handler records: a blank name, an empty state id. */
  function CityFormErrors(f: CityForm): (errs: map<FormField, string>)
    ensures NameField in errs <==> IsBlank(f.name)
    ensures StateIdField in errs <==> f.stateId == ""
    ensures NameField in errs ==> errs[NameField] == NameRequired
    ensures StateIdField in errs ==> errs[StateIdField] == StateRequired
  {
    var e1: map<FormField, string> := if IsBlank(f.name) then map[NameField := NameRequired] else map[];
    if f.stateId == "" then e1[StateIdField := StateRequired] else e1
  }

  /** The form passes exactly when the name is not blank and a state id is set. */
  lemma CityFormValidIff(f: CityForm)
    ensures CityFormErrors(f) == map[] <==> !IsBlank(f.name) && f.stateId != ""
  {
  }

  function DraftOf(f: CityForm): CityDraft
  {
    CityDraft(f.name, f.stateId, f.stateName, f.status)
  }

  /** What `updateCity(id, formData)` receives: the four form keys. */
  function PatchOf(f: CityForm): CityPatch
  {
    CityPatch(None, Some(f.name), Some(f.stateId), Some(f.stateName), Some(f.status))
  }

  function FormOf(c: City): CityForm
  {
    CityForm(c.name, c.stateId, c.stateName, c.status)
  }

  /** A city created after picking an existing state keeps the
      state-city links sound; picking an id no state has (the form
      accepts any non-empty id) leaves the new city orphaned. */
  lemma PickedStateKeepsCitiesConsistent(
    ss: seq<State>, cs: seq<City>, f: CityForm, stateId: string, newId: string)
    requires Resolves(ss, StateKey, cs, CityState)
    requires CachedNamesAgree(ss, StateKey, StateName, cs, CityState, CityStateName)
    ensures var cs' := cs + [NewCity(DraftOf(WithState(f, ss, stateId)), newId)];
      && (FindFirst(ss, StateKey, stateId).Some? ==>
            Resolves(ss, StateKey, cs', CityState)
            && CachedNamesAgree(ss, StateKey, StateName, cs', CityState, CityStateName))
      && (FindFirst(ss, StateKey, stateId).None? ==> !Resolves(ss, StateKey, cs', CityState))
  {
    var c := NewCity(DraftOf(WithState(f, ss, stateId)), newId);
    if FindFirst(ss, StateKey, stateId).Some? {
      AppendKeepsLinks(ss, StateKey, StateName, cs, CityState, CityStateName, c);
    } else {
      AppendUnresolvedOrphans(ss, StateKey, cs, CityState, c);
    }
  }

  class CityCreatePage {
    const store: LocationStore
    /** The `:id` route parameter. */
    const routeId: Option<string>
    var formData: CityForm
    var errors: map<FormField, string>

    constructor (store: LocationStore, routeId: Option<string>)
      ensures this.store == store && this.routeId == routeId
      ensures formData == EmptyCityForm && errors == map[]
    {
      this.store, this.routeId := store, routeId;
      formData, errors := EmptyCityForm, map[];
    }

    predicate IsEditMode()
    {
      routeId.Some? && routeId.value != ""
    }

    /** The edit-mode effect: load the city's form fields, or leave the
        page when no city has the route's id. */
    method LoadForEdit() returns (leave: bool)
      modifies this`formData
      ensures !IsEditMode() ==> !leave && formData == old(formData)
      ensures IsEditMode() ==> leave == FindFirst(store.cities, CityKey, routeId.value).None?
      ensures IsEditMode() && !leave ==> formData == FormOf(FindFirst(store.cities, CityKey, routeId.value).value)
      ensures leave ==> formData == old(formData)
    {
      leave := false;
      if IsEditMode() {
        match FindFirst(store.cities, CityKey, routeId.value)
        case Some(c) => formData := FormOf(c);
        case None => leave := true;
      }
    }

    method HandleChange(input: CityInput)
      modifies this`formData
      ensures formData == WithInput(old(formData), input)
    {
      formData := WithInput(formData, input);
    }

    method HandleStateChange(stateId: string)
      modifies this`formData
      ensures formData == WithState(old(formData), store.states, stateId)
    {
      formData := WithState(formData, store.states, stateId);
    }

    /** Validation is inline: record the errors, stop if there are any, else
        update the routed city in edit mode and add one otherwise. Only the
        city list changes. */
    method HandleSubmit(newId: string) returns (saved: bool)
      modifies this`errors, store
      ensures errors == CityFormErrors(formData)
      ensures saved <==> errors == map[]
      ensures !saved ==> store.cities == old(store.cities)
      ensures saved && IsEditMode() ==> store.cities == UpdatedCities(old(store.cities), routeId.value, PatchOf(formData))
      ensures saved && !IsEditMode() ==> store.cities == old(store.cities) + [NewCity(DraftOf(formData), newId)]
      ensures store.countries == old(store.countries) && store.states == old(store.states) && store.areas == old(store.areas)
    {
      errors := CityFormErrors(formData);
      if |errors| > 0 {
        return false;
      }
      if IsEditMode() {
        store.UpdateCity(routeId.value, PatchOf(formData));
      } else {
        store.AddCity(DraftOf(formData), newId);
      }
      saved := true;
    }
  }
}
