/**
 * The create/edit state form: a country picker that copies the country's
 * name into the form, a required name and country, and the submission
 * that adds a state or updates the routed one.
 */
module StateCreate {
  import opened Common
  import opened Keyed
  import opened Locations

  /** The keys of the form's `errors` record. */
  datatype FormField = NameField | CountryIdField

  const NameRequired := "Name is required"
  const CountryRequired := "Country is required"

  datatype StateForm = StateForm(name: string, countryId: string, countryName: string, status: ActiveStatus)

  const EmptyStateForm := StateForm("", "", "", Active)

  datatype StateInput = NameInput(text: string) | StatusInput(status: ActiveStatus)

  function WithInput(f: StateForm, input: StateInput): StateForm
  {
    match input
    case NameInput(v) => f.(name := v)
    case StatusInput(st) => f.(status := st)
  }

  /** `handleCountryChange`: the chosen id and the name of the first country
      with it, or `''` when no country has it; nothing else changes. */
  function WithCountry(f: StateForm, countries: seq<Country>, countryId: string): (r: StateForm)
    ensures r == f.(countryId := countryId, countryName := r.countryName)
    ensures (forall i :: 0 <= i < |countries| ==> countries[i].id != countryId) ==> r.countryName == ""
    ensures forall i :: IsFirst(countries, CountryKey, countryId, i) ==> r.countryName == countries[i].name
  {
    f.(countryId := countryId, countryName := NameOf(countries, CountryKey, CountryName, countryId))
  }

  /** The errors the submit handler records: a blank name, an empty country id. */
  function StateFormErrors(f: StateForm): (errs: map<FormField, string>)
    ensures NameField in errs <==> IsBlank(f.name)
    ensures CountryIdField in errs <==> f.countryId == ""
    ensures NameField in errs ==> errs[NameField] == NameRequired
    ensures CountryIdField in errs ==> errs[CountryIdField] == CountryRequired
  {
    var e1: map<FormField, string> := if IsBlank(f.name) then map[NameField := NameRequired] else map[];
    if f.countryId == "" then e1[CountryIdField := CountryRequired] else e1
  }

  /** The form passes exactly when the name is not blank and a country id is set. */
  lemma StateFormValidIff(f: StateForm)
    ensures StateFormErrors(f) == map[] <==> !IsBlank(f.name) && f.countryId != ""
  {
  }

  function DraftOf(f: StateForm): StateDraft
  {
    StateDraft(f.name, f.countryId, f.countryName, f.status)
  }

  /** What `updateState(id, formData)` receives: the four form keys. */
  function PatchOf(f: StateForm): StatePatch
  {
    StatePatch(None, Some(f.name), Some(f.countryId), Some(f.countryName), Some(f.status))
  }

  function FormOf(s: State): StateForm
  {
    StateForm(s.name, s.countryId, s.countryName, s.status)
  }

  /** A state created after picking an existing country keeps the
      country-state links sound; picking an id no country has (the form
      accepts any non-empty id) leaves the new state orphaned. */
  lemma PickedCountryKeepsStatesConsistent(
    cs: seq<Country>, ss: seq<State>, f: StateForm, countryId: string, newId: string)
    requires Resolves(cs, CountryKey, ss, StateCountry)
    requires CachedNamesAgree(cs, CountryKey, CountryName, ss, StateCountry, StateCountryName)
    ensures var ss' := ss + [NewState(DraftOf(WithCountry(f, cs, countryId)), newId)];
      && (FindFirst(cs, CountryKey, countryId).Some? ==>
            Resolves(cs, CountryKey, ss', StateCountry)
            && CachedNamesAgree(cs, CountryKey, CountryName, ss', StateCountry, StateCountryName))
      && (FindFirst(cs, CountryKey, countryId).None? ==> !Resolves(cs, CountryKey, ss', StateCountry))
  {
    var s := NewState(DraftOf(WithCountry(f, cs, countryId)), newId);
    if FindFirst(cs, CountryKey, countryId).Some? {
      AppendKeepsLinks(cs, CountryKey, CountryName, ss, StateCountry, StateCountryName, s);
    } else {
      AppendUnresolvedOrphans(cs, CountryKey, ss, StateCountry, s);
    }
  }

  class StateCreatePage {
    const store: LocationStore
    /** The `:id` route parameter. */
    const routeId: Option<string>
    var formData: StateForm
    var errors: map<FormField, string>

    constructor (store: LocationStore, routeId: Option<string>)
      ensures this.store == store && this.routeId == routeId
      ensures formData == EmptyStateForm && errors == map[]
    {
      this.store, this.routeId := store, routeId;
      formData, errors := EmptyStateForm, map[];
    }

    predicate IsEditMode()
    {
      routeId.Some? && routeId.value != ""
    }

    /** The edit-mode effect: load the state's form fields, or leave the
        page when no state has the route's id. */
    method LoadForEdit() returns (leave: bool)
      modifies this`formData
      ensures !IsEditMode() ==> !leave && formData == old(formData)
      ensures IsEditMode() ==> leave == FindFirst(store.states, StateKey, routeId.value).None?
      ensures IsEditMode() && !leave ==> formData == FormOf(FindFirst(store.states, StateKey, routeId.value).value)
      ensures leave ==> formData == old(formData)
    {
      leave := false;
      if IsEditMode() {
        match FindFirst(store.states, StateKey, routeId.value)
        case Some(s) => formData := FormOf(s);
        case None => leave := true;
      }
    }

    method HandleChange(input: StateInput)
      modifies this`formData
      ensures formData == WithInput(old(formData), input)
    {
      formData := WithInput(formData, input);
    }

    method HandleCountryChange(countryId: string)
      modifies this`formData
      ensures formData == WithCountry(old(formData), store.countries, countryId)
    {
      formData := WithCountry(formData, store.countries, countryId);
    }

    /** Validation is inline: record the errors, stop if there are any, else
        update the routed state in edit mode and add one otherwise. Only the
        state list changes. */
    method HandleSubmit(newId: string) returns (saved: bool)
      modifies this`errors, store
      ensures errors == StateFormErrors(formData)
      ensures saved <==> errors == map[]
      ensures !saved ==> store.states == old(store.states)
      ensures saved && IsEditMode() ==> store.states == UpdatedStates(old(store.states), routeId.value, PatchOf(formData))
      ensures saved && !IsEditMode() ==> store.states == old(store.states) + [NewState(DraftOf(formData), newId)]
      ensures store.countries == old(store.countries) && store.cities == old(store.cities) && store.areas == old(store.areas)
    {
      errors := StateFormErrors(formData);
      if |errors| > 0 {
        return false;
      }
      if IsEditMode() {
        store.UpdateState(routeId.value, PatchOf(formData));
      } else {
        store.AddState(DraftOf(formData), newId);
      }
      saved := true;
    }
  }
}
