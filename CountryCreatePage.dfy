/**
 * The create/edit country form: the code input upper-cases what is typed,
 * name and code are required, and the submission adds a country or
 * updates the routed one.
 */
module CountryCreate {
  import opened Common
  import opened Keyed
  import opened Locations

  /** The keys of the form's `errors` record. */
  datatype FormField = NameField | CodeField

  const NameRequired := "Name is required"
  const CodeRequired := "Code is required"

  datatype CountryForm = CountryForm(name: string, code: string, status: ActiveStatus)

  const EmptyCountryForm := CountryForm("", "", Active)

  /** The inputs other than the code. */
  datatype CountryInput = NameInput(text: string) | StatusInput(status: ActiveStatus)

  function WithInput(f: CountryForm, input: CountryInput): CountryForm
  {
    match input
    case NameInput(v) => f.(name := v)
    case StatusInput(st) => f.(status := st)
  }

  /** The code input: `code: e.target.value.toUpperCase()`. It stores the
      typed text upper-cased, which has no lower-case letter left; nothing
      else changes. */
  function WithCode(f: CountryForm, typed: string): (r: CountryForm)
    ensures r == f.(code := r.code)
    ensures r.code == ToUpper(typed)
    ensures UpperCased(r.code)
  {
    ToUpperIdempotent(typed);
    f.(code := ToUpper(typed))
  }

  /** The errors the submit handler records: a blank name or code. */
  function CountryFormErrors(f: CountryForm): (errs: map<FormField, string>)
    ensures NameField in errs <==> IsBlank(f.name)
    ensures CodeField in errs <==> IsBlank(f.code)
    ensures NameField in errs ==> errs[NameField] == NameRequired
    ensures CodeField in errs ==> errs[CodeField] == CodeRequired
  {
    var e1: map<FormField, string> := if IsBlank(f.name) then map[NameField := NameRequired] else map[];
    if IsBlank(f.code) then e1[CodeField := CodeRequired] else e1
  }

  /** The form passes exactly when neither name nor code is blank. */
  lemma CountryFormValidIff(f: CountryForm)
    ensures CountryFormErrors(f) == map[] <==> !IsBlank(f.name) && !IsBlank(f.code)
  {
  }

  function DraftOf(f: CountryForm): CountryDraft
  {
    CountryDraft(f.name, f.code, f.status)
  }

  /** What `updateCountry(id, formData)` receives: the three form keys. */
  function PatchOf(f: CountryForm): CountryPatch
  {
    CountryPatch(None, Some(f.name), Some(f.code), Some(f.status))
  }

  function FormOf(c: Country): CountryForm
  {
    CountryForm(c.name, c.code, c.status)
  }

  class CountryCreatePage {
    const store: LocationStore
    /** The `:id` route parameter. */
    const routeId: Option<string>
    var formData: CountryForm
    var errors: map<FormField, string>

    constructor (store: LocationStore, routeId: Option<string>)
      ensures this.store == store && this.routeId == routeId
      ensures formData == EmptyCountryForm && errors == map[]
    {
      this.store, this.routeId := store, routeId;
      formData, errors := EmptyCountryForm, map[];
    }

    predicate IsEditMode()
    {
      routeId.Some? && routeId.value != ""
    }

    /** The edit-mode effect: load the country's form fields, or leave the
        page when no country has the route's id. */
    method LoadForEdit() returns (leave: bool)
      modifies this`formData
      ensures !IsEditMode() ==> !leave && formData == old(formData)
      ensures IsEditMode() ==> leave == FindFirst(store.countries, CountryKey, routeId.value).None?
      ensures IsEditMode() && !leave ==> formData == FormOf(FindFirst(store.countries, CountryKey, routeId.value).value)
      ensures leave ==> formData == old(formData)
    {
      leave := false;
      if IsEditMode() {
        match FindFirst(store.countries, CountryKey, routeId.value)
        case Some(c) => formData := FormOf(c);
        case None => leave := true;
      }
    }

    method HandleChange(input: CountryInput)
      modifies this`formData
      ensures formData == WithInput(old(formData), input)
    {
      formData := WithInput(formData, input);
    }

    method HandleCodeChange(typed: string)
      modifies this`formData
      ensures formData == WithCode(old(formData), typed)
    {
      formData := WithCode(formData, typed);
    }

    /** Validation is inline: record the errors, stop if there are any, else
        update the routed country in edit mode and add one otherwise. Only
        the country list changes. */
    method HandleSubmit(newId: string) returns (saved: bool)
      modifies this`errors, store
      ensures errors == CountryFormErrors(formData)
      ensures saved <==> errors == map[]
      ensures !saved ==> store.countries == old(store.countries)
      ensures saved && IsEditMode() ==> store.countries == UpdatedCountries(old(store.countries), routeId.value, PatchOf(formData))
      ensures saved && !IsEditMode() ==> store.countries == old(store.countries) + [NewCountry(DraftOf(formData), newId)]
      ensures store.states == old(store.states) && store.cities == old(store.cities) && store.areas == old(store.areas)
    {
      errors := CountryFormErrors(formData);
      if |errors| > 0 {
        return false;
      }
      if IsEditMode() {
        store.UpdateCountry(routeId.value, PatchOf(formData));
      } else {
        store.AddCountry(DraftOf(formData), newId);
      }
      saved := true;
    }
  }
}
