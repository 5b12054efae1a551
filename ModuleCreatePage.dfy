/**
 * The create/edit module form: the code input upper-cases what is typed,
 * name, code and description are required, and the submission adds a
 * module without an icon or updates the routed one, keeping its icon.
 */
module ModuleCreate {
  import opened Common
  import opened Keyed
  import opened Modules

  /** The keys of the form's `errors` record. */
  datatype FormField = NameField | CodeField | DescriptionField

  const NameRequired := "Name is required"
  const CodeRequired := "Code is required"
  const DescriptionRequired := "Description is required"

  datatype ModuleForm = ModuleForm(name: string, code: string, description: string, status: ActiveStatus)

  const EmptyModuleForm := ModuleForm("", "", "", Active)

  /** The inputs other than the code: `setFormData({ ...formData, key: value })`. */
  datatype ModuleInput =
    | NameInput(text: string)
    | DescriptionInput(text: string)
    | StatusInput(status: ActiveStatus)

  function WithInput(f: ModuleForm, input: ModuleInput): ModuleForm
  {
    match input
    case NameInput(v) => f.(name := v)
    case DescriptionInput(v) => f.(description := v)
    case StatusInput(st) => f.(status := st)
  }

  /** The code input: `code: e.target.value.toUpperCase()`. It stores the
      typed text upper-cased, which has no lower-case letter left; nothing
      else changes. */
  function WithCode(f: ModuleForm, typed: string): (r: ModuleForm)
    ensures r == f.(code := r.code)
    ensures r.code == ToUpper(typed)
    ensures UpperCased(r.code)
  {
    ToUpperIdempotent(typed);
    f.(code := ToUpper(typed))
  }

  /** Typing the stored code again stores the same code. */
  lemma CodeEntryIsStable(f: ModuleForm, typed: string)
    ensures WithCode(WithCode(f, typed), WithCode(f, typed).code) == WithCode(f, typed)
  {
    ToUpperIdempotent(typed);
  }

  /** The errors `validate` records: a blank name, code or description. */
  function ModuleFormErrors(f: ModuleForm): (errs: map<FormField, string>)
    ensures NameField in errs <==> IsBlank(f.name)
    ensures CodeField in errs <==> IsBlank(f.code)
    ensures DescriptionField in errs <==> IsBlank(f.description)
    ensures NameField in errs ==> errs[NameField] == NameRequired
    ensures CodeField in errs ==> errs[CodeField] == CodeRequired
    ensures DescriptionField in errs ==> errs[DescriptionField] == DescriptionRequired
  {
    var e1: map<FormField, string> := if IsBlank(f.name) then map[NameField := NameRequired] else map[];
    var e2 := if IsBlank(f.code) then e1[CodeField := CodeRequired] else e1;
    if IsBlank(f.description) then e2[DescriptionField := DescriptionRequired] else e2
  }

  /** The form passes exactly when none of the three texts is blank. */
  lemma ModuleFormValidIff(f: ModuleForm)
    ensures ModuleFormErrors(f) == map[] <==> !IsBlank(f.name) && !IsBlank(f.code) && !IsBlank(f.description)
  {
  }

  /** Status is never validated. */
  lemma ModuleFormIgnoresStatus(f: ModuleForm, status: ActiveStatus)
    ensures ModuleFormErrors(f.(status := status)) == ModuleFormErrors(f)
  {
  }

  /** What `addModule(formData)` receives: the form has no icon key. */
  function DraftOf(f: ModuleForm): ModuleDraft
  {
    ModuleDraft(f.name, f.code, f.description, f.status, None)
  }

  /** What `updateModule(id, formData)` receives: the four form keys. */
  function PatchOf(f: ModuleForm): ModulePatch
  {
    ModulePatch(None, Some(f.name), Some(f.code), Some(f.description), Some(f.status), None)
  }

  function FormOf(m: Module): ModuleForm
  {
    ModuleForm(m.name, m.code, m.description, m.status)
  }

  /** Saving through the form never touches an icon: a created module has
      none, and an updated module keeps the one it had. */
  lemma FormKeepsIcons(f: ModuleForm, ms: seq<Module>, id: string, newId: string)
    ensures NewModule(DraftOf(f), newId).icon == None
    ensures |UpdatedModules(ms, id, PatchOf(f))| == |ms|
    ensures forall i :: 0 <= i < |ms| ==> UpdatedModules(ms, id, PatchOf(f))[i].icon == ms[i].icon
  {
    UpdateModuleKeepsAbsentFields(ms, id, PatchOf(f));
  }

  class ModuleCreatePage {
    const store: ModuleStore
    /** The `:id` route parameter. */
    const routeId: Option<string>
    var formData: ModuleForm
    var errors: map<FormField, string>

    constructor (store: ModuleStore, routeId: Option<string>)
      ensures this.store == store && this.routeId == routeId
      ensures formData == EmptyModuleForm && errors == map[]
    {
      this.store, this.routeId := store, routeId;
      formData, errors := EmptyModuleForm, map[];
    }

    predicate IsEditMode()
    {
      routeId.Some? && routeId.value != ""
    }

    /** The edit-mode effect: load the module's four form fields, or leave
        the page when no module has the route's id. */
    method LoadForEdit() returns (leave: bool)
      modifies this`formData
      ensures !IsEditMode() ==> !leave && formData == old(formData)
      ensures IsEditMode() ==> leave == FindFirst(store.modules, ModuleKey, routeId.value).None?
      ensures IsEditMode() && !leave ==> formData == FormOf(FindFirst(store.modules, ModuleKey, routeId.value).value)
      ensures leave ==> formData == old(formData)
    {
      leave := false;
      if IsEditMode() {
        match FindFirst(store.modules, ModuleKey, routeId.value)
        case Some(m) => formData := FormOf(m);
        case None => leave := true;
      }
    }

    method HandleChange(input: ModuleInput)
      modifies this`formData
      ensures formData == WithInput(old(formData), input)
    {
      formData := WithInput(formData, input);
    }

    method HandleCodeChange(typed: string)
      modifies this`formData
      ensures formData == WithCode(old(formData), typed)
    {
      formData := WithCode(formData, typed);
    }

    method Validate() returns (ok: bool)
      modifies this`errors
      ensures errors == ModuleFormErrors(formData)
      ensures ok <==> errors == map[]
    {
      errors := ModuleFormErrors(formData);
      ok := errors == map[];
    }

    /** An invalid form touches no store; a valid one updates the routed
        module in edit mode and adds a module otherwise. */
    method HandleSubmit(newId: string) returns (saved: bool)
      modifies this`errors, store
      ensures errors == ModuleFormErrors(formData)
      ensures saved <==> errors == map[]
      ensures !saved ==> store.modules == old(store.modules)
      ensures saved && IsEditMode() ==> store.modules == UpdatedModules(old(store.modules), routeId.value, PatchOf(formData))
      ensures saved && !IsEditMode() ==> store.modules == old(store.modules) + [NewModule(DraftOf(formData), newId)]
    {
      saved := Validate();
      if !saved {
        return;
      }
      if IsEditMode() {
        store.UpdateModule(routeId.value, PatchOf(formData));
      } else {
        store.AddModule(DraftOf(formData), newId);
      }
    }
  }
}
