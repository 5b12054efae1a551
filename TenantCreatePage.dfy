/**
 * The create/edit tenant form: field edits, validation (a required name
 * and a required, well-formed domain) and the submission that adds a
 * tenant or updates the one named by the route.
 */
module TenantCreate {
  import opened Common
  import opened Keyed
  import opened Tenants

  /** The keys of the form's `errors` record. */
  datatype FormField = NameField | DomainField | DescriptionField | StatusField

  const NameRequired := "Name is required"
  const DomainRequired := "Domain is required"
  const InvalidDomain := "Invalid domain format"

  /** A character of `[a-z0-9.-]` under the case-insensitive flag. */
  predicate DomainChar(c: char)
  {
    'a' <= c <= 'z' || 'A' <= c <= 'Z' || '0' <= c <= '9' || c == '.' || c == '-'
  }

  /** A character of `[a-z]` under the case-insensitive flag. */
  predicate Letter(c: char)
  {
    'a' <= c <= 'z' || 'A' <= c <= 'Z'
  }

  /** The position of the last `.`, or -1 when there is none. */
  function LastDot(s: string): (k: int)
    ensures -1 <= k < |s|
    ensures k >= 0 ==> s[k] == '.'
    ensures forall j :: k < j < |s| ==> s[j] != '.'
  {
    if s == [] then -1
    else if s[|s| - 1] == '.' then |s| - 1
    else LastDot(s[..|s| - 1])
  }

  /** The domain test as the model computes it: split at the last dot; the
      part before it is a non-empty run of `[a-z0-9.-]`, the part after it
      at least two letters. */
  predicate DomainMatches(s: string)
  {
    var k := LastDot(s);
    && 0 < k && |s| - k - 1 >= 2
    && (forall i :: 0 <= i < k ==> DomainChar(s[i]))
    && (forall i :: k < i < |s| ==> Letter(s[i]))
  }

  /** `/^[a-z0-9.-]+\.[a-z]{2,}$/i.test(s)` read literally: the whole string
      is some non-empty run of `[a-z0-9.-]`, a dot, and two or more letters. */
  ghost predicate RegexAccepts(s: string)
  {
    exists k :: 0 < k < |s| - 2 && s[k] == '.'
      && (forall i :: 0 <= i < k ==> DomainChar(s[i]))
      && (forall i :: k < i < |s| ==> Letter(s[i]))
  }

  /** The last-dot test accepts exactly the strings the regular expression
      accepts: since the letters after the separating dot contain no dot,
      the regular expression can only split at the last one. */
  lemma DomainMatchesRegex(s: string)
    ensures DomainMatches(s) <==> RegexAccepts(s)
  {
    var k := LastDot(s);
    if DomainMatches(s) {
      assert 0 < k < |s| - 2 && s[k] == '.';
    }
    if RegexAccepts(s) {
      var k' :| 0 < k' < |s| - 2 && s[k'] == '.'
        && (forall i :: 0 <= i < k' ==> DomainChar(s[i]))
        && (forall i :: k' < i < |s| ==> Letter(s[i]));
      assert k' <= k && !Letter(s[k]);
    }
  }

  /** The seeded domains pass. */
  lemma SeedDomainExample()
    ensures DomainMatches("acme.example.com")
  {
    LastDotIs("acme.example.com", 12);
  }

  /** Upper case passes, under the case-insensitive flag, and so do
      consecutive dots. */
  lemma AcceptedDomainExamples()
    ensures DomainMatches("ACME.Example.COM")
    ensures DomainMatches("a..com")
  {
    LastDotIs("ACME.Example.COM", 12);
    LastDotIs("a..com", 2);
  }

  /** A one-letter ending, a missing name part or a missing dot fails. */
  lemma RejectedDomainExamples()
    ensures !DomainMatches("acme.c")
    ensures !DomainMatches(".com")
    ensures !DomainMatches("acme")
  {
    LastDotIs("acme.c", 4);
    LastDotIs(".com", 0);
  }

  /** The last dot is pinned down by its position and the dot-free rest. */
  lemma LastDotIs(s: string, k: nat)
    requires k < |s| && s[k] == '.'
    requires '.' !in s[k + 1..]
    ensures LastDot(s) == k
  {
  }

  datatype TenantForm = TenantForm(name: string, domain: string, description: string, status: ActiveStatus)

  const EmptyTenantForm := TenantForm("", "", "", Active)

  /** One change event of the form: the input's `name` and its new value. */
  datatype TenantInput =
    | NameInput(text: string)
    | DomainInput(text: string)
    | DescriptionInput(text: string)
    | StatusInput(status: ActiveStatus)

  function InputField(input: TenantInput): FormField
  {
    match input
    case NameInput(_) => NameField
    case DomainInput(_) => DomainField
    case DescriptionInput(_) => DescriptionField
    case StatusInput(_) => StatusField
  }

  /** `{ ...prev, [name]: value }`. */
  function WithInput(f: TenantForm, input: TenantInput): TenantForm
  {
    match input
    case NameInput(v) => f.(name := v)
    case DomainInput(v) => f.(domain := v)
    case DescriptionInput(v) => f.(description := v)
    case StatusInput(st) => f.(status := st)
  }

  /** The errors `validate` records: a blank name; a blank domain, or else a
      domain the regular expression rejects. Nothing else is checked. */
  function TenantFormErrors(f: TenantForm): (errs: map<FormField, string>)
    ensures NameField in errs <==> IsBlank(f.name)
    ensures DomainField in errs <==> IsBlank(f.domain) || !DomainMatches(f.domain)
    ensures NameField in errs ==> errs[NameField] == NameRequired
    ensures DomainField in errs ==> errs[DomainField] == if IsBlank(f.domain) then DomainRequired else InvalidDomain
    ensures errs.Keys <= {NameField, DomainField}
  {
    var withName := if IsBlank(f.name) then map[NameField := NameRequired] else map[];
    if IsBlank(f.domain) then withName[DomainField := DomainRequired]
    else if !DomainMatches(f.domain) then withName[DomainField := InvalidDomain]
    else withName
  }

  /** The form is valid exactly when the name is not blank and the domain
      passes the regular expression. */
  lemma TenantFormValidIff(f: TenantForm)
    ensures TenantFormErrors(f) == map[] <==> !IsBlank(f.name) && RegexAccepts(f.domain)
  {
    DomainMatchesRegex(f.domain);
    if !IsBlank(f.name) && DomainMatches(f.domain) {
      assert !IsBlank(f.domain) by {
        assert !IsWhitespace(f.domain[0]);
      }
    }
  }

  /** Description and status are never validated. */
  lemma TenantFormIgnoresDescriptionAndStatus(f: TenantForm, description: string, status: ActiveStatus)
    ensures TenantFormErrors(f.(description := description, status := status)) == TenantFormErrors(f)
  {
  }

  /** The domain test runs on the untrimmed text: a non-blank domain with a
      leading or trailing space is reported as badly formed. */
  lemma PaddedDomainIsInvalid(f: TenantForm)
    requires !IsBlank(f.domain)
    requires IsWhitespace(f.domain[0]) || IsWhitespace(f.domain[|f.domain| - 1])
    ensures DomainField in TenantFormErrors(f) && TenantFormErrors(f)[DomainField] == InvalidDomain
  {
    DomainEnds(f.domain);
    WhitespaceIsNoDomainChar(f.domain[0]);
    WhitespaceIsNoDomainChar(f.domain[|f.domain| - 1]);
  }

  /** An accepted domain starts with a domain character and ends with a letter. */
  lemma DomainEnds(s: string)
    ensures DomainMatches(s) ==> DomainChar(s[0]) && Letter(s[|s| - 1])
  {
  }

  lemma WhitespaceIsNoDomainChar(c: char)
    ensures IsWhitespace(c) ==> !DomainChar(c) && !Letter(c)
  {
  }

  /** What `addTenant(formData)` receives. */
  function DraftOf(f: TenantForm): TenantDraft
  {
    TenantDraft(f.name, f.domain, f.description, f.status)
  }

  /** What `updateTenant(id, formData)` receives: the four form keys. */
  function PatchOf(f: TenantForm): TenantPatch
  {
    TenantPatch(None, Some(f.name), Some(f.domain), Some(f.description), Some(f.status), None)
  }

  function FormOf(t: Tenant): TenantForm
  {
    TenantForm(t.name, t.domain, t.description, t.status)
  }

  class TenantCreatePage {
    const store: TenantStore
    /** The `:id` route parameter. */
    const routeId: Option<string>
    var formData: TenantForm
    var errors: map<FormField, string>

    constructor (store: TenantStore, routeId: Option<string>)
      ensures this.store == store && this.routeId == routeId
      ensures formData == EmptyTenantForm && errors == map[]
    {
      this.store, this.routeId := store, routeId;
      formData, errors := EmptyTenantForm, map[];
    }

    /** `Boolean(id)`: an empty route parameter is not edit mode. */
    predicate IsEditMode()
    {
      routeId.Some? && routeId.value != ""
    }

    /** The edit-mode effect: load the tenant's fields, or leave the page
        when no tenant has the route's id. */
    method LoadForEdit() returns (leave: bool)
      modifies this`formData
      ensures !IsEditMode() ==> !leave && formData == old(formData)
      ensures IsEditMode() ==> leave == FindFirst(store.tenants, TenantKey, routeId.value).None?
      ensures IsEditMode() && !leave ==> formData == FormOf(FindFirst(store.tenants, TenantKey, routeId.value).value)
      ensures leave ==> formData == old(formData)
    {
      leave := false;
      if IsEditMode() {
        match FindFirst(store.tenants, TenantKey, routeId.value)
        case Some(t) => formData := FormOf(t);
        case None => leave := true;
      }
    }

    /** Stores the new value and blanks (does not remove) a shown error of that field. */
    method HandleChange(input: TenantInput)
      modifies this`formData, this`errors
      ensures formData == WithInput(old(formData), input)
      ensures var field := InputField(input);
        errors == if field in old(errors) && old(errors)[field] != "" then old(errors)[field := ""] else old(errors)
    {
      formData := WithInput(formData, input);
      var field := InputField(input);
      if field in errors && errors[field] != "" {
        errors := errors[field := ""];
      }
    }

    method Validate() returns (ok: bool)
      modifies this`errors
      ensures errors == TenantFormErrors(formData)
      ensures ok <==> errors == map[]
    {
      errors := TenantFormErrors(formData);
      ok := errors == map[];
    }

    /** An invalid form touches no store; a valid one updates the routed
        tenant in edit mode and adds a tenant otherwise. */
    method HandleSubmit(newId: string, nowIso: string) returns (saved: bool)
      modifies this`errors, store
      ensures errors == TenantFormErrors(formData)
      ensures saved <==> errors == map[]
      ensures !saved ==> store.tenants == old(store.tenants)
      ensures saved && IsEditMode() ==> store.tenants == UpdatedTenants(old(store.tenants), routeId.value, PatchOf(formData))
      ensures saved && !IsEditMode() ==> store.tenants == old(store.tenants) + [NewTenant(DraftOf(formData), newId, nowIso)]
      ensures store.mappings == old(store.mappings)
    {
      saved := Validate();
      if !saved {
        return;
      }
      if IsEditMode() {
        store.UpdateTenant(routeId.value, PatchOf(formData));
      } else {
        store.AddTenant(DraftOf(formData), newId, nowIso);
      }
    }
  }
}
