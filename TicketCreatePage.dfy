/**
 * The create/edit ticket form: a tenant picker that copies the tenant's
 * name into the form, validation of subject, description and tenant, and
 * the submission that adds a ticket or updates the routed one.
 */
module TicketCreate {
  import opened Common
  import opened Keyed
  import opened Tenants
  import opened Tickets

  /** The keys of the form's `errors` record. */
  datatype FormField = SubjectField | DescriptionField | TenantIdField

  const SubjectRequired := "Subject is required"
  const DescriptionRequired := "Description is required"
  const TenantRequired := "Tenant is required"

  datatype TicketForm = TicketForm(
    subject: string, description: string, status: TicketStatus, priority: Priority,
    tenantId: string, tenantName: string)

  const EmptyTicketForm := TicketForm("", "", Open, Medium, "", "")

  /** The inputs edited in place: `setFormData({ ...formData, key: value })`. */
  datatype TicketInput =
    | SubjectInput(text: string)
    | DescriptionInput(text: string)
    | StatusInput(status: TicketStatus)
    | PriorityInput(priority: Priority)

  function WithInput(f: TicketForm, input: TicketInput): TicketForm
  {
    match input
    case SubjectInput(v) => f.(subject := v)
    case DescriptionInput(v) => f.(description := v)
    case StatusInput(st) => f.(status := st)
    case PriorityInput(p) => f.(priority := p)
  }

  /** `handleTenantChange`: the chosen id and the name of the first tenant
      with it, or `''` when no tenant has it; nothing else changes. */
  function WithTenant(f: TicketForm, tenants: seq<Tenant>, tenantId: string): (r: TicketForm)
    ensures r == f.(tenantId := tenantId, tenantName := r.tenantName)
    ensures (forall i :: 0 <= i < |tenants| ==> tenants[i].id != tenantId) ==> r.tenantName == ""
    ensures forall i :: IsFirst(tenants, TenantKey, tenantId, i) ==> r.tenantName == tenants[i].name
  {
    f.(tenantId := tenantId, tenantName := NameOf(tenants, TenantKey, TenantName, tenantId))
  }

  /** The errors `validate` records: a blank subject, a blank description, an
      empty tenant id. */
  function TicketFormErrors(f: TicketForm): (errs: map<FormField, string>)
    ensures SubjectField in errs <==> IsBlank(f.subject)
    ensures DescriptionField in errs <==> IsBlank(f.description)
    ensures TenantIdField in errs <==> f.tenantId == ""
    ensures SubjectField in errs ==> errs[SubjectField] == SubjectRequired
    ensures DescriptionField in errs ==> errs[DescriptionField] == DescriptionRequired
    ensures TenantIdField in errs ==> errs[TenantIdField] == TenantRequired
  {
    var e1: map<FormField, string> := if IsBlank(f.subject) then map[SubjectField := SubjectRequired] else map[];
    var e2 := if IsBlank(f.description) then e1[DescriptionField := DescriptionRequired] else e1;
    if f.tenantId == "" then e2[TenantIdField := TenantRequired] else e2
  }

  /** The form passes exactly when subject and description are not blank and
      a tenant id is set. The id is never looked up: one that names no
      tenant, with an empty cached name, passes too. */
  lemma TicketFormValidIff(f: TicketForm)
    ensures TicketFormErrors(f) == map[] <==> !IsBlank(f.subject) && !IsBlank(f.description) && f.tenantId != ""
  {
  }

  /** What `addTicket(formData)` receives. */
  function DraftOf(f: TicketForm): TicketDraft
  {
    TicketDraft(f.subject, f.description, f.status, f.priority, f.tenantId, f.tenantName)
  }

  /** What `updateTicket(id, formData)` receives: the six form keys. */
  function PatchOf(f: TicketForm): TicketPatch
  {
    TicketPatch(None, Some(f.subject), Some(f.description), Some(f.status), Some(f.priority),
                Some(f.tenantId), Some(f.tenantName), None, None)
  }

  function FormOf(t: Ticket): TicketForm
  {
    TicketForm(t.subject, t.description, t.status, t.priority, t.tenantId, t.tenantName)
  }

  /** A ticket saved from a valid form has a non-blank subject and
      description and a tenant id, in both modes: a created ticket and every
      ticket the update rewrites. */
  lemma SavedTicketsAreFilledIn(f: TicketForm, ts: seq<Ticket>, id: string, newId: string,
                                 createdAt: string, updatedAt: string, now: string)
    requires TicketFormErrors(f) == map[]
    ensures var t := NewTicket(DraftOf(f), newId, createdAt, updatedAt);
      !IsBlank(t.subject) && !IsBlank(t.description) && t.tenantId != ""
    ensures forall i :: 0 <= i < |ts| && ts[i].id == id ==>
      var t := UpdatedTickets(ts, id, PatchOf(f), now)[i];
      !IsBlank(t.subject) && !IsBlank(t.description) && t.tenantId != "" && t.updatedAt == now
  {
    TicketFormValidIff(f);
  }

  /** Status and priority are never validated. */
  lemma TicketFormIgnoresStatusAndPriority(f: TicketForm, status: TicketStatus, priority: Priority)
    ensures TicketFormErrors(f.(status := status, priority := priority)) == TicketFormErrors(f)
  {
  }

  /** The seeded tickets name seeded tenants, but their cached tenant names
      ("Acme Corp", "Global Tech") are not those tenants' names ("Acme
      Corporation", "TechStart Inc"). */
  lemma SeedTicketNamesDisagree(startedAt: string)
    ensures Resolves(SeedTenants, TenantKey, SeedTickets(startedAt), TicketTenant)
    ensures !CachedNamesAgree(SeedTenants, TenantKey, TenantName, SeedTickets(startedAt), TicketTenant, TicketTenantName)
  {
    var ts := SeedTickets(startedAt);
    assert IsFirst(SeedTenants, TenantKey, ts[0].tenantId, 0);
    assert IsFirst(SeedTenants, TenantKey, ts[1].tenantId, 1);
    assert TicketTenantName(ts[0]) != NameOf(SeedTenants, TenantKey, TenantName, TicketTenant(ts[0]));
  }

  class TicketCreatePage {
    const tickets: TicketStore
    const tenants: TenantStore
    /** The `:id` route parameter. */
    const routeId: Option<string>
    var formData: TicketForm
    var errors: map<FormField, string>

    constructor (tickets: TicketStore, tenants: TenantStore, routeId: Option<string>)
      ensures this.tickets == tickets && this.tenants == tenants && this.routeId == routeId
      ensures formData == EmptyTicketForm && errors == map[]
    {
      this.tickets, this.tenants, this.routeId := tickets, tenants, routeId;
      formData, errors := EmptyTicketForm, map[];
    }

    predicate IsEditMode()
    {
      routeId.Some? && routeId.value != ""
    }

    /** The edit-mode effect: load the ticket's six form fields, or leave the
        page when no ticket has the route's id. */
    method LoadForEdit() returns (leave: bool)
      modifies this`formData
      ensures !IsEditMode() ==> !leave && formData == old(formData)
      ensures IsEditMode() ==> leave == FindFirst(tickets.tickets, TicketKey, routeId.value).None?
      ensures IsEditMode() && !leave ==> formData == FormOf(FindFirst(tickets.tickets, TicketKey, routeId.value).value)
      ensures leave ==> formData == old(formData)
    {
      leave := false;
      if IsEditMode() {
        match FindFirst(tickets.tickets, TicketKey, routeId.value)
        case Some(t) => formData := FormOf(t);
        case None => leave := true;
      }
    }

    /** Subject, description, status and priority edits; shown errors stay. */
    method HandleChange(input: TicketInput)
      modifies this`formData
      ensures formData == WithInput(old(formData), input)
    {
      formData := WithInput(formData, input);
    }

    method HandleTenantChange(tenantId: string)
      modifies this`formData
      ensures formData == WithTenant(old(formData), tenants.tenants, tenantId)
    {
      formData := WithTenant(formData, tenants.tenants, tenantId);
    }

    method Validate() returns (ok: bool)
      modifies this`errors
      ensures errors == TicketFormErrors(formData)
      ensures ok <==> errors == map[]
    {
      errors := TicketFormErrors(formData);
      ok := errors == map[];
    }

    /** An invalid form touches no store; a valid one updates the routed
        ticket (stamped with `now`) in edit mode and adds a ticket otherwise. */
    method HandleSubmit(newId: string, createdAt: string, updatedAt: string, now: string) returns (saved: bool)
      modifies this`errors, tickets
      ensures errors == TicketFormErrors(formData)
      ensures saved <==> errors == map[]
      ensures !saved ==> tickets.tickets == old(tickets.tickets)
      ensures saved && IsEditMode() ==>
        tickets.tickets == UpdatedTickets(old(tickets.tickets), routeId.value, PatchOf(formData), now)
      ensures saved && !IsEditMode() ==>
        tickets.tickets == old(tickets.tickets) + [NewTicket(DraftOf(formData), newId, createdAt, updatedAt)]
    {
      saved := Validate();
      if !saved {
        return;
      }
      if IsEditMode() {
        tickets.UpdateTicket(routeId.value, PatchOf(formData), now);
      } else {
        tickets.AddTicket(DraftOf(formData), newId, createdAt, updatedAt);
      }
    }
  }
}
