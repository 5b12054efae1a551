/**
 * The ticket store: an ordered list of support tickets. Each ticket
 * carries a cached copy of its tenant's name and two ISO timestamps; the
 * store stamps `updatedAt` with the clock on every update.
 */
module Tickets {
  import opened Common
  import opened Keyed

  datatype TicketStatus = Open | InProgress | Resolved | Closed
  datatype Priority = Low | Medium | High | Urgent

  datatype Ticket = Ticket(
    id: string, subject: string, description: string, status: TicketStatus, priority: Priority,
    tenantId: string, tenantName: string, createdAt: string, updatedAt: string)

  /** What `addTicket` is given: a ticket without `id`, `createdAt`, `updatedAt`. */
  datatype TicketDraft = TicketDraft(
    subject: string, description: string, status: TicketStatus, priority: Priority,
    tenantId: string, tenantName: string)

  /** `Partial<Ticket>`: `None` stands for a key the update object does not have. */
  datatype TicketPatch = TicketPatch(
    id: Option<string>, subject: Option<string>, description: Option<string>,
    status: Option<TicketStatus>, priority: Option<Priority>, tenantId: Option<string>,
    tenantName: Option<string>, createdAt: Option<string>, updatedAt: Option<string>)

  function TicketKey(t: Ticket): string { t.id }
  function TicketTenant(t: Ticket): string { t.tenantId }
  function TicketTenantName(t: Ticket): string { t.tenantName }

  /** `{ ...ticket, id, createdAt, updatedAt }`; the two timestamps are two
      separate clock readings. */
  function NewTicket(d: TicketDraft, newId: string, createdAt: string, updatedAt: string): Ticket
  {
    Ticket(newId, d.subject, d.description, d.status, d.priority, d.tenantId, d.tenantName, createdAt, updatedAt)
  }

  /** `{ ...t, ...u, updatedAt: now }`: the keys of `u` override the ticket's,
      and the clock reading overrides them all. */
  function Stamped(t: Ticket, u: TicketPatch, now: string): Ticket
  {
    Ticket(u.id.GetOr(t.id), u.subject.GetOr(t.subject), u.description.GetOr(t.description),
           u.status.GetOr(t.status), u.priority.GetOr(t.priority), u.tenantId.GetOr(t.tenantId),
           u.tenantName.GetOr(t.tenantName), u.createdAt.GetOr(t.createdAt), now)
  }

  function UpdatedTickets(ts: seq<Ticket>, id: string, u: TicketPatch, now: string): seq<Ticket>
  {
    Patch(ts, TicketKey, id, (t: Ticket) => Stamped(t, u, now))
  }

  /** The two seeded tickets; every timestamp is a clock reading taken at start-up. */
  function SeedTickets(startedAt: string): seq<Ticket>
  {
    [
      Ticket("1", "Database connection issue", "Unable to connect to the secondary database instance.",
             Open, High, "1", "Acme Corp", startedAt, startedAt),
      Ticket("2", "Login slow for some users", "Reports of login taking up to 10 seconds in the EU region.",
             InProgress, Medium, "2", "Global Tech", startedAt, startedAt)
    ]
  }

  class TicketStore {
    var tickets: seq<Ticket>

    constructor (startedAt: string)
      ensures tickets == SeedTickets(startedAt)
    {
      tickets := SeedTickets(startedAt);
    }

    method AddTicket(d: TicketDraft, newId: string, createdAt: string, updatedAt: string)
      modifies this
      ensures tickets == old(tickets) + [NewTicket(d, newId, createdAt, updatedAt)]
    {
      tickets := tickets + [NewTicket(d, newId, createdAt, updatedAt)];
    }

    method UpdateTicket(id: string, u: TicketPatch, now: string)
      modifies this
      ensures tickets == UpdatedTickets(old(tickets), id, u, now)
    {
      tickets := UpdatedTickets(tickets, id, u, now);
    }

    method DeleteTicket(id: string)
      modifies this
      ensures tickets == Without(old(tickets), TicketKey, id)
    {
      tickets := Without(tickets, TicketKey, id);
    }
  }

  /** `updateTicket` keeps the number and order of the tickets, stamps every
      matching ticket with the clock, keeps its `createdAt` unless the update
      names one, and leaves every other ticket, `updatedAt` included, as it was. */
  lemma UpdateTicketStamps(ts: seq<Ticket>, id: string, u: TicketPatch, now: string)
    ensures |UpdatedTickets(ts, id, u, now)| == |ts|
    ensures forall i :: 0 <= i < |ts| && ts[i].id == id ==> UpdatedTickets(ts, id, u, now)[i].updatedAt == now
    ensures forall i :: 0 <= i < |ts| && ts[i].id == id && u.createdAt.None? ==>
      UpdatedTickets(ts, id, u, now)[i].createdAt == ts[i].createdAt
    ensures forall i :: 0 <= i < |ts| && ts[i].id != id ==> UpdatedTickets(ts, id, u, now)[i] == ts[i]
  {
  }

  /** An `updatedAt` supplied by the caller has no effect: the update gives
      the same list as the one without that key. */
  lemma SuppliedUpdatedAtIsIgnored(ts: seq<Ticket>, id: string, u: TicketPatch, now: string)
    ensures UpdatedTickets(ts, id, u, now) == UpdatedTickets(ts, id, u.(updatedAt := None), now)
  {
    var a, b := UpdatedTickets(ts, id, u, now), UpdatedTickets(ts, id, u.(updatedAt := None), now);
    forall i | 0 <= i < |ts| ensures a[i] == b[i] {
      if ts[i].id == id {
        assert a[i] == Stamped(ts[i], u, now);
        assert b[i] == Stamped(ts[i], u.(updatedAt := None), now);
      }
    }
  }
}
