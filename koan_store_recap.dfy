/** Koan 02_ticket_store/09_store_recap: the finished store of the koans. Titles and
    descriptions are types that only hold valid text, tickets remember when they were
    last touched, and the store can update and delete. */
module KoanStoreRecap {
  import opened Wrappers
  import opened Primitives
  import opened TicketStatus
  import opened Validation
  import opened KoanIdGeneration
  import KoanResults

  type ValidationError = KoanResults.ValidationError

  /** `TicketTitle`: text that `TicketTitle::new` accepted. */
  type TicketTitle = t: string | TitleProblem(t) == None witness "title"

  /** `TicketDescription`: text that `TicketDescription::new` accepted. */
  type TicketDescription = d: string | DescriptionProblem(d) == None witness ""

  datatype TicketDraft = TicketDraft(title: TicketTitle, description: TicketDescription)

  /** The fields to overwrite; `None` leaves a field as it is. */
  datatype TicketPatch = TicketPatch(title: Option<TicketTitle>, description: Option<TicketDescription>,
                                     status: Option<Status>)

  datatype Ticket = Ticket(id: TicketId, title: TicketTitle, description: TicketDescription,
                           status: Status, createdAt: Timestamp, updatedAt: Timestamp)

  datatype DeletedTicket = DeletedTicket(ticket: Ticket, deletedAt: Timestamp)

  /** `TicketTitle::new`: emptiness is checked before length. */
  function NewTicketTitle(title: string): (r: Result<TicketTitle, ValidationError>)
    ensures title == [] ==> r == Err(KoanResults.ValidationError(EMPTY_TITLE))
    ensures title != [] && ByteLen(title) > 50 ==> r == Err(KoanResults.ValidationError(LONG_TITLE))
    ensures r.Ok? <==> title != [] && ByteLen(title) <= 50
    ensures r.Ok? ==> r.value == title
  {
    match TitleProblem(title)
    case Some(message) => Err(KoanResults.ValidationError(message))
    case None => Ok(title)
  }

  /** `TicketDescription::new`: at most 3000 bytes, the empty text included. */
  function NewTicketDescription(description: string): (r: Result<TicketDescription, ValidationError>)
    ensures ByteLen(description) > 3000 ==> r == Err(KoanResults.ValidationError(LONG_DESCRIPTION))
    ensures r.Ok? <==> ByteLen(description) <= 3000
    ensures r.Ok? ==> r.value == description
  {
    match DescriptionProblem(description)
    case Some(message) => Err(KoanResults.ValidationError(message))
    case None => Ok(description)
  }

  /** What `update` turns a ticket into: each field the patch carries is replaced,
      the others are kept, and the ticket is marked as touched at `now`. */
  function Patched(ticket: Ticket, patch: TicketPatch, now: Timestamp): (r: Ticket)
    ensures r.id == ticket.id && r.createdAt == ticket.createdAt && r.updatedAt == now
    ensures r.title == (if patch.title.Some? then patch.title.value else ticket.title)
    ensures r.description == (if patch.description.Some? then patch.description.value else ticket.description)
    ensures r.status == (if patch.status.Some? then patch.status.value else ticket.status)
  {
    Ticket(ticket.id,
           if patch.title.Some? then patch.title.value else ticket.title,
           if patch.description.Some? then patch.description.value else ticket.description,
           if patch.status.Some? then patch.status.value else ticket.status,
           ticket.createdAt, now)
  }

  /** The patch that has the fields of `later` where it has them, else those of `earlier`. */
  function Then(earlier: TicketPatch, later: TicketPatch): TicketPatch {
    TicketPatch(if later.title.Some? then later.title else earlier.title,
                if later.description.Some? then later.description else earlier.description,
                if later.status.Some? then later.status else earlier.status)
  }

  /** An empty patch changes nothing but the time of the last update. */
  lemma EmptyPatch(ticket: Ticket, now: Timestamp)
    ensures Patched(ticket, TicketPatch(None, None, None), now) == ticket.(updatedAt := now)
  {
  }

  /** Applying the same patch twice at the same time is applying it once. */
  lemma PatchIdempotent(ticket: Ticket, patch: TicketPatch, now: Timestamp)
    ensures Patched(Patched(ticket, patch, now), patch, now) == Patched(ticket, patch, now)
  {
  }

  /** Two updates in a row amount to one update with the combined patch, the later
      one winning field by field. */
  lemma PatchesCompose(ticket: Ticket, earlier: TicketPatch, later: TicketPatch, t1: Timestamp, t2: Timestamp)
    ensures Patched(Patched(ticket, earlier, t1), later, t2) == Patched(ticket, Then(earlier, later), t2)
  {
  }

  class TicketStore {
    var data: map<TicketId, Ticket>
    var currentId: TicketId

    /** Every stored ticket carries the key it is stored under, and that key was
        handed out by the counter. */
    ghost predicate Valid()
      reads this
    {
      forall id :: id in data ==> 1 <= id <= currentId && data[id].id == id
    }

    /** `new`: no tickets, counter at 0. */
    constructor ()
      ensures Valid() && data == map[] && currentId == 0
    {
      data := map[];
      currentId := 0;
    }

    /** `generate_id`: increment, then return the new value; `u32` overflow is a
        panic, hence the precondition. */
    method GenerateId() returns (id: TicketId)
      requires currentId < U32_MAX
      modifies this`currentId
      ensures id == old(currentId) + 1 && currentId == id
    {
      currentId := currentId + 1;
      id := currentId;
    }

    /** `save(draft)`: a `ToDo` ticket made of the draft, a fresh id, and the clock's
        reading `now` as both creation and update time, stored under that id. */
    method Save(draft: TicketDraft, now: Timestamp) returns (id: TicketId)
      requires Valid() && currentId < U32_MAX
      modifies this
      ensures Valid()
      ensures id == old(currentId) + 1 && currentId == id && id !in old(data)
      ensures data == old(data)[id := Ticket(id, draft.title, draft.description, ToDo, now, now)]
    {
      id := GenerateId();
      data := data[id := Ticket(id, draft.title, draft.description, ToDo, now, now)];
    }

    /** `get(id)`: the ticket stored under `id`, if there is one. */
    function Get(id: TicketId): (r: Option<Ticket>)
      reads this
      ensures r.Some? <==> id in data
      ensures r.Some? ==> r.value == data[id]
    {
      if id in data then Some(data[id]) else None
    }

    /** `list`: every stored ticket exactly once, in the map's (unspecified) order. */
    method List() returns (tickets: seq<Ticket>)
      requires Valid()
      ensures |tickets| == |data|
      ensures forall i :: 0 <= i < |tickets| ==> tickets[i].id in data && data[tickets[i].id] == tickets[i]
      ensures forall id :: id in data ==> data[id] in tickets
      ensures forall i, j :: 0 <= i < j < |tickets| ==> tickets[i].id != tickets[j].id
    {
      ghost var ids;
      tickets, ids := CollectValues(data);
    }

    /** `update(id, patch)`: patch the ticket under `id` in place, stamping it with the
        clock's reading `now`, and return it; a missing id changes nothing. */
    method Update(id: TicketId, patch: TicketPatch, now: Timestamp) returns (r: Option<Ticket>)
      requires Valid()
      modifies this`data
      ensures Valid()
      ensures id in old(data) ==> data == old(data)[id := Patched(old(data)[id], patch, now)] && r == Some(data[id])
      ensures id !in old(data) ==> data == old(data) && r == None
    {
      if id in data {
        var ticket := data[id];
        if patch.title.Some? {
          ticket := ticket.(title := patch.title.value);
        }
        if patch.description.Some? {
          ticket := ticket.(description := patch.description.value);
        }
        if patch.status.Some? {
          ticket := ticket.(status := patch.status.value);
        }
        ticket := ticket.(updatedAt := now);
        data := data[id := ticket];
        r := Some(ticket);
      } else {
        r := None;
      }
    }

    /** `delete(id)`: take the ticket out of the store and hand it back with the
        clock's reading `now` as deletion time; a missing id changes nothing. */
    method Delete(id: TicketId, now: Timestamp) returns (r: Option<DeletedTicket>)
      requires Valid()
      modifies this`data
      ensures Valid()
      ensures id in old(data) ==> r == Some(DeletedTicket(old(data)[id], now)) && data == old(data) - {id}
      ensures id !in old(data) ==> r == None && data == old(data)
    {
      if id in data {
        r := Some(DeletedTicket(data[id], now));
        data := data - {id};
      } else {
        r := None;
      }
    }
  }
}
