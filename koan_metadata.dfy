/** Koan 02_ticket_store/04_metadata: a ticket carries an optional id and an optional
    creation time, both `None` until `save` fills them in. */
module KoanMetadata {
  import opened Wrappers
  import opened Primitives
  import opened TicketStatus
  import opened Validation
  import opened KoanIdGeneration

  datatype Ticket = Ticket(title: string, description: string, status: Status,
                           id: Option<TicketId>, createdAt: Option<Timestamp>)

  /** `create_ticket`: the usual three checks, then a ticket without id or creation
      time. */
  function CreateTicket(title: string, description: string, status: Status): (r: Outcome<Ticket>)
    ensures title == [] ==> r == Panicked(EMPTY_TITLE)
    ensures title != [] && ByteLen(title) > 50 ==> r == Panicked(LONG_TITLE)
    ensures title != [] && ByteLen(title) <= 50 && ByteLen(description) > 3000 ==> r == Panicked(LONG_DESCRIPTION)
    ensures r.Returned? <==> title != [] && ByteLen(title) <= 50 && ByteLen(description) <= 3000
    ensures r.Returned? ==> r.value == Ticket(title, description, status, None, None)
  {
    match TicketProblem(title, description)
    case Some(message) => Panicked(message)
    case None => Returned(Ticket(title, description, status, None, None))
  }

  class TicketStore {
    var data: map<TicketId, Ticket>
    var currentId: TicketId

    /** Every stored ticket carries its own key as id and a creation time, and its key
        was handed out by the counter. */
    ghost predicate Valid()
      reads this
    {
      forall id :: id in data ==> 1 <= id <= currentId && data[id].id == Some(id) && data[id].createdAt.Some?
    }

    /** `new`: no tickets, counter at 0. */
    constructor ()
      ensures Valid() && data == map[] && currentId == 0
    {
      data := map[];
      currentId := 0;
    }

    /** `generate_id`: increment, then return the new value; `u32` overflow is a
        panic, hence the precondition. */
    method GenerateId() returns (id: TicketId)
      requires currentId < U32_MAX
      modifies this`currentId
      ensures id == old(currentId) + 1 && currentId == id
    {
      currentId := currentId + 1;
      id := currentId;
    }

    /** `save(mut ticket)`: stamp the ticket with a fresh id and the clock's reading
        `now`, keep its title, description and status, and store it under the id. */
    method Save(ticket: Ticket, now: Timestamp) returns (id: TicketId)
      requires Valid() && currentId < U32_MAX
      modifies this
      ensures Valid()
      ensures id == old(currentId) + 1 && currentId == id && id !in old(data)
      ensures data == old(data)[id := ticket.(id := Some(id), createdAt := Some(now))]
    {
      id := GenerateId();
      var stamped := ticket.(id := Some(id), createdAt := Some(now));
      data := data[id := stamped];
    }

    /** `get(id)`: the ticket stored under `id`, if there is one. */
    function Get(id: TicketId): (r: Option<Ticket>)
      reads this
      ensures r.Some? <==> id in data
      ensures r.Some? ==> r.value == data[id]
    {
      if id in data then Some(data[id]) else None
    }
  }

  /** Tests `a_ticket_with_a_home`, `a_missing_ticket` and `id_generation_is_monotonic`:
      ids 1, 2, 3, ... in call order; each saved ticket comes back with its id and
      the clock reading of its own `save`, but otherwise as it was given; an id
      that was never handed out finds nothing. */
  method SaveAll(tickets: seq<Ticket>, nows: seq<Timestamp>, probe: TicketId)
    returns (ids: seq<TicketId>, found: seq<Option<Ticket>>, missing: Option<Ticket>)
    requires |tickets| <= U32_MAX && |nows| == |tickets|
    ensures |ids| == |tickets| && forall i :: 0 <= i < |ids| ==> ids[i] == i + 1
    ensures |found| == |tickets|
    ensures forall i :: 0 <= i < |found| ==>
      found[i] == Some(tickets[i].(id := Some(i + 1), createdAt := Some(nows[i])))
    ensures probe == 0 || probe > |tickets| ==> missing == None
  {
    var store := new TicketStore();
    ids := [];
    while |ids| < |tickets|
      invariant |ids| <= |tickets|
      invariant store.Valid() && store.currentId == |ids|
      invariant forall i :: 0 <= i < |ids| ==> ids[i] == i + 1
      invariant forall i :: 0 <= i < |ids| ==> (ids[i] in store.data &&
        store.data[ids[i]] == tickets[i].(id := Some(ids[i]), createdAt := Some(nows[i])))
    {
      var id := store.Save(tickets[|ids|], nows[|ids|]);
      ids := ids + [id];
    }
    found := [];
    while |found| < |tickets|
      invariant |found| <= |tickets|
      invariant forall i :: 0 <= i < |found| ==>
        found[i] == Some(tickets[i].(id := Some(i + 1), createdAt := Some(nows[i])))
    {
      found := found + [store.Get(ids[|found|])];
    }
    missing := store.Get(probe);
  }
}
