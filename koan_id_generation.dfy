/** Koan 02_ticket_store/03_id_generation: the store chooses ids itself, from a counter
    it bumps before every insertion, so the first id is 1 and no id is given twice. */
module KoanIdGeneration {
  import opened Wrappers
  import opened Primitives
  import opened TicketKoans

  /** `type TicketId = u32`. */
  type TicketId = uint32

  class TicketStore {
    var data: map<TicketId, Ticket>
    var currentId: TicketId

    /** Every stored id was handed out by the counter: it lies in 1..current_id. */
    ghost predicate Valid()
      reads this
    {
      forall id :: id in data ==> 1 <= id <= currentId
    }

    /** `new`: no tickets, counter at 0. */
    constructor ()
      ensures Valid() && data == map[] && currentId == 0
    {
      data := map[];
      currentId := 0;
    }

    /** `generate_id`: increment, then return the new value. `current_id += 1`
        overflows at `u32::MAX`, hence the precondition. */
    method GenerateId() returns (id: TicketId)
      requires currentId < U32_MAX
      modifies this`currentId
      ensures id == old(currentId) + 1 && currentId == id
    {
      currentId := currentId + 1;
      id := currentId;
    }

    /** `save(ticket)`: store `ticket` under a fresh id and return that id. The id was
        not a key before, so nothing is overwritten. */
    method Save(ticket: Ticket) returns (id: TicketId)
      requires Valid() && currentId < U32_MAX
      modifies this
      ensures Valid()
      ensures id == old(currentId) + 1 && currentId == id
      ensures id !in old(data)
      ensures data == old(data)[id := ticket]
    {
      id := GenerateId();
      data := data[id := ticket];
    }

    /** `get(id)`: the ticket stored under `id`, if there is one. */
    function Get(id: TicketId): (r: Option<Ticket>)
      reads this
      ensures r.Some? <==> id in data
      ensures r.Some? ==> r.value == data[id]
    {
      if id in data then Some(data[id]) else None
    }
  }

  /** Tests `a_ticket_with_a_home`, `a_missing_ticket` and `id_generation_is_monotonic`:
      saving tickets one after the other into a fresh store hands out 1, 2, 3, ...,
      afterwards every ticket is still found under its own id, and an id that was
      never handed out finds nothing. */
  method SaveAll(tickets: seq<Ticket>, probe: TicketId)
    returns (ids: seq<TicketId>, found: seq<Option<Ticket>>, missing: Option<Ticket>)
    requires |tickets| <= U32_MAX
    ensures |ids| == |tickets| && forall i :: 0 <= i < |ids| ==> ids[i] == i + 1
    ensures |found| == |tickets| && forall i :: 0 <= i < |found| ==> found[i] == Some(tickets[i])
    ensures probe == 0 || probe > |tickets| ==> missing == None
  {
    var store := new TicketStore();
    ids := [];
    while |ids| < |tickets|
      invariant |ids| <= |tickets|
      invariant store.Valid() && store.currentId == |ids|
      invariant forall i :: 0 <= i < |ids| ==> ids[i] == i + 1
      invariant forall i :: 0 <= i < |ids| ==> ids[i] in store.data && store.data[ids[i]] == tickets[i]
    {
      var id := store.Save(tickets[|ids|]);
      ids := ids + [id];
    }
    found := [];
    while |found| < |tickets|
      invariant |found| <= |tickets|
      invariant forall i :: 0 <= i < |found| ==> found[i] == Some(tickets[i])
    {
      found := found + [store.Get(|found| + 1)];
    }
    missing := store.Get(probe);
  }
}
