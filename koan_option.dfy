/** Koan 02_ticket_store/02_option: the same store, whose `get` now answers with an
    `Option` instead of panicking. */
module KoanOption {
  import opened Wrappers
  import opened Primitives
  import opened TicketStatus
  import opened TicketKoans

  class TicketStore {
    var data: map<uint32, Ticket>

    /** `new`: an empty store. */
    constructor ()
      ensures data == map[]
    {
      data := map[];
    }

    /** `save(ticket, id)`: `HashMap::insert`; the entry under `id` is replaced and
        every other entry is left as it was. */
    method Save(ticket: Ticket, id: uint32)
      modifies this
      ensures data == old(data)[id := ticket]
      ensures forall other :: other != id ==> Get(other) == old(Get(other))
    {
      data := data[id := ticket];
    }

    /** `get(id)`: the ticket stored under `id`, if there is one. */
    function Get(id: uint32): (r: Option<Ticket>)
      reads this
      ensures r.Some? <==> id in data
      ensures r.Some? ==> r.value == data[id]
    {
      if id in data then Some(data[id]) else None
    }
  }

  /** Tests `a_ticket_with_a_home` and `a_missing_ticket`: a saved ticket is found
      under its id, and nothing is found in a fresh store. */
  method ATicketWithAHome() returns (found: Option<Ticket>, missing: Option<Ticket>)
    ensures found == Some(Ticket("A ticket title", "An enlightened description", ToDo))
    ensures missing == None
  {
    var ticket := Ticket("A ticket title", "An enlightened description", ToDo);
    var store := new TicketStore();
    missing := store.Get(1);
    store.Save(ticket, 1);
    found := store.Get(1);
  }
}
