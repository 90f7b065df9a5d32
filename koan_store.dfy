/** Koan 02_ticket_store/01_store: a first `TicketStore`, a `HashMap` from caller-chosen
    `u32` ids to tickets. `save` and `get` are left for the learner; the tests fix
    them: `save` inserts (a second save under the same id replaces the first) and
    `get` panics when the id is absent. */
module KoanStore {
  import opened Primitives
  import opened TicketStatus
  import opened TicketKoans

  class TicketStore {
    var data: map<uint32, Ticket>

    /** `new`: an empty store. */
    constructor ()
      ensures data == map[]
    {
      data := map[];
    }

    /** `save(ticket, id)`: store `ticket` under `id`, replacing what was there. */
    method Save(ticket: Ticket, id: uint32)
      modifies this
      ensures data == old(data)[id := ticket]
    {
      data := data[id := ticket];
    }

    /** `get(id)` returns `&Ticket` and panics on a missing id, so callers must
        ask only for ids they saved. */
    function Get(id: uint32): (t: Ticket)
      reads this
      requires id in data
      ensures t == data[id]
    {
      data[id]
    }
  }

  /** Tests `a_ticket_with_a_home` and
      `inserting_a_ticket_with_an_existing_id_overwrites_previous_ticket`: what
      `get` returns after each `save` under one id. */
  method SaveTwiceUnderOneId(first: Ticket, second: Ticket, id: uint32) returns (afterFirst: Ticket, afterSecond: Ticket)
    ensures afterFirst == first && afterSecond == second
  {
    var store := new TicketStore();
    store.Save(first, id);
    afterFirst := store.Get(id);
    store.Save(second, id);
    afterSecond := store.Get(id);
  }
}
