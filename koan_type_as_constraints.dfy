/** Koan 02_ticket_store/05_type_as_constraints: the store no longer accepts a ticket
    but a draft, and saving the draft is the only way to obtain a `Ticket`, which
    therefore always carries an id and a creation time. */
module KoanTypeAsConstraints {
  import opened Wrappers
  import opened Primitives
  import opened TicketStatus
  import opened Validation
  import opened KoanIdGeneration

  datatype TicketDraft = TicketDraft(title: string, description: string, status: Status)

  datatype Ticket = Ticket(id: TicketId, title: string, description: string, status: Status,
                           createdAt: Timestamp)

  /** `create_ticket_draft`: the three checks of the earlier koans, in the same
      order, then a draft of the given status. */
  function CreateTicketDraft(title: string, description: string, status: Status): (r: Outcome<TicketDraft>)
    ensures title == [] ==> r == Panicked(EMPTY_TITLE)
    ensures title != [] && ByteLen(title) > 50 ==> r == Panicked(LONG_TITLE)
    ensures title != [] && ByteLen(title) <= 50 && ByteLen(description) > 3000 ==> r == Panicked(LONG_DESCRIPTION)
    ensures r.Returned? <==> title != [] && ByteLen(title) <= 50 && ByteLen(description) <= 3000
    ensures r.Returned? ==> r.value == TicketDraft(title, description, status)
  {
    match TicketProblem(title, description)
    case Some(message) => Panicked(message)
    case None => Returned(TicketDraft(title, description, status))
  }

  class TicketStore {
    var data: map<TicketId, Ticket>
    var currentId: TicketId

    /** Every stored ticket carries the key it is stored under, and that key was
        handed out by the counter. */
    ghost predicate Valid()
      reads this
    {
      forall id :: id in data ==> 1 <= id <= currentId && data[id].id == id
    }

    /** `new`: no tickets, counter at 0. */
    constructor ()
      ensures Valid() && data == map[] && currentId == 0
    {
      data := map[];
      currentId := 0;
    }

    /** `generate_id`: increment, then return the new value; `u32` overflow is a
        panic, hence the precondition. */
    method GenerateId() returns (id: TicketId)
      requires currentId < U32_MAX
      modifies this`currentId
      ensures id == old(currentId) + 1 && currentId == id
    {
      currentId := currentId + 1;
      id := currentId;
    }

    /** `save(draft)`: a ticket made of the draft, a fresh id and the clock's reading
        `now`, stored under that id. */
    method Save(draft: TicketDraft, now: Timestamp) returns (id: TicketId)
      requires Valid() && currentId < U32_MAX
      modifies this
      ensures Valid()
      ensures id == old(currentId) + 1 && currentId == id && id !in old(data)
      ensures data == old(data)[id := Ticket(id, draft.title, draft.description, draft.status, now)]
    {
      id := GenerateId();
      data := data[id := Ticket(id, draft.title, draft.description, draft.status, now)];
    }

    /** `get(id)`: the ticket stored under `id`, if there is one. */
    function Get(id: TicketId): (r: Option<Ticket>)
      reads this
      ensures r.Some? <==> id in data
      ensures r.Some? ==> r.value == data[id]
    {
      if id in data then Some(data[id]) else None
    }
  }

  /** Tests `a_ticket_with_a_home`, `a_missing_ticket` and `id_generation_is_monotonic`:
      the k-th draft saved gets id k and comes back with the draft's title,
      description and status and the clock reading of its own `save`; an id that
      was never handed out finds nothing. */
  method SaveAll(drafts: seq<TicketDraft>, nows: seq<Timestamp>, probe: TicketId)
    returns (ids: seq<TicketId>, found: seq<Option<Ticket>>, missing: Option<Ticket>)
    requires |drafts| <= U32_MAX && |nows| == |drafts|
    ensures |ids| == |drafts| && forall i :: 0 <= i < |ids| ==> ids[i] == i + 1
    ensures |found| == |drafts|
    ensures forall i :: 0 <= i < |found| ==> found[i].Some? && found[i].value.id == ids[i]
    ensures forall i :: 0 <= i < |found| ==> (found[i].Some? &&
      found[i].value.title == drafts[i].title && found[i].value.description == drafts[i].description &&
      found[i].value.status == drafts[i].status && found[i].value.createdAt == nows[i])
    ensures probe == 0 || probe > |drafts| ==> missing == None
  {
    var store := new TicketStore();
    ids := [];
    while |ids| < |drafts|
      invariant |ids| <= |drafts|
      invariant store.Valid() && store.currentId == |ids|
      invariant forall i :: 0 <= i < |ids| ==> ids[i] == i + 1
      invariant forall i :: 0 <= i < |ids| ==> (ids[i] in store.data &&
        store.data[ids[i]] == Ticket(ids[i], drafts[i].title, drafts[i].description, drafts[i].status, nows[i]))
    {
      var id := store.Save(drafts[|ids|], nows[|ids|]);
      ids := ids + [id];
    }
    found := [];
    while |found| < |drafts|
      invariant |found| <= |drafts|
      invariant forall i :: 0 <= i < |found| ==>
        found[i] == Some(Ticket(ids[i], drafts[i].title, drafts[i].description, drafts[i].status, nows[i]))
    {
      found := found + [store.Get(ids[|found|])];
    }
    missing := store.Get(probe);
  }
}
