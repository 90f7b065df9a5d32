/** Koan 02_ticket_store/07_vec: drafts lose their status (every saved ticket starts
    as `ToDo`) and the store learns to list its tickets. */
module KoanVec {
  import opened Wrappers
  import opened Primitives
  import opened TicketStatus
  import opened Validation
  import opened KoanIdGeneration
  import KoanResults

  type ValidationError = KoanResults.ValidationError

  /** As in `KoanResults`, a draft's fields are private and only `TicketDraft::new`
      builds one, so every draft keeps the validation rules. */
  datatype TicketDraftFields = TicketDraft(title: string, description: string)
  type TicketDraft = d: TicketDraftFields | TicketProblem(d.title, d.description) == None
    witness TicketDraft("title", "")

  datatype Ticket = Ticket(id: TicketId, title: string, description: string, status: Status,
                           createdAt: Timestamp)

  /** `TicketDraft::new`: the first broken rule as an error, otherwise the draft. */
  function NewTicketDraft(title: string, description: string): (r: Result<TicketDraft, ValidationError>)
    ensures title == [] ==> r == Err(KoanResults.ValidationError(EMPTY_TITLE))
    ensures title != [] && ByteLen(title) > 50 ==> r == Err(KoanResults.ValidationError(LONG_TITLE))
    ensures title != [] && ByteLen(title) <= 50 && ByteLen(description) > 3000 ==>
      r == Err(KoanResults.ValidationError(LONG_DESCRIPTION))
    ensures r.Ok? <==> title != [] && ByteLen(title) <= 50 && ByteLen(description) <= 3000
    ensures r.Ok? ==> r.value == TicketDraft(title, description)
  {
    match TicketProblem(title, description)
    case Some(message) => Err(KoanResults.ValidationError(message))
    case None => Ok(TicketDraft(title, description))
  }

  /** Tests `title_cannot_be_empty`, `title_cannot_be_longer_than_fifty_chars` and
      `description_cannot_be_longer_than_3000_chars`, over every input of the lengths
      they draw: an empty title fails, a title of 51 characters or more fails, and a
      description of 3001 characters or more fails whatever the title. */
  lemma ValidationTestsFail(title: string, description: string)
    ensures NewTicketDraft("", description).Err?
    ensures |title| >= 51 ==> NewTicketDraft(title, description).Err?
    ensures |description| >= 3001 ==> NewTicketDraft(title, description).Err?
  {
  }

  class TicketStore {
    var data: map<TicketId, Ticket>
    var currentId: TicketId

    /** Every stored ticket carries the key it is stored under, and that key was
        handed out by the counter. */
    ghost predicate Valid()
      reads this
    {
      forall id :: id in data ==> 1 <= id <= currentId && data[id].id == id
    }

    /** `new`: no tickets, counter at 0. */
    constructor ()
      ensures Valid() && data == map[] && currentId == 0
    {
      data := map[];
      currentId := 0;
    }

    /** `generate_id`: increment, then return the new value; `u32` overflow is a
        panic, hence the precondition. */
    method GenerateId() returns (id: TicketId)
      requires currentId < U32_MAX
      modifies this`currentId
      ensures id == old(currentId) + 1 && currentId == id
    {
      currentId := currentId + 1;
      id := currentId;
    }

    /** `save(draft)`: a `ToDo` ticket made of the draft's title and description, a
        fresh id and the clock's reading `now`, stored under that id. */
    method Save(draft: TicketDraft, now: Timestamp) returns (id: TicketId)
      requires Valid() && currentId < U32_MAX
      modifies this
      ensures Valid()
      ensures id == old(currentId) + 1 && currentId == id && id !in old(data)
      ensures data == old(data)[id := Ticket(id, draft.title, draft.description, ToDo, now)]
    {
      id := GenerateId();
      data := data[id := Ticket(id, draft.title, draft.description, ToDo, now)];
    }

    /** `get(id)`: the ticket stored under `id`, if there is one. */
    function Get(id: TicketId): (r: Option<Ticket>)
      reads this
      ensures r.Some? <==> id in data
      ensures r.Some? ==> r.value == data[id]
    {
      if id in data then Some(data[id]) else None
    }

    /** `list`: every stored ticket exactly once, in the map's (unspecified) order. */
    method List() returns (tickets: seq<Ticket>)
      requires Valid()
      ensures |tickets| == |data|
      ensures forall i :: 0 <= i < |tickets| ==> tickets[i].id in data && data[tickets[i].id] == tickets[i]
      ensures forall id :: id in data ==> data[id] in tickets
      ensures forall i, j :: 0 <= i < j < |tickets| ==> tickets[i].id != tickets[j].id
    {
      ghost var ids;
      tickets, ids := CollectValues(data);
    }
  }

  /** Tests `a_ticket_with_a_home`, `a_missing_ticket` and `id_generation_is_monotonic`:
      the k-th draft saved gets id k and comes back as a `ToDo` ticket with the
      draft's title and description, created at the clock reading of its own `save`;
      an id that was never handed out finds nothing. */
  method SaveAll(drafts: seq<TicketDraft>, nows: seq<Timestamp>, probe: TicketId)
    returns (ids: seq<TicketId>, found: seq<Option<Ticket>>, missing: Option<Ticket>)
    requires |drafts| <= U32_MAX && |nows| == |drafts|
    ensures |ids| == |drafts| && forall i :: 0 <= i < |ids| ==> ids[i] == i + 1
    ensures |found| == |drafts|
    ensures forall i :: 0 <= i < |found| ==> (found[i].Some? && found[i].value.id == ids[i] &&
      found[i].value.title == drafts[i].title && found[i].value.description == drafts[i].description &&
      found[i].value.status == ToDo && found[i].value.createdAt == nows[i])
    ensures forall i :: 0 <= i < |found| ==> (found[i].Some? &&
      found[i].value.title != [] && ByteLen(found[i].value.title) <= 50 &&
      ByteLen(found[i].value.description) <= 3000)
    ensures probe == 0 || probe > |drafts| ==> missing == None
  {
    var store := new TicketStore();
    ids := [];
    while |ids| < |drafts|
      invariant |ids| <= |drafts|
      invariant store.Valid() && store.currentId == |ids|
      invariant forall i :: 0 <= i < |ids| ==> ids[i] == i + 1
      invariant forall i :: 0 <= i < |ids| ==> (ids[i] in store.data &&
        store.data[ids[i]] == Ticket(ids[i], drafts[i].title, drafts[i].description, ToDo, nows[i]))
    {
      var id := store.Save(drafts[|ids|], nows[|ids|]);
      ids := ids + [id];
    }
    found := [];
    while |found| < |drafts|
      invariant |found| <= |drafts|
      invariant forall i :: 0 <= i < |found| ==>
        found[i] == Some(Ticket(ids[i], drafts[i].title, drafts[i].description, ToDo, nows[i]))
    {
      found := found + [store.Get(ids[|found|])];
    }
    missing := store.Get(probe);
  }

  /** Tests `list_returns_all_tickets` and `list_returns_an_empty_vec_on_an_empty_store`:
      after saving n drafts, each at its own clock reading, the list holds n tickets,
      one per draft. */
  method ListAfterSaving(drafts: seq<TicketDraft>, nows: seq<Timestamp>) returns (listed: seq<Ticket>)
    requires |drafts| <= U32_MAX && |nows| == |drafts|
    ensures |listed| == |drafts|
    ensures forall i :: 0 <= i < |drafts| ==> Ticket(i + 1, drafts[i].title, drafts[i].description, ToDo, nows[i]) in listed
  {
    var store := new TicketStore();
    var ids: seq<TicketId> := [];
    while |ids| < |drafts|
      invariant |ids| <= |drafts|
      invariant store.Valid() && store.currentId == |ids|
      invariant forall i :: 0 <= i < |ids| ==> ids[i] == i + 1
      invariant |store.data| == |ids|
      invariant forall i :: 0 <= i < |ids| ==> (ids[i] in store.data &&
        store.data[ids[i]] == Ticket(ids[i], drafts[i].title, drafts[i].description, ToDo, nows[i]))
    {
      var id := store.Save(drafts[|ids|], nows[|ids|]);
      ids := ids + [id];
    }
    listed := store.List();
  }

  /** Test `on_a_single_ticket_list_and_get_agree`: with one ticket saved, the list is
      that ticket alone. */
  method ListAndGetAgree(draft: TicketDraft, now: Timestamp) returns (got: Option<Ticket>, listed: seq<Ticket>)
    ensures got.Some? && listed == [got.value]
  {
    var store := new TicketStore();
    var id := store.Save(draft, now);
    got := store.Get(id);
    listed := store.List();
    assert listed[0].id in store.data;
  }
}
