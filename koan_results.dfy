/** Koan 02_ticket_store/06_results: drafts are built by a constructor that reports a
    broken rule as an error value instead of panicking. */
module KoanResults {
  import opened Wrappers
  import opened Primitives
  import opened TicketStatus
  import opened Validation
  import opened KoanIdGeneration

  /** The error of `TicketDraft::new`; its `Display` writes the message as is. */
  datatype ValidationError = ValidationError(message: string)

  /** The fields of `TicketDraft` are private to its module, so every draft outside it
      comes from `TicketDraft::new` and keeps the validation rules. */
  datatype TicketDraftFields = TicketDraft(title: string, description: string, status: Status)
  type TicketDraft = d: TicketDraftFields | TicketProblem(d.title, d.description) == None
    witness TicketDraft("title", "", ToDo)

  datatype Ticket = Ticket(id: TicketId, title: string, description: string, status: Status,
                           createdAt: Timestamp)

  /** `TicketDraft::new`: the first broken rule as an error, otherwise the draft. */
  function NewTicketDraft(title: string, description: string, status: Status): (r: Result<TicketDraft, ValidationError>)
    ensures title == [] ==> r == Err(ValidationError(EMPTY_TITLE))
    ensures title != [] && ByteLen(title) > 50 ==> r == Err(ValidationError(LONG_TITLE))
    ensures title != [] && ByteLen(title) <= 50 && ByteLen(description) > 3000 ==>
      r == Err(ValidationError(LONG_DESCRIPTION))
    ensures r.Ok? <==> title != [] && ByteLen(title) <= 50 && ByteLen(description) <= 3000
    ensures r.Ok? ==> r.value == TicketDraft(title, description, status)
  {
    match TicketProblem(title, description)
    case Some(message) => Err(ValidationError(message))
    case None => Ok(TicketDraft(title, description, status))
  }

  class TicketStore {
    var data: map<TicketId, Ticket>
    var currentId: TicketId

    /** Every stored ticket carries the key it is stored under, and that key was
        handed out by the counter. */
    ghost predicate Valid()
      reads this
    {
      forall id :: id in data ==> 1 <= id <= currentId && data[id].id == id
    }

    /** `new`: no tickets, counter at 0. */
    constructor ()
      ensures Valid() && data == map[] && currentId == 0
    {
      data := map[];
      currentId := 0;
    }

    /** `generate_id`: increment, then return the new value; `u32` overflow is a
        panic, hence the precondition. */
    method GenerateId() returns (id: TicketId)
      requires currentId < U32_MAX
      modifies this`currentId
      ensures id == old(currentId) + 1 && currentId == id
    {
      currentId := currentId + 1;
      id := currentId;
    }

    /** `save(draft)`: a ticket made of the draft, a fresh id and the clock's reading
        `now`, stored under that id. */
    method Save(draft: TicketDraft, now: Timestamp) returns (id: TicketId)
      requires Valid() && currentId < U32_MAX
      modifies this
      ensures Valid()
      ensures id == old(currentId) + 1 && currentId == id && id !in old(data)
      ensures data == old(data)[id := Ticket(id, draft.title, draft.description, draft.status, now)]
    {
      id := GenerateId();
      data := data[id := Ticket(id, draft.title, draft.description, draft.status, now)];
    }

    /** `get(id)`: the ticket stored under `id`, if there is one. */
    function Get(id: TicketId): (r: Option<Ticket>)
      reads this
      ensures r.Some? <==> id in data
      ensures r.Some? ==> r.value == data[id]
    {
      if id in data then Some(data[id]) else None
    }
  }

  /** Tests `title_cannot_be_empty`, `title_cannot_be_longer_than_fifty_chars` and
      `description_cannot_be_longer_than_3000_chars`, over every input of the lengths
      they draw, with the description test's range starting at 3001: an empty title
      fails, a title of 51 characters or more fails, and a description of 3001
      characters or more fails whatever the title. */
  lemma ValidationTestsFail(title: string, description: string, status: Status)
    ensures NewTicketDraft("", description, status).Err?
    ensures |title| >= 51 ==> NewTicketDraft(title, description, status).Err?
    ensures |description| >= 3001 ==> NewTicketDraft(title, description, status).Err?
  {
  }

  /** The description test draws its length from 3000 up, but 3000 bytes are still
      within the limit: on that draw the draft is built and the test's assertion of
      an error does not hold. */
  lemma DescriptionTestRangeAdmitsValidInput(status: Status)
    ensures NewTicketDraft("a", Repeat('a', 3000), status) == Ok(TicketDraft("a", Repeat('a', 3000), status))
  {
    ByteLenRepeat('a', 3000);
  }

  /** Tests `a_ticket_with_a_home`, `a_missing_ticket` and `id_generation_is_monotonic`,
      with drafts (built by `TicketDraft::new`, as every draft is): the k-th draft saved gets id k and
      comes back with the draft's title, description and status and the clock
      reading of its own `save`; an id that was never handed out finds nothing. */
  method SaveAll(drafts: seq<TicketDraft>, nows: seq<Timestamp>, probe: TicketId)
    returns (ids: seq<TicketId>, found: seq<Option<Ticket>>, missing: Option<Ticket>)
    requires |drafts| <= U32_MAX && |nows| == |drafts|
    ensures |ids| == |drafts| && forall i :: 0 <= i < |ids| ==> ids[i] == i + 1
    ensures |found| == |drafts|
    ensures forall i :: 0 <= i < |found| ==> found[i].Some? && found[i].value.id == ids[i]
    ensures forall i :: 0 <= i < |found| ==> (found[i].Some? &&
      found[i].value.title == drafts[i].title && found[i].value.description == drafts[i].description &&
      found[i].value.status == drafts[i].status && found[i].value.createdAt == nows[i])
    ensures forall i :: 0 <= i < |found| ==> (found[i].Some? &&
      found[i].value.title != [] && ByteLen(found[i].value.title) <= 50 &&
      ByteLen(found[i].value.description) <= 3000)
    ensures probe == 0 || probe > |drafts| ==> missing == None
  {
    var store := new TicketStore();
    ids := [];
    while |ids| < |drafts|
      invariant |ids| <= |drafts|
      invariant store.Valid() && store.currentId == |ids|
      invariant forall i :: 0 <= i < |ids| ==> ids[i] == i + 1
      invariant forall i :: 0 <= i < |ids| ==> (ids[i] in store.data &&
        store.data[ids[i]] == Ticket(ids[i], drafts[i].title, drafts[i].description, drafts[i].status, nows[i]))
    {
      var id := store.Save(drafts[|ids|], nows[|ids|]);
      ids := ids + [id];
    }
    found := [];
    while |found| < |drafts|
      invariant |found| <= |drafts|
      invariant forall i :: 0 <= i < |found| ==>
        found[i] == Some(Ticket(ids[i], drafts[i].title, drafts[i].description, drafts[i].status, nows[i]))
    {
      found := found + [store.Get(ids[|found|])];
    }
    missing := store.Get(probe);
  }
}
