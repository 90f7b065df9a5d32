/** Koan 02_ticket_store/08_delete_and_update: the store gains `update` and `delete`.
    The koan leaves their bodies for the reader to write; they are modelled here as
    the worked answer of 09_store_recap (`KoanStoreRecap`), whose ticket, title,
    description, patch and deleted-ticket types this koan shares. Unlike the recap,
    a draft here carries its status and `save` keeps it. */
module KoanDeleteAndUpdate {
  import opened Wrappers
  import opened Primitives
  import opened TicketStatus
  import opened KoanIdGeneration
  import R = KoanStoreRecap

  type Ticket = R.Ticket
  type TicketTitle = R.TicketTitle
  type TicketDescription = R.TicketDescription
  type TicketPatch = R.TicketPatch
  type DeletedTicket = R.DeletedTicket

  datatype TicketDraft = TicketDraft(title: TicketTitle, description: TicketDescription, status: Status)

  class TicketStore {
    var data: map<TicketId, Ticket>
    var currentId: TicketId

    /** Every stored ticket carries the key it is stored under, and that key was
        handed out by the counter. */
    ghost predicate Valid()
      reads this
    {
      forall id :: id in data ==> 1 <= id <= currentId && data[id].id == id
    }

    /** `new`: no tickets, counter at 0. */
    constructor ()
      ensures Valid() && data == map[] && currentId == 0
    {
      data := map[];
      currentId := 0;
    }

    /** `generate_id`: increment, then return the new value; `u32` overflow is a
        panic, hence the precondition. */
    method GenerateId() returns (id: TicketId)
      requires currentId < U32_MAX
      modifies this`currentId
      ensures id == old(currentId) + 1 && currentId == id
    {
      currentId := currentId + 1;
      id := currentId;
    }

    /** `save(draft)`: a ticket made of the draft (status included), a fresh id, and
        the clock's reading `now` as both creation and update time. */
    method Save(draft: TicketDraft, now: Timestamp) returns (id: TicketId)
      requires Valid() && currentId < U32_MAX
      modifies this
      ensures Valid()
      ensures id == old(currentId) + 1 && currentId == id && id !in old(data)
      ensures data == old(data)[id := R.Ticket(id, draft.title, draft.description, draft.status, now, now)]
    {
      id := GenerateId();
      data := data[id := R.Ticket(id, draft.title, draft.description, draft.status, now, now)];
    }

    /** `get(id)`: the ticket stored under `id`, if there is one. */
    function Get(id: TicketId): (r: Option<Ticket>)
      reads this
      ensures r.Some? <==> id in data
      ensures r.Some? ==> r.value == data[id]
    {
      if id in data then Some(data[id]) else None
    }

    /** `list`: every stored ticket exactly once, in the map's (unspecified) order. */
    method List() returns (tickets: seq<Ticket>)
      requires Valid()
      ensures |tickets| == |data|
      ensures forall i :: 0 <= i < |tickets| ==> tickets[i].id in data && data[tickets[i].id] == tickets[i]
      ensures forall id :: id in data ==> data[id] in tickets
      ensures forall i, j :: 0 <= i < j < |tickets| ==> tickets[i].id != tickets[j].id
    {
      ghost var ids;
      tickets, ids := CollectValues(data);
    }

    /** `update(id, patch)`: patch the ticket under `id` in place, stamping it with the
        clock's reading `now`, and return it; a missing id changes nothing. */
    method Update(id: TicketId, patch: TicketPatch, now: Timestamp) returns (r: Option<Ticket>)
      requires Valid()
      modifies this`data
      ensures Valid()
      ensures id in old(data) ==> data == old(data)[id := R.Patched(old(data)[id], patch, now)] && r == Some(data[id])
      ensures id !in old(data) ==> data == old(data) && r == None
    {
      if id in data {
        var ticket := data[id];
        if patch.title.Some? {
          ticket := ticket.(title := patch.title.value);
        }
        if patch.description.Some? {
          ticket := ticket.(description := patch.description.value);
        }
        if patch.status.Some? {
          ticket := ticket.(status := patch.status.value);
        }
        ticket := ticket.(updatedAt := now);
        data := data[id := ticket];
        r := Some(ticket);
      } else {
        r := None;
      }
    }

    /** `delete(id)`: take the ticket out of the store and hand it back with the
        clock's reading `now` as deletion time; a missing id changes nothing. */
    method Delete(id: TicketId, now: Timestamp) returns (r: Option<DeletedTicket>)
      requires Valid()
      modifies this`data
      ensures Valid()
      ensures id in old(data) ==> r == Some(R.DeletedTicket(old(data)[id], now)) && data == old(data) - {id}
      ensures id !in old(data) ==> r == None && data == old(data)
    {
      if id in data {
        r := Some(R.DeletedTicket(data[id], now));
        data := data - {id};
      } else {
        r := None;
      }
    }
  }

  /** Tests `title_cannot_be_empty`, `title_cannot_be_longer_than_fifty_chars` and
      `description_cannot_be_longer_than_3000_chars`, over every input of the lengths
      they draw: the empty title, any title of 51 characters or more and any
      description of 3001 characters or more are refused. */
  lemma ValidationTestsFail(title: string, description: string)
    ensures R.NewTicketTitle("").Err?
    ensures |title| >= 51 ==> R.NewTicketTitle(title).Err?
    ensures |description| >= 3001 ==> R.NewTicketDescription(description).Err?
  {
  }

  /** Test `updating_nothing_leaves_the_updatable_fields_unchanged`. */
  method UpdateNothing(draft: TicketDraft, created: Timestamp, updated: Timestamp) returns (r: Option<Ticket>)
    ensures r.Some? && r.value.title == draft.title && r.value.description == draft.description
    ensures r.Some? && r.value.status == draft.status
  {
    var store := new TicketStore();
    var id := store.Save(draft, created);
    r := store.Update(id, R.TicketPatch(None, None, None), updated);
  }

  /** Test `update_works`: every field the patch carries is taken over, and the update
      time is the clock's second reading, distinct from the creation time whenever
      the clock has moved on. */
  method UpdateWorks(draft: TicketDraft, patch: TicketPatch, created: Timestamp, updated: Timestamp)
    returns (r: Option<Ticket>)
    requires patch.title.Some? && patch.description.Some? && patch.status.Some?
    ensures r.Some? && r.value.title == patch.title.value && r.value.description == patch.description.value
    ensures r.Some? && r.value.status == patch.status.value
    ensures r.Some? && r.value.createdAt == created && r.value.updatedAt == updated
    ensures created != updated ==> r.Some? && r.value.createdAt != r.value.updatedAt
  {
    var store := new TicketStore();
    var id := store.Save(draft, created);
    r := store.Update(id, patch, updated);
  }

  /** Tests `trying_to_update_a_missing_ticket_returns_none`,
      `deleting_a_missing_ticket_returns_none` and `a_missing_ticket`: on an empty
      store every operation on an id finds nothing. */
  method MissingTicket(id: TicketId, patch: TicketPatch, now: Timestamp)
    returns (updated: Option<Ticket>, deleted: Option<DeletedTicket>, got: Option<Ticket>)
    ensures updated == None && deleted == None && got == None
  {
    var store := new TicketStore();
    updated := store.Update(id, patch, now);
    deleted := store.Delete(id, now);
    got := store.Get(id);
  }

  /** Test `delete_works`: `delete` hands back the ticket `get` saw, after which `get`
      finds nothing and deleting the same id again finds nothing either. */
  method DeleteWorks(draft: TicketDraft, created: Timestamp, deletedAt: Timestamp, againAt: Timestamp)
    returns (before: Option<Ticket>, deleted: Option<DeletedTicket>, after: Option<Ticket>,
             again: Option<DeletedTicket>)
    ensures before.Some? && deleted == Some(R.DeletedTicket(before.value, deletedAt))
    ensures after == None && again == None
  {
    var store := new TicketStore();
    var id := store.Save(draft, created);
    before := store.Get(id);
    deleted := store.Delete(id, deletedAt);
    after := store.Get(id);
    again := store.Delete(id, againAt);
  }

  /** Test `a_ticket_with_a_home` and `id_generation_is_monotonic`: the k-th draft saved
      gets id k and comes back as it was given, created and last updated at the clock
      reading of its own `save`. */
  method SaveAll(drafts: seq<TicketDraft>, nows: seq<Timestamp>) returns (ids: seq<TicketId>, found: seq<Option<Ticket>>)
    requires |drafts| <= U32_MAX && |nows| == |drafts|
    ensures |ids| == |drafts| && forall i :: 0 <= i < |ids| ==> ids[i] == i + 1
    ensures |found| == |drafts|
    ensures forall i :: 0 <= i < |found| ==> (found[i].Some? && found[i].value.id == ids[i] &&
      found[i].value.title == drafts[i].title && found[i].value.description == drafts[i].description &&
      found[i].value.status == drafts[i].status)
    ensures forall i :: 0 <= i < |found| ==> (found[i].Some? &&
      found[i].value.createdAt == found[i].value.updatedAt == nows[i])
  {
    var store := new TicketStore();
    ids := [];
    while |ids| < |drafts|
      invariant |ids| <= |drafts|
      invariant store.Valid() && store.currentId == |ids|
      invariant forall i :: 0 <= i < |ids| ==> ids[i] == i + 1
      invariant forall i :: 0 <= i < |ids| ==> (ids[i] in store.data &&
        store.data[ids[i]] == R.Ticket(ids[i], drafts[i].title, drafts[i].description, drafts[i].status, nows[i], nows[i]))
    {
      var id := store.Save(drafts[|ids|], nows[|ids|]);
      ids := ids + [id];
    }
    found := [];
    while |found| < |drafts|
      invariant |found| <= |drafts|
      invariant forall i :: 0 <= i < |found| ==>
        found[i] == Some(R.Ticket(ids[i], drafts[i].title, drafts[i].description, drafts[i].status, nows[i], nows[i]))
    {
      found := found + [store.Get(ids[|found|])];
    }
  }

  /** Test `ids_are_not_reused`: saving and at once deleting, again and again, each at
      its own clock reading, still hands out 1, 2, 3, ..., and every delete hands back
      the ticket just saved. */
  method IdsAreNotReused(drafts: seq<TicketDraft>, savedAt: seq<Timestamp>, deletedAt: seq<Timestamp>)
    returns (ids: seq<TicketId>, deleted: seq<Option<DeletedTicket>>)
    requires |drafts| <= U32_MAX && |savedAt| == |deletedAt| == |drafts|
    ensures |ids| == |deleted| == |drafts|
    ensures forall i :: 0 <= i < |ids| ==> ids[i] == i + 1
    ensures forall i :: 0 <= i < |deleted| ==> deleted[i] == Some(R.DeletedTicket(
      R.Ticket(ids[i], drafts[i].title, drafts[i].description, drafts[i].status, savedAt[i], savedAt[i]), deletedAt[i]))
  {
    var store := new TicketStore();
    ids, deleted := [], [];
    while |ids| < |drafts|
      invariant |ids| == |deleted| <= |drafts|
      invariant store.Valid() && store.currentId == |ids| && store.data == map[]
      invariant forall i :: 0 <= i < |ids| ==> ids[i] == i + 1
      invariant forall i :: 0 <= i < |deleted| ==> deleted[i] == Some(R.DeletedTicket(
        R.Ticket(ids[i], drafts[i].title, drafts[i].description, drafts[i].status, savedAt[i], savedAt[i]), deletedAt[i]))
    {
      var id := store.Save(drafts[|ids|], savedAt[|ids|]);
      var gone := store.Delete(id, deletedAt[|ids|]);
      ids, deleted := ids + [id], deleted + [gone];
    }
  }

  /** Tests `list_returns_all_tickets` and `list_returns_an_empty_vec_on_an_empty_store`:
      after saving n drafts, each at its own clock reading, the list holds n tickets,
      one per draft. */
  method ListAfterSaving(drafts: seq<TicketDraft>, nows: seq<Timestamp>) returns (listed: seq<Ticket>)
    requires |drafts| <= U32_MAX && |nows| == |drafts|
    ensures |listed| == |drafts|
    ensures forall i :: 0 <= i < |drafts| ==>
      R.Ticket(i + 1, drafts[i].title, drafts[i].description, drafts[i].status, nows[i], nows[i]) in listed
  {
    var store := new TicketStore();
    var ids: seq<TicketId> := [];
    while |ids| < |drafts|
      invariant |ids| <= |drafts|
      invariant store.Valid() && store.currentId == |ids|
      invariant forall i :: 0 <= i < |ids| ==> ids[i] == i + 1
      invariant |store.data| == |ids|
      invariant forall i :: 0 <= i < |ids| ==> (ids[i] in store.data &&
        store.data[ids[i]] == R.Ticket(ids[i], drafts[i].title, drafts[i].description, drafts[i].status, nows[i], nows[i]))
    {
      var id := store.Save(drafts[|ids|], nows[|ids|]);
      ids := ids + [id];
    }
    listed := store.List();
  }

  /** Test `on_a_single_ticket_list_and_get_agree`: with one ticket saved, the list is
      that ticket alone. */
  method ListAndGetAgree(draft: TicketDraft, now: Timestamp) returns (got: Option<Ticket>, listed: seq<Ticket>)
    ensures got.Some? && listed == [got.value]
  {
    var store := new TicketStore();
    var id := store.Save(draft, now);
    got := store.Get(id);
    listed := store.List();
    assert listed[0].id in store.data;
  }
}
