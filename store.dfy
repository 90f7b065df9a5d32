/** The ticket store of the finished application (`src/store.rs`): tickets under
    numeric ids handed out by a counter, with titles validated by `Title::new` and a
    list of comments per ticket. */
module Store {
  import opened Wrappers
  import opened Primitives
  import opened TicketStatus
  import opened Models

  type TicketId = uint64

  datatype Ticket = Ticket(id: TicketId, title: Title, description: string, status: Status,
                           comments: seq<Comment>)

  datatype TicketDraft = TicketDraft(title: Title, description: string)

  /** The fields to overwrite; `None` leaves a field as it is. */
  datatype TicketPatch = TicketPatch(title: Option<Title>, description: Option<string>)

  /** A ticket taken out of the store. */
  datatype DeletedTicket = DeletedTicket(ticket: Ticket)

  /** What `update_ticket` does to a ticket: title and description are replaced where
      the patch carries them; id, status and comments are kept. */
  function ApplyPatch(ticket: Ticket, patch: TicketPatch): (r: Ticket)
    ensures r.id == ticket.id && r.status == ticket.status && r.comments == ticket.comments
    ensures r.title == (if patch.title.Some? then patch.title.value else ticket.title)
    ensures r.description == (if patch.description.Some? then patch.description.value else ticket.description)
  {
    ticket.(title := if patch.title.Some? then patch.title.value else ticket.title,
            description := if patch.description.Some? then patch.description.value else ticket.description)
  }

  /** An empty patch leaves the ticket as it was. */
  lemma EmptyPatchChangesNothing(ticket: Ticket)
    ensures ApplyPatch(ticket, TicketPatch(None, None)) == ticket
  {
  }

  /** Applying a patch a second time changes nothing more. */
  lemma ApplyPatchIdempotent(ticket: Ticket, patch: TicketPatch)
    ensures ApplyPatch(ApplyPatch(ticket, patch), patch) == ApplyPatch(ticket, patch)
  {
  }

  class TicketStore {
    var currentId: TicketId
    var data: map<TicketId, Ticket>

    /** Every stored ticket carries the key it is stored under, and that key was
        handed out by the counter, so the next id is free. */
    ghost predicate Valid()
      reads this
    {
      forall id :: id in data ==> 1 <= id <= currentId && data[id].id == id
    }

    /** `new`: counter at 0, no tickets. */
    constructor ()
      ensures Valid() && currentId == 0 && data == map[]
    {
      currentId := 0;
      data := map[];
    }

    /** `generate_id`: increment, then return the new value; `u64` overflow is a
        panic, hence the precondition. */
    method GenerateId() returns (id: TicketId)
      requires currentId < U64_MAX
      modifies this`currentId
      ensures id == old(currentId) + 1 && currentId == id
    {
      currentId := currentId + 1;
      id := currentId;
    }

    /** `create(draft)`: a `ToDo` ticket without comments, made of the draft, stored
        under a fresh id. */
    method Create(draft: TicketDraft) returns (id: TicketId)
      requires Valid() && currentId < U64_MAX
      modifies this
      ensures Valid()
      ensures id == old(currentId) + 1 && currentId == id && id !in old(data)
      ensures data == old(data)[id := Ticket(id, draft.title, draft.description, ToDo, [])]
    {
      id := GenerateId();
      var ticket := Ticket(id, draft.title, draft.description, ToDo, []);
      data := data[ticket.id := ticket];
    }

    /** `delete(ticket_id)`: take the ticket out and hand it back; the counter stays
        where it is, so its id is never handed out again. */
    method Delete(ticketId: TicketId) returns (r: Option<DeletedTicket>)
      requires Valid()
      modifies this`data
      ensures Valid()
      ensures ticketId in old(data) ==> r == Some(DeletedTicket(old(data)[ticketId])) && data == old(data) - {ticketId}
      ensures ticketId !in old(data) ==> r == None && data == old(data)
    {
      if ticketId in data {
        r := Some(DeletedTicket(data[ticketId]));
        data := data - {ticketId};
      } else {
        r := None;
      }
    }

    /** `list`: every stored ticket exactly once, in the map's (unspecified) order. */
    method List() returns (tickets: seq<Ticket>)
      requires Valid()
      ensures |tickets| == |data|
      ensures forall i :: 0 <= i < |tickets| ==> tickets[i].id in data && data[tickets[i].id] == tickets[i]
      ensures forall id :: id in data ==> data[id] in tickets
      ensures forall i, j :: 0 <= i < j < |tickets| ==> tickets[i].id != tickets[j].id
    {
      ghost var ids;
      tickets, ids := CollectValues(data);
    }

    /** `get(id)`: the ticket stored under `id`, if there is one. */
    function Get(id: TicketId): (r: Option<Ticket>)
      reads this
      ensures r.Some? <==> id in data
      ensures r.Some? ==> r.value == data[id]
    {
      if id in data then Some(data[id]) else None
    }

    /** `update_ticket(id, patch)`: patch the ticket in place; `None` when there is no
        such ticket, and then nothing changes. */
    method UpdateTicket(id: TicketId, patch: TicketPatch) returns (r: Option<()>)
      requires Valid()
      modifies this`data
      ensures Valid()
      ensures id in old(data) ==> r == Some(()) && data == old(data)[id := ApplyPatch(old(data)[id], patch)]
      ensures id !in old(data) ==> r == None && data == old(data)
    {
      if id in data {
        var ticket := data[id];
        if patch.title.Some? {
          ticket := ticket.(title := patch.title.value);
        }
        if patch.description.Some? {
          ticket := ticket.(description := patch.description.value);
        }
        data := data[id := ticket];
        r := Some(());
      } else {
        r := None;
      }
    }

    /** `update_ticket_status(id, status)`: set the status of one ticket; `None` when
        there is no such ticket, and then nothing changes. */
    method UpdateTicketStatus(id: TicketId, status: Status) returns (r: Option<()>)
      requires Valid()
      modifies this`data
      ensures Valid()
      ensures id in old(data) ==> r == Some(()) && data == old(data)[id := old(data)[id].(status := status)]
      ensures id !in old(data) ==> r == None && data == old(data)
    {
      if id in data {
        data := data[id := data[id].(status := status)];
        r := Some(());
      } else {
        r := None;
      }
    }

    /** `add_comment_to_ticket(id, comment)`: the comment is validated, and unwrapped,
        before the ticket is looked up, so an empty comment panics whether or not the
        ticket exists; otherwise it is appended to the ticket's comments, or `None`
        is returned for a missing ticket. */
    method AddCommentToTicket(id: TicketId, comment: string) returns (r: Outcome<Option<()>>)
      requires Valid()
      modifies this`data
      ensures Valid()
      ensures comment == [] ==> r == Panicked(UnwrapPanic(CommentError(EMPTY_COMMENT_DETAILS))) && data == old(data)
      ensures comment != [] && id in old(data) ==> (r == Returned(Some(())) &&
        data == old(data)[id := old(data)[id].(comments := old(data)[id].comments + [Comment(comment)])])
      ensures comment != [] && id !in old(data) ==> r == Returned(None) && data == old(data)
    {
      var newComment := NewComment(comment);
      if newComment.Err? {
        return Panicked(UnwrapPanic(newComment.error));
      }
      if id in data {
        var ticket := data[id];
        data := data[id := ticket.(comments := ticket.comments + [newComment.value])];
        r := Returned(Some(()));
      } else {
        r := Returned(None);
      }
    }
  }

  /** Test `create_ticket_test`, for any number of drafts: the k-th `create` on a new
      store returns k, and `get(k)` is a `ToDo` ticket without comments holding the
      k-th draft's title and description. */
  method CreateAll(drafts: seq<TicketDraft>) returns (ids: seq<TicketId>, found: seq<Option<Ticket>>)
    requires |drafts| <= U64_MAX
    ensures |ids| == |drafts| && forall i :: 0 <= i < |ids| ==> ids[i] == i + 1
    ensures |found| == |drafts|
    ensures forall i :: 0 <= i < |found| ==> found[i] == Some(Ticket(i + 1, drafts[i].title, drafts[i].description, ToDo, []))
  {
    var store := new TicketStore();
    ids := [];
    while |ids| < |drafts|
      invariant |ids| <= |drafts|
      invariant store.Valid() && store.currentId == |ids|
      invariant forall i :: 0 <= i < |ids| ==> ids[i] == i + 1
      invariant forall i :: 0 <= i < |ids| ==> (ids[i] in store.data &&
        store.data[ids[i]] == Ticket(ids[i], drafts[i].title, drafts[i].description, ToDo, []))
    {
      var id := store.Create(drafts[|ids|]);
      ids := ids + [id];
    }
    found := [];
    while |found| < |drafts|
      invariant |found| <= |drafts|
      invariant forall i :: 0 <= i < |found| ==>
        found[i] == Some(Ticket(ids[i], drafts[i].title, drafts[i].description, ToDo, []))
    {
      found := found + [store.Get(ids[|found|])];
    }
  }

  /** Tests `listing_tickets_of_an_empty_store_returns_an_empty_collection` and
      `listing_tickets_should_return_them_all`: after n creates the list has n
      entries and, as a set, is exactly the tickets `get` returned after each
      create. */
  method ListAll(drafts: seq<TicketDraft>) returns (created: seq<Ticket>, listed: seq<Ticket>)
    requires |drafts| <= U64_MAX
    ensures |created| == |listed| == |drafts|
    ensures forall t :: t in listed <==> t in created
  {
    var store := new TicketStore();
    created := [];
    while |created| < |drafts|
      invariant |created| <= |drafts|
      invariant store.Valid() && store.currentId == |created| && |store.data| == |created|
      invariant forall i :: 0 <= i < |created| ==> created[i].id == i + 1
      invariant forall i :: 0 <= i < |created| ==> created[i].id in store.data && store.data[created[i].id] == created[i]
    {
      var id := store.Create(drafts[|created|]);
      var ticket := store.Get(id);
      created := created + [ticket.value];
    }
    listed := store.List();
    forall t | t in listed ensures t in created {
      var k :| 0 <= k < |listed| && listed[k] == t;
      assert created[t.id - 1] == t;
    }
  }

  /** Tests `delete_ticket_test` and `deleting_a_ticket_that_does_not_exist_returns_none`:
      delete hands back the ticket `get` saw, after which `get` finds nothing; on a
      new store there is nothing to delete. */
  method DeleteTicket(draft: TicketDraft, missing: TicketId)
    returns (inserted: Option<Ticket>, deleted: Option<DeletedTicket>, after: Option<Ticket>, nothing: Option<DeletedTicket>)
    ensures inserted.Some? && deleted == Some(DeletedTicket(inserted.value)) && after == None
    ensures nothing == None
  {
    var store := new TicketStore();
    var id := store.Create(draft);
    inserted := store.Get(id);
    deleted := store.Delete(id);
    after := store.Get(id);
    var empty := new TicketStore();
    nothing := empty.Delete(missing);
  }

  /** Tests `updating_ticket_info_via_patch_should_update_ticket`,
      `updating_ticket_with_no_patch_vaules_should_not_fail_or_change_values` and
      `updating_ticket_status_should_change_ticket_to_new_status`. */
  method UpdateTickets(draft: TicketDraft, title: Title, description: string)
    returns (patched: Option<Ticket>, untouched: Option<Ticket>, moved: Option<Ticket>)
    ensures patched.Some? && patched.value.title == title && patched.value.description == description
    ensures untouched == Some(Ticket(1, draft.title, draft.description, ToDo, []))
    ensures moved.Some? && moved.value.status == Done
  {
    var store := new TicketStore();
    var first := store.Create(draft);
    var second := store.Create(draft);
    var third := store.Create(draft);
    var _ := store.UpdateTicket(second, TicketPatch(Some(title), Some(description)));
    patched := store.Get(second);
    var _ := store.UpdateTicket(first, TicketPatch(None, None));
    untouched := store.Get(first);
    var _ := store.UpdateTicketStatus(third, Done);
    moved := store.Get(third);
  }

  /** Tests `add_comment_to_ticket`, `add_comment_to_invalid_ticket_id_returns_none`
      (on a store of its own, where every id is missing) and
      `add_comment_to_ticket_with_empty_comment`. The comment text is non-empty, as
      the generated text of the first two tests is. */
  method AddComment(draft: TicketDraft, text: string, missing: TicketId)
    returns (added: Outcome<Option<()>>, comments: nat, onMissing: Outcome<Option<()>>, empty: Outcome<Option<()>>)
    requires text != []
    ensures added == Returned(Some(())) && comments == 1
    ensures onMissing == Returned(None)
    ensures empty.Panicked? && Contains(empty.message, "Comment cannot be empty")
  {
    var store := new TicketStore();
    var id := store.Create(draft);
    added := store.AddCommentToTicket(id, text);
    comments := |store.data[id].comments|;
    var emptyStore := new TicketStore();
    onMissing := emptyStore.AddCommentToTicket(missing, text);
    empty := store.AddCommentToTicket(id, "");
    EmptyCommentPanicMessage();
  }
}
