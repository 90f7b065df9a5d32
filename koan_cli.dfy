/** Koan 03_cli/00_cli: reading a status from the command line and carrying out one
    command against the recap store (`KoanStoreRecap`). Printing is left out; each
    command is modelled by what it does to the store and by its `Ok`/`Err` result. */
module KoanCli {
  import opened Wrappers
  import opened Primitives
  import opened TicketStatus
  import opened Validation
  import opened KoanIdGeneration
  import KoanResults
  import R = KoanStoreRecap

  type ValidationError = KoanResults.ValidationError

  /** The error of `Status::from_str`; its `Display` writes the message as is. */
  datatype ParsingError = ParsingError(message: string)

  /** A subcommand as the argument parser hands it over. */
  datatype Command =
    | Create(description: string, title: string, status: Status)
    | Edit(ticketId: TicketId, newTitle: Option<string>, newDescription: Option<string>, newStatus: Option<Status>)
    | Delete(ticketId: TicketId)
    | List

  /** `Status::from_str`: a known word in any ASCII case, or the fixed error. */
  function ParseStatus(s: string): (r: Result<Status, ParsingError>)
    ensures r.Ok? <==> exists status :: ToLowerAscii(s) in Spellings(status)
    ensures r.Ok? ==> ToLowerAscii(s) in Spellings(r.value)
    ensures r.Err? ==> r.error == ParsingError(INVALID_STATUS)
  {
    match StatusFromKeyword(s)
    case Some(status) => Ok(status)
    case None => Err(ParsingError(INVALID_STATUS))
  }

  /** Test `invalid_status_fails_to_be_parsed`. */
  lemma InvalidStatusFailsToBeParsed()
    ensures ParseStatus("Not a good status") == Err(ParsingError(INVALID_STATUS))
  {
    var word := ToLowerAscii("Not a good status");
    assert |word| == 17;
    assert forall status :: word !in Spellings(status);
  }

  /** `text.map(TicketTitle::new).transpose()`: no title is fine, a given one must be
      valid. */
  function OptionalTitle(title: Option<string>): (r: Result<Option<R.TicketTitle>, ValidationError>)
    ensures title.None? ==> r == Ok(None)
    ensures title.Some? ==> (r.Ok? <==> TitleProblem(title.value) == None)
    ensures title.Some? && r.Ok? ==> r.value == Some(title.value)
    ensures title.Some? && r.Err? ==> r.error.message == TitleProblem(title.value).value
  {
    match title
    case None => Ok(None)
    case Some(text) =>
      match R.NewTicketTitle(text)
      case Ok(valid) => Ok(Some(valid))
      case Err(e) => Err(e)
  }

  /** The same for an optional description. */
  function OptionalDescription(description: Option<string>): (r: Result<Option<R.TicketDescription>, ValidationError>)
    ensures description.None? ==> r == Ok(None)
    ensures description.Some? ==> (r.Ok? <==> DescriptionProblem(description.value) == None)
    ensures description.Some? && r.Ok? ==> r.value == Some(description.value)
    ensures description.Some? && r.Err? ==> r.error.message == LONG_DESCRIPTION
  {
    match description
    case None => Ok(None)
    case Some(text) =>
      match R.NewTicketDescription(text)
      case Ok(valid) => Ok(Some(valid))
      case Err(e) => Err(e)
  }

  /** The patch `Edit` builds, or the first validation error, the title's before the
      description's. The status is passed through as given. */
  function EditPatch(title: Option<string>, description: Option<string>, status: Option<Status>)
    : (r: Result<R.TicketPatch, ValidationError>)
    ensures r.Ok? <==> (title.Some? ==> TitleProblem(title.value) == None) &&
                       (description.Some? ==> DescriptionProblem(description.value) == None)
    ensures title.Some? && TitleProblem(title.value) != None ==>
      r == Err(KoanResults.ValidationError(TitleProblem(title.value).value))
    ensures (title.None? || TitleProblem(title.value) == None) &&
            description.Some? && DescriptionProblem(description.value) != None ==>
              r == Err(KoanResults.ValidationError(LONG_DESCRIPTION))
    ensures r.Ok? ==> r.value.status == status
    ensures r.Ok? ==> (r.value.title.Some? <==> title.Some?) && (title.Some? ==> r.value.title.value == title.value)
    ensures r.Ok? ==> (r.value.description.Some? <==> description.Some?) &&
                      (description.Some? ==> r.value.description.value == description.value)
  {
    match OptionalTitle(title)
    case Err(e) => Err(e)
    case Ok(validTitle) =>
      match OptionalDescription(description)
      case Err(e) => Err(e)
      case Ok(validDescription) => Ok(R.TicketPatch(validTitle, validDescription, status))
  }

  /** `handle_command`, with the clock's reading `now` for the store's timestamps.
      `Create` validates the title, then the description, and saves only when both
      pass; `Edit` validates what it is given and updates; `Delete` deletes; `List`
      only reads. A missing id is reported on the terminal, not as an error, so
      only a validation failure gives `Err`, and then the store is untouched. The
      recap store's drafts have no status, so `Create`'s status is not stored. */
  method HandleCommand(store: R.TicketStore, command: Command, now: Timestamp) returns (r: Result<(), ValidationError>)
    requires store.Valid()
    requires command.Create? ==> store.currentId < U32_MAX
    modifies store
    ensures store.Valid()
    ensures r.Err? ==> store.data == old(store.data) && store.currentId == old(store.currentId)
    ensures command.Create? ==> match TicketProblem(command.title, command.description)
      case Some(message) => r == Err(KoanResults.ValidationError(message))
      case None => (r == Ok(()) && store.currentId == old(store.currentId) + 1 &&
        store.data == old(store.data)[store.currentId :=
          R.Ticket(store.currentId, command.title, command.description, ToDo, now, now)])
    ensures command.Edit? ==> match EditPatch(command.newTitle, command.newDescription, command.newStatus)
      case Err(e) => r == Err(e)
      case Ok(patch) => (r == Ok(()) && store.currentId == old(store.currentId) &&
        store.data == (if command.ticketId in old(store.data)
                       then old(store.data)[command.ticketId := R.Patched(old(store.data)[command.ticketId], patch, now)]
                       else old(store.data)))
    ensures command.Delete? ==> (r == Ok(()) && store.currentId == old(store.currentId) &&
      store.data == old(store.data) - {command.ticketId})
    ensures command.List? ==> r == Ok(()) && store.data == old(store.data) && store.currentId == old(store.currentId)
  {
    match command
    case Create(description, title, status) =>
      var validTitle := R.NewTicketTitle(title);
      if validTitle.Err? {
        return Err(validTitle.error);
      }
      var validDescription := R.NewTicketDescription(description);
      if validDescription.Err? {
        return Err(validDescription.error);
      }
      var _ := store.Save(R.TicketDraft(validTitle.value, validDescription.value), now);
      r := Ok(());
    case Edit(ticketId, title, description, status) =>
      var patch := EditPatch(title, description, status);
      if patch.Err? {
        return Err(patch.error);
      }
      var _ := store.Update(ticketId, patch.value, now);
      r := Ok(());
    case Delete(ticketId) =>
      var _ := store.Delete(ticketId, now);
      r := Ok(());
    case List =>
      var _ := store.List();
      r := Ok(());
  }

  /** A short session on a fresh store: create a ticket, move it to `Done` with `Edit`,
      then delete it. Every step succeeds, the ticket gets id 1 and ends up `Done`
      with its creation time kept, and the store is empty again at the end. */
  method CreateEditDelete(title: string, description: string, t1: Timestamp, t2: Timestamp, t3: Timestamp)
    returns (created: Result<(), ValidationError>, edited: Result<(), ValidationError>,
             afterEdit: Option<R.Ticket>, deleted: Result<(), ValidationError>, left: nat)
    requires TicketProblem(title, description) == None
    ensures created == Ok(()) && edited == Ok(()) && deleted == Ok(())
    ensures afterEdit == Some(R.Ticket(1, title, description, Done, t1, t2))
    ensures left == 0
  {
    var store := new R.TicketStore();
    created := HandleCommand(store, Create(description, title, InProgress), t1);
    edited := HandleCommand(store, Edit(1, None, None, Some(Done)), t2);
    afterEdit := store.Get(1);
    deleted := HandleCommand(store, Delete(1), t3);
    left := |store.data|;
  }
}
