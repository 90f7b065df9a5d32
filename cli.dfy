/** The command-line front end of the finished application (`src/main.rs`): reading a
    status, and carrying out one command against the store. Argument parsing,
    loading and saving the store, and printing are left out; the store is passed in
    and each command is modelled by what it does to the store and by its result. */
module Cli {
  import opened Wrappers
  import opened Primitives
  import opened TicketStatus
  import opened Models
  import opened Store

  /** A subcommand as the argument parser hands it over. */
  datatype Command =
    | Create(description: string, title: string)
    | Edit(ticketId: TicketId, newTitle: Option<string>, newDescription: Option<string>)
    | Delete(ticketId: TicketId)
    | List
    | Move(ticketId: TicketId, status: Status)

  /** `Status::from_str`: a known word in any ASCII case. An unknown word panics;
      the `Result` the function is declared to return is never an `Err`. */
  function FromStr(s: string): (r: Outcome<Status>)
    ensures r.Returned? <==> exists status :: ToLowerAscii(s) in Spellings(status)
    ensures r.Returned? ==> ToLowerAscii(s) in Spellings(r.value)
    ensures r.Panicked? ==> r.message == INVALID_STATUS
  {
    match StatusFromKeyword(s)
    case Some(status) => Returned(status)
    case None => Panicked(INVALID_STATUS)
  }

  /** The panic message names four words, and each of them, typed in any ASCII case,
      is read back as its status. */
  lemma FromStrNamesInMessage(s: string)
    ensures Contains(INVALID_STATUS, "todo") && Contains(INVALID_STATUS, "inprogress")
    ensures Contains(INVALID_STATUS, "blocked") && Contains(INVALID_STATUS, "done")
    ensures ToLowerAscii(s) == "todo" ==> FromStr(s) == Returned(ToDo)
    ensures ToLowerAscii(s) == "inprogress" ==> FromStr(s) == Returned(InProgress)
    ensures ToLowerAscii(s) == "blocked" ==> FromStr(s) == Returned(Blocked)
    ensures ToLowerAscii(s) == "done" ==> FromStr(s) == Returned(Done)
  {
    MessageNamesAt("todo", 53);
    MessageNamesAt("inprogress", 59);
    MessageNamesAt("blocked", 71);
    MessageNamesAt("done", 83);
  }

  /** A word the message spells out character by character from position `i` on
      occurs in it. */
  lemma MessageNamesAt(word: string, i: nat)
    requires i + |word| <= |INVALID_STATUS|
    requires forall k :: 0 <= k < |word| ==> INVALID_STATUS[i + k] == word[k]
    ensures Contains(INVALID_STATUS, word)
  {
    assert OccursAt(INVALID_STATUS, word, i);
  }

  /** `title.map(Title::new).transpose()`: no title is fine, a given one must be
      non-empty. */
  function OptionalTitle(title: Option<string>): (r: Result<Option<Title>, TitleError>)
    ensures title.None? ==> r == Ok(None)
    ensures title.Some? ==> (r.Ok? <==> title.value != [])
    ensures title.Some? && r.Ok? ==> r.value == Some(Title(title.value))
    ensures r.Err? ==> r.error == TitleError(EMPTY_TITLE_DETAILS)
  {
    match title
    case None => Ok(None)
    case Some(text) =>
      match NewTitle(text)
      case Ok(valid) => Ok(Some(valid))
      case Err(e) => Err(e)
  }

  /** The body of `main` between loading and saving the store. `Create` refuses an
      empty title before touching the store; `Edit` checks a title only when one is
      given and takes the description as it is; `Delete`, `List` and `Move` always
      succeed. A missing id is reported on the terminal, not as an error, so the
      only `Err` is the title error, and then the store is untouched. */
  method Run(store: TicketStore, command: Command) returns (r: Result<(), TitleError>)
    requires store.Valid()
    requires command.Create? ==> store.currentId < U64_MAX
    modifies store
    ensures store.Valid()
    ensures r.Err? ==> (r.error == TitleError(EMPTY_TITLE_DETAILS) && store.data == old(store.data) &&
      store.currentId == old(store.currentId))
    ensures command.Create? ==> (r.Ok? <==> command.title != [])
    ensures command.Create? && command.title != [] ==> (store.currentId == old(store.currentId) + 1 &&
      store.data == old(store.data)[store.currentId :=
        Ticket(store.currentId, Title(command.title), command.description, ToDo, [])])
    ensures command.Edit? ==> (r.Ok? <==> (command.newTitle.Some? ==> command.newTitle.value != []))
    ensures command.Edit? && r.Ok? ==> (store.currentId == old(store.currentId) &&
      var patch := TicketPatch(OptionalTitle(command.newTitle).value, command.newDescription);
      store.data == (if command.ticketId in old(store.data)
                     then old(store.data)[command.ticketId := ApplyPatch(old(store.data)[command.ticketId], patch)]
                     else old(store.data)))
    ensures command.Delete? ==> (r.Ok? && store.currentId == old(store.currentId) &&
      store.data == old(store.data) - {command.ticketId})
    ensures command.List? ==> r.Ok? && store.data == old(store.data) && store.currentId == old(store.currentId)
    ensures command.Move? ==> (r.Ok? && store.currentId == old(store.currentId) &&
      store.data == (if command.ticketId in old(store.data)
                     then old(store.data)[command.ticketId := old(store.data)[command.ticketId].(status := command.status)]
                     else old(store.data)))
  {
    match command
    case Create(description, title) =>
      var validTitle := NewTitle(title);
      if validTitle.Err? {
        return Err(validTitle.error);
      }
      var _ := store.Create(TicketDraft(validTitle.value, description));
      r := Ok(());
    case Edit(ticketId, title, description) =>
      var validTitle := OptionalTitle(title);
      if validTitle.Err? {
        return Err(validTitle.error);
      }
      var _ := store.UpdateTicket(ticketId, TicketPatch(validTitle.value, description));
      r := Ok(());
    case Delete(ticketId) =>
      var _ := store.Delete(ticketId);
      r := Ok(());
    case List =>
      var _ := store.List();
      r := Ok(());
    case Move(ticketId, status) =>
      var _ := store.UpdateTicketStatus(ticketId, status);
      r := Ok(());
  }

  /** The commands of a session on an empty store: create "Fix bug" and "Write docs",
      move the first to `InProgress`, delete the second. Every command succeeds and
      only the first ticket is left, now in progress. */
  method RunCommands(store: TicketStore) returns (results: seq<Result<(), TitleError>>)
    requires store.Valid() && store.currentId == 0 && store.data == map[]
    modifies store
    ensures store.Valid()
    ensures |results| == 4 && forall i :: 0 <= i < 4 ==> results[i].Ok?
    ensures store.data == map[1 := Ticket(1, Title("Fix bug"), "", InProgress, [])]
  {
    var fixBugText, writeDocsText := "Fix bug", "Write docs";
    assert fixBugText != [] && writeDocsText != [];
    var fixBug := Ticket(1, Title(fixBugText), "", ToDo, []);
    var writeDocs := Ticket(2, Title(writeDocsText), "long text", ToDo, []);
    var r1 := Run(store, Create("", fixBugText));
    assert store.currentId == 1 && store.data == map[1 := fixBug];
    var r2 := Run(store, Create("long text", writeDocsText));
    assert store.currentId == 2 && store.data == map[1 := fixBug, 2 := writeDocs];
    var afterCreates := store.data;
    assert 1 in afterCreates && afterCreates[1] == fixBug;
    var r3 := Run(store, Move(1, InProgress));
    assert store.data == afterCreates[1 := fixBug.(status := InProgress)];
    var afterMove := store.data;
    var r4 := Run(store, Delete(2));
    assert store.data == afterMove - {2};
    results := [r1, r2, r3, r4];
  }

  /** The session on a new store, then `list` and `get(2)`: the list is the first
      ticket alone, in progress, and the deleted second ticket is gone. */
  method Session() returns (results: seq<Result<(), TitleError>>, listed: seq<Ticket>, second: Option<Ticket>)
    ensures |results| == 4 && forall i :: 0 <= i < 4 ==> results[i].Ok?
    ensures listed == [Ticket(1, Title("Fix bug"), "", InProgress, [])]
    ensures second == None
  {
    var store := new TicketStore();
    results := RunCommands(store);
    listed := store.List();
    second := store.Get(2);
    OnlyTicketListed(store.data, listed, Ticket(1, Title("Fix bug"), "", InProgress, []));
  }

  /** A listing of a store holding one ticket is that ticket alone. */
  lemma OnlyTicketListed(data: map<TicketId, Ticket>, listed: seq<Ticket>, t: Ticket)
    requires data == map[t.id := t]
    requires |listed| == |data|
    requires forall i :: 0 <= i < |listed| ==> listed[i].id in data && data[listed[i].id] == listed[i]
    ensures listed == [t]
  {
    assert |listed| == 1;
    assert listed[0].id in data;
  }
}
