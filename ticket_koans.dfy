/** The first chapter of the koans (01_ticket): a ticket is a title, a description and
    a status, and `create_ticket` refuses bad text by panicking. Files 04_visibility,
    05_ownership and 08_recap carry the same `create_ticket` body, and 03_validation
    asks the learner to write it; its tests fix what it must do. */
module TicketKoans {
  import opened Wrappers
  import opened Primitives
  import opened TicketStatus
  import opened Validation

  /** Fields are private in the source and read through `title()`, `description()` and
      `status()`, which hand back the stored values; here they are the datatype's
      destructors. */
  datatype Ticket = Ticket(title: string, description: string, status: Status)

  /** `create_ticket`: panic on an empty title, on a title over 50 bytes, on a
      description over 3000 bytes (checked in that order); otherwise build the ticket. */
  function CreateTicket(title: string, description: string, status: Status): (r: Outcome<Ticket>)
    ensures title == [] ==> r == Panicked(EMPTY_TITLE)
    ensures title != [] && ByteLen(title) > 50 ==> r == Panicked(LONG_TITLE)
    ensures title != [] && ByteLen(title) <= 50 && ByteLen(description) > 3000 ==> r == Panicked(LONG_DESCRIPTION)
    ensures r.Returned? <==> title != [] && ByteLen(title) <= 50 && ByteLen(description) <= 3000
    ensures r.Returned? ==> r.value.title == title && r.value.description == description && r.value.status == status
  {
    match TicketProblem(title, description)
    case Some(message) => Panicked(message)
    case None => Returned(Ticket(title, description, status))
  }

  /** The tests of 03_validation: empty titles, titles of 51 characters or more and
      descriptions of 3001 characters or more panic. */
  lemma ValidationTestsPanic(title: string, description: string, status: Status)
    ensures title == [] ==> CreateTicket(title, description, status).Panicked?
    ensures |title| >= 51 ==> CreateTicket(title, description, status).Panicked?
    ensures |description| >= 3001 ==> CreateTicket(title, description, status).Panicked?
  {
  }

  /** The test `valid_tickets_can_be_created`: 1 to 49 characters of title and 0 to
      2999 of description succeed, provided the text is ASCII. */
  lemma ValidTicketsCanBeCreated(title: string, description: string, status: Status)
    requires 1 <= |title| < 50 && |description| < 3000
    requires IsAscii(title) && IsAscii(description)
    ensures CreateTicket(title, description, status) == Returned(Ticket(title, description, status))
  {
    ByteLenAscii(title);
    ByteLenAscii(description);
  }

  /** Without the ASCII proviso the test's promise fails: 49 characters of four bytes
      each are 196 bytes, and the title is refused. */
  lemma WideTitleOfFortyNineCharactersPanics(status: Status)
    ensures |Repeat(WIDE_CHAR, 49)| == 49
    ensures CreateTicket(Repeat(WIDE_CHAR, 49), "", status) == Panicked(LONG_TITLE)
  {
    ByteLenRepeat(WIDE_CHAR, 49);
  }

  /** The test of 05_ownership: the accessors give back what `create_ticket` got. */
  lemma VerifyWithoutTampering()
    ensures CreateTicket("A title", "A description", ToDo) == Returned(Ticket("A title", "A description", ToDo))
  {
    ByteLenAscii("A title");
    ByteLenAscii("A description");
  }

  /** 06_traits: `PartialEq for Status`, written as a match on the pair. It is the
      structural equality, hence reflexive and symmetric. */
  function StatusEq(a: Status, b: Status): (r: bool)
    ensures r <==> a == b
  {
    match (a, b)
    case (ToDo, ToDo) => true
    case (Done, Done) => true
    case (InProgress, InProgress) => true
    case (Blocked, Blocked) => true
    case _ => false
  }

  /** The test of 06_traits. */
  lemma StatusEqualityTest()
    ensures StatusEq(ToDo, ToDo) && !StatusEq(Done, ToDo)
    ensures !StatusEq(InProgress, ToDo) && StatusEq(InProgress, InProgress)
  {
  }
}
