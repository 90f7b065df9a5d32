/** The status of a ticket: a closed set of four values. Every snapshot of the ticket
    code declares this same enum; it is modelled once, together with the keyword
    match that both command-line front ends use to read a status. */
module TicketStatus {
  import opened Wrappers
  import opened Primitives

  datatype Status = ToDo | InProgress | Blocked | Done

  /** What `from_str` reports for a word it does not know. */
  const INVALID_STATUS: string :=
    "The status you specified is not valid. Valid values: todo, inprogress, blocked and done."

  /** The lower-case words that name each status. */
  function Spellings(status: Status): (words: set<string>)
    ensures words != {}
  {
    match status
    case ToDo => {"todo", "to-do"}
    case InProgress => {"inprogress", "in-progress"}
    case Blocked => {"blocked"}
    case Done => {"done"}
  }

  /** No word names two statuses. */
  lemma SpellingsDisjoint(a: Status, b: Status, word: string)
    requires word in Spellings(a) && word in Spellings(b)
    ensures a == b
  {
  }

  /** The body of `from_str`: lowercase the input, then match it against the
      known words; `None` stands for the error or panic branch. */
  function StatusFromKeyword(s: string): (r: Option<Status>)
    ensures forall status :: r == Some(status) <==> ToLowerAscii(s) in Spellings(status)
  {
    var word := ToLowerAscii(s);
    if word == "todo" || word == "to-do" then Some(ToDo)
    else if word == "inprogress" || word == "in-progress" then Some(InProgress)
    else if word == "blocked" then Some(Blocked)
    else if word == "done" then Some(Done)
    else None
  }

  /** Case does not matter: a word and its lower-case form read the same. */
  lemma KeywordCaseInsensitive(s: string)
    ensures StatusFromKeyword(s) == StatusFromKeyword(ToLowerAscii(s))
  {
    ToLowerAsciiIdempotent(s);
  }

  /** Every spelling of every status is read back as that status, in any case. */
  lemma KeywordRoundTrip(status: Status, word: string)
    requires word in Spellings(status)
    ensures StatusFromKeyword(word) == Some(status)
  {
    ToLowerAsciiOfLower(word);
  }
}
