/** The length rules every koan snapshot applies to a ticket's text, with the messages
    it reports. Lengths are `String::len`, that is UTF-8 bytes. */
module Validation {
  import opened Wrappers
  import opened Primitives

  const TITLE_MAX_BYTES: nat := 50
  const DESCRIPTION_MAX_BYTES: nat := 3000

  const EMPTY_TITLE: string := "Title cannot be empty!"
  const LONG_TITLE: string := "A title cannot be longer than 50 characters!"
  const LONG_DESCRIPTION: string := "A description cannot be longer than 3000 characters!"

  /** The message for a rejected title, checking emptiness before length. */
  function TitleProblem(title: string): (m: Option<string>)
    ensures m == None <==> title != [] && ByteLen(title) <= TITLE_MAX_BYTES
    ensures title == [] ==> m == Some(EMPTY_TITLE)
    ensures title != [] && ByteLen(title) > TITLE_MAX_BYTES ==> m == Some(LONG_TITLE)
  {
    if title == [] then Some(EMPTY_TITLE)
    else if ByteLen(title) > TITLE_MAX_BYTES then Some(LONG_TITLE)
    else None
  }

  /** The message for a rejected description; the empty description is fine. */
  function DescriptionProblem(description: string): (m: Option<string>)
    ensures m == None <==> ByteLen(description) <= DESCRIPTION_MAX_BYTES
    ensures m != None ==> m == Some(LONG_DESCRIPTION)
  {
    if ByteLen(description) > DESCRIPTION_MAX_BYTES then Some(LONG_DESCRIPTION) else None
  }

  /** The first failing check of the three, in source order. */
  function TicketProblem(title: string, description: string): (m: Option<string>)
    ensures m == None <==> TitleProblem(title) == None && DescriptionProblem(description) == None
    ensures TitleProblem(title) != None ==> m == TitleProblem(title)
  {
    if TitleProblem(title) != None then TitleProblem(title) else DescriptionProblem(description)
  }

  /** The bounds are inclusive: 50 bytes of title and 3000 of description pass, one
      more byte fails. */
  lemma Boundaries()
    ensures TitleProblem(Repeat('a', 50)) == None
    ensures TitleProblem(Repeat('a', 51)) == Some(LONG_TITLE)
    ensures DescriptionProblem(Repeat('a', 3000)) == None
    ensures DescriptionProblem(Repeat('a', 3001)) == Some(LONG_DESCRIPTION)
  {
    ByteLenRepeat('a', 50);
    ByteLenRepeat('a', 51);
    ByteLenRepeat('a', 3000);
    ByteLenRepeat('a', 3001);
  }

  /** Counted in characters rather than bytes the rules only bracket the outcome: more
      than 50 characters always fails, at most 12 characters always passes, and 13
      four-byte characters already fail. */
  lemma CharactersVersusBytes(title: string)
    ensures |title| > TITLE_MAX_BYTES ==> TitleProblem(title) == Some(LONG_TITLE)
    ensures 1 <= |title| <= 12 ==> TitleProblem(title) == None
    ensures TitleProblem(Repeat(WIDE_CHAR, 13)) == Some(LONG_TITLE)
  {
    ByteLenRepeat(WIDE_CHAR, 13);
  }
}
