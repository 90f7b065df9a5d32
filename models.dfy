/** The validated text types of the ticket application: a ticket title and a ticket
    comment, each built by a constructor that refuses the empty string, and the
    texts these types show when displayed. */
module Models {
  import opened Wrappers
  import opened Primitives

  // ---------------------------------------------------------------------------
  // Title

  /** The wrapped text of a title. Equality is that of the text, as the derived
      `PartialEq` gives. */
  datatype TitleText = Title(title: string)

  /** A ticket title. Its field is private and `Title::new` is the only way to build
      one, so no title is empty. */
  type Title = t: TitleText | t.title != [] witness Title("title")

  datatype TitleError = TitleError(details: string)
  {
    /** `Display` writes the details and nothing else. */
    function ToString(): (s: string)
      ensures s == details
    {
      details
    }
  }

  const EMPTY_TITLE_DETAILS: string := "Title Cannot be empty"

  /** `Title::new`: the empty string is refused; any other text, however long, is
      kept as it is. */
  function NewTitle(title: string): (r: Result<Title, TitleError>)
    ensures r.Ok? <==> title != []
    ensures r.Ok? ==> r.value.title == title
    ensures r.Err? ==> r.error == TitleError(EMPTY_TITLE_DETAILS)
  {
    if title == [] then Err(TitleError(EMPTY_TITLE_DETAILS)) else Ok(Title(title))
  }

  /** Every title `Title::new` can produce is produced from its own text, so building a
      title from a title's text gives it back. */
  lemma TitleRoundTrip(t: Title)
    ensures NewTitle(t.title) == Ok(t)
  {
  }

  /** Test `creating_an_empty_title_should_fail`, with the text the error displays. */
  lemma EmptyTitleFails()
    ensures NewTitle("").Err? && NewTitle("").error.ToString() == "Title Cannot be empty"
  {
  }

  // ---------------------------------------------------------------------------
  // Comment

  /** The wrapped text of a comment. */
  datatype CommentText = Comment(comment: string)

  /** A comment on a ticket. Its field is private and `Comment::new` is the only way
      to build one, so no comment is empty. */
  type Comment = c: CommentText | c.comment != [] witness Comment("comment")

  datatype CommentError = CommentError(details: string)
  {
    /** `Display` writes the details and nothing else. */
    function ToString(): (s: string)
      ensures s == details
    {
      details
    }

    /** The derived `Debug` rendering, `CommentError { details: "..." }`. */
    function DebugText(): (s: string)
      ensures |s| > |details|
    {
      "CommentError { details: " + DebugString(details) + " }"
    }
  }

  const EMPTY_COMMENT_DETAILS: string := "Comment cannot be empty"

  /** `Comment::new`: the empty string is refused; any other text is kept as it is. */
  function NewComment(comment: string): (r: Result<Comment, CommentError>)
    ensures r.Ok? <==> comment != []
    ensures r.Ok? ==> r.value.comment == comment
    ensures r.Err? ==> r.error == CommentError(EMPTY_COMMENT_DETAILS)
  {
    if comment == [] then Err(CommentError(EMPTY_COMMENT_DETAILS)) else Ok(Comment(comment))
  }

  /** Test `creating_empty_comment_should_fail`. */
  lemma EmptyCommentFails()
    ensures NewComment("").Err? && NewComment("").error.ToString() == "Comment cannot be empty"
  {
  }

  /** `Display` for a comment: the label, the text in its `{:?}` form, a newline. */
  function DisplayComment(c: Comment): (s: string)
    ensures |s| >= |c.comment| + 12 && s[|s| - 1] == '\n'
    ensures s[..9] == "Comment: " && s[9] == '"'
  {
    "Comment: " + DebugString(c.comment) + "\n"
  }

  /** For text without quotes, backslashes or control characters, the display is the
      text between quotes after the label. */
  lemma DisplayPlainComment(c: Comment)
    requires forall i :: 0 <= i < |c.comment| ==> !NeedsEscape(c.comment[i])
    ensures DisplayComment(c) == "Comment: \"" + c.comment + "\"\n"
  {
    EscapePlain(c.comment);
  }

  /** Distinct comments display differently: the quoting loses nothing. */
  lemma DisplayCommentInjective(a: Comment, b: Comment)
    requires DisplayComment(a) == DisplayComment(b)
    ensures a == b
  {
    var da, db := DisplayComment(a), DisplayComment(b);
    assert DebugString(a.comment) == da[9..|da| - 1];
    assert DebugString(b.comment) == db[9..|db| - 1];
    DebugStringInjective(a.comment, b.comment);
  }

  // ---------------------------------------------------------------------------
  // The panic of `Comment::new(..).unwrap()`

  /** `sub` occurs in `s` at some position. */
  predicate Contains(s: string, sub: string) {
    exists i :: 0 <= i <= |s| - |sub| && OccursAt(s, sub, i)
  }

  predicate OccursAt(s: string, sub: string, i: nat)
    requires i + |sub| <= |s|
  {
    s[i..i + |sub|] == sub
  }

  /** The message `Result::unwrap` panics with on a comment error. */
  function UnwrapPanic(e: CommentError): (message: string)
    ensures |message| > |e.details|
  {
    "called `Result::unwrap()` on an `Err` value: " + e.DebugText()
  }

  /** When the details need no escaping they appear verbatim in the panic message,
      which is what a test expecting a panic with that text looks for. */
  lemma UnwrapPanicShowsDetails(e: CommentError)
    requires forall i :: 0 <= i < |e.details| ==> !NeedsEscape(e.details[i])
    ensures Contains(UnwrapPanic(e), e.details)
  {
    EscapePlain(e.details);
    var head := "called `Result::unwrap()` on an `Err` value: " + "CommentError { details: " + "\"";
    var tail := "\"" + " }";
    assert UnwrapPanic(e) == head + e.details + tail;
    assert (head + e.details + tail)[|head|..|head| + |e.details|] == e.details;
    assert OccursAt(UnwrapPanic(e), e.details, |head|);
  }

  /** The panic for an empty comment mentions "Comment cannot be empty". */
  lemma EmptyCommentPanicMessage()
    ensures Contains(UnwrapPanic(CommentError(EMPTY_COMMENT_DETAILS)), "Comment cannot be empty")
  {
    UnwrapPanicShowsDetails(CommentError(EMPTY_COMMENT_DETAILS));
  }
}
