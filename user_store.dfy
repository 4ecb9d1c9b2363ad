/**
 * `Database.create_user` of the Python backend, reduced to what it reports:
 * `True` after the insert and commit, or a `ValueError` whose message is
 * chosen from the error that stopped it. Hashing, the query and the commit
 * are not modelled; what went wrong is an input.
 */
module UserStore {
  import opened Common

  const DuplicateEntry := 1062

  /** What stopped `create_user`: an error of the database driver, with its
      `errno` attribute if it has one and its `str()` text, or any other
      exception (from hashing, say) with its text. */
  datatype Failure = DbError(errno: Option<int>, text: string) | OtherError(text: string)

  /** `return True`, `raise ValueError(message)`, or the `AttributeError`
      that reading a missing `errno` raises inside the handler. */
  datatype Outcome = Created | Refused(message: string) | MissingErrno

  function UsernameTaken(username: string): string {
    "Username '" + username + "' already exists"
  }

  function EmailTaken(email: string): string {
    "Email '" + email + "' already exists"
  }

  function DatabaseError(text: string): string {
    "Database error: " + text
  }

  function UnexpectedError(text: string): string {
    "Unexpected error: " + text
  }

  /** `create_user`'s two `except` clauses, as written: a duplicate entry is
      attributed to the username if the error text mentions "username"
      anywhere, else to the email if it mentions "email". */
  function CreateUser(username: string, email: string, failure: Option<Failure>): (r: Outcome)
    ensures r == Created <==> failure.None?
    ensures r == MissingErrno <==> failure.Some? && failure.value.DbError? && failure.value.errno.None?
    ensures r.Refused? && failure.value.OtherError? ==> r.message == UnexpectedError(failure.value.text)
  {
    match failure
    case None => Created
    case Some(DbError(errno, text)) =>
      if errno.None? then MissingErrno
      else if errno.value == DuplicateEntry && Contains(text, "username") then Refused(UsernameTaken(username))
      else if errno.value == DuplicateEntry && Contains(text, "email") then Refused(EmailTaken(email))
      else Refused(DatabaseError(text))
    case Some(OtherError(text)) => Refused(UnexpectedError(text))
  }

  /** A duplicate whose text mentions "username" is reported as a taken
      username, whether or not it also mentions "email". */
  lemma UsernameTakesPrecedence(username: string, email: string, text: string)
    requires Contains(text, "username")
    ensures CreateUser(username, email, Some(DbError(Some(DuplicateEntry), text))) == Refused(UsernameTaken(username))
  {
  }

  /** A duplicate mentioning "email" but not "username" is a taken email. */
  lemma EmailDuplicate(username: string, email: string, text: string)
    requires !Contains(text, "username") && Contains(text, "email")
    ensures CreateUser(username, email, Some(DbError(Some(DuplicateEntry), text))) == Refused(EmailTaken(email))
  {
  }

  /** Every other database error, a duplicate naming neither field included,
      is reported with its text after "Database error: ". */
  lemma OtherDatabaseError(username: string, email: string, errno: int, text: string)
    requires errno != DuplicateEntry || (!Contains(text, "username") && !Contains(text, "email"))
    ensures CreateUser(username, email, Some(DbError(Some(errno), text))) == Refused(DatabaseError(text))
  {
  }

  /** Anything that is not a database error is "Unexpected error: " and its text. */
  lemma NonDatabaseError(username: string, email: string, text: string)
    ensures CreateUser(username, email, Some(OtherError(text))) == Refused(UnexpectedError(text))
  {
  }

  // ---------------------------------------------------------------------------
  // Duplicate entries as the server words them
  // ---------------------------------------------------------------------------

  /** A duplicate-key error: the value that clashed and the unique key it
      clashed on (for the users table, `users.username` or `users.email`). */
  datatype Duplicate = Duplicate(value: string, key: string)

  const DuplicatePrefix := "(1062, \"Duplicate entry '"

  /** `str(e)` of a MySQL duplicate-entry error: the value and then the key. */
  function DuplicateText(d: Duplicate): string {
    DuplicatePrefix + d.value + "' for key '" + d.key + "'\")"
  }

  lemma OccursInMiddle(a: string, b: string, c: string, needle: string)
    requires needle <= b
    ensures OccursAt(a + b + c, needle, |a|)
  {
    assert (a + b + c)[|a|..|a| + |needle|] == b[..|needle|];
  }

  /** As written, a clash on the email whose value happens to contain
      "username" is reported as a taken username. */
  lemma EmailClashReportedAsUsername()
    ensures var d := Duplicate("username@example.com", "users.email");
      CreateUser("bob", "username@example.com", Some(DbError(Some(DuplicateEntry), DuplicateText(d))))
        == Refused(UsernameTaken("bob"))
  {
    var d := Duplicate("username@example.com", "users.email");
    var rest := "' for key '" + d.key + "'\")";
    assert DuplicateText(d) == DuplicatePrefix + d.value + rest;
    OccursInMiddle(DuplicatePrefix, d.value, rest, "username");
    ContainsIffOccurs(DuplicateText(d), "username");
  }

  /** The duplicate-entry branch deciding on the key that clashed rather than
      on the whole text, which also carries the clashing value. */
  function DuplicateMessage(username: string, email: string, d: Duplicate): (r: string)
    ensures Contains(d.key, "username") ==> r == UsernameTaken(username)
    ensures !Contains(d.key, "username") && Contains(d.key, "email") ==> r == EmailTaken(email)
    ensures !Contains(d.key, "username") && !Contains(d.key, "email") ==> r == DatabaseError(DuplicateText(d))
  {
    if Contains(d.key, "username") then UsernameTaken(username)
    else if Contains(d.key, "email") then EmailTaken(email)
    else DatabaseError(DuplicateText(d))
  }

  /** A needle with a character that the haystack lacks does not occur in it. */
  lemma {:induction false} MissingCharNotContained(hay: string, needle: string, k: nat)
    requires k < |needle| && forall j :: 0 <= j < |hay| ==> hay[j] != needle[k]
    ensures !Contains(hay, needle)
    decreases |hay|
  {
    if k < |hay| {
      assert hay[k] != needle[k];
    }
    if |hay| > 0 {
      MissingCharNotContained(hay[1..], needle, k);
    }
  }

  /** The key `users.email` does not contain "username": it has no 'n'. */
  lemma EmailKeyLacksUsername()
    ensures !Contains("users.email", "username")
  {
    MissingCharNotContained("users.email", "username", 4);
  }

  /** The key `users.email` contains "email". */
  lemma EmailKeyHasEmail()
    ensures Contains("users.email", "email")
  {
    var key := "users.email";
    assert key[6..] == "email";
    ContainsIffOccurs(key, "email");
    assert OccursAt(key, "email", 6);
  }

  /** Decided on the key, a clash on the email is reported as a taken email
      whatever the clashing value contains. */
  lemma EmailClashReportedAsEmail(username: string, email: string, value: string)
    ensures DuplicateMessage(username, email, Duplicate(value, "users.email")) == EmailTaken(email)
  {
    EmailKeyLacksUsername();
    EmailKeyHasEmail();
  }

  /** Decided on the key, the report never depends on the clashing value
      when the key names a field. */
  lemma DuplicateMessageIgnoresValue(username: string, email: string, v1: string, v2: string, key: string)
    requires Contains(key, "username") || Contains(key, "email")
    ensures DuplicateMessage(username, email, Duplicate(v1, key)) == DuplicateMessage(username, email, Duplicate(v2, key))
  {
  }
}
