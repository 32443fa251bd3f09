/** Values that cross the boundary between the pages and their collaborators:
    the answers of the hosted database client, the signed-in session and the
    small Option/Result wrappers the pages need. */
module Remote {

  datatype Option<+T> = None | Some(value: T)

  datatype Result<+T, +E> = Ok(value: T) | Err(error: E)

  /** What an awaited `{ data, error }` query call settles to.
      `Rows` is `data` present with no error, `NoRows` is `data === null`
      with no error, `Failed` is a non-null `error`, and `Threw` is a
      rejected await (an exception instead of an answer). */
  datatype Reply<+T> = Rows(data: T) | NoRows | Failed | Threw

  /** What an awaited call that only reports `{ error }` settles to. */
  datatype Status = Succeeded | Failed | Threw

  /** The value the session hook yields: `undefined` while it is still
      being resolved, `null` when nobody is signed in, or a session whose
      user has the given id. */
  datatype Session = Unknown | SignedOut | SignedIn(userId: string)
  {
    /** JavaScript truthiness of the session value (`!session` is its negation). */
    predicate Present() { SignedIn? }
  }

  /** `data || []`: a null answer reads as the empty list. */
  function RowsOrEmpty<T>(r: Reply<seq<T>>): (s: seq<T>)
    requires r.Rows? || r.NoRows?
    ensures r.Rows? ==> s == r.data
    ensures r.NoRows? ==> s == []
  {
    if r.Rows? then r.data else []
  }
}
