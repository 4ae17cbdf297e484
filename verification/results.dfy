/** Optional values and Go-style `(value, error)` results. An error is carried
    as the text its `Error()` method would print. */
module Results {

  datatype Option<+T> = None | Some(value: T)

  datatype Result<+T> = Success(value: T) | Failure(error: string)

  /** The text of `mgo.ErrNotFound`, returned by a point lookup on an absent `_id`. */
  const ErrNotFound: string := "not found"
}
