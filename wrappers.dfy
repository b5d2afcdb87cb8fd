/** Optional values and the outcome of a view that looks an object up. */
module Wrappers {

  /** A nullable value: a foreign key set to NULL, an absent form field. */
  datatype Option<+T> = None | Some(value: T)

  /** The result of a view: the looked-up object was found (Ok) or the view
      answered with an HTTP 404 (NotFound) and changed nothing. */
  datatype Result<+T> = Ok(value: T) | NotFound
}
