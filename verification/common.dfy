/** Values shared by every part of the model: Java's nullable references and the
    exceptions the services raise, both as datatypes. */
module Common {

  /** A Java reference that may be null. */
  datatype Option<+T> = None | Some(value: T)

  /** The exceptions the services throw, as values. */
  datatype Error =
    | IllegalArgument     // IllegalArgumentException: a required argument is missing or invalid
    | ResourceNotFound    // ResourceNotFoundException: the addressed document does not exist
    | UnauthorizedAccess  // UnauthorizedAccessException: the requester does not own the document
    | IOFailure           // IOException raised by the media store or by URL parsing
    | RuntimeFailure      // an unchecked exception (a failed store write, a null dereference, a bad index)

  /** The outcome of a service call that returns a value. */
  datatype Result<+T> = Ok(value: T) | Err(error: Error)

  /** The outcome of a service call declared `void`. */
  datatype Outcome = Done | Fail(error: Error)

  /** `s == null || s.isEmpty()` */
  predicate NullOrEmpty(s: Option<string>)
  {
    s.None? || s.value == ""
  }

  /** The display name written wherever an owner or sender profile is missing. */
  const UnknownUser: string := "Unknown User"
}
