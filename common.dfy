/** Values shared by the list view and the detail view. */
module Common {

  /** A value that may be absent (`null` or `undefined` in the views). */
  datatype Option<+T> = None | Some(value: T)

  /**
   * The outcome of one request as the views see it. `fetch` rejects only on a
   * network failure and `response.json()` only on a body that is not JSON, so a
   * response with a failing HTTP status but a JSON (or, for delete, any) body
   * still reaches the success handler: such a response is a `Success` here.
   */
  datatype Outcome<+T> = Success(value: T) | Failure

  /** The kind of toast a handler shows; only the kind is recorded. */
  datatype Notice = SuccessNotice | ErrorNotice

  /** The creator reference every new event is posted with: a fixed placeholder user. */
  const ActingUserId: int := 1
}
