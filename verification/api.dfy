/** Shapes shared by the request handlers: error replies, the
    reply-plus-store pair a handler produces, and JavaScript truthiness of
    request-body fields. */
module Api {
  import opened Wrappers
  import opened UserModel

  /** An error reply; its HTTP status is determined by the constructor. */
  datatype ApiError = BadRequest(message: string) | NotFound(message: string) | ServerError(message: string)
  {
    function Status(): int {
      match this
      case BadRequest(_) => 400
      case NotFound(_) => 404
      case ServerError(_) => 500
    }
  }

  /** What a handler answers and the store it leaves behind. */
  datatype Outcome<+T> = Outcome(response: Result<T, ApiError>, store: Store)

  const MissingFields := "Missing required fields"
  const UserNotFound := "User not found"
  const PlanNotFound := "Plan not found"

  /** A string field is truthy when it is present and non-empty. */
  predicate Present(f: Option<string>) {
    f.Some? && f.value != ""
  }

  /** A number field is truthy when it is present and non-zero. */
  predicate NonZero(f: Option<real>) {
    f.Some? && f.value != 0.0
  }
}
