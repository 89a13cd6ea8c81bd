/**
 * The shapes in which the backend's query and mutation calls answer: a
 * `{data, error}` pair, or an exception thrown by the call itself.
 */
module Backend {
  import opened Wrappers

  /** A database error as reported by the backend: a Postgres code and a message. */
  datatype DbError = DbError(code: string, message: string)

  /** Answer of a `select`: `data` may be `null` even without an error. */
  datatype QueryResponse<T> =
    | QueryResult(data: Option<T>, error: Option<DbError>)
    | QueryThrew(message: string)

  /** Answer of an `insert` or `delete`. */
  datatype MutationResponse =
    | MutationResult(error: Option<DbError>)
    | MutationThrew(message: string)

  /** The notification a handler raises. */
  datatype Notice = SuccessToast(text: string) | ErrorToast(text: string) | NoToast

  const UnexpectedError := "Unexpected error occurred"
}
