/** The JSON replies of the table routes. */
module Http {
  import opened Wrappers

  /** A reply with its HTTP status and the body `{ success, message, data }`;
      `data` is present only where the route sends it. */
  datatype Reply<T> = Reply(status: int, success: bool, message: string, data: Option<T>)
}
