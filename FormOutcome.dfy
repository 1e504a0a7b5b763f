/** What submitting one of the store's forms leads to. */
module FormOutcome {

  /**
   * A guard refused the form with a message and nothing was saved; the record was saved; or
   * the record was handed to the save call and that call failed, with the message shown.
   */
  datatype Outcome<T> =
    | Rejected(message: string)
    | Saved(record: T)
    | SaveFailed(record: T, message: string)
}
