/** The hosted store seen from the page: what each call returns, and a log
    entry for every request the page issues. The store itself is not modelled;
    each handler receives the outcome of its calls as parameters. */
module Remote {
  import opened Records

  /** Outcome of an insert or update: the error object's message on failure. */
  datatype Outcome = Pass | Fail(message: string)

  /** Outcome of a select: the rows (or, with `.single()`, the one row) or an error. */
  datatype Result<T> = Ok(value: T) | Err(message: string)

  /** One request sent to the store. */
  datatype Request =
    | SelectChannels
    | SelectMaintenanceMode
    | SelectUsers
    | SelectUserByCredentials(email: string, password: string)
    | InsertUser(record: SignupRecord)
    | SelectMessages(channelId: string)
    | InsertMessage(message: NewMessage)
    | UpdateUserStatus(userId: string, status: string)
    | UpdateMaintenanceMode(value: bool)
}
