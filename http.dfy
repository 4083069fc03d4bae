/** The request/response surface shared by the API route handlers, and the
    vocabulary for what a handler asks its collaborators to do. The database,
    the file storage, the identity provider and the mailer are not modelled:
    every call to one of them is a parameter holding the outcome it returned,
    and every write or message the handler issues is recorded as an `Effect`. */
module Http {
  import opened Values

  datatype Method = GET | POST | PUT | DELETE | OtherMethod(name: string)

  /** `req.method` (as `verb`), `req.body` and `req.query`. */
  datatype Request = Request(verb: Method, body: Record, query: Record)

  /** A write to a collaborator, in the order the handler issues it. A filter
      is the conjunction of `.eq(column, value)` calls. */
  datatype Effect =
    | Insert(table: string, row: Record)
    | Update(table: string, changes: Record, filter: Record)
    | Remove(table: string, filter: Record)
    | Upload(bucket: string, path: string, upsert: bool)       // `upsert` replaces an existing file
    // The identity-provider user: email, password, whether the email counts
    // as confirmed, and the full name stored as user metadata.
    | CreateAuthUser(email: Value, password: Value, emailConfirm: bool, fullName: Value)
    | DeleteAuthUser(userId: string)
    | SendEmail(to: Value)

  /** What a query returned: its `data`, or its `error` with the error's message. */
  datatype Db<+T> = Done(data: T) | Failed(message: string)

  /** What a write that returns no data reported. */
  datatype Outcome = Ok | Err(message: string)

  /** The status code, the JSON body and the writes issued before answering. */
  datatype Reply<+B> = Reply(status: nat, body: B, effects: seq<Effect>)
}
