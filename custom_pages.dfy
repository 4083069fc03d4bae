/** The custom pages endpoint: a store, named by its subdomain, lists,
    creates, edits and deletes its own content pages. Edits and deletions
    are filtered by both the page id and the subdomain. */
module CustomPages {
  import opened Values
  import opened Http

  datatype PagesBody =
    | Error(error: string)
    | Rows(data: Value)      // GET: the bare array of pages
    | Pages(pages: Value)    // POST/PUT/DELETE: `{ pages }`, re-read after the write

  const Table := "custom_pages"

  /** `subdomain || req.query.subdomain`: the body's subdomain wins. */
  function StoreSubdomain(req: Request): (s: Value)
    ensures Truthy(Field(req.body, "subdomain")) ==> s == Field(req.body, "subdomain")
    ensures !Truthy(Field(req.body, "subdomain")) ==> s == Field(req.query, "subdomain")
  {
    Or(Field(req.body, "subdomain"), Field(req.query, "subdomain"))
  }

  /** Every named body field is truthy. */
  predicate AllPresent(body: Record, names: seq<string>) {
    forall i :: 0 <= i < |names| ==> Truthy(Field(body, names[i]))
  }

  /** The filter of edits and deletions: this page of this store. */
  function PageFilter(body: Record, subdomain: Value): Record {
    map["id" := Field(body, "id"), "store_subdomain" := subdomain]
  }

  /** The row POST inserts: the page's title, slug and content, in the
      requesting store. */
  function PageRow(body: Record, subdomain: Value): (row: Record)
    ensures row.Keys == {"title", "slug", "content", "store_subdomain"}
    ensures row["store_subdomain"] == subdomain
    ensures forall k :: k in row && k != "store_subdomain" ==> row[k] == Field(body, k)
  {
    map["title" := Field(body, "title"), "slug" := Field(body, "slug"),
        "content" := Field(body, "content"), "store_subdomain" := subdomain]
  }

  /** The changes PUT writes: the title, slug and content, and never the store. */
  function PageChanges(body: Record): (changes: Record)
    ensures changes.Keys == {"title", "slug", "content"}
    ensures forall k :: k in changes ==> changes[k] == Field(body, k)
  {
    map["title" := Field(body, "title"), "slug" := Field(body, "slug"), "content" := Field(body, "content")]
  }

  /** The handler. `selected` is what GET's select returned; `written` what the
      insert, update or delete reported; `refreshed` the data of the list
      re-read after a successful write (null when that read fails, since its
      error is not checked). */
  function Handle(req: Request, selected: Db<Value>, written: Outcome, refreshed: Value)
    : (reply: Reply<PagesBody>)
    // The subdomain is checked before any method is looked at.
    ensures !Truthy(StoreSubdomain(req)) ==> reply == Reply(400, Error("Missing store subdomain"), [])
    ensures Truthy(StoreSubdomain(req)) && req.verb.OtherMethod? ==>
      reply == Reply(405, Error("Method not allowed"), [])
    // A valid request: GET reads, the others issue exactly their write.
    ensures Truthy(StoreSubdomain(req)) && req.verb == GET ==>
      reply == if selected.Done? then Reply(200, Rows(selected.data), [])
               else Reply(500, Error(selected.message), [])
    ensures (Truthy(StoreSubdomain(req)) && req.verb == POST
             && AllPresent(req.body, ["title", "slug", "content"])) ==>
      reply == AfterWrite(written, refreshed, Insert(Table, PageRow(req.body, StoreSubdomain(req))))
    ensures (Truthy(StoreSubdomain(req)) && req.verb == PUT
             && AllPresent(req.body, ["id", "title", "slug", "content"])) ==>
      reply == AfterWrite(written, refreshed,
                          Update(Table, PageChanges(req.body), PageFilter(req.body, StoreSubdomain(req))))
    ensures Truthy(StoreSubdomain(req)) && req.verb == DELETE && Truthy(Field(req.body, "id")) ==>
      reply == AfterWrite(written, refreshed, Remove(Table, PageFilter(req.body, StoreSubdomain(req))))
    // Required fields per method.
    ensures (Truthy(StoreSubdomain(req)) && req.verb == POST
             && !AllPresent(req.body, ["title", "slug", "content"])) ==>
      reply == Reply(400, Error("Missing fields"), [])
    ensures (Truthy(StoreSubdomain(req)) && req.verb == PUT
             && !AllPresent(req.body, ["id", "title", "slug", "content"])) ==>
      reply == Reply(400, Error("Missing fields"), [])
    ensures Truthy(StoreSubdomain(req)) && req.verb == DELETE && !Truthy(Field(req.body, "id")) ==>
      reply == Reply(400, Error("Missing id"), [])
    // At most one write, always inside the requesting store.
    ensures |reply.effects| <= 1
    ensures forall e :: e in reply.effects && e.Insert? ==>
      e.table == Table && "store_subdomain" in e.row && e.row["store_subdomain"] == StoreSubdomain(req)
    ensures forall e :: e in reply.effects && (e.Update? || e.Remove?) ==>
      e.table == Table && e.filter == PageFilter(req.body, StoreSubdomain(req))
    ensures reply.effects != [] ==>
      (req.verb == POST <==> reply.effects[0].Insert?)
      && (req.verb == PUT <==> reply.effects[0].Update?)
      && (req.verb == DELETE <==> reply.effects[0].Remove?)
    // Response shapes.
    ensures reply.status == 200 && req.verb == GET ==> selected.Done? && reply.body == Rows(selected.data)
    ensures reply.status == 200 && req.verb != GET ==> reply.body == Pages(refreshed)
    ensures reply.status == 200 && req.verb != GET ==> written.Ok? && |reply.effects| == 1
    ensures reply.status == 500 ==> (selected.Failed? || written.Err?) && reply.body.Error?
  {
    var s := StoreSubdomain(req);
    var b := req.body;
    if !Truthy(s) then Reply(400, Error("Missing store subdomain"), [])
    else match req.verb
      case GET =>
        (match selected
         case Failed(m) => Reply(500, Error(m), [])
         case Done(data) => Reply(200, Rows(data), []))
      case POST =>
        if !AllPresent(b, ["title", "slug", "content"]) then Reply(400, Error("Missing fields"), [])
        else
          AfterWrite(written, refreshed, Insert(Table, PageRow(b, s)))
      case PUT =>
        if !AllPresent(b, ["id", "title", "slug", "content"]) then Reply(400, Error("Missing fields"), [])
        else
          AfterWrite(written, refreshed, Update(Table, PageChanges(b), PageFilter(b, s)))
      case DELETE =>
        if !Truthy(Field(b, "id")) then Reply(400, Error("Missing id"), [])
        else AfterWrite(written, refreshed, Remove(Table, PageFilter(b, s)))
      case OtherMethod(_) => Reply(405, Error("Method not allowed"), [])
  }

  /** After a write: its error message with 500, or the refreshed list. */
  function AfterWrite(written: Outcome, refreshed: Value, write: Effect): (reply: Reply<PagesBody>)
    ensures reply.effects == [write]
    ensures reply.status == 200 <==> written.Ok?
    ensures written.Ok? ==> reply.body == Pages(refreshed)
    ensures written.Err? ==> reply == Reply(500, Error(written.message), [write])
  {
    match written
    case Err(m) => Reply(500, Error(m), [write])
    case Ok => Reply(200, Pages(refreshed), [write])
  }

  /** A page edit or deletion never reaches a page of another store: the
      write is filtered by the requesting store's subdomain. */
  lemma WritesScopedToStore(req: Request, selected: Db<Value>, written: Outcome, refreshed: Value,
                            e: Effect)
    requires e in Handle(req, selected, written, refreshed).effects
    ensures e.Update? || e.Remove? ==>
      "store_subdomain" in e.filter && e.filter["store_subdomain"] == StoreSubdomain(req)
      && Truthy(e.filter["store_subdomain"])
  {
  }
}
