/** The order creation endpoint: validates the request, inserts the order,
    then mails a confirmation to the customer and a notice to the store owner
    on a best-effort basis, so that mail failures never change the answer. */
module OrderCreate {
  import opened Values
  import opened Http

  datatype OrderBody = Error(error: string) | Created(order: Value)

  /** The store's `name` and `owner_email`, read for the notifications. */
  datatype StoreInfo = StoreInfo(name: Value, ownerEmail: Value)

  /** `storeId`, `userId`, `total` and `customerEmail` are all truthy. */
  predicate HasRequiredFields(body: Record) {
    && Truthy(Field(body, "storeId"))
    && Truthy(Field(body, "userId"))
    && Truthy(Field(body, "total"))
    && Truthy(Field(body, "customerEmail"))
  }

  /** The inserted order row: the customer's email is not stored, and a
      missing status is stored as pending. */
  function OrderRow(body: Record): (row: Record)
    ensures row.Keys == {"store_id", "user_id", "total", "status"}
    ensures row["status"] == if Truthy(Field(body, "status")) then Field(body, "status") else Str("pending")
    ensures row["store_id"] == Field(body, "storeId") && row["user_id"] == Field(body, "userId")
    ensures row["total"] == Field(body, "total")
  {
    map[
      "store_id" := Field(body, "storeId"),
      "user_id" := Field(body, "userId"),
      "total" := Field(body, "total"),
      "status" := Or(Field(body, "status"), Str("pending"))
    ]
  }

  /** The notifications, in the order they are attempted: the customer
      always, the owner only when the store has an owner email. */
  function Notifications(customerEmail: Value, store: Option<StoreInfo>): (mails: seq<Effect>)
    ensures 1 <= |mails| <= 2 && mails[0] == SendEmail(customerEmail)
    ensures |mails| == 2 <==> store.Some? && Truthy(store.value.ownerEmail)
    ensures |mails| == 2 ==> mails[1] == SendEmail(store.value.ownerEmail)
  {
    var owner := if store.Some? && Truthy(store.value.ownerEmail) then [SendEmail(store.value.ownerEmail)] else [];
    [SendEmail(customerEmail)] + owner
  }

  /** The handler. `inserted` is what the insert returned (the new row, or
      null); `store` is the store read for the notifications (null when that
      read fails, as its error is ignored). */
  function Handle(req: Request, inserted: Db<Option<Value>>, store: Option<StoreInfo>)
    : (reply: Reply<OrderBody>)
    ensures req.verb != POST ==> reply == Reply(405, Error("Method not allowed"), [])
    ensures req.verb == POST && !HasRequiredFields(req.body) ==>
      reply == Reply(400, Error("Missing required fields"), [])
    ensures (req.verb == POST && HasRequiredFields(req.body)
             && !(inserted.Done? && inserted.data.Some?)) ==>
      reply == Reply(500, Error("Failed to create order"), [Insert("orders", OrderRow(req.body))])
    ensures reply.status in {200, 400, 405, 500}
    ensures reply.status == 500 ==>
      reply == Reply(500, Error("Failed to create order"), [Insert("orders", OrderRow(req.body))])
    ensures reply.status == 200 <==>
      req.verb == POST && HasRequiredFields(req.body) && inserted.Done? && inserted.data.Some?
    ensures reply.status == 200 ==>
      && reply.body == Created(inserted.data.value)
      && reply.effects == [Insert("orders", OrderRow(req.body))]
                          + Notifications(Field(req.body, "customerEmail"), store)
  {
    if req.verb != POST then Reply(405, Error("Method not allowed"), [])
    else if !HasRequiredFields(req.body) then Reply(400, Error("Missing required fields"), [])
    else
      var write := Insert("orders", OrderRow(req.body));
      match inserted
      case Failed(_) => Reply(500, Error("Failed to create order"), [write])
      case Done(None) => Reply(500, Error("Failed to create order"), [write])
      case Done(Some(order)) =>
        Reply(200, Created(order), [write] + Notifications(Field(req.body, "customerEmail"), store))
  }

  /** The body the admin orders page posts: store, user, total and status,
      and no customer email. */
  function AdminOrderForm(storeId: Value, userId: Value, total: Value, status: Value): (body: Record)
    ensures "customerEmail" !in body
  {
    map["storeId" := storeId, "userId" := userId, "total" := total, "status" := status]
  }

  /** Whatever the admin orders page fills in, the endpoint rejects its
      request with 400 and writes nothing. */
  lemma AdminOrderFormAlwaysRejected(storeId: Value, userId: Value, total: Value, status: Value,
                                     query: Record, inserted: Db<Option<Value>>, store: Option<StoreInfo>)
    ensures Handle(Request(POST, AdminOrderForm(storeId, userId, total, status), query), inserted, store)
      == Reply(400, Error("Missing required fields"), [])
  {
    var body := AdminOrderForm(storeId, userId, total, status);
    assert Field(body, "customerEmail") == Undefined;
  }

  /** A total of zero counts as missing. */
  lemma ZeroTotalRejected(body: Record, query: Record, inserted: Db<Option<Value>>, store: Option<StoreInfo>)
    requires Field(body, "total") == Num(0.0)
    ensures Handle(Request(POST, body, query), inserted, store).status == 400
  {
  }
}
