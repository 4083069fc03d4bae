/** The review moderation endpoint: an `action` on a review becomes a new
    `status` for it. The handler reads no HTTP method, so every method runs
    the same logic; `delete` is a soft delete that only sets the status. */
module ReviewModerate {
  import opened Values
  import opened Http

  datatype ModerationBody = Error(error: string) | Success

  /** `update` starts empty and is replaced by each matching `if` in turn. */
  method Moderate(body: Record, updateResult: Outcome) returns (reply: Reply<ModerationBody>)
    ensures !Truthy(Field(body, "id")) || !Truthy(Field(body, "action")) ==>
      reply == Reply(400, Error("Missing id or action"), [])
    ensures Truthy(Field(body, "id")) && Truthy(Field(body, "action")) ==>
      && |reply.effects| == 1
      && reply.effects[0].Update?
      && reply.effects[0].table == "reviews"
      && reply.effects[0].filter == map["id" := Field(body, "id")]
      && reply.effects[0].changes.Keys <= {"status"}
      && (Field(body, "action") == Str("approve") ==> reply.effects[0].changes == map["status" := Str("approved")])
      && (Field(body, "action") == Str("hide") ==> reply.effects[0].changes == map["status" := Str("hidden")])
      && (Field(body, "action") == Str("delete") ==> reply.effects[0].changes == map["status" := Str("deleted")])
      && (Field(body, "action") !in {Str("approve"), Str("hide"), Str("delete")} ==>
            reply.effects[0].changes == map[])
    ensures forall e :: e in reply.effects ==> e.Update?
    ensures reply.status == 200 <==>
      Truthy(Field(body, "id")) && Truthy(Field(body, "action")) && updateResult.Ok?
    ensures reply.status == 200 ==> reply.body == Success
    ensures Truthy(Field(body, "id")) && Truthy(Field(body, "action")) && updateResult.Err? ==>
      reply.status == 500 && reply.body == Error("Failed to update review")
    ensures reply.status in {200, 400, 500}
  {
    var id := Field(body, "id");
    var action := Field(body, "action");
    if !Truthy(id) || !Truthy(action) {
      return Reply(400, Error("Missing id or action"), []);
    }
    var update: Record := map[];
    if action == Str("approve") {
      update := map["status" := Str("approved")];
    }
    if action == Str("hide") {
      update := map["status" := Str("hidden")];
    }
    if action == Str("delete") {
      update := map["status" := Str("deleted")];
    }
    var effects := [Update("reviews", update, map["id" := id])];
    if updateResult.Err? {
      return Reply(500, Error("Failed to update review"), effects);
    }
    return Reply(200, Success, effects);
  }
}
