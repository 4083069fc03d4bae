/** The admin user-management endpoint: GET lists the profiles, POST creates
    an identity-provider user and its profile, PUT updates a profile, DELETE
    removes the identity-provider user. Every error a collaborator reports is
    thrown and caught by one handler that answers 500 with the error's
    message. The endpoint checks no role. */
module AdminUsers {
  import opened Values
  import opened Http

  datatype UsersBody =
    | Error(error: string)
    | Users(users: Value)
    | UserRow(user: Value)
    | Message(message: string)

  const InternalError := "Internal server error"

  /** The catch block: 500 with the thrown error's message, or a generic
      message when it has none. The writes issued before the throw stand. */
  function Thrown(message: string, effects: seq<Effect>): (reply: Reply<UsersBody>)
    ensures reply.status == 500 && reply.body.Error? && reply.body.error != ""
    ensures message != "" ==> reply.body.error == message
    ensures message == "" ==> reply.body.error == InternalError
    ensures reply.effects == effects
  {
    Reply(500, Error(if message != "" then message else InternalError), effects)
  }

  /** GET: all profiles, newest first (the ordering is the query's). */
  function ListUsers(listed: Db<Value>): (reply: Reply<UsersBody>)
    ensures reply.effects == []
    ensures listed.Done? ==> reply == Reply(200, Users(listed.data), [])
    ensures listed.Failed? ==> reply == Thrown(listed.message, [])
  {
    match listed
    case Failed(m) => Thrown(m, [])
    case Done(users) => Reply(200, Users(users), [])
  }

  /** The profile row POST inserts for a new identity-provider user `id`. */
  function ProfileRow(id: Value, body: Record, now: string): (row: Record)
    ensures row.Keys == {"id", "email", "full_name", "role", "created_at", "updated_at"}
    ensures row["full_name"] == (if Truthy(Field(body, "full_name")) then Field(body, "full_name") else Str(""))
    ensures row["role"] == (if Truthy(Field(body, "role")) then Field(body, "role") else Str("user"))
    ensures row["id"] == id && row["email"] == Field(body, "email")
  {
    map[
      "id" := id,
      "email" := Field(body, "email"),
      "full_name" := Or(Field(body, "full_name"), Str("")),
      "role" := Or(Field(body, "role"), Str("user")),
      "created_at" := Str(now),
      "updated_at" := Str(now)
    ]
  }

  /** The email and password POST requires, both truthy. */
  predicate HasCredentials(body: Record) {
    Truthy(Field(body, "email")) && Truthy(Field(body, "password"))
  }

  /** The identity-provider user POST creates: confirmed at once, with the
      full name as metadata, not defaulted as in the profile row. */
  function AuthUser(body: Record): Effect {
    CreateAuthUser(Field(body, "email"), Field(body, "password"), true, Field(body, "full_name"))
  }

  /** POST. `auth` is what user creation returned (the new user's id, or null
      when no user came back); `profile` is what the profile insert returned;
      `now` stands for the clock. */
  function CreateUser(body: Record, auth: Db<Option<Value>>, profile: Db<Value>, now: string)
    : (reply: Reply<UsersBody>)
    ensures !HasCredentials(body) ==> reply == Reply(400, Error("Email and password are required"), [])
    // The identity-provider user is created first.
    ensures HasCredentials(body) ==> reply.effects != [] && reply.effects[0] == AuthUser(body)
    ensures HasCredentials(body) && auth.Failed? ==> reply == Thrown(auth.message, [AuthUser(body)])
    ensures HasCredentials(body) && auth == Done(None) ==>
      reply == Reply(500, Error("User creation failed"), [AuthUser(body)])
    // The profile row is inserted only for a returned user.
    ensures HasCredentials(body) && auth.Done? && auth.data.Some? ==>
      && reply.effects == [AuthUser(body), Insert("user_profiles", ProfileRow(auth.data.value, body, now))]
      && (profile.Failed? ==> reply == Thrown(profile.message, reply.effects))
      && (profile.Done? ==> reply.status == 201 && reply.body == UserRow(profile.data))
    ensures reply.status == 201 <==> HasCredentials(body) && auth.Done? && auth.data.Some? && profile.Done?
    ensures reply.status in {201, 400, 500}
    ensures reply.status == 500 ==> reply.body.Error? && reply.body.error != ""
  {
    if !HasCredentials(body) then
      Reply(400, Error("Email and password are required"), [])
    else
      var created := [AuthUser(body)];
      match auth
      case Failed(m) => Thrown(m, created)
      case Done(None) => Thrown("User creation failed", created)
      case Done(Some(id)) =>
        var written := created + [Insert("user_profiles", ProfileRow(id, body, now))];
        match profile
        case Failed(m) => Thrown(m, written)
        case Done(p) => Reply(201, UserRow(p), written)
  }

  /** PUT's `updates` object: the timestamp always, the email and role only
      when non-empty, the full name whenever it was supplied, even as an
      empty string, each with the value sent and nothing else. */
  predicate IsProfileUpdate(body: Record, now: string, updates: Record) {
    && updates.Keys <= {"updated_at", "email", "full_name", "role"}
    && "updated_at" in updates && updates["updated_at"] == Str(now)
    && ("email" in updates <==> Truthy(Field(body, "email")))
    && ("full_name" in updates <==> Field(body, "full_name") != Undefined)
    && ("role" in updates <==> Truthy(Field(body, "role")))
    && (forall k :: k in updates && k != "updated_at" ==> updates[k] == Field(body, k))
  }

  /** `updates`, filled field by field. */
  method ProfileUpdates(body: Record, now: string) returns (updates: Record)
    ensures IsProfileUpdate(body, now, updates)
  {
    updates := map["updated_at" := Str(now)];
    var email := Field(body, "email");
    var fullName := Field(body, "full_name");
    var role := Field(body, "role");
    if Truthy(email) {
      updates := updates["email" := email];
    }
    if fullName != Undefined {
      updates := updates["full_name" := fullName];
    }
    if Truthy(role) {
      updates := updates["role" := role];
    }
  }

  /** What PUT answers: 400 without a user id; otherwise one update of that
      profile with the updates above, then 200 with the updated row, or the
      update's error thrown. */
  predicate IsUpdateReply(body: Record, updated: Db<Value>, now: string, reply: Reply<UsersBody>) {
    if !Truthy(Field(body, "userId")) then reply == Reply(400, Error("User ID is required"), [])
    else
      && |reply.effects| == 1
      && reply.effects[0].Update?
      && reply.effects[0].table == "user_profiles"
      && reply.effects[0].filter == map["id" := Field(body, "userId")]
      && IsProfileUpdate(body, now, reply.effects[0].changes)
      && (updated.Failed? ==> reply == Thrown(updated.message, reply.effects))
      && (updated.Done? ==> reply == Reply(200, UserRow(updated.data), reply.effects))
  }

  /** PUT: update the profile whose id is `userId`. */
  method UpdateUser(body: Record, updated: Db<Value>, now: string) returns (reply: Reply<UsersBody>)
    ensures IsUpdateReply(body, updated, now, reply)
    ensures reply.status == 200 <==> Truthy(Field(body, "userId")) && updated.Done?
    ensures reply.status in {200, 400, 500}
  {
    var userId := Field(body, "userId");
    if !Truthy(userId) {
      return Reply(400, Error("User ID is required"), []);
    }
    var updates := ProfileUpdates(body, now);
    var effects := [Update("user_profiles", updates, map["id" := userId])];
    match updated
    case Failed(m) => reply := Thrown(m, effects);
    case Done(data) => reply := Reply(200, UserRow(data), effects);
  }

  /** DELETE's `userId` query value: present, non-empty and a single string. */
  predicate HasDeleteId(query: Record) {
    Truthy(Field(query, "userId")) && Field(query, "userId").Str?
  }

  /** DELETE: remove the identity-provider user named by the `userId` query
      parameter. */
  function DeleteUser(query: Record, deleted: Outcome): (reply: Reply<UsersBody>)
    ensures !HasDeleteId(query) ==> reply == Reply(400, Error("User ID is required"), [])
    ensures HasDeleteId(query) ==>
      && reply.effects == [DeleteAuthUser(Field(query, "userId").s)]
      && (deleted.Err? ==> reply == Thrown(deleted.message, reply.effects))
      && (deleted.Ok? ==> reply == Reply(200, Message("User deleted successfully"), reply.effects))
    ensures reply.status == 200 <==> HasDeleteId(query) && deleted.Ok?
    ensures reply.status in {200, 400, 500}
  {
    if !HasDeleteId(query) then Reply(400, Error("User ID is required"), [])
    else
      var effects := [DeleteAuthUser(Field(query, "userId").s)];
      match deleted
      case Err(m) => Thrown(m, effects)
      case Ok => Reply(200, Message("User deleted successfully"), effects)
  }

  /** Method dispatch; any other method answers 405. */
  method Handle(req: Request, listed: Db<Value>, auth: Db<Option<Value>>, profile: Db<Value>,
                updated: Db<Value>, deleted: Outcome, now: string)
    returns (reply: Reply<UsersBody>)
    ensures req.verb == GET ==> reply == ListUsers(listed)
    ensures req.verb == POST ==> reply == CreateUser(req.body, auth, profile, now)
    ensures req.verb == DELETE ==> reply == DeleteUser(req.query, deleted)
    ensures req.verb == PUT ==> IsUpdateReply(req.body, updated, now, reply)
    ensures req.verb !in {GET, POST, PUT, DELETE} ==> reply == Reply(405, Error("Method not allowed"), [])
    ensures reply.status == 500 ==> reply.body.Error? && reply.body.error != ""
  {
    match req.verb
    case GET => reply := ListUsers(listed);
    case POST => reply := CreateUser(req.body, auth, profile, now);
    case PUT => reply := UpdateUser(req.body, updated, now);
    case DELETE => reply := DeleteUser(req.query, deleted);
    case OtherMethod(_) => reply := Reply(405, Error("Method not allowed"), []);
  }
}
