/** The team creation endpoint: inserts the team, then adds its creator as
    an admin member. The two inserts are not a transaction: a failed
    membership insert leaves the team in place. */
module TeamCreate {
  import opened Values
  import opened Http

  datatype TeamBody = Error(error: string) | Created(team: Record)

  /** The creator's membership of the new team. */
  function CreatorMembership(team: Record, userId: Value): (row: Record)
    ensures row.Keys == {"team_id", "user_id", "role", "invited_by"}
    ensures row["team_id"] == Field(team, "id")
    ensures row["role"] == Str("admin") && row["user_id"] == userId && row["invited_by"] == userId
  {
    map["team_id" := Field(team, "id"), "user_id" := userId, "role" := Str("admin"), "invited_by" := userId]
  }

  /** A name and a user id, both truthy. */
  predicate HasRequiredFields(body: Record) {
    Truthy(Field(body, "name")) && Truthy(Field(body, "userId"))
  }

  /** The team row: its name and its creator. */
  function TeamWrite(body: Record): Effect {
    Insert("teams", map["name" := Field(body, "name"), "created_by" := Field(body, "userId")])
  }

  /** The handler. `teamInserted` is what the team insert returned (the new
      row, or null); `memberInserted` what the membership insert reported. */
  function Handle(req: Request, teamInserted: Db<Option<Record>>, memberInserted: Outcome)
    : (reply: Reply<TeamBody>)
    ensures req.verb != POST ==> reply == Reply(405, Error("Method not allowed"), [])
    ensures req.verb == POST && !HasRequiredFields(req.body) ==>
      reply == Reply(400, Error("Missing required fields"), [])
    // A valid request always inserts the team first.
    ensures req.verb == POST && HasRequiredFields(req.body) ==>
      reply.effects != [] && reply.effects[0] == TeamWrite(req.body)
    // A failed team insert stops before the membership insert.
    ensures (req.verb == POST && HasRequiredFields(req.body)
             && !(teamInserted.Done? && teamInserted.data.Some?)) ==>
      reply == Reply(500, Error("Failed to create team"), [TeamWrite(req.body)])
    // A created team is followed by the creator's membership.
    ensures (req.verb == POST && HasRequiredFields(req.body)
             && teamInserted.Done? && teamInserted.data.Some?) ==>
      reply.effects == [TeamWrite(req.body),
                        Insert("team_members", CreatorMembership(teamInserted.data.value, Field(req.body, "userId")))]
    // A failed membership insert is reported, and the team stays.
    ensures (req.verb == POST && HasRequiredFields(req.body)
             && teamInserted.Done? && teamInserted.data.Some? && memberInserted.Err?) ==>
      reply.status == 500 && reply.body == Error("Team created, but failed to add creator as admin.")
    ensures forall e :: e in reply.effects ==> e.Insert?
    ensures reply.status == 200 <==>
      (&& req.verb == POST && HasRequiredFields(req.body)
       && teamInserted.Done? && teamInserted.data.Some? && memberInserted.Ok?)
    ensures reply.status == 200 ==> reply.body == Created(teamInserted.data.value)
  {
    var userId := Field(req.body, "userId");
    if req.verb != POST then Reply(405, Error("Method not allowed"), [])
    else if !HasRequiredFields(req.body) then Reply(400, Error("Missing required fields"), [])
    else
      var teamWrite := TeamWrite(req.body);
      match teamInserted
      case Failed(_) => Reply(500, Error("Failed to create team"), [teamWrite])
      case Done(None) => Reply(500, Error("Failed to create team"), [teamWrite])
      case Done(Some(team)) =>
        var effects := [teamWrite, Insert("team_members", CreatorMembership(team, userId))];
        match memberInserted
        case Err(_) => Reply(500, Error("Team created, but failed to add creator as admin."), effects)
        case Ok => Reply(200, Created(team), effects)
  }
}

/** The team invitation endpoint: looks the invitee up by email and adds
    them to the team with the requested role, `member` by default. */
module TeamInvite {
  import opened Values
  import opened Http

  datatype InviteBody = Error(error: string) | Message(message: string)

  /** `role = 'member'` in the destructuring: only an absent role defaults. */
  function InviteRole(body: Record): (role: Value)
    ensures Field(body, "role") == Undefined ==> role == Str("member")
    ensures Field(body, "role") != Undefined ==> role == Field(body, "role")
  {
    DefaultIfUndefined(Field(body, "role"), Str("member"))
  }

  predicate HasRequiredFields(body: Record) {
    Truthy(Field(body, "teamId")) && Truthy(Field(body, "email")) && Truthy(Field(body, "invitedBy"))
  }

  /** The invitee's membership: the team, the found user, the role and the inviter. */
  function InviteMembership(body: Record, user: Record): (row: Record)
    ensures row.Keys == {"team_id", "user_id", "role", "invited_by"}
    ensures row["team_id"] == Field(body, "teamId") && row["user_id"] == Field(user, "id")
    ensures row["role"] == InviteRole(body) && row["invited_by"] == Field(body, "invitedBy")
  {
    map["team_id" := Field(body, "teamId"), "user_id" := Field(user, "id"),
        "role" := InviteRole(body), "invited_by" := Field(body, "invitedBy")]
  }

  /** The handler. `found` is the profile looked up by email (null when
      nobody has that email); `inserted` what the membership insert reported. */
  function Handle(req: Request, found: Db<Option<Record>>, inserted: Outcome): (reply: Reply<InviteBody>)
    ensures req.verb != POST ==> reply == Reply(405, Error("Method not allowed"), [])
    ensures req.verb == POST && !HasRequiredFields(req.body) ==>
      reply == Reply(400, Error("Missing required fields"), [])
    ensures (req.verb == POST && HasRequiredFields(req.body) && !(found.Done? && found.data.Some?)) ==>
      reply == Reply(404, Error("User not found. Ask them to sign up first."), [])
    // A found user is always inserted, and the answer follows the insert.
    ensures (req.verb == POST && HasRequiredFields(req.body) && found.Done? && found.data.Some?) ==>
      && reply.effects == [Insert("team_members", InviteMembership(req.body, found.data.value))]
      && (inserted.Err? ==> reply == Reply(500, Error("Failed to add user to team."), reply.effects))
      && (inserted.Ok? ==> reply == Reply(200, Message("User invited successfully!"), reply.effects))
    ensures reply.effects != [] ==> found.Done? && found.data.Some?
    ensures reply.status == 200 <==>
      req.verb == POST && HasRequiredFields(req.body) && found.Done? && found.data.Some? && inserted.Ok?
  {
    var b := req.body;
    if req.verb != POST then Reply(405, Error("Method not allowed"), [])
    else if !HasRequiredFields(b) then Reply(400, Error("Missing required fields"), [])
    else match found
      case Failed(_) => Reply(404, Error("User not found. Ask them to sign up first."), [])
      case Done(None) => Reply(404, Error("User not found. Ask them to sign up first."), [])
      case Done(Some(user)) =>
        var write := Insert("team_members", InviteMembership(b, user));
        match inserted
        case Err(_) => Reply(500, Error("Failed to add user to team."), [write])
        case Ok => Reply(200, Message("User invited successfully!"), [write])
  }
}

/** The team members endpoint: the memberships of a team, flattened to
    `{ id, email, role }`. */
module TeamMembers {
  import opened Values
  import opened Http

  /** A membership row with its joined profile (null when there is none). */
  datatype MemberRow = MemberRow(id: Value, role: Value, profile: Option<Record>)

  datatype Member = Member(id: Value, email: Value, role: Value)

  datatype MembersBody = Error(error: string) | Members(members: seq<Member>)

  /** `m.user_profiles?.email || ''`. */
  function ProfileEmail(profile: Option<Record>): (email: Value)
    ensures profile.None? ==> email == Str("")
    ensures Truthy(email) || email == Str("")
    ensures profile.Some? && Truthy(Field(profile.value, "email")) ==> email == Field(profile.value, "email")
    ensures profile.Some? && !Truthy(Field(profile.value, "email")) ==> email == Str("")
  {
    match profile
    case None => Str("")
    case Some(p) => Or(Field(p, "email"), Str(""))
  }

  /** The flattening `.map`: one member per row, in row order. */
  function Flatten(rows: seq<MemberRow>): (members: seq<Member>)
    ensures |members| == |rows|
    ensures forall i :: 0 <= i < |rows| ==>
      members[i] == Member(rows[i].id, ProfileEmail(rows[i].profile), rows[i].role)
  {
    if rows == [] then []
    else [Member(rows[0].id, ProfileEmail(rows[0].profile), rows[0].role)] + Flatten(rows[1..])
  }

  /** The handler. `fetched` is what the membership query returned (null
      data reads as no rows). */
  function Handle(req: Request, fetched: Db<Option<seq<MemberRow>>>): (reply: Reply<MembersBody>)
    ensures reply.effects == []
    ensures req.verb != GET ==> reply == Reply(405, Error("Method not allowed"), [])
    ensures req.verb == GET && !Truthy(Field(req.query, "teamId")) ==> reply == Reply(400, Error("Missing teamId"), [])
    ensures reply.status == 500 ==> fetched.Failed? && reply.body == Error("Failed to fetch members")
    ensures reply.status == 200 <==> req.verb == GET && Truthy(Field(req.query, "teamId")) && fetched.Done?
    ensures (req.verb == GET && Truthy(Field(req.query, "teamId")) && fetched.Failed?) ==>
      reply == Reply(500, Error("Failed to fetch members"), [])
    ensures reply.status == 200 && fetched.data.None? ==> reply.body == Members([])
    ensures reply.status == 200 && fetched.data.Some? ==> reply.body == Members(Flatten(fetched.data.value))
  {
    if req.verb != GET then Reply(405, Error("Method not allowed"), [])
    else if !Truthy(Field(req.query, "teamId")) then Reply(400, Error("Missing teamId"), [])
    else match fetched
      case Failed(_) => Reply(500, Error("Failed to fetch members"), [])
      case Done(rows) => Reply(200, Members(Flatten(if rows.Some? then rows.value else [])), [])
  }
}

/** The team list endpoint: the teams a user is a member of. */
module TeamList {
  import opened Values
  import opened Http

  /** A membership row with its joined team (null when the join found none). */
  datatype Membership = Membership(teamId: Value, teams: Value)

  datatype TeamsBody = Error(error: string) | Teams(teams: seq<Value>)

  /** `.map(m => m.teams).filter(Boolean)`. */
  function PresentTeams(ms: seq<Membership>): (teams: seq<Value>)
    ensures |teams| <= |ms|
    ensures forall j :: 0 <= j < |teams| ==> Truthy(teams[j])
    ensures forall i :: 0 <= i < |ms| && Truthy(ms[i].teams) ==> ms[i].teams in teams
    ensures forall t :: t in teams ==> exists i :: 0 <= i < |ms| && ms[i].teams == t
  {
    if ms == [] then []
    else
      var rest := PresentTeams(ms[1..]);
      assert forall i :: 1 <= i < |ms| ==> ms[i] == ms[1..][i - 1];
      (if Truthy(ms[0].teams) then [ms[0].teams] else []) + rest
  }

  /** The filter keeps the memberships' order: it distributes over concatenation. */
  lemma {:induction false} PresentTeamsAppend(a: seq<Membership>, b: seq<Membership>)
    ensures PresentTeams(a + b) == PresentTeams(a) + PresentTeams(b)
  {
    if a != [] {
      assert (a + b)[1..] == a[1..] + b;
      PresentTeamsAppend(a[1..], b);
    } else {
      assert a + b == b;
    }
  }

  /** When no team is null, nothing is dropped. */
  lemma {:induction false} NoNullTeamKeepsAll(ms: seq<Membership>)
    requires forall i :: 0 <= i < |ms| ==> Truthy(ms[i].teams)
    ensures |PresentTeams(ms)| == |ms|
  {
    if ms != [] {
      NoNullTeamKeepsAll(ms[1..]);
    }
  }

  /** The stores page counts the team step as done when this list has more
      than one entry: that needs two memberships with a team. */
  lemma {:induction false} TwoTeamsNeedTwoMemberships(ms: seq<Membership>)
    requires |PresentTeams(ms)| > 1
    ensures exists i, j :: 0 <= i < j < |ms| && Truthy(ms[i].teams) && Truthy(ms[j].teams)
  {
    if Truthy(ms[0].teams) {
      assert |PresentTeams(ms[1..])| > 0;
      var t := PresentTeams(ms[1..])[0];
      assert t in PresentTeams(ms[1..]);
      var k :| 0 <= k < |ms[1..]| && ms[1..][k].teams == t;
      assert ms[k + 1].teams == t;
    } else {
      TwoTeamsNeedTwoMemberships(ms[1..]);
      var i, j :| 0 <= i < j < |ms[1..]| && Truthy(ms[1..][i].teams) && Truthy(ms[1..][j].teams);
      assert ms[i + 1] == ms[1..][i] && ms[j + 1] == ms[1..][j];
    }
  }

  /** The handler. `fetched` is what the membership query returned (null
      data reads as no memberships). */
  function Handle(req: Request, fetched: Db<Option<seq<Membership>>>): (reply: Reply<TeamsBody>)
    ensures reply.effects == []
    ensures req.verb != GET ==> reply == Reply(405, Error("Method not allowed"), [])
    ensures req.verb == GET && !Truthy(Field(req.query, "userId")) ==> reply == Reply(400, Error("Missing userId"), [])
    ensures reply.status == 500 ==> fetched.Failed? && reply.body == Error("Failed to fetch teams")
    ensures reply.status == 200 <==> req.verb == GET && Truthy(Field(req.query, "userId")) && fetched.Done?
    ensures (req.verb == GET && Truthy(Field(req.query, "userId")) && fetched.Failed?) ==>
      reply == Reply(500, Error("Failed to fetch teams"), [])
    ensures reply.status == 200 && fetched.data.None? ==> reply.body == Teams([])
    ensures reply.status == 200 && fetched.data.Some? ==> reply.body == Teams(PresentTeams(fetched.data.value))
  {
    if req.verb != GET then Reply(405, Error("Method not allowed"), [])
    else if !Truthy(Field(req.query, "userId")) then Reply(400, Error("Missing userId"), [])
    else match fetched
      case Failed(_) => Reply(500, Error("Failed to fetch teams"), [])
      case Done(ms) => Reply(200, Teams(PresentTeams(if ms.Some? then ms.value else [])), [])
  }
}
