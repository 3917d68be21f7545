/**
 * The teams routes (services/rest-api/routes/teams.js): read-only views of a constant team list,
 * filtered by the identity the gateway injected in `x-user-id` and `x-user-role`.
 */
module TeamRoutes {
  import opened Wrappers
  import opened Lists

  datatype Member = Member(id: string, name: string, email: string, role: string)

  datatype Team = Team(id: string, name: string, members: seq<string>)

  /** One entry of `memberDetails`: the known user, or `{ id, name: 'Unknown User' }`. */
  datatype MemberDetail = Known(user: Member) | Unknown(id: string)

  datatype TeamsResponse =
    | TeamList(teams: seq<Team>)
    | TeamDetails(team: Team, memberDetails: seq<MemberDetail>)
    | TeamError(status: int, error: string)

  const ADMIN: string := "admin"
  const UNKNOWN_USER_NAME: string := "Unknown User"
  const NO_USER_ID: string := "User ID not provided by gateway"
  const TEAM_NOT_FOUND: string := "Team not found"
  const NOT_A_MEMBER: string := "Forbidden. You are not a member of this team."

  const USERS: seq<Member> := [
    Member("1", "John Doe", "john@example.com", "admin"),
    Member("2", "Jane Smith", "jane@example.com", "user")
  ]

  const TEAMS: seq<Team> := [
    Team("t1", "Developer Team", ["1", "2"]),
    Team("t2", "Marketing Team", ["2"])
  ]

  /** `team.members.includes(userId)`; an absent header is included in no team. */
  predicate Includes(members: seq<string>, userId: Option<string>) {
    userId.Some? && userId.value in members
  }

  /** The id an entry of `memberDetails` reports. */
  function DetailId(d: MemberDetail): string {
    match d
    case Known(u) => u.id
    case Unknown(id) => id
  }

  /** The teams `userId` belongs to, in the list's order. */
  function TeamsOf(teams: seq<Team>, userId: string): (r: seq<Team>)
    ensures forall t :: t in r <==> t in teams && userId in t.members
    ensures IsSubsequence(r, teams)
  {
    FilterIsSubsequence(teams, (t: Team) => userId in t.members);
    Filter(teams, (t: Team) => userId in t.members)
  }

  /**
   * `GET /api/teams`: 401 without a user id; every team for an admin; otherwise exactly the teams
   * whose members include the caller, in their original order.
   */
  function ListTeams(userId: Option<string>, userRole: Option<string>): (r: TeamsResponse)
    ensures r.TeamList? || r == TeamError(401, NO_USER_ID)
    ensures r.TeamError? <==> userId.None? || userId.value == ""
    ensures r.TeamList? && userRole == Some(ADMIN) ==> r.teams == TEAMS
    ensures r.TeamList? && userRole != Some(ADMIN) ==>
      IsSubsequence(r.teams, TEAMS) && forall t :: t in r.teams <==> t in TEAMS && userId.value in t.members
  {
    if userId.None? || userId.value == "" then TeamError(401, NO_USER_ID)
    else if userRole == Some(ADMIN) then TeamList(TEAMS)
    else TeamList(TeamsOf(TEAMS, userId.value))
  }

  /**
   * `memberDetails`: one entry per member id, in order; a known id gives the first user with that
   * id and an unknown one gives an `Unknown User` entry.
   */
  function MemberDetails(users: seq<Member>, members: seq<string>): (d: seq<MemberDetail>)
    ensures |d| == |members|
    ensures forall i :: 0 <= i < |d| ==> DetailId(d[i]) == members[i]
    ensures forall i :: 0 <= i < |d| ==>
      (d[i].Unknown? <==> forall j :: 0 <= j < |users| ==> users[j].id != members[i])
    ensures forall i :: 0 <= i < |d| && d[i].Known? ==>
      exists k :: 0 <= k < |users| && d[i].user == users[k] && forall j :: 0 <= j < k ==> users[j].id != members[i]
    decreases |members|
  {
    if members == [] then []
    else
      var known := Find(users, (u: Member) => u.id == members[0]);
      [if known.Some? then Known(known.value) else Unknown(members[0])] + MemberDetails(users, members[1..])
  }

  /**
   * `GET /api/teams/:id`: an unknown team is 404 whoever asks; a known one is shown, with member
   * details, exactly to admins and members, and is 403 for everyone else.
   */
  function GetTeam(id: string, userId: Option<string>, userRole: Option<string>): (r: TeamsResponse)
    ensures Find(TEAMS, (t: Team) => t.id == id).None? ==> r == TeamError(404, TEAM_NOT_FOUND)
    ensures Find(TEAMS, (t: Team) => t.id == id).Some? ==>
      var team := Find(TEAMS, (t: Team) => t.id == id).value;
      && team.id == id
      && (r.TeamDetails? <==> userRole == Some(ADMIN) || Includes(team.members, userId))
      && (r.TeamDetails? ==> r.team == team && r.memberDetails == MemberDetails(USERS, team.members))
      && (!r.TeamDetails? ==> r == TeamError(403, NOT_A_MEMBER))
  {
    match Find(TEAMS, (t: Team) => t.id == id)
    case None => TeamError(404, TEAM_NOT_FOUND)
    case Some(team) =>
      if userRole == Some(ADMIN) || Includes(team.members, userId) then
        TeamDetails(team, MemberDetails(USERS, team.members))
      else TeamError(403, NOT_A_MEMBER)
  }

  /** A concrete reading of the table: Jane ("2") sees both teams, John ("1") as a non-admin sees only t1. */
  lemma MembershipExamples()
    ensures ListTeams(Some("2"), Some("user")) == TeamList(TEAMS)
    ensures ListTeams(Some("1"), Some("user")) == TeamList([TEAMS[0]])
    ensures ListTeams(Some("3"), None) == TeamList([])
  {
    FilterKeepsAll(TEAMS, (t: Team) => "2" in t.members);
    assert "1" !in TEAMS[1].members;
    assert "3" !in TEAMS[0].members && "3" !in TEAMS[1].members;
  }
}
