/**
 * The users routes (services/rest-api/routes/users.js): every call builds the same two-user list
 * afresh and only searches it, so no handler can change it.
 */
module UserRoutes {
  import opened Wrappers
  import opened Lists

  datatype User = User(id: string, name: string, email: string, age: int, role: string)

  datatype UsersResponse =
    | UserList(users: seq<User>)
    | UserFound(user: User)
    | UserNotFound(error: string, message: string)

  const ADMIN: string := "admin"
  const USER_NOT_FOUND: string := "User not found"

  /** `getHardcodedUsers()`. */
  function HardcodedUsers(): seq<User> {
    [ User("1", "John Doe", "john@example.com", 30, "admin"),
      User("2", "Jane Smith", "jane@example.com", 25, "user") ]
  }

  /** `users.find(u => u.id === id)`; an absent header matches nobody. */
  function FindById(users: seq<User>, id: Option<string>): (r: Option<User>)
    ensures r.Some? ==> r.value in users && Some(r.value.id) == id
    ensures r.None? <==> id.None? || forall j :: 0 <= j < |users| ==> users[j].id != id.value
  {
    match id
    case None => None
    case Some(v) => Find(users, (u: User) => u.id == v)
  }

  /**
   * `GET /api/users`: an admin sees the whole list; anyone else, a missing role included, sees at
   * most their own entry, and nothing when their id is unknown.
   */
  function ListUsers(userId: Option<string>, userRole: Option<string>): (r: UsersResponse)
    ensures r.UserList?
    ensures userRole == Some(ADMIN) ==> r.users == HardcodedUsers()
    ensures userRole != Some(ADMIN) ==>
      |r.users| <= 1 && forall u :: u in r.users ==> u in HardcodedUsers() && Some(u.id) == userId
    ensures userRole != Some(ADMIN) ==>
      (r.users == [] <==> userId.None? || forall j :: 0 <= j < |HardcodedUsers()| ==> HardcodedUsers()[j].id != userId.value)
  {
    if userRole != Some(ADMIN) then
      match FindById(HardcodedUsers(), userId)
      case Some(self) => UserList([self])
      case None => UserList([])
    else UserList(HardcodedUsers())
  }

  /** `GET /api/users/:id`: the user with that id, or 404 naming the id. */
  function GetUser(id: string): (r: UsersResponse)
    ensures r.UserFound? || r.UserNotFound?
    ensures r.UserFound? <==> exists j :: 0 <= j < |HardcodedUsers()| && HardcodedUsers()[j].id == id
    ensures r.UserFound? ==> r.user in HardcodedUsers() && r.user.id == id
    ensures r.UserNotFound? ==> r == UserNotFound(USER_NOT_FOUND, "User with ID " + id + " does not exist")
  {
    match FindById(HardcodedUsers(), Some(id))
    case Some(user) => UserFound(user)
    case None => UserNotFound(USER_NOT_FOUND, "User with ID " + id + " does not exist")
  }
}
