/**
 * The task service behind `/graphql` (services/graphql-api/server.js): the in-memory task list,
 * the identity context read from the gateway's headers, the two queries and the two mutations.
 * Fresh ids (`uuidv4()`) and timestamps (`new Date().toISOString()`) are inputs.
 */
module TaskService {
  import opened Wrappers
  import opened Lists

  /** The GraphQL enum `TaskStatus`: no other status can reach a resolver. */
  datatype TaskStatus = TODO | IN_PROGRESS | DONE

  datatype Task = Task(
    id: string,
    title: string,
    description: string,
    status: TaskStatus,
    authorId: string,
    createdAt: string)

  /** The resolver context: each field is the matching `x-user-*` header, or null. */
  datatype Context = Context(userId: Option<string>, userEmail: Option<string>, userRole: Option<string>)

  datatype GqlResult<T> = Ok(value: T) | GqlError(message: string)

  const NOT_AUTHENTICATED: string := "Not authenticated"
  const TASK_NOT_FOUND: string := "Task not found"

  /** The enum value's name as it appears in queries and responses. */
  function StatusName(s: TaskStatus): string {
    match s
    case TODO => "TODO"
    case IN_PROGRESS => "IN_PROGRESS"
    case DONE => "DONE"
  }

  /** Input coercion of a `TaskStatus` argument: one of the three names, or a validation error. */
  function ParseStatus(name: string): (r: Option<TaskStatus>)
    ensures r.Some? ==> StatusName(r.value) == name
    ensures r.None? <==> name != "TODO" && name != "IN_PROGRESS" && name != "DONE"
  {
    if name == "TODO" then Some(TODO)
    else if name == "IN_PROGRESS" then Some(IN_PROGRESS)
    else if name == "DONE" then Some(DONE)
    else None
  }

  /** Every status survives the trip through its name. */
  lemma StatusRoundTrip(s: TaskStatus)
    ensures ParseStatus(StatusName(s)) == Some(s)
  {
  }

  /** `req.headers[name] || null`: an absent or empty header gives null. */
  function HeaderOrNull(headers: map<string, string>, name: string): (r: Option<string>)
    ensures r.Some? <==> name in headers && headers[name] != ""
    ensures r.Some? ==> r.value == headers[name]
  {
    if name in headers && headers[name] != "" then Some(headers[name]) else None
  }

  /** The `context` function: the identity the gateway injected, field by field. */
  function BuildContext(headers: map<string, string>): (c: Context)
    ensures c.userId == HeaderOrNull(headers, "x-user-id")
    ensures c.userEmail == HeaderOrNull(headers, "x-user-email")
    ensures c.userRole == HeaderOrNull(headers, "x-user-role")
  {
    Context(HeaderOrNull(headers, "x-user-id"), HeaderOrNull(headers, "x-user-email"), HeaderOrNull(headers, "x-user-role"))
  }

  /** `!userId` is false: the context carries a non-empty user id. */
  predicate Authenticated(ctx: Context) {
    ctx.userId.Some? && ctx.userId.value != ""
  }

  /** A context built from headers is authenticated exactly when a non-empty `x-user-id` arrived. */
  lemma AuthenticatedIffUserHeader(headers: map<string, string>)
    ensures Authenticated(BuildContext(headers)) <==> "x-user-id" in headers && headers["x-user-id"] != ""
  {
  }

  /** `tasks.findIndex(task => task.id === id)`. */
  function FindIndex(tasks: seq<Task>, id: string): (r: Option<nat>)
    ensures r.Some? ==> r.value < |tasks| && tasks[r.value].id == id
    ensures r.Some? ==> forall j :: 0 <= j < r.value ==> tasks[j].id != id
    ensures r.None? <==> forall j :: 0 <= j < |tasks| ==> tasks[j].id != id
  {
    IndexWhere(tasks, (t: Task) => t.id == id)
  }

  /** The `task(id)` query: the first task with that id, or null. */
  function FindTask(tasks: seq<Task>, id: string): (r: Option<Task>)
    ensures r.Some? <==> FindIndex(tasks, id).Some?
    ensures r.Some? ==> r.value == tasks[FindIndex(tasks, id).value] && r.value.id == id
  {
    match FindIndex(tasks, id)
    case None => None
    case Some(i) => Some(tasks[i])
  }

  /** The two tasks the service starts with. */
  function SeedTasks(createdAt: string): seq<Task> {
    [ Task("1", "Selesaikan Laporan Keuangan", "Laporan Q3 harus selesai akhir minggu ini.", IN_PROGRESS, "1", createdAt),
      Task("2", "Presentasi Marketing", "Siapkan slide untuk meeting hari Senin.", TODO, "1", createdAt) ]
  }

  /**
   * Replacing a task by one with the same id changes no lookup by id: every id is found at the
   * same index as before (so a status update never redirects later updates).
   */
  lemma {:induction false} FindIndexAfterReplace(tasks: seq<Task>, i: nat, t: Task, id: string)
    requires i < |tasks| && t.id == tasks[i].id
    ensures FindIndex(tasks[i := t], id) == FindIndex(tasks, id)
  {
    var updated := tasks[i := t];
    assert forall j :: 0 <= j < |tasks| ==> updated[j].id == tasks[j].id;
    var a, b := FindIndex(updated, id), FindIndex(tasks, id);
    if a.Some? && b.Some? {
      assert !(a.value < b.value) && !(b.value < a.value);
    }
  }

  /** After an append, a fresh id is found at the new last index and every other id where it was. */
  lemma {:induction false} FindIndexAfterAppend(tasks: seq<Task>, t: Task, id: string)
    ensures FindIndex(tasks + [t], id) ==
      if FindIndex(tasks, id).Some? then FindIndex(tasks, id)
      else if t.id == id then Some(|tasks|) else None
  {
    var appended := tasks + [t];
    assert forall j :: 0 <= j < |tasks| ==> appended[j] == tasks[j];
    var a, b := FindIndex(appended, id), FindIndex(tasks, id);
    if b.Some? {
      assert a.Some?;
      assert !(a.value < b.value) && !(b.value < a.value);
    } else if t.id == id {
      assert appended[|tasks|].id == id;
    }
  }

  /** The task list of the running service. */
  class TaskStore {
    var tasks: seq<Task>

    constructor (createdAt: string)
      ensures tasks == SeedTasks(createdAt)
    {
      tasks := SeedTasks(createdAt);
    }

    /** The `tasks` query: the whole list, unfiltered, whoever asks. */
    method AllTasks(ctx: Context) returns (r: seq<Task>)
      ensures r == tasks
    {
      r := tasks;
    }

    /** The `task(id)` query: the first task with that id, or null. */
    method TaskById(id: string) returns (r: Option<Task>)
      ensures r == FindTask(tasks, id)
      ensures r.Some? ==> r.value in tasks && r.value.id == id
      ensures r.None? <==> forall j :: 0 <= j < |tasks| ==> tasks[j].id != id
    {
      r := FindTask(tasks, id);
    }

    /**
     * `createTask`: without a user id nothing changes and 'Not authenticated' is raised; otherwise
     * exactly one task, with status TODO and the caller as author, is appended.
     */
    method CreateTask(ctx: Context, title: string, description: string, newId: string, createdAt: string)
      returns (r: GqlResult<Task>)
      modifies this
      ensures !Authenticated(ctx) ==> r == GqlError(NOT_AUTHENTICATED) && tasks == old(tasks)
      ensures Authenticated(ctx) ==>
        && r == Ok(Task(newId, title, description, TODO, ctx.userId.value, createdAt))
        && tasks == old(tasks) + [r.value]
    {
      if !Authenticated(ctx) {
        return GqlError(NOT_AUTHENTICATED);
      }
      var newTask := Task(newId, title, description, TODO, ctx.userId.value, createdAt);
      tasks := tasks + [newTask];
      r := Ok(newTask);
    }

    /**
     * `updateTaskStatus`: authentication is checked before existence and either failure leaves the
     * list alone; otherwise only the status of the first task with that id changes, and that task is
     * returned.
     */
    method UpdateTaskStatus(ctx: Context, id: string, status: TaskStatus) returns (r: GqlResult<Task>)
      modifies this
      ensures !Authenticated(ctx) ==> r == GqlError(NOT_AUTHENTICATED) && tasks == old(tasks)
      ensures Authenticated(ctx) && FindIndex(old(tasks), id).None? ==>
        r == GqlError(TASK_NOT_FOUND) && tasks == old(tasks)
      ensures Authenticated(ctx) && FindIndex(old(tasks), id).Some? ==>
        var i := FindIndex(old(tasks), id).value;
        && r == Ok(old(tasks)[i].(status := status))
        && tasks == old(tasks)[i := r.value]
    {
      if !Authenticated(ctx) {
        return GqlError(NOT_AUTHENTICATED);
      }
      var taskIndex := FindIndex(tasks, id);
      if taskIndex.None? {
        return GqlError(TASK_NOT_FOUND);
      }
      var updatedTask := tasks[taskIndex.value].(status := status);
      tasks := tasks[taskIndex.value := updatedTask];
      r := Ok(updatedTask);
    }
  }
}
