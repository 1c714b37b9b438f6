/**
 * The admin page listing one user's tasks. Without an `email` route
 * parameter it shows the table of all users, each row opening that user's page;
 * with one, it looks the user up in the fetched list and loads their tasks.
 */
module UserTasks {
  import opened Common
  import opened AdminUsers

  /** A task as this page receives it; the due date is the server's text. */
  datatype UserTask = UserTask(id: int, title: string, description: string, dueDate: string)

  /** What the page body shows: the user table, or the chosen user's tasks. */
  datatype Body = UserTable(users: seq<UserSummary>) | Detail(user: UserSummary, rows: seq<UserTask>)

  class UserTasksPage {
    var users: seq<UserSummary>
    var tasks: seq<UserTask>
    var selectedUser: Option<UserSummary>
    /** The `email` route parameter of the current render. */
    var email: Option<string>

    /**
     * The chosen user, if any, is a listed user with the current parameter's
     * email. A mount establishes it; a run of the effect keeps it only when it
     * refetches the users for a set parameter, or when the users fetch fails and
     * the parameter is unchanged.
     */
    ghost predicate Consistent()
      reads this
    {
      selectedUser.Some? ==>
        && HasParam(email)
        && selectedUser.value in users
        && selectedUser.value.email == email.value
    }

    constructor (email: Option<string>)
      ensures Consistent()
      ensures users == [] && tasks == [] && selectedUser == None
      ensures this.email == email
    {
      users, tasks, selectedUser := [], [], None;
      this.email := email;
    }

    /**
     * One run of the effect, on mount or whenever the parameter changes to
     * `param`: `fetchUsers` and, when `param` is set, `fetchUserTasks`.
     * They touch different fields, so the order in which their answers arrive
     * does not matter. Nothing is cleared first: the previous choice stays unless
     * the users fetch succeeds for a set parameter, and the previous rows stay
     * unless their own request is made and succeeds.
     */
    method Load(param: Option<string>, usersReply: Reply<seq<UserSummary>>, tasksReply: Reply<seq<UserTask>>)
      returns (tasksRequested: bool)
      modifies this`email, this`users, this`tasks, this`selectedUser
      ensures email == param
      ensures users == (if usersReply.Ok? then usersReply.data else old(users))
      ensures selectedUser ==
        (if usersReply.Ok? && HasParam(param) then FindByEmail(usersReply.data, param.value) else old(selectedUser))
      ensures tasksRequested <==> HasParam(param)
      ensures tasks ==
        (if tasksRequested && tasksReply.Ok? then tasksReply.data else old(tasks))
      ensures usersReply.Ok? && HasParam(param) ==> Consistent()
      ensures usersReply.Failed? && param == old(email) && old(Consistent()) ==> Consistent()
    {
      email := param;
      match usersReply {
        case Ok(data) =>
          users := data;
          if HasParam(param) {
            selectedUser := FindByEmail(data, param.value);
            if selectedUser.Some? {
              ghost var k :| 0 <= k < |data| && data[k] == selectedUser.value && FirstWithEmail(data, param.value, k);
            }
          }
        case Failed(_) =>
      }
      tasksRequested := HasParam(param);
      if tasksRequested {
        match tasksReply {
          case Ok(data) => tasks := data;
          case Failed(_) =>
        }
      }
    }

    /** `!selectedUser ? table : detail`. */
    function View(): (b: Body)
      reads this
      ensures b.UserTable? <==> selectedUser.None?
      ensures b.Detail? ==> b.rows == tasks
      ensures b.Detail? && Consistent() ==> b.user in users && Some(b.user.email) == email
    {
      if selectedUser.None? then UserTable(users) else Detail(selectedUser.value, tasks)
    }

    /** `handleUserClick`: the row of a user opens the page whose parameter is that user's email. */
    method UserClick(userEmail: string) returns (navigateTo: string)
      ensures |navigateTo| == |TasksPrefix| + |userEmail|
      ensures navigateTo[..|TasksPrefix|] == TasksPrefix
      ensures navigateTo[|TasksPrefix|..] == userEmail
    {
      navigateTo := UserRoute(TasksPrefix, userEmail);
    }
  }
}
