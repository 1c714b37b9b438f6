/**
 * The admin page listing one user's transactions. Without an `email` route
 * parameter it shows the table of all users, each row opening that user's page;
 * with one, it looks the user up in the fetched list and loads their transactions.
 */
module UserTransactions {
  import opened Common
  import opened AdminUsers

  /** A transaction as this page receives it; the date is the server's text. */
  datatype UserTransaction = UserTransaction(id: int, amount: int, date: string, description: string)

  /** What the page body shows: the user table, or the chosen user's transactions. */
  datatype Body = UserTable(users: seq<UserSummary>) | Detail(user: UserSummary, rows: seq<UserTransaction>)

  class UserTransactionsPage {
    var users: seq<UserSummary>
    var transactions: seq<UserTransaction>
    var selectedUser: Option<UserSummary>
    /** The `email` route parameter of the current render. */
    var email: Option<string>

    /**
     * The chosen user, if any, is a listed user with the current parameter's
     * email. A mount establishes it; a run of the effect keeps it only when it
     * refetches the users for a set parameter, or when the users fetch fails and
     * the parameter is unchanged.
     */
    ghost predicate Consistent()
      reads this
    {
      selectedUser.Some? ==>
        && HasParam(email)
        && selectedUser.value in users
        && selectedUser.value.email == email.value
    }

    constructor (email: Option<string>)
      ensures Consistent()
      ensures users == [] && transactions == [] && selectedUser == None
      ensures this.email == email
    {
      users, transactions, selectedUser := [], [], None;
      this.email := email;
    }

    /**
     * One run of the effect, on mount or whenever the parameter changes to
     * `param`: `fetchUsers` and, when `param` is set, `fetchUserTransactions`.
     * They touch different fields, so the order in which their answers arrive
     * does not matter. Nothing is cleared first: the previous choice stays unless
     * the users fetch succeeds for a set parameter, and the previous rows stay
     * unless their own request is made and succeeds.
     */
    method Load(param: Option<string>, usersReply: Reply<seq<UserSummary>>, transactionsReply: Reply<seq<UserTransaction>>)
      returns (transactionsRequested: bool)
      modifies this`email, this`users, this`transactions, this`selectedUser
      ensures email == param
      ensures users == (if usersReply.Ok? then usersReply.data else old(users))
      ensures selectedUser ==
        (if usersReply.Ok? && HasParam(param) then FindByEmail(usersReply.data, param.value) else old(selectedUser))
      ensures transactionsRequested <==> HasParam(param)
      ensures transactions ==
        (if transactionsRequested && transactionsReply.Ok? then transactionsReply.data else old(transactions))
      ensures usersReply.Ok? && HasParam(param) ==> Consistent()
      ensures usersReply.Failed? && param == old(email) && old(Consistent()) ==> Consistent()
    {
      email := param;
      match usersReply {
        case Ok(data) =>
          users := data;
          if HasParam(param) {
            selectedUser := FindByEmail(data, param.value);
            if selectedUser.Some? {
              ghost var k :| 0 <= k < |data| && data[k] == selectedUser.value && FirstWithEmail(data, param.value, k);
            }
          }
        case Failed(_) =>
      }
      transactionsRequested := HasParam(param);
      if transactionsRequested {
        match transactionsReply {
          case Ok(data) => transactions := data;
          case Failed(_) =>
        }
      }
    }

    /** `!selectedUser ? table : detail`. */
    function View(): (b: Body)
      reads this
      ensures b.UserTable? <==> selectedUser.None?
      ensures b.Detail? ==> b.rows == transactions
      ensures b.Detail? && Consistent() ==> b.user in users && Some(b.user.email) == email
    {
      if selectedUser.None? then UserTable(users) else Detail(selectedUser.value, transactions)
    }

    /** `handleUserClick`: the row of a user opens the page whose parameter is that user's email. */
    method UserClick(userEmail: string) returns (navigateTo: string)
      ensures |navigateTo| == |TransactionsPrefix| + |userEmail|
      ensures navigateTo[..|TransactionsPrefix|] == TransactionsPrefix
      ensures navigateTo[|TransactionsPrefix|..] == userEmail
    {
      navigateTo := UserRoute(TransactionsPrefix, userEmail);
    }
  }
}
