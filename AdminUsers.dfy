/**
 * What the admin pages share: the user summary the server lists, the lookup of
 * the user named by the route's `email` parameter, and the per-user routes.
 */
module AdminUsers {
  import opened Common

  datatype UserSummary = UserSummary(id: int, name: string, email: string)

  /** JavaScript truthiness of the `email` route parameter: present and non-empty. */
  predicate HasParam(email: Option<string>)
  {
    email.Some? && email.value != ""
  }

  /**
   * `users.find(u => u.email === email) || null`: the first user with that
   * email, or nothing when no user has it.
   */
  function FindByEmail(users: seq<UserSummary>, email: string): (r: Option<UserSummary>)
    ensures r.None? <==> forall u :: u in users ==> u.email != email
    ensures r.Some? ==> exists k :: 0 <= k < |users| && users[k] == r.value && FirstWithEmail(users, email, k)
  {
    if users == [] then None
    else if users[0].email == email then
      assert FirstWithEmail(users, email, 0);
      Some(users[0])
    else
      var r := FindByEmail(users[1..], email);
      assert users == [users[0]] + users[1..];
      assert r.Some? ==> exists k :: 0 <= k < |users| && users[k] == r.value && FirstWithEmail(users, email, k) by {
        if r.Some? {
          var k :| 0 <= k < |users[1..]| && users[1..][k] == r.value && FirstWithEmail(users[1..], email, k);
          assert FirstWithEmail(users, email, k + 1);
        }
      }
      r
  }

  /** Position `k` holds the first user whose email is `email`. */
  ghost predicate FirstWithEmail(users: seq<UserSummary>, email: string, k: int)
  {
    && 0 <= k < |users|
    && users[k].email == email
    && forall j :: 0 <= j < k ==> users[j].email != email
  }

  /**
   * The route a row of the user table opens: `prefix` followed by the user's
   * email, unencoded; the email is the text after the prefix.
   */
  function UserRoute(prefix: string, email: string): (route: string)
    ensures |route| == |prefix| + |email|
    ensures route[..|prefix|] == prefix && route[|prefix|..] == email
  {
    prefix + email
  }

  const TransactionsPrefix: string := "/admin/transactions/"
  const TasksPrefix: string := "/admin/tasks/"

  /** Distinct users' rows open distinct pages. */
  lemma UserRouteInjective(prefix: string, a: string, b: string)
    requires UserRoute(prefix, a) == UserRoute(prefix, b)
    ensures a == b
  {
    assert a == UserRoute(prefix, a)[|prefix|..];
  }
}
