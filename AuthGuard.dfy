/**
 * The route guard in front of the user dashboard and the admin dashboard: a spinner until
 * the session has been read once, then the protected page when a token is stored
 * and a redirect to the login page otherwise.
 */
module AuthGuard {
  import opened Session

  /** What the guard renders. */
  datatype GuardView = Spinner | Outlet | Redirect(to: string)

  class Guard {
    var loading: bool
    var isAuthenticated: bool

    constructor ()
      ensures loading && !isAuthenticated
    {
      loading := true;
      isAuthenticated := false;
    }

    /** The mount effect: read the token once, record its truthiness, stop loading. */
    method CheckSession(session: SessionStorage)
      modifies this
      ensures !loading
      ensures isAuthenticated <==> session.HasToken()
    {
      isAuthenticated := session.HasToken();
      loading := false;
    }

    /** The render: the spinner while loading, then the page or the redirect. */
    function Render(): (v: GuardView)
      reads this
      ensures v == Spinner <==> loading
      ensures v == Outlet <==> !loading && isAuthenticated
      ensures v.Redirect? ==> v.to == "/login"
    {
      if loading then Spinner
      else if isAuthenticated then Outlet
      else Redirect("/login")
    }
  }

  /**
   * One mount of the guard: the first render is the spinner; after the effect the
   * protected page is shown exactly when a non-empty token is stored, and
   * otherwise the browser is sent to the login page.
   */
  method Mount(session: SessionStorage) returns (first: GuardView, settled: GuardView)
    ensures first == Spinner
    ensures settled == Outlet <==> session.HasToken()
    ensures settled != Outlet ==> settled == Redirect("/login")
  {
    var guard := new Guard();
    first := guard.Render();
    guard.CheckSession(session);
    settled := guard.Render();
  }

  /** Storing a non-empty token, as a successful login does, and then mounting the guard admits the user. */
  method LoginThenMount(session: SessionStorage, token: string, name: string) returns (settled: GuardView)
    requires token != ""
    modifies session
    ensures settled == Outlet
  {
    session.Store(token, name);
    var _, view := Mount(session);
    settled := view;
  }
}
