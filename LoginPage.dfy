/**
 * The user login form: both fields are required; a successful login is followed
 * by a lookup of the user's name with the returned token, and only when both
 * requests succeed are the token and the name stored and the dashboard opened.
 */
module LoginPage {
  import opened Common
  import opened Session

  class LoginForm {
    var email: string
    var password: string
    var emailError: bool
    var passwordError: bool
    var loading: bool
    const session: SessionStorage

    constructor (session: SessionStorage)
      ensures email == "" && password == ""
      ensures !emailError && !passwordError && !loading
      ensures this.session == session
    {
      email, password := "", "";
      emailError, passwordError, loading := false, false, false;
      this.session := session;
    }

    method SetEmail(value: string)
      modifies this`email
      ensures email == value
    {
      email := value;
    }

    method SetPassword(value: string)
      modifies this`password
      ensures password == value
    {
      password := value;
    }

    /**
     * `handleLogin`. `loginReply` is the answer to the login request (the token);
     * `userReply` the answer to the user lookup (the name), consulted only when
     * the login succeeded. The session changes exactly when both succeed.
     */
    method Login(loginReply: Reply<string>, userReply: Reply<string>) returns (requested: bool, navigateTo: Option<string>)
      modifies this`emailError, this`passwordError, this`loading, session
      ensures emailError == (email == "") && passwordError == (password == "")
      ensures requested <==> email != "" && password != ""
      ensures loading == (if requested then false else old(loading))
      ensures requested && loginReply.Ok? && userReply.Ok? ==>
        && session.authToken == Some(loginReply.data)
        && session.username == Some(userReply.data)
        && navigateTo == Some("/dashboard")
      ensures !(requested && loginReply.Ok? && userReply.Ok?) ==>
        && session.authToken == old(session.authToken)
        && session.username == old(session.username)
        && navigateTo == None
    {
      var hasError := false;
      if email == "" {
        emailError := true;
        hasError := true;
      } else {
        emailError := false;
      }
      if password == "" {
        passwordError := true;
        hasError := true;
      } else {
        passwordError := false;
      }
      if hasError {
        return false, None;
      }
      requested := true;
      navigateTo := None;
      loading := true;
      match loginReply {
        case Ok(token) =>
          match userReply {
            case Ok(name) =>
              session.Store(token, name);
              navigateTo := Some("/dashboard");
            case Failed(_) =>
          }
        case Failed(_) =>
      }
      loading := false;
    }
  }
}
