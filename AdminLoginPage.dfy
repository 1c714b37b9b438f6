/**
 * The administrator login form: both fields are required; the server's 401
 * "Invalid credentials" refusal flags the password field and its 404 "User not
 * found" refusal flags the email field; success stores the token and the name it
 * returns and opens the admin dashboard.
 */
module AdminLoginPage {
  import opened Common
  import opened Session

  /** The body of a successful admin login. */
  datatype AdminLogin = AdminLogin(token: string, username: string)

  const InvalidCredentials: string := "Invalid credentials"
  const UserNotFound: string := "User not found"

  class AdminLoginForm {
    var email: string
    var password: string
    var emailError: bool
    var passwordError: bool
    var loading: bool
    const session: SessionStorage

    constructor (session: SessionStorage)
      ensures email == "" && password == ""
      ensures !emailError && !passwordError && !loading
      ensures this.session == session
    {
      email, password := "", "";
      emailError, passwordError, loading := false, false, false;
      this.session := session;
    }

    method SetEmail(value: string)
      modifies this`email
      ensures email == value
    {
      email := value;
    }

    method SetPassword(value: string)
      modifies this`password
      ensures password == value
    {
      password := value;
    }

    /**
     * The text under the email field: shown only while the field is flagged; it
     * blames a missing account when an email was typed and a missing email otherwise.
     */
    function EmailMessage(): (m: Option<string>)
      reads this
      ensures m.Some? <==> emailError
      ensures m == Some("Email is required.") <==> emailError && email == ""
      ensures m == Some("No account found with this email.") <==> emailError && email != ""
    {
      if !emailError then None
      else if email != "" then Some("No account found with this email.")
      else Some("Email is required.")
    }

    /** The text under the password field, by the same rule. */
    function PasswordMessage(): (m: Option<string>)
      reads this
      ensures m.Some? <==> passwordError
      ensures m == Some("Password is required.") <==> passwordError && password == ""
      ensures m == Some("Incorrect password.") <==> passwordError && password != ""
    {
      if !passwordError then None
      else if password != "" then Some("Incorrect password.")
      else Some("Password is required.")
    }

    /**
     * `handleAdminLogin`: each field flag is set exactly when that field is empty
     * or the server refused with the matching status and body; any other failure
     * flags nothing; the session changes only on success.
     */
    method Login(reply: Reply<AdminLogin>) returns (requested: bool, navigateTo: Option<string>)
      modifies this`emailError, this`passwordError, this`loading, session
      ensures requested <==> email != "" && password != ""
      ensures emailError == (email == "" || (requested && FailedWith(reply, 404, UserNotFound)))
      ensures passwordError == (password == "" || (requested && FailedWith(reply, 401, InvalidCredentials)))
      ensures loading == (if requested then false else old(loading))
      ensures requested && reply.Ok? ==>
        && session.authToken == Some(reply.data.token)
        && session.username == Some(reply.data.username)
        && navigateTo == Some("/admin/dashboard")
      ensures !(requested && reply.Ok?) ==>
        && session.authToken == old(session.authToken)
        && session.username == old(session.username)
        && navigateTo == None
    {
      var hasError := false;
      if email == "" {
        emailError := true;
        hasError := true;
      } else {
        emailError := false;
      }
      if password == "" {
        passwordError := true;
        hasError := true;
      } else {
        passwordError := false;
      }
      if hasError {
        return false, None;
      }
      requested := true;
      navigateTo := None;
      loading := true;
      match reply {
        case Ok(data) =>
          session.Store(data.token, data.username);
          navigateTo := Some("/admin/dashboard");
        case Failed(response) =>
          if response.Some? && response.value.status == 401 && response.value.body == InvalidCredentials {
            passwordError := true;
          } else if response.Some? && response.value.status == 404 && response.value.body == UserNotFound {
            emailError := true;
          }
      }
      loading := false;
    }
  }
}
