/**
 * The registration form: its two regular expressions, the blank-name test, and
 * the handler that flags fields and classifies the server's refusal.
 *
 * Each regular expression is stated twice: as a pattern predicate that says
 * which strings it matches (ghost, with the split points as witnesses), and as
 * an executable check; the two are proved to accept the same strings.
 */
module RegisterPage {
  import opened Common

  /* ---------- Character classes (ASCII ranges, as in the patterns) ---------- */

  predicate IsLower(c: char) { 'a' <= c <= 'z' }
  predicate IsUpper(c: char) { 'A' <= c <= 'Z' }
  predicate IsDigit(c: char) { '0' <= c <= '9' }
  predicate IsLetter(c: char) { IsLower(c) || IsUpper(c) }

  /** `[a-zA-Z0-9._%+-]` */
  predicate IsLocalChar(c: char)
  {
    IsLetter(c) || IsDigit(c) || c == '.' || c == '_' || c == '%' || c == '+' || c == '-'
  }

  /** `[a-zA-Z0-9.-]` */
  predicate IsDomainChar(c: char)
  {
    IsLetter(c) || IsDigit(c) || c == '.' || c == '-'
  }

  /** `[@$!%*?&.]` */
  predicate IsSpecial(c: char)
  {
    c == '@' || c == '$' || c == '!' || c == '%' || c == '*' || c == '?' || c == '&' || c == '.'
  }

  /** `[A-Za-z\d@$!%*?&.]` */
  predicate IsPasswordChar(c: char)
  {
    IsLetter(c) || IsDigit(c) || IsSpecial(c)
  }

  predicate AllLocal(s: string) { forall i :: 0 <= i < |s| ==> IsLocalChar(s[i]) }
  predicate AllDomain(s: string) { forall i :: 0 <= i < |s| ==> IsDomainChar(s[i]) }
  predicate AllLetters(s: string) { forall i :: 0 <= i < |s| ==> IsLetter(s[i]) }

  /* ---------- validateEmail ---------- */

  /**
   * The strings `^[a-zA-Z0-9._%+-]+@[a-zA-Z0-9.-]+\.[a-zA-Z]{2,6}$` matches:
   * a non-empty local part, `@`, a non-empty domain, `.`, and 2 to 6 letters
   * that end the string; `at` and `dot` are the positions of the `@` and the `.`.
   */
  ghost predicate EmailPattern(s: string)
  {
    exists at, dot :: EmailSplit(s, at, dot)
  }

  ghost predicate EmailSplit(s: string, at: int, dot: int)
  {
    && 0 < at && at + 1 < dot < |s|
    && AllLocal(s[..at]) && s[at] == '@'
    && AllDomain(s[at + 1..dot]) && s[dot] == '.'
    && 2 <= |s| - dot - 1 <= 6 && AllLetters(s[dot + 1..])
  }

  /** The position of the first `c` in `s`, or `|s|` when there is none. */
  function IndexOf(s: string, c: char): (k: nat)
    ensures k <= |s|
    ensures k < |s| ==> s[k] == c
    ensures forall i :: 0 <= i < k ==> s[i] != c
  {
    if s == [] then 0
    else if s[0] == c then 0
    else 1 + IndexOf(s[1..], c)
  }

  /** The position of the last `c` in `s`, or -1 when there is none. */
  function LastIndexOf(s: string, c: char): (k: int)
    ensures -1 <= k < |s|
    ensures k >= 0 ==> s[k] == c
    ensures forall i :: k < i < |s| ==> s[i] != c
  {
    if s == [] then -1
    else if s[|s| - 1] == c then |s| - 1
    else LastIndexOf(s[..|s| - 1], c)
  }

  /**
   * `validateEmail`: since neither the local part nor the domain can hold an
   * `@`, and the final letters cannot hold a `.`, the only possible split is at
   * the first `@` and the last `.`.
   */
  function ValidateEmail(s: string): (ok: bool)
    ensures ok <==> EmailPattern(s)
  {
    var at := IndexOf(s, '@');
    var dot := LastIndexOf(s, '.');
    var ok := 0 < at && at + 1 < dot
      && AllLocal(s[..at]) && AllDomain(s[at + 1..dot])
      && 2 <= |s| - dot - 1 <= 6 && AllLetters(s[dot + 1..]);
    assert ok ==> EmailSplit(s, at, dot);
    assert EmailPattern(s) ==> ok by {
      if EmailPattern(s) {
        var at', dot' :| EmailSplit(s, at', dot');
        SplitIsForced(s, at', dot');
      }
    }
    ok
  }

  lemma SplitIsForced(s: string, at: int, dot: int)
    requires EmailSplit(s, at, dot)
    ensures IndexOf(s, '@') == at && LastIndexOf(s, '.') == dot
  {
    var i := IndexOf(s, '@');
    assert i >= at by {
      assert forall k :: 0 <= k < at ==> s[k] == s[..at][k];
    }
    var j := LastIndexOf(s, '.');
    assert j <= dot by {
      assert forall k :: dot < k < |s| ==> s[k] == s[dot + 1..][k - dot - 1];
    }
  }

  /* ---------- validatePassword ---------- */

  /**
   * The strings `^(?=.*[a-z])(?=.*[A-Z])(?=.*\d)(?=.*[@$!%*?&.])[A-Za-z\d@$!%*?&.]{8,}$`
   * matches: at least 8 characters, all from the allowed class, with at least one
   * lower-case letter, one upper-case letter, one digit and one special character.
   */
  ghost predicate PasswordPattern(s: string)
  {
    && |s| >= 8
    && (forall i :: 0 <= i < |s| ==> IsPasswordChar(s[i]))
    && (exists i :: 0 <= i < |s| && IsLower(s[i]))
    && (exists i :: 0 <= i < |s| && IsUpper(s[i]))
    && (exists i :: 0 <= i < |s| && IsDigit(s[i]))
    && (exists i :: 0 <= i < |s| && IsSpecial(s[i]))
  }

  /** The classes the four lookaheads search for. */
  datatype CharClass = LowerClass | UpperClass | DigitClass | SpecialClass

  predicate InClass(c: char, k: CharClass)
  {
    match k
    case LowerClass => IsLower(c)
    case UpperClass => IsUpper(c)
    case DigitClass => IsDigit(c)
    case SpecialClass => IsSpecial(c)
  }

  /** One lookahead `(?=.*[…])`: some character of `s` is in class `k`. */
  function Contains(s: string, k: CharClass): (found: bool)
    ensures found <==> exists i :: 0 <= i < |s| && InClass(s[i], k)
  {
    if s == [] then false
    else if InClass(s[0], k) then true
    else
      assert forall i :: 1 <= i < |s| ==> s[i] == s[1..][i - 1];
      Contains(s[1..], k)
  }

  /** `validatePassword`: the four lookaheads, then the length and the allowed characters. */
  function ValidatePassword(s: string): (ok: bool)
    ensures ok <==> PasswordPattern(s)
  {
    && Contains(s, LowerClass) && Contains(s, UpperClass)
    && Contains(s, DigitClass) && Contains(s, SpecialClass)
    && |s| >= 8 && (forall i :: 0 <= i < |s| ==> IsPasswordChar(s[i]))
  }

  /* ---------- name.trim() ---------- */

  /** The characters `String.prototype.trim` removes: white space and line terminators. */
  predicate IsJsWhitespace(c: char)
  {
    || c == '\t' || c == '\n' || c == '\U{000B}' || c == '\U{000C}' || c == '\r' || c == ' '
    || c == '\U{00A0}' || c == '\U{1680}' || ('\U{2000}' <= c <= '\U{200A}')
    || c == '\U{2028}' || c == '\U{2029}' || c == '\U{202F}' || c == '\U{205F}'
    || c == '\U{3000}' || c == '\U{FEFF}'
  }

  function TrimStart(s: string): (r: string)
    ensures |r| <= |s|
    ensures r == s[|s| - |r|..]
    ensures r != [] ==> !IsJsWhitespace(r[0])
    ensures forall i :: 0 <= i < |s| - |r| ==> IsJsWhitespace(s[i])
  {
    if s != [] && IsJsWhitespace(s[0]) then
      var r := TrimStart(s[1..]);
      assert forall i :: 1 <= i < |s| ==> s[i] == s[1..][i - 1];
      r
    else s
  }

  function TrimEnd(s: string): (r: string)
    ensures |r| <= |s|
    ensures r == s[..|r|]
    ensures r != [] ==> !IsJsWhitespace(r[|r| - 1])
    ensures forall i :: |r| <= i < |s| ==> IsJsWhitespace(s[i])
  {
    if s != [] && IsJsWhitespace(s[|s| - 1]) then TrimEnd(s[..|s| - 1]) else s
  }

  /** `name.trim()`: the name without leading and trailing white space. */
  function Trim(s: string): string
  {
    TrimEnd(TrimStart(s))
  }

  /** White space only, the empty string included. */
  predicate IsBlank(s: string)
  {
    forall i :: 0 <= i < |s| ==> IsJsWhitespace(s[i])
  }

  /** `!name.trim()`: a name trims to the empty string exactly when it is blank. */
  lemma TrimEmptyIffBlank(s: string)
    ensures Trim(s) == "" <==> IsBlank(s)
  {
    var t := TrimStart(s);
    if t != [] {
      assert TrimEnd(t) != [];
      assert !IsJsWhitespace(s[|s| - |t|]);
    }
  }

  /* ---------- The page ---------- */

  const EmailTakenBody: string := "Email already exists"

  class RegisterForm {
    var name: string
    var email: string
    var password: string
    var emailError: bool
    var passwordError: bool
    var loading: bool

    constructor ()
      ensures name == "" && email == "" && password == ""
      ensures !emailError && !passwordError && !loading
    {
      name, email, password := "", "", "";
      emailError, passwordError, loading := false, false, false;
    }

    method SetName(value: string)
      modifies this`name
      ensures name == value
    {
      name := value;
    }

    method SetEmail(value: string)
      modifies this`email
      ensures email == value
    {
      email := value;
    }

    method SetPassword(value: string)
      modifies this`password
      ensures password == value
    {
      password := value;
    }

    /** The message under the email field, shown only while the field is flagged. */
    function EmailMessage(): (m: Option<string>)
      reads this
      ensures m.Some? <==> emailError
      ensures emailError ==> (m == Some("Invalid email format.") <==> !EmailPattern(email))
      ensures emailError ==> (m == Some("Email already exists.") <==> EmailPattern(email))
    {
      if !emailError then None
      else if ValidateEmail(email) then Some("Email already exists.")
      else Some("Invalid email format.")
    }

    /**
     * `handleRegister`: all three checks run and each field flag reflects its own
     * validator; any failed check sends nothing; a 400 "Email already exists"
     * refusal flags the email field; a success leads to the login page.
     */
    method Register(reply: Reply<()>) returns (requested: bool, navigateTo: Option<string>)
      modifies this`emailError, this`passwordError, this`loading
      ensures requested <==> !IsBlank(name) && EmailPattern(email) && PasswordPattern(password)
      ensures passwordError == !PasswordPattern(password)
      ensures emailError == (!EmailPattern(email) || (requested && FailedWith(reply, 400, EmailTakenBody)))
      ensures loading == (if requested then false else old(loading))
      ensures navigateTo == (if requested && reply.Ok? then Some("/login") else None)
    {
      var nameOk := !IsBlank(name);
      var emailOk := ValidateEmail(email);
      var passwordOk := ValidatePassword(password);
      var hasError := false;
      if !nameOk {
        hasError := true;
      }
      if !emailOk {
        emailError := true;
        hasError := true;
      } else {
        emailError := false;
      }
      if !passwordOk {
        passwordError := true;
        hasError := true;
      } else {
        passwordError := false;
      }
      if hasError {
        return false, None;
      }
      requested := true;
      loading := true;
      navigateTo := None;
      match reply {
        case Ok(_) =>
          navigateTo := Some("/login");
        case Failed(response) =>
          if response.Some? && response.value.status == 400 && response.value.body == EmailTakenBody {
            emailError := true;
          }
      }
      loading := false;
    }
  }
}
