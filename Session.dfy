/**
 * The browser's session storage, reduced to the two keys the pages use:
 * "auth-token" and "username". One object is shared by every page.
 */
module Session {
  import opened Common

  class SessionStorage {
    var authToken: Option<string>
    var username: Option<string>

    constructor (token: Option<string>, name: Option<string>)
      ensures authToken == token && username == name
    {
      authToken := token;
      username := name;
    }

    /** The two `setItem` calls a successful login makes. */
    method Store(token: string, name: string)
      modifies this
      ensures authToken == Some(token) && username == Some(name)
      ensures HasToken() <==> token != ""
    {
      authToken := Some(token);
      username := Some(name);
    }

    /** JavaScript truthiness of the stored token: present and not the empty string. */
    predicate HasToken()
      reads this
    {
      authToken.Some? && authToken.value != ""
    }
  }
}
