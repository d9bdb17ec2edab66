/**
 * The session store (src/utils/auth.ts): a bearer token and the cached
 * user profile kept under two keys of the browser's persistent
 * key-value storage, the queries over them, login, logout and the
 * request headers.
 *
 * The browser is the class Browser: its `localStorage` is a map from key
 * to stored entry, `hasWindow` says whether the code runs where `window`
 * exists (it does not during server rendering), and `navigatedTo` records
 * the last assignment to `window.location.href`.
 */
module Auth {
  import opened Wrappers
  import opened Js

  datatype User = User(id: int, name: string, email: string, role: string)

  /** The body of a successful login response. */
  datatype LoginResponse = LoginResponse(message: string, token: string, user: User)

  /** How the login request ended: an ok response with its body, or a
      non-ok response whose JSON envelope may carry an `error` text. */
  datatype LoginReply = Accepted(data: LoginResponse) | Rejected(error: Option<string>)

  /** A storage entry: plain text, or a user profile stored as its JSON text. */
  datatype Stored = Text(text: string) | UserJson(user: User)

  const TokenKey := "auth_token"
  const UserKey := "auth_user"
  const LoginPath := "/login"

  /** The headers of an API request: JSON content type, and a bearer token
      exactly when the token is present and not empty. */
  function HeadersFor(token: Option<string>): (h: map<string, string>)
    ensures "Content-Type" in h && h["Content-Type"] == "application/json"
    ensures "Authorization" in h <==> Truthy(token)
    ensures "Authorization" in h ==> h["Authorization"] == "Bearer " + token.value
    ensures h.Keys <= {"Content-Type", "Authorization"}
  {
    if Truthy(token) then map["Authorization" := "Bearer " + token.value, "Content-Type" := "application/json"]
    else map["Content-Type" := "application/json"]
  }

  /** The failure message of `login`: the envelope's `error`, or "Login failed"
      when it is missing or empty; never empty. */
  function LoginFailure(error: Option<string>): (m: string)
    ensures m != ""
    ensures Truthy(error) ==> m == error.value
    ensures !Truthy(error) ==> m == "Login failed"
  {
    OrElse(error, "Login failed")
  }

  class Browser {
    var hasWindow: bool
    var storage: map<string, Stored>
    var navigatedTo: Option<string>

    /** The two keys hold what the store writes there. */
    ghost predicate Valid()
      reads this
    {
      && (TokenKey in storage ==> storage[TokenKey].Text?)
      && (UserKey in storage ==> storage[UserKey].UserJson?)
    }

    /** A page load over whatever the storage already holds. */
    constructor (hasWindow: bool, storage: map<string, Stored>)
      requires TokenKey in storage ==> storage[TokenKey].Text?
      requires UserKey in storage ==> storage[UserKey].UserJson?
      ensures Valid()
      ensures this.hasWindow == hasWindow && this.storage == storage && navigatedTo == None
    {
      this.hasWindow := hasWindow;
      this.storage := storage;
      navigatedTo := None;
    }

    /** getAuthToken. */
    function GetAuthToken(): (r: Option<string>)
      reads this
      requires Valid()
      ensures r.Some? <==> hasWindow && TokenKey in storage
      ensures r.Some? ==> storage[TokenKey] == Text(r.value)
    {
      if hasWindow && TokenKey in storage then Some(storage[TokenKey].text) else None
    }

    /** getAuthUser. */
    function GetAuthUser(): (r: Option<User>)
      reads this
      requires Valid()
      ensures r.Some? <==> hasWindow && UserKey in storage
      ensures r.Some? ==> storage[UserKey] == UserJson(r.value)
    {
      if hasWindow && UserKey in storage then Some(storage[UserKey].user) else None
    }

    /** isAuthenticated: a token entry exists, even an empty one. */
    function IsAuthenticated(): (b: bool)
      reads this
      requires Valid()
      ensures b <==> hasWindow && TokenKey in storage
    {
      GetAuthToken() != None
    }

    /** isAdmin: a cached user exists and its role is exactly "ADMIN". */
    function IsAdmin(): (b: bool)
      reads this
      requires Valid()
      ensures b <==> hasWindow && UserKey in storage && storage[UserKey].user.role == "ADMIN"
    {
      match GetAuthUser()
      case Some(u) => u.role == "ADMIN"
      case None => false
    }

    /** getAuthHeaders. */
    function GetAuthHeaders(): (h: map<string, string>)
      reads this
      requires Valid()
      ensures "Content-Type" in h && h["Content-Type"] == "application/json"
      ensures "Authorization" in h <==> hasWindow && TokenKey in storage && storage[TokenKey].text != ""
      ensures "Authorization" in h ==> h["Authorization"] == "Bearer " + storage[TokenKey].text
    {
      HeadersFor(GetAuthToken())
    }

    method SetAuthToken(token: string)
      requires Valid()
      modifies this
      ensures Valid()
      ensures storage == if hasWindow then old(storage)[TokenKey := Text(token)] else old(storage)
      ensures hasWindow == old(hasWindow) && navigatedTo == old(navigatedTo)
      ensures hasWindow ==> GetAuthToken() == Some(token) && IsAuthenticated()
      ensures GetAuthUser() == old(GetAuthUser())
    {
      if !hasWindow {
        return;
      }
      storage := storage[TokenKey := Text(token)];
    }

    /** removeAuthToken: removes the token and the cached user together. */
    method RemoveAuthToken()
      requires Valid()
      modifies this
      ensures Valid()
      ensures storage == if hasWindow then old(storage) - {TokenKey, UserKey} else old(storage)
      ensures hasWindow == old(hasWindow) && navigatedTo == old(navigatedTo)
      ensures hasWindow ==> !IsAuthenticated() && !IsAdmin() && GetAuthUser() == None
    {
      if !hasWindow {
        return;
      }
      storage := storage - {TokenKey};
      storage := storage - {UserKey};
    }

    method SetAuthUser(user: User)
      requires Valid()
      modifies this
      ensures Valid()
      ensures storage == if hasWindow then old(storage)[UserKey := UserJson(user)] else old(storage)
      ensures hasWindow == old(hasWindow) && navigatedTo == old(navigatedTo)
      ensures hasWindow ==> GetAuthUser() == Some(user) && (IsAdmin() <==> user.role == "ADMIN")
      ensures GetAuthToken() == old(GetAuthToken())
    {
      if !hasWindow {
        return;
      }
      storage := storage[UserKey := UserJson(user)];
    }

    /** login, given how the request ended: a rejection surfaces as an
        error and stores nothing; an acceptance stores the token and the
        user and returns the response body. */
    method Login(reply: LoginReply) returns (r: Result<LoginResponse>)
      requires Valid()
      modifies this
      ensures Valid()
      ensures hasWindow == old(hasWindow) && navigatedTo == old(navigatedTo)
      ensures reply.Rejected? ==> r == Err(LoginFailure(reply.error)) && storage == old(storage)
      ensures reply.Accepted? ==> r == Ok(reply.data)
      ensures reply.Accepted? ==>
        storage == if hasWindow then old(storage)[TokenKey := Text(reply.data.token)][UserKey := UserJson(reply.data.user)]
                   else old(storage)
      ensures reply.Accepted? && hasWindow ==>
        && GetAuthToken() == Some(reply.data.token) && GetAuthUser() == Some(reply.data.user)
        && IsAuthenticated() && (IsAdmin() <==> reply.data.user.role == "ADMIN")
    {
      match reply
      case Rejected(error) =>
        r := Err(LoginFailure(error));
      case Accepted(data) =>
        SetAuthToken(data.token);
        SetAuthUser(data.user);
        r := Ok(data);
    }

    /** logout: clears the session and navigates to the login page. Without a
        window the navigation throws, reported here as `ok == false`, after a
        removal that did nothing. */
    method Logout() returns (ok: bool)
      requires Valid()
      modifies this
      ensures Valid()
      ensures ok == hasWindow && hasWindow == old(hasWindow)
      ensures ok ==> storage == old(storage) - {TokenKey, UserKey} && navigatedTo == Some(LoginPath)
      ensures ok ==> !IsAuthenticated() && !IsAdmin()
      ensures !ok ==> storage == old(storage) && navigatedTo == old(navigatedTo)
    {
      RemoveAuthToken();
      if !hasWindow {
        return false;
      }
      navigatedTo := Some(LoginPath);
      return true;
    }
  }

  /** Without a window every query reports no session and the headers carry no token. */
  lemma NoWindowNoSession(b: Browser)
    requires b.Valid() && !b.hasWindow
    ensures b.GetAuthToken() == None && b.GetAuthUser() == None
    ensures !b.IsAuthenticated() && !b.IsAdmin()
    ensures b.GetAuthHeaders() == map["Content-Type" := "application/json"]
  {
  }

  /** An empty stored token counts as a session but earns no Authorization header. */
  lemma EmptyTokenAuthenticatedWithoutHeader(b: Browser)
    requires b.Valid() && b.hasWindow && TokenKey in b.storage && b.storage[TokenKey] == Text("")
    ensures b.IsAuthenticated()
    ensures "Authorization" !in b.GetAuthHeaders()
  {
  }

  /** A token without a cached user is a session but never an admin one. */
  lemma TokenWithoutUserIsNotAdmin(b: Browser)
    requires b.Valid() && TokenKey in b.storage && UserKey !in b.storage
    ensures b.IsAuthenticated() == b.hasWindow
    ensures !b.IsAdmin()
  {
  }
}
