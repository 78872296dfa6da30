/**
 * `AuthService`: the session of the signed-in user, kept in the browser's
 * storage under three keys (the configured token key, "user_email" and
 * "user_roles"), plus the last value published on `isAuthenticated$`.
 *
 * The HTTP calls are not modelled: `Login` and `Register` return the URL and
 * the body they would post, and the `tap` callbacks are the methods
 * `OnLoginResponse` and `OnRegisterResponse`.  Navigation is returned as the
 * target path.
 */
module Auth {
  import opened Options
  import opened RolesJson
  import opened ApiUrls
  import opened KeyValueStore

  const USER_EMAIL_KEY := "user_email"
  const USER_ROLES_KEY := "user_roles"

  datatype LoginRequest = LoginRequest(email: string, password: string)

  datatype RegisterRequest = RegisterRequest(
    firstName: string,
    lastName: string,
    email: string,
    password: string,
    dni: string,
    birthDate: string,
    address: Option<string>)

  datatype AuthResponse = AuthResponse(token: string, tokenType: Option<string>, email: string, roles: seq<string>)

  /** The three keys are distinct, as with the configured default
      token key "admin_token". */
  predicate DistinctKeys(tokenKey: string) {
    tokenKey != USER_EMAIL_KEY && tokenKey != USER_ROLES_KEY
  }

  /** `hasToken()`: a token is stored and is not the empty string. */
  predicate HasTokenIn(entries: map<string, string>, tokenKey: string) {
    tokenKey in entries && entries[tokenKey] != ""
  }

  /** `getCurrentUserRoles()`: no stored text (or empty text) gives [];
      otherwise the parsed array, `None` standing for text that `JSON.parse`
      would not turn into an array of strings. */
  function RolesIn(entries: map<string, string>): Option<seq<string>> {
    if USER_ROLES_KEY !in entries || entries[USER_ROLES_KEY] == "" then Some([])
    else ParseRoles(entries[USER_ROLES_KEY])
  }

  /** `isAdmin()`, `None` where reading the roles fails. */
  function IsAdminIn(entries: map<string, string>): Option<bool> {
    match RolesIn(entries)
    case None => None
    case Some(roles) => Some(HasAdminRole(roles))
  }

  /** The storage after a successful login. */
  function AfterLogin(entries: map<string, string>, tokenKey: string, response: AuthResponse): map<string, string> {
    entries[tokenKey := response.token][USER_EMAIL_KEY := response.email][USER_ROLES_KEY := Stringify(response.roles)]
  }

  /** The storage after logout. */
  function AfterLogout(entries: map<string, string>, tokenKey: string): map<string, string> {
    entries - {tokenKey, USER_EMAIL_KEY, USER_ROLES_KEY}
  }

  /** The Authorization header: a missing token prints as "null". */
  function BearerHeader(token: Option<string>): (h: string)
    ensures token.Some? ==> h == "Bearer " + token.value
    ensures token.None? ==> h == "Bearer null"
  {
    "Bearer " + token.GetOr("null")
  }

  class AuthService {
    const store: Store
    const tokenKey: string
    /** `environment.apiUrl` and `environment.apiPrefix`. */
    const envApiUrl: Option<string>
    const envApiPrefix: Option<string>
    var apiUrl: string
    /** The last value published on `isAuthenticated$`. */
    var authenticated: bool

    constructor(store: Store, tokenKey: string, envApiUrl: Option<string>, envApiPrefix: Option<string>)
      ensures this.store == store && this.tokenKey == tokenKey
      ensures this.envApiUrl == envApiUrl && this.envApiPrefix == envApiPrefix
      ensures apiUrl == "" && authenticated == HasTokenIn(store.entries, tokenKey)
    {
      this.store := store;
      this.tokenKey := tokenKey;
      this.envApiUrl := envApiUrl;
      this.envApiPrefix := envApiPrefix;
      apiUrl := "";
      authenticated := HasTokenIn(store.entries, tokenKey);
    }

    method NormalizeApi()
      modifies this
      ensures apiUrl == ServiceRoot(envApiUrl, envApiPrefix, "auth")
      ensures authenticated == old(authenticated)
    {
      apiUrl := JoinRoot(NormBase(envApiUrl), NormPrefix(envApiPrefix), "auth");
    }

    /** The root is computed on first use and kept afterwards. */
    method EnsureApiUrl()
      modifies this
      ensures old(apiUrl) == "" ==> apiUrl == ServiceRoot(envApiUrl, envApiPrefix, "auth")
      ensures old(apiUrl) != "" ==> apiUrl == old(apiUrl)
      ensures authenticated == old(authenticated)
    {
      if apiUrl == "" {
        NormalizeApi();
      }
    }

    method Login(email: string, password: string) returns (url: string, body: LoginRequest)
      modifies this
      ensures old(apiUrl) == "" ==> apiUrl == ServiceRoot(envApiUrl, envApiPrefix, "auth")
      ensures old(apiUrl) != "" ==> apiUrl == old(apiUrl)
      ensures url == apiUrl + "/login" && body == LoginRequest(email, password)
      ensures authenticated == old(authenticated)
    {
      EnsureApiUrl();
      url := apiUrl + "/login";
      body := LoginRequest(email, password);
    }

    method OnLoginResponse(response: AuthResponse)
      modifies store, this
      ensures store.entries == AfterLogin(old(store.entries), tokenKey, response)
      ensures authenticated && apiUrl == old(apiUrl)
      ensures DistinctKeys(tokenKey) ==>
                && (IsAuthenticated() <==> response.token != "")
                && GetCurrentUserEmail() == Some(response.email)
                && GetCurrentUserRoles() == Some(response.roles)
                && IsAdmin() == Some(HasAdminRole(response.roles))
    {
      store.SetItem(tokenKey, response.token);
      store.SetItem(USER_EMAIL_KEY, response.email);
      store.SetItem(USER_ROLES_KEY, Stringify(response.roles));
      authenticated := true;
      if DistinctKeys(tokenKey) {
        LoginStoresSession(old(store.entries), tokenKey, response);
      }
    }

    method Register(firstName: string, lastName: string, email: string, password: string,
                    dni: string, birthDate: string, address: Option<string>)
      returns (url: string, body: RegisterRequest)
      modifies this
      ensures old(apiUrl) == "" ==> apiUrl == ServiceRoot(envApiUrl, envApiPrefix, "auth")
      ensures old(apiUrl) != "" ==> apiUrl == old(apiUrl)
      ensures url == apiUrl + "/register"
      ensures body == RegisterRequest(firstName, lastName, email, password, dni, birthDate, address)
      ensures authenticated == old(authenticated)
    {
      EnsureApiUrl();
      url := apiUrl + "/register";
      body := RegisterRequest(firstName, lastName, email, password, dni, birthDate, address);
    }

    /** A successful registration stores nothing and does not sign in. */
    method OnRegisterResponse(response: AuthResponse)
      ensures store.entries == old(store.entries) && authenticated == old(authenticated)
    {
    }

    method Logout() returns (navigateTo: string)
      modifies store, this
      ensures store.entries == AfterLogout(old(store.entries), tokenKey)
      ensures !authenticated && apiUrl == old(apiUrl)
      ensures !IsAuthenticated() && GetCurrentUserEmail().None?
      ensures GetCurrentUserRoles() == Some([]) && IsAdmin() == Some(false)
      ensures navigateTo == "/login"
    {
      store.RemoveItem(tokenKey);
      store.RemoveItem(USER_EMAIL_KEY);
      store.RemoveItem(USER_ROLES_KEY);
      authenticated := false;
      navigateTo := "/login";
    }

    function GetToken(): Option<string>
      reads store
    {
      store.GetItem(tokenKey)
    }

    predicate IsAuthenticated()
      reads store
    {
      HasTokenIn(store.entries, tokenKey)
    }

    function GetCurrentUserEmail(): Option<string>
      reads store
    {
      store.GetItem(USER_EMAIL_KEY)
    }

    function GetCurrentUserRoles(): Option<seq<string>>
      reads store
    {
      RolesIn(store.entries)
    }

    function IsAdmin(): Option<bool>
      reads store
    {
      IsAdminIn(store.entries)
    }

    /** `getAuthHeaders()`, as name/value pairs. */
    function GetAuthHeaders(): (headers: seq<(string, string)>)
      reads store
      ensures |headers| == 2 && headers[0] == ("Content-Type", "application/json")
      ensures headers[1].0 == "Authorization"
      ensures IsAuthenticated() ==> headers[1].1 == "Bearer " + store.entries[tokenKey]
      ensures GetToken().Some? ==> headers[1].1 == "Bearer " + GetToken().value
      ensures GetToken().None? ==> headers[1].1 == "Bearer null"
    {
      [("Content-Type", "application/json"), ("Authorization", BearerHeader(GetToken()))]
    }
  }

  /** After a successful login the token, e-mail and roles read back as
      stored; the user counts as signed in exactly when the token is not
      empty, and as an administrator exactly when the roles name one. */
  lemma LoginStoresSession(entries: map<string, string>, tokenKey: string, response: AuthResponse)
    requires DistinctKeys(tokenKey)
    ensures var e := AfterLogin(entries, tokenKey, response);
      && e[tokenKey] == response.token
      && e[USER_EMAIL_KEY] == response.email
      && (HasTokenIn(e, tokenKey) <==> response.token != "")
      && RolesIn(e) == Some(response.roles)
      && IsAdminIn(e) == Some(HasAdminRole(response.roles))
  {
    var e := AfterLogin(entries, tokenKey, response);
    ParseStringify(response.roles);
    assert e[USER_ROLES_KEY] == Stringify(response.roles);
  }

  /** Login writes only the three session keys. */
  lemma LoginKeepsOtherKeys(entries: map<string, string>, tokenKey: string, response: AuthResponse, k: string)
    requires k != tokenKey && k != USER_EMAIL_KEY && k != USER_ROLES_KEY
    ensures k in AfterLogin(entries, tokenKey, response) <==> k in entries
    ensures k in entries ==> AfterLogin(entries, tokenKey, response)[k] == entries[k]
  {
  }

  /** After logout nobody is signed in, no e-mail is stored, the roles read
      as [] and the user is no administrator; every other key is kept. */
  lemma LogoutClearsSession(entries: map<string, string>, tokenKey: string, k: string)
    ensures var e := AfterLogout(entries, tokenKey);
      && !HasTokenIn(e, tokenKey)
      && USER_EMAIL_KEY !in e
      && RolesIn(e) == Some([])
      && IsAdminIn(e) == Some(false)
      && (k != tokenKey && k != USER_EMAIL_KEY && k != USER_ROLES_KEY ==>
            (k in e <==> k in entries) && (k in e ==> e[k] == entries[k]))
  {
  }

  /** A stored empty token does not count as a session. */
  lemma EmptyTokenSignedOut(entries: map<string, string>, tokenKey: string)
    requires tokenKey in entries && entries[tokenKey] == ""
    ensures !HasTokenIn(entries, tokenKey)
  {
  }
}
