/**
 * The login page: a two-step check of the form, the call to the auth
 * service, the redirect chosen by the roles the server returns, and the
 * message shown for each kind of failure.
 *
 * The request's outcome arrives through `OnLoginSuccess` and `OnLoginError`;
 * navigation is returned as the target path.  The five-second timer that
 * hides the registration message is not modelled.
 */
module Login {
  import opened Options
  import opened JsValues
  import opened Guards
  import opened EmailPattern
  import opened RolesJson
  import opened HttpErrors
  import opened Auth
  import opened ApiUrls

  const MSG_FILL_ALL := "Por favor, completa todos los campos"
  const MSG_INVALID_EMAIL := "Por favor, ingresa un email válido"
  const MSG_REGISTERED := "Registro exitoso. Por favor inicia sesión."
  const MSG_BAD_CREDENTIALS := "Email o contraseña incorrectos"
  const MSG_NO_CONNECTION := "No se pudo conectar con el servidor"
  const MSG_LOGIN_FAILED := "Error al iniciar sesión. Intenta nuevamente"

  /** The form's checks, in the order `onSubmit` runs them. */
  function LoginChecks(email: string, password: string): seq<Check> {
    [ Check(email != "" && password != "", MSG_FILL_ALL),
      Check(IsValidEmail(email), MSG_INVALID_EMAIL) ]
  }

  /** Where a signed-in user is sent: `roles` is `None` when the response's
      `roles` is not an array, which counts as no roles. */
  function RedirectFor(roles: Option<seq<string>>): (path: string)
    ensures path == "/admin" || path == "/profile"
    ensures path == "/admin" <==> roles.Some? && ("ADMIN" in roles.value || "ROLE_ADMIN" in roles.value)
  {
    var rs := if roles.Some? then roles.value else [];
    if HasAdminRole(rs) then "/admin" else "/profile"
  }

  /** The message for a failed login. */
  function LoginErrorMessage(err: HttpError): (m: string)
    ensures m != ""
    ensures err.status == 401 || err.status == 403 ==> m == MSG_BAD_CREDENTIALS
    ensures err.status == 0 ==> m == MSG_NO_CONNECTION
    ensures err.status !in {0, 401, 403} ==> m == MessageOr(err.error, MSG_LOGIN_FAILED)
  {
    if err.status == 401 || err.status == 403 then MSG_BAD_CREDENTIALS
    else if err.status == 0 then MSG_NO_CONNECTION
    else MessageOr(err.error, MSG_LOGIN_FAILED)
  }

  /** The e-mail a query-parameter map prefills: present and non-empty. */
  function PrefillEmail(params: map<string, string>): (r: Option<string>)
    ensures r.Some? <==> "email" in params && params["email"] != ""
    ensures r.Some? ==> r.value == params["email"]
  {
    if "email" in params && params["email"] != "" then Some(params["email"]) else None
  }

  /** Whether the parameters announce a completed registration. */
  predicate AnnouncesRegistration(params: map<string, string>) {
    "registered" in params && params["registered"] != ""
  }

  class LoginComponent {
    const authService: AuthService
    var email: string
    var password: string
    var showPassword: bool
    var errorMessage: string
    var isLoading: bool
    var successMessage: Option<string>

    constructor(authService: AuthService)
      ensures this.authService == authService
      ensures email == "" && password == "" && !showPassword
      ensures errorMessage == "" && !isLoading && successMessage.None?
    {
      this.authService := authService;
      email := "";
      password := "";
      showPassword := false;
      errorMessage := "";
      isLoading := false;
      successMessage := None;
    }

    /** The query parameters the page was opened with; a parameter counts
        only when present and non-empty. */
    method OnQueryParams(params: map<string, string>)
      modifies this
      ensures email == PrefillEmail(params).GetOr(old(email))
      ensures AnnouncesRegistration(params) ==> successMessage == Some(MSG_REGISTERED)
      ensures !AnnouncesRegistration(params) ==> successMessage == old(successMessage)
      ensures password == old(password) && errorMessage == old(errorMessage)
      ensures isLoading == old(isLoading) && showPassword == old(showPassword)
    {
      var prefill := PrefillEmail(params);
      if prefill.Some? {
        email := prefill.value;
      }
      if AnnouncesRegistration(params) {
        successMessage := Some(MSG_REGISTERED);
      }
    }

    /** The submit handler.  A failing check only sets its message; when all
        pass, the page shows it is busy and hands the credentials to the auth
        service, whose URL and body are returned. */
    method OnSubmit() returns (request: Option<(string, LoginRequest)>)
      modifies this, authService
      ensures email == old(email) && password == old(password)
      ensures showPassword == old(showPassword) && successMessage == old(successMessage)
      ensures FirstFailure(LoginChecks(email, password)).Some? ==>
                && errorMessage == FirstFailure(LoginChecks(email, password)).value
                && isLoading == old(isLoading)
                && request.None?
                && authService.apiUrl == old(authService.apiUrl)
      ensures FirstFailure(LoginChecks(email, password)).None? ==>
                && errorMessage == "" && isLoading
                && request.Some? && request.value.1 == LoginRequest(email, password)
                && request.value.0 == authService.apiUrl + "/login"
                && (old(authService.apiUrl) == "" ==>
                      authService.apiUrl == ServiceRoot(authService.envApiUrl, authService.envApiPrefix, "auth"))
                && (old(authService.apiUrl) != "" ==> authService.apiUrl == old(authService.apiUrl))
      ensures authService.authenticated == old(authService.authenticated)
    {
      ghost var checks := LoginChecks(email, password);
      if email == "" || password == "" {
        FirstFailureAt(checks, 0);
        errorMessage := MSG_FILL_ALL;
        return None;
      }
      if !IsValidEmail(email) {
        FirstFailureAt(checks, 1);
        errorMessage := MSG_INVALID_EMAIL;
        return None;
      }
      assert checks[0].passes && checks[1].passes;
      isLoading := true;
      errorMessage := "";
      var url, body := authService.Login(email, password);
      request := Some((url, body));
    }

    /** The login succeeded (the auth service has stored the session). */
    method OnLoginSuccess(roles: Option<seq<string>>) returns (navigateTo: string)
      modifies this
      ensures !isLoading && navigateTo == RedirectFor(roles)
      ensures errorMessage == old(errorMessage) && email == old(email) && password == old(password)
      ensures showPassword == old(showPassword) && successMessage == old(successMessage)
    {
      isLoading := false;
      navigateTo := RedirectFor(roles);
    }

    method OnLoginError(err: HttpError)
      modifies this
      ensures !isLoading && errorMessage == LoginErrorMessage(err)
      ensures email == old(email) && password == old(password)
      ensures showPassword == old(showPassword) && successMessage == old(successMessage)
    {
      isLoading := false;
      errorMessage := LoginErrorMessage(err);
    }

    method TogglePasswordVisibility()
      modifies this
      ensures showPassword == !old(showPassword)
      ensures email == old(email) && password == old(password) && errorMessage == old(errorMessage)
      ensures isLoading == old(isLoading) && successMessage == old(successMessage)
    {
      showPassword := !showPassword;
    }
  }

  /** An empty field is reported first, whatever the e-mail looks like; a
      filled form with a malformed e-mail is reported as such; only a filled
      form with a well-formed e-mail passes. */
  lemma LoginCheckOrder(email: string, password: string)
    ensures email == "" || password == "" ==> FirstFailure(LoginChecks(email, password)) == Some(MSG_FILL_ALL)
    ensures email != "" && password != "" && !MatchesEmailRegex(email) ==>
              FirstFailure(LoginChecks(email, password)) == Some(MSG_INVALID_EMAIL)
    ensures FirstFailure(LoginChecks(email, password)).None? <==>
              email != "" && password != "" && MatchesEmailRegex(email)
  {
    EmailCheckMatchesRegex(email);
    var checks := LoginChecks(email, password);
    if email == "" || password == "" {
      FirstFailureAt(checks, 0);
    } else if !IsValidEmail(email) {
      FirstFailureAt(checks, 1);
    }
  }

  /** The page sends a user to the administration area exactly when the
      session the auth service has just stored makes `isAdmin()` true. */
  lemma RedirectMatchesStoredRole(entries: map<string, string>, tokenKey: string, response: AuthResponse)
    requires DistinctKeys(tokenKey)
    ensures RedirectFor(Some(response.roles)) == "/admin"
            <==> IsAdminIn(AfterLogin(entries, tokenKey, response)) == Some(true)
  {
    LoginStoresSession(entries, tokenKey, response);
  }
}
