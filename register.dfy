/**
 * The registration page: an ordered chain of checks on the form, the call
 * to the auth service, the redirect to the login page on success, and the
 * message shown for each kind of failure.
 *
 * The request's outcome arrives through `OnRegisterSuccess` and
 * `OnRegisterError`; navigation is returned as a path and its query
 * parameters.  `JSON.stringify` of an error body is the parameter
 * `stringify`.
 */
module Register {
  import opened Options
  import opened JsValues
  import opened Guards
  import opened EmailPattern
  import opened HttpErrors
  import opened Auth
  import opened ApiUrls
  import Login

  const MSG_FILL_ALL := "Por favor, completa todos los campos"
  const MSG_ACCEPT_TERMS := "Debes aceptar los términos y condiciones"
  const MSG_DNI_LENGTH := "El DNI debe tener 8 dígitos"
  const MSG_INVALID_EMAIL := "Por favor, ingresa un email válido"
  const MSG_SHORT_PASSWORD := "La contraseña debe tener al menos 6 caracteres"
  const MSG_PASSWORD_MISMATCH := "Las contraseñas no coinciden"
  const MSG_INVALID_DATA := "Datos inválidos. Revisa los campos e intenta nuevamente."
  const MSG_NO_CONNECTION := "No se pudo conectar con el servidor"
  const MSG_CREATE_FAILED := "Error al crear la cuenta. Intenta nuevamente"

  /** The values the form's fields are bound to. */
  datatype RegisterForm = RegisterForm(
    name: string,
    lastName: string,
    dni: string,
    address: string,
    birthDate: string,
    email: string,
    password: string,
    confirmPassword: string,
    acceptTerms: bool,
    acceptPrivacy: bool)

  predicate AllFilled(f: RegisterForm) {
    f.name != "" && f.lastName != "" && f.dni != "" && f.address != ""
    && f.birthDate != "" && f.email != "" && f.password != "" && f.confirmPassword != ""
  }

  /** The checks, in the order `onSubmit` runs them. */
  function RegisterChecks(f: RegisterForm): seq<Check> {
    [ Check(AllFilled(f), MSG_FILL_ALL),
      Check(f.acceptTerms && f.acceptPrivacy, MSG_ACCEPT_TERMS),
      Check(|f.dni| == 8, MSG_DNI_LENGTH),
      Check(IsValidEmail(f.email), MSG_INVALID_EMAIL),
      Check(|f.password| >= 6, MSG_SHORT_PASSWORD),
      Check(f.password == f.confirmPassword, MSG_PASSWORD_MISMATCH) ]
  }

  /** The guard chain of `onSubmit` as written: the message of the first
      check that fails, or `None` when the form is accepted.
      `GuardChainIsFirstFailure` shows it is the generic first-failure rule
      applied to `RegisterChecks`. */
  function SubmitError(f: RegisterForm): Option<string> {
    if !AllFilled(f) then Some(MSG_FILL_ALL)
    else if !f.acceptTerms || !f.acceptPrivacy then Some(MSG_ACCEPT_TERMS)
    else if |f.dni| != 8 then Some(MSG_DNI_LENGTH)
    else if !IsValidEmail(f.email) then Some(MSG_INVALID_EMAIL)
    else if |f.password| < 6 then Some(MSG_SHORT_PASSWORD)
    else if f.password != f.confirmPassword then Some(MSG_PASSWORD_MISMATCH)
    else None
  }

  lemma GuardChainIsFirstFailure(f: RegisterForm)
    ensures SubmitError(f) == FirstFailure(RegisterChecks(f))
  {
    var checks := RegisterChecks(f);
    if !AllFilled(f) {
      FirstFailureAt(checks, 0);
    } else if !(f.acceptTerms && f.acceptPrivacy) {
      FirstFailureAt(checks, 1);
    } else if |f.dni| != 8 {
      FirstFailureAt(checks, 2);
    } else if !IsValidEmail(f.email) {
      FirstFailureAt(checks, 3);
    } else if |f.password| < 6 {
      FirstFailureAt(checks, 4);
    } else if f.password != f.confirmPassword {
      FirstFailureAt(checks, 5);
    } else {
      assert forall k :: 0 <= k < |checks| ==> checks[k].passes;
    }
  }

  /** The text the backend sent about the failure: a text body as it is, the
      `message` of any other truthy body, else that body in JSON; a falsy
      body stays falsy. */
  function BackendMessage(body: JsValue, stringify: JsValue -> string): JsValue {
    if Truthy(body) && !body.Str? then
      var m := Get(body, "message");
      if Truthy(m) then m else Str(stringify(body))
    else body
  }

  /** The message for a failed registration. */
  function RegisterErrorMessage(err: HttpError, stringify: JsValue -> string): (m: string)
    ensures m != ""
    ensures err.status == 0 ==> m == MSG_NO_CONNECTION
    ensures err.status == 400 && !Truthy(BackendMessage(err.error, stringify)) ==> m == MSG_INVALID_DATA
    ensures err.status !in {0, 400} && !Truthy(BackendMessage(err.error, stringify)) ==> m == MSG_CREATE_FAILED
    ensures err.status != 0 && Truthy(BackendMessage(err.error, stringify)) ==>
              m == JsString(BackendMessage(err.error, stringify))
  {
    var backend := BackendMessage(err.error, stringify);
    if err.status == 400 then TextOr(backend, MSG_INVALID_DATA)
    else if err.status == 0 then MSG_NO_CONNECTION
    else TextOr(backend, MSG_CREATE_FAILED)
  }

  /** The query parameters of the redirect to the login page. */
  function LoginRedirectParams(email: string): map<string, string> {
    map["registered" := "1", "email" := email]
  }

  class RegisterComponent {
    const authService: AuthService
    var name: string
    var lastName: string
    var dni: string
    var address: string
    var birthDate: string
    var email: string
    var password: string
    var confirmPassword: string
    var acceptTerms: bool
    var acceptPrivacy: bool
    var showPassword: bool
    var showConfirmPassword: bool
    var errorMessage: string
    var isLoading: bool

    constructor(authService: AuthService)
      ensures this.authService == authService
      ensures Form() == RegisterForm("", "", "", "", "", "", "", "", false, false)
      ensures !showPassword && !showConfirmPassword && errorMessage == "" && !isLoading
    {
      this.authService := authService;
      name, lastName, dni, address, birthDate := "", "", "", "", "";
      email, password, confirmPassword := "", "", "";
      acceptTerms, acceptPrivacy := false, false;
      showPassword, showConfirmPassword := false, false;
      errorMessage := "";
      isLoading := false;
    }

    function Form(): RegisterForm
      reads this
    {
      RegisterForm(name, lastName, dni, address, birthDate, email, password, confirmPassword,
                   acceptTerms, acceptPrivacy)
    }

    /** The submit handler: the message is cleared, the checks run in order
        and the first failing one sets its message; when all pass the page
        shows it is busy and hands the form to the auth service, whose URL
        and body are returned. */
    method OnSubmit() returns (request: Option<(string, RegisterRequest)>)
      modifies this, authService
      ensures Form() == old(Form())
      ensures showPassword == old(showPassword) && showConfirmPassword == old(showConfirmPassword)
      ensures SubmitError(Form()).Some? ==>
                && errorMessage == SubmitError(Form()).value
                && isLoading == old(isLoading)
                && request.None?
                && authService.apiUrl == old(authService.apiUrl)
      ensures SubmitError(Form()).None? ==>
                && errorMessage == "" && isLoading
                && request.Some?
                && request.value.1 == RegisterRequest(name, lastName, email, password, dni, birthDate, Some(address))
                && request.value.0 == authService.apiUrl + "/register"
                && (old(authService.apiUrl) == "" ==>
                      authService.apiUrl == ServiceRoot(authService.envApiUrl, authService.envApiPrefix, "auth"))
                && (old(authService.apiUrl) != "" ==> authService.apiUrl == old(authService.apiUrl))
      ensures authService.authenticated == old(authService.authenticated)
    {
      errorMessage := "";
      if name == "" || lastName == "" || dni == "" || address == ""
         || birthDate == "" || email == "" || password == "" || confirmPassword == "" {
        errorMessage := MSG_FILL_ALL;
        return None;
      }
      if !acceptTerms || !acceptPrivacy {
        errorMessage := MSG_ACCEPT_TERMS;
        return None;
      }
      if |dni| != 8 {
        errorMessage := MSG_DNI_LENGTH;
        return None;
      }
      if !IsValidEmail(email) {
        errorMessage := MSG_INVALID_EMAIL;
        return None;
      }
      if |password| < 6 {
        errorMessage := MSG_SHORT_PASSWORD;
        return None;
      }
      if password != confirmPassword {
        errorMessage := MSG_PASSWORD_MISMATCH;
        return None;
      }
      isLoading := true;
      var url, body := authService.Register(name, lastName, email, password, dni, birthDate, Some(address));
      request := Some((url, body));
    }

    /** The account was created: off to the login page, which is told about
        the registration and given the e-mail. */
    method OnRegisterSuccess() returns (navigateTo: string, queryParams: map<string, string>)
      modifies this
      ensures !isLoading && Form() == old(Form()) && errorMessage == old(errorMessage)
      ensures showPassword == old(showPassword) && showConfirmPassword == old(showConfirmPassword)
      ensures navigateTo == "/login" && queryParams == LoginRedirectParams(email)
    {
      isLoading := false;
      navigateTo := "/login";
      queryParams := LoginRedirectParams(email);
    }

    method OnRegisterError(err: HttpError, stringify: JsValue -> string)
      modifies this
      ensures !isLoading && errorMessage == RegisterErrorMessage(err, stringify)
      ensures Form() == old(Form())
      ensures showPassword == old(showPassword) && showConfirmPassword == old(showConfirmPassword)
    {
      isLoading := false;
      errorMessage := RegisterErrorMessage(err, stringify);
    }

    method TogglePasswordVisibility()
      modifies this
      ensures showPassword == !old(showPassword) && showConfirmPassword == old(showConfirmPassword)
      ensures Form() == old(Form()) && errorMessage == old(errorMessage) && isLoading == old(isLoading)
    {
      showPassword := !showPassword;
    }

    method ToggleConfirmPasswordVisibility()
      modifies this
      ensures showConfirmPassword == !old(showConfirmPassword) && showPassword == old(showPassword)
      ensures Form() == old(Form()) && errorMessage == old(errorMessage) && isLoading == old(isLoading)
    {
      showConfirmPassword := !showConfirmPassword;
    }
  }

  /** The first failing check decides the message: each check's message is
      shown exactly when every earlier check passes and it fails, and the
      form is accepted exactly when all six pass. */
  lemma RegisterCheckOrder(f: RegisterForm)
    ensures !AllFilled(f) ==> FirstFailure(RegisterChecks(f)) == Some(MSG_FILL_ALL)
    ensures AllFilled(f) && !(f.acceptTerms && f.acceptPrivacy) ==>
              FirstFailure(RegisterChecks(f)) == Some(MSG_ACCEPT_TERMS)
    ensures AllFilled(f) && f.acceptTerms && f.acceptPrivacy && |f.dni| != 8 ==>
              FirstFailure(RegisterChecks(f)) == Some(MSG_DNI_LENGTH)
    ensures AllFilled(f) && f.acceptTerms && f.acceptPrivacy && |f.dni| == 8 && !MatchesEmailRegex(f.email) ==>
              FirstFailure(RegisterChecks(f)) == Some(MSG_INVALID_EMAIL)
    ensures AllFilled(f) && f.acceptTerms && f.acceptPrivacy && |f.dni| == 8 && MatchesEmailRegex(f.email)
            && |f.password| < 6 ==>
              FirstFailure(RegisterChecks(f)) == Some(MSG_SHORT_PASSWORD)
    ensures AllFilled(f) && f.acceptTerms && f.acceptPrivacy && |f.dni| == 8 && MatchesEmailRegex(f.email)
            && |f.password| >= 6 && f.password != f.confirmPassword ==>
              FirstFailure(RegisterChecks(f)) == Some(MSG_PASSWORD_MISMATCH)
    ensures FirstFailure(RegisterChecks(f)).None? <==>
              AllFilled(f) && f.acceptTerms && f.acceptPrivacy && |f.dni| == 8 && MatchesEmailRegex(f.email)
              && |f.password| >= 6 && f.password == f.confirmPassword
  {
    EmailCheckMatchesRegex(f.email);
    GuardChainIsFirstFailure(f);
  }

  /** Only the DNI's length is checked: replacing it by any other text of the
      same length changes no outcome, so eight letters pass as well as eight
      digits. */
  lemma DniContentIgnored(f: RegisterForm, dni: string)
    requires |dni| == |f.dni| && (dni == "" <==> f.dni == "")
    ensures FirstFailure(RegisterChecks(f.(dni := dni))) == FirstFailure(RegisterChecks(f))
  {
    assert RegisterChecks(f.(dni := dni)) == RegisterChecks(f);
  }

  /** The login page opened by the redirect shows the registration message,
      and prefills the e-mail whenever it is not empty. */
  lemma RedirectReachesLogin(email: string)
    ensures Login.AnnouncesRegistration(LoginRedirectParams(email))
    ensures email != "" ==> Login.PrefillEmail(LoginRedirectParams(email)) == Some(email)
  {
  }

  /** The three kinds of error body: a text body is shown as it is, a record
      with a text `message` shows that message, and a record without one is
      shown in JSON (unless the server could not be reached). */
  lemma RegisterErrorBodies(status: int, stringify: JsValue -> string, text: string, fields: map<string, JsValue>)
    requires status != 0
    ensures text != "" ==> RegisterErrorMessage(HttpError(status, Str(text)), stringify) == text
    ensures "message" in fields && fields["message"].Str? && fields["message"].s != "" ==>
              RegisterErrorMessage(HttpError(status, Obj(fields)), stringify) == fields["message"].s
    ensures "message" !in fields && stringify(Obj(fields)) != "" ==>
              RegisterErrorMessage(HttpError(status, Obj(fields)), stringify) == stringify(Obj(fields))
  {
  }
}
