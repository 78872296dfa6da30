/**
 * The profile page: loads the signed-in user, shows the profile form
 * ("username" holds the full name, "email" the address) and a password form,
 * and saves either one through the user service.
 *
 * Angular's form machinery is written out: a control's value is `None` when
 * it is `null` (what `reset()` leaves), `Validators.required` fails on `null`
 * and on "", `Validators.minLength(n)` passes on those and otherwise asks for
 * at least n characters, and a form group is invalid when a control is
 * invalid or the group's own validator reports an error.  The verdict of
 * `Validators.email` is an input.  The requests are not modelled: the save
 * methods return the body they would send, and each outcome is a method.
 */
module Profile {
  import opened Options
  import opened Strings
  import opened JsValues
  import opened HttpErrors
  import opened Auth
  import opened Users

  const MSG_FIX_FIELDS := "Por favor, completa todos los campos correctamente"
  const MSG_PASSWORD_MISMATCH := "Las contraseñas no coinciden"
  const MSG_PROFILE_SAVED := "Perfil actualizado correctamente"
  const MSG_PROFILE_SAVE_FAILED := "No se pudo actualizar el perfil. Intenta nuevamente."
  const MSG_PASSWORD_SAVED := "Contraseña actualizada correctamente"
  const MSG_WRONG_PASSWORD := "La contraseña actual es incorrecta"
  const MSG_PASSWORD_SAVE_FAILED := "No se pudo cambiar la contraseña. Intenta nuevamente."
  const MSG_SERVER_SILENT := "El servidor no responde. Intenta de nuevo más tarde."

  datatype ProfileForm = ProfileForm(username: string, email: string)

  datatype PasswordForm = PasswordForm(currentPassword: Option<string>, newPassword: Option<string>, confirmPassword: Option<string>)

  const EMPTY_PASSWORD_FORM := PasswordForm(Some(""), Some(""), Some(""))
  /** What `reset()` leaves: every control `null`. */
  const RESET_PASSWORD_FORM := PasswordForm(None, None, None)

  /** `Validators.required`. */
  predicate Required(v: Option<string>) {
    v.Some? && v.value != ""
  }

  /** `Validators.minLength(n)`: an empty value passes. */
  predicate MinLength(v: Option<string>, n: nat) {
    v.None? || v.value == "" || |v.value| >= n
  }

  /** The profile form is valid: a name of at least three characters and an
      e-mail that is present and accepted by the e-mail validator. */
  predicate ProfileFormValid(f: ProfileForm, emailFormatOk: bool) {
    Required(Some(f.username)) && MinLength(Some(f.username), 3)
    && Required(Some(f.email)) && emailFormatOk
  }

  /** Every password control passes its own validators. */
  predicate PasswordControlsValid(f: PasswordForm) {
    Required(f.currentPassword) && MinLength(f.currentPassword, 6)
    && Required(f.newPassword) && MinLength(f.newPassword, 6)
    && Required(f.confirmPassword)
  }

  /** `passwordMatchValidator`: the error `passwordMismatch` exactly when the
      new password and its confirmation differ (`null` equals `null`). */
  function PasswordMatchValidator(f: PasswordForm): (errors: Option<set<string>>)
    ensures errors.Some? <==> f.newPassword != f.confirmPassword
    ensures errors.Some? ==> errors.value == {"passwordMismatch"}
  {
    if f.newPassword != f.confirmPassword then Some({"passwordMismatch"}) else None
  }

  /** `passwordForm.invalid`: a control fails, or the group validator does. */
  predicate PasswordFormInvalid(f: PasswordForm) {
    !PasswordControlsValid(f) || PasswordMatchValidator(f).Some?
  }

  /** The guard of `savePassword` as written: the invalid-form test comes
      first, and it already includes the mismatch. */
  function SavePasswordGuardAsWritten(f: PasswordForm): Option<string> {
    if PasswordFormInvalid(f) then Some(MSG_FIX_FIELDS)
    else if PasswordMatchValidator(f).Some? then Some(MSG_PASSWORD_MISMATCH)
    else None
  }

  /** The guard as evidently intended: a mismatch between otherwise valid
      controls gets its own message. */
  function SavePasswordGuard(f: PasswordForm): Option<string> {
    if !PasswordControlsValid(f) then Some(MSG_FIX_FIELDS)
    else if PasswordMatchValidator(f).Some? then Some(MSG_PASSWORD_MISMATCH)
    else None
  }

  /** The name split of `saveProfile`: the trimmed name is cut at every
      space; the first piece is the first name and the rest, joined again
      with spaces, the last name, which falls back to the first name when it
      is empty. */
  function SplitFullNameBySplit(username: string): (names: (string, string)) {
    var parts := Split(Trim(username), ' ');
    var rest := Join(parts[1..], ' ');
    (parts[0], if rest != "" then rest else parts[0])
  }

  /** The same split, stated by the first space of the trimmed name: the text
      before it and the text after it. */
  function SplitFullName(username: string): (names: (string, string)) {
    SplitAtSpace(Trim(username))
  }

  function SplitAtSpace(t: string): (names: (string, string)) {
    var i := IndexOfChar(t, ' ');
    if i < 0 then (t, t)
    else (t[..i], if t[i + 1..] != "" then t[i + 1..] else t[..i])
  }

  /** Cutting at every space and joining all but the first piece again is
      the same as cutting at the first space. */
  lemma SplitAtFirstSpace(username: string)
    ensures SplitFullName(username) == SplitFullNameBySplit(username)
  {
    var t := Trim(username);
    var i := IndexOfChar(t, ' ');
    if i >= 0 {
      var parts := Split(t, ' ');
      assert parts[1..] == Split(t[i + 1..], ' ');
    }
  }

  /** The body `saveProfile` sends: the split name, the e-mail, and no
      address. */
  function ProfileUpdate(f: ProfileForm): (r: UpdateUserRequest)
    ensures r.email == Some(f.email) && r.address.None?
    ensures r.firstName.Some? && r.lastName.Some?
  {
    var names := SplitFullName(f.username);
    UpdateUserRequest(Some(names.0), Some(names.1), Some(f.email), None)
  }

  /** `extractErrorMessage`: the `message` of a record, when it is text. */
  function ExtractErrorMessage(err: JsValue): (r: Option<string>)
    ensures r.Some? <==> err.Obj? && "message" in err.fields && err.fields["message"].Str?
    ensures r.Some? ==> r.value == err.fields["message"].s
  {
    if err.Obj? && "message" in err.fields && err.fields["message"].Str? then Some(err.fields["message"].s)
    else None
  }

  /** The message the loading timer shows when the profile never arrived. */
  function TimeoutMessage(lastError: JsValue): (m: string)
    ensures m != ""
    ensures ExtractErrorMessage(lastError).Some? && ExtractErrorMessage(lastError).value != "" ==>
              m == "Error: " + ExtractErrorMessage(lastError).value
    ensures (ExtractErrorMessage(lastError).None? || ExtractErrorMessage(lastError).value == "") ==>
              m == MSG_SERVER_SILENT
  {
    var maybe := ExtractErrorMessage(lastError);
    if maybe.Some? && maybe.value != "" then "Error: " + maybe.value else MSG_SERVER_SILENT
  }

  /** The message for a failed password change. */
  function PasswordErrorMessage(err: HttpError): (m: string)
    ensures m != ""
    ensures err.status == 400 || err.status == 401 ==> m == MessageOr(err.error, MSG_WRONG_PASSWORD)
    ensures err.status != 400 && err.status != 401 ==> m == MSG_PASSWORD_SAVE_FAILED
  {
    if err.status == 400 || err.status == 401 then MessageOr(err.error, MSG_WRONG_PASSWORD)
    else MSG_PASSWORD_SAVE_FAILED
  }

  class ProfileComponent {
    const authService: AuthService
    var userProfile: Option<UserDTO>
    var isLoading: bool
    var error: Option<string>
    var lastError: JsValue
    var isEditingProfile: bool
    var isEditingPassword: bool
    var isSavingProfile: bool
    var isSavingPassword: bool
    var successMessage: Option<string>
    var profileError: Option<string>
    var passwordError: Option<string>
    var profileForm: ProfileForm
    var passwordForm: PasswordForm

    constructor(authService: AuthService)
      ensures this.authService == authService
      ensures userProfile.None? && isLoading && error.None? && lastError == Null
      ensures !isEditingProfile && !isEditingPassword && !isSavingProfile && !isSavingPassword
      ensures successMessage.None? && profileError.None? && passwordError.None?
      ensures profileForm == ProfileForm("", "") && passwordForm == EMPTY_PASSWORD_FORM
    {
      this.authService := authService;
      userProfile := None;
      isLoading := true;
      error := None;
      lastError := Null;
      isEditingProfile, isEditingPassword := false, false;
      isSavingProfile, isSavingPassword := false, false;
      successMessage, profileError, passwordError := None, None, None;
      profileForm := ProfileForm("", "");
      passwordForm := EMPTY_PASSWORD_FORM;
    }

    method InitForms()
      modifies this
      ensures profileForm == ProfileForm("", "") && passwordForm == EMPTY_PASSWORD_FORM
      ensures userProfile == old(userProfile) && isLoading == old(isLoading) && error == old(error)
      ensures lastError == old(lastError) && successMessage == old(successMessage)
      ensures isEditingProfile == old(isEditingProfile) && isSavingProfile == old(isSavingProfile)
      ensures profileError == old(profileError)
      ensures isEditingPassword == old(isEditingPassword) && isSavingPassword == old(isSavingPassword)
      ensures passwordError == old(passwordError)
    {
      profileForm := ProfileForm("", "");
      passwordForm := EMPTY_PASSWORD_FORM;
    }

    /** Starts loading the profile (the request is not modelled). */
    method LoadUserProfile()
      modifies this
      ensures isLoading && error.None?
      ensures userProfile == old(userProfile) && profileForm == old(profileForm)
      ensures passwordForm == old(passwordForm) && lastError == old(lastError)
      ensures successMessage == old(successMessage)
      ensures isEditingProfile == old(isEditingProfile) && isSavingProfile == old(isSavingProfile)
      ensures profileError == old(profileError)
      ensures isEditingPassword == old(isEditingPassword) && isSavingPassword == old(isSavingPassword)
      ensures passwordError == old(passwordError)
    {
      isLoading := true;
      error := None;
    }

    method NgOnInit()
      modifies this
      ensures profileForm == ProfileForm("", "") && passwordForm == EMPTY_PASSWORD_FORM
      ensures isLoading && error.None? && userProfile == old(userProfile)
      ensures lastError == old(lastError) && successMessage == old(successMessage)
      ensures isEditingProfile == old(isEditingProfile) && isSavingProfile == old(isSavingProfile)
      ensures profileError == old(profileError)
      ensures isEditingPassword == old(isEditingPassword) && isSavingPassword == old(isSavingPassword)
      ensures passwordError == old(passwordError)
    {
      InitForms();
      LoadUserProfile();
    }

    /** The form shows the full name as "first last" and the e-mail. */
    method PopulateProfileForm(data: UserDTO)
      modifies this
      ensures profileForm == ProfileForm(data.firstName + " " + data.lastName, data.email)
      ensures userProfile == old(userProfile) && isLoading == old(isLoading) && error == old(error)
      ensures isEditingProfile == old(isEditingProfile) && profileError == old(profileError)
      ensures successMessage == old(successMessage) && passwordForm == old(passwordForm)
      ensures lastError == old(lastError) && isSavingProfile == old(isSavingProfile)
      ensures isEditingPassword == old(isEditingPassword) && isSavingPassword == old(isSavingPassword)
      ensures passwordError == old(passwordError)
    {
      profileForm := ProfileForm(data.firstName + " " + data.lastName, data.email);
    }

    method OnProfileLoaded(data: UserDTO)
      modifies this
      ensures userProfile == Some(data) && !isLoading
      ensures profileForm == ProfileForm(data.firstName + " " + data.lastName, data.email)
      ensures error == old(error) && passwordForm == old(passwordForm)
      ensures lastError == old(lastError) && successMessage == old(successMessage)
      ensures isEditingProfile == old(isEditingProfile) && isSavingProfile == old(isSavingProfile)
      ensures profileError == old(profileError)
      ensures isEditingPassword == old(isEditingPassword) && isSavingPassword == old(isSavingPassword)
      ensures passwordError == old(passwordError)
    {
      userProfile := Some(data);
      PopulateProfileForm(data);
      isLoading := false;
    }

    /** A failed load only records the error for the loading timer. */
    method OnProfileLoadError(err: JsValue)
      modifies this
      ensures lastError == err
      ensures isLoading == old(isLoading) && error == old(error) && userProfile == old(userProfile)
      ensures profileForm == old(profileForm) && passwordForm == old(passwordForm)
      ensures successMessage == old(successMessage)
      ensures isEditingProfile == old(isEditingProfile) && isSavingProfile == old(isSavingProfile)
      ensures profileError == old(profileError)
      ensures isEditingPassword == old(isEditingPassword) && isSavingPassword == old(isSavingPassword)
      ensures passwordError == old(passwordError)
    {
      lastError := err;
    }

    /** The loading timer fires (its scheduling is not modelled). */
    method OnLoadingTimeout()
      modifies this
      ensures old(isLoading) ==> error == Some(TimeoutMessage(lastError)) && !isLoading
      ensures !old(isLoading) ==> error == old(error) && !isLoading
      ensures userProfile == old(userProfile) && lastError == old(lastError)
      ensures profileForm == old(profileForm) && passwordForm == old(passwordForm)
      ensures successMessage == old(successMessage)
      ensures isEditingProfile == old(isEditingProfile) && isSavingProfile == old(isSavingProfile)
      ensures profileError == old(profileError)
      ensures isEditingPassword == old(isEditingPassword) && isSavingPassword == old(isSavingPassword)
      ensures passwordError == old(passwordError)
    {
      if isLoading {
        error := Some(TimeoutMessage(lastError));
        isLoading := false;
      }
    }

    method EnableEditProfile()
      modifies this
      ensures isEditingProfile && profileError.None? && successMessage.None?
      ensures profileForm == old(profileForm) && isSavingProfile == old(isSavingProfile)
      ensures userProfile == old(userProfile) && isLoading == old(isLoading)
      ensures error == old(error) && lastError == old(lastError)
      ensures isEditingPassword == old(isEditingPassword) && isSavingPassword == old(isSavingPassword)
      ensures passwordError == old(passwordError) && passwordForm == old(passwordForm)
    {
      isEditingProfile := true;
      profileError := None;
      successMessage := None;
    }

    /** Leaving edit mode puts the loaded profile back into the form. */
    method CancelEditProfile()
      modifies this
      ensures !isEditingProfile && profileError.None?
      ensures old(userProfile).Some? ==>
                profileForm == ProfileForm(old(userProfile).value.firstName + " " + old(userProfile).value.lastName,
                                           old(userProfile).value.email)
      ensures old(userProfile).None? ==> profileForm == old(profileForm)
      ensures userProfile == old(userProfile) && successMessage == old(successMessage)
      ensures isSavingProfile == old(isSavingProfile) && isLoading == old(isLoading)
      ensures error == old(error) && lastError == old(lastError)
      ensures isEditingPassword == old(isEditingPassword) && isSavingPassword == old(isSavingPassword)
      ensures passwordError == old(passwordError) && passwordForm == old(passwordForm)
    {
      isEditingProfile := false;
      profileError := None;
      if userProfile.Some? {
        PopulateProfileForm(userProfile.value);
      }
    }

    /** `saveProfile`; `emailFormatOk` is the e-mail validator's verdict on
        the form's e-mail.  An invalid form only sets the error; a valid one
        marks the save as running and returns the request body. */
    method SaveProfile(emailFormatOk: bool) returns (request: Option<UpdateUserRequest>)
      modifies this
      ensures profileForm == old(profileForm) && isEditingProfile == old(isEditingProfile)
      ensures userProfile == old(userProfile) && isLoading == old(isLoading)
      ensures error == old(error) && lastError == old(lastError)
      ensures isEditingPassword == old(isEditingPassword) && isSavingPassword == old(isSavingPassword)
      ensures passwordError == old(passwordError) && passwordForm == old(passwordForm)
      ensures !ProfileFormValid(profileForm, emailFormatOk) ==>
                && profileError == Some(MSG_FIX_FIELDS) && request.None?
                && isSavingProfile == old(isSavingProfile) && successMessage == old(successMessage)
      ensures ProfileFormValid(profileForm, emailFormatOk) ==>
                && isSavingProfile && profileError.None? && successMessage.None?
                && request == Some(ProfileUpdate(profileForm))
    {
      var form := profileForm;
      if !ProfileFormValid(profileForm, emailFormatOk) {
        profileError := Some(MSG_FIX_FIELDS);
        return None;
      }
      isSavingProfile := true;
      profileError := None;
      successMessage := None;
      request := Some(ProfileUpdate(form));
    }

    method OnProfileSaved(data: UserDTO)
      modifies this
      ensures userProfile == Some(data) && !isSavingProfile && !isEditingProfile
      ensures successMessage == Some(MSG_PROFILE_SAVED)
      ensures profileError == old(profileError) && profileForm == old(profileForm)
      ensures isLoading == old(isLoading) && error == old(error) && lastError == old(lastError)
      ensures isEditingPassword == old(isEditingPassword) && isSavingPassword == old(isSavingPassword)
      ensures passwordError == old(passwordError) && passwordForm == old(passwordForm)
    {
      userProfile := Some(data);
      isSavingProfile := false;
      isEditingProfile := false;
      successMessage := Some(MSG_PROFILE_SAVED);
    }

    method OnProfileSaveError(err: HttpError)
      modifies this
      ensures !isSavingProfile && profileError == Some(MessageOr(err.error, MSG_PROFILE_SAVE_FAILED))
      ensures isEditingProfile == old(isEditingProfile) && userProfile == old(userProfile)
      ensures profileForm == old(profileForm) && successMessage == old(successMessage)
      ensures isLoading == old(isLoading) && error == old(error) && lastError == old(lastError)
      ensures isEditingPassword == old(isEditingPassword) && isSavingPassword == old(isSavingPassword)
      ensures passwordError == old(passwordError) && passwordForm == old(passwordForm)
    {
      isSavingProfile := false;
      profileError := Some(MessageOr(err.error, MSG_PROFILE_SAVE_FAILED));
    }

    method EnableChangePassword()
      modifies this
      ensures isEditingPassword && passwordError.None? && successMessage.None?
      ensures passwordForm == RESET_PASSWORD_FORM
      ensures isSavingPassword == old(isSavingPassword)
      ensures userProfile == old(userProfile) && isLoading == old(isLoading)
      ensures error == old(error) && lastError == old(lastError)
      ensures isEditingProfile == old(isEditingProfile) && isSavingProfile == old(isSavingProfile)
      ensures profileError == old(profileError) && profileForm == old(profileForm)
    {
      isEditingPassword := true;
      passwordError := None;
      successMessage := None;
      passwordForm := RESET_PASSWORD_FORM;
    }

    method CancelChangePassword()
      modifies this
      ensures !isEditingPassword && passwordError.None? && passwordForm == RESET_PASSWORD_FORM
      ensures successMessage == old(successMessage) && isSavingPassword == old(isSavingPassword)
      ensures userProfile == old(userProfile) && isLoading == old(isLoading)
      ensures error == old(error) && lastError == old(lastError)
      ensures isEditingProfile == old(isEditingProfile) && isSavingProfile == old(isSavingProfile)
      ensures profileError == old(profileError) && profileForm == old(profileForm)
    {
      isEditingPassword := false;
      passwordError := None;
      passwordForm := RESET_PASSWORD_FORM;
    }

    /** `savePassword` as written: the guard `SavePasswordGuardAsWritten`
        tests `passwordForm.invalid` before the mismatch, so a mismatch gets
        the generic message (see `MismatchMessageUnreachable`).  A failing
        guard only sets its message; otherwise the save is marked as running
        and the request body is returned. */
    method SavePassword() returns (request: Option<ChangePasswordRequest>)
      modifies this
      ensures SavePasswordGuardAsWritten(passwordForm).Some? ==>
                && passwordError == SavePasswordGuardAsWritten(passwordForm) && request.None?
                && isSavingPassword == old(isSavingPassword) && successMessage == old(successMessage)
      ensures SavePasswordGuardAsWritten(passwordForm).None? ==>
                && isSavingPassword && passwordError.None? && successMessage.None?
                && request == Some(ChangePasswordRequest(passwordForm.currentPassword.value,
                                                         passwordForm.newPassword.value))
      ensures passwordForm == old(passwordForm) && isEditingPassword == old(isEditingPassword)
      ensures userProfile == old(userProfile) && isLoading == old(isLoading)
      ensures error == old(error) && lastError == old(lastError)
      ensures isEditingProfile == old(isEditingProfile) && isSavingProfile == old(isSavingProfile)
      ensures profileError == old(profileError) && profileForm == old(profileForm)
    {
      var guard := SavePasswordGuardAsWritten(passwordForm);
      if guard.Some? {
        passwordError := guard;
        return None;
      }
      isSavingPassword := true;
      passwordError := None;
      successMessage := None;
      request := Some(ChangePasswordRequest(passwordForm.currentPassword.value, passwordForm.newPassword.value));
    }

    /** The password was changed; `message` is the response's `message`. */
    method OnPasswordChanged(message: JsValue)
      modifies this
      ensures !isSavingPassword && !isEditingPassword && passwordForm == RESET_PASSWORD_FORM
      ensures successMessage == Some(TextOr(message, MSG_PASSWORD_SAVED))
      ensures passwordError == old(passwordError)
      ensures userProfile == old(userProfile) && isLoading == old(isLoading)
      ensures error == old(error) && lastError == old(lastError)
      ensures isEditingProfile == old(isEditingProfile) && isSavingProfile == old(isSavingProfile)
      ensures profileError == old(profileError) && profileForm == old(profileForm)
    {
      isSavingPassword := false;
      isEditingPassword := false;
      passwordForm := RESET_PASSWORD_FORM;
      successMessage := Some(TextOr(message, MSG_PASSWORD_SAVED));
    }

    method OnPasswordChangeError(err: HttpError)
      modifies this
      ensures !isSavingPassword && passwordError == Some(PasswordErrorMessage(err))
      ensures isEditingPassword == old(isEditingPassword) && passwordForm == old(passwordForm)
      ensures successMessage == old(successMessage)
      ensures userProfile == old(userProfile) && isLoading == old(isLoading)
      ensures error == old(error) && lastError == old(lastError)
      ensures isEditingProfile == old(isEditingProfile) && isSavingProfile == old(isSavingProfile)
      ensures profileError == old(profileError) && profileForm == old(profileForm)
    {
      isSavingPassword := false;
      passwordError := Some(PasswordErrorMessage(err));
    }

    /** Logs out through the auth service, then goes to the login page. */
    method OnLogout() returns (navigateTo: string)
      modifies authService, authService.store
      ensures authService.store.entries == AfterLogout(old(authService.store.entries), authService.tokenKey)
      ensures !authService.IsAuthenticated() && navigateTo == "/login"
    {
      var _ := authService.Logout();
      navigateTo := "/login";
    }
  }

  /** As written, `savePassword` never shows the mismatch message: a
      mismatch already makes the form invalid, so the first guard catches it
      with the generic message. */
  lemma MismatchMessageUnreachable(f: PasswordForm)
    ensures SavePasswordGuardAsWritten(f) != Some(MSG_PASSWORD_MISMATCH)
    ensures PasswordFormInvalid(f) <==> SavePasswordGuardAsWritten(f) == Some(MSG_FIX_FIELDS)
  {
  }

  /** A concrete case: valid controls whose new password and confirmation
      differ in one letter get the generic message as written and the
      mismatch message as intended. */
  lemma MismatchExample()
    ensures var f := PasswordForm(Some("secreto1"), Some("abcdef"), Some("abcdeg"));
      && SavePasswordGuardAsWritten(f) == Some(MSG_FIX_FIELDS)
      && SavePasswordGuard(f) == Some(MSG_PASSWORD_MISMATCH)
  {
    var f := PasswordForm(Some("secreto1"), Some("abcdef"), Some("abcdeg"));
    assert f.newPassword != f.confirmPassword by {
      assert "abcdef"[5] != "abcdeg"[5];
    }
  }

  /** The intended guard shows the mismatch message exactly for valid
      controls that disagree, accepts exactly the forms the written guard
      accepts, and otherwise gives the same message. */
  lemma IntendedPasswordGuard(f: PasswordForm)
    ensures SavePasswordGuard(f) == Some(MSG_PASSWORD_MISMATCH) <==>
              PasswordControlsValid(f) && f.newPassword != f.confirmPassword
    ensures SavePasswordGuard(f).None? <==> SavePasswordGuardAsWritten(f).None?
    ensures SavePasswordGuard(f).None? <==> !PasswordFormInvalid(f)
    ensures SavePasswordGuard(f) != Some(MSG_PASSWORD_MISMATCH) ==> SavePasswordGuard(f) == SavePasswordGuardAsWritten(f)
  {
  }

  /** An accepted password form holds a current password and a new password
      of at least six characters each, and the confirmation equals the new
      password. */
  lemma AcceptedPasswordForm(f: PasswordForm)
    requires SavePasswordGuard(f).None?
    ensures f.currentPassword.Some? && |f.currentPassword.value| >= 6
    ensures f.newPassword.Some? && |f.newPassword.value| >= 6
    ensures f.confirmPassword == f.newPassword
  {
  }

  /** A form just reset fails the guard: `null` is not a value. */
  lemma ResetFormRejected()
    ensures SavePasswordGuard(RESET_PASSWORD_FORM) == Some(MSG_FIX_FIELDS)
    ensures PasswordMatchValidator(RESET_PASSWORD_FORM).None?
  {
  }

  /** For a name without white space at its ends: a space splits it into a
      first name without spaces and a rest that, glued back with one space,
      give the name; without a space the name is both first and last name. */
  lemma SplitAtSpaceRoundTrip(t: string)
    requires NoEdgeWhitespace(t)
    ensures var names := SplitAtSpace(t);
      && (' ' in t ==> names.0 + " " + names.1 == t && ' ' !in names.0)
      && (' ' !in t ==> names.0 == t && names.1 == t)
  {
    var i := IndexOfChar(t, ' ');
    if i >= 0 {
      assert IsJsWhitespace(t[i]);
      assert i != |t| - 1;
      assert t == t[..i] + " " + t[i + 1..];
    }
  }

  /** Splitting the full name and gluing the halves back with one space
      gives the trimmed name, when it has a space; otherwise the trimmed name
      is both first and last name. */
  lemma SplitRoundTrip(username: string)
    ensures var t, names := Trim(username), SplitFullName(username);
      && (' ' in t ==> names.0 + " " + names.1 == t && ' ' !in names.0)
      && (' ' !in t ==> names.0 == t && names.1 == t)
  {
    SplitAtSpaceRoundTrip(Trim(username));
  }

  /** The name the form shows, split again, gives back the stored first and
      last name when the first name has no space and neither name has white
      space at its outer end. */
  lemma PopulateThenSplit(first: string, last: string)
    requires first != "" && ' ' !in first && !IsJsWhitespace(first[0])
    requires last != "" && !IsJsWhitespace(last[|last| - 1])
    ensures SplitFullName(first + " " + last) == (first, last)
  {
    var u := first + " " + last;
    assert u[0] == first[0] && u[|u| - 1] == last[|last| - 1];
    TrimKeeps(u);
    assert u[..|first|] == first && u[|first|] == ' ';
    assert IndexOfChar(u, ' ') == |first| by {
      var i := IndexOfChar(u, ' ');
      assert u[..i + 1][i] == ' ';
    }
    assert u[|first| + 1..] == last;
    var parts := Split(u, ' ');
    assert parts == [first] + Split(last, ' ');
    assert parts[1..] == Split(last, ' ');
  }

  /** The timer reports a text `message` of the last error, and otherwise
      that the server did not answer. */
  lemma TimeoutMessages(text: string, other: JsValue)
    requires text != ""
    requires !(other.Obj? && "message" in other.fields && other.fields["message"].Str?)
    ensures TimeoutMessage(Obj(map["message" := Str(text)])) == "Error: " + text
    ensures TimeoutMessage(other) == MSG_SERVER_SILENT
    ensures TimeoutMessage(Null) == MSG_SERVER_SILENT
  {
  }
}
