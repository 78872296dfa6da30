/**
 * `UserService`: the endpoints for the signed-in user's profile and the
 * administrators' user list, and the one piece of state its callbacks touch,
 * the stored e-mail.  Every request carries the auth service's headers; the
 * requests themselves are not modelled, only the URLs they go to.
 */
module Users {
  import opened Options
  import opened Strings
  import opened ApiUrls
  import opened KeyValueStore
  import Auth

  datatype UserDTO = UserDTO(
    id: int,
    firstName: string,
    lastName: string,
    email: string,
    dni: string,
    birthDate: string,
    address: Option<string>,
    roles: seq<string>,
    createdAt: string)

  /** Every field optional, as the request type declares. */
  datatype UpdateUserRequest = UpdateUserRequest(
    firstName: Option<string>,
    lastName: Option<string>,
    email: Option<string>,
    address: Option<string>)

  datatype ChangePasswordRequest = ChangePasswordRequest(currentPassword: string, newPassword: string)

  const DEFAULT_PAGE := 0
  const DEFAULT_SIZE := 10

  /** The storage after a successful profile update: the e-mail is written
      only when the request carried a non-empty one. */
  function AfterProfileUpdate(entries: map<string, string>, request: UpdateUserRequest): map<string, string> {
    if request.email.Some? && request.email.value != "" then entries[Auth.USER_EMAIL_KEY := request.email.value]
    else entries
  }

  class UserService {
    const store: Store
    const apiUrl: string
    const adminApiUrl: string

    constructor(store: Store, envApiUrl: Option<string>, envApiPrefix: Option<string>)
      ensures this.store == store
      ensures apiUrl == ServiceRoot(envApiUrl, envApiPrefix, "user")
      ensures adminApiUrl == ServiceRoot(envApiUrl, envApiPrefix, "users")
    {
      this.store := store;
      var base := NormBase(envApiUrl);
      var prefix := NormPrefix(envApiPrefix);
      apiUrl := JoinRoot(base, prefix, "user");
      adminApiUrl := JoinRoot(base, prefix, "users");
    }

    /** `getCurrentUserProfile` and `updateProfile` both go to `/me`. */
    function ProfileUrl(): string {
      apiUrl + "/me"
    }

    function ChangePasswordUrl(): string {
      apiUrl + "/me/password"
    }

    function UserByIdUrl(id: int): string {
      adminApiUrl + "/" + IntToString(id)
    }

    /** `getAllUsers(page, size)`; the defaults are `DEFAULT_PAGE` and
        `DEFAULT_SIZE`. */
    function AllUsersUrl(page: int, size: int): string {
      adminApiUrl + "?page=" + IntToString(page) + "&size=" + IntToString(size)
    }

    method OnProfileUpdated(request: UpdateUserRequest, user: UserDTO)
      modifies store
      ensures store.entries == AfterProfileUpdate(old(store.entries), request)
    {
      if request.email.Some? && request.email.value != "" {
        store.SetItem(Auth.USER_EMAIL_KEY, request.email.value);
      }
    }
  }

  /** The administrators' root is the user root with an "s" added, whatever
      the configuration. */
  lemma AdminRootExtendsUserRoot(envApiUrl: Option<string>, envApiPrefix: Option<string>)
    ensures ServiceRoot(envApiUrl, envApiPrefix, "users") == ServiceRoot(envApiUrl, envApiPrefix, "user") + "s"
  {
  }

  /** The user and auth roots differ only in their last segment: both are the
      same normalised base and prefix followed by a '/'. */
  lemma UserAndAuthShareRoot(envApiUrl: Option<string>, envApiPrefix: Option<string>)
    ensures var user, auth := ServiceRoot(envApiUrl, envApiPrefix, "user"), ServiceRoot(envApiUrl, envApiPrefix, "auth");
      && |user| == |auth|
      && user[..|user| - 4] == auth[..|auth| - 4]
      && user[|user| - 4..] == "user" && auth[|auth| - 4..] == "auth"
  {
  }

  /** With the defaults the list asks for page 0 in pages of 10. */
  lemma AllUsersDefaults(service: UserService)
    ensures service.AllUsersUrl(DEFAULT_PAGE, DEFAULT_SIZE) == service.adminApiUrl + "?page=0&size=10"
  {
    assert IntToString(0) == "0";
    assert IntToString(10) == "10";
  }

  /** A non-empty e-mail in the request becomes the stored e-mail; without
      one the storage is left as it was. */
  lemma ProfileUpdateEmail(entries: map<string, string>, request: UpdateUserRequest)
    ensures request.email.Some? && request.email.value != "" ==>
              AfterProfileUpdate(entries, request)[Auth.USER_EMAIL_KEY] == request.email.value
    ensures !(request.email.Some? && request.email.value != "") ==> AfterProfileUpdate(entries, request) == entries
    ensures forall k :: k != Auth.USER_EMAIL_KEY ==>
              (k in AfterProfileUpdate(entries, request) <==> k in entries)
  {
  }
}
