/**
 * The navigation bar: follows the auth state published by the auth service,
 * shows the signed-in user's name, and opens and closes the user menu.
 *
 * The profile request is not modelled: `OnAuthStateChange` says whether it
 * is sent, and its two outcomes are `OnProfileFetched` and
 * `OnProfileFetchError`.  `isAuthenticated$` is a behaviour subject, so
 * subscribing delivers the current value at once, and a later `logout`
 * delivers `false` to the subscriber before it returns.
 */
module Navbar {
  import opened Options
  import opened Strings
  import opened Auth
  import Users

  const DEFAULT_USERNAME := "Usuario"

  /** `getCurrentUserEmail()?.split('@')[0] || 'Usuario'`. */
  function UsernameFromEmail(email: Option<string>): (name: string)
    ensures name != ""
    ensures email.Some? && FirstPiece(email.value, '@') != "" ==>
              name == FirstPiece(email.value, '@') && StartsWith(email.value, name) && '@' !in name
    ensures (email.None? || FirstPiece(email.value, '@') == "") ==> name == DEFAULT_USERNAME
  {
    match email
    case None => DEFAULT_USERNAME
    case Some(e) => if FirstPiece(e, '@') != "" then FirstPiece(e, '@') else DEFAULT_USERNAME
  }

  class NavbarComponent {
    const authService: AuthService
    var isAuthenticated: bool
    var username: string
    var isDropdownOpen: bool
    /** Whether `ngOnInit` has subscribed to the auth state. */
    var subscribed: bool

    constructor(authService: AuthService)
      ensures this.authService == authService
      ensures !isAuthenticated && username == "" && !isDropdownOpen && !subscribed
    {
      this.authService := authService;
      isAuthenticated := false;
      username := "";
      isDropdownOpen := false;
      subscribed := false;
    }

    /** A value published on `isAuthenticated$`; the result says whether the
        profile is requested. */
    method OnAuthStateChange(isAuth: bool) returns (fetchProfile: bool)
      modifies this
      ensures isAuthenticated == isAuth && fetchProfile == isAuth
      ensures !isAuth ==> username == ""
      ensures isAuth ==> username == old(username)
      ensures isDropdownOpen == old(isDropdownOpen) && subscribed == old(subscribed)
    {
      isAuthenticated := isAuth;
      fetchProfile := isAuth;
      if !isAuth {
        username := "";
      }
    }

    method NgOnInit() returns (fetchProfile: bool)
      modifies this
      ensures subscribed && isAuthenticated == old(authService.authenticated)
      ensures fetchProfile == isAuthenticated
      ensures !isAuthenticated ==> username == ""
      ensures isAuthenticated ==> username == old(username)
      ensures isDropdownOpen == old(isDropdownOpen)
    {
      subscribed := true;
      fetchProfile := OnAuthStateChange(authService.authenticated);
    }

    method OnProfileFetched(user: Users.UserDTO)
      modifies this
      ensures username == user.firstName
      ensures isAuthenticated == old(isAuthenticated) && isDropdownOpen == old(isDropdownOpen)
      ensures subscribed == old(subscribed)
    {
      username := user.firstName;
    }

    method OnProfileFetchError()
      modifies this
      ensures username == UsernameFromEmail(authService.GetCurrentUserEmail())
      ensures isAuthenticated == old(isAuthenticated) && isDropdownOpen == old(isDropdownOpen)
      ensures subscribed == old(subscribed)
    {
      username := UsernameFromEmail(authService.GetCurrentUserEmail());
    }

    method ToggleDropdown()
      modifies this
      ensures isDropdownOpen == !old(isDropdownOpen)
      ensures isAuthenticated == old(isAuthenticated) && username == old(username)
      ensures subscribed == old(subscribed)
    {
      isDropdownOpen := !isDropdownOpen;
    }

    method CloseDropdown()
      modifies this
      ensures !isDropdownOpen
      ensures isAuthenticated == old(isAuthenticated) && username == old(username)
      ensures subscribed == old(subscribed)
    {
      isDropdownOpen := false;
    }

    /** A click anywhere in the document; `insideUserMenu` is whether its
        target lies inside the user menu. */
    method OnDocumentClick(insideUserMenu: bool)
      modifies this
      ensures isDropdownOpen == (old(isDropdownOpen) && insideUserMenu)
      ensures isAuthenticated == old(isAuthenticated) && username == old(username)
      ensures subscribed == old(subscribed)
    {
      if !insideUserMenu {
        isDropdownOpen := false;
      }
    }

    method OnLogout() returns (navigateTo: string)
      modifies this, authService, authService.store
      ensures !isDropdownOpen
      ensures authService.store.entries == AfterLogout(old(authService.store.entries), authService.tokenKey)
      ensures !authService.authenticated && !authService.IsAuthenticated()
      ensures subscribed == old(subscribed)
      ensures subscribed ==> !isAuthenticated && username == ""
      ensures !subscribed ==> isAuthenticated == old(isAuthenticated) && username == old(username)
      ensures navigateTo == "/login"
    {
      CloseDropdown();
      navigateTo := authService.Logout();
      if subscribed {
        var _ := OnAuthStateChange(false);
      }
    }
  }

  /** The fallback name is the text before the first '@' of the stored
      e-mail: for "ana@pollo.pe" it is "ana". */
  lemma UsernameOfTypicalEmail(local: string, domain: string)
    requires local != "" && '@' !in local
    ensures UsernameFromEmail(Some(local + "@" + domain)) == local
  {
    var e := local + "@" + domain;
    assert e[|local|] == '@' && e[..|local|] == local;
    assert IndexOfChar(e, '@') == |local| by {
      var i := IndexOfChar(e, '@');
      assert e[..i + 1][i] == '@';
    }
    assert Split(e, '@')[0] == e[..|local|];
  }
}
