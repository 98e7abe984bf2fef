/**
 * The page header (`HeaderComponent`): the signed-in flag and display name it mirrors from the
 * authentication service, and the menu that every navigation closes.
 */
module Header {
  import opened JsValue
  import opened Token
  import opened Auth
  import opened Navigation

  class HeaderComponent {
    var isMenuOpen: bool
    var isAuthenticated: bool
    /** `userName`, as the value `name || email || ''` yields. */
    var userName: Value

    const auth: AuthService
    const router: Router

    constructor(auth: AuthService, router: Router)
      ensures this.auth == auth && this.router == router
      ensures !isMenuOpen && !isAuthenticated && userName == Str("")
    {
      this.auth := auth;
      this.router := router;
      isMenuOpen := false;
      isAuthenticated := false;
      userName := Str("");
    }

    /** `checkAuthentication`, run at start-up and after every completed navigation. */
    method CheckAuthentication()
      modifies this
      ensures isAuthenticated == SignedIn(auth.tokens.storage.items)
      ensures !isAuthenticated ==> userName == Str("")
      ensures isAuthenticated ==> userName == DisplayName(auth.GetUserInfo(), "")
      ensures isMenuOpen == old(isMenuOpen)
    {
      isAuthenticated := auth.IsAuthenticated();
      if isAuthenticated {
        userName := DisplayName(auth.GetUserInfo(), "");
      } else {
        userName := Str("");
      }
    }

    method ToggleMenu()
      modifies this
      ensures isMenuOpen == !old(isMenuOpen)
      ensures isAuthenticated == old(isAuthenticated) && userName == old(userName)
    {
      isMenuOpen := !isMenuOpen;
    }

    method NavigateToLogin()
      modifies this, router
      ensures !isMenuOpen && router.navigations == old(router.navigations) + [LoginPath]
      ensures isAuthenticated == old(isAuthenticated) && userName == old(userName)
    {
      isMenuOpen := false;
      router.Navigate(LoginPath);
    }

    method NavigateToSignup()
      modifies this, router
      ensures !isMenuOpen && router.navigations == old(router.navigations) + [SignupPath]
      ensures isAuthenticated == old(isAuthenticated) && userName == old(userName)
    {
      isMenuOpen := false;
      router.Navigate(SignupPath);
    }

    /** `logout`: the service logs out (tokens cleared, home page), then the header resets. */
    method Logout()
      modifies this, auth.tokens.storage, auth.router
      ensures auth.tokens.storage.items == Cleared(old(auth.tokens.storage.items))
      ensures auth.router.navigations == old(auth.router.navigations) + [Home]
      ensures !isMenuOpen && !isAuthenticated && userName == Str("")
      ensures !SignedIn(auth.tokens.storage.items)
    {
      auth.Logout();
      isMenuOpen := false;
      isAuthenticated := false;
      userName := Str("");
    }
  }
}
