/**
 * src/context/AuthContext.tsx: the `AuthProvider` state (`user`, `token`,
 * `loading`) and the operations that change it. Each operation runs as one
 * sequential step; the remote answers are parameters.
 */
module AuthContext {
  import opened Wrappers
  import opened JsValues
  import opened Web
  import opened ApiClient
  import opened MockAuthService

  const DashboardPage := "/dashboard"

  /** What `useAuth()` hands to consumers. */
  datatype ContextValue = ContextValue(user: Option<User>, token: Option<string>, isAuthenticated: bool, loading: bool)

  class AuthProvider {
    const service: AuthService
    const router: Router
    const toaster: Toaster
    var user: Option<User>
    var token: Option<string>
    var loading: bool

    /** The initial `useState` values: no user, no token, loading. */
    constructor(service: AuthService, router: Router, toaster: Toaster)
      ensures this.service == service && this.router == router && this.toaster == toaster
      ensures user == None && token == None && loading
    {
      this.service := service;
      this.router := router;
      this.toaster := toaster;
      user := None;
      token := None;
      loading := true;
    }

    /** `isAuthenticated: !!user`. */
    function IsAuthenticated(): bool
      reads this
    {
      user.Some?
    }

    /** The context value the provider publishes. */
    function Value(): (v: ContextValue)
      reads this
      ensures v.isAuthenticated <==> v.user.Some?
      ensures v.user == user && v.token == token && v.loading == loading
    {
      ContextValue(user, token, IsAuthenticated(), loading)
    }

    /**
     * `fetchUserProfile`: the profile becomes `user`; a failure removes both
     * stored tokens and leaves `user` as it was. `loading` ends false either way.
     */
    method FetchUserProfile(profile: Script<User>)
      modifies this, service.client, service.client.storage, service.client.window, service.client.network
      ensures var x := ApiExchange(old(service.client.storage.items), old(service.client.defaultAuthorization),
                                   Get, ProfileUrl, profile);
        user == (if x.result.Ok? then Some(x.result.value) else old(user))
        && service.client.storage.items == (if x.result.Ok? then x.store else x.store - {TokenKey} - {RefreshKey})
        && service.client.defaultAuthorization == x.defaultAuthorization
        && service.client.window.hrefs == old(service.client.window.hrefs) + (if x.redirected then [LoginPage] else [])
        && service.client.network.sent == old(service.client.network.sent) + x.calls
      ensures token == old(token) && !loading
    {
      var r := service.GetProfile(profile);
      match r {
      case Ok(u) =>
        user := Some(u);
      case Fail(_) =>
        service.client.RemoveToken();
        service.client.storage.Remove(RefreshKey);
      }
      loading := false;
    }

    /**
     * The mount effect. Without a truthy stored token only `loading` changes.
     * With one, `token` takes it and the profile is fetched; after a failed
     * fetch storage is cleared but `token` still holds the old value.
     */
    method Bootstrap(profile: Script<User>)
      modifies this, service.client, service.client.storage, service.client.window, service.client.network
      ensures !loading
      ensures var stored := Lookup(old(service.client.storage.items), TokenKey);
        if !PropTruthy(stored) then
          user == old(user) && token == old(token)
          && service.client.storage.items == old(service.client.storage.items)
          && service.client.network.sent == old(service.client.network.sent)
          && service.client.window.hrefs == old(service.client.window.hrefs)
          && service.client.defaultAuthorization == old(service.client.defaultAuthorization)
        else
          var x := ApiExchange(old(service.client.storage.items), old(service.client.defaultAuthorization),
                               Get, ProfileUrl, profile);
          token == stored
          && user == (if x.result.Ok? then Some(x.result.value) else old(user))
          && service.client.storage.items == (if x.result.Ok? then x.store else x.store - {TokenKey} - {RefreshKey})
          && service.client.defaultAuthorization == x.defaultAuthorization
          && service.client.window.hrefs == old(service.client.window.hrefs) + (if x.redirected then [LoginPage] else [])
          && service.client.network.sent == old(service.client.network.sent) + x.calls
    {
      var stored := service.client.GetToken();
      if PropTruthy(stored) {
        token := stored;
        FetchUserProfile(profile);
      } else {
        loading := false;
      }
    }

    /**
     * `login`: on success `token` and `user` come from the response and the
     * router goes to `/dashboard`; on failure they stay, the server's message
     * (or a fixed text) is shown and the error rethrown. `loading` ends false.
     */
    method Login(email: string, password: string, response: Outcome<AuthResponse>) returns (r: Outcome<()>)
      modifies this, service.client.storage, service.client.network, router, toaster
      ensures !loading
      ensures response.Ok? ==>
        r == Ok(()) && token == Some(response.value.token) && user == Some(response.value.user)
        && router.pushes == old(router.pushes) + [DashboardPage]
        && toaster.shown == old(toaster.shown) + [Success("Login successful!")]
        && service.client.storage.items
           == old(service.client.storage.items)[TokenKey := response.value.token][RefreshKey := response.value.refreshToken]
      ensures response.Fail? ==>
        r == Fail(response.failure) && user == old(user) && token == old(token)
        && router.pushes == old(router.pushes)
        && toaster.shown == old(toaster.shown)
           + [Error(response.failure.MessageOr("Login failed. Please check your credentials."))]
        && service.client.storage.items == old(service.client.storage.items)
      ensures service.client.network.sent == old(service.client.network.sent) + [BareCall(Post, LoginUrl)]
    {
      loading := true;
      var res := service.Login(email, password, response);
      match res {
      case Ok(data) =>
        token := Some(data.token);
        user := Some(data.user);
        toaster.Show(Success("Login successful!"));
        router.Push(DashboardPage);
        r := Ok(());
      case Fail(f) =>
        toaster.Show(Error(f.MessageOr("Login failed. Please check your credentials.")));
        r := Fail(f);
      }
      loading := false;
    }

    /**
     * `register`: never sets `user` or `token`; on success the router goes to
     * `/login`, on failure the error is shown and rethrown.
     */
    method Register(response: Outcome<User>) returns (r: Outcome<()>)
      modifies this, service.client.network, router, toaster
      ensures !loading && user == old(user) && token == old(token)
      ensures response.Ok? ==>
        r == Ok(()) && router.pushes == old(router.pushes) + [LoginPage]
        && toaster.shown == old(toaster.shown) + [Success("Registration successful! Please login.")]
      ensures response.Fail? ==>
        r == Fail(response.failure) && router.pushes == old(router.pushes)
        && toaster.shown == old(toaster.shown) + [Error(response.failure.MessageOr("Registration failed."))]
      ensures service.client.network.sent == old(service.client.network.sent) + [BareCall(Post, RegisterUrl)]
    {
      loading := true;
      var res := service.Register(response);
      match res {
      case Ok(_) =>
        toaster.Show(Success("Registration successful! Please login."));
        router.Push(LoginPage);
        r := Ok(());
      case Fail(f) =>
        toaster.Show(Error(f.MessageOr("Registration failed.")));
        r := Fail(f);
      }
      loading := false;
    }

    /**
     * `logout`: whatever the remote call does, the session ends with no user,
     * no token, both stored tokens removed and the router at `/login`.
     */
    method Logout(s: Script<()>)
      modifies this, service.client, service.client.storage, service.client.window, service.client.network,
               router, toaster
      ensures user == None && token == None && !loading
      ensures TokenKey !in service.client.storage.items && RefreshKey !in service.client.storage.items
      ensures router.pushes == old(router.pushes) + [LoginPage]
      ensures toaster.shown == old(toaster.shown) + [Info("You have been logged out")]
      ensures var x := ApiExchange(old(service.client.storage.items), old(service.client.defaultAuthorization),
                                   Post, LogoutUrl, s);
        service.client.storage.items == x.store - {TokenKey} - {RefreshKey}
        && service.client.defaultAuthorization == x.defaultAuthorization
        && service.client.window.hrefs == old(service.client.window.hrefs) + (if x.redirected then [LoginPage] else [])
        && service.client.network.sent == old(service.client.network.sent) + x.calls
    {
      loading := true;
      service.Logout(s);
      user := None;
      token := None;
      loading := false;
      router.Push(LoginPage);
      toaster.Show(Info("You have been logged out"));
    }

    /**
     * `updateProfile`: without a user it rejects with 'User not authenticated'
     * before any request; otherwise the server's answer replaces `user`.
     * `loading` ends false in every case, including the first.
     */
    method UpdateProfile(s: Script<User>) returns (r: Outcome<()>)
      modifies this, service.client, service.client.storage, service.client.window, service.client.network, toaster
      ensures !loading && token == old(token)
      ensures old(user).None? ==>
        r == Fail(Thrown("User not authenticated")) && user == None
        && toaster.shown == old(toaster.shown) + [Error("Failed to update profile")]
        && service.client.storage.items == old(service.client.storage.items)
        && service.client.network.sent == old(service.client.network.sent)
        && service.client.window.hrefs == old(service.client.window.hrefs)
        && service.client.defaultAuthorization == old(service.client.defaultAuthorization)
      ensures old(user).Some? ==>
        var x := ApiExchange(old(service.client.storage.items), old(service.client.defaultAuthorization),
                             Put, ProfileUrl, s);
        service.client.storage.items == x.store
        && service.client.defaultAuthorization == x.defaultAuthorization
        && service.client.window.hrefs == old(service.client.window.hrefs) + (if x.redirected then [LoginPage] else [])
        && service.client.network.sent == old(service.client.network.sent) + x.calls
        && (x.result.Ok? ==>
              r == Ok(()) && user == Some(x.result.value)
              && toaster.shown == old(toaster.shown) + [Success("Profile updated successfully")])
        && (x.result.Fail? ==>
              r == Fail(x.result.failure) && user == old(user)
              && toaster.shown == old(toaster.shown) + [Error(x.result.failure.MessageOr("Failed to update profile"))])
    {
      if user.None? {
        var e := Thrown("User not authenticated");
        toaster.Show(Error(e.MessageOr("Failed to update profile")));
        loading := false;
        r := Fail(e);
        return;
      }
      loading := true;
      var res := service.UpdateProfile(s);
      match res {
      case Ok(u) =>
        user := Some(u);
        toaster.Show(Success("Profile updated successfully"));
        r := Ok(());
      case Fail(f) =>
        toaster.Show(Error(f.MessageOr("Failed to update profile")));
        r := Fail(f);
      }
      loading := false;
    }
  }
}
