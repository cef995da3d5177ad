/**
 * src/services/api/mockAuthService.ts: the auth endpoints and what each does to
 * the stored tokens. Login, register and refresh use bare `axios`; the profile,
 * password and logout endpoints go through the intercepted `api`.
 */
module MockAuthService {
  import opened Wrappers
  import opened Web
  import opened ApiClient

  const LoginUrl := ApiUrl + "/auth/login"
  const RegisterUrl := ApiUrl + "/auth/register"
  const ProfileUrl := ApiUrl + "/auth/profile"
  const ChangePasswordUrl := ApiUrl + "/auth/change-password"
  const LogoutUrl := ApiUrl + "/auth/logout"

  /** A request through bare `axios`: no interceptor, no `Authorization` header. */
  function BareCall(verb: Verb, url: string): (c: Call)
    ensures c.authorization == None && !c.intercepted
  {
    Call(verb, url, None, false)
  }

  /** The exported `authService` object. */
  class AuthService {
    const client: Client

    constructor(client: Client)
      ensures this.client == client
    {
      this.client := client;
    }

    /**
     * `login`: on success both tokens are stored and the response is returned
     * as it came; on failure storage is left as it was and the error rethrown.
     */
    method Login(email: string, password: string, response: Outcome<AuthResponse>) returns (r: Outcome<AuthResponse>)
      modifies client.storage, client.network
      ensures r == response
      ensures client.network.sent == old(client.network.sent) + [BareCall(Post, LoginUrl)]
      ensures response.Ok? ==>
        client.storage.items == old(client.storage.items)[TokenKey := response.value.token][RefreshKey := response.value.refreshToken]
      ensures response.Fail? ==> client.storage.items == old(client.storage.items)
    {
      client.network.Send(BareCall(Post, LoginUrl));
      r := response;
      if response.Ok? {
        client.SetToken(response.value.token);
        client.storage.Set(RefreshKey, response.value.refreshToken);
      }
    }

    /** `register`: returns the created user; storage is outside what it may change. */
    method Register(response: Outcome<User>) returns (r: Outcome<User>)
      modifies client.network
      ensures r == response
      ensures client.network.sent == old(client.network.sent) + [BareCall(Post, RegisterUrl)]
    {
      client.network.Send(BareCall(Post, RegisterUrl));
      r := response;
    }

    /** `getProfile`, and its alias `getUserProfile`: `GET /auth/profile` through `api`. */
    method GetProfile(s: Script<User>) returns (r: Outcome<User>)
      modifies client, client.storage, client.window, client.network
      ensures var x := ApiExchange(old(client.storage.items), old(client.defaultAuthorization), Get, ProfileUrl, s);
        r == x.result && client.storage.items == x.store && client.defaultAuthorization == x.defaultAuthorization
        && client.window.hrefs == old(client.window.hrefs) + (if x.redirected then [LoginPage] else [])
        && client.network.sent == old(client.network.sent) + x.calls
    {
      r := client.Send(Get, ProfileUrl, s);
    }

    /** `updateProfile`: `PUT /auth/profile` through `api`. */
    method UpdateProfile(s: Script<User>) returns (r: Outcome<User>)
      modifies client, client.storage, client.window, client.network
      ensures var x := ApiExchange(old(client.storage.items), old(client.defaultAuthorization), Put, ProfileUrl, s);
        r == x.result && client.storage.items == x.store && client.defaultAuthorization == x.defaultAuthorization
        && client.window.hrefs == old(client.window.hrefs) + (if x.redirected then [LoginPage] else [])
        && client.network.sent == old(client.network.sent) + x.calls
    {
      r := client.Send(Put, ProfileUrl, s);
    }

    /** `changePassword`: true once the `api` call resolves, its rejection otherwise. */
    method ChangePassword(s: Script<()>) returns (r: Outcome<bool>)
      modifies client, client.storage, client.window, client.network
      ensures var x := ApiExchange(old(client.storage.items), old(client.defaultAuthorization), Put, ChangePasswordUrl, s);
        (r == Ok(true) <==> x.result.Ok?) && (x.result.Fail? ==> r == Fail(x.result.failure))
        && client.storage.items == x.store && client.defaultAuthorization == x.defaultAuthorization
        && client.window.hrefs == old(client.window.hrefs) + (if x.redirected then [LoginPage] else [])
        && client.network.sent == old(client.network.sent) + x.calls
    {
      var sent := client.Send(Put, ChangePasswordUrl, s);
      match sent
      case Ok(_) => r := Ok(true);
      case Fail(f) => r := Fail(f);
    }

    /** `refreshToken`: on success both stored tokens are overwritten with the new pair. */
    method RefreshToken(refreshToken: string, response: Outcome<AuthResponse>) returns (r: Outcome<AuthResponse>)
      modifies client.storage, client.network
      ensures r == response
      ensures client.network.sent == old(client.network.sent) + [BareCall(Post, RefreshUrl)]
      ensures response.Ok? ==>
        client.storage.items == old(client.storage.items)[TokenKey := response.value.token][RefreshKey := response.value.refreshToken]
      ensures response.Fail? ==> client.storage.items == old(client.storage.items)
    {
      client.network.Send(BareCall(Post, RefreshUrl));
      r := response;
      if response.Ok? {
        client.SetToken(response.value.token);
        client.storage.Set(RefreshKey, response.value.refreshToken);
      }
    }

    /**
     * `logout`: never rejects. Whatever the `api` call does, both tokens are
     * removed afterwards (the `finally` block).
     */
    method Logout(s: Script<()>)
      modifies client, client.storage, client.window, client.network
      ensures var x := ApiExchange(old(client.storage.items), old(client.defaultAuthorization), Post, LogoutUrl, s);
        client.storage.items == x.store - {TokenKey} - {RefreshKey}
        && client.defaultAuthorization == x.defaultAuthorization
        && client.window.hrefs == old(client.window.hrefs) + (if x.redirected then [LoginPage] else [])
        && client.network.sent == old(client.network.sent) + x.calls
      ensures TokenKey !in client.storage.items && RefreshKey !in client.storage.items
    {
      var _ := client.Send(Post, LogoutUrl, s);
      client.RemoveToken();
      client.storage.Remove(RefreshKey);
    }
  }
}
