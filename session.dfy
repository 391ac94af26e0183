/** The session controller of src/context/AuthContext.tsx: the `user` and
    `loading` state cells of `AuthProvider`, the stored token, and the three
    operations start-up restore (`checkAuth`), `login` and `logout`. Every
    server call goes through the request gateway, so a 401 answer also runs the
    gateway's clearing of the token. Navigation by the router is recorded in
    `route`. Each async handler is one atomic step. */
module Session {
  import opened Wrappers
  import opened Types
  import opened CredentialStore
  import opened Gateway

  const CurrentUserPath: string := "/users/me"

  class AuthProvider {
    /** The `user` state cell: `None` is `null`. */
    var user: Option<User>
    /** The `loading` state cell. */
    var loading: bool
    /** The last target passed to `router.push`, if any. */
    var route: Option<string>
    /** The HTTP client the authentication service calls go through. */
    const api: ApiClient

    /** `isAuthenticated: !!user` */
    function IsAuthenticated(): (b: bool)
      reads this
      ensures b <==> user != None
    {
      user.Some?
    }

    /** Mounting the provider: no user yet, and loading until restore ends.
        The stored token is whatever the browser kept. */
    constructor (api: ApiClient)
      ensures this.api == api
      ensures user == None && loading && route == None
      ensures !IsAuthenticated()
    {
      this.api := api;
      user := None;
      loading := true;
      route := None;
    }

    /** `checkAuth`, run once on mount. With no token (or an empty one) no
        call is made; with a token, `/users/me` is fetched: success sets the
        user and keeps the token, failure removes the token and is not
        rethrown. On every path loading ends. `calledMe` says whether the
        `/users/me` request was sent, and `meAuthorization` is the header it
        carried. */
    method CheckAuth(me: Reply<User>) returns (calledMe: bool, meAuthorization: Option<string>)
      modifies this, api, api.store
      ensures !loading && route == old(route)
      ensures calledMe <==> Present(old(api.store.token))
      ensures meAuthorization == if calledMe then Some(Bearer(old(api.store.token).value)) else None
      ensures !calledMe ==> user == old(user) && api.store.token == old(api.store.token) && api.location == old(api.location)
      ensures calledMe && me.Ok? ==> user == Some(me.value) && api.store.token == old(api.store.token) && api.location == old(api.location)
      ensures calledMe && me.Err? ==> user == old(user) && api.store.token == None
      ensures calledMe && me.Err? ==> api.location == if IsUnauthorized(me.error) then Some(LoginPath) else old(api.location)
    {
      var token := api.store.GetItem();
      calledMe := Present(token);
      meAuthorization := None;
      if calledMe {
        var sent, r := api.Send(CurrentUserPath, me);
        meAuthorization := sent;
        match r {
          case Ok(userData) =>
            user := Some(userData);
          case Err(_) =>
            api.store.RemoveItem();
        }
      }
      loading := false;
    }

    /** `login`: the `/auth/login` call; on success its token is stored, then
        `/users/me` is fetched with that token, the user is set and the router
        goes to the dashboard. Any failure is rethrown (`thrown`) and leaves
        `user` and the route as they were; a token already stored stays stored
        unless the failing answer was a 401, which the gateway clears.
        `meAuthorization` is the header the `/users/me` request carried. */
    method Login(authReply: Reply<string>, me: Reply<User>) returns (thrown: Option<HttpError>, meAuthorization: Option<string>)
      modifies this, api, api.store
      ensures loading == old(loading)
      ensures authReply.Err? ==> thrown == Some(authReply.error) && user == old(user) && route == old(route)
      ensures authReply.Err? ==> api.store.token == if IsUnauthorized(authReply.error) then None else old(api.store.token)
      ensures authReply.Err? ==> api.location == if IsUnauthorized(authReply.error) then Some(LoginPath) else old(api.location)
      ensures authReply.Ok? ==> meAuthorization == if authReply.value != "" then Some(Bearer(authReply.value)) else None
      ensures authReply.Ok? && me.Err? ==> thrown == Some(me.error) && user == old(user) && route == old(route)
      ensures authReply.Ok? && me.Err? ==> api.store.token == if IsUnauthorized(me.error) then None else Some(authReply.value)
      ensures authReply.Ok? && me.Err? ==> api.location == if IsUnauthorized(me.error) then Some(LoginPath) else old(api.location)
      ensures authReply.Ok? && me.Ok? ==> thrown == None && user == Some(me.value) && route == Some(DashboardPath)
      ensures authReply.Ok? && me.Ok? ==> api.store.token == Some(authReply.value) && api.location == old(api.location)
    {
      meAuthorization := None;
      var _, auth := api.Send(LoginPath, authReply);
      if auth.Err? {
        thrown := Some(auth.error);
        return;
      }
      api.store.SetItem(auth.value);
      var sent, r := api.Send(CurrentUserPath, me);
      meAuthorization := sent;
      if r.Err? {
        thrown := Some(r.error);
        return;
      }
      user := Some(r.value);
      route := Some(DashboardPath);
      thrown := None;
    }

    /** `logout`: removes the token, forgets the user and goes to the login
        screen, whatever the state before; it cannot fail. */
    method Logout()
      modifies this`user, this`route, api.store
      ensures api.store.token == None && user == None && route == Some(LoginPath)
      ensures !IsAuthenticated() && loading == old(loading)
    {
      api.store.RemoveItem();
      user := None;
      route := Some(LoginPath);
    }
  }

  /** Logging out twice leaves the same state as logging out once. */
  method LogoutTwice(p: AuthProvider)
    modifies p, p.api.store
    ensures p.api.store.token == None && p.user == None && p.route == Some(LoginPath)
    ensures p.loading == old(p.loading) && p.api.location == old(p.api.location)
  {
    p.Logout();
    p.Logout();
  }

  /** Start-up over a browser that holds no token: restore makes no call and
      ends anonymous and no longer loading. */
  method RestoreWithoutToken(me: Reply<User>) returns (p: AuthProvider, calledMe: bool)
    ensures !calledMe && !p.loading && !p.IsAuthenticated()
    ensures p.api.store.token == None && p.route == None && p.api.location == None
  {
    var store := new TokenSlot(None);
    var api := new ApiClient(store);
    p := new AuthProvider(api);
    var called, _ := p.CheckAuth(me);
    calledMe := called;
  }

  /** Start-up over a browser holding a token: restore ends authenticated as
      the fetched user with the token kept, or anonymous with the token
      removed when the fetch fails (and at the login screen on a 401). */
  method RestoreWithToken(token: string, me: Reply<User>) returns (p: AuthProvider)
    requires token != ""
    ensures !p.loading
    ensures me.Ok? ==> p.user == Some(me.value) && p.api.store.token == Some(token)
    ensures me.Err? ==> !p.IsAuthenticated() && p.api.store.token == None
    ensures me.Err? && IsUnauthorized(me.error) ==> p.api.location == Some(LoginPath)
  {
    var store := new TokenSlot(Some(token));
    var api := new ApiClient(store);
    p := new AuthProvider(api);
    var _, _ := p.CheckAuth(me);
  }

  /** A successful login followed by a page reload: the new provider shares
      the browser's storage with the first one, its restore sends `/users/me`
      with `Bearer <token>` for the token login stored, and it ends as the
      user the server returns; when the server answers as it did at login,
      the restored user is the logged-in user. */
  method LoginThenReload(authReply: Reply<string>, me: Reply<User>, meAgain: Reply<User>)
    returns (first: AuthProvider, reloaded: AuthProvider, reloadAuthorization: Option<string>)
    requires authReply.Ok? && authReply.value != "" && me.Ok?
    ensures first.user == Some(me.value) && first.route == Some(DashboardPath)
    ensures reloaded.api.store == first.api.store
    ensures reloadAuthorization == Some(Bearer(authReply.value))
    ensures !reloaded.loading
    ensures meAgain.Ok? ==> reloaded.user == Some(meAgain.value) && reloaded.api.store.token == Some(authReply.value)
    ensures meAgain.Err? ==> !reloaded.IsAuthenticated() && reloaded.api.store.token == None
    ensures meAgain == me ==> reloaded.user == first.user
  {
    var store := new TokenSlot(None);
    var api := new ApiClient(store);
    first := new AuthProvider(api);
    var _, _ := first.CheckAuth(me);
    var _, _ := first.Login(authReply, me);
    var api2 := new ApiClient(store);
    reloaded := new AuthProvider(api2);
    var _, sent := reloaded.CheckAuth(meAgain);
    reloadAuthorization := sent;
  }
}
