/** The pages working together through Web Storage: a login followed by
    the dashboard's load, a sign-out followed by another load, and the
    concrete sign-in and failure scenarios the flow is designed around. */
module Session {
  import opened Js
  import opened Http
  import opened Routes
  import opened WebStorage
  import opened Credentials
  import opened Login
  import opened Dashboard

  /** A user types an email and a password and submits the login form, then
      the dashboard mounts. When the login response passes every check, the
      dashboard issues exactly one profile request, for the user id the
      server returned and carrying the token it returned; when it does not,
      the page stays on the login form. */
  method SignInThenLoad(local0: map<string, string>, session0: map<string, string>,
                        email: string, password: string,
                        loginExchange: Exchange<LoginBody>, profileExchange: Exchange<UserProfile>)
    returns (loginSent: seq<Request>, navigateTo: Option<string>, profileSent: seq<Request>)
    requires email != "" && password != ""
    ensures loginSent == [LoginRequest(email, password)]
    ensures match Authenticate(loginExchange)
      case Normal(credential) =>
        navigateTo == Some(DashboardRoute) && profileSent == [ProfileRequest(credential.token, credential.userId)]
      case Throw(_) =>
        navigateTo == None
  {
    var local := new KeyValueStore(local0);
    var session := new KeyValueStore(session0);
    var login := new LoginPage();
    login.HandleChange(Login.EmailField, email);
    login.HandleChange(Login.PasswordField, password);
    loginSent, navigateTo := login.HandleSubmit(local, session, loginExchange);
    ghost var stored := Scopes(local.items, session.items);
    match Authenticate(loginExchange) {
      case Normal(credential) =>
        LoadAfterSave(Scopes(local0, session0), credential.token, credential.userId);
        assert StoredToken(stored) == Some(credential.token);
      case Throw(_) =>
    }
    var dashboard := new DashboardPage();
    profileSent := dashboard.FetchUserData(local, session, profileExchange);
  }

  /** After sign-out, whatever the storage held, the next dashboard load
      records the missing token and issues no request. */
  method SignOutThenLoad(local0: map<string, string>, session0: map<string, string>,
                         profileExchange: Exchange<UserProfile>)
    returns (navigateTo: string, profileSent: seq<Request>, error: Option<string>, greeting: string)
    ensures navigateTo == LoginRoute
    ensures profileSent == []
    ensures error == Some(NoTokenFound)
    ensures greeting == DefaultName
  {
    var local := new KeyValueStore(local0);
    var session := new KeyValueStore(session0);
    var dashboard := new DashboardPage();
    navigateTo := dashboard.HandleLogout(local, session);
    NothingStoredAfterClear(Scopes(local0, session0));
    var reloaded := new DashboardPage();
    profileSent := reloaded.FetchUserData(local, session, profileExchange);
    error := reloaded.error;
    greeting := Greeting(reloaded.user);
  }

  /** Sign-in against a server that accepts the credentials: from empty
      storage, the token "tok123" ends up in both scopes and the user id
      "42" in durable storage, and the page moves to the dashboard. */
  method SignInAccepted() returns (stored: Scopes, error: string, navigateTo: Option<string>)
    ensures stored == Scopes(map[AuthTokenKey := "tok123", UserIdKey := "42"], map[AuthTokenKey := "tok123"])
    ensures error == ""
    ensures navigateTo == Some(DashboardRoute)
  {
    var local := new KeyValueStore(map[]);
    var session := new KeyValueStore(map[]);
    var login := new LoginPage();
    login.HandleChange(Login.EmailField, "a@b.com");
    login.HandleChange(Login.PasswordField, "secret1");
    var body := LoginBody(None, Some("tok123"), Some(LoginUser(Some("42"))));
    var sent;
    sent, navigateTo := login.HandleSubmit(local, session, Received(true, 200, Parsed(body)));
    stored := Scopes(local.items, session.items);
    error := login.error;
  }

  /** Sign-in against a server that answers 401 with a message: storage is
      left as it was and the server's message is shown. */
  method SignInRejected(local0: map<string, string>, session0: map<string, string>)
    returns (stored: Scopes, error: string, navigateTo: Option<string>)
    ensures stored == Scopes(local0, session0)
    ensures error == "Invalid credentials"
    ensures navigateTo == None
  {
    var local := new KeyValueStore(local0);
    var session := new KeyValueStore(session0);
    var login := new LoginPage();
    login.HandleChange(Login.EmailField, "a@b.com");
    login.HandleChange(Login.PasswordField, "secret1");
    var body := LoginBody(Some("Invalid credentials"), None, None);
    var sent;
    sent, navigateTo := login.HandleSubmit(local, session, Received(false, 401, Parsed(body)));
    stored := Scopes(local.items, session.items);
    error := login.error;
  }

  /** A dashboard load with a stored credential whose profile fetch answers
      500: the failure is recorded, no user is loaded, and the stored token
      and user id stay in place (only sign-out removes them). */
  method LoadFailsWithServerError(token: string, userId: string)
    returns (profileSent: seq<Request>, error: Option<string>, user: Option<UserProfile>, stored: Scopes)
    requires token != "" && userId != ""
    ensures profileSent == [ProfileRequest(token, userId)]
    ensures error == Some("Failed to fetch user data: 500")
    ensures user == None
    ensures StoredToken(stored) == Some(token) && StoredUserId(stored) == Some(userId)
  {
    var local := new KeyValueStore(map[AuthTokenKey := token, UserIdKey := userId]);
    var session := new KeyValueStore(map[AuthTokenKey := token]);
    var dashboard := new DashboardPage();
    assert StoredToken(Scopes(local.items, session.items)) == Some(token);
    profileSent := dashboard.FetchUserData(local, session, Received(false, 500, Unparsable("")));
    assert NatToString(5) == "5";
    assert NatToString(50) == "50";
    assert FetchFailedPrefix + NatToString(500) == "Failed to fetch user data: 500";
    error := dashboard.error;
    user := dashboard.user;
    stored := Scopes(local.items, session.items);
  }
}
