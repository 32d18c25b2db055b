/** The dashboard page: the session guard that runs when the page mounts
    (read the credential back, fetch the profile, record the outcome), the
    greeting, and sign-out. */
module Dashboard {
  import opened Js
  import opened Http
  import opened Routes
  import opened WebStorage
  import opened Credentials

  const UsersPath := "/users/"

  const NoTokenFound := "No authentication token found"
  const UserIdNotFound := "User ID not found"
  const FetchFailedPrefix := "Failed to fetch user data: "
  const DefaultName := "User"

  /** The JSON body of a profile response, kept as fetched; `createdAt` is
      read only by the "Customer since" line, which this model leaves out. */
  datatype UserProfile = UserProfile(id: Option<string>, firstName: Option<string>, createdAt: Option<string>)

  /** The profile request for a user, carrying the token as a bearer
      credential. */
  function ProfileRequest(token: string, userId: string): (r: Request)
    ensures r.Get?
    ensures r.url == ApiBaseUrl + UsersPath + userId
    ensures r.authorization == "Bearer " + token
  {
    Get(ApiBaseUrl + UsersPath + userId, "Bearer " + token)
  }

  /** The profile fetch: the decoded profile of an ok response, or the error
      thrown. A non-ok response is rejected before its body is read, with a
      message naming the status. */
  function FetchProfile(exchange: Exchange<UserProfile>): (c: Completion<UserProfile>)
    ensures c.Normal? <==> exchange.Received? && exchange.ok && exchange.body.Parsed?
    ensures c.Normal? ==> c.value == exchange.body.value
    ensures exchange.Failed? ==> c == Throw(exchange.message)
    ensures exchange.Received? && !exchange.ok ==> c == Throw(FetchFailedPrefix + NatToString(exchange.status))
    ensures exchange.Received? && exchange.ok && exchange.body.Unparsable? ==> c == Throw(exchange.body.syntaxError)
  {
    match exchange
    case Failed(message) => Throw(message)
    case Received(ok, status, body) =>
      if !ok then Throw(FetchFailedPrefix + NatToString(status))
      else match body
        case Unparsable(syntaxError) => Throw(syntaxError)
        case Parsed(userData) => Normal(userData)
  }

  /** Distinct statuses give distinct failure messages, so the message
      identifies the status. */
  lemma FetchFailureIdentifiesStatus(s1: nat, s2: nat, b1: Decoded<UserProfile>, b2: Decoded<UserProfile>)
    requires FetchProfile(Received(false, s1, b1)) == FetchProfile(Received(false, s2, b2))
    ensures s1 == s2
  {
    var m1 := FetchFailedPrefix + NatToString(s1);
    var m2 := FetchFailedPrefix + NatToString(s2);
    assert m1[|FetchFailedPrefix|..] == NatToString(s1);
    assert m2[|FetchFailedPrefix|..] == NatToString(s2);
    NatToStringInjective(s1, s2);
  }

  /** `user?.firstName || 'User'`: the name the page greets the user with,
      never empty. */
  function Greeting(user: Option<UserProfile>): (name: string)
    ensures name != ""
    ensures user.Some? && Truthy(user.value.firstName) ==> name == user.value.firstName.value
    ensures !(user.Some? && Truthy(user.value.firstName)) ==> name == DefaultName
  {
    OrElse(if user.Some? then user.value.firstName else None, DefaultName)
  }

  class DashboardPage {
    var user: Option<UserProfile>
    var loading: bool
    var error: Option<string>

    /** The page mounts with no user, no error, and loading. */
    constructor ()
      ensures user == None && loading && error == None
    {
      user := None;
      loading := true;
      error := None;
    }

    /** `fetchUserData`, given the outcome the profile request would have.
        A missing or empty token (durable copy first, then the session
        copy) and then a missing or empty user id (durable storage only)
        each record an error without any request. Otherwise exactly one
        profile request is sent, and the profile or the failure is
        recorded. Storage is never written, so a failed fetch leaves the
        credential in place; the page records the error and does not
        navigate. Loading is off on every exit. */
    method FetchUserData(local: KeyValueStore, session: KeyValueStore, exchange: Exchange<UserProfile>)
      returns (sent: seq<Request>)
      modifies this
      ensures !loading
      ensures local.items == old(local.items) && session.items == old(session.items)
      ensures var stored := Scopes(local.items, session.items);
        var token := StoredToken(stored);
        var userId := StoredUserId(stored);
        if !Truthy(token) then
          sent == [] && error == Some(NoTokenFound) && user == old(user)
        else if !Truthy(userId) then
          sent == [] && error == Some(UserIdNotFound) && user == old(user)
        else
          && sent == [ProfileRequest(token.value, userId.value)]
          && match FetchProfile(exchange)
             case Normal(profile) => user == Some(profile) && error == old(error)
             case Throw(message) => user == old(user) && error == Some(message)
    {
      sent := [];
      var token := Or(local.GetItem(AuthTokenKey), session.GetItem(AuthTokenKey));
      if !Truthy(token) {
        error := Some(NoTokenFound);
      } else {
        var userId := local.GetItem(UserIdKey);
        if !Truthy(userId) {
          error := Some(UserIdNotFound);
        } else {
          sent := [ProfileRequest(token.value, userId.value)];
          var outcome := FetchProfile(exchange);
          match outcome {
            case Normal(userData) => user := Some(userData);
            case Throw(message) => error := Some(message);
          }
        }
      }
      loading := false;
    }

    /** `handleLogout`: the credential is removed from both scopes, nothing
        else is touched, and the page moves to the login page. */
    method HandleLogout(local: KeyValueStore, session: KeyValueStore) returns (navigateTo: string)
      requires local != session
      modifies local, session
      ensures Scopes(local.items, session.items) == Clear(old(Scopes(local.items, session.items)))
      ensures navigateTo == LoginRoute
    {
      local.RemoveItem(AuthTokenKey);
      session.RemoveItem(AuthTokenKey);
      local.RemoveItem(UserIdKey);
      navigateTo := LoginRoute;
    }
  }
}
