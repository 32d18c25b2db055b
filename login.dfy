/** The login page: the form's change handler, the submit handler with its
    empty-field check, the checks on the shape of the login response, and
    the store of the credential before the move to the dashboard. */
module Login {
  import opened Js
  import opened Http
  import opened Routes
  import opened WebStorage
  import opened Credentials

  const LoginEndpoint := "/auth/login"

  const EmailField := "email"
  const PasswordField := "password"

  const FillAllFields := "Please fill in all fields"
  const LoginFailed := "Login failed"
  const NoTokenReceived := "No authentication token received"
  const NoUserIdReceived := "No user ID received"
  const GenericError := "An error occurred. Please try again."

  /** The `user` object of a login response; only `id` is read. */
  datatype LoginUser = LoginUser(id: Option<string>)

  /** The JSON body of a login response. */
  datatype LoginBody = LoginBody(message: Option<string>, accessToken: Option<string>, user: Option<LoginUser>)

  /** `user?.id` */
  function UserIdOf(user: Option<LoginUser>): (r: Option<string>)
    ensures user.None? ==> r == None
    ensures user.Some? ==> r == user.value.id
  {
    if user.Some? then user.value.id else None
  }

  /** The shape a successful login response must have: a truthy access token
      and a user object with a truthy id. */
  predicate WellFormed(body: LoginBody)
    ensures WellFormed(body) <==>
      && body.accessToken.Some? && body.accessToken.value != ""
      && body.user.Some? && body.user.value.id.Some? && body.user.value.id.value != ""
  {
    Truthy(body.accessToken) && Truthy(UserIdOf(body.user))
  }

  /** The request the submit handler sends. */
  function LoginRequest(email: string, password: string): (r: Request)
    ensures r.Post?
    ensures r.url == ApiBaseUrl + LoginEndpoint
    ensures r.body.Keys == {EmailField, PasswordField}
    ensures r.body[EmailField] == email && r.body[PasswordField] == password
  {
    Post(ApiBaseUrl + LoginEndpoint, map[EmailField := email, PasswordField := password])
  }

  /** The try block of `handleSubmit` up to the store: the credential an
      exchange yields, or the error it throws. The body is decoded first;
      then the HTTP status is checked, then the token, then the user id. */
  function Authenticate(exchange: Exchange<LoginBody>): (c: Completion<Credential>)
    ensures c.Normal? <==> exchange.Received? && exchange.ok && exchange.body.Parsed? && WellFormed(exchange.body.value)
    ensures c.Normal? ==>
      && c.value.token == exchange.body.value.accessToken.value
      && c.value.userId == UserIdOf(exchange.body.value.user).value
      && c.value.token != "" && c.value.userId != ""
    ensures exchange.Failed? ==> c == Throw(exchange.message)
    ensures exchange.Received? && exchange.body.Unparsable? ==> c == Throw(exchange.body.syntaxError)
    ensures exchange.Received? && !exchange.ok && exchange.body.Parsed? ==>
      c == Throw(OrElse(exchange.body.value.message, LoginFailed))
    ensures exchange.Received? && exchange.ok && exchange.body.Parsed? && !Truthy(exchange.body.value.accessToken) ==>
      c == Throw(NoTokenReceived)
    ensures exchange.Received? && exchange.ok && exchange.body.Parsed? && Truthy(exchange.body.value.accessToken)
            && !Truthy(UserIdOf(exchange.body.value.user)) ==>
      c == Throw(NoUserIdReceived)
    ensures exchange.Received? && exchange.body.Parsed? && c.Throw? ==> c.message != ""
  {
    match exchange
    case Failed(message) => Throw(message)
    case Received(ok, status, body) =>
      match body
      case Unparsable(syntaxError) => Throw(syntaxError)
      case Parsed(data) =>
        if !ok then Throw(OrElse(data.message, LoginFailed))
        else if !Truthy(data.accessToken) then Throw(NoTokenReceived)
        else if !Truthy(UserIdOf(data.user)) then Throw(NoUserIdReceived)
        else Normal(Credential(data.accessToken.value, UserIdOf(data.user).value))
  }

  /** `storeAuthData`: the token into both scopes, the user id into durable
      storage, nothing else touched. */
  method StoreAuthData(local: KeyValueStore, session: KeyValueStore, token: string, userId: string)
    requires local != session
    modifies local, session
    ensures Scopes(local.items, session.items) == Save(old(Scopes(local.items, session.items)), token, userId)
  {
    local.SetItem(AuthTokenKey, token);
    session.SetItem(AuthTokenKey, token);
    local.SetItem(UserIdKey, userId);
  }

  class LoginPage {
    var formData: map<string, string>
    var error: string
    var isLoading: bool

    ghost predicate Valid()
      reads this
    {
      EmailField in formData && PasswordField in formData
    }

    constructor ()
      ensures Valid()
      ensures formData == map[EmailField := "", PasswordField := ""]
      ensures error == "" && !isLoading
    {
      formData := map[EmailField := "", PasswordField := ""];
      error := "";
      isLoading := false;
    }

    /** `handleChange`: the named field takes the new value and the error
        banner is always cleared. */
    method HandleChange(name: string, value: string)
      requires Valid()
      modifies this
      ensures Valid()
      ensures formData == old(formData)[name := value]
      ensures error == ""
      ensures isLoading == old(isLoading)
    {
      formData := formData[name := value];
      error := "";
    }

    /** `handleSubmit`, given the outcome the login request would have. An
        empty email or password stops it before any request. Otherwise one
        login request is sent; a credential is stored, and the page moves to
        the dashboard, only when the response passes every check. On every
        failure both storage scopes are left exactly as they were and the
        thrown message (or a generic one when it is empty) is shown. The
        loading flag is off on every exit. */
    method HandleSubmit(local: KeyValueStore, session: KeyValueStore, exchange: Exchange<LoginBody>)
      returns (sent: seq<Request>, navigateTo: Option<string>)
      requires Valid()
      requires local != session
      modifies this, local, session
      ensures Valid()
      ensures !isLoading
      ensures formData == old(formData)
      ensures formData[EmailField] == "" || formData[PasswordField] == "" ==>
        && sent == []
        && navigateTo == None
        && error == FillAllFields
        && local.items == old(local.items) && session.items == old(session.items)
      ensures formData[EmailField] != "" && formData[PasswordField] != "" ==>
        && sent == [LoginRequest(formData[EmailField], formData[PasswordField])]
        && match Authenticate(exchange)
           case Normal(credential) =>
             && Scopes(local.items, session.items)
                == Save(old(Scopes(local.items, session.items)), credential.token, credential.userId)
             && error == ""
             && navigateTo == Some(DashboardRoute)
           case Throw(message) =>
             && local.items == old(local.items) && session.items == old(session.items)
             && error == OrElse(Some(message), GenericError)
             && navigateTo == None
    {
      sent, navigateTo := [], None;
      isLoading := true;
      error := "";

      if formData[EmailField] == "" || formData[PasswordField] == "" {
        error := FillAllFields;
        isLoading := false;
        return;
      }

      sent := [LoginRequest(formData[EmailField], formData[PasswordField])];
      var outcome := Authenticate(exchange);
      match outcome {
        case Normal(credential) =>
          StoreAuthData(local, session, credential.token, credential.userId);
          navigateTo := Some(DashboardRoute);
        case Throw(message) =>
          error := OrElse(Some(message), GenericError);
      }
      isLoading := false;
    }
  }
}
