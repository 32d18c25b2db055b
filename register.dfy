/** The registration page: the password-complexity rule, the form's change
    handler, the submit handler with its local validation, the single
    register request and the choice of the error message shown on failure. */
module Register {
  import opened Js
  import opened Http
  import opened Routes

  const RegisterEndpoint := "/auth/register"

  const EmailField := "email"
  const PasswordField := "password"
  const ConfirmPasswordField := "confirmPassword"
  const FirstNameField := "firstName"
  const LastNameField := "lastName"
  const RoleField := "role"
  const PhoneField := "phone"

  /** The fields of the form. */
  const FormFields: set<string> :=
    {EmailField, PasswordField, ConfirmPasswordField, FirstNameField, LastNameField, RoleField, PhoneField}
  /** The fields sent to the register endpoint: all but the confirmation. */
  const PayloadFields: set<string> :=
    {EmailField, PasswordField, FirstNameField, LastNameField, RoleField, PhoneField}
  /** The fields that can carry an error message. */
  const ErrorFields: set<string> := {EmailField, PasswordField}

  const PasswordMismatch := "Passwords do not match."
  const PasswordTooWeak := "Password does not meet requirements."
  const RegistrationFailed := "Registration failed. Please try again."
  const HttpErrorPrefix := "HTTP error! status: "

  /** The form as the page first shows it: every field empty, role "user". */
  const InitialForm: map<string, string> :=
    map[EmailField := "", PasswordField := "", ConfirmPasswordField := "",
        FirstNameField := "", LastNameField := "", RoleField := "user", PhoneField := ""]

  /** The JSON body of a register response; only its `message` is read. */
  datatype ApiBody = ApiBody(message: Option<string>)

  predicate IsAsciiLetter(c: char)
  {
    'a' <= c <= 'z' || 'A' <= c <= 'Z'
  }

  /** `/[a-zA-Z]/.test(s)` */
  function HasLetter(s: string): (r: bool)
    ensures r <==> exists i :: 0 <= i < |s| && IsAsciiLetter(s[i])
  {
    if s == [] then false
    else if IsAsciiLetter(s[0]) then true
    else
      assert forall i :: 1 <= i < |s| ==> s[i] == s[1..][i - 1];
      HasLetter(s[1..])
  }

  /** `/\d/.test(s)`; `\d` is exactly `[0-9]`. */
  function HasNumber(s: string): (r: bool)
    ensures r <==> exists i :: 0 <= i < |s| && IsDigit(s[i])
  {
    if s == [] then false
    else if IsDigit(s[0]) then true
    else
      assert forall i :: 1 <= i < |s| ==> s[i] == s[1..][i - 1];
      HasNumber(s[1..])
  }

  /** The complexity rule: at least eight characters, at least one ASCII
      letter and at least one decimal digit. */
  function ValidatePassword(password: string): (valid: bool)
    ensures valid <==>
      && |password| >= 8
      && (exists i :: 0 <= i < |password| && IsAsciiLetter(password[i]))
      && (exists j :: 0 <= j < |password| && IsDigit(password[j]))
  {
    |password| >= 8 && HasLetter(password) && HasNumber(password)
  }

  /** The body of the register request: exactly the six account fields,
      copied verbatim from the form; the confirmation is not sent. */
  function RegistrationPayload(form: map<string, string>): (payload: map<string, string>)
    requires PayloadFields <= form.Keys
    ensures payload.Keys == PayloadFields
    ensures ConfirmPasswordField !in payload
    ensures forall k :: k in payload ==> payload[k] == form[k]
  {
    map[EmailField := form[EmailField], PasswordField := form[PasswordField],
        FirstNameField := form[FirstNameField], LastNameField := form[LastNameField],
        RoleField := form[RoleField], PhoneField := form[PhoneField]]
  }

  /** `makeApiCall`: the decoded body of an ok response, or the error it
      throws. A non-ok response throws the server's `message` when that is
      truthy and "HTTP error! status: <status>" otherwise; an undecodable
      body throws its syntax error; a network failure is rethrown as is. */
  function MakeApiCall(exchange: Exchange<ApiBody>): (c: Completion<ApiBody>)
    ensures c.Normal? <==> exchange.Received? && exchange.ok && exchange.body.Parsed?
    ensures c.Normal? ==> c.value == exchange.body.value
    ensures exchange.Failed? ==> c == Throw(exchange.message)
    ensures exchange.Received? && exchange.body.Unparsable? ==> c == Throw(exchange.body.syntaxError)
    ensures exchange.Received? && !exchange.ok && exchange.body.Parsed? ==>
      && c.Throw?
      && c.message != ""
      && (Truthy(exchange.body.value.message) ==> c.message == exchange.body.value.message.value)
      && (!Truthy(exchange.body.value.message) ==> c.message == HttpErrorPrefix + NatToString(exchange.status))
  {
    match exchange
    case Failed(message) => Throw(message)
    case Received(ok, status, body) =>
      match body
      case Unparsable(syntaxError) => Throw(syntaxError)
      case Parsed(data) =>
        if !ok then Throw(OrElse(data.message, HttpErrorPrefix + NatToString(status)))
        else Normal(data)
  }

  /** When the server gives no message, the message shown names the
      response's status, and the status can be read back from it. */
  lemma HttpErrorNamesStatus(status: nat, body: ApiBody)
    requires !Truthy(body.message)
    ensures var c := MakeApiCall(Received(false, status, Parsed(body)));
      && c.Throw?
      && |c.message| > |HttpErrorPrefix|
      && c.message[..|HttpErrorPrefix|] == HttpErrorPrefix
      && (forall i :: |HttpErrorPrefix| <= i < |c.message| ==> IsDigit(c.message[i]))
      && DecimalValue(c.message[|HttpErrorPrefix|..]) == status
  {
    var c := MakeApiCall(Received(false, status, Parsed(body)));
    assert c.message[|HttpErrorPrefix|..] == NatToString(status);
    DecimalValueOfNatToString(status);
  }

  class RegisterPage {
    var formData: map<string, string>
    var errors: map<string, string>
    /** Mirrors ValidatePassword(formData["password"]), kept up to date by
        the page's effect on the password field. */
    var passwordValid: bool
    var isLoading: bool
    var registrationSuccess: bool

    /** Every form field is present, the error map holds exactly the email
        and password errors, nothing ever sets an email error (the email
        check is disabled in the page), and `passwordValid` is current. */
    ghost predicate Valid()
      reads this
    {
      && FormFields <= formData.Keys
      && errors.Keys == ErrorFields
      && errors[EmailField] == ""
      && passwordValid == ValidatePassword(formData[PasswordField])
    }

    constructor ()
      ensures Valid()
      ensures formData == InitialForm
      ensures errors == map[EmailField := "", PasswordField := ""]
      ensures !passwordValid && !isLoading && !registrationSuccess
    {
      formData := InitialForm;
      errors := map[EmailField := "", PasswordField := ""];
      passwordValid := false;
      isLoading := false;
      registrationSuccess := false;
    }

    /** The `disabled` condition of the submit button. Since the email error
        is never set, the button is enabled exactly when the password meets
        the complexity rule and no submission is in flight. */
    function SubmitDisabled(): (disabled: bool)
      reads this
      ensures Valid() ==> (disabled <==> !ValidatePassword(formData[PasswordField]) || isLoading)
    {
      (EmailField in errors && errors[EmailField] != "") || !passwordValid || isLoading
    }

    /** With the submit button enabled, a submission never stops at the
        complexity check. */
    lemma EnabledSubmitPassesComplexity()
      requires Valid() && !SubmitDisabled()
      ensures ValidatePassword(formData[PasswordField])
    {
    }

    /** `handleChange`: the named field takes the new value and its error,
        if it has a non-empty one, is cleared; everything else is kept. The
        password effect then recomputes `passwordValid`. */
    method HandleChange(name: string, value: string)
      requires Valid()
      modifies this
      ensures Valid()
      ensures formData == old(formData)[name := value]
      ensures errors == if name in old(errors) && old(errors)[name] != "" then old(errors)[name := ""] else old(errors)
      ensures isLoading == old(isLoading) && registrationSuccess == old(registrationSuccess)
    {
      formData := formData[name := value];
      if name in errors && errors[name] != "" {
        errors := errors[name := ""];
      }
      passwordValid := ValidatePassword(formData[PasswordField]);
    }

    /** `handleSubmit`, given the outcome the register request would have.
        Both errors are reset first; a mismatched confirmation, and then a
        password failing the complexity rule, stop the submission with no
        request. Otherwise exactly one register request is sent; success
        marks the registration done and schedules the move to the login
        page, failure shows the thrown message (or a generic one when that
        message is empty) under the password field. The loading flag is
        off on every exit, and no credential is stored. */
    method HandleSubmit(exchange: Exchange<ApiBody>) returns (sent: seq<Request>, navigateTo: Option<string>)
      requires Valid()
      modifies this
      ensures Valid()
      ensures !isLoading
      ensures formData == old(formData) && passwordValid == old(passwordValid)
      ensures errors[EmailField] == ""
      ensures formData[PasswordField] != formData[ConfirmPasswordField] ==>
        && sent == []
        && navigateTo == None
        && errors[PasswordField] == PasswordMismatch
        && registrationSuccess == old(registrationSuccess)
      ensures formData[PasswordField] == formData[ConfirmPasswordField] && !ValidatePassword(formData[PasswordField]) ==>
        && sent == []
        && navigateTo == None
        && errors[PasswordField] == PasswordTooWeak
        && registrationSuccess == old(registrationSuccess)
      ensures formData[PasswordField] == formData[ConfirmPasswordField] && ValidatePassword(formData[PasswordField]) ==>
        && sent == [Post(ApiBaseUrl + RegisterEndpoint, RegistrationPayload(formData))]
        && match MakeApiCall(exchange)
           case Normal(_) =>
             registrationSuccess && errors[PasswordField] == "" && navigateTo == Some(LoginRoute)
           case Throw(message) =>
             && errors[PasswordField] == OrElse(Some(message), RegistrationFailed)
             && registrationSuccess == old(registrationSuccess)
             && navigateTo == None
    {
      sent, navigateTo := [], None;
      isLoading := true;
      errors := map[EmailField := "", PasswordField := ""];

      if formData[PasswordField] != formData[ConfirmPasswordField] {
        errors := errors[PasswordField := PasswordMismatch];
        isLoading := false;
        return;
      }

      if !passwordValid {
        errors := errors[PasswordField := PasswordTooWeak];
        isLoading := false;
        return;
      }

      var registrationData := RegistrationPayload(formData);
      sent := [Post(ApiBaseUrl + RegisterEndpoint, registrationData)];
      var response := MakeApiCall(exchange);
      match response {
        case Normal(_) =>
          registrationSuccess := true;
          navigateTo := Some(LoginRoute);
        case Throw(message) =>
          errors := errors[PasswordField := OrElse(Some(message), RegistrationFailed)];
      }
      isLoading := false;
    }
  }
}
