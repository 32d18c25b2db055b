# Storefront sign-in flow, modelled in Dafny

This project models the client-side session flow of a small storefront UI
made of three Next.js pages: registration, login and a dashboard. The pages
talk to a remote user service over HTTP and keep the session credential in
the browser's Web Storage. The model covers that flow:

- **Registration** (`Register`): the password-complexity rule, the form's
  change handler, and the submit handler. The handler checks that the
  confirmation matches, then that the password is complex enough, then
  sends one register request. On failure it picks the error message to show.
- **Login** (`Login`): the change handler and the submit handler. The
  handler checks for empty fields, then checks the response in order:
  HTTP status, then access token, then user id. It stores the credential
  only when every check passes, then moves to the dashboard.
- **Dashboard** (`Dashboard`): the session guard that runs when the page
  mounts. It reads the token (durable copy first, then the session copy)
  and the user id (durable storage only), fetches the profile, and records
  the user or the error. Also the greeting fallback and sign-out.
- **Storage** (`WebStorage`, `Credentials`): one Web Storage object as a
  class over a `map<string, string>`, plus the pure functions that say what
  login writes (`Save`), what sign-out removes (`Clear`) and what the
  dashboard reads back (`StoredToken`, `StoredUserId`).
- **JavaScript semantics** (`Js`): truthiness of strings (`null`,
  `undefined` and `""` are falsy), the `||` fallback, a block's completion
  (normal or `throw`), and `${n}` for status codes.
- **Flow** (`Session`): methods that run the pages one after another over
  the same storage. A login is followed by a dashboard load, a sign-out is
  followed by another load, and there are concrete sign-in and failure
  scenarios.

Every page handler is a method of a class whose fields are the page's
state (`formData`, `errors`, `error`, `isLoading`, `loading`, `user`, ...).
The two storage scopes are two `KeyValueStore` objects passed in. The HTTP
response is an input value of type `Exchange`. It is either a network
failure with its message, or a response with its `ok` flag, its status and
its decoded body (or the syntax error that decoding throws). A handler
returns the requests it would issue, and the route it would navigate to.

Where the intended design and the code differ, the model follows the code:

- On a missing credential or a failed profile fetch, the dashboard does not
  redirect to the login page. It only records `error` and turns `loading`
  off (src/app/dashboard/page.js:38-43).
- The login page decodes the response body before it checks the HTTP
  status (src/app/login/page.js:60-64). A non-JSON error response therefore
  shows the decoder's syntax error, not "Login failed".
- The registration page never sets an email error: the email-existence
  check is commented out. So `errors.email` is always `""`, and the submit
  button is enabled exactly when the password passes the complexity rule
  and no submission is in flight.
- `registrationSuccess` is never reset to false by a later submission.

The handlers are modelled on every page state, including states the
rendered form does not let a user submit from. The login inputs are
`required` (src/app/login/page.js:140,155), so the browser refuses to submit
an empty field, and "Please fill in all fields" cannot be reached from the
form. The registration button is disabled while the password fails the
complexity rule (src/app/register/page.js:312), so "Password does not meet
requirements." cannot be reached from the form either
(`EnabledSubmitPassesComplexity`).

## Model

| member | source | states |
|---|---|---|
| `Js.NatToString` | src/app/dashboard/page.js:35 | `${status}` is a non-empty string of decimal digits with no leading zero |
| `Js.DecimalValueOfNatToString` | src/app/dashboard/page.js:35 | reading the printed digits back gives the status: the message names it exactly |
| `Js.NatToStringInjective` | src/app/dashboard/page.js:35 | two different statuses never print the same |
| `Credentials.Save` | src/app/login/page.js:21-27 | storing a credential puts the token under `authToken` in both scopes and the user id under `userId` in durable storage, and leaves every other key of both scopes unchanged |
| `Credentials.Clear` | src/app/dashboard/page.js:49-52 | sign-out removes `authToken` from both scopes and `userId` from durable storage, and leaves every other key unchanged |
| `Credentials.StoredToken` | src/app/dashboard/page.js:22 | the token read is the durable copy when it is non-empty, otherwise the session copy; it is truthy iff either copy is |
| `Credentials.UserIdIgnoresSession` | src/app/dashboard/page.js:25 | the user id is read from durable storage only, whatever session storage holds |
| `Credentials.StoredUserId` | src/app/dashboard/page.js:25 | the user id read is the durable `userId` entry when there is one, and absent otherwise |
| `Credentials.LoadAfterSave` | src/app/dashboard/page.js:22-26 | after login stores a token and a user id, the dashboard reads back exactly that token and that user id |
| `Credentials.NothingStoredAfterClear` | src/app/dashboard/page.js:49-52 | after sign-out neither a token nor a user id can be read back |
| `Credentials.ClearIdempotent` | src/app/dashboard/page.js:49-52 | signing out twice leaves the same storage as signing out once |
| `Credentials.ClearUndoesSave` | src/app/dashboard/page.js:49-52 | sign-out removes everything a login stored and nothing else: storing then clearing equals clearing alone |
| `Register.HasLetter` | src/app/register/page.js:93 | `/[a-zA-Z]/.test(s)` holds iff some character of `s` is an ASCII letter |
| `Register.HasNumber` | src/app/register/page.js:94 | `/\d/.test(s)` holds iff some character of `s` is a digit 0-9 |
| `Register.ValidatePassword` | src/app/register/page.js:91-96 | a password is valid iff it has at least 8 characters, an ASCII letter and a digit |
| `Register.RegistrationPayload` | src/app/register/page.js:131-138 | the register request body has exactly the keys email, password, firstName, lastName, role and phone, each copied verbatim from the form; confirmPassword is not sent |
| `Register.MakeApiCall` | src/app/register/page.js:38-71 | an ok decoded response returns its body; a non-ok one throws the server message when truthy, else "HTTP error! status: <status>", and that message is never empty; decode and network errors are rethrown unchanged |
| `Register.HttpErrorNamesStatus` | src/app/register/page.js:57 | without a server message the thrown message is the prefix followed by digits that denote the response status |
| `Register.RegisterPage.constructor` | src/app/register/page.js:18-36 | the form starts empty with role "user", both errors empty, and not loading, not valid, not registered |
| `Register.RegisterPage.SubmitDisabled` | src/app/register/page.js:312 | the submit button is disabled iff the password fails the complexity rule or a submission is in flight |
| `Register.RegisterPage.EnabledSubmitPassesComplexity` | src/app/register/page.js:312 | while the submit button is enabled the password passes the complexity rule, so a submission from the button never stops at that check |
| `Register.RegisterPage.HandleChange` | src/app/register/page.js:98-105 | only the named field changes; its error is cleared only if it was non-empty; other fields and errors keep their values; `passwordValid` tracks the password (the effect at lines 178-180) |
| `Register.RegisterPage.HandleSubmit` | src/app/register/page.js:107-167 | errors are reset first; a mismatched confirmation gives "Passwords do not match." with no request, before the complexity check; a weak password gives "Password does not meet requirements." with no request; otherwise exactly one register request with the payload is sent; success sets `registrationSuccess` and targets /login; failure shows the thrown message, or "Registration failed. Please try again." when it is empty; `isLoading` is false on every exit |
| `Login.UserIdOf` | src/app/login/page.js:74 | `user?.id` is absent when there is no user object, and the user's `id` otherwise |
| `Login.WellFormed` | src/app/login/page.js:70-76 | a login body is accepted iff it has a non-empty access token and a user object with a non-empty id |
| `Login.LoginRequest` | src/app/login/page.js:48-58 | the login request is a POST to the service's /auth/login with a body of exactly email and password, as typed |
| `Login.Authenticate` | src/app/login/page.js:60-76 | success iff the response is ok, decodes, and has a truthy token and a truthy `user.id`, yielding exactly those two non-empty strings; non-ok gives the server message or "Login failed"; then a missing token gives "No authentication token received", checked before the id; then a missing id gives "No user ID received" |
| `Login.StoreAuthData` | src/app/login/page.js:21-27 | the two scopes become `Save` of their old contents with the token and user id |
| `Login.LoginPage.constructor` | src/app/login/page.js:13-19 | the form starts with empty email and password, no error, not loading |
| `Login.LoginPage.HandleChange` | src/app/login/page.js:29-33 | only the named field changes, and the error is always cleared |
| `Login.LoginPage.HandleSubmit` | src/app/login/page.js:35-90 | an empty email or password gives "Please fill in all fields" with no request and no storage change; otherwise exactly one login request with email and password is sent; storage is written (exactly `Save`) and the page moves to /dashboard only when `Authenticate` succeeds; every failure leaves both scopes unchanged and shows the message or the generic one; `isLoading` ends false |
| `Dashboard.ProfileRequest` | src/app/dashboard/page.js:28-33 | the profile request is a GET of the service's /users/<userId> carrying `Authorization: Bearer <token>` |
| `Dashboard.FetchProfile` | src/app/dashboard/page.js:28-37 | an ok decoded response yields its profile; a non-ok one fails with "Failed to fetch user data: <status>" without reading the body; decode and network errors are passed through |
| `Dashboard.FetchFailureIdentifiesStatus` | src/app/dashboard/page.js:35 | distinct failing statuses give distinct error messages |
| `Dashboard.Greeting` | src/app/dashboard/page.js:105 | the greeting is the user's first name when there is a user with a non-empty first name, else "User"; it is never empty |
| `Dashboard.DashboardPage.constructor` | src/app/dashboard/page.js:11-13 | the page mounts with no user, no error and `loading` true |
| `Dashboard.DashboardPage.FetchUserData` | src/app/dashboard/page.js:20-44 | no resolvable token gives "No authentication token found" and no request; then a missing user id gives "User ID not found" and no request; otherwise exactly one profile request with the token as a bearer credential is sent, and the profile is loaded or the failure recorded with `user` unchanged; storage is never modified; `loading` is false after every outcome |
| `Dashboard.DashboardPage.HandleLogout` | src/app/dashboard/page.js:49-54 | both scopes become `Clear` of their old contents and the page moves to /login |
| `Session.SignInThenLoad` | src/app/dashboard/page.js:19-47 | after a successful login, the next dashboard load requests exactly the profile of the returned user id with the returned token; after a failed login the page does not move |
| `Session.SignOutThenLoad` | src/app/dashboard/page.js:49-54 | after sign-out the next dashboard load records "No authentication token found", issues no request and greets "User" |
| `Session.SignInAccepted` | src/app/login/page.js:67-82 | a login answered with token "tok123" and user id "42" stores exactly those in an empty storage and moves to /dashboard |
| `Session.SignInRejected` | src/app/login/page.js:60-64 | a 401 login answered with "Invalid credentials" leaves storage unchanged and shows that message |
| `Session.LoadFailsWithServerError` | src/app/dashboard/page.js:35-43 | a profile fetch answered 500 records "Failed to fetch user data: 500", loads no user and leaves the stored credential in place |

## Left out

- The network, `fetch` and JSON decoding are not modelled. Each exchange is an input value: a network failure with its message, or a status with a decoded body or a syntax error.
- A response's `ok` flag and its status are independent inputs. In `fetch`, `ok` is true exactly when the status is 200-299, so the model also admits responses that cannot occur (such as `ok` with status 500). Every contract holds for all inputs, so this only widens the domain.
- Request headers other than `Authorization` (`Content-Type`, `Accept`) are not modelled.
- JSON fields are modelled as strings or absent. A non-string value (for example a numeric `user.id`, which `setItem` would turn into a string) is not modelled. Neither is a body that is not an object (such as `null`).
- React state hooks, render batching and effect scheduling are not modelled. The effect that recomputes `passwordValid` (src/app/register/page.js:178-180) is folded into `Register.RegisterPage.HandleChange`.
- Dashboard.DashboardPage.FetchUserData: it is modelled from any page state, because the effect re-runs when the router changes. Cancelling on navigation and responses that arrive late are not modelled.
- Navigation is recorded as the target route only. The 1500 ms delay before moving to /login after registering (src/app/register/page.js:146-148) is not modelled.
- The debounced email-existence effect (src/app/register/page.js:169-176) is not modelled. The function it calls is commented out (lines 73-89) and no other declaration of that name exists. So 500 ms after the email last changed to a non-empty value, the timer throws an uncaught `ReferenceError`, provided the email does not change again and the page stays mounted (the effect's cleanup cancels a pending timer on either, src/app/register/page.js:174-176). The error reaches the console only and changes no page state.
- Console logging and the timestamps in log records are not modelled: they are output only.
- The "Customer since" year (src/app/dashboard/page.js:162) is not modelled: it depends on the clock.
- The cart count, the product placeholders, the password-visibility and dropdown toggles, the Google button, "Remember me" and "Forgot your password" are not modelled: they are static markup or have no behaviour.
- The login button's `disabled={isLoading}` is not modelled as its own member: it is the `isLoading` field itself.
- The `typeof window !== 'undefined'` guard in `storeAuthData` is taken as always true (the pages run in a browser). Storage exceptions (quota, storage disabled) are not modelled.
- Register.ValidatePassword: length counts Unicode characters, whereas JavaScript counts UTF-16 code units. A password with characters outside the Basic Multilingual Plane is therefore longer in JavaScript than in the model.
