/**
 * The login page: its zod schema, the redirect of a signed-in visitor by role, and
 * `onSubmit`, which calls the session's `login` and reports the outcome.
 */
module LoginForm {
  import opened Wrappers
  import opened Validators
  import opened Records
  import opened AuthGate
  import opened AuthRoutes
  import opened ClientApi
  import opened Session

  const MsgFormEmail: string := "Please enter a valid email address"
  const MsgFormPassword: string := "Password is required"
  const MsgLoginOk: string := "Login successful!"
  const MsgLoginFailed: string := "Invalid credentials. Please try again."
  const AdminPath: string := "/admin"
  const DashboardPath: string := "/dashboard"

  /** `loginSchema` as react-hook-form shows it: one message per failing field. */
  function LoginSchema(zodEmail: string -> bool, email: string, password: string): seq<FieldError> {
    (if zodEmail(email) then [] else [FieldError("email", MsgFormEmail)])
    + (if |password| < 1 then [FieldError("password", MsgFormPassword)] else [])
  }

  /** Where a visitor who is already signed in is sent; `None` renders the form. */
  function RedirectTarget(user: Option<ClientUser>): Option<string> {
    match user
    case None => None
    case Some(u) => Some(if u.role == "ADMIN" then AdminPath else DashboardPath)
  }

  /** What the client receives for a reply of `POST /auth/login`. */
  function ResponseOf(reply: LoginReply): ApiResult<LoginData> {
    match reply
    case LoginInvalid(errors) =>
      Failed(ClientError(Some(ResponseData(None, Some(seq(|errors|, i requires 0 <= i < |errors| => errors[i].msg))))))
    case BadCredentials => Failed(ClientError(Some(ResponseData(Some(MsgBadCredentials), None))))
    case LoggedIn(token, u) => Done(LoginData(token, ClientUser(u.id, u.fullName, u.email, u.role.Name())))
  }

  /** The form submits exactly when the address passes zod and the password is not empty. */
  lemma LoginSchemaSpec(zodEmail: string -> bool, email: string, password: string)
    ensures LoginSchema(zodEmail, email, password) == [] <==> zodEmail(email) && password != ""
    ensures |LoginSchema(zodEmail, email, password)| <= 2
  {
  }

  /** The form flags the password exactly when the backend's login chain does: only when empty. */
  lemma PasswordRuleMatchesBackend(zodEmail: string -> bool, lib: EmailLib, email: string, password: string)
    ensures FieldError("password", MsgFormPassword) in LoginSchema(zodEmail, email, password)
        <==> password == ""
    ensures FieldError("password", MsgPasswordRequired) in LoginErrors(lib, email, password)
        <==> password == ""
  {
  }

  /** A signed-in ADMIN goes to the admin area, any other role to the dashboard. */
  lemma RedirectByRole(user: Option<ClientUser>)
    ensures RedirectTarget(user).None? <==> user.None?
    ensures user.Some? && user.value.role == "ADMIN" ==> RedirectTarget(user) == Some("/admin")
    ensures user.Some? && user.value.role != "ADMIN" ==> RedirectTarget(user) == Some("/dashboard")
  {
  }

  /**
   * The toast for a rejected login is the server's reason: "Invalid email or password."
   * for bad credentials, the first validation message for a malformed request.
   */
  lemma {:induction false} RejectedLoginMessage(users: seq<User>, lib: EmailLib, bcrypt: Bcrypt, jwt: Jwt,
                                                body: LoginBody)
    ensures var reply := LoginReplyFor(users, lib, bcrypt, jwt, body);
      && (reply.BadCredentials? ==>
            ErrorMessage(ResponseOf(reply).err, MsgLoginFailed) == "Invalid email or password.")
      && (reply.LoginInvalid? ==>
            ErrorMessage(ResponseOf(reply).err, MsgLoginFailed) == LoginErrors(lib, body.email, body.password)[0].msg)
  {
    var errors := LoginErrors(lib, body.email, body.password);
    if errors != [] {
      assert errors[0].msg == MsgEmailRequired || errors[0].msg == MsgEmailInvalid || errors[0].msg == MsgPasswordRequired;
    }
  }

  /**
   * After the backend accepts a login, the session holds the server's user and the page
   * sends an ADMIN to "/admin" and a BROKER to "/dashboard".
   */
  lemma AcceptedLoginRedirects(users: seq<User>, lib: EmailLib, bcrypt: Bcrypt, jwt: Jwt, body: LoginBody,
                               s: SessionState, json: Json)
    requires LoginReplyFor(users, lib, bcrypt, jwt, body).LoggedIn?
    ensures var reply := LoginReplyFor(users, lib, bcrypt, jwt, body);
      var after := AfterLogin(s, ResponseOf(reply).value, json);
      && after.token == Some(reply.token)
      && RedirectTarget(after.user) == Some(if reply.user.role == Admin then "/admin" else "/dashboard")
  {
  }

  /** The page's state: the submit flag and the notifications. */
  class LoginPage {
    var isSubmitting: bool
    var toasts: seq<Toast>
    /** The value of `isSubmitting` while the request was in flight. */
    ghost var submittingWhileSent: bool

    constructor ()
      ensures !isSubmitting && toasts == []
    {
      isSubmitting := false;
      toasts := [];
      submittingWhileSent := false;
    }

    /** `onSubmit(data)`: the session's `login`, then a toast; the flag is reset either way. */
    method OnSubmit(auth: AuthProvider, api: (string, string) -> ApiResult<LoginData>, json: Json,
                    email: string, password: string)
      modifies this, auth
      ensures submittingWhileSent && !isSubmitting
      ensures api(email, password).Done? ==>
        && auth.State() == AfterLogin(old(auth.State()), api(email, password).value, json)
        && toasts == old(toasts) + [SuccessToast(MsgLoginOk)]
      ensures api(email, password).Failed? ==>
        && auth.State() == old(auth.State())
        && toasts == old(toasts) + [ErrorToast(ErrorMessage(api(email, password).err, MsgLoginFailed))]
    {
      isSubmitting := true;
      submittingWhileSent := isSubmitting;
      var failure := auth.Login(api, json, email, password);
      if failure.None? {
        toasts := toasts + [SuccessToast(MsgLoginOk)];
      } else {
        var message := ErrorMessage(failure.value, MsgLoginFailed);
        toasts := toasts + [ErrorToast(message)];
      }
      isSubmitting := false;
    }
  }
}
