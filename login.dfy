/** The login page: a four-field form, a login tab and a register tab,
    and the handlers that step the form, the error and success messages,
    the loading flag, the stored token and user, and the page navigated
    to. */
module Login {
  import opened Js
  import opened Wire

  datatype Field = Username | Password | ConfirmPassword | InviteCode

  datatype Form = Form(username: string, password: string, confirmPassword: string, inviteCode: string)

  const EmptyForm := Form("", "", "", "")

  function Get(form: Form, field: Field): string
  {
    match field
    case Username => form.username
    case Password => form.password
    case ConfirmPassword => form.confirmPassword
    case InviteCode => form.inviteCode
  }

  /** `{ ...formData, [name]: value }`. */
  function WithField(form: Form, field: Field, value: string): (r: Form)
    ensures Get(r, field) == value
    ensures forall other :: other != field ==> Get(r, other) == Get(form, other)
  {
    match field
    case Username => form.(username := value)
    case Password => form.(password := value)
    case ConfirmPassword => form.(confirmPassword := value)
    case InviteCode => form.(inviteCode := value)
  }

  /** Writing a field twice keeps the last value; writing two different
      fields does not depend on the order. */
  lemma WithFieldLaws(form: Form, f: Field, g: Field, a: string, b: string)
    ensures WithField(WithField(form, f, a), f, b) == WithField(form, f, b)
    ensures f != g ==> WithField(WithField(form, f, a), g, b) == WithField(WithField(form, g, b), f, a)
  {
  }

  const PasswordMismatch := "两次输入的密码不一致"
  const InviteRequired := "请输入邀请码"
  const RegisterFallback := "注册失败，请稍后再试"
  const LoginFallback := "登录失败，请检查用户名和密码"
  const RegisterDone := "注册成功，请登录"

  /** The checks `handleRegisterSubmit` makes before any request, in
      order: the two passwords must agree, then a required invite code
      must be given. */
  function RegisterCheck(form: Form, inviteRequired: bool): (r: Option<string>)
    ensures r.None? <==> form.password == form.confirmPassword && (!inviteRequired || form.inviteCode != "")
    ensures form.password != form.confirmPassword ==> r == Some(PasswordMismatch)
  {
    if form.password != form.confirmPassword then Some(PasswordMismatch)
    else if inviteRequired && form.inviteCode == "" then Some(InviteRequired)
    else None
  }

  /** The body of `POST /api/register`. */
  datatype RegisterPayload = RegisterPayload(username: string, password: string, inviteCode: Option<string>)

  /** The invite code travels only when it is required. */
  function PayloadOf(form: Form, inviteRequired: bool): (r: RegisterPayload)
    ensures r.username == form.username && r.password == form.password
    ensures r.inviteCode.Some? <==> inviteRequired
    ensures r.inviteCode.Some? ==> r.inviteCode.value == form.inviteCode
  {
    RegisterPayload(form.username, form.password, if inviteRequired then Some(form.inviteCode) else None)
  }

  /** Where a logged-in user is sent: `/admin` for the role `'admin'`,
      `/chat` for every other role. */
  function RoleHome(role: string): (r: string)
    ensures r == "/admin" <==> role == "admin"
    ensures r == "/chat" <==> role != "admin"
  {
    if role == "admin" then "/admin" else "/chat"
  }

  /** `err.response?.data?.error || fallback`. */
  function ErrorText(serverError: string, fallback: string): (r: string)
    ensures serverError != "" ==> r == serverError
    ensures serverError == "" ==> r == fallback
  {
    if serverError != "" then serverError else fallback
  }

  /** How `POST /api/login`, `GET /api/users/me` and `POST /api/register`
      end; a failure carries the server's `error` text, `""` when none. */
  datatype LoginReply = LoggedIn(token: string) | LoginFailed(serverError: string)
  datatype MeReply = Me(user: UserInfo) | MeFailed(serverError: string)
  datatype RegisterReply = RegisterOk | RegisterFailed(serverError: string)

  class LoginView {
    var activeTab: string
    var form: Form
    var loading: bool
    var error: Option<string>
    var success: Option<string>
    var inviteCodeRequired: bool
    var storage: BrowserStorage
    /** The last page navigated to, if any. */
    var navigatedTo: Option<string>

    constructor (storage: BrowserStorage)
      ensures activeTab == "login" && form == EmptyForm && !loading
      ensures error == None && success == None && !inviteCodeRequired
      ensures this.storage == storage && navigatedTo == None
    {
      activeTab := "login";
      form := EmptyForm;
      loading := false;
      error := None;
      success := None;
      inviteCodeRequired := false;
      this.storage := storage;
      navigatedTo := None;
    }

    /** The mount effect's token check: a stored token that verifies
        leads to `/chat`, one that does not is removed. */
    method CheckStoredToken(verifies: bool)
      modifies this`storage, this`navigatedTo
      ensures HasToken(old(storage)) && verifies ==> navigatedTo == Some("/chat") && storage == old(storage)
      ensures HasToken(old(storage)) && !verifies ==>
        navigatedTo == old(navigatedTo) && storage == old(storage).(token := None)
      ensures !HasToken(old(storage)) ==> navigatedTo == old(navigatedTo) && storage == old(storage)
    {
      if HasToken(storage) {
        if verifies {
          navigatedTo := Some("/chat");
        } else {
          storage := storage.(token := None);
        }
      }
    }

    /** The mount effect's invite-status request: the server's `required`
        flag, or `false` when the request fails. */
    method LoadInviteStatus(reply: Option<bool>)
      modifies this`inviteCodeRequired
      ensures inviteCodeRequired == (reply.Some? && reply.value)
    {
      match reply
      case Some(required) => inviteCodeRequired := required;
      case None => inviteCodeRequired := false;
    }

    /** `handleChange`. */
    method HandleChange(field: Field, value: string)
      modifies this`form
      ensures form == WithField(old(form), field, value)
    {
      match field
      case Username => form := form.(username := value);
      case Password => form := form.(password := value);
      case ConfirmPassword => form := form.(confirmPassword := value);
      case InviteCode => form := form.(inviteCode := value);
    }

    /** `handleTabChange`. */
    method HandleTabChange(tab: string)
      modifies this`activeTab, this`error, this`success
      ensures activeTab == tab && error == None && success == None
    {
      activeTab := tab;
      error := None;
      success := None;
    }

    /** `handleLoginSubmit`: log in, store the token, fetch the account,
        store it and go to the role's home page. A failure of either
        request shows the server's error or the fallback; the token
        stays stored when only the second request fails. */
    method HandleLoginSubmit(login: LoginReply, me: MeReply)
      modifies this`loading, this`error, this`storage, this`navigatedTo
      ensures !loading
      ensures login.LoginFailed? ==>
        && error == Some(ErrorText(login.serverError, LoginFallback))
        && storage == old(storage) && navigatedTo == old(navigatedTo)
      ensures login.LoggedIn? && me.MeFailed? ==>
        && error == Some(ErrorText(me.serverError, LoginFallback))
        && storage == old(storage).(token := Some(login.token)) && navigatedTo == old(navigatedTo)
      ensures login.LoggedIn? && me.Me? ==>
        && error == None
        && storage == BrowserStorage(Some(login.token), Some(me.user))
        && navigatedTo == Some(RoleHome(me.user.role))
    {
      loading := true;
      error := None;
      match login {
        case LoginFailed(e) =>
          error := Some(if e != "" then e else LoginFallback);
        case LoggedIn(token) =>
          storage := storage.(token := Some(token));
          match me {
            case MeFailed(e) =>
              error := Some(if e != "" then e else LoginFallback);
            case Me(user) =>
              storage := storage.(user := Some(user));
              if user.role == "admin" {
                navigatedTo := Some("/admin");
              } else {
                navigatedTo := Some("/chat");
              }
          }
      }
      loading := false;
    }

    /** `handleRegisterSubmit`: the two checks return early with an error
        and no request; otherwise the payload is posted, and on success
        the passwords and the invite code are cleared while the user name
        stays. */
    method HandleRegisterSubmit(reply: RegisterReply) returns (request: Option<RegisterPayload>)
      modifies this`loading, this`error, this`success, this`form
      ensures !loading
      ensures RegisterCheck(old(form), inviteCodeRequired).Some? ==>
        && request.None? && error == RegisterCheck(old(form), inviteCodeRequired)
        && success == None && form == old(form)
      ensures RegisterCheck(old(form), inviteCodeRequired).None? ==>
        request == Some(PayloadOf(old(form), inviteCodeRequired))
      ensures request.Some? && reply.RegisterOk? ==>
        && success == Some(RegisterDone) && error == None
        && form == Form(old(form).username, "", "", "")
      ensures request.Some? && reply.RegisterFailed? ==>
        && error == Some(ErrorText(reply.serverError, RegisterFallback))
        && success == None && form == old(form)
    {
      loading := true;
      error := None;
      success := None;

      if form.password != form.confirmPassword {
        error := Some(PasswordMismatch);
        loading := false;
        return None;
      }

      var payload := RegisterPayload(form.username, form.password, None);
      if inviteCodeRequired {
        if form.inviteCode == "" {
          error := Some(InviteRequired);
          loading := false;
          return None;
        }
        payload := payload.(inviteCode := Some(form.inviteCode));
      }
      request := Some(payload);

      match reply {
        case RegisterOk =>
          success := Some(RegisterDone);
          form := form.(password := "", confirmPassword := "", inviteCode := "");
        case RegisterFailed(e) =>
          error := Some(if e != "" then e else RegisterFallback);
      }
      loading := false;
    }
  }
}
