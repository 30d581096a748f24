/** The sign-in screen: both fields must be filled; a successful login stores
    four session keys (not the e-mail), notifies the application shell and
    moves to the dashboard. */
module Login {
  import opened Common
  import opened Session

  const FillBothMessage := "Por favor ingresa email y contraseña"
  const RejectedMessage := "Email o contraseña incorrectos"
  const AfterLoginPath := "/dashboard"

  /** The body of `POST /auth/login`. */
  datatype LoginRequest = LoginRequest(email: string, password: string)

  /** `{ token, user: { id, role, name } }` of a 2xx reply; any part may be
      missing from the body. */
  datatype LoggedUser = LoggedUser(id: Option<string>, role: Option<string>, name: Option<string>)
  datatype LoginReply = LoginReply(token: Option<string>, user: Option<LoggedUser>)

  /** What follows the storage writes, in order. */
  datatype LoginEffect = NotifyApp | Navigate(path: string)

  /** The storage after the four writes of a successful login; a missing
      part is stored as the text "undefined". */
  function LoggedInSession(m: map<string, string>, token: Option<string>, user: LoggedUser): (r: map<string, string>)
    ensures LoggedIn(r)
    ensures r.Keys == m.Keys + {AuthToken, UserId, UserRole, UserName}
    ensures r[AuthToken] == StoredText(token) && r[UserId] == StoredText(user.id)
    ensures r[UserRole] == StoredText(user.role) && r[UserName] == StoredText(user.name)
    ensures Get(r, UserEmail) == Get(m, UserEmail)
    ensures forall k :: k in m && k !in {AuthToken, UserId, UserRole, UserName} ==> r[k] == m[k]
  {
    m[AuthToken := StoredText(token)][UserId := StoredText(user.id)][UserRole := StoredText(user.role)]
     [UserName := StoredText(user.name)]
  }

  class LoginPage {
    var email: string
    var password: string
    var error: string
    /** Whether the shell passed an `onLogin` callback. */
    const hasOnLogin: bool

    constructor (withOnLogin: bool)
      ensures email == "" && password == "" && error == "" && hasOnLogin == withOnLogin
    {
      email, password, error := "", "", "";
      hasOnLogin := withOnLogin;
    }

    /** `handleLogin`, with the outcome of its POST. A 2xx reply without a
        `user` throws after the token is stored, so the token stays and the
        failure message is shown. */
    method HandleLogin(store: LocalStorage, post: Response<LoginReply>)
      returns (sent: Option<LoginRequest>, effects: seq<LoginEffect>)
      modifies this, store
      ensures email == old(email) && password == old(password)
      ensures email == "" || password == "" ==>
        sent == None && effects == [] && error == FillBothMessage && store.items == old(store.items)
      ensures email != "" && password != "" ==> sent == Some(LoginRequest(email, password))
      ensures email != "" && password != "" && post.Ok? && post.data.user.Some? ==>
        && store.items == LoggedInSession(old(store.items), post.data.token, post.data.user.value)
        && effects == (if hasOnLogin then [NotifyApp] else []) + [Navigate(AfterLoginPath)]
        && error == old(error)
      ensures email != "" && password != "" && post.Ok? && post.data.user.None? ==>
        && store.items == TokenWritten(old(store.items), post.data.token)
        && effects == [] && error == RejectedMessage
      ensures email != "" && password != "" && post.Failed? ==>
        store.items == old(store.items) && effects == [] && error == RejectedMessage
    {
      if email == "" || password == "" {
        error := FillBothMessage;
        return None, [];
      }
      sent := Some(LoginRequest(email, password));
      if post.Ok? {
        var reply := post.data;
        store.SetItem(AuthToken, StoredText(reply.token));
        if reply.user.None? {
          error := RejectedMessage;
          return sent, [];
        }
        var user := reply.user.value;
        store.SetItem(UserId, StoredText(user.id));
        store.SetItem(UserRole, StoredText(user.role));
        store.SetItem(UserName, StoredText(user.name));
        effects := [];
        if hasOnLogin {
          effects := effects + [NotifyApp];
        }
        effects := effects + [Navigate(AfterLoginPath)];
      } else {
        error := RejectedMessage;
        effects := [];
      }
    }
  }
}
