/** The sign-up screen: three checks in a fixed order before any request,
    then, on success, a session of five keys with the role fixed to "user". */
module Register {
  import opened Common
  import opened Session
  import EmailPattern

  const FillAllMessage := "Completa todos los campos"
  const BadEmailMessage := "Correo electrónico no válido"
  const ShortPasswordMessage := "La contraseña debe tener al menos 8 caracteres"
  const RejectedMessage := "Error al registrar. Intenta con otro correo."
  const MinPasswordLength := 8
  const RegisteredRole := "user"
  const AfterRegisterPath := "/dashboard"

  /** The body of `POST /auth/register`. */
  datatype RegisterRequest = RegisterRequest(name: string, email: string, password: string)

  /** `{ token, user: { id, name, email } }` of a 2xx reply; any part may be
      missing from the body. */
  datatype RegisteredUser = RegisteredUser(id: Option<string>, name: Option<string>, email: Option<string>)
  datatype RegisterReply = RegisterReply(token: Option<string>, user: Option<RegisteredUser>)

  /** The message of the first check that fails, or `None` when the form may
      be sent: empty fields first, then the e-mail pattern, then the length. */
  function ValidationError(name: string, email: string, password: string): (r: Option<string>)
    ensures r.None? <==> name != "" && email != "" && password != ""
                         && EmailPattern.Matches(email) && |password| >= MinPasswordLength
    ensures name == "" || email == "" || password == "" ==> r == Some(FillAllMessage)
    ensures name != "" && email != "" && password != "" && !EmailPattern.Matches(email) ==>
      r == Some(BadEmailMessage)
    ensures name != "" && email != "" && password != "" && EmailPattern.Matches(email)
            && |password| < MinPasswordLength ==>
      r == Some(ShortPasswordMessage)
  {
    EmailPattern.IsValidEmailMatches(email);
    if name == "" || email == "" || password == "" then Some(FillAllMessage)
    else if !EmailPattern.IsValidEmail(email) then Some(BadEmailMessage)
    else if |password| < MinPasswordLength then Some(ShortPasswordMessage)
    else None
  }

  /** The storage after the five writes of a successful registration; a
      missing part is stored as the text "undefined". */
  function RegisteredSession(m: map<string, string>, token: Option<string>, user: RegisteredUser): (r: map<string, string>)
    ensures LoggedIn(r)
    ensures r.Keys == m.Keys + {AuthToken, UserId, UserName, UserEmail, UserRole}
    ensures r[AuthToken] == StoredText(token) && r[UserId] == StoredText(user.id)
    ensures r[UserName] == StoredText(user.name) && r[UserEmail] == StoredText(user.email)
    ensures r[UserRole] == RegisteredRole
    ensures forall k :: k in m && k !in {AuthToken, UserId, UserName, UserEmail, UserRole} ==> r[k] == m[k]
  {
    m[AuthToken := StoredText(token)][UserId := StoredText(user.id)][UserName := StoredText(user.name)]
     [UserEmail := StoredText(user.email)][UserRole := RegisteredRole]
  }

  /** The screen's form and its error line. */
  class RegisterPage {
    var name: string
    var email: string
    var password: string
    var error: string

    constructor ()
      ensures name == "" && email == "" && password == "" && error == ""
    {
      name, email, password, error := "", "", "", "";
    }

    /** `handleRegister`, with the outcome of its POST. A 2xx reply without
        a `user` throws after the token is stored, so the token stays and
        the failure message is shown. */
    method HandleRegister(store: LocalStorage, post: Response<RegisterReply>)
      returns (sent: Option<RegisterRequest>, nav: Navigation)
      modifies this, store
      ensures name == old(name) && email == old(email) && password == old(password)
      ensures ValidationError(name, email, password).Some? ==>
        && sent == None && nav == Stay
        && error == ValidationError(name, email, password).value
        && store.items == old(store.items)
      ensures ValidationError(name, email, password).None? ==>
        sent == Some(RegisterRequest(name, email, password))
      ensures ValidationError(name, email, password).None? && post.Ok? && post.data.user.Some? ==>
        && store.items == RegisteredSession(old(store.items), post.data.token, post.data.user.value)
        && nav == NavigateTo(AfterRegisterPath) && error == old(error)
      ensures ValidationError(name, email, password).None? && post.Ok? && post.data.user.None? ==>
        && store.items == TokenWritten(old(store.items), post.data.token)
        && nav == Stay && error == RejectedMessage
      ensures ValidationError(name, email, password).None? && post.Failed? ==>
        && store.items == old(store.items)
        && nav == Stay && error == RejectedMessage
    {
      var invalid := ValidationError(name, email, password);
      if invalid.Some? {
        error := invalid.value;
        return None, Stay;
      }
      sent := Some(RegisterRequest(name, email, password));
      if post.Ok? {
        var reply := post.data;
        store.SetItem(AuthToken, StoredText(reply.token));
        if reply.user.None? {
          error := RejectedMessage;
          return sent, Stay;
        }
        var user := reply.user.value;
        store.SetItem(UserId, StoredText(user.id));
        store.SetItem(UserName, StoredText(user.name));
        store.SetItem(UserEmail, StoredText(user.email));
        store.SetItem(UserRole, RegisteredRole);
        nav := NavigateTo(AfterRegisterPath);
      } else {
        error := RejectedMessage;
        nav := Stay;
      }
    }
  }

  /** "a@b" never reaches the backend, whatever the other fields hold. */
  lemma UndottedEmailRefused(name: string, password: string)
    requires name != "" && password != ""
    ensures ValidationError(name, "a@b", password) == Some(BadEmailMessage)
  {
    EmailPattern.NoDotRejected();
  }
}
