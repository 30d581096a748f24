/** The "Crear usuario administrador" screen: posts the form with the role
    fixed to "admin", showing the backend's own error text when it sends one. */
module CreateAdmin {
  import opened Common

  const AdminRole := "admin"
  const CreatedMessage := "Administrador creado correctamente"
  const DefaultErrorMessage := "Error al crear administrador"
  const AfterCreatePath := "/dashboard"

  /** The body of `POST /auth/register-admin`. */
  datatype AdminRequest = AdminRequest(name: string, email: string, password: string, role: string)

  /** `err.response.data.error` when it is a non-empty string, else the
      generic message. */
  function ErrorMessage(errorBody: Option<string>): (r: string)
    ensures Truthy(errorBody) ==> r == errorBody.value
    ensures !Truthy(errorBody) ==> r == DefaultErrorMessage
    ensures r != ""
  {
    OrElse(errorBody, DefaultErrorMessage)
  }

  class CreateAdminPage {
    var name: string
    var email: string
    var password: string
    var alert: Alert
    var loading: bool

    constructor ()
      ensures name == "" && email == "" && password == "" && alert == NoAlert && !loading
    {
      name, email, password := "", "", "";
      alert := NoAlert;
      loading := false;
    }

    /** `handleSubmit` up to its POST: loading on, alert cleared, and the
        request always carries the administrator role. */
    method BeginSubmit() returns (sent: AdminRequest)
      modifies this
      ensures loading && alert == NoAlert
      ensures name == old(name) && email == old(email) && password == old(password)
      ensures sent == AdminRequest(name, email, password, AdminRole)
    {
      loading := true;
      alert := NoAlert;
      sent := AdminRequest(name, email, password, AdminRole);
    }

    /** The rest of `handleSubmit`, with the POST's outcome. */
    method CompleteSubmit(post: Response<()>) returns (nav: Navigation)
      modifies this
      ensures !loading
      ensures name == old(name) && email == old(email) && password == old(password)
      ensures post.Ok? ==> alert == Alert(CreatedMessage, Success) && nav == NavigateTo(AfterCreatePath)
      ensures post.Failed? ==> alert == Alert(ErrorMessage(post.errorBody), Error) && nav == Stay
    {
      if post.Ok? {
        alert := Alert(CreatedMessage, Success);
        nav := NavigateTo(AfterCreatePath);
      } else {
        alert := Alert(ErrorMessage(post.errorBody), Error);
        nav := Stay;
      }
      loading := false;
    }
  }
}
