/** The space directory: the list of spaces, role-gated handlers for the
    cards' actions, and the logout button. The role and the greeting name are
    read from storage on every render. */
module Dashboard {
  import opened Common
  import opened Session
  import opened Spaces

  const DefaultUserName := "Usuario"
  const LoadErrorMessage := "Error al cargar espacios"
  const AdminCannotReserveMessage := "Los administradores no pueden reservar espacios."
  const OnlyAdminEditsMessage := "Solo los administradores pueden editar espacios."
  const OnlyAdminDeletesMessage := "Solo los administradores pueden eliminar espacios."
  const DeleteErrorMessage := "Error al eliminar espacio"
  const AfterLogoutPath := "/login"

  /** `localStorage.getItem('user_name') || 'Usuario'`. */
  function DisplayName(m: map<string, string>): (r: string)
    ensures UserName in m && m[UserName] != "" ==> r == m[UserName]
    ensures !(UserName in m && m[UserName] != "") ==> r == DefaultUserName
  {
    OrElse(Get(m, UserName), DefaultUserName)
  }

  /** `localStorage.getItem('user_role') || ''`. */
  function RoleOf(m: map<string, string>): (r: string)
    ensures UserRole in m ==> r == m[UserRole]
    ensures UserRole !in m ==> r == ""
  {
    OrElse(Get(m, UserRole), "")
  }

  /** `spaces.filter(s => s._id !== space._id)`. */
  function RemoveById(spaces: seq<Space>, id: string): (r: seq<Space>)
    ensures forall s :: s in r ==> s in spaces && s.id != id
    ensures forall s :: s in spaces && s.id != id ==> s in r
    ensures |r| <= |spaces|
  {
    if spaces == [] then []
    else (if spaces[0].id != id then [spaces[0]] else []) + RemoveById(spaces[1..], id)
  }

  /** Removal keeps the order of what remains: it works piece by piece … */
  lemma {:induction false} RemoveByIdConcat(a: seq<Space>, b: seq<Space>, id: string)
    ensures RemoveById(a + b, id) == RemoveById(a, id) + RemoveById(b, id)
  {
    if a == [] {
      assert a + b == b;
    } else {
      var head := if a[0].id != id then [a[0]] else [];
      assert (a + b)[0] == a[0] && (a + b)[1..] == a[1..] + b;
      calc {
        RemoveById(a + b, id);
        head + RemoveById(a[1..] + b, id);
        { RemoveByIdConcat(a[1..], b, id); }
        head + (RemoveById(a[1..], id) + RemoveById(b, id));
        RemoveById(a, id) + RemoveById(b, id);
      }
    }
  }

  /** … touches nothing when no entry has the id … */
  lemma {:induction false} RemoveAbsentId(spaces: seq<Space>, id: string)
    requires forall s :: s in spaces ==> s.id != id
    ensures RemoveById(spaces, id) == spaces
  {
    if spaces != [] {
      assert spaces[0] in spaces;
      assert forall s :: s in spaces[1..] ==> s in spaces;
      RemoveAbsentId(spaces[1..], id);
    }
  }

  /** … and removing twice is removing once. */
  lemma RemoveByIdIdempotent(spaces: seq<Space>, id: string)
    ensures RemoveById(RemoveById(spaces, id), id) == RemoveById(spaces, id)
  {
    RemoveAbsentId(RemoveById(spaces, id), id);
  }

  /** The storage after logout: four keys gone, the e-mail kept. */
  function LoggedOutSession(m: map<string, string>): (r: map<string, string>)
    ensures !LoggedIn(r)
    ensures AuthToken !in r && UserName !in r && UserRole !in r && UserId !in r
    ensures Get(r, UserEmail) == Get(m, UserEmail)
    ensures forall k :: k in m && k !in {AuthToken, UserName, UserRole, UserId} ==> k in r && r[k] == m[k]
    ensures r.Keys <= m.Keys
  {
    m - {AuthToken} - {UserName} - {UserRole} - {UserId}
  }

  /** The dashboard's state. */
  class DashboardPage {
    var spaces: seq<Space>
    var showAddModal: bool
    var alert: Alert

    constructor ()
      ensures spaces == [] && !showAddModal && alert == NoAlert
    {
      spaces := [];
      showAddModal := false;
      alert := NoAlert;
    }

    /** `fetchSpaces`, with the outcome of `GET /spaces?tipo=aula`. */
    method FetchSpaces(response: Response<seq<Space>>)
      modifies this
      ensures showAddModal == old(showAddModal)
      ensures response.Ok? ==> spaces == response.data && alert == old(alert)
      ensures response.Failed? ==> spaces == old(spaces) && alert == Alert(LoadErrorMessage, Error)
    {
      if response.Ok? {
        spaces := response.data;
      } else {
        alert := Alert(LoadErrorMessage, Error);
      }
    }

    /** `handleReserve`: an administrator is warned off. */
    method HandleReserve(session: map<string, string>, space: Space)
      modifies this
      ensures spaces == old(spaces) && showAddModal == old(showAddModal)
      ensures RoleOf(session) == AdminRole ==> alert == Alert(AdminCannotReserveMessage, Warning)
      ensures RoleOf(session) != AdminRole ==> alert == Alert("Reservar espacio: " + space.name, Info)
    {
      if RoleOf(session) == AdminRole {
        alert := Alert(AdminCannotReserveMessage, Warning);
        return;
      }
      alert := Alert("Reservar espacio: " + space.name, Info);
    }

    /** `handleEdit`, called by a card after a save: only an administrator
        gets the confirmation; the list itself is not updated here. */
    method HandleEdit(session: map<string, string>, space: Space)
      modifies this
      ensures spaces == old(spaces) && showAddModal == old(showAddModal)
      ensures RoleOf(session) != AdminRole ==> alert == Alert(OnlyAdminEditsMessage, Warning)
      ensures RoleOf(session) == AdminRole ==> alert == Alert("Editar espacio: " + space.name, Info)
    {
      if RoleOf(session) != AdminRole {
        alert := Alert(OnlyAdminEditsMessage, Warning);
        return;
      }
      alert := Alert("Editar espacio: " + space.name, Info);
    }

    /** `handleDelete`, with the outcome of its DELETE. Returns whether the
        request was sent. */
    method HandleDelete(session: map<string, string>, space: Space, del: Response<()>) returns (sent: bool)
      modifies this
      ensures showAddModal == old(showAddModal)
      ensures sent <==> RoleOf(session) == AdminRole
      ensures !sent ==> spaces == old(spaces) && alert == Alert(OnlyAdminDeletesMessage, Warning)
      ensures sent && del.Ok? ==>
        spaces == RemoveById(old(spaces), space.id)
        && alert == Alert("Espacio " + space.name + " eliminado correctamente.", Success)
      ensures sent && del.Failed? ==> spaces == old(spaces) && alert == Alert(DeleteErrorMessage, Error)
    {
      if RoleOf(session) != AdminRole {
        alert := Alert(OnlyAdminDeletesMessage, Warning);
        return false;
      }
      sent := true;
      if del.Ok? {
        spaces := RemoveById(spaces, space.id);
        alert := Alert("Espacio " + space.name + " eliminado correctamente.", Success);
      } else {
        alert := Alert(DeleteErrorMessage, Error);
      }
    }

    /** "Agregar espacio" opens the dialog. */
    method OpenAddModal()
      modifies this
      ensures showAddModal && spaces == old(spaces) && alert == old(alert)
    {
      showAddModal := true;
    }

    method CloseAddModal()
      modifies this
      ensures !showAddModal && spaces == old(spaces) && alert == old(alert)
    {
      showAddModal := false;
    }

    /** The alert's close button. */
    method DismissAlert()
      modifies this
      ensures alert == NoAlert && spaces == old(spaces) && showAddModal == old(showAddModal)
    {
      alert := NoAlert;
    }
  }

  /** "Cerrar sesión": removes four keys, then goes to the login screen. */
  method Logout(store: LocalStorage) returns (nav: Navigation)
    modifies store
    ensures store.items == LoggedOutSession(old(store.items))
    ensures nav == NavigateTo(AfterLogoutPath)
  {
    store.RemoveItem(AuthToken);
    store.RemoveItem(UserName);
    store.RemoveItem(UserRole);
    store.RemoveItem(UserId);
    nav := NavigateTo(AfterLogoutPath);
  }

  /** The add and create-admin buttons show for `user_role === 'admin'`. */
  predicate ShowsAdminButtons(m: map<string, string>)
    ensures ShowsAdminButtons(m) <==> RoleOf(m) == AdminRole
    ensures ShowsAdminButtons(m) <==> ShowsAdminActions(RoleOf(m))
  {
    Get(m, UserRole) == Some(AdminRole)
  }

  /** A logged-out user sees no administrator buttons, cards or handlers. */
  lemma LogoutDropsAdminRights(m: map<string, string>)
    ensures !ShowsAdminButtons(LoggedOutSession(m))
    ensures RoleOf(LoggedOutSession(m)) == ""
    ensures !ShowsAdminActions(RoleOf(LoggedOutSession(m)))
    ensures DisplayName(LoggedOutSession(m)) == DefaultUserName
  {
  }
}
