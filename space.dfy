/** A bookable space, its card in the directory and the card's edit dialog.
    The dialog checks only the type against the three known kinds; capacity
    goes to the backend as entered. */
module Spaces {
  import opened Common

  const AdminRole := "admin"
  const BadTypeMessage := "El tipo debe ser \"aula\", \"laboratorio\" o \"sala\"."
  const SaveErrorMessage := "Error al guardar los cambios"

  /** `TYPE_OPTIONS`. */
  const TypeOptions := ["aula", "laboratorio", "sala"]

  /** A capacity as the backend stores it (a number) or as the number input
      yields it (the text typed). */
  datatype Capacity = Number(n: int) | Text(s: string)

  /** JavaScript truthiness of a capacity: `0` and `''` are falsy. */
  predicate CapacityTruthy(c: Capacity)
  {
    match c
    case Number(n) => n != 0
    case Text(s) => s != ""
  }

  /** A space record; `others` holds the fields the client never edits. */
  datatype Space = Space(
    id: string,
    name: string,
    spaceType: string,
    capacity: Capacity,
    location: string,
    others: map<string, string>)

  /** `TYPE_OPTIONS.includes(type)`. */
  predicate IsSpaceType(t: string)
    ensures IsSpaceType(t) <==> t == "aula" || t == "laboratorio" || t == "sala"
  {
    t in TypeOptions
  }

  /** The body of `PUT /spaces/:id`, with the id of the path. */
  datatype UpdateRequest = UpdateRequest(
    id: string, name: string, spaceType: string, capacity: Capacity, location: string)

  /** Where the card's two buttons navigate to (the name is not encoded). */
  function ReservePath(space: Space): (p: string)
    ensures |p| == 10 + |space.id| + |space.name|
    ensures p[..9] == "/reserve/" && p[9..9 + |space.id|] == space.id
    ensures p[9 + |space.id|] == '/' && p[10 + |space.id|..] == space.name
  {
    "/reserve/" + space.id + "/" + space.name
  }

  function AvailabilityPath(space: Space): (p: string)
    ensures |p| == 14 + |space.id|
    ensures p[..14] == "/availability/" && p[14..] == space.id
  {
    "/availability/" + space.id
  }

  /** The card shows "Editar" and "Eliminar" only to administrators. */
  predicate ShowsAdminActions(userRole: string)
    ensures ShowsAdminActions(userRole) <==> userRole == "admin"
  {
    userRole == AdminRole
  }

  /** The four form values of the dialog. */
  datatype SpaceForm = SpaceForm(name: string, spaceType: string, capacity: Capacity, location: string)

  /** `space?.x || ''` for each field: a falsy value, and every field of a
      missing space, shows as empty. */
  function FormFrom(space: Option<Space>): (f: SpaceForm)
    ensures space.None? ==> f == SpaceForm("", "", Text(""), "")
    ensures space.Some? ==> f.name == space.value.name && f.spaceType == space.value.spaceType
                            && f.location == space.value.location
    ensures space.Some? && CapacityTruthy(space.value.capacity) ==> f.capacity == space.value.capacity
    ensures !(space.Some? && CapacityTruthy(space.value.capacity)) ==> f.capacity == Text("")
  {
    match space
    case None => SpaceForm("", "", Text(""), "")
    case Some(s) => SpaceForm(s.name, s.spaceType, if CapacityTruthy(s.capacity) then s.capacity else Text(""), s.location)
  }

  /** `{ ...space, name, type, capacity, location }`. */
  function Merge(space: Space, f: SpaceForm): (r: Space)
    ensures r.id == space.id && r.others == space.others
    ensures r.name == f.name && r.spaceType == f.spaceType
    ensures r.capacity == f.capacity && r.location == f.location
  {
    space.(name := f.name, spaceType := f.spaceType, capacity := f.capacity, location := f.location)
  }

  /** Saving an unchanged form returns the space as it was, unless its
      capacity was a zero, which the form turned into an empty text. */
  lemma MergeUnchangedForm(space: Space)
    ensures CapacityTruthy(space.capacity) ==> Merge(space, FormFrom(Some(space))) == space
    ensures !CapacityTruthy(space.capacity) ==> Merge(space, FormFrom(Some(space))).capacity == Text("")
  {
  }

  /** `EditSpaceModal`'s state. */
  class EditSpaceModal {
    var space: Option<Space>
    var name: string
    var spaceType: string
    var capacity: Capacity
    var location: string
    var loading: bool
    var error: string

    function Form(): SpaceForm
      reads this
    {
      SpaceForm(name, spaceType, capacity, location)
    }

    constructor (s: Option<Space>)
      ensures space == s && Form() == FormFrom(s) && !loading && error == ""
    {
      space := s;
      var f := FormFrom(s);
      name, spaceType, capacity, location := f.name, f.spaceType, f.capacity, f.location;
      loading := false;
      error := "";
    }

    /** The effect that runs when the `space` prop changes. */
    method Reset(s: Option<Space>)
      modifies this
      ensures space == s && Form() == FormFrom(s) && error == "" && loading == old(loading)
    {
      space := s;
      var f := FormFrom(s);
      name, spaceType, capacity, location := f.name, f.spaceType, f.capacity, f.location;
      error := "";
    }

    /** The four `onChange` handlers. */
    method Edit(f: SpaceForm)
      modifies this
      ensures Form() == f && space == old(space) && loading == old(loading) && error == old(error)
    {
      name, spaceType, capacity, location := f.name, f.spaceType, f.capacity, f.location;
    }

    /** `handleSave` up to its PUT. With a type outside the three kinds
        nothing is sent and only the error changes; a missing `space` throws
        when its id is read, which the handler reports as a failed save. */
    method BeginSave() returns (sent: Option<UpdateRequest>)
      modifies this
      ensures space == old(space) && Form() == old(Form())
      ensures !IsSpaceType(spaceType) ==> sent == None && error == BadTypeMessage && loading == old(loading)
      ensures IsSpaceType(spaceType) && space.None? ==> sent == None && error == SaveErrorMessage && !loading
      ensures IsSpaceType(spaceType) && space.Some? ==>
        sent == Some(UpdateRequest(space.value.id, name, spaceType, capacity, location))
        && error == "" && loading
    {
      if !IsSpaceType(spaceType) {
        error := BadTypeMessage;
        return None;
      }
      loading := true;
      error := "";
      if space.None? {
        error := SaveErrorMessage;
        loading := false;
        return None;
      }
      sent := Some(UpdateRequest(space.value.id, name, spaceType, capacity, location));
    }

    /** The rest of `handleSave`, with the PUT's outcome. `saved` is the
        record handed to `onSave`. */
    method CompleteSave(put: Response<()>) returns (saved: Option<Space>)
      requires space.Some?
      modifies this
      ensures space == old(space) && Form() == old(Form()) && !loading
      ensures put.Ok? ==> saved == Some(Merge(space.value, Form())) && error == old(error)
      ensures put.Failed? ==> saved == None && error == SaveErrorMessage
    {
      if put.Ok? {
        saved := Some(Merge(space.value, Form()));
      } else {
        error := SaveErrorMessage;
        saved := None;
      }
      loading := false;
    }
  }

  /** A space whose type is missing cannot be saved until a type is chosen. */
  lemma UntypedSpaceNeedsType(space: Space)
    requires space.spaceType == ""
    ensures !IsSpaceType(FormFrom(Some(space)).spaceType)
  {
  }
}
