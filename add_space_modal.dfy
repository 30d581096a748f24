/** The "Agregar nuevo espacio" dialog: a four-field form posted as it
    stands, reset only when the backend accepts it. */
module AddSpace {
  import opened Common

  const CreateErrorNotice := "Error al crear espacio"

  /** The `form` record; every value is the text of its input. */
  datatype NewSpaceForm = NewSpaceForm(name: string, spaceType: string, capacity: string, location: string)

  /** The `name` attribute of the input that changed. */
  datatype Field = Name | SpaceType | Capacity | Location

  /** The form when the dialog mounts and after every successful submit. */
  const InitialForm := NewSpaceForm("", "aula", "", "")

  /** `{ ...form, [e.target.name]: e.target.value }`. */
  function WithField(f: NewSpaceForm, field: Field, value: string): (r: NewSpaceForm)
    ensures field == Name ==> r.name == value
    ensures field == SpaceType ==> r.spaceType == value
    ensures field == Capacity ==> r.capacity == value
    ensures field == Location ==> r.location == value
    ensures field != Name ==> r.name == f.name
    ensures field != SpaceType ==> r.spaceType == f.spaceType
    ensures field != Capacity ==> r.capacity == f.capacity
    ensures field != Location ==> r.location == f.location
  {
    match field
    case Name => f.(name := value)
    case SpaceType => f.(spaceType := value)
    case Capacity => f.(capacity := value)
    case Location => f.(location := value)
  }

  /** Edits of different fields commute, and a later edit of the same field
      overrides an earlier one. */
  lemma WithFieldCommutes(f: NewSpaceForm, a: Field, x: string, b: Field, y: string)
    ensures a != b ==> WithField(WithField(f, a, x), b, y) == WithField(WithField(f, b, y), a, x)
    ensures a == b ==> WithField(WithField(f, a, x), b, y) == WithField(f, b, y)
  {
  }

  /** The callbacks the dialog invokes, in order. */
  datatype Callback = OnClose | OnSuccess

  class AddSpaceModal {
    var form: NewSpaceForm

    constructor ()
      ensures form == InitialForm
    {
      form := InitialForm;
    }

    /** `handleChange`. */
    method HandleChange(field: Field, value: string)
      modifies this
      ensures form == WithField(old(form), field, value)
    {
      form := WithField(form, field, value);
    }

    /** `handleSubmit`, with the outcome of `POST /spaces`. The form is the
        request body, unchecked. On success the form is reset and the dialog
        calls `onClose` then `onSuccess`; on failure the form is kept and a
        browser notice is raised. */
    method HandleSubmit(post: Response<()>) returns (sent: NewSpaceForm, calls: seq<Callback>, notice: Option<string>)
      modifies this
      ensures sent == old(form)
      ensures post.Ok? ==> form == InitialForm && calls == [OnClose, OnSuccess] && notice == None
      ensures post.Failed? ==> form == old(form) && calls == [] && notice == Some(CreateErrorNotice)
    {
      sent := form;
      if post.Ok? {
        form := InitialForm;
        calls := [OnClose, OnSuccess];
        notice := None;
      } else {
        calls := [];
        notice := Some(CreateErrorNotice);
      }
    }
  }
}
