/** Registering a student (`estudiante/register.js`): three text fields and
    an optional image, sent as a multipart body. */
module StudentRegistration {
  import opened Common

  const StudentListPath: string := "/dashboard/student-management"
  const RegisterError: string := "Error registrando estudiante"

  datatype File = File(name: string)

  datatype StudentForm = StudentForm(firstName: string, lastName: string, codigo: string, imagen: Option<File>)

  /** The three text inputs, by their `name` attribute. */
  datatype TextField = FirstName | LastName | Codigo

  datatype PartValue = Text(text: string) | Blob(file: File)
  datatype Part = Part(name: string, value: PartValue)

  const EmptyForm: StudentForm := StudentForm("", "", "", None)

  /** `{...formData, [name]: value}` for a text input. */
  function WithText(form: StudentForm, field: TextField, value: string): StudentForm {
    match field
    case FirstName => form.(firstName := value)
    case LastName => form.(lastName := value)
    case Codigo => form.(codigo := value)
  }

  function FieldName(field: TextField): string {
    match field
    case FirstName => "firstName"
    case LastName => "lastName"
    case Codigo => "codigo"
  }

  function FieldIndex(field: TextField): nat {
    match field
    case FirstName => 0
    case LastName => 1
    case Codigo => 2
  }

  /** The parts of the multipart body, in order. */
  function Multipart(form: StudentForm): (parts: seq<Part>)
    ensures |parts| == if form.imagen.Some? then 4 else 3
    ensures forall i :: 0 <= i < |parts| ==> (parts[i].value.Blob? <==> parts[i].name == "imagen")
  {
    [Part("firstName", Text(form.firstName)), Part("lastName", Text(form.lastName)), Part("codigo", Text(form.codigo))]
    + (match form.imagen
       case Some(f) => [Part("imagen", Blob(f))]
       case None => [])
  }

  /** The body always starts with the three text fields in order, and has a
      fourth `imagen` part exactly when an image was chosen. */
  lemma MultipartShape(form: StudentForm)
    ensures |Multipart(form)| == 3 || |Multipart(form)| == 4
    ensures |Multipart(form)| == 4 <==> form.imagen.Some?
    ensures forall f: TextField :: Multipart(form)[FieldIndex(f)].name == FieldName(f)
    ensures form.imagen.Some? ==> Multipart(form)[3] == Part("imagen", Blob(form.imagen.value))
  {
  }

  /** Editing one text input changes exactly that input's part of the body. */
  lemma EditChangesOnePart(form: StudentForm, field: TextField, value: string)
    ensures var before, after := Multipart(form), Multipart(WithText(form, field, value));
            && |after| == |before|
            && after[FieldIndex(field)] == Part(FieldName(field), Text(value))
            && forall i :: 0 <= i < |before| && i != FieldIndex(field) ==> after[i] == before[i]
  {
  }

  class RegisterEstudiante {
    var formData: StudentForm
    var loading: bool
    var error: string

    constructor ()
      ensures formData == EmptyForm && !loading && error == ""
    {
      formData, loading, error := EmptyForm, false, "";
    }

    /** `handleChange` */
    method HandleChange(field: TextField, value: string)
      modifies this
      ensures formData == WithText(old(formData), field, value)
      ensures formData.imagen == old(formData.imagen)
      ensures loading == old(loading) && error == old(error)
    {
      match field
      case FirstName => formData := formData.(firstName := value);
      case LastName => formData := formData.(lastName := value);
      case Codigo => formData := formData.(codigo := value);
    }

    /** `handleFileChange`: `files[0]` is absent when the picker was cancelled. */
    method HandleFileChange(file: Option<File>)
      modifies this
      ensures formData == old(formData).(imagen := file)
      ensures loading == old(loading) && error == old(error)
    {
      formData := formData.(imagen := file);
    }

    /** The successive `append` calls of `handleSubmit`. */
    method BuildPayload() returns (data: seq<Part>)
      ensures data == Multipart(formData)
    {
      data := [];
      data := data + [Part("firstName", Text(formData.firstName))];
      data := data + [Part("lastName", Text(formData.lastName))];
      data := data + [Part("codigo", Text(formData.codigo))];
      if formData.imagen.Some? {
        data := data + [Part("imagen", Blob(formData.imagen.value))];
      }
    }

    /** `handleSubmit` */
    method HandleSubmit(reply: Reply<()>) returns (payload: seq<Part>, navigation: Option<string>)
      modifies this
      ensures payload == Multipart(formData) && formData == old(formData)
      ensures !loading
      ensures reply.Ok? ==> navigation == Some(StudentListPath) && error == old(error)
      ensures reply.Failed? ==> navigation == None && error == RegisterError
    {
      payload := BuildPayload();
      loading := true;
      match reply
      case Ok(_) =>
        loading := false;
        navigation := Some(StudentListPath);
      case Failed =>
        error := RegisterError;
        loading := false;
        navigation := None;
    }
  }
}
