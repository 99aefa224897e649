/** Editing a user (`Usuario/edit.js`): the form state is a plain object of
    string fields; the update sends every field except `email`. */
module UserEditForm {
  import opened Common

  const UserListPath: string := "/dashboard/user-management"
  const FetchError: string := "Error fetching user data"
  const UpdateError: string := "Error updating user"

  type FormData = map<string, string>

  /** The initial form state; the first-name key is spelt `firtName` in the
      source, and the form's input uses the same spelling. */
  const InitialForm: FormData := map["email" := "", "firtName" := "", "lastName" := ""]

  /** `const { email, ...updateData } = formData` */
  function UpdatePayload(form: FormData): (payload: FormData)
    ensures "email" !in payload
    ensures payload.Keys == form.Keys - {"email"}
    ensures forall k :: k in payload ==> payload[k] == form[k]
  {
    form - {"email"}
  }

  /** A sequence of `handleChange` events applied to a form. */
  function ApplyEdits(form: FormData, edits: seq<(string, string)>): FormData
    decreases |edits|
  {
    if edits == [] then form
    else ApplyEdits(form[edits[0].0 := edits[0].1], edits[1..])
  }

  function EditedNames(edits: seq<(string, string)>): set<string> {
    set i | 0 <= i < |edits| :: edits[i].0
  }

  /** Edits only add or overwrite fields: every edited name ends up in the
      form, and every field nobody edited keeps its value. */
  lemma {:induction false} ApplyEditsKeys(form: FormData, edits: seq<(string, string)>)
    ensures ApplyEdits(form, edits).Keys == form.Keys + EditedNames(edits)
    ensures forall k :: k in form && k !in EditedNames(edits) ==> ApplyEdits(form, edits)[k] == form[k]
    decreases |edits|
  {
    if edits != [] {
      ApplyEditsKeys(form[edits[0].0 := edits[0].1], edits[1..]);
      assert EditedNames(edits) == {edits[0].0} + EditedNames(edits[1..]) by {
        forall n | n in EditedNames(edits) ensures n in {edits[0].0} + EditedNames(edits[1..]) {
          var i :| 0 <= i < |edits| && edits[i].0 == n;
          if i > 0 { assert edits[1..][i - 1] == edits[i]; }
        }
        forall n | n in EditedNames(edits[1..]) ensures n in EditedNames(edits) {
          var i :| 0 <= i < |edits[1..]| && edits[1..][i].0 == n;
          assert edits[i + 1] == edits[1..][i];
        }
      }
    }
  }

  /** After a successful load the form holds only `email`, which is never
      sent, so the update carries exactly the fields the user edited. */
  lemma LoadedFormSendsOnlyEdits(email: string, edits: seq<(string, string)>)
    ensures UpdatePayload(ApplyEdits(map["email" := email], edits)).Keys == EditedNames(edits) - {"email"}
  {
    ApplyEditsKeys(map["email" := email], edits);
  }

  class UserManagementEdit {
    var formData: FormData
    var loading: bool
    var error: string

    constructor ()
      ensures formData == InitialForm && loading && error == ""
    {
      formData, loading, error := InitialForm, true, "";
    }

    /** `fetchUserData`: the loaded form is exactly `{email}`. */
    method FetchUserData(reply: Reply<string>)
      modifies this
      ensures reply.Ok? ==> formData == map["email" := reply.value] && error == old(error)
      ensures reply.Failed? ==> formData == old(formData) && error == FetchError
      ensures !loading
    {
      match reply
      case Ok(email) =>
        formData := map["email" := email];
        loading := false;
      case Failed =>
        error := FetchError;
        loading := false;
    }

    /** `handleChange` */
    method HandleChange(name: string, value: string)
      modifies this
      ensures formData == old(formData)[name := value]
      ensures loading == old(loading) && error == old(error)
    {
      formData := formData[name := value];
    }

    /** `handleSubmit` */
    method HandleSubmit(reply: Reply<()>) returns (payload: FormData, navigation: Option<string>)
      modifies this
      ensures payload == UpdatePayload(formData) && "email" !in payload
      ensures formData == old(formData)
      ensures reply.Ok? ==> navigation == Some(UserListPath) && loading && error == old(error)
      ensures reply.Failed? ==> navigation == None && !loading && error == UpdateError
    {
      loading := true;
      payload := formData - {"email"};
      match reply
      case Ok(_) =>
        navigation := Some(UserListPath);
      case Failed =>
        error := UpdateError;
        loading := false;
        navigation := None;
    }
  }
}
