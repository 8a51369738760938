/**
 * The registration form: a record of named text fields, a change handler that writes
 * the field named by the input, and a submit that checks the password confirmation and
 * sends every field but the confirmation.
 */
module Register {
  import opened Wrappers

  /** `formData` as a record keyed by field name, since the change handler writes `[e.target.name]`. */
  type Fields = map<string, string>

  const ConfirmField := "confirmPassword"
  const PasswordField := "password"

  /** Username, email, both passwords empty; the role defaults to `'user'`. */
  const InitialFields: Fields :=
    map["username" := "", "email" := "", PasswordField := "", ConfirmField := "", "role" := "user"]

  /** A field's value, `undefined` (`None`) when the record has no such field. */
  function Field(fields: Fields, name: string): (r: Option<string>)
    ensures r.Some? <==> name in fields
    ensures r.Some? ==> r.value == fields[name]
  {
    if name in fields then Some(fields[name]) else None
  }

  /**
   * `formData.password === formData.confirmPassword`: both fields missing (`undefined`)
   * also compare equal.
   */
  function PasswordsMatch(fields: Fields): (r: bool)
    ensures r <==> (PasswordField in fields <==> ConfirmField in fields)
                   && (PasswordField in fields ==> fields[PasswordField] == fields[ConfirmField])
  {
    Field(fields, PasswordField) == Field(fields, ConfirmField)
  }

  /** `const { confirmPassword, ...registerData } = formData`: every field but the confirmation, unchanged. */
  function RegisterPayload(fields: Fields): (r: Fields)
    ensures ConfirmField !in r
    ensures forall name :: name != ConfirmField ==> (name in r <==> name in fields)
    ensures forall name :: name in r ==> r[name] == fields[name]
  {
    fields - {ConfirmField}
  }

  /** Putting the confirmation back into the payload gives the form again: nothing else is lost. */
  lemma PayloadLosesOnlyTheConfirmation(fields: Fields)
    requires ConfirmField in fields
    ensures RegisterPayload(fields)[ConfirmField := fields[ConfirmField]] == fields
  {
    var restored := RegisterPayload(fields)[ConfirmField := fields[ConfirmField]];
    assert restored.Keys == fields.Keys;
  }

  class RegisterView {
    var formData: Fields

    constructor ()
      ensures formData == InitialFields
    {
      formData := InitialFields;
    }

    /** Writes the value under the input's name; every other field stays. */
    method HandleChange(name: string, value: string)
      modifies this
      ensures formData == old(formData)[name := value]
      ensures forall other :: other in old(formData) && other != name ==> other in formData && formData[other] == old(formData)[other]
    {
      formData := formData[name := value];
    }

    /** Submit: nothing is dispatched when the passwords differ; otherwise the payload without the confirmation. */
    method HandleSubmit() returns (dispatched: Option<Fields>)
      ensures dispatched.None? <==> !PasswordsMatch(formData)
      ensures dispatched.Some? ==> dispatched.value == RegisterPayload(formData)
    {
      if !PasswordsMatch(formData) {
        return None;
      }
      dispatched := Some(RegisterPayload(formData));
    }
  }

  /** Editing a field other than the two passwords does not change whether the submit goes through. */
  lemma OtherFieldsDoNotAffectTheCheck(fields: Fields, name: string, value: string)
    requires name != PasswordField && name != ConfirmField
    ensures PasswordsMatch(fields[name := value]) == PasswordsMatch(fields)
  {
  }
}
