/** The account profile form: its field update and its validation. */
module ProfileForm {

  /** `IProfileFormInput`. */
  datatype ProfileFormInput = ProfileFormInput(username: string, proficiency: string)

  /** The ids of the form's two controls. */
  datatype FieldId = UsernameField | ProficiencyField

  const InitialValues := ProfileFormInput("", "")
  const UsernameRequired := "Please Enter a username!"
  const ProficiencyRequired := "Please choose a proficiency level!"

  function Field(values: ProfileFormInput, id: FieldId): string {
    match id
    case UsernameField => values.username
    case ProficiencyField => values.proficiency
  }

  /** `handleChange`: `{ ...formValues, [id]: value }`. */
  function HandleChange(values: ProfileFormInput, id: FieldId, value: string): (r: ProfileFormInput)
    ensures Field(r, id) == value
    ensures forall other :: other != id ==> Field(r, other) == Field(values, other)
  {
    match id
    case UsernameField => values.(username := value)
    case ProficiencyField => values.(proficiency := value)
  }

  /** The message shown for an empty value of each field. */
  function Required(id: FieldId): string {
    match id
    case UsernameField => UsernameRequired
    case ProficiencyField => ProficiencyRequired
  }

  /** `validateInput`: start from a copy of the initial values and set the
      message of each empty field. */
  function ValidateInput(values: ProfileFormInput): (errors: ProfileFormInput)
    ensures forall id :: Field(errors, id) == (if Field(values, id) == "" then Required(id) else "")
  {
    var errors := InitialValues;
    var errors := if values.username == "" then errors.(username := UsernameRequired) else errors;
    var errors := if values.proficiency == "" then errors.(proficiency := ProficiencyRequired) else errors;
    errors
  }

  /** Each field's error depends on that field's value alone. */
  lemma ErrorDependsOnlyOnOwnField(a: ProfileFormInput, b: ProfileFormInput, id: FieldId)
    requires Field(a, id) == Field(b, id)
    ensures Field(ValidateInput(a), id) == Field(ValidateInput(b), id)
  {
  }

  /** Filling both fields leaves no error; the initial form has both errors. */
  lemma ValidateFilledAndEmpty(values: ProfileFormInput)
    ensures ValidateInput(values) == InitialValues <==> values.username != "" && values.proficiency != ""
    ensures ValidateInput(InitialValues) == ProfileFormInput(UsernameRequired, ProficiencyRequired)
  {
    if ValidateInput(values) == InitialValues {
      assert Field(ValidateInput(values), UsernameField) == "";
      assert Field(ValidateInput(values), ProficiencyField) == "";
    }
  }

  /** Changing one field changes at most that field's error. */
  lemma ChangeAffectsOnlyItsError(values: ProfileFormInput, id: FieldId, value: string, other: FieldId)
    requires other != id
    ensures Field(ValidateInput(HandleChange(values, id, value)), other) == Field(ValidateInput(values), other)
    ensures Field(ValidateInput(HandleChange(values, id, value)), id) == (if value == "" then Required(id) else "")
  {
  }
}
