/** The add/edit expert form (src/pages/Experts/ExpertForm.tsx): the form state, the
    change handler, and the submit handler's validation and payload. The save itself
    is simulated by the page: the payload is only logged before it navigates back. */
module ExpertForm {
  import opened Wrappers
  import opened ExpertModel
  import Text

  /** `formData`. The type is the select's value, so it is held as text. */
  datatype FormData = FormData(name: string, phoneNumber: string, expertType: string, company: string, notes: string)

  /** The `name` attribute of each input of the form. */
  datatype Field = Name | PhoneNumber | Type | Company | Notes

  function FieldValue(form: FormData, field: Field): string {
    match field
    case Name => form.name
    case PhoneNumber => form.phoneNumber
    case Type => form.expertType
    case Company => form.company
    case Notes => form.notes
  }

  /** The form a new expert starts from: every text empty and the type "other". */
  const InitialForm: FormData := FormData("", "", TypeText(Other), "", "")

  /** `isEditMode = !!id`. */
  predicate IsEditMode(id: Option<string>) {
    Text.Truthy(id)
  }

  /** `setFormData(prev => ({ ...prev, [name]: value }))`. */
  function WithField(form: FormData, field: Field, value: string): (r: FormData)
    ensures FieldValue(r, field) == value
    ensures forall other :: other != field ==> FieldValue(r, other) == FieldValue(form, other)
  {
    match field
    case Name => form.(name := value)
    case PhoneNumber => form.(phoneNumber := value)
    case Type => form.(expertType := value)
    case Company => form.(company := value)
    case Notes => form.(notes := value)
  }

  /** `expertData`: the optional fields are left out when empty. */
  datatype ExpertPayload = ExpertPayload(
    name: string,
    phoneNumber: string,
    expertType: string,
    company: Option<string>,
    notes: Option<string>)

  const FillRequiredMessage: string := "Please fill in all required fields"

  /** The validation and payload of `handleSubmit`: a missing name, phone number or
      type is refused; otherwise the three are passed on unchanged and an empty
      company or notes becomes absent. */
  function SubmitPayload(form: FormData): (r: Result<ExpertPayload>)
    ensures r.Failure? <==> form.name == "" || form.phoneNumber == "" || form.expertType == ""
    ensures r.Failure? ==> r.error == FillRequiredMessage
    ensures r.Success? ==>
      && r.value.name == form.name && r.value.phoneNumber == form.phoneNumber
      && r.value.expertType == form.expertType
      && (r.value.company.None? <==> form.company == "")
      && (r.value.notes.None? <==> form.notes == "")
  {
    if form.name == "" || form.phoneNumber == "" || form.expertType == "" then
      Failure(FillRequiredMessage)
    else
      Success(ExpertPayload(form.name, form.phoneNumber, form.expertType,
                            if form.company != "" then Some(form.company) else None,
                            if form.notes != "" then Some(form.notes) else None))
  }

  /** The form the fetch effect fills from an expert: `company || ''`, `notes || ''`. */
  function FormOf(expert: ExpertPayload): FormData {
    FormData(expert.name, expert.phoneNumber, expert.expertType,
             if Text.Truthy(expert.company) then expert.company.value else "",
             if Text.Truthy(expert.notes) then expert.notes.value else "")
  }

  /** Every valid form is the form of the payload it submits. */
  lemma SubmitThenLoad(form: FormData)
    requires SubmitPayload(form).Success?
    ensures FormOf(SubmitPayload(form).value) == form
  {
  }

  /** Conversely, an expert with the required fields set and no empty optional text
      submits exactly itself once loaded into the form; an empty optional text comes
      back absent. */
  lemma {:induction false} LoadThenSubmit(expert: ExpertPayload)
    requires expert.name != "" && expert.phoneNumber != "" && expert.expertType != ""
    ensures SubmitPayload(FormOf(expert)).Success?
    ensures var p := SubmitPayload(FormOf(expert)).value;
      && p.name == expert.name && p.phoneNumber == expert.phoneNumber && p.expertType == expert.expertType
      && p.company == (if Text.Truthy(expert.company) then expert.company else None)
      && p.notes == (if Text.Truthy(expert.notes) then expert.notes else None)
    ensures expert.company != Some("") && expert.notes != Some("") ==> SubmitPayload(FormOf(expert)) == Success(expert)
  {
  }

  /** The type chosen from the select is never the empty text, so only the name and
      phone number can fail the check. */
  lemma SelectedTypeNeverMissing(form: FormData, t: ExpertType)
    requires form.expertType == TypeText(t)
    ensures SubmitPayload(form).Failure? <==> form.name == "" || form.phoneNumber == ""
  {
  }

  /** The expert the edit page shows while the request is simulated. */
  const MockName: string := "John Doe"
  const MockPhone: string := "(555) 123-4567"
  const MockCompany: string := "ABC Realty"
  const MockNotes: string := "Specializes in downtown properties"
  const MockExpert: ExpertPayload :=
    ExpertPayload(MockName, MockPhone, TypeText(Realtor), Some(MockCompany), Some(MockNotes))

  const ExpertsPath: string := "/experts"

  /** The page state. `logged` holds the payloads the simulated save writes to the
      console, and `location` the page navigated to. */
  class ExpertFormPage {
    const id: Option<string>
    var formData: FormData
    var loading: bool
    var error: Option<string>
    var fetchingExpert: bool
    var logged: seq<ExpertPayload>
    var location: Option<string>

    constructor(id: Option<string>)
      ensures this.id == id && formData == InitialForm && !loading && error.None?
      ensures fetchingExpert == IsEditMode(id) && logged == [] && location.None?
    {
      this.id := id;
      formData := InitialForm;
      loading := false;
      error := None;
      fetchingExpert := IsEditMode(id);
      logged := [];
      location := None;
    }

    /** The fetch effect in edit mode, once its timer fires: the form shows the
        mock expert, with an absent company or notes shown as empty text. */
    method ExpertFetched()
      requires IsEditMode(id)
      modifies this`formData, this`fetchingExpert
      ensures formData == FormOf(MockExpert) && !fetchingExpert
      ensures SubmitPayload(formData) == Success(MockExpert)
    {
      formData := FormData(MockName, MockPhone, TypeText(Realtor), MockCompany, MockNotes);
      fetchingExpert := false;
      LoadThenSubmit(MockExpert);
    }

    /** `handleChange`: only the named field takes the new value. */
    method HandleChange(field: Field, value: string)
      modifies this`formData
      ensures formData == WithField(old(formData), field, value)
      ensures FieldValue(formData, field) == value
      ensures forall other :: other != field ==> FieldValue(formData, other) == FieldValue(old(formData), other)
    {
      formData := WithField(formData, field, value);
    }

    /** `handleSubmit`, with the save's timer taken to fire at once: a refused form
        shows the message and logs nothing; a valid one logs its payload and goes
        back to the list. */
    method HandleSubmit()
      modifies this`loading, this`error, this`logged, this`location
      ensures !loading
      ensures match SubmitPayload(formData)
        case Failure(message) =>
          error == Some(message) && logged == old(logged) && location == old(location)
        case Success(payload) =>
          error.None? && logged == old(logged) + [payload] && location == Some(ExpertsPath)
    {
      loading := true;
      error := None;
      var payload := SubmitPayload(formData);
      if payload.Failure? {
        error := Some(payload.error);
        loading := false;
        return;
      }
      logged := logged + [payload.value];
      loading := false;
      location := Some(ExpertsPath);
    }
  }
}
