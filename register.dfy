/** The registration page (src/pages/Auth/Register.tsx): its form, the checks the
    submit handler makes in order, and the data it hands the provider's `register`. */
module Register {
  import opened Wrappers
  import Text
  import AuthContext

  /** `formData`. */
  datatype RegisterForm = RegisterForm(
    firstName: string,
    lastName: string,
    email: string,
    password: string,
    confirmPassword: string,
    company: string)

  /** The `name` attribute of each input of the form. */
  datatype Field = FirstName | LastName | Email | Password | ConfirmPassword | Company

  function FieldValue(form: RegisterForm, field: Field): string {
    match field
    case FirstName => form.firstName
    case LastName => form.lastName
    case Email => form.email
    case Password => form.password
    case ConfirmPassword => form.confirmPassword
    case Company => form.company
  }

  const EmptyForm: RegisterForm := RegisterForm("", "", "", "", "", "")

  /** `setFormData(prev => ({ ...prev, [name]: value }))`. */
  function WithField(form: RegisterForm, field: Field, value: string): (r: RegisterForm)
    ensures FieldValue(r, field) == value
    ensures forall other :: other != field ==> FieldValue(r, other) == FieldValue(form, other)
  {
    match field
    case FirstName => form.(firstName := value)
    case LastName => form.(lastName := value)
    case Email => form.(email := value)
    case Password => form.(password := value)
    case ConfirmPassword => form.(confirmPassword := value)
    case Company => form.(company := value)
  }

  const FillRequiredMessage: string := "Please fill in all required fields"
  const MismatchMessage: string := "Passwords do not match"
  const TooShortMessage: string := "Password must be at least 6 characters long"
  const RegistrationFailedMessage: string := "Registration failed. Please try again."

  /** The shortest password accepted, in UTF-16 code units (`password.length`). */
  const MinPasswordLength: nat := 6

  /** A required field is empty. The company and the confirmation are not required. */
  predicate MissingRequired(form: RegisterForm) {
    form.firstName == "" || form.lastName == "" || form.email == "" || form.password == ""
  }

  /** The checks of `handleSubmit`, in order; the first that fails decides the message. */
  function Check(form: RegisterForm): (r: Outcome)
    ensures r == Fail(FillRequiredMessage) <==> MissingRequired(form)
    ensures r == Fail(MismatchMessage) <==> !MissingRequired(form) && form.password != form.confirmPassword
    ensures r == Fail(TooShortMessage) <==>
      !MissingRequired(form) && form.password == form.confirmPassword && Text.Utf16Length(form.password) < MinPasswordLength
    ensures r.Pass? <==>
      !MissingRequired(form) && form.password == form.confirmPassword && Text.Utf16Length(form.password) >= MinPasswordLength
  {
    if MissingRequired(form) then Fail(FillRequiredMessage)
    else if form.password != form.confirmPassword then Fail(MismatchMessage)
    else if Text.Utf16Length(form.password) < MinPasswordLength then Fail(TooShortMessage)
    else Pass
  }

  /** A password of six code points or more is long enough whatever it holds; one
      of fewer than three is too short whatever it holds. */
  lemma PasswordLengthBounds(form: RegisterForm)
    requires !MissingRequired(form) && form.password == form.confirmPassword
    ensures |form.password| >= MinPasswordLength ==> Check(form).Pass?
    ensures |form.password| < MinPasswordLength / 2 ==> Check(form) == Fail(TooShortMessage)
  {
  }

  /** The data handed to `register`: `company || undefined`, the rest as typed. */
  function Payload(form: RegisterForm): (r: AuthContext.RegisterData)
    ensures r.firstName == form.firstName && r.lastName == form.lastName
    ensures r.email == form.email && r.password == form.password
    ensures r.company.None? <==> form.company == ""
    ensures r.company.Some? ==> r.company.value == form.company
  {
    AuthContext.RegisterData(form.firstName, form.lastName, form.email, form.password,
                             if form.company != "" then Some(form.company) else None)
  }

  /** The entry registered from a form keeps the company exactly when one was typed. */
  lemma RegisteredCompany(users: seq<AuthContext.MockUser>, form: RegisterForm)
    ensures AuthContext.NewUser(users, Payload(form)).company == (if form.company == "" then None else Some(form.company))
  {
  }

  const DashboardPath: string := "/dashboard"

  /** The page state; `location` is the page navigated to. */
  class RegisterPage {
    var formData: RegisterForm
    var formError: Option<string>
    var isSubmitting: bool
    var location: Option<string>

    constructor()
      ensures formData == EmptyForm && formError.None? && !isSubmitting && location.None?
    {
      formData := EmptyForm;
      formError := None;
      isSubmitting := false;
      location := None;
    }

    /** `handleChange`: only the named field takes the new value. */
    method HandleChange(field: Field, value: string)
      modifies this`formData
      ensures formData == WithField(old(formData), field, value)
      ensures FieldValue(formData, field) == value
      ensures forall other :: other != field ==> FieldValue(formData, other) == FieldValue(old(formData), other)
    {
      formData := WithField(formData, field, value);
    }

    /** `handleSubmit` against the provider `auth`: a failed check shows its message
        and never reaches `register`; otherwise `register` is called once with the
        payload, and the page goes to the dashboard or shows the error it throws. */
    method HandleSubmit(auth: AuthContext.AuthProvider)
      requires auth.Valid()
      modifies this`formError, this`isSubmitting, this`location, auth
      ensures auth.Valid()
      ensures Check(formData).Fail? ==>
        && formError == Some(Check(formData).error)
        && isSubmitting == old(isSubmitting) && location == old(location)
        && auth.mockUsers == old(auth.mockUsers) && auth.user == old(auth.user)
        && auth.isAuthenticated == old(auth.isAuthenticated) && auth.stored == old(auth.stored)
        && auth.isLoading == old(auth.isLoading)
      ensures Check(formData).Pass? ==> !isSubmitting
      ensures Check(formData).Pass? && !AuthContext.HasEmail(old(auth.mockUsers), formData.email) ==>
        && auth.mockUsers == old(auth.mockUsers) + [AuthContext.NewUser(old(auth.mockUsers), Payload(formData))]
        && auth.isAuthenticated && formError.None? && location == Some(DashboardPath)
      ensures Check(formData).Pass? && AuthContext.HasEmail(old(auth.mockUsers), formData.email) ==>
        && auth.mockUsers == old(auth.mockUsers) && location == old(location)
        && formError == Some(AuthContext.EmailExists)
    {
      var check := Check(formData);
      if check.Fail? {
        formError := Some(check.error);
        return;
      }
      isSubmitting := true;
      formError := None;
      var answer := auth.Register(Payload(formData));
      match answer {
        case Pass =>
          location := Some(DashboardPath);
        case Fail(message) =>
          formError := Some(if message == "" then RegistrationFailedMessage else message);
      }
      isSubmitting := false;
    }
  }
}
