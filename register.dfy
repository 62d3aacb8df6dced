/** The registration page: a six-field form, a chain of checks that stops at
    the first failure, and on success a user record written to storage. */
module Register {
  import opened Common

  datatype RegisterForm = RegisterForm(
    fullName: string,
    email: string,
    password: string,
    confirmPassword: string,
    role: string,
    agreeToTerms: bool)

  const EmptyForm := RegisterForm("", "", "", "", "", false)

  /** The five text inputs of the form. */
  datatype TextField = FullName | Email | Password | ConfirmPassword | Role

  function Text(f: RegisterForm, field: TextField): string {
    match field
    case FullName => f.fullName
    case Email => f.email
    case Password => f.password
    case ConfirmPassword => f.confirmPassword
    case Role => f.role
  }

  /** One call of `handleInputChange`: a text input, the role select or the
      terms checkbox reports its new value. */
  datatype Input = TextInput(field: TextField, value: string) | TermsInput(checked: bool)

  /** `{...prev, [field]: value}`: the named field takes the value and every
      other field keeps its own. */
  function Apply(f: RegisterForm, input: Input): (r: RegisterForm)
    ensures input.TextInput? ==>
      Text(r, input.field) == input.value && r.agreeToTerms == f.agreeToTerms &&
      forall g :: g != input.field ==> Text(r, g) == Text(f, g)
    ensures input.TermsInput? ==>
      r.agreeToTerms == input.checked && forall g :: Text(r, g) == Text(f, g)
  {
    match input
    case TermsInput(checked) => f.(agreeToTerms := checked)
    case TextInput(field, value) =>
      match field
      case FullName => f.(fullName := value)
      case Email => f.(email := value)
      case Password => f.(password := value)
      case ConfirmPassword => f.(confirmPassword := value)
      case Role => f.(role := value)
  }

  /** A later value for the same field replaces the earlier one. */
  lemma LastInputWins(f: RegisterForm, field: TextField, v1: string, v2: string)
    ensures Apply(Apply(f, TextInput(field, v1)), TextInput(field, v2)) == Apply(f, TextInput(field, v2))
  {
  }

  /** Inputs to two different fields can arrive in either order. */
  lemma DistinctInputsCommute(f: RegisterForm, a: Input, b: Input)
    requires a.TextInput? && b.TextInput? ==> a.field != b.field
    requires a.TermsInput? ==> b.TextInput?
    ensures Apply(Apply(f, a), b) == Apply(Apply(f, b), a)
  {
  }

  // ---------------------------------------------------------------- submit

  datatype RegisterError =
    | MissingRequiredFields
    | PasswordsDoNotMatch
    | PasswordTooShort
    | TermsNotAccepted

  const MinPasswordLength: nat := 6

  /** Every text field holds something (an empty string is falsy). */
  predicate HasRequiredFields(f: RegisterForm) {
    forall g :: Text(f, g) != ""
  }

  /** What the page stores on success: name, email and role, nothing else. */
  function Record(f: RegisterForm): (u: StoredUser)
    ensures u.name == f.fullName && u.email == f.email && u.role == f.role
    ensures u.joinDate.None? && u.lastActive.None?
  {
    StoredUser(f.fullName, f.email, f.role, None, None)
  }

  /** The checks of `handleSubmit`, in their order; each failure returns
      before the later checks and before anything is stored. */
  function Validate(f: RegisterForm): (r: Result<StoredUser, RegisterError>)
    ensures r.Ok? <==>
      HasRequiredFields(f) && f.password == f.confirmPassword &&
      |f.password| >= MinPasswordLength && f.agreeToTerms
    ensures r == Err(MissingRequiredFields) <==> !HasRequiredFields(f)
    ensures r == Err(PasswordsDoNotMatch) <==>
      HasRequiredFields(f) && f.password != f.confirmPassword
    ensures r == Err(PasswordTooShort) <==>
      HasRequiredFields(f) && f.password == f.confirmPassword && |f.password| < MinPasswordLength
    ensures r == Err(TermsNotAccepted) <==>
      HasRequiredFields(f) && f.password == f.confirmPassword &&
      |f.password| >= MinPasswordLength && !f.agreeToTerms
    ensures r.Ok? ==> r.value == Record(f)
  {
    if f.fullName == "" || f.email == "" || f.password == "" || f.confirmPassword == "" || f.role == "" then
      assert Text(f, FullName) == "" || Text(f, Email) == "" || Text(f, Password) == ""
        || Text(f, ConfirmPassword) == "" || Text(f, Role) == "";
      Err(MissingRequiredFields)
    else if f.password != f.confirmPassword then
      Err(PasswordsDoNotMatch)
    else if |f.password| < MinPasswordLength then
      Err(PasswordTooShort)
    else if !f.agreeToTerms then
      Err(TermsNotAccepted)
    else
      Ok(Record(f))
  }

  /** An empty required field is reported whatever the other fields hold. */
  lemma EmptyFieldIsReportedFirst(f: RegisterForm, field: TextField)
    requires Text(f, field) == ""
    ensures Validate(f) == Err(MissingRequiredFields)
  {
  }

  /** The stored record is the same whichever accepted password was chosen. */
  lemma RecordIgnoresPassword(f: RegisterForm, password: string)
    requires Validate(f).Ok?
    requires |password| >= MinPasswordLength
    ensures Validate(f.(password := password, confirmPassword := password)) == Validate(f)
  {
    var g := f.(password := password, confirmPassword := password);
    assert forall t :: Text(g, t) != "" by {
      forall t: TextField ensures Text(g, t) != "" {
        assert Text(f, t) != "";
        if t == Password || t == ConfirmPassword {
          assert |Text(g, t)| >= MinPasswordLength;
        }
      }
    }
  }

  /** A password of six characters passes the length check; five do not. */
  lemma PasswordLengthBoundary()
    ensures Validate(RegisterForm("Asha", "a@school.edu", "abcdef", "abcdef", "student", true)).Ok?
    ensures Validate(RegisterForm("Asha", "a@school.edu", "abcde", "abcde", "student", true)) == Err(PasswordTooShort)
  {
    assert |"abcdef"| == 6 && |"abcde"| == 5;
  }

  // ---------------------------------------------------------------- roles

  datatype RoleOption = RoleOption(value: string, caption: string, icon: string)

  /** The role select's options, in display order. */
  const Roles: seq<RoleOption> := [
    RoleOption("student", "Student", "🎓"),
    RoleOption("teacher", "Teacher", "👨\U{200D}🏫"),
    RoleOption("admin", "Administrator", "👩\U{200D}💼"),
    RoleOption("security", "Security Staff", "🛡\U{FE0F}"),
    RoleOption("nurse", "School Nurse", "⚕\U{FE0F}"),
    RoleOption("parent", "Parent/Guardian", "👨\U{200D}👩\U{200D}👧\U{200D}👦")
  ]

  // ---------------------------------------------------------------- page

  class RegisterPage {
    var formData: RegisterForm
    const storage: UserStorage

    constructor (storage: UserStorage)
      ensures formData == EmptyForm && this.storage == storage
    {
      formData := EmptyForm;
      this.storage := storage;
    }

    method HandleInputChange(input: Input)
      modifies this
      ensures formData == Apply(old(formData), input)
    {
      formData := Apply(formData, input);
    }

    /** Runs the checks; only an accepted form writes the record. The form
        itself is never changed. */
    method HandleSubmit() returns (outcome: Result<StoredUser, RegisterError>)
      modifies storage
      ensures outcome == Validate(formData)
      ensures outcome.Ok? ==> storage.user == Some(Record(formData))
      ensures outcome.Err? ==> storage.user == old(storage.user)
    {
      outcome := Validate(formData);
      if outcome.Ok? {
        storage.SetUser(outcome.value);
      }
    }
  }
}
