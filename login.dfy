/** The sign-in page: email, password and a remember-me box; a submit that
    only checks for empty fields, a password-reset request, and the demo
    accounts that fill the form and store a record a second later. */
module Login {
  import opened Common
  import opened Text

  datatype LoginForm = LoginForm(email: string, password: string, rememberMe: bool)

  const EmptyForm := LoginForm("", "", false)

  /** One call of `handleInputChange`. */
  datatype Input = EmailInput(email: string) | PasswordInput(password: string) | RememberMeInput(checked: bool)

  /** `{...prev, [field]: value}`: only the named field changes. */
  function Apply(f: LoginForm, input: Input): (r: LoginForm)
    ensures r.email == (if input.EmailInput? then input.email else f.email)
    ensures r.password == (if input.PasswordInput? then input.password else f.password)
    ensures r.rememberMe == (if input.RememberMeInput? then input.checked else f.rememberMe)
  {
    match input
    case EmailInput(email) => f.(email := email)
    case PasswordInput(password) => f.(password := password)
    case RememberMeInput(checked) => f.(rememberMe := checked)
  }

  // ---------------------------------------------------------------- submit

  datatype LoginError = MissingCredentials

  /** Every successful sign-in stores this fixed name and role. */
  const SignedInName := "John Doe"
  const SignedInRole := "student"

  /** `handleSubmit`: no credential is checked beyond being non-empty, and
      the stored record carries the entered email but not the password. */
  function Validate(f: LoginForm): (r: Result<StoredUser, LoginError>)
    ensures r.Err? <==> f.email == "" || f.password == ""
    ensures r.Ok? ==> r.value == StoredUser(SignedInName, f.email, SignedInRole, None, None)
  {
    if f.email == "" || f.password == "" then Err(MissingCredentials)
    else Ok(StoredUser(SignedInName, f.email, SignedInRole, None, None))
  }

  /** Any two non-empty passwords sign in with the same record. */
  lemma RecordIgnoresPassword(f: LoginForm, password: string)
    requires password != ""
    ensures Validate(f.(password := password)).Ok? <==> f.email != ""
    ensures f.password != "" ==> Validate(f.(password := password)) == Validate(f)
  {
  }

  datatype ResetOutcome = EmailRequired | ResetEmailSent

  /** `handleForgotPassword`: only the email is looked at. */
  function ForgotPassword(f: LoginForm): (r: ResetOutcome)
    ensures r == EmailRequired <==> f.email == ""
  {
    if f.email == "" then EmailRequired else ResetEmailSent
  }

  // ---------------------------------------------------------------- demo

  datatype DemoAccount = DemoAccount(role: string, email: string, icon: string)

  const DemoAccounts: seq<DemoAccount> := [
    DemoAccount("Student", "student@school.edu", "🎓"),
    DemoAccount("Teacher", "teacher@school.edu", "👨\U{200D}🏫"),
    DemoAccount("Admin", "admin@school.edu", "👩\U{200D}💼")
  ]

  const DemoPassword := "demo123"

  /** The form after a demo button: the account's email and the demo
      password; the remember-me box is left as it was. */
  function DemoForm(f: LoginForm, email: string): (r: LoginForm)
    ensures r.email == email && r.password == DemoPassword && r.rememberMe == f.rememberMe
    ensures Validate(r).Ok? <==> email != ""
  {
    f.(email := email, password := DemoPassword)
  }

  /** The record the delayed callback stores: "Demo " and the role as the
      name, and the role in lower case. */
  function DemoRecord(email: string, role: string): (u: StoredUser)
    ensures |u.name| == 5 + |role| && u.name[..5] == "Demo " && u.name[5..] == role
    ensures u.email == email && u.role == ToLower(role)
    ensures u.joinDate.None? && u.lastActive.None?
  {
    StoredUser("Demo " + role, email, ToLower(role), None, None)
  }

  lemma DemoAccountRoles()
    ensures |DemoAccounts| == 3
    ensures DemoAccounts[0].role == "Student" && DemoAccounts[1].role == "Teacher" && DemoAccounts[2].role == "Admin"
  {
  }

  /** The student demo is stored with role "student". */
  lemma StudentDemoRole()
    ensures DemoRecord(DemoAccounts[0].email, DemoAccounts[0].role).role == "student"
  {
    DemoAccountRoles();
    assert ToLower("Student") == "student";
  }

  /** The teacher demo is stored with role "teacher". */
  lemma TeacherDemoRole()
    ensures DemoRecord(DemoAccounts[1].email, DemoAccounts[1].role).role == "teacher"
  {
    DemoAccountRoles();
    assert ToLower("Teacher") == "teacher";
  }

  /** The admin demo is stored with role "admin" and name "Demo Admin". */
  lemma AdminDemoRole()
    ensures DemoRecord(DemoAccounts[2].email, DemoAccounts[2].role).role == "admin"
    ensures DemoRecord(DemoAccounts[2].email, DemoAccounts[2].role).name == "Demo Admin"
  {
    DemoAccountRoles();
    assert ToLower("Admin") == "admin";
  }

  // ---------------------------------------------------------------- page

  class LoginPage {
    var formData: LoginForm
    /** Demo records whose one-second timeout has not fired yet, oldest first. */
    var pendingDemos: seq<StoredUser>
    const storage: UserStorage

    constructor (storage: UserStorage)
      ensures formData == EmptyForm && pendingDemos == [] && this.storage == storage
    {
      formData := EmptyForm;
      pendingDemos := [];
      this.storage := storage;
    }

    method HandleInputChange(input: Input)
      modifies this
      ensures formData == Apply(old(formData), input) && pendingDemos == old(pendingDemos)
    {
      formData := Apply(formData, input);
    }

    method HandleSubmit() returns (outcome: Result<StoredUser, LoginError>)
      modifies storage
      ensures outcome == Validate(formData)
      ensures outcome.Ok? ==> storage.user == Some(outcome.value)
      ensures outcome.Err? ==> storage.user == old(storage.user)
    {
      outcome := Validate(formData);
      if outcome.Ok? {
        storage.SetUser(outcome.value);
      }
    }

    /** Reports the outcome of a reset request; it changes nothing. */
    method HandleForgotPassword() returns (outcome: ResetOutcome)
      ensures outcome == ForgotPassword(formData)
    {
      outcome := if formData.email == "" then EmailRequired else ResetEmailSent;
    }

    /** Fills the form and schedules the store of the demo record. */
    method LoginWithDemo(email: string, role: string)
      modifies this
      ensures formData == DemoForm(old(formData), email)
      ensures pendingDemos == old(pendingDemos) + [DemoRecord(email, role)]
    {
      formData := formData.(email := email, password := DemoPassword);
      pendingDemos := pendingDemos + [DemoRecord(email, role)];
    }

    /** The oldest scheduled demo timeout fires and stores its record. */
    method DemoTimeout()
      modifies this, storage
      ensures formData == old(formData)
      ensures old(pendingDemos) == [] ==> pendingDemos == [] && storage.user == old(storage.user)
      ensures old(pendingDemos) != [] ==>
        pendingDemos == old(pendingDemos)[1..] && storage.user == Some(old(pendingDemos)[0])
    {
      if pendingDemos != [] {
        storage.SetUser(pendingDemos[0]);
        pendingDemos := pendingDemos[1..];
      }
    }
  }
}
