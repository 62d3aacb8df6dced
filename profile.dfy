/** The profile page: the shown user and an edit buffer copied back and forth
    by edit, save and cancel; the record loaded from storage on mount; the
    role lookups; and the two summary figures over the static training and
    achievement data. */
module Profile {
  import opened Common
  import Register
  import Login

  datatype UserProfile = UserProfile(
    name: string,
    email: string,
    role: string,
    joinDate: string,
    lastActive: string)

  /** The user shown before anything is loaded. */
  const DefaultUser := UserProfile("John Doe", "john.doe@school.edu", "student", "2024-01-15", "2024-09-28")

  /** The load effect's `{...prev, name, email, role}`: the stored record
      supplies the three identity fields, the dates stay. */
  function Merge(p: UserProfile, stored: StoredUser): (r: UserProfile)
    ensures r.name == stored.name && r.email == stored.email && r.role == stored.role
    ensures r.joinDate == p.joinDate && r.lastActive == p.lastActive
  {
    p.(name := stored.name, email := stored.email, role := stored.role)
  }

  /** `JSON.stringify(editForm)`: the whole profile, dates included. */
  function ToStored(p: UserProfile): (u: StoredUser)
    ensures u.name == p.name && u.email == p.email && u.role == p.role
    ensures u.joinDate == Some(p.joinDate) && u.lastActive == Some(p.lastActive)
  {
    StoredUser(p.name, p.email, p.role, Some(p.joinDate), Some(p.lastActive))
  }

  /** A saved profile is loaded back into a fresh page exactly when its dates
      are the default ones: the dates in storage are never read. */
  lemma SaveThenLoad(p: UserProfile)
    ensures Merge(DefaultUser, ToStored(p)) == p <==>
      p.joinDate == DefaultUser.joinDate && p.lastActive == DefaultUser.lastActive
  {
  }

  /** Loading the same record twice is loading it once. */
  lemma MergeIdempotent(p: UserProfile, stored: StoredUser)
    ensures Merge(Merge(p, stored), stored) == Merge(p, stored)
  {
  }

  // ---------------------------------------------------------------- edit state

  datatype ProfileState = ProfileState(editing: bool, user: UserProfile, editForm: UserProfile)

  const Initial := ProfileState(false, DefaultUser, DefaultUser)

  /** Outside editing, the edit buffer mirrors the shown user. */
  ghost predicate Synced(s: ProfileState) {
    !s.editing ==> s.editForm == s.user
  }

  function AfterLoad(s: ProfileState, stored: Option<StoredUser>): (r: ProfileState)
    ensures stored.None? ==> r == s
    ensures stored.Some? ==>
      r.editing == s.editing && r.user == Merge(s.user, stored.value) && r.editForm == Merge(s.editForm, stored.value)
  {
    match stored
    case None => s
    case Some(u) => s.(user := Merge(s.user, u), editForm := Merge(s.editForm, u))
  }

  function AfterEdit(s: ProfileState): (r: ProfileState)
    ensures r.editing && r.user == s.user && r.editForm == s.editForm
  {
    s.(editing := true)
  }

  /** `handleSave`: the buffer becomes the user and editing ends. */
  function AfterSave(s: ProfileState): (r: ProfileState)
    ensures !r.editing && r.user == s.editForm && r.editForm == s.editForm
  {
    s.(user := s.editForm, editing := false)
  }

  /** `handleCancel`: the buffer is reset to the user and editing ends. */
  function AfterCancel(s: ProfileState): (r: ProfileState)
    ensures !r.editing && r.user == s.user && r.editForm == s.user
  {
    s.(editForm := s.user, editing := false)
  }

  datatype ProfileField = NameField | EmailField | RoleField

  /** One of the three edit inputs changes the buffer; the shown user and
      the buffer's dates are untouched. */
  function AfterEditField(s: ProfileState, field: ProfileField, value: string): (r: ProfileState)
    ensures r.editing == s.editing && r.user == s.user
    ensures r.editForm.joinDate == s.editForm.joinDate && r.editForm.lastActive == s.editForm.lastActive
    ensures r.editForm.name == (if field == NameField then value else s.editForm.name)
    ensures r.editForm.email == (if field == EmailField then value else s.editForm.email)
    ensures r.editForm.role == (if field == RoleField then value else s.editForm.role)
  {
    match field
    case NameField => s.(editForm := s.editForm.(name := value))
    case EmailField => s.(editForm := s.editForm.(email := value))
    case RoleField => s.(editForm := s.editForm.(role := value))
  }

  lemma InitialSynced()
    ensures Synced(Initial)
  {
  }

  /** Every handler keeps the buffer in step with the user outside editing;
      the edit inputs exist only while editing. */
  lemma StepsPreserveSynced(s: ProfileState, stored: Option<StoredUser>, field: ProfileField, value: string)
    requires Synced(s)
    ensures Synced(AfterLoad(s, stored))
    ensures Synced(AfterEdit(s)) && Synced(AfterSave(s)) && Synced(AfterCancel(s))
    ensures s.editing ==> Synced(AfterEditField(s, field, value))
  {
  }

  /** Cancelling throws away every edit made since editing began. */
  lemma CancelDiscardsEdit(s: ProfileState, field: ProfileField, value: string)
    requires Synced(s) && !s.editing
    ensures AfterCancel(AfterEditField(AfterEdit(s), field, value)) == s
  {
  }

  /** Saving commits the edit: the user shows the new value. */
  lemma SaveCommitsEdit(s: ProfileState, value: string)
    ensures AfterSave(AfterEditField(AfterEdit(s), NameField, value)).user.name == value
    ensures AfterSave(AfterEditField(AfterEdit(s), NameField, value)).user.role == s.editForm.role
  {
  }

  /** Cancelling right after a save changes nothing more. */
  lemma CancelAfterSave(s: ProfileState)
    ensures AfterCancel(AfterSave(s)) == AfterSave(s)
  {
  }

  // ---------------------------------------------------------------- roles

  /** The icon of each known role. */
  const RoleIcons: map<string, string> := map[
    "student" := "🎓",
    "teacher" := "👨\U{200D}🏫",
    "admin" := "👩\U{200D}💼",
    "security" := "🛡\U{FE0F}",
    "nurse" := "⚕\U{FE0F}",
    "parent" := "👨\U{200D}👩\U{200D}👧\U{200D}👦"
  ]

  /** The display label of each known role. */
  const RoleLabels: map<string, string> := map[
    "student" := "Student",
    "teacher" := "Teacher",
    "admin" := "Administrator",
    "security" := "Security Staff",
    "nurse" := "School Nurse",
    "parent" := "Parent/Guardian"
  ]

  const FallbackIcon := "👤"

  ghost const KnownRoles: set<string> := {"student", "teacher", "admin", "security", "nurse", "parent"}

  lemma RoleTables()
    ensures RoleIcons.Keys == KnownRoles && RoleLabels.Keys == KnownRoles
  {
  }

  /** `roleIcons[role] || "👤"`: no known icon is empty, so the fallback
      applies exactly to the unknown roles. */
  function RoleIcon(role: string): (r: string)
    ensures role in RoleIcons ==> r == RoleIcons[role]
    ensures role !in RoleIcons ==> r == FallbackIcon
  {
    if role in RoleIcons && RoleIcons[role] != "" then RoleIcons[role] else FallbackIcon
  }

  /** `roleLabels[role] || role`: an unknown role is shown as it is. */
  function RoleLabel(role: string): (r: string)
    ensures role in RoleLabels ==> r == RoleLabels[role]
    ensures role !in RoleLabels ==> r == role
  {
    if role in RoleLabels && RoleLabels[role] != "" then RoleLabels[role] else role
  }

  /** The fallback icon is shown if and only if the role is unknown. */
  lemma FallbackIconIffUnknown(role: string)
    ensures RoleIcon(role) == FallbackIcon <==> role !in KnownRoles
  {
    RoleTables();
    if role in KnownRoles {
      assert FallbackIcon !in RoleIcons.Values;
      assert RoleIcons[role] in RoleIcons.Values;
    }
  }

  /** A role is shown unchanged if and only if it is unknown: every label
      differs from its key. */
  lemma LabelIsRoleIffUnknown(role: string)
    ensures RoleLabel(role) == role <==> role !in KnownRoles
  {
    RoleTables();
  }

  /** Every role the registration page offers is known here, with the same
      label and icon. */
  lemma RegisterRolesAreKnown(i: nat)
    requires i < |Register.Roles|
    ensures Register.Roles[i].value in KnownRoles
    ensures RoleLabel(Register.Roles[i].value) == Register.Roles[i].caption
    ensures RoleIcon(Register.Roles[i].value) == Register.Roles[i].icon
  {
  }

  /** Every record the sign-in page can store has a known role. */
  lemma SignedInRolesAreKnown(i: nat)
    requires i < |Login.DemoAccounts|
    ensures Login.SignedInRole in KnownRoles
    ensures Login.DemoRecord(Login.DemoAccounts[i].email, Login.DemoAccounts[i].role).role in KnownRoles
  {
    Login.DemoAccountRoles();
    if i == 0 {
      Login.StudentDemoRole();
    } else if i == 1 {
      Login.TeacherDemoRole();
    } else {
      Login.AdminDemoRole();
    }
  }

  // ---------------------------------------------------------------- summaries

  datatype Achievement = Achievement(title: string, icon: string, earned: bool, date: Option<string>)

  const Achievements: seq<Achievement> := [
    Achievement("Fire Safety Expert", "🔥", true, Some("2024-09-15")),
    Achievement("Emergency Response", "🚨", true, Some("2024-09-10")),
    Achievement("First Aid Certified", "⚕\U{FE0F}", false, None),
    Achievement("Safety Champion", "🏆", false, None),
    Achievement("Quiz Master", "🧠", true, Some("2024-09-20")),
    Achievement("Training Complete", "📚", false, None)
  ]

  /** `achievements.filter(a => a.earned)`: the earned entries, in order. */
  function Earned(a: seq<Achievement>): (r: seq<Achievement>)
    ensures |r| <= |a|
    ensures forall i :: 0 <= i < |r| ==> r[i].earned && r[i] in a
    ensures forall i :: 0 <= i < |a| && a[i].earned ==> a[i] in r
    ensures |a| == 1 ==> r == (if a[0].earned then a else [])
  {
    if a == [] then []
    else if a[0].earned then [a[0]] + Earned(a[1..])
    else Earned(a[1..])
  }

  /** The filter works entry by entry: filtering a concatenation is
      concatenating the filtered parts. With the single-entry case above,
      this fixes both the order and the multiplicity of the result. */
  lemma {:induction false} EarnedAppend(a: seq<Achievement>, b: seq<Achievement>)
    ensures Earned(a + b) == Earned(a) + Earned(b)
  {
    if a != [] {
      EarnedAppend(a[1..], b);
      assert (a + b)[1..] == a[1..] + b;
    } else {
      assert a + b == b;
    }
  }

  /** `earnedAchievements`. */
  function EarnedCount(a: seq<Achievement>): (r: nat)
    ensures r <= |a|
  {
    |Earned(a)|
  }

  /** Everything is earned if and only if the count is the full length. */
  lemma {:induction false} AllEarnedIffFullCount(a: seq<Achievement>)
    ensures EarnedCount(a) == |a| <==> forall i :: 0 <= i < |a| ==> a[i].earned
  {
    if a != [] {
      var rest := a[1..];
      AllEarnedIffFullCount(rest);
      assert forall i :: 1 <= i < |a| ==> a[i] == rest[i - 1];
      if !a[0].earned {
        assert EarnedCount(a) == EarnedCount(rest) <= |rest| < |a|;
      } else {
        assert EarnedCount(a) == EarnedCount(rest) + 1;
      }
    }
  }

  /** Nothing is earned if and only if the count is zero. */
  lemma {:induction false} NoneEarnedIffZero(a: seq<Achievement>)
    ensures EarnedCount(a) == 0 <==> forall i :: 0 <= i < |a| ==> !a[i].earned
  {
    if a != [] {
      var rest := a[1..];
      NoneEarnedIffZero(rest);
      assert forall i :: 1 <= i < |a| ==> a[i] == rest[i - 1];
      assert (forall i :: 0 <= i < |a| ==> !a[i].earned) <==>
        !a[0].earned && forall j :: 0 <= j < |rest| ==> !rest[j].earned;
      if a[0].earned {
        assert EarnedCount(a) == EarnedCount(rest) + 1;
      } else {
        assert EarnedCount(a) == EarnedCount(rest);
      }
    }
  }

  /** The count over two lists is the sum of the counts. */
  lemma {:induction false} EarnedCountAppend(a: seq<Achievement>, b: seq<Achievement>)
    ensures EarnedCount(a + b) == EarnedCount(a) + EarnedCount(b)
  {
    if a == [] {
      assert a + b == b;
    } else {
      assert (a + b)[0] == a[0] && (a + b)[1..] == a[1..] + b;
      EarnedCountAppend(a[1..], b);
    }
  }

  lemma ShownEarnedCount()
    ensures EarnedCount(Achievements) == 3
  {
    EarnedCountAppend(Achievements[..3], Achievements[3..]);
    assert Achievements == Achievements[..3] + Achievements[3..];
  }

  datatype TrainingModule = TrainingModule(title: string, completed: nat, total: nat, progress: int)

  const TrainingProgress: seq<TrainingModule> := [
    TrainingModule("Fire Safety Training", 4, 5, 80),
    TrainingModule("Earthquake Preparedness", 3, 4, 75),
    TrainingModule("First Aid Basics", 2, 6, 33),
    TrainingModule("Emergency Procedures", 5, 5, 100)
  ]

  /** The `reduce` that adds up the progress values. */
  function ProgressSum(m: seq<TrainingModule>): int {
    if m == [] then 0 else ProgressSum(m[..|m| - 1]) + m[|m| - 1].progress
  }

  /** `Math.round(sum / length)`: the mean rounded half up. An empty list
      would give NaN, here None. */
  function OverallProgress(m: seq<TrainingModule>): (r: Option<int>)
    ensures r.None? <==> m == []
    ensures r.Some? ==>
      2 * |m| * r.value <= 2 * ProgressSum(m) + |m| < 2 * |m| * (r.value + 1)
  {
    if m == [] then None
    else
      var n := |m|;
      var q := (2 * ProgressSum(m) + n) / (2 * n);
      assert 2 * n * q <= 2 * ProgressSum(m) + n < 2 * n * (q + 1) by {
        DivBounds(2 * ProgressSum(m) + n, 2 * n);
      }
      Some(q)
  }

  /** Euclidean division brackets its dividend. */
  lemma DivBounds(a: int, b: int)
    requires b > 0
    ensures b * (a / b) <= a < b * (a / b + 1)
  {
  }

  /** A positive factor keeps a strict order. */
  lemma ScaleCompare(k: int, x: int, y: int)
    requires k > 0 && k * x < k * y
    ensures x < y
  {
  }

  predicate Percentages(m: seq<TrainingModule>) {
    forall i :: 0 <= i < |m| ==> 0 <= m[i].progress <= 100
  }

  lemma {:induction false} SumBounds(m: seq<TrainingModule>)
    requires Percentages(m)
    ensures 0 <= ProgressSum(m) <= 100 * |m|
  {
    if m != [] {
      assert Percentages(m[..|m| - 1]);
      SumBounds(m[..|m| - 1]);
    }
  }

  /** The rounded mean of percentages is itself a percentage. */
  lemma ProgressIsPercentage(m: seq<TrainingModule>)
    requires m != [] && Percentages(m)
    ensures 0 <= OverallProgress(m).value <= 100
  {
    SumBounds(m);
    var n, q := |m|, OverallProgress(m).value;
    assert 2 * n * q < 2 * n * 101 by {
      assert 2 * ProgressSum(m) + n <= 201 * n;
    }
    ScaleCompare(2 * n, q, 101);
    assert 2 * n * 0 < 2 * n * (q + 1);
    ScaleCompare(2 * n, 0, q + 1);
  }

  lemma ShownOverallProgress()
    ensures OverallProgress(TrainingProgress) == Some(72)
  {
    var m := TrainingProgress;
    assert m[..3][..2][..1][..0] == [];
    assert ProgressSum(m[..1]) == 80 by { assert m[..1][..0] == []; }
    assert ProgressSum(m[..2]) == 155 by { assert m[..2][..1] == m[..1]; }
    assert ProgressSum(m[..3]) == 188 by { assert m[..3][..2] == m[..2]; }
    assert ProgressSum(m) == 288 by { assert m[..3] == m[..|m| - 1]; }
  }

  // ---------------------------------------------------------------- page

  class ProfilePage {
    var editing: bool
    var user: UserProfile
    var editForm: UserProfile
    const storage: UserStorage

    function State(): ProfileState
      reads this
    {
      ProfileState(editing, user, editForm)
    }

    constructor (storage: UserStorage)
      ensures State() == Initial && this.storage == storage
    {
      editing := false;
      user := DefaultUser;
      editForm := DefaultUser;
      this.storage := storage;
    }

    /** The mount effect: merge the stored record, if any, into both copies. */
    method Load()
      modifies this
      ensures State() == AfterLoad(old(State()), storage.user)
    {
      if storage.user.Some? {
        var stored := storage.user.value;
        user := Merge(user, stored);
        editForm := Merge(editForm, stored);
      }
    }

    method HandleEdit()
      modifies this
      ensures State() == AfterEdit(old(State()))
    {
      editing := true;
    }

    /** Commits the buffer and writes it, dates included, to storage. */
    method HandleSave()
      modifies this, storage
      ensures State() == AfterSave(old(State()))
      ensures storage.user == Some(ToStored(old(editForm)))
    {
      user := editForm;
      storage.SetUser(ToStored(editForm));
      editing := false;
    }

    method HandleCancel()
      modifies this
      ensures State() == AfterCancel(old(State()))
    {
      editForm := user;
      editing := false;
    }

    method EditField(field: ProfileField, value: string)
      modifies this
      ensures State() == AfterEditField(old(State()), field, value)
    {
      match field
      case NameField => editForm := editForm.(name := value);
      case EmailField => editForm := editForm.(email := value);
      case RoleField => editForm := editForm.(role := value);
    }

    /** Forgets the stored user; the page's own state is left as it is. */
    method HandleLogout()
      modifies storage
      ensures storage.user == None
    {
      storage.RemoveUser();
    }
  }
}
