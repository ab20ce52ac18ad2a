/** The registration page: a nested form edited through named inputs and chip
    toggles, and a submit handler that checks the passwords in a fixed order
    before handing the form to the session store. */
module Register {
  import opened Outcomes
  import opened Text
  import opened Selection
  import opened FormFields

  datatype LearningProfile = LearningProfile(
    subjects: seq<string>,
    currentLevel: string,
    learningGoals: seq<string>,
    preferredLanguage: string)

  datatype RegisterForm = RegisterForm(
    username: string,
    email: string,
    password: string,
    confirmPassword: string,
    learningProfile: LearningProfile)

  /** The form as the page first shows it. */
  const InitialForm := RegisterForm("", "", "", "", LearningProfile([], "beginner", [], "en"))

  /** The text value an input name addresses in the form; `None` for a name that
      addresses no text value of it. */
  function Get(f: RegisterForm, n: FieldName): Option<string> {
    match n
    case Plain(key) =>
      if key == "username" then Some(f.username)
      else if key == "email" then Some(f.email)
      else if key == "password" then Some(f.password)
      else if key == "confirmPassword" then Some(f.confirmPassword)
      else None
    case Nested(parent, child) =>
      if parent != "learningProfile" then None
      else if child == "currentLevel" then Some(f.learningProfile.currentLevel)
      else if child == "preferredLanguage" then Some(f.learningProfile.preferredLanguage)
      else None
  }

  /** `handleChange` for the input named `name`: the text value the name
      addresses (a top-level field, or with a dotted name the field `child` of
      the nested object `parent`) becomes `value`; every other text value and
      both chip lists stay as they were. */
  function Change(f: RegisterForm, name: string, value: string): (r: RegisterForm)
    ensures Get(f, ParseName(name)).Some? ==> Get(r, ParseName(name)) == Some(value)
    ensures forall n :: n != ParseName(name) ==> Get(r, n) == Get(f, n)
    ensures r.learningProfile.subjects == f.learningProfile.subjects
    ensures r.learningProfile.learningGoals == f.learningProfile.learningGoals
    ensures Get(f, ParseName(name)).None? ==> r == f
  {
    var p := f.learningProfile;
    match ParseName(name)
    case Plain(key) =>
      if key == "username" then f.(username := value)
      else if key == "email" then f.(email := value)
      else if key == "password" then f.(password := value)
      else if key == "confirmPassword" then f.(confirmPassword := value)
      else f
    case Nested(parent, child) =>
      if parent != "learningProfile" then f
      else if child == "currentLevel" then f.(learningProfile := p.(currentLevel := value))
      else if child == "preferredLanguage" then f.(learningProfile := p.(preferredLanguage := value))
      else f
  }

  /** The name `learningProfile.<child>` reaches the nested field `child`. */
  lemma ProfileName(child: string)
    requires '.' !in child
    ensures ParseName("learningProfile." + child) == Nested("learningProfile", child)
  {
    var parent := "learningProfile";
    assert '.' !in parent;
    assert parent + "." + child == "learningProfile." + child;
    ParseDottedName(parent, child);
  }

  /** A dotted name under `learningProfile` reaches that nested field: the two
      selects (`learningProfile.currentLevel`, `learningProfile.preferredLanguage`)
      write exactly their field, any other child name changes nothing. */
  lemma NestedNameReachesField(f: RegisterForm, child: string, value: string)
    requires '.' !in child
    ensures child == "currentLevel" ==>
              Change(f, "learningProfile." + child, value) == f.(learningProfile := f.learningProfile.(currentLevel := value))
    ensures child == "preferredLanguage" ==>
              Change(f, "learningProfile." + child, value) == f.(learningProfile := f.learningProfile.(preferredLanguage := value))
    ensures child !in {"currentLevel", "preferredLanguage"} ==> Change(f, "learningProfile." + child, value) == f
  {
    ProfileName(child);
  }

  const PasswordMismatch := "Passwords do not match"
  const PasswordTooShort := "Password must be at least 6 characters long"
  const MinPasswordLength := 6

  /** The checks `handleSubmit` makes before calling the session store: a
      mismatch is reported first, a short password (fewer than 6 UTF-16 code
      units) second; `None` means both checks passed. */
  function ValidationError(f: RegisterForm): (e: Option<string>)
    ensures f.password != f.confirmPassword ==> e == Some(PasswordMismatch)
    ensures f.password == f.confirmPassword && Utf16Length(f.password) < MinPasswordLength ==> e == Some(PasswordTooShort)
    ensures e.None? <==> f.password == f.confirmPassword && Utf16Length(f.password) >= MinPasswordLength
  {
    if f.password != f.confirmPassword then Some(PasswordMismatch)
    else if Utf16Length(f.password) < MinPasswordLength then Some(PasswordTooShort)
    else None
  }

  /** A password of six characters or more never fails the length check, and
      one of fewer than three characters always does (characters beyond the
      Basic Multilingual Plane count twice). */
  lemma LengthCheckBounds(f: RegisterForm)
    requires f.password == f.confirmPassword
    ensures |f.password| >= MinPasswordLength ==> ValidationError(f).None?
    ensures |f.password| < MinPasswordLength / 2 ==> ValidationError(f) == Some(PasswordTooShort)
  {
  }

  const RegistrationFailed := "An error occurred during registration"

  class RegisterPage {
    var form: RegisterForm
    /** The error banner; the empty string shows none. */
    var error: string
    var loading: bool
    /** The forms `register(...)` was called with, oldest first. */
    var registered: seq<RegisterForm>
    var navigatedTo: Option<string>

    constructor ()
      ensures form == InitialForm && error == "" && !loading
      ensures registered == [] && navigatedTo == None
    {
      form := InitialForm;
      error := "";
      loading := false;
      registered := [];
      navigatedTo := None;
    }

    method HandleChange(name: string, value: string)
      modifies this`form
      ensures form == Change(old(form), name, value)
    {
      form := Change(form, name, value);
    }

    /** A click on a subject chip: only the subject list changes, by `Toggle`. */
    method HandleSubjectChange(subject: string)
      modifies this`form
      ensures form == old(form).(learningProfile := old(form).learningProfile.(
                subjects := Toggle(old(form).learningProfile.subjects, subject)))
    {
      var p := form.learningProfile;
      form := form.(learningProfile := p.(subjects := Toggle(p.subjects, subject)));
    }

    /** A click on a goal chip: only the goal list changes, by `Toggle`. */
    method HandleGoalChange(goal: string)
      modifies this`form
      ensures form == old(form).(learningProfile := old(form).learningProfile.(
                learningGoals := Toggle(old(form).learningProfile.learningGoals, goal)))
    {
      var p := form.learningProfile;
      form := form.(learningProfile := p.(learningGoals := Toggle(p.learningGoals, goal)));
    }

    /** `handleSubmit` (the button is disabled while a registration is in flight):
        a failed check shows its message and calls nothing; otherwise the form
        is registered, success leads to `/dashboard`, a refusal shows the store's
        message and an exception the generic one. `loading` is false again in
        every case. */
    method HandleSubmit(result: AuthResult)
      requires !loading
      modifies this`error, this`loading, this`registered, this`navigatedTo
      ensures !loading && form == old(form)
      ensures ValidationError(form).Some? ==>
                && error == ValidationError(form).value
                && registered == old(registered) && navigatedTo == old(navigatedTo)
      ensures ValidationError(form).None? ==> registered == old(registered) + [form]
      ensures ValidationError(form).None? && result.Succeeded? ==>
                error == "" && navigatedTo == Some("/dashboard")
      ensures ValidationError(form).None? && result.Refused? ==>
                error == result.message.GetOr("") && navigatedTo == old(navigatedTo)
      ensures ValidationError(form).None? && result.Threw? ==>
                error == RegistrationFailed && navigatedTo == old(navigatedTo)
    {
      error := "";
      var check := ValidationError(form);
      if check.Some? {
        error := check.value;
        return;
      }
      loading := true;
      registered := registered + [form];
      match result {
        case Succeeded =>
          navigatedTo := Some("/dashboard");
        case Refused(message) =>
          error := message.GetOr("");
        case Threw =>
          error := RegistrationFailed;
      }
      loading := false;
    }
  }
}
