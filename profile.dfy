/** The profile page: a form projected from the signed-in user's record, edited
    only in edit mode, saved through the session store or reset by cancelling. */
module Profile {
  import opened Outcomes
  import opened Text
  import opened Selection
  import opened FormFields

  /** The learning profile as the user record carries it: any part may be
      missing. */
  datatype StoredDetails = StoredDetails(
    subjects: Option<seq<string>>,
    currentLevel: Option<string>,
    learningGoals: Option<seq<string>>,
    preferredLanguage: Option<string>,
    strengths: Option<seq<string>>,
    weaknesses: Option<seq<string>>)

  /** The signed-in user as the session store hands it over. */
  datatype User = User(username: Option<string>, email: Option<string>, learningProfile: Option<StoredDetails>)

  datatype Details = Details(
    subjects: seq<string>,
    currentLevel: string,
    learningGoals: seq<string>,
    preferredLanguage: string,
    strengths: seq<string>,
    weaknesses: seq<string>)

  datatype ProfileForm = ProfileForm(username: string, email: string, learningProfile: Details)

  const DefaultLevel := "beginner"
  const DefaultLanguage := "en"

  /** The form before any user record has arrived. */
  const InitialForm := ProfileForm("", "", Details([], DefaultLevel, [], DefaultLanguage, [], []))

  const NoDetails := StoredDetails(None, None, None, None, None, None)

  /** The projection of the user record the form starts from, and returns to on
      cancel: every missing or empty text falls back to its default (`''`,
      `'beginner'`, `'en'`), every missing list to the empty list. A level and a
      language are always present. */
  function FormFromUser(u: User): (f: ProfileForm)
    ensures f.learningProfile.currentLevel != "" && f.learningProfile.preferredLanguage != ""
  {
    var d := u.learningProfile.GetOr(NoDetails);
    ProfileForm(
      OrString(u.username, ""),
      OrString(u.email, ""),
      Details(
        d.subjects.GetOr([]),
        OrString(d.currentLevel, DefaultLevel),
        d.learningGoals.GetOr([]),
        OrString(d.preferredLanguage, DefaultLanguage),
        d.strengths.GetOr([]),
        d.weaknesses.GetOr([])))
  }

  /** A user record with nothing in it projects to the form the page starts
      with. */
  lemma EmptyUserGivesInitialForm()
    ensures FormFromUser(User(None, None, None)) == InitialForm
  {
  }

  /** The user record that carries every field of a form. */
  function Stored(f: ProfileForm): User {
    var d := f.learningProfile;
    User(Some(f.username), Some(f.email), Some(StoredDetails(
      Some(d.subjects), Some(d.currentLevel), Some(d.learningGoals),
      Some(d.preferredLanguage), Some(d.strengths), Some(d.weaknesses))))
  }

  /** Projecting a record that carries a form gives that form back, exactly when
      the form has a level and a language; an empty one comes back as the
      default. */
  lemma ProjectionRoundTrip(f: ProfileForm)
    ensures FormFromUser(Stored(f)) == f <==>
              f.learningProfile.currentLevel != "" && f.learningProfile.preferredLanguage != ""
  {
    var g := FormFromUser(Stored(f));
    if f.learningProfile.currentLevel == "" {
      assert g.learningProfile.currentLevel == DefaultLevel;
    }
  }

  /** The text value an input name addresses in the form. */
  function Get(f: ProfileForm, n: FieldName): Option<string> {
    match n
    case Plain(key) =>
      if key == "username" then Some(f.username)
      else if key == "email" then Some(f.email)
      else None
    case Nested(parent, child) =>
      if parent != "learningProfile" then None
      else if child == "currentLevel" then Some(f.learningProfile.currentLevel)
      else if child == "preferredLanguage" then Some(f.learningProfile.preferredLanguage)
      else None
  }

  /** `handleChange` for the input named `name`: the addressed text value becomes
      `value`; every other text value and all four chip lists stay as they
      were. */
  function Change(f: ProfileForm, name: string, value: string): (r: ProfileForm)
    ensures Get(f, ParseName(name)).Some? ==> Get(r, ParseName(name)) == Some(value)
    ensures forall n :: n != ParseName(name) ==> Get(r, n) == Get(f, n)
    ensures forall l :: List(r, l) == List(f, l)
    ensures Get(f, ParseName(name)).None? ==> r == f
  {
    var p := f.learningProfile;
    match ParseName(name)
    case Plain(key) =>
      if key == "username" then f.(username := value)
      else if key == "email" then f.(email := value)
      else f
    case Nested(parent, child) =>
      if parent != "learningProfile" then f
      else if child == "currentLevel" then f.(learningProfile := p.(currentLevel := value))
      else if child == "preferredLanguage" then f.(learningProfile := p.(preferredLanguage := value))
      else f
  }

  /** The four chip lists of the learning profile. */
  datatype ListName = Subjects | Goals | Strengths | Weaknesses

  function List(f: ProfileForm, l: ListName): seq<string> {
    match l
    case Subjects => f.learningProfile.subjects
    case Goals => f.learningProfile.learningGoals
    case Strengths => f.learningProfile.strengths
    case Weaknesses => f.learningProfile.weaknesses
  }

  /** `handleSubjectChange`, `handleGoalChange`, `handleStrengthChange` and
      `handleWeaknessChange`: one list has the item toggled, the other three
      lists and every text value are unchanged. */
  function ToggleIn(f: ProfileForm, l: ListName, item: string): (r: ProfileForm)
    ensures List(r, l) == Toggle(List(f, l), item)
    ensures forall other :: other != l ==> List(r, other) == List(f, other)
    ensures forall n :: Get(r, n) == Get(f, n)
  {
    var p := f.learningProfile;
    match l
    case Subjects => f.(learningProfile := p.(subjects := Toggle(p.subjects, item)))
    case Goals => f.(learningProfile := p.(learningGoals := Toggle(p.learningGoals, item)))
    case Strengths => f.(learningProfile := p.(strengths := Toggle(p.strengths, item)))
    case Weaknesses => f.(learningProfile := p.(weaknesses := Toggle(p.weaknesses, item)))
  }

  /** Text values and chip lists together make up the whole form. */
  lemma FormDeterminedByFields(f: ProfileForm, g: ProfileForm)
    requires forall n :: Get(f, n) == Get(g, n)
    requires forall l :: List(f, l) == List(g, l)
    ensures f == g
  {
    assert Get(f, Plain("username")) == Get(g, Plain("username"));
    assert Get(f, Plain("email")) == Get(g, Plain("email"));
    assert Get(f, Nested("learningProfile", "currentLevel")) == Get(g, Nested("learningProfile", "currentLevel"));
    assert Get(f, Nested("learningProfile", "preferredLanguage")) == Get(g, Nested("learningProfile", "preferredLanguage"));
    assert List(f, Subjects) == List(g, Subjects);
    assert List(f, Goals) == List(g, Goals);
    assert List(f, Strengths) == List(g, Strengths);
    assert List(f, Weaknesses) == List(g, Weaknesses);
  }

  /** Two clicks on a chip that was not selected restore the form exactly. */
  lemma ToggleTwiceRestores(f: ProfileForm, l: ListName, item: string)
    requires item !in List(f, l)
    ensures ToggleIn(ToggleIn(f, l, item), l, item) == f
  {
    ToggleTwiceAbsent(List(f, l), item);
    FormDeterminedByFields(ToggleIn(ToggleIn(f, l, item), l, item), f);
  }

  /** The "Preferred Language" caption of the summary card: the four offered
      languages by name, anything else (a missing value too) as English. */
  function LanguageLabel(lang: Option<string>): (caption: string)
    ensures lang == Some("es") ==> caption == "Spanish"
    ensures lang == Some("fr") ==> caption == "French"
    ensures lang == Some("de") ==> caption == "German"
    ensures lang !in {Some("es"), Some("fr"), Some("de")} ==> caption == "English"
  {
    if lang == Some("en") then "English"
    else if lang == Some("es") then "Spanish"
    else if lang == Some("fr") then "French"
    else if lang == Some("de") then "German"
    else "English"
  }

  /** The language select's items: stored value and caption. */
  const LanguageMenu: seq<(string, string)> :=
    [("en", "English"), ("es", "Spanish"), ("fr", "French"), ("de", "German")]

  /** The summary card names every language the select offers by the select's
      own caption. */
  lemma LabelAgreesWithMenu()
    ensures forall i :: 0 <= i < |LanguageMenu| ==> LanguageLabel(Some(LanguageMenu[i].0)) == LanguageMenu[i].1
  {
  }

  const SaveSucceeded := "Profile updated successfully!"
  const SaveRefused := "Failed to update profile"
  const SaveThrew := "An error occurred while updating profile"

  class ProfilePage {
    var user: Option<User>
    var editMode: bool
    var loading: bool
    /** The banner; the empty string shows none. */
    var message: string
    var form: ProfileForm
    /** The forms `updateProfile(...)` was called with, oldest first. */
    var saved: seq<ProfileForm>

    /** Mounting: out of edit mode, no banner; the form is the projection of the
        user record when there is one. */
    constructor Mount(user: Option<User>)
      ensures this.user == user && !editMode && !loading && message == "" && saved == []
      ensures form == (if user.Some? then FormFromUser(user.value) else InitialForm)
    {
      this.user := user;
      editMode := false;
      loading := false;
      message := "";
      saved := [];
      form := if user.Some? then FormFromUser(user.value) else InitialForm;
    }

    /** The effect on `[user]`: a new user record re-projects the form; a missing
        one leaves the form as it is. */
    method UserChanged(u: Option<User>)
      modifies this`user, this`form
      ensures user == u
      ensures form == (if u.Some? then FormFromUser(u.value) else old(form))
    {
      user := u;
      if u.Some? {
        form := FormFromUser(u.value);
      }
    }

    /** "Edit Profile", offered only outside edit mode. */
    method StartEdit()
      requires user.Some? && !editMode
      modifies this`editMode
      ensures editMode
    {
      editMode := true;
    }

    /** Typing into a text field or choosing in a select: the inputs are
        disabled outside edit mode. */
    method HandleChange(name: string, value: string)
      requires user.Some? && editMode
      modifies this`form
      ensures form == Change(old(form), name, value)
    {
      form := Change(form, name, value);
    }

    /** A click on a chip: the chips carry a click handler only in edit mode, so
        outside it nothing changes. */
    method ClickChip(l: ListName, item: string)
      requires user.Some?
      modifies this`form
      ensures form == (if editMode then ToggleIn(old(form), l, item) else old(form))
    {
      if editMode {
        form := ToggleIn(form, l, item);
      }
    }

    /** `handleSave` ("Save", shown in edit mode, disabled while saving): the form
        goes to the session store; success shows the success banner and leaves
        edit mode, a refusal stays in edit mode with the store's message (or the
        default one when it has none or an empty one), an exception stays in edit
        mode with the generic message. `loading` is false afterwards in every
        case, and the form is untouched. */
    method Save(result: AuthResult)
      requires user.Some? && editMode && !loading
      modifies this`loading, this`message, this`editMode, this`saved
      ensures !loading && form == old(form) && saved == old(saved) + [form]
      ensures result.Succeeded? ==> message == SaveSucceeded && !editMode
      ensures result.Refused? ==> message == OrString(result.message, SaveRefused) && editMode
      ensures result.Threw? ==> message == SaveThrew && editMode
    {
      loading := true;
      message := "";
      saved := saved + [form];
      match result {
        case Succeeded =>
          message := SaveSucceeded;
          editMode := false;
        case Refused(m) =>
          message := OrString(m, SaveRefused);
        case Threw =>
          message := SaveThrew;
      }
      loading := false;
    }

    /** `handleCancel` ("Cancel", shown in edit mode, disabled while saving): the
        form returns to the projection of the user record it started from,
        edit mode ends and the banner clears; nothing is sent. */
    method Cancel()
      requires user.Some? && editMode && !loading
      modifies this`form, this`editMode, this`message
      ensures form == FormFromUser(user.value) && !editMode && message == ""
    {
      form := FormFromUser(user.value);
      editMode := false;
      message := "";
    }
  }
}
