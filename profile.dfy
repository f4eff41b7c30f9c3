/** Profile and settings: the edit/save/cancel cycle on a draft copy of the
    current user, and the password form's two checks. */
module Profile {
  import opened Wrappers
  import opened Types
  import opened Store

  // ---------------------------------------------------------------------
  // Password change
  // ---------------------------------------------------------------------

  datatype PasswordForm = PasswordForm(current: string, newPassword: string, confirm: string)

  const EmptyPasswordForm := PasswordForm("", "", "")

  const MinPasswordLength := 8

  /** The three ways `handleChangePassword` can end. */
  datatype PasswordOutcome = Mismatch | TooShort | Changed

  /** The mismatch check comes first, then the length check; the current
      password is never consulted. */
  function PasswordCheck(f: PasswordForm): (r: PasswordOutcome)
    ensures r == Mismatch <==> f.newPassword != f.confirm
    ensures r == TooShort <==> f.newPassword == f.confirm && |f.newPassword| < MinPasswordLength
    ensures r == Changed <==> f.newPassword == f.confirm && |f.newPassword| >= MinPasswordLength
  {
    if f.newPassword != f.confirm then Mismatch
    else if |f.newPassword| < MinPasswordLength then TooShort
    else Changed
  }

  /** A mismatch is reported even when the new password is also too short. */
  lemma MismatchReportedFirst(f: PasswordForm)
    requires f.newPassword != f.confirm && |f.newPassword| < MinPasswordLength
    ensures PasswordCheck(f) == Mismatch
  {
  }

  /** Eight characters is enough; seven is not. */
  lemma LengthBoundary(f: PasswordForm)
    requires f.newPassword == f.confirm
    ensures |f.newPassword| == 8 ==> PasswordCheck(f) == Changed
    ensures |f.newPassword| == 7 ==> PasswordCheck(f) == TooShort
  {
  }

  /** Whatever is typed as the current password, the outcome is the same. */
  lemma CurrentPasswordIgnored(f: PasswordForm, c: string)
    ensures PasswordCheck(f.(current := c)) == PasswordCheck(f)
  {
  }

  // ---------------------------------------------------------------------
  // The profile form
  // ---------------------------------------------------------------------

  /** The five text inputs of the profile tab. */
  datatype ProfileField = NameField | EmailField | PhoneField | RoleField | UniversityField

  /** The value an input shows. */
  function FieldOf(u: User, f: ProfileField): string {
    match f
    case NameField => u.name
    case EmailField => u.email
    case PhoneField => u.phone
    case RoleField => u.role
    case UniversityField => u.university
  }

  /** `{ ...editedUser, <field>: value }`: the edited input shows the new
      value, every other input and the hidden fields keep theirs. */
  function WithField(u: User, f: ProfileField, value: string): (r: User)
    ensures FieldOf(r, f) == value
    ensures forall g :: g != f ==> FieldOf(r, g) == FieldOf(u, g)
    ensures r.id == u.id && r.avatar == u.avatar && r.online == u.online
  {
    match f
    case NameField => u.(name := value)
    case EmailField => u.(email := value)
    case PhoneField => u.(phone := value)
    case RoleField => u.(role := value)
    case UniversityField => u.(university := value)
  }

  class ProfileView {
    var isEditing: bool
    var editedUser: User
    var passwordForm: PasswordForm

    /** The draft starts as a copy of the user the view is mounted with. */
    constructor (user: User)
      ensures !isEditing && editedUser == user && passwordForm == EmptyPasswordForm
    {
      isEditing := false;
      editedUser := user;
      passwordForm := EmptyPasswordForm;
    }

    method StartEditing()
      modifies this
      ensures isEditing && editedUser == old(editedUser) && passwordForm == old(passwordForm)
    {
      isEditing := true;
    }

    method EditField(f: ProfileField, value: string)
      modifies this
      ensures editedUser == WithField(old(editedUser), f, value)
      ensures isEditing == old(isEditing) && passwordForm == old(passwordForm)
    {
      editedUser := WithField(editedUser, f, value);
    }

    /** `handleSaveProfile`: the whole draft goes to the store, so the stored
        user becomes the draft, and editing ends. */
    method SaveProfile(store: EntityStore)
      modifies this, store
      ensures store.State() == old(store.State()).(currentUser := MergeUser(old(store.currentUser), FullUserPatch(old(editedUser))))
      ensures store.currentUser == old(editedUser)
      ensures !isEditing && editedUser == old(editedUser) && passwordForm == old(passwordForm)
    {
      MergeFullUserPatch(store.currentUser, editedUser);
      store.UpdateUser(FullUserPatch(editedUser));
      isEditing := false;
    }

    /** `handleCancelEdit`: the draft is discarded in favour of the current
        user and editing ends; the store is not touched. */
    method CancelEdit(store: EntityStore)
      modifies this
      ensures editedUser == store.currentUser && !isEditing && passwordForm == old(passwordForm)
      ensures store.State() == old(store.State())
    {
      editedUser := store.currentUser;
      isEditing := false;
    }

    method EditPassword(f: PasswordForm)
      modifies this
      ensures passwordForm == f && isEditing == old(isEditing) && editedUser == old(editedUser)
    {
      passwordForm := f;
    }

    /** `handleChangePassword`: only a successful change clears the form. */
    method ChangePassword() returns (outcome: PasswordOutcome)
      modifies this
      ensures outcome == PasswordCheck(old(passwordForm))
      ensures outcome == Changed ==> passwordForm == EmptyPasswordForm
      ensures outcome != Changed ==> passwordForm == old(passwordForm)
      ensures isEditing == old(isEditing) && editedUser == old(editedUser)
    {
      outcome := PasswordCheck(passwordForm);
      if outcome == Changed {
        passwordForm := EmptyPasswordForm;
      }
    }
  }
}
