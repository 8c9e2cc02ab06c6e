/** The profile dialog: an edit form for name and e-mail, a collapsible
    password-change form, and one error line. Each submit runs a fixed
    chain of checks where the first failing one sets the error; otherwise it
    awaits the page's callback, whose outcome is a parameter here, and
    closes on success. */
module Profile {
  import opened Common

  datatype ProfileForm = ProfileForm(name: string, email: string)
  datatype PasswordForm = PasswordForm(currentPassword: string, newPassword: string, confirm: string)

  /** The `name` attributes of the inputs each form's change handler serves. */
  datatype ProfileField = NameField | EmailField
  datatype PasswordField = CurrentField | NewField | ConfirmField

  /** How an awaited callback settled: resolved, or rejected with an error
      whose `message` is given ("" when it has none). */
  datatype CallOutcome = Resolved | Rejected(message: string)

  datatype ProfilePayload = ProfilePayload(name: string, email: string)
  datatype PasswordPayload = PasswordPayload(currentPassword: string, newPassword: string)

  const NameRequired := "Name is required"
  const EmailRequired := "Email is required"
  const ProfileFailed := "Failed to update profile"
  const CurrentRequired := "Current password is required"
  const NewRequired := "New password is required"
  const NewTooShort := "New password must be at least 6 characters"
  const Mismatch := "Passwords do not match"
  const PasswordFailed := "Failed to change password"

  const EmptyPasswordForm := PasswordForm("", "", "")

  /** `err?.message || fallback`. */
  function FailureText(message: string, fallback: string): (r: string)
    ensures message != "" ==> r == message
    ensures message == "" ==> r == fallback
  {
    if message != "" then message else fallback
  }

  /** The checks of `saveProfile`: a blank trimmed name is reported before
      a blank trimmed e-mail. */
  function ProfileCheck(form: ProfileForm): (r: Option<string>)
    ensures Trim(JavaScript, form.name) == "" ==> r == Some(NameRequired)
    ensures Trim(JavaScript, form.name) != "" && Trim(JavaScript, form.email) == "" ==> r == Some(EmailRequired)
    ensures r.None? <==> Trim(JavaScript, form.name) != "" && Trim(JavaScript, form.email) != ""
  {
    if Trim(JavaScript, form.name) == "" then Some(NameRequired)
    else if Trim(JavaScript, form.email) == "" then Some(EmailRequired)
    else None
  }

  /** A form whose name and e-mail hold more than whitespace passes. */
  lemma ProfileCheckPasses(form: ProfileForm)
    requires !AllSpace(JavaScript, form.name) && !AllSpace(JavaScript, form.email)
    ensures ProfileCheck(form).None?
  {
    TrimEmptyIff(JavaScript, form.name);
    TrimEmptyIff(JavaScript, form.email);
  }

  /** The checks of `savePassword`, first failure wins: no current
      password, no new password, a new password under 6 characters, a
      confirmation that differs. */
  function PasswordCheck(pw: PasswordForm): (r: Option<string>)
    ensures pw.currentPassword == "" ==> r == Some(CurrentRequired)
    ensures pw.currentPassword != "" && pw.newPassword == "" ==> r == Some(NewRequired)
    ensures pw.currentPassword != "" && 0 < |pw.newPassword| < 6 ==> r == Some(NewTooShort)
    ensures r == Some(Mismatch) <==> pw.currentPassword != "" && |pw.newPassword| >= 6 && pw.newPassword != pw.confirm
    ensures r.None? <==> pw.currentPassword != "" && |pw.newPassword| >= 6 && pw.newPassword == pw.confirm
  {
    if pw.currentPassword == "" then Some(CurrentRequired)
    else if pw.newPassword == "" then Some(NewRequired)
    else if |pw.newPassword| < 6 then Some(NewTooShort)
    else if pw.newPassword != pw.confirm then Some(Mismatch)
    else None
  }

  /** What `saveProfile` passes on: the trimmed name and e-mail. */
  function TrimmedProfile(form: ProfileForm): ProfilePayload {
    ProfilePayload(Trim(JavaScript, form.name), Trim(JavaScript, form.email))
  }

  class ProfileModal {
    var form: ProfileForm
    var pwForm: PasswordForm
    var showPw: bool
    var error: string

    /** The initial state of the hooks. */
    constructor ()
      ensures form == ProfileForm("", "") && pwForm == EmptyPasswordForm
      ensures !showPw && error == ""
    {
      form := ProfileForm("", "");
      pwForm := EmptyPasswordForm;
      showPw := false;
      error := "";
    }

    /** The effect run when the dialog is open: the form is filled from the
        user, "" for a missing user, and everything else is reset. */
    method Open(user: Option<UserInfo>)
      modifies this
      ensures form == ProfileForm(if user.Some? then user.value.name else "",
                                  if user.Some? then user.value.email else "")
      ensures pwForm == EmptyPasswordForm && !showPw && error == ""
    {
      form := ProfileForm(if user.Some? then user.value.name else "",
                          if user.Some? then user.value.email else "");
      pwForm := EmptyPasswordForm;
      showPw := false;
      error := "";
    }

    /** `change`: one field of the profile form takes the typed value and
        the error is cleared. */
    method Change(field: ProfileField, value: string)
      modifies this
      ensures form == match field
        case NameField => old(form).(name := value)
        case EmailField => old(form).(email := value)
      ensures pwForm == old(pwForm) && showPw == old(showPw) && error == ""
    {
      match field {
        case NameField => form := form.(name := value);
        case EmailField => form := form.(email := value);
      }
      if error != "" {
        error := "";
      }
    }

    /** `changePw`: one field of the password form takes the typed value
        and the error is cleared. */
    method ChangePw(field: PasswordField, value: string)
      modifies this
      ensures pwForm == match field
        case CurrentField => old(pwForm).(currentPassword := value)
        case NewField => old(pwForm).(newPassword := value)
        case ConfirmField => old(pwForm).(confirm := value)
      ensures form == old(form) && showPw == old(showPw) && error == ""
    {
      match field {
        case CurrentField => pwForm := pwForm.(currentPassword := value);
        case NewField => pwForm := pwForm.(newPassword := value);
        case ConfirmField => pwForm := pwForm.(confirm := value);
      }
      if error != "" {
        error := "";
      }
    }

    /** The toggle button shows or hides the password form. */
    method TogglePasswordSection()
      modifies this
      ensures showPw == !old(showPw)
      ensures form == old(form) && pwForm == old(pwForm) && error == old(error)
    {
      showPw := !showPw;
    }

    /** `saveProfile`: a failed check sets its message and nothing is
        called; otherwise the callback gets the trimmed name and e-mail, the
        dialog closes when it resolves, and a rejection sets its message or
        the fallback and keeps the dialog open. */
    method SaveProfile(outcome: CallOutcome) returns (call: Option<ProfilePayload>, closes: bool)
      modifies this
      ensures form == old(form) && pwForm == old(pwForm) && showPw == old(showPw)
      ensures ProfileCheck(form).Some? ==> call.None? && !closes && error == ProfileCheck(form).value
      ensures ProfileCheck(form).None? ==>
        call == Some(TrimmedProfile(form))
      ensures call.Some? ==> (closes <==> outcome.Resolved?)
      ensures call.Some? && outcome.Resolved? ==> error == old(error)
      ensures call.Some? && outcome.Rejected? ==> error == FailureText(outcome.message, ProfileFailed)
    {
      var f := form;
      var check := ProfileCheck(f);
      if check.Some? {
        error := check.value;
        return None, false;
      }
      call := Some(TrimmedProfile(f));
      match outcome {
        case Resolved =>
          closes := true;
        case Rejected(message) =>
          error := FailureText(message, ProfileFailed);
          closes := false;
      }
    }

    /** `savePassword`: the same shape with the password checks; the
        callback gets the current and the new password as typed. */
    method SavePassword(outcome: CallOutcome) returns (call: Option<PasswordPayload>, closes: bool)
      modifies this
      ensures form == old(form) && pwForm == old(pwForm) && showPw == old(showPw)
      ensures PasswordCheck(pwForm).Some? ==> call.None? && !closes && error == PasswordCheck(pwForm).value
      ensures PasswordCheck(pwForm).None? ==>
        call == Some(PasswordPayload(pwForm.currentPassword, pwForm.newPassword))
      ensures call.Some? ==> (closes <==> outcome.Resolved?)
      ensures call.Some? && outcome.Resolved? ==> error == old(error)
      ensures call.Some? && outcome.Rejected? ==> error == FailureText(outcome.message, PasswordFailed)
    {
      var check := PasswordCheck(pwForm);
      if check.Some? {
        error := check.value;
        return None, false;
      }
      call := Some(PasswordPayload(pwForm.currentPassword, pwForm.newPassword));
      match outcome {
        case Resolved =>
          closes := true;
        case Rejected(message) =>
          error := FailureText(message, PasswordFailed);
          closes := false;
      }
    }
  }
}
