/**
 * client/src/pages/Settings.jsx: the profile form and the password form of
 * the signed-in user, the requests they send to PUT /api/users/:id, and
 * what the page shows when the reply arrives. The lemmas at the end follow
 * each request through the server's update of the stored user.
 */
module SettingsPage {
  import opened Options
  import opened TextRules
  import opened JsValues
  import opened ApiServer

  datatype SettingsForm = SettingsForm(
    name: string, email: string, phone: string,
    currentPassword: string, newPassword: string, confirmPassword: string)

  /** The page's visible state: the form, the success banner and the error text. */
  datatype SettingsState = SettingsState(form: SettingsForm, success: bool, error: string)

  const PasswordsDiffer := "Yeni \U{015F}ifreler e\U{015F}le\U{015F}miyor"
  const PasswordTooShort := "\U{015E}ifre en az 6 karakter olmal\U{0131}d\U{0131}r"
  const ProfileFailed := "G\U{00FC}ncelleme ba\U{015F}ar\U{0131}s\U{0131}z"
  const PasswordFailed := "\U{015E}ifre de\U{011F}i\U{015F}tirme ba\U{015F}ar\U{0131}s\U{0131}z"
  const RequestFailed := "Bir hata olu\U{015F}tu"

  /** The phone field's onChange, the same filter as on the contacts page. */
  function EditPhone(form: SettingsForm, value: string): (f: SettingsForm)
    ensures f.phone == value <==> AcceptsPhoneInput(value) || value == form.phone
    ensures f == form.(phone := f.phone)
    ensures AcceptsPhoneInput(form.phone) ==> AcceptsPhoneInput(f.phone)
    ensures !AcceptsPhoneInput(value) ==> f == form
  {
    if AcceptsPhoneInput(value) then form.(phone := value) else form
  }

  /** The body of the profile request: exactly the three profile fields, as typed. */
  function ProfilePayload(form: SettingsForm): (p: Record)
    ensures p.Keys == {"name", "email", "phone"}
    ensures IsJson(p)
    ensures !Truthy(Get(p, "password"))
  {
    map["name" := Str(form.name), "email" := Str(form.email), "phone" := Str(form.phone)]
  }

  /** What submitting the password form does before any request. */
  datatype PasswordOutcome = Rejected(message: string) | Send(payload: Record)

  function PasswordChange(form: SettingsForm): (r: PasswordOutcome)
    ensures r == Rejected(PasswordsDiffer) <==> form.newPassword != form.confirmPassword
    ensures r == Rejected(PasswordTooShort) <==>
      form.newPassword == form.confirmPassword && Utf16Length(form.newPassword) < 6
    ensures r.Send? <==> form.newPassword == form.confirmPassword && Utf16Length(form.newPassword) >= 6
    ensures r.Send? ==> r.payload.Keys == {"password"} && r.payload["password"] == Str(form.newPassword)
  {
    if form.newPassword != form.confirmPassword then Rejected(PasswordsDiffer)
    else if Utf16Length(form.newPassword) < 6 then Rejected(PasswordTooShort)
    else Send(map["password" := Str(form.newPassword)])
  }

  /** The state after a rejected password form: the message shown, the banner off. */
  function AfterRejection(state: SettingsState, message: string): (s: SettingsState)
    ensures s.form == state.form && !s.success && s.error == message
  {
    SettingsState(state.form, false, message)
  }

  /** `response.message || fallback` for a reply that is not a success. */
  function FailureText(reply: UserReply, fallback: string): (t: string)
    ensures t != ""  || fallback == ""
    ensures reply.Failure? && reply.message != "" ==> t == reply.message
    ensures !(reply.Failure? && reply.message != "") ==> t == fallback
  {
    if reply.Failure? && reply.message != "" then reply.message else fallback
  }

  /**
   * The state after the password request: `reply` is None when the request
   * threw. On success the three password fields are cleared and the rest of
   * the form is kept; otherwise the form is kept and the error is shown.
   */
  function AfterPasswordReply(state: SettingsState, reply: Option<UserReply>): (s: SettingsState)
    ensures s.success <==> reply.Some? && reply.value.Success?
    ensures s.success ==> s.form == state.form.(currentPassword := "", newPassword := "", confirmPassword := "") && s.error == ""
    ensures !s.success ==> s.form == state.form
    ensures reply.None? ==> s.error == RequestFailed
    ensures reply.Some? && !reply.value.Success? ==> s.error == FailureText(reply.value, PasswordFailed)
  {
    match reply
    case None => SettingsState(state.form, false, RequestFailed)
    case Some(rep) =>
      if rep.Success? then
        SettingsState(state.form.(currentPassword := "", newPassword := "", confirmPassword := ""), true, "")
      else
        SettingsState(state.form, false, FailureText(rep, PasswordFailed))
  }

  /**
   * The state after the profile request, `reply` being None when it threw;
   * the form itself is never changed.
   */
  function AfterProfileReply(state: SettingsState, reply: Option<UserReply>): (s: SettingsState)
    ensures s.form == state.form
    ensures s.success <==> reply.Some? && reply.value.Success?
    ensures s.error == match reply
      case None => RequestFailed
      case Some(rep) => if rep.Success? then "" else FailureText(rep, ProfileFailed)
  {
    match reply
    case None => SettingsState(state.form, false, RequestFailed)
    case Some(rep) =>
      if rep.Success? then SettingsState(state.form, true, "")
      else SettingsState(state.form, false, FailureText(rep, ProfileFailed))
  }

  /** The mismatch is reported before the length, whatever the length. */
  lemma MismatchReportedFirst(form: SettingsForm)
    requires form.newPassword != form.confirmPassword
    ensures PasswordChange(form) == Rejected(PasswordsDiffer)
  {
  }

  /** A password the page sends is a non-empty string, so the server treats it as given. */
  lemma SentPasswordIsTruthy(form: SettingsForm)
    requires PasswordChange(form).Send?
    ensures Truthy(Get(PasswordChange(form).payload, "password"))
    ensures form.newPassword != ""
  {
  }

  /**
   * The profile request, merged into any stored user by the server, sets the
   * three profile fields to what was typed and keeps every other field,
   * the password included.
   */
  lemma ProfileUpdateKeepsPassword(user: Record, form: SettingsForm)
    ensures var stored := Normalize(Spread(user, UserUpdateData(ProfilePayload(form))));
      && Get(stored, "name") == Str(form.name)
      && Get(stored, "email") == Str(form.email)
      && Get(stored, "phone") == Str(form.phone)
      && forall k :: k !in {"name", "email", "phone"} ==> Get(stored, k) == Get(user, k)
  {
  }

  /**
   * The password request as the server handles it: the stored user gets the
   * new password, and its name, email and phone are gone, whatever they were.
   */
  lemma PasswordChangeErasesProfile(user: Record, form: SettingsForm)
    requires PasswordChange(form).Send?
    ensures var stored := Normalize(Spread(user, UserUpdateData(PasswordChange(form).payload)));
      && Get(stored, "password") == Str(form.newPassword)
      && "name" !in stored && "email" !in stored && "phone" !in stored
  {
  }

  /**
   * With the update data built from the given fields only, the password
   * request changes the password and nothing else of the stored user.
   */
  lemma CorrectedPasswordChangeKeepsProfile(user: Record, form: SettingsForm)
    requires PasswordChange(form).Send?
    ensures var stored := Normalize(Spread(user, CorrectedUserUpdateData(PasswordChange(form).payload)));
      && Get(stored, "password") == Str(form.newPassword)
      && forall k :: k != "password" ==> Get(stored, k) == Get(user, k)
  {
    CorrectedUpdateKeepsProfile(user, PasswordChange(form).payload);
  }

  /** The profile request is handled the same by the server as written and by the corrected update. */
  lemma CorrectedProfileUpdateAgrees(user: Record, form: SettingsForm)
    ensures Normalize(Spread(user, CorrectedUserUpdateData(ProfilePayload(form))))
         == Normalize(Spread(user, UserUpdateData(ProfilePayload(form))))
  {
    CorrectedUpdateKeepsProfile(user, ProfilePayload(form));
  }
}
