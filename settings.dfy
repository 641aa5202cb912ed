/**
 * The settings page (`src/pages/Settings.jsx`): the profile and password forms with their
 * submit guards, their resets on success and on cancel, and the notification switches. The
 * update requests themselves go to the server and are returned as values; their success
 * callbacks are separate methods.
 */
module SettingsPage {
  import opened Wrappers

  /** The signed-in user as far as the forms read it. */
  datatype User = User(name: Option<string>, email: Option<string>)

  /** `x || ''` on an optional string. */
  function OrEmpty(x: Option<string>): (r: string)
    ensures x.Some? ==> r == x.value
    ensures x.None? ==> r == ""
  {
    if x.Some? then x.value else ""
  }

  // ---------------------------------------------------------------------------------------
  // Notification switches

  /** The four switches: e-mail, push, SMS and marketing. */
  datatype Notifications = Notifications(email: bool, push: bool, sms: bool, marketing: bool)

  const InitialNotifications := Notifications(true, false, true, false)

  datatype Channel = EmailChannel | PushChannel | SmsChannel | MarketingChannel

  function IsOn(n: Notifications, c: Channel): bool {
    match c
    case EmailChannel => n.email
    case PushChannel => n.push
    case SmsChannel => n.sms
    case MarketingChannel => n.marketing
  }

  /** `setNotifications(prev => ({ ...prev, [c]: !prev[c] }))`. */
  function ToggleChannel(n: Notifications, c: Channel): (r: Notifications)
    ensures IsOn(r, c) == !IsOn(n, c)
    ensures forall d :: d != c ==> IsOn(r, d) == IsOn(n, d)
  {
    match c
    case EmailChannel => n.(email := !n.email)
    case PushChannel => n.(push := !n.push)
    case SmsChannel => n.(sms := !n.sms)
    case MarketingChannel => n.(marketing := !n.marketing)
  }

  /** Flipping a switch twice restores every switch, and two switches flip independently. */
  lemma ToggleChannelInverse(n: Notifications, c: Channel, d: Channel)
    ensures ToggleChannel(ToggleChannel(n, c), c) == n
    ensures ToggleChannel(ToggleChannel(n, c), d) == ToggleChannel(ToggleChannel(n, d), c)
  {
  }

  // ---------------------------------------------------------------------------------------
  // Guards

  /** `handleSubmit` goes on unless name, e-mail and avatar are all empty. */
  predicate ProfileSubmitAccepted(fullName: string, email: string, avatar: Option<string>) {
    !(fullName == "" && email == "" && avatar.None?)
  }

  /** `handlePasswordSubmit` goes on when all three fields are filled and the two new ones agree. */
  predicate PasswordSubmitAccepted(current: string, password: string, confirm: string) {
    current != "" && password != "" && confirm != "" && password == confirm
  }

  /** The update-profile button: disabled while updating or when all three fields are empty. */
  predicate ProfileButtonDisabled(isUpdating: bool, fullName: string, email: string, avatar: Option<string>) {
    isUpdating || (fullName == "" && email == "" && avatar.None?)
  }

  /** The update-password button's condition, as written on the button. */
  predicate PasswordButtonDisabled(isUpdating: bool, current: string, password: string, confirm: string) {
    isUpdating || current == "" || password == "" || confirm == "" || password != confirm
  }

  /** Each button is disabled exactly when an update is in flight or its submit would be ignored. */
  lemma ButtonsMatchGuards(isUpdating: bool, fullName: string, email: string, avatar: Option<string>,
                           current: string, password: string, confirm: string)
    ensures ProfileButtonDisabled(isUpdating, fullName, email, avatar) <==> isUpdating || !ProfileSubmitAccepted(fullName, email, avatar)
    ensures PasswordButtonDisabled(isUpdating, current, password, confirm) <==> isUpdating || !PasswordSubmitAccepted(current, password, confirm)
  {
  }

  /** The guard never sends a change whose new password is empty or differs from its confirmation. */
  lemma PasswordGuardNeedsAgreement(current: string, password: string, confirm: string)
    ensures PasswordSubmitAccepted(current, password, confirm) ==> password == confirm && password != ""
    ensures current != "" && password != "" && password != confirm ==> !PasswordSubmitAccepted(current, password, confirm)
  {
  }

  // ---------------------------------------------------------------------------------------
  // The page state

  /** The profile update sent: `{ email, fullName, avatar }`. */
  datatype ProfileUpdate = ProfileUpdate(email: string, fullName: string, avatar: Option<string>)

  /** The password change sent: `{ passwordCurrent, password, passwordConfirm }`. */
  datatype PasswordChange = PasswordChange(passwordCurrent: string, password: string, passwordConfirm: string)

  class SettingsState {
    var notifications: Notifications
    var email: string
    var fullName: string
    /** The chosen avatar file's name, `None` for no file. */
    var avatar: Option<string>
    var showAvatarUpload: bool
    var passwordCurrent: string
    var password: string
    var passwordConfirm: string
    var showPasswordForm: bool

    /** The empty forms and the default switches. */
    constructor ()
      ensures notifications == InitialNotifications
      ensures email == "" && fullName == "" && avatar.None? && !showAvatarUpload
      ensures passwordCurrent == "" && password == "" && passwordConfirm == "" && !showPasswordForm
    {
      notifications := InitialNotifications;
      email, fullName, avatar, showAvatarUpload := "", "", None, false;
      passwordCurrent, password, passwordConfirm, showPasswordForm := "", "", "", false;
    }

    /** The effect that fills the profile form once the user has loaded. */
    method UserLoaded(user: Option<User>)
      modifies this
      ensures user.Some? ==> email == OrEmpty(user.value.email) && fullName == OrEmpty(user.value.name)
      ensures user.None? ==> email == old(email) && fullName == old(fullName)
      ensures avatar == old(avatar) && showAvatarUpload == old(showAvatarUpload) && notifications == old(notifications)
      ensures passwordCurrent == old(passwordCurrent) && password == old(password)
      ensures passwordConfirm == old(passwordConfirm) && showPasswordForm == old(showPasswordForm)
    {
      if user.Some? {
        email := OrEmpty(user.value.email);
        fullName := OrEmpty(user.value.name);
      }
    }

    /** A switch was clicked. */
    method Toggle(c: Channel)
      modifies this
      ensures notifications == ToggleChannel(old(notifications), c)
      ensures email == old(email) && fullName == old(fullName) && avatar == old(avatar)
      ensures showAvatarUpload == old(showAvatarUpload) && passwordCurrent == old(passwordCurrent)
      ensures password == old(password) && passwordConfirm == old(passwordConfirm) && showPasswordForm == old(showPasswordForm)
    {
      notifications := ToggleChannel(notifications, c);
    }

    /** `handleSubmit`: the update to send, or nothing when the guard stops it. */
    method SubmitProfile() returns (r: Option<ProfileUpdate>)
      ensures r.Some? <==> ProfileSubmitAccepted(fullName, email, avatar)
      ensures r.Some? ==> r.value == ProfileUpdate(email, fullName, avatar)
    {
      if fullName == "" && email == "" && avatar.None? {
        r := None;
      } else {
        r := Some(ProfileUpdate(email, fullName, avatar));
      }
    }

    /** The profile update's `onSuccess`: the chosen avatar is dropped and the upload hidden. */
    method ProfileUpdated()
      modifies this
      ensures avatar.None? && !showAvatarUpload
      ensures email == old(email) && fullName == old(fullName) && notifications == old(notifications)
      ensures passwordCurrent == old(passwordCurrent) && password == old(password)
      ensures passwordConfirm == old(passwordConfirm) && showPasswordForm == old(showPasswordForm)
    {
      avatar := None;
      showAvatarUpload := false;
    }

    /** `handleCancel`: the profile form goes back to the user's values. */
    method CancelProfile(user: Option<User>)
      modifies this
      ensures email == (if user.Some? then OrEmpty(user.value.email) else "")
      ensures fullName == (if user.Some? then OrEmpty(user.value.name) else "")
      ensures avatar.None? && !showAvatarUpload && notifications == old(notifications)
      ensures passwordCurrent == old(passwordCurrent) && password == old(password)
      ensures passwordConfirm == old(passwordConfirm) && showPasswordForm == old(showPasswordForm)
    {
      email := if user.Some? then OrEmpty(user.value.email) else "";
      fullName := if user.Some? then OrEmpty(user.value.name) else "";
      avatar := None;
      showAvatarUpload := false;
    }

    /** `handleAvatarChange`: the first picked file becomes the avatar; picking none keeps it. */
    method AvatarChosen(picked: seq<string>)
      modifies this
      ensures picked != [] ==> avatar == Some(picked[0])
      ensures picked == [] ==> avatar == old(avatar)
      ensures email == old(email) && fullName == old(fullName) && notifications == old(notifications)
      ensures showAvatarUpload == old(showAvatarUpload) && passwordCurrent == old(passwordCurrent)
      ensures password == old(password) && passwordConfirm == old(passwordConfirm) && showPasswordForm == old(showPasswordForm)
    {
      if picked != [] {
        avatar := Some(picked[0]);
      }
    }

    /** `handleRemoveAvatar`: no avatar and the upload hidden, the same as after a saved update. */
    method RemoveAvatar()
      modifies this
      ensures avatar.None? && !showAvatarUpload
      ensures email == old(email) && fullName == old(fullName) && notifications == old(notifications)
      ensures passwordCurrent == old(passwordCurrent) && password == old(password)
      ensures passwordConfirm == old(passwordConfirm) && showPasswordForm == old(showPasswordForm)
    {
      avatar := None;
      showAvatarUpload := false;
    }

    /** `handlePasswordSubmit`: the change to send, or nothing when the guard stops it. */
    method SubmitPassword() returns (r: Option<PasswordChange>)
      ensures r.Some? <==> PasswordSubmitAccepted(passwordCurrent, password, passwordConfirm)
      ensures r.Some? ==> r.value == PasswordChange(passwordCurrent, password, passwordConfirm)
    {
      if passwordCurrent == "" || password == "" || passwordConfirm == "" {
        r := None;
      } else if password != passwordConfirm {
        r := None;
      } else {
        r := Some(PasswordChange(passwordCurrent, password, passwordConfirm));
      }
    }

    /** The three password fields are empty and the password form is hidden. */
    predicate PasswordFormCleared()
      reads this
    {
      passwordCurrent == "" && password == "" && passwordConfirm == "" && !showPasswordForm
    }

    /** The password change's `onSuccess`. */
    method PasswordChanged()
      modifies this
      ensures PasswordFormCleared()
      ensures email == old(email) && fullName == old(fullName) && avatar == old(avatar)
      ensures showAvatarUpload == old(showAvatarUpload) && notifications == old(notifications)
    {
      passwordCurrent, password, passwordConfirm := "", "", "";
      showPasswordForm := false;
    }

    /** `handlePasswordCancel`. */
    method CancelPassword()
      modifies this
      ensures PasswordFormCleared()
      ensures email == old(email) && fullName == old(fullName) && avatar == old(avatar)
      ensures showAvatarUpload == old(showAvatarUpload) && notifications == old(notifications)
    {
      passwordCurrent, password, passwordConfirm := "", "", "";
      showPasswordForm := false;
    }
  }
}
