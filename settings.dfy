/** The settings screen: the change-password form with its ordered checks,
    and the notification preferences. Both handlers only wait on a timer, so
    neither can fail. */
module Settings {

  /** `passwordsMatch`, which gates the "Update Password" button: equal and
      at least six characters. */
  predicate PasswordsMatch(newPassword: string, confirmPassword: string) {
    newPassword == confirmPassword && |newPassword| >= 6
  }

  /** The outcome of `handleChangePassword`'s checks, each failure with its alert. */
  datatype PasswordCheck = FillAll | Mismatch | TooShort | Accepted

  /** The checks in the order they run: an empty field first, then differing
      new passwords, then a new password under six characters. */
  function CheckPasswords(currentPassword: string, newPassword: string, confirmPassword: string): PasswordCheck {
    if currentPassword == [] || newPassword == [] || confirmPassword == [] then FillAll
    else if newPassword != confirmPassword then Mismatch
    else if |newPassword| < 6 then TooShort
    else Accepted
  }

  /** The alert text of each outcome. */
  function Message(c: PasswordCheck): string {
    match c
    case FillAll => "Please fill in all password fields"
    case Mismatch => "New passwords do not match"
    case TooShort => "Password must be at least 6 characters"
    case Accepted => "Password changed successfully"
  }

  /** The checks accept exactly a non-empty current password together with
      matching new passwords. */
  lemma AcceptedIff(currentPassword: string, newPassword: string, confirmPassword: string)
    ensures CheckPasswords(currentPassword, newPassword, confirmPassword) == Accepted
        <==> currentPassword != [] && PasswordsMatch(newPassword, confirmPassword)
  {
  }

  /** The order of the checks shows: two differing short passwords are
      reported as a mismatch, never as too short, and an empty field wins
      over both. */
  lemma CheckOrder(currentPassword: string, newPassword: string, confirmPassword: string)
    ensures CheckPasswords(currentPassword, newPassword, confirmPassword) == Mismatch
        <==> currentPassword != [] && newPassword != [] && confirmPassword != [] && newPassword != confirmPassword
    ensures CheckPasswords(currentPassword, newPassword, confirmPassword) == TooShort
        <==> currentPassword != [] && newPassword != [] && newPassword == confirmPassword && |newPassword| < 6
    ensures CheckPasswords(currentPassword, newPassword, confirmPassword) == FillAll
        <==> currentPassword == [] || newPassword == [] || confirmPassword == []
  {
  }

  /** The current password is never compared with anything: any two
      non-empty values give the same outcome. */
  lemma CurrentPasswordIgnored(current1: string, current2: string, newPassword: string, confirmPassword: string)
    requires current1 != [] && current2 != []
    ensures CheckPasswords(current1, newPassword, confirmPassword) == CheckPasswords(current2, newPassword, confirmPassword)
  {
  }

  /** `disabled={loading || !passwordsMatch}` */
  predicate UpdateEnabled(loading: bool, newPassword: string, confirmPassword: string) {
    !(loading || !PasswordsMatch(newPassword, confirmPassword))
  }

  /** Pressing the enabled button can only fail on an empty current password. */
  lemma EnabledUpdate(loading: bool, currentPassword: string, newPassword: string, confirmPassword: string)
    requires UpdateEnabled(loading, newPassword, confirmPassword)
    ensures CheckPasswords(currentPassword, newPassword, confirmPassword) in {FillAll, Accepted}
    ensures currentPassword != [] ==> CheckPasswords(currentPassword, newPassword, confirmPassword) == Accepted
  {
  }

  /** The screen's state cells. */
  class SettingsScreen {
    var loading: bool
    var showChangePassword: bool
    var emailNotifications: bool
    var smsNotifications: bool
    var orderUpdates: bool
    var promotions: bool
    var currentPassword: string
    var newPassword: string
    var confirmPassword: string

    /** Every notification but promotions starts switched on; the password
        form starts collapsed and empty. */
    constructor ()
      ensures emailNotifications && smsNotifications && orderUpdates && !promotions
      ensures !loading && !showChangePassword
      ensures currentPassword == "" && newPassword == "" && confirmPassword == ""
    {
      loading, showChangePassword := false, false;
      emailNotifications, smsNotifications, orderUpdates, promotions := true, true, true, false;
      currentPassword, newPassword, confirmPassword := "", "", "";
    }

    /** `handleChangePassword()`: the outcome names the alert shown. A failed
        check leaves everything as it was; an accepted change raises and
        lowers `loading`. The fields are only cleared once the success alert
        is acknowledged. */
    method HandleChangePassword() returns (outcome: PasswordCheck)
      modifies this`loading
      ensures outcome == CheckPasswords(currentPassword, newPassword, confirmPassword)
      ensures outcome != Accepted ==> loading == old(loading)
      ensures outcome == Accepted ==> !loading
    {
      if currentPassword == [] || newPassword == [] || confirmPassword == [] {
        return FillAll;
      }
      if newPassword != confirmPassword {
        return Mismatch;
      }
      if |newPassword| < 6 {
        return TooShort;
      }
      loading := true;
      outcome := Accepted;
      loading := false;
    }

    /** "OK" on the success alert. */
    method AcknowledgeSuccess()
      modifies this`currentPassword, this`newPassword, this`confirmPassword, this`showChangePassword
      ensures currentPassword == "" && newPassword == "" && confirmPassword == "" && !showChangePassword
      ensures CheckPasswords(currentPassword, newPassword, confirmPassword) == FillAll
    {
      currentPassword, newPassword, confirmPassword := "", "", "";
      showChangePassword := false;
    }

    /** `handleSaveNotifications()`: the preferences are kept on the screen only. */
    method HandleSaveNotifications()
      modifies this`loading
      ensures !loading
    {
      loading := true;
      loading := false;
    }
  }
}
