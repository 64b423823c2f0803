/** The forgot-password screen: a four-step flow (e-mail, code, new password,
    done) whose handlers check their form, call the auth provider and move to
    the next step only when the call resolves. */
module ForgotPassword {
  import opened Common
  import opened Auth

  /** `ForgotPasswordStep` */
  datatype Step = Email | Otp | Password | Success

  /** Position of a step in the flow. */
  function Rank(s: Step): nat {
    match s
    case Email => 0
    case Otp => 1
    case Password => 2
    case Success => 3
  }

  /** The buttons that run a handler: "Send Verification Code" (email step),
      "Verify Code" and "Send New Code" (code step), "Reset Password". */
  datatype Action = SendCode | VerifyCode | ResendCode | ResetPassword

  /** Which buttons each step renders; the done step only navigates away. */
  predicate Shown(s: Step, a: Action) {
    match a
    case SendCode => s == Email
    case VerifyCode | ResendCode => s == Otp
    case ResetPassword => s == Password
  }

  /** The step a handler sets when its call resolves, whatever the current step. */
  function Target(a: Action): Step {
    match a
    case SendCode | ResendCode => Otp
    case VerifyCode => Password
    case ResetPassword => Success
  }

  /** Pressing a button the current step shows either keeps the step (asking
      for a new code) or moves exactly one step forward: the flow never goes
      back and never skips a step. */
  lemma NeverBackwards(s: Step, a: Action)
    requires Shown(s, a)
    ensures Target(a) == s || Rank(Target(a)) == Rank(s) + 1
    ensures Target(a) == s <==> a == ResendCode
  {
  }

  /** The only forward moves are email to code, code to password and password to done. */
  lemma ForwardMoves(s: Step, a: Action)
    requires Shown(s, a) && Target(a) != s
    ensures (s, Target(a)) in {(Email, Otp), (Otp, Password), (Password, Success)}
  {
  }

  /** `isEmailValid` */
  predicate EmailValid(email: string) {
    HasAtAndDot(email)
  }

  /** `isOtpValid`: exactly six characters. */
  predicate OtpValid(otp: string) {
    |otp| == 6
  }

  /** `isPasswordValid`: at least six characters. */
  predicate PasswordValid(newPassword: string) {
    |newPassword| >= 6
  }

  /** `isPasswordMatch`: equal and not empty. */
  predicate PasswordMatch(newPassword: string, confirmPassword: string) {
    newPassword == confirmPassword && |newPassword| > 0
  }

  /** The check each handler runs before calling the provider. */
  predicate Passes(a: Action, email: string, otp: string, newPassword: string, confirmPassword: string) {
    match a
    case SendCode | ResendCode => EmailValid(email)
    case VerifyCode => OtpValid(otp)
    case ResetPassword => PasswordValid(newPassword) && PasswordMatch(newPassword, confirmPassword)
  }

  /** Whether a button can be pressed: each passes its own `disabled`
      expression and, except "Send New Code", the `loading` flag. */
  predicate Enabled(a: Action, email: string, otp: string, newPassword: string, confirmPassword: string, loading: bool) {
    match a
    case SendCode => ButtonPressable(!EmailValid(email) || loading, loading)
    case VerifyCode => ButtonPressable(!OtpValid(otp) || loading, loading)
    case ResendCode => ButtonPressable(loading, false)
    case ResetPassword => ButtonPressable(!PasswordValid(newPassword) || !PasswordMatch(newPassword, confirmPassword) || loading, loading)
  }

  /** Every pressable button but "Send New Code" passes its handler's check,
      so its error alert can only come from a failing call. */
  lemma EnabledPasses(a: Action, email: string, otp: string, newPassword: string, confirmPassword: string, loading: bool)
    requires a != ResendCode && Enabled(a, email, otp, newPassword, confirmPassword, loading)
    ensures Passes(a, email, otp, newPassword, confirmPassword) && !loading
  {
  }

  /** The reset check accepts exactly the passwords of six characters or more
      that the confirmation repeats. */
  lemma ResetCheck(newPassword: string, confirmPassword: string)
    ensures Passes(ResetPassword, "", "", newPassword, confirmPassword)
        <==> |newPassword| >= 6 && confirmPassword == newPassword
  {
  }

  /** The alert of a handler whose check failed. */
  function CheckMessage(a: Action): string {
    match a
    case SendCode | ResendCode => "Please enter a valid email address"
    case VerifyCode => "Please enter a valid 6-digit code"
    case ResetPassword => "Passwords do not match or are too short"
  }

  /** The alert of a handler whose call rejected with something that is not an `Error`. */
  function CallFallback(a: Action): string {
    match a
    case SendCode | ResendCode => "Failed to send OTP"
    case VerifyCode => "Invalid code. Please try again."
    case ResetPassword => "Failed to reset password"
  }

  /** The screen's state cells. */
  class ForgotPasswordScreen {
    const auth: Session
    var step: Step
    var email: string
    var otp: string
    var newPassword: string
    var confirmPassword: string
    var loading: bool
    var error: string
    var successMessage: string

    /** The flow starts at the e-mail step with empty fields. */
    constructor (auth: Session)
      ensures this.auth == auth && step == Email
      ensures email == "" && otp == "" && newPassword == "" && confirmPassword == ""
      ensures !loading && error == "" && successMessage == ""
    {
      this.auth := auth;
      step := Email;
      email, otp, newPassword, confirmPassword := "", "", "", "";
      loading, error, successMessage := false, "", "";
    }

    /** What every handler does around its own call: a failed check only sets
        the check's alert; a passing one clears the alert, and afterwards the
        step is the action's target if the call resolved, the alert the call's
        error if it rejected, and `loading` false either way. */
    twostate predicate Handled(a: Action, reply: Reply)
      reads this
    {
      var ok := Passes(a, old(email), old(otp), old(newPassword), old(confirmPassword));
      && email == old(email) && otp == old(otp)
      && newPassword == old(newPassword) && confirmPassword == old(confirmPassword)
      && (!ok ==> error == CheckMessage(a) && step == old(step) && loading == old(loading))
      && (ok ==> !loading)
      && (ok && reply.Resolved? ==> step == Target(a) && error == "")
      && (ok && reply.Rejected? ==> step == old(step) && error == ErrorText(reply, CallFallback(a)))
    }

    /** `handleSendOTP()`, behind both "Send Verification Code" and "Send New
        Code" (whose check, target and alerts are those of `SendCode`). */
    method HandleSendOTP(reply: Reply)
      modifies this`step, this`loading, this`error, this`successMessage, auth
      ensures Handled(SendCode, reply)
      ensures !EmailValid(old(email)) ==> unchanged(auth) && successMessage == old(successMessage)
      ensures EmailValid(old(email)) && reply.Resolved? ==>
                successMessage == "We've sent a 6-digit code to " + email + ". Please check your email."
      ensures reply.Rejected? ==> unchanged(auth) && successMessage == old(successMessage)
      ensures auth.userToken == old(auth.userToken) && auth.user == old(auth.user) && auth.isSignout == old(auth.isSignout)
    {
      if !EmailValid(email) {
        error := CheckMessage(SendCode);
        return;
      }
      error := "";
      loading := true;
      if reply.Resolved? {
        auth.SendOTP(email);
        step := Otp;
        successMessage := "We've sent a 6-digit code to " + email + ". Please check your email.";
      } else {
        error := ErrorText(reply, CallFallback(SendCode));
      }
      loading := false;
    }

    /** `handleVerifyOTP()`: any six-character code is sent on. */
    method HandleVerifyOTP(reply: Reply)
      modifies this`step, this`loading, this`error, this`successMessage, auth
      ensures Handled(VerifyCode, reply)
      ensures !OtpValid(old(otp)) ==> unchanged(auth) && successMessage == old(successMessage)
      ensures OtpValid(old(otp)) && reply.Resolved? ==> successMessage == ""
      ensures reply.Rejected? ==> unchanged(auth) && successMessage == old(successMessage)
      ensures auth.userToken == old(auth.userToken) && auth.user == old(auth.user) && auth.isSignout == old(auth.isSignout)
    {
      if !OtpValid(otp) {
        error := CheckMessage(VerifyCode);
        return;
      }
      error := "";
      loading := true;
      if reply.Resolved? {
        auth.VerifyOTP(email, otp);
        step := Password;
        successMessage := "";
      } else {
        error := ErrorText(reply, CallFallback(VerifyCode));
      }
      loading := false;
    }

    /** `handleResetPassword()` */
    method HandleResetPassword(reply: Reply)
      modifies this`step, this`loading, this`error, auth
      ensures Handled(ResetPassword, reply) && successMessage == old(successMessage)
      ensures !Passes(ResetPassword, old(email), old(otp), old(newPassword), old(confirmPassword)) || reply.Rejected? ==> unchanged(auth)
      ensures auth.userToken == old(auth.userToken) && auth.user == old(auth.user) && auth.isSignout == old(auth.isSignout)
    {
      if !(PasswordValid(newPassword) && PasswordMatch(newPassword, confirmPassword)) {
        error := CheckMessage(ResetPassword);
        return;
      }
      error := "";
      loading := true;
      if reply.Resolved? {
        auth.ResetPassword(email, otp, newPassword);
        step := Success;
      } else {
        error := ErrorText(reply, CallFallback(ResetPassword));
      }
      loading := false;
    }
  }
}
