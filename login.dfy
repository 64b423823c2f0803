/** The login screen: e-mail and password, or phone number and one-time code
    in two submits (the first only pretends to send the code). */
module Login {
  import opened Common
  import opened Auth

  /** `isFormValid`: e-mail mode needs an e-mail with '@' and '.' and a
      password of six characters; phone mode needs an eight-character number,
      and once the code is sent also a code of four characters. */
  predicate FormValid(isPhoneLogin: bool, otpSent: bool, email: string, password: string, phoneNumber: string, otp: string) {
    if isPhoneLogin then
      if otpSent then |phoneNumber| >= 8 && |otp| >= 4 else |phoneNumber| >= 8
    else HasAtAndDot(email) && |password| >= 6
  }

  /** Each mode reads only its own fields: the phone fields never matter in
      e-mail mode, nor the e-mail fields in phone mode, and the code only once
      it was sent. */
  lemma FormValidReadsOwnFields(isPhoneLogin: bool, otpSent: bool, email: string, password: string, phoneNumber: string, otp: string,
                                email': string, password': string, phoneNumber': string, otp': string)
    ensures !isPhoneLogin ==> (FormValid(false, otpSent, email, password, phoneNumber, otp)
                               <==> FormValid(false, otpSent, email, password, phoneNumber', otp'))
    ensures isPhoneLogin ==> (FormValid(true, otpSent, email, password, phoneNumber, otp)
                              <==> FormValid(true, otpSent, email', password', phoneNumber, otp))
    ensures FormValid(true, false, email, password, phoneNumber, otp) <==> FormValid(true, false, email, password, phoneNumber, otp')
  {
  }

  /** Sending the code only adds a requirement: a valid verify form was a valid send form. */
  lemma VerifyStricterThanSend(email: string, password: string, phoneNumber: string, otp: string)
    ensures FormValid(true, true, email, password, phoneNumber, otp) ==> FormValid(true, false, email, password, phoneNumber, otp)
    ensures FormValid(true, true, email, password, phoneNumber, otp) <==> FormValid(true, false, email, password, phoneNumber, otp) && |otp| >= 4
  {
  }

  /** The login button passes `disabled={!isFormValid && !loading}` and
      `loading`; together they let it be pressed exactly when the form is
      valid and nothing is loading. */
  lemma LoginButtonPressable(valid: bool, loading: bool)
    ensures ButtonPressable(!valid && !loading, loading) <==> valid && !loading
  {
  }

  /** The caption of the login button. */
  function ButtonTitle(isPhoneLogin: bool, otpSent: bool): string {
    if isPhoneLogin then (if otpSent then "Verify & Sign In" else "Send OTP") else "Sign In"
  }

  /** The screen's state cells. */
  class LoginScreen {
    const auth: Session
    var isPhoneLogin: bool
    var email: string
    var password: string
    var phoneNumber: string
    var otp: string
    var otpSent: bool
    var loading: bool
    var error: string

    constructor (auth: Session)
      ensures this.auth == auth && !isPhoneLogin && !otpSent && !loading
      ensures email == "" && password == "" && phoneNumber == "" && otp == "" && error == ""
    {
      this.auth := auth;
      isPhoneLogin, otpSent, loading := false, false, false;
      email, password, phoneNumber, otp, error := "", "", "", "", "";
    }

    /** `handleLogin()`. The first phone-mode submit only marks the code as
        sent. Otherwise the sign-in call is made; when it resolves the screen
        navigates away with `loading` still set, when it rejects the error is
        shown and `loading` cleared. */
    method HandleLogin(reply: Reply)
      modifies this`otpSent, this`loading, this`error, auth
      ensures isPhoneLogin && !old(otpSent) ==>
                otpSent && !loading && error == "" && unchanged(auth)
      ensures !(isPhoneLogin && !old(otpSent)) ==> otpSent == old(otpSent)
      ensures !(isPhoneLogin && !old(otpSent)) && reply.Resolved? ==>
                loading && error == "" && auth.Valid() && !auth.isSignout
                && (isPhoneLogin ==> auth.userToken == Some("mock-token-phone") && auth.user == Some(PhoneUser(phoneNumber)))
                && (!isPhoneLogin ==> auth.userToken == Some("mock-token") && auth.user == Some(EmailUser(email)))
      ensures !(isPhoneLogin && !old(otpSent)) && reply.Rejected? ==>
                !loading && error == ErrorText(reply, "An error occurred during login") && unchanged(auth)
    {
      error := "";
      loading := true;
      if isPhoneLogin && !otpSent {
        otpSent := true;
        loading := false;
        return;
      }
      if reply.Rejected? {
        error := ErrorText(reply, "An error occurred during login");
        loading := false;
        return;
      }
      if isPhoneLogin {
        auth.SignInWithPhone(phoneNumber, otp);
      } else {
        auth.SignIn(email, password);
      }
    }

    /** The "Sign in with Phone" / "Sign in with Email" link. */
    method ToggleMethod()
      modifies this`isPhoneLogin, this`otpSent, this`error
      ensures isPhoneLogin == !old(isPhoneLogin) && !otpSent && error == ""
    {
      isPhoneLogin := !isPhoneLogin;
      otpSent := false;
      error := "";
    }

    /** Typing in the phone field, which is read-only once the code is sent. */
    method EditPhone(value: string)
      modifies this`phoneNumber
      ensures phoneNumber == if otpSent then old(phoneNumber) else value
    {
      if !otpSent {
        phoneNumber := value;
      }
    }
  }
}
