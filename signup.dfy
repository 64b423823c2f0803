/** The sign-up screen: seven field checks gate the button, and the submit
    hands the fields to the provider's `signUp`. */
module Signup {
  import opened Common
  import opened Auth

  /** `isPasswordMatch`: equal and not empty. */
  predicate PasswordMatch(password: string, confirmPassword: string) {
    password == confirmPassword && |password| > 0
  }

  /** `isFormValid`: both names non-blank, an e-mail with '@' and '.', a phone
      number of eight characters, a password of six that the confirmation
      repeats, the terms accepted, and nothing loading. */
  predicate FormValid(firstName: string, lastName: string, email: string, phoneNumber: string,
                      password: string, confirmPassword: string, agreeToTerms: bool, loading: bool) {
    && !IsBlank(firstName)
    && !IsBlank(lastName)
    && HasAtAndDot(email)
    && |phoneNumber| >= 8
    && |password| >= 6
    && PasswordMatch(password, confirmPassword)
    && agreeToTerms
    && !loading
  }

  /** A valid form has names with a non-blank character, a confirmation equal
      to a password of six characters, accepted terms and no pending call;
      the terms box or a pending call alone makes any form invalid. */
  lemma FormValidMeans(firstName: string, lastName: string, email: string, phoneNumber: string,
                       password: string, confirmPassword: string, agreeToTerms: bool, loading: bool)
    ensures FormValid(firstName, lastName, email, phoneNumber, password, confirmPassword, agreeToTerms, loading) ==>
      && (exists k :: 0 <= k < |firstName| && !IsWhitespace(firstName[k]))
      && (exists k :: 0 <= k < |lastName| && !IsWhitespace(lastName[k]))
      && confirmPassword == password && |password| >= 6 && |phoneNumber| >= 8
    ensures !agreeToTerms ==> !FormValid(firstName, lastName, email, phoneNumber, password, confirmPassword, agreeToTerms, loading)
    ensures loading ==> !FormValid(firstName, lastName, email, phoneNumber, password, confirmPassword, agreeToTerms, loading)
  {
    BlankIffAllWhitespace(firstName);
    BlankIffAllWhitespace(lastName);
  }

  /** The match check alone rejects an empty password, even when both fields agree. */
  lemma EmptyPasswordsDoNotMatch()
    ensures !PasswordMatch("", "")
  {
  }

  /** The screen's state cells. */
  class SignupScreen {
    const auth: Session
    var firstName: string
    var lastName: string
    var email: string
    var phoneNumber: string
    var password: string
    var confirmPassword: string
    var agreeToTerms: bool
    var loading: bool
    var error: string

    constructor (auth: Session)
      ensures this.auth == auth && !agreeToTerms && !loading && error == ""
      ensures firstName == "" && lastName == "" && email == "" && phoneNumber == ""
      ensures password == "" && confirmPassword == ""
    {
      this.auth := auth;
      firstName, lastName, email, phoneNumber := "", "", "", "";
      password, confirmPassword := "", "";
      agreeToTerms, loading, error := false, false, "";
    }

    /** `handleSignUp()`: the provider receives the first name, last name,
        e-mail, password and phone number in that order; `loading` is cleared
        in `finally` whatever the outcome. */
    method HandleSignUp(reply: Reply)
      modifies this`loading, this`error, auth
      ensures !loading
      ensures reply.Resolved? ==> error == "" && auth.Valid() && !auth.isSignout
                                  && auth.userToken == Some("mock-token")
                                  && auth.user == Some(NewUser(firstName, lastName, email, Some(phoneNumber)))
      ensures reply.Rejected? ==> error == ErrorText(reply, "An error occurred during sign up") && unchanged(auth)
    {
      error := "";
      loading := true;
      if reply.Resolved? {
        auth.SignUp(firstName, lastName, email, password, Some(phoneNumber));
      } else {
        error := ErrorText(reply, "An error occurred during sign up");
      }
      loading := false;
    }

    /** The terms checkbox. */
    method ToggleTerms()
      modifies this`agreeToTerms
      ensures agreeToTerms == !old(agreeToTerms)
    {
      agreeToTerms := !agreeToTerms;
    }
  }
}
