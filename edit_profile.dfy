/** The edit-profile screen: four fields seeded from the signed-in user, a
    non-blank check, and a save that merges exactly those four fields into
    the profile. */
module EditProfile {
  import opened Common
  import opened Auth

  /** The form's four fields. */
  datatype Fields = Fields(firstName: string, lastName: string, email: string, phoneNumber: string)

  /** `user?.firstName || ''` and likewise: each field starts from the
      signed-in user's value, or empty when there is no user or no value. */
  function InitialFields(user: Option<User>): (r: Fields)
    ensures user.None? ==> r == Fields("", "", "", "")
    ensures user.Some? ==> r.firstName == user.value.firstName && r.lastName == user.value.lastName
    ensures user.Some? ==> r.email == user.value.email.GetOr("") && r.phoneNumber == user.value.phoneNumber.GetOr("")
  {
    if user.None? then Fields("", "", "", "")
    else Fields(user.value.firstName, user.value.lastName, user.value.email.GetOr(""), user.value.phoneNumber.GetOr(""))
  }

  /** `isFormValid`: all four fields non-blank after trimming. */
  predicate FormValid(f: Fields) {
    !IsBlank(f.firstName) && !IsBlank(f.lastName) && !IsBlank(f.email) && !IsBlank(f.phoneNumber)
  }

  /** A phone-only user (no e-mail) cannot save the form as it opens. */
  lemma PhoneUserMustAddEmail(phone: string)
    ensures !FormValid(InitialFields(Some(PhoneUser(phone))))
  {
    assert IsBlank([]);
  }

  /** The `updateProfile` payload: the four fields as typed, untrimmed. */
  function SavePatch(f: Fields): ProfilePatch {
    NoChanges.(firstName := Some(f.firstName), lastName := Some(f.lastName),
               email := Some(f.email), phoneNumber := Some(f.phoneNumber))
  }

  /** Saving replaces the four fields with the typed values, surrounding
      whitespace included, and keeps the user's id and address list. */
  lemma SaveKeepsIdAndAddresses(u: User, f: Fields)
    ensures var r := Merge(u, SavePatch(f));
      && r.id == u.id && r.addresses == u.addresses
      && r.firstName == f.firstName && r.lastName == f.lastName
      && r.email == Some(f.email) && r.phoneNumber == Some(f.phoneNumber)
  {
  }

  /** Saving the form unedited changes nothing for a user with both an
      e-mail and a phone number. */
  lemma SaveUnedited(u: User)
    requires u.email.Some? && u.phoneNumber.Some?
    ensures Merge(u, SavePatch(InitialFields(Some(u)))) == u
  {
  }

  /** `toUpperCase()` of one character, for the ASCII letters. */
  function UpperAscii(c: char): (r: char)
    ensures 'a' <= c <= 'z' ==> 'A' <= r <= 'Z' && r as int - c as int == 'A' as int - 'a' as int
    ensures !('a' <= c <= 'z') ==> r == c
  {
    if 'a' <= c <= 'z' then (c as int - 'a' as int + 'A' as int) as char else c
  }

  /** `s[0]?.toUpperCase()`: nothing for an empty string. */
  function Initial(s: string): (r: string)
    ensures |r| == if s == [] then 0 else 1
  {
    if s == [] then [] else [UpperAscii(s[0])]
  }

  /** The avatar text: the upper-cased first letters of the two names. */
  function Initials(f: Fields): (r: string)
    ensures |r| <= 2
    ensures f.firstName != [] && f.lastName != [] ==> r == [UpperAscii(f.firstName[0]), UpperAscii(f.lastName[0])]
  {
    Initial(f.firstName) + Initial(f.lastName)
  }

  /** Upper-casing is idempotent, so the initials of upper-cased names are the same. */
  lemma UpperAsciiIdempotent(c: char)
    ensures UpperAscii(UpperAscii(c)) == UpperAscii(c)
  {
  }

  /** `disabled={loading || !isFormValid}` */
  predicate SaveEnabled(loading: bool, f: Fields) {
    !(loading || !FormValid(f))
  }

  /** The screen's state cells. */
  class EditProfileScreen {
    const auth: Session
    var fields: Fields
    var loading: bool

    constructor (auth: Session)
      ensures this.auth == auth && fields == InitialFields(auth.user) && !loading
    {
      this.auth := auth;
      fields := InitialFields(auth.user);
      loading := false;
    }

    /** `handleSave()`: an incomplete form only raises an alert; otherwise the
        four fields are merged into the profile when the call resolves. */
    method HandleSave(reply: Reply) returns (saved: bool)
      requires auth.Valid()
      modifies this`loading, auth
      ensures saved == (FormValid(fields) && reply.Resolved?)
      ensures !FormValid(fields) ==> unchanged(auth) && loading == old(loading)
      ensures FormValid(fields) ==> !loading && auth.Valid() && auth.userToken == old(auth.userToken)
                                    && auth.isSignout == old(auth.isSignout)
      ensures saved ==> !auth.isLoading
      ensures !saved ==> unchanged(auth)
      ensures auth.user == if saved then MergeInto(old(auth.user), SavePatch(fields)) else old(auth.user)
    {
      if !FormValid(fields) {
        return false;
      }
      loading := true;
      saved := reply.Resolved?;
      if saved {
        auth.UpdateProfile(SavePatch(fields));
      }
      loading := false;
    }
  }
}
