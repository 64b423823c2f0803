/** The auth provider: four state cells (`isLoading`, `userToken`, `user`,
    `isSignout`) that each operation sets in turn, with `isLoading` raised on
    entry and lowered in `finally`. It is a mock: every operation resolves
    after a delay, no password or one-time code is ever checked, and the only
    pure piece is the profile merge `{ ...prev, ...data }`. */
module Auth {
  import opened Common

  /** A delivery address of a user. The optional `isDefault` flag is only
      ever read for its truthiness, so an absent flag is `false` here. */
  datatype Address = Address(id: string, street: string, city: string, zip: string, country: string, isDefault: bool)

  datatype User = User(
    id: string,
    firstName: string,
    lastName: string,
    email: Option<string>,
    phoneNumber: Option<string>,
    addresses: seq<Address>)

  /** `Partial<User>`: the fields a profile update carries. */
  datatype ProfilePatch = ProfilePatch(
    id: Option<string>,
    firstName: Option<string>,
    lastName: Option<string>,
    email: Option<string>,
    phoneNumber: Option<string>,
    addresses: Option<seq<Address>>)

  /** The patch with no field at all. */
  const NoChanges := ProfilePatch(None, None, None, None, None, None)

  /** A patch that only replaces the address list. */
  function AddressesPatch(addresses: seq<Address>): ProfilePatch {
    NoChanges.(addresses := Some(addresses))
  }

  /** `{ ...prev, ...data }`: every field present in the patch wins. */
  function Merge(u: User, p: ProfilePatch): User {
    User(
      p.id.GetOr(u.id),
      p.firstName.GetOr(u.firstName),
      p.lastName.GetOr(u.lastName),
      if p.email.Some? then p.email else u.email,
      if p.phoneNumber.Some? then p.phoneNumber else u.phoneNumber,
      p.addresses.GetOr(u.addresses))
  }

  /** The patch applied to the current user, which stays `null` when there is none. */
  function MergeInto(user: Option<User>, p: ProfilePatch): (r: Option<User>)
    ensures r.None? <==> user.None?
  {
    if user.Some? then Some(Merge(user.value, p)) else None
  }

  /** A merge replaces exactly the fields present in the patch and keeps every
      other field of the user. */
  lemma MergeFields(u: User, p: ProfilePatch)
    ensures var r := Merge(u, p);
      && (p.id.Some? ==> r.id == p.id.value) && (p.id.None? ==> r.id == u.id)
      && (p.firstName.Some? ==> r.firstName == p.firstName.value) && (p.firstName.None? ==> r.firstName == u.firstName)
      && (p.lastName.Some? ==> r.lastName == p.lastName.value) && (p.lastName.None? ==> r.lastName == u.lastName)
      && (p.email.Some? ==> r.email == p.email) && (p.email.None? ==> r.email == u.email)
      && (p.phoneNumber.Some? ==> r.phoneNumber == p.phoneNumber) && (p.phoneNumber.None? ==> r.phoneNumber == u.phoneNumber)
      && (p.addresses.Some? ==> r.addresses == p.addresses.value) && (p.addresses.None? ==> r.addresses == u.addresses)
  {
  }

  /** The empty patch changes nothing. */
  lemma MergeNoChanges(u: User)
    ensures Merge(u, NoChanges) == u
  {
  }

  /** Applying the same patch twice is the same as applying it once. */
  lemma MergeIdempotent(u: User, p: ProfilePatch)
    ensures Merge(Merge(u, p), p) == Merge(u, p)
  {
  }

  /** `{ ...p, ...q }`: two patches combined, the later one winning. */
  function Combine(p: ProfilePatch, q: ProfilePatch): ProfilePatch {
    ProfilePatch(
      if q.id.Some? then q.id else p.id,
      if q.firstName.Some? then q.firstName else p.firstName,
      if q.lastName.Some? then q.lastName else p.lastName,
      if q.email.Some? then q.email else p.email,
      if q.phoneNumber.Some? then q.phoneNumber else p.phoneNumber,
      if q.addresses.Some? then q.addresses else p.addresses)
  }

  /** Two successive updates amount to one update with the combined patch. */
  lemma MergeTwice(u: User, p: ProfilePatch, q: ProfilePatch)
    ensures Merge(Merge(u, p), q) == Merge(u, Combine(p, q))
  {
  }

  /** The user `signIn(email, _)` installs. */
  function EmailUser(email: string): User {
    User("1", "John", "Doe", Some(email), None, [])
  }

  /** The user `signInWithPhone(phone, _)` installs. */
  function PhoneUser(phone: string): User {
    User("2", "Guest", "User", None, Some(phone), [])
  }

  /** The user `signUp(...)` installs. */
  function NewUser(firstName: string, lastName: string, email: string, phoneNumber: Option<string>): User {
    User("new-user", firstName, lastName, Some(email), phoneNumber, [])
  }

  /** The auth provider with its four state cells. */
  class Session {
    var isLoading: bool
    var userToken: Option<string>
    var user: Option<User>
    var isSignout: bool

    /** A token is held exactly when a user is signed in. */
    predicate Valid()
      reads this
    {
      userToken.None? <==> user.None?
    }

    constructor ()
      ensures !isLoading && userToken == None && user == None && !isSignout
      ensures Valid()
    {
      isLoading, userToken, user, isSignout := false, None, None, false;
    }

    /** `signIn(email, password)`: the password is never consulted. */
    method SignIn(email: string, password: string)
      modifies this
      ensures userToken == Some("mock-token") && user == Some(EmailUser(email)) && !isSignout
      ensures !isLoading && Valid()
    {
      isLoading := true;
      userToken := Some("mock-token");
      user := Some(EmailUser(email));
      isSignout := false;
      isLoading := false;
    }

    /** `signInWithPhone(phone, otp)`: the code is never consulted. */
    method SignInWithPhone(phone: string, otp: string)
      modifies this
      ensures userToken == Some("mock-token-phone") && user == Some(PhoneUser(phone)) && !isSignout
      ensures !isLoading && Valid()
    {
      isLoading := true;
      userToken := Some("mock-token-phone");
      user := Some(PhoneUser(phone));
      isSignout := false;
      isLoading := false;
    }

    /** `signUp(firstName, lastName, email, password, phoneNumber?)`: the
        password is not stored anywhere. */
    method SignUp(firstName: string, lastName: string, email: string, password: string, phoneNumber: Option<string>)
      modifies this
      ensures userToken == Some("mock-token") && user == Some(NewUser(firstName, lastName, email, phoneNumber))
      ensures !isSignout && !isLoading && Valid()
    {
      isLoading := true;
      userToken := Some("mock-token");
      user := Some(NewUser(firstName, lastName, email, phoneNumber));
      isSignout := false;
      isLoading := false;
    }

    /** `signOut()` */
    method SignOut()
      modifies this
      ensures userToken == None && user == None && isSignout
      ensures !isLoading && Valid()
    {
      isLoading := true;
      userToken := None;
      user := None;
      isSignout := true;
      isLoading := false;
    }

    /** `sendOTP(email)`: a delay and nothing else. */
    method SendOTP(email: string)
      modifies this
      ensures userToken == old(userToken) && user == old(user) && isSignout == old(isSignout)
      ensures !isLoading
    {
      isLoading := true;
      isLoading := false;
    }

    /** `verifyOTP(email, otp)`: a delay and nothing else; any code passes. */
    method VerifyOTP(email: string, otp: string)
      modifies this
      ensures userToken == old(userToken) && user == old(user) && isSignout == old(isSignout)
      ensures !isLoading
    {
      isLoading := true;
      isLoading := false;
    }

    /** `resetPassword(email, otp, newPassword)`: a delay and nothing else. */
    method ResetPassword(email: string, otp: string, newPassword: string)
      modifies this
      ensures userToken == old(userToken) && user == old(user) && isSignout == old(isSignout)
      ensures !isLoading
    {
      isLoading := true;
      isLoading := false;
    }

    /** `updateProfile(data)`: merges the patch into the current user. */
    method UpdateProfile(data: ProfilePatch)
      requires Valid()
      modifies this
      ensures user == MergeInto(old(user), data)
      ensures userToken == old(userToken) && isSignout == old(isSignout)
      ensures !isLoading && Valid()
    {
      isLoading := true;
      user := MergeInto(user, data);
      isLoading := false;
    }
  }
}
