/** The address book screen: add, delete and set-default over the signed-in
    user's address list, each written back through `updateProfile`. Together
    the three transforms keep one address marked default: the first address
    added becomes the default, deleting the default promotes the first
    survivor, and set-default is exclusive. */
module Addresses {
  import opened Common
  import opened Auth

  /** `user?.addresses || []` */
  function CurrentAddresses(user: Option<User>): seq<Address> {
    if user.Some? then user.value.addresses else []
  }

  /** `street.trim() && city.trim() && zip.trim() && country.trim()` */
  predicate IsFormValid(street: string, city: string, zip: string, country: string) {
    !IsBlank(street) && !IsBlank(city) && !IsBlank(zip) && !IsBlank(country)
  }

  /** The form is complete exactly when each of its four fields has a
      character that is not whitespace. */
  lemma FormValidIffVisible(street: string, city: string, zip: string, country: string)
    ensures IsFormValid(street, city, zip, country)
            <==> HasVisible(street) && HasVisible(city) && HasVisible(zip) && HasVisible(country)
  {
    BlankIffAllWhitespace(street); BlankIffAllWhitespace(city);
    BlankIffAllWhitespace(zip); BlankIffAllWhitespace(country);
  }

  /** `addr-${Date.now()}`, with the clock reading as a parameter. */
  function NewAddressId(now: nat): string {
    "addr-" + NatToDecimal(now)
  }

  /** `[...addresses, newAddress]`: the new address is the default exactly when
      the list was empty. */
  function AddAddress(addresses: seq<Address>, id: string, street: string, city: string, zip: string, country: string): (r: seq<Address>)
    ensures |r| == |addresses| + 1 && r[..|addresses|] == addresses
    ensures r[|addresses|].id == id && r[|addresses|].street == street && r[|addresses|].city == city
            && r[|addresses|].zip == zip && r[|addresses|].country == country
    ensures DefaultCount(r) == if addresses == [] then 1 else DefaultCount(addresses)
  {
    DefaultCountAppend(addresses, [Address(id, street, city, zip, country, |addresses| == 0)]);
    addresses + [Address(id, street, city, zip, country, |addresses| == 0)]
  }

  /** Some address carries id `id`. */
  predicate HasAddress(addresses: seq<Address>, id: string) {
    exists k :: 0 <= k < |addresses| && addresses[k].id == id
  }

  /** The address with id `id` is marked default:
      `addresses.find((a) => a.id === id && a.isDefault)` finds something. */
  predicate IsDefaultId(addresses: seq<Address>, id: string) {
    exists k :: 0 <= k < |addresses| && addresses[k].id == id && addresses[k].isDefault
  }

  /** No id occurs twice. */
  predicate DistinctIds(addresses: seq<Address>) {
    forall j, k :: 0 <= j < k < |addresses| ==> addresses[j].id != addresses[k].id
  }

  /** `addresses.filter((a) => a.id !== id)` */
  function RemoveAddress(addresses: seq<Address>, id: string): (r: seq<Address>)
    ensures |r| <= |addresses|
    ensures !HasAddress(r, id)
    ensures forall k :: 0 <= k < |r| ==> r[k] in addresses
    ensures forall k :: 0 <= k < |addresses| && addresses[k].id != id ==> addresses[k] in r
  {
    if addresses == [] then []
    else if addresses[0].id == id then RemoveAddress(addresses[1..], id)
    else [addresses[0]] + RemoveAddress(addresses[1..], id)
  }

  /** The list `handleDeleteAddress(id)` stores: the survivors, with the first
      one marked default when the deleted address was the default. */
  function DeleteAddress(addresses: seq<Address>, id: string): (r: seq<Address>)
    ensures |r| == |RemoveAddress(addresses, id)|
    ensures !HasAddress(r, id)
    ensures forall k :: 0 < k < |r| ==> r[k] in addresses
  {
    var survivors := RemoveAddress(addresses, id);
    if |survivors| > 0 && IsDefaultId(addresses, id) then
      [survivors[0].(isDefault := true)] + survivors[1..]
    else survivors
  }

  /** `addresses.map((a) => ({ ...a, isDefault: a.id === id }))` */
  function SetDefault(addresses: seq<Address>, id: string): (r: seq<Address>)
    ensures |r| == |addresses|
    ensures forall k :: 0 <= k < |addresses| ==> r[k] == addresses[k].(isDefault := addresses[k].id == id)
  {
    if addresses == [] then []
    else [addresses[0].(isDefault := addresses[0].id == id)] + SetDefault(addresses[1..], id)
  }

  /** How many addresses are marked default. */
  function DefaultCount(addresses: seq<Address>): nat {
    if addresses == [] then 0
    else (if addresses[0].isDefault then 1 else 0) + DefaultCount(addresses[1..])
  }

  /** The address-book rule: exactly one address is the default. */
  predicate OneDefault(addresses: seq<Address>) {
    DefaultCount(addresses) == 1
  }

  // ---------------------------------------------------------------------------
  // add

  lemma {:induction false} DefaultCountAppend(a: seq<Address>, b: seq<Address>)
    ensures DefaultCount(a + b) == DefaultCount(a) + DefaultCount(b)
  {
    if a == [] {
      assert a + b == b;
    } else {
      assert (a + b)[0] == a[0] && (a + b)[1..] == a[1..] + b;
      DefaultCountAppend(a[1..], b);
    }
  }

  /** Adding appends exactly one address at the end; it is the default exactly
      when the list was empty, so an empty list or a list with one default
      ends up with exactly one default. */
  lemma AddKeepsOneDefault(addresses: seq<Address>, id: string, street: string, city: string, zip: string, country: string)
    requires addresses == [] || OneDefault(addresses)
    ensures var r := AddAddress(addresses, id, street, city, zip, country);
      && |r| == |addresses| + 1 && r[..|addresses|] == addresses
      && r[|addresses|].isDefault == (addresses == [])
      && OneDefault(r)
  {
    var r := AddAddress(addresses, id, street, city, zip, country);
    DefaultCountAppend(addresses, [r[|addresses|]]);
    assert r == addresses + [r[|addresses|]];
  }

  /** Ids drawn from two different clock readings never collide. */
  lemma NewAddressIdsDiffer(m: nat, n: nat)
    requires m != n
    ensures NewAddressId(m) != NewAddressId(n)
  {
    DecimalInjective(m, n);
    var a, b := NewAddressId(m), NewAddressId(n);
    assert a[5..] == NatToDecimal(m) && b[5..] == NatToDecimal(n);
  }

  // ---------------------------------------------------------------------------
  // delete

  /** With no address carrying `id`, the filter keeps everything. */
  lemma {:induction false} RemoveAbsent(addresses: seq<Address>, id: string)
    requires !HasAddress(addresses, id)
    ensures RemoveAddress(addresses, id) == addresses
  {
    if addresses != [] {
      RemoveAbsent(addresses[1..], id);
    }
  }

  /** The filter works piecewise, so survivors keep their relative order. */
  lemma {:induction false} RemoveAppend(a: seq<Address>, b: seq<Address>, id: string)
    ensures RemoveAddress(a + b, id) == RemoveAddress(a, id) + RemoveAddress(b, id)
  {
    if a == [] {
      assert a + b == b;
    } else {
      assert (a + b)[0] == a[0] && (a + b)[1..] == a[1..] + b;
      RemoveAppend(a[1..], b, id);
    }
  }

  /** Deleting an address that is not the default only filters: every
      survivor keeps its `isDefault` flag and its place in the order. */
  lemma DeleteNonDefault(addresses: seq<Address>, id: string)
    requires !IsDefaultId(addresses, id)
    ensures DeleteAddress(addresses, id) == RemoveAddress(addresses, id)
  {
  }

  /** Deleting the default address while others remain makes the first
      survivor the default and changes nothing else about the survivors. */
  lemma DeleteDefault(addresses: seq<Address>, id: string)
    requires IsDefaultId(addresses, id)
    requires |RemoveAddress(addresses, id)| > 0
    ensures var r := DeleteAddress(addresses, id);
      var s := RemoveAddress(addresses, id);
      && |r| == |s| && r[0] == s[0].(isDefault := true) && r[1..] == s[1..]
  {
  }

  /** With distinct ids, deleting the address at index `k` drops exactly that
      address and keeps every other one in order. */
  lemma DeleteAt(addresses: seq<Address>, k: nat)
    requires DistinctIds(addresses)
    requires k < |addresses|
    ensures RemoveAddress(addresses, addresses[k].id) == addresses[..k] + addresses[k + 1..]
  {
    OnlyAt(addresses, k);
    SplitAround(addresses, k);
    RemoveBetween(addresses[..k], addresses[k], addresses[k + 1..]);
  }

  /** A list is the part before index `k`, the address at `k`, and the part after. */
  lemma SplitAround(addresses: seq<Address>, k: nat)
    requires k < |addresses|
    ensures addresses == addresses[..k] + [addresses[k]] + addresses[k + 1..]
  {
  }

  /** With distinct ids, the id at index `k` occurs neither before nor after it. */
  lemma OnlyAt(addresses: seq<Address>, k: nat)
    requires DistinctIds(addresses)
    requires k < |addresses|
    ensures !HasAddress(addresses[..k], addresses[k].id) && !HasAddress(addresses[k + 1..], addresses[k].id)
  {
    var pre, post := addresses[..k], addresses[k + 1..];
    forall j | 0 <= j < |pre| ensures pre[j].id != addresses[k].id {
      assert pre[j] == addresses[j];
    }
    forall j | 0 <= j < |post| ensures post[j].id != addresses[k].id {
      assert post[j] == addresses[k + 1 + j];
    }
  }

  /** Filtering out the id of an address that occurs only once removes just it. */
  lemma RemoveBetween(pre: seq<Address>, a: Address, post: seq<Address>)
    requires !HasAddress(pre, a.id) && !HasAddress(post, a.id)
    ensures RemoveAddress(pre + [a] + post, a.id) == pre + post
  {
    assert RemoveAddress([a], a.id) == [] by {
      assert [a][1..] == [];
    }
    RemoveAbsent(pre, a.id);
    RemoveAppend(pre, [a], a.id);
    assert RemoveAddress(pre + [a], a.id) == pre;
    RemoveAbsent(post, a.id);
    RemoveAppend(pre + [a], post, a.id);
  }

  /** The filter drops as many defaults as the list has default addresses
      with that id. */
  lemma {:induction false} RemoveDefaultCount(addresses: seq<Address>, id: string)
    ensures DefaultCount(RemoveAddress(addresses, id)) <= DefaultCount(addresses)
    ensures !IsDefaultId(addresses, id) ==> DefaultCount(RemoveAddress(addresses, id)) == DefaultCount(addresses)
    ensures IsDefaultId(addresses, id) ==> DefaultCount(RemoveAddress(addresses, id)) < DefaultCount(addresses)
  {
    if addresses != [] {
      var rest := addresses[1..];
      RemoveDefaultCount(rest, id);
      assert IsDefaultId(rest, id) ==> IsDefaultId(addresses, id) by {
        if IsDefaultId(rest, id) {
          var k :| 0 <= k < |rest| && rest[k].id == id && rest[k].isDefault;
          assert addresses[k + 1] == rest[k];
        }
      }
      if addresses[0].id != id {
        assert RemoveAddress(addresses, id) == [addresses[0]] + RemoveAddress(rest, id);
        assert IsDefaultId(addresses, id) ==> IsDefaultId(rest, id) by {
          if IsDefaultId(addresses, id) {
            var k :| 0 <= k < |addresses| && addresses[k].id == id && addresses[k].isDefault;
            assert rest[k - 1] == addresses[k];
          }
        }
      }
    }
  }

  /** Deleting keeps exactly one default whenever an address survives. */
  lemma DeleteKeepsOneDefault(addresses: seq<Address>, id: string)
    requires OneDefault(addresses)
    requires |RemoveAddress(addresses, id)| > 0
    ensures OneDefault(DeleteAddress(addresses, id))
  {
    var s := RemoveAddress(addresses, id);
    RemoveDefaultCount(addresses, id);
    if IsDefaultId(addresses, id) {
      assert DefaultCount(s) == 0;
      assert DefaultCount(s[1..]) == 0;
      assert DeleteAddress(addresses, id)[1..] == s[1..];
    }
  }

  // ---------------------------------------------------------------------------
  // set default

  /** How many addresses carry id `id`. */
  function IdCount(addresses: seq<Address>, id: string): nat {
    if addresses == [] then 0
    else (if addresses[0].id == id then 1 else 0) + IdCount(addresses[1..], id)
  }

  /** Set-default marks exactly the addresses carrying `id`. */
  lemma {:induction false} SetDefaultCount(addresses: seq<Address>, id: string)
    ensures DefaultCount(SetDefault(addresses, id)) == IdCount(addresses, id)
  {
    if addresses != [] {
      assert SetDefault(addresses, id)[1..] == SetDefault(addresses[1..], id);
      SetDefaultCount(addresses[1..], id);
    }
  }

  /** With distinct ids, the id of address `k` occurs exactly once. */
  lemma {:induction false} DistinctIdCount(addresses: seq<Address>, k: nat)
    requires DistinctIds(addresses)
    requires k < |addresses|
    ensures IdCount(addresses, addresses[k].id) == 1
  {
    var id := addresses[k].id;
    var rest := addresses[1..];
    if k == 0 {
      IdCountAbsent(rest, id);
    } else {
      assert rest[k - 1] == addresses[k];
      DistinctIdCount(rest, k - 1);
    }
  }

  lemma {:induction false} IdCountAbsent(addresses: seq<Address>, id: string)
    requires !HasAddress(addresses, id)
    ensures IdCount(addresses, id) == 0
  {
    if addresses != [] {
      IdCountAbsent(addresses[1..], id);
    }
  }

  /** With distinct ids, setting a present id as default leaves exactly one
      default: that address. */
  lemma SetDefaultKeepsOneDefault(addresses: seq<Address>, k: nat)
    requires DistinctIds(addresses)
    requires k < |addresses|
    ensures OneDefault(SetDefault(addresses, addresses[k].id))
    ensures SetDefault(addresses, addresses[k].id)[k].isDefault
  {
    SetDefaultCount(addresses, addresses[k].id);
    DistinctIdCount(addresses, k);
  }

  // ---------------------------------------------------------------------------
  // the screen

  /** The signed-in user once a new address built from the form has been
      appended to their list; no user stays no user. */
  function UserWithAddress(user: Option<User>, now: nat, street: string, city: string, zip: string, country: string): (r: Option<User>)
    ensures r.None? <==> user.None?
    ensures r.Some? ==> r.value.addresses
                        == AddAddress(user.value.addresses, NewAddressId(now), street, city, zip, country)
  {
    MergeInto(user, AddressesPatch(AddAddress(CurrentAddresses(user), NewAddressId(now), street, city, zip, country)))
  }

  /** The address book screen and its form cells. */
  class AddressesScreen {
    const auth: Session
    var street: string
    var city: string
    var zip: string
    var country: string
    var showAddForm: bool
    var loading: bool

    constructor (auth: Session)
      ensures this.auth == auth
      ensures street == "" && city == "" && zip == "" && country == "Ghana"
      ensures !showAddForm && !loading
    {
      this.auth := auth;
      street, city, zip, country := "", "", "", "Ghana";
      showAddForm, loading := false, false;
    }

    /** `handleAddAddress()`, `now` standing for `Date.now()`. An incomplete
        form only raises an alert; otherwise the list with the new address is
        written to the profile and the form is reset. */
    method HandleAddAddress(now: nat, reply: Reply) returns (added: bool)
      requires auth.Valid()
      modifies this`street, this`city, this`zip, this`country, this`showAddForm, this`loading, auth
      ensures auth.Valid() && auth.userToken == old(auth.userToken) && auth.isSignout == old(auth.isSignout)
      ensures if IsFormValid(old(street), old(city), old(zip), old(country))
              then added == reply.Resolved? && !loading
              else !added && loading == old(loading)
      ensures added ==> auth.user == UserWithAddress(old(auth.user), now, old(street), old(city), old(zip), old(country))
                        && !auth.isLoading
      ensures !added ==> auth.user == old(auth.user) && auth.isLoading == old(auth.isLoading)
      ensures added ==> street == "" && city == "" && zip == "" && country == "Ghana" && !showAddForm
      ensures !added ==> street == old(street) && city == old(city) && zip == old(zip)
                         && country == old(country) && showAddForm == old(showAddForm)
    {
      if !IsFormValid(street, city, zip, country) {
        return false;
      }
      added := SubmitForm(now, reply);
    }

    /** The part of `handleAddAddress()` past the form check: the request is
        in flight while `loading` is raised, and only a resolved write stores
        the new list and resets the form. */
    method SubmitForm(now: nat, reply: Reply) returns (added: bool)
      requires auth.Valid()
      modifies this`street, this`city, this`zip, this`country, this`showAddForm, this`loading, auth
      ensures auth.Valid() && auth.userToken == old(auth.userToken) && auth.isSignout == old(auth.isSignout)
      ensures added == reply.Resolved? && !loading
      ensures added ==> auth.user == UserWithAddress(old(auth.user), now, old(street), old(city), old(zip), old(country))
                        && !auth.isLoading
      ensures !added ==> auth.user == old(auth.user) && auth.isLoading == old(auth.isLoading)
      ensures added ==> street == "" && city == "" && zip == "" && country == "Ghana" && !showAddForm
      ensures !added ==> street == old(street) && city == old(city) && zip == old(zip)
                         && country == old(country) && showAddForm == old(showAddForm)
    {
      loading := true;
      added := reply.Resolved?;
      if added {
        auth.UpdateProfile(AddressesPatch(AddAddress(CurrentAddresses(auth.user), NewAddressId(now), street, city, zip, country)));
        ResetForm();
      }
      loading := false;
    }

    /** Empties the form, back to its initial values, and collapses it. */
    method ResetForm()
      modifies this`street, this`city, this`zip, this`country, this`showAddForm
      ensures street == "" && city == "" && zip == "" && country == "Ghana" && !showAddForm
    {
      street, city, zip, country := "", "", "", "Ghana";
      showAddForm := false;
    }

    /** The "Delete" button of `handleDeleteAddress(id)`'s confirmation
        dialog (Cancel does nothing). */
    method HandleDeleteAddress(id: string, reply: Reply)
      requires auth.Valid()
      modifies this`loading, auth
      ensures auth.Valid() && !loading && auth.userToken == old(auth.userToken) && auth.isSignout == old(auth.isSignout)
      ensures auth.user == if reply.Resolved?
                           then MergeInto(old(auth.user), AddressesPatch(DeleteAddress(CurrentAddresses(old(auth.user)), id)))
                           else old(auth.user)
      ensures reply.Resolved? ==> !auth.isLoading
      ensures reply.Rejected? ==> unchanged(auth)
    {
      loading := true;
      var addresses := CurrentAddresses(auth.user);
      var updated := DeleteAddress(addresses, id);
      if reply.Resolved? {
        auth.UpdateProfile(AddressesPatch(updated));
      }
      loading := false;
    }

    /** `handleSetDefault(id)` */
    method HandleSetDefault(id: string, reply: Reply)
      requires auth.Valid()
      modifies this`loading, auth
      ensures auth.Valid() && !loading && auth.userToken == old(auth.userToken) && auth.isSignout == old(auth.isSignout)
      ensures auth.user == if reply.Resolved?
                           then MergeInto(old(auth.user), AddressesPatch(SetDefault(CurrentAddresses(old(auth.user)), id)))
                           else old(auth.user)
      ensures reply.Resolved? ==> !auth.isLoading
      ensures reply.Rejected? ==> unchanged(auth)
    {
      loading := true;
      var addresses := CurrentAddresses(auth.user);
      var updated := SetDefault(addresses, id);
      if reply.Resolved? {
        auth.UpdateProfile(AddressesPatch(updated));
      }
      loading := false;
    }
  }
}
