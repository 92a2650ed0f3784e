/**
 * The account directory of App.tsx as functions over the account list: the master-landlord
 * seed, session restore, the duplicate-mobile test, login matching, and the list rewrites
 * behind tenant edit and delete.
 */
module Directory {
  import opened Wrappers
  import opened Types
  import opened Seqs

  const MASTER_MOBILE: string := "01757317453"

  /** The fixed seed account (MASTER_LANDLORD); it has no owner. */
  const MasterLandlord: User := User(
    "master-landlord-id", "Happy Home Owner", Some("Happy Home"), Landlord,
    MASTER_MOBILE, Some("12345"), Some(""), None)

  /** The registration form (`authData`); every field is a string, empty when left blank. */
  datatype AuthForm = AuthForm(
    fullName: string,
    propertyName: string,
    mobileNumber: string,
    password: string,
    role: Role,
    profilePicture: string,
    propertyOwnerId: string)

  /** Whether some account already has the mobile number (App.tsx:61, 133). */
  predicate MobileTaken(users: seq<User>, mobile: string): (b: bool)
    ensures b <==> exists i :: 0 <= i < |users| && users[i].mobileNumber == mobile
  {
    Any((u: User) => u.mobileNumber == mobile, users)
  }

  /** No two accounts share a mobile number. */
  predicate MobileUnique(users: seq<User>) {
    forall i, j :: 0 <= i < j < |users| ==> users[i].mobileNumber != users[j].mobileNumber
  }

  predicate IdUnused(users: seq<User>, id: string) {
    forall i :: 0 <= i < |users| ==> users[i].id != id
  }

  /** How many accounts carry a mobile number. */
  function MobileCount(users: seq<User>, mobile: string): nat {
    |Filter((u: User) => u.mobileNumber == mobile, users)|
  }

  /** The account list after the start-up seeding: the master landlord is prepended when no account has its mobile number. */
  function Seeded(users: seq<User>): (r: seq<User>)
    ensures MobileTaken(r, MASTER_MOBILE)
    ensures MobileTaken(users, MASTER_MOBILE) ==> r == users
    ensures !MobileTaken(users, MASTER_MOBILE) ==> r == [MasterLandlord] + users
    ensures |r| == |users| || (|r| == |users| + 1 && r[0] == MasterLandlord)
    ensures r[|r| - |users|..] == users
  {
    if MobileTaken(users, MASTER_MOBILE) then users
    else
      assert ([MasterLandlord] + users)[0].mobileNumber == MASTER_MOBILE;
      [MasterLandlord] + users
  }

  /** The user a stored session id restores: none for an absent or empty id, or an id no account has. */
  function SessionUser(users: seq<User>, saved: Option<string>): (r: Option<User>)
    ensures r.Some? <==> saved.Some? && saved.value != "" && !IdUnused(users, saved.value)
    ensures r.Some? ==> r.value in users && r.value.id == saved.value
  {
    if saved.Some? && saved.value != "" then Find((u: User) => u.id == saved.value, users) else None
  }

  /** The first account with this mobile number and exactly this password (App.tsx:141); an account without a password never matches. */
  function LoginMatch(users: seq<User>, mobile: string, password: string): (r: Option<User>)
    ensures r.None? <==> forall i :: 0 <= i < |users| ==>
                           !(users[i].mobileNumber == mobile && users[i].password == Some(password))
    ensures r.Some? ==> exists i :: 0 <= i < |users| && users[i] == r.value &&
                          r.value.mobileNumber == mobile && r.value.password == Some(password) &&
                          forall j :: 0 <= j < i ==> !(users[j].mobileNumber == mobile && users[j].password == Some(password))
  {
    Find((u: User) => u.mobileNumber == mobile && u.password == Some(password), users)
  }

  /** The account registration builds from the fresh id and every form field (App.tsx:136); every optional field is present, as the form's string. */
  function NewUser(id: string, form: AuthForm): (u: User)
    ensures u.id == id && u.mobileNumber == form.mobileNumber && u.role == form.role
    ensures u.fullName == form.fullName && u.propertyName == Some(form.propertyName)
    ensures u.profilePicture == Some(form.profilePicture)
    ensures u.password == Some(form.password) && u.propertyOwnerId == Some(form.propertyOwnerId)
  {
    User(id, form.fullName, Some(form.propertyName), form.role, form.mobileNumber,
         Some(form.password), Some(form.profilePicture), Some(form.propertyOwnerId))
  }

  /** The tenant edit: every account with the edited account's id is replaced by it (App.tsx:180). */
  function ReplaceById(users: seq<User>, edited: User): (r: seq<User>)
    ensures |r| == |users|
    ensures forall i :: 0 <= i < |r| ==> r[i].id == users[i].id
    ensures forall i :: 0 <= i < |r| && users[i].id != edited.id ==> r[i] == users[i]
    ensures forall i :: 0 <= i < |r| && users[i].id == edited.id ==> r[i] == edited
    ensures edited in r <==> edited in users || !IdUnused(users, edited.id)
  {
    var r := seq(|users|, i requires 0 <= i < |users| => if users[i].id == edited.id then edited else users[i]);
    assert !IdUnused(users, edited.id) ==> edited in r by {
      if !IdUnused(users, edited.id) {
        var k :| 0 <= k < |users| && users[k].id == edited.id;
        assert r[k] == edited;
      }
    }
    r
  }

  /** The account list without the accounts with this id, in order (App.tsx:187). */
  function RemoveById(users: seq<User>, id: string): (r: seq<User>)
    ensures IdUnused(r, id)
    ensures forall i :: 0 <= i < |users| && users[i].id != id ==> users[i] in r
    ensures forall i :: 0 <= i < |r| ==> r[i] in users
  {
    Filter((u: User) => u.id != id, users)
  }

  /** The landlord accounts, in order: the owners offered at registration (App.tsx:240). */
  function Landlords(users: seq<User>): (r: seq<User>)
    ensures forall i :: 0 <= i < |r| ==> r[i].role == Landlord && r[i] in users
    ensures forall i :: 0 <= i < |users| && users[i].role == Landlord ==> users[i] in r
  {
    Filter((u: User) => u.role == Landlord, users)
  }

  /** Seeding twice is seeding once. */
  lemma SeedIdempotent(users: seq<User>)
    ensures Seeded(Seeded(users)) == Seeded(users)
  {
  }

  /** The seed adds the master landlord exactly once: afterwards exactly one account has its mobile number. */
  lemma SeedInsertsOnce(users: seq<User>)
    requires !MobileTaken(users, MASTER_MOBILE)
    ensures Seeded(users) == [MasterLandlord] + users
    ensures MobileCount(Seeded(users), MASTER_MOBILE) == 1
  {
    var p := (u: User) => u.mobileNumber == MASTER_MOBILE;
    FilterConcat(p, [MasterLandlord], users);
    FilterKeepsNone(p, users);
    assert Filter(p, [MasterLandlord]) == [MasterLandlord] by {
      assert [MasterLandlord][1..] == [];
    }
  }

  lemma SeedKeepsUnique(users: seq<User>)
    requires MobileUnique(users)
    ensures MobileUnique(Seeded(users))
  {
  }

  /** Appending an account whose mobile number is not taken keeps mobile numbers unique. */
  lemma AppendKeepsUnique(users: seq<User>, u: User)
    requires MobileUnique(users) && !MobileTaken(users, u.mobileNumber)
    ensures MobileUnique(users + [u])
  {
  }

  /** Filtering, and so deleting, keeps mobile numbers unique. */
  lemma {:induction false} FilterKeepsUnique(p: User -> bool, users: seq<User>)
    requires MobileUnique(users)
    ensures MobileUnique(Filter(p, users))
    decreases |users|
  {
    if users != [] {
      var rest := users[1..];
      assert MobileUnique(rest);
      FilterKeepsUnique(p, rest);
      var fr := Filter(p, rest);
      forall i | 0 <= i < |fr|
        ensures fr[i].mobileNumber != users[0].mobileNumber
      {
        var k :| 0 <= k < |rest| && rest[k] == fr[i];
        assert users[k + 1] == fr[i];
      }
    }
  }

  lemma RemoveKeepsUnique(users: seq<User>, id: string)
    requires MobileUnique(users)
    ensures MobileUnique(RemoveById(users, id))
  {
    FilterKeepsUnique((u: User) => u.id != id, users);
  }

  /** The tenant edit does not re-check mobile numbers: it can create a duplicate. */
  lemma ReplaceCanBreakUnique()
    ensures exists users: seq<User>, edited: User ::
      MobileUnique(users) && !MobileUnique(ReplaceById(users, edited))
  {
    var a := User("a", "A", None, Tenant, "0171", None, None, Some("l"));
    var b := User("b", "B", None, Tenant, "0172", None, None, Some("l"));
    var edited := a.(mobileNumber := "0172");
    var users := [a, b];
    var r := ReplaceById(users, edited);
    assert r[0] == edited && r[1] == b;
    assert !MobileUnique(r);
  }

  /** An edit that keeps the mobile number of every account it replaces preserves uniqueness. */
  lemma ReplaceKeepsUnique(users: seq<User>, edited: User)
    requires MobileUnique(users)
    requires forall i :: 0 <= i < |users| && users[i].id == edited.id ==> users[i].mobileNumber == edited.mobileNumber
    ensures MobileUnique(ReplaceById(users, edited))
  {
  }
}
