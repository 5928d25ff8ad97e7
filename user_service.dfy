/** The user service (src/services/user.service.js): the user collection with
    `createUser` and the lookups by email and by id, and `setAddress`. */
module UserService {
  import opened Errors
  import opened UserModel

  /** `config.default_wallet_money`. */
  const DefaultWalletMoney := 500

  /** The record `createUser` returns. */
  datatype CreatedUser = CreatedUser(id: nat, email: string, name: string, walletMoney: int)

  /** The projection `getUserAddressById` asks for: the id, the email and the address. */
  datatype AddressView = AddressView(id: nat, email: string, address: string)

  /** The wallet `createUser` reports for the stored `walletMoney`: `parseInt` gives back a
      stored number and NaN for a missing one; a truthy result, that is, a number other than
      zero, is reported as it is, and NaN or 0 is replaced by the configured default. So the
      report is always a non-zero number, whatever is stored. */
  function ReportedWalletMoney(stored: Option<int>): (m: int)
    ensures stored.Some? && stored.value != 0 ==> m == stored.value
    ensures stored == None || stored == Some(0) ==> m == DefaultWalletMoney
    ensures m != 0
  {
    if stored.Some? && stored.value != 0 then stored.value else DefaultWalletMoney
  }

  function EmailOf(u: User): string { u.email }

  function IdOf(u: User): nat { u.id }

  /** How `findOne` and `findById` pick a document: the position of the first user whose `key`
      is `value`, or -1 when there is none. */
  function FirstIndex<K(==)>(users: seq<User>, key: User -> K, value: K): (k: int)
    ensures -1 <= k < |users|
    ensures k == -1 <==> forall i :: 0 <= i < |users| ==> key(users[i]) != value
    ensures 0 <= k ==> key(users[k]) == value && forall i :: 0 <= i < k ==> key(users[i]) != value
  {
    if users == [] then -1
    else if key(users[0]) == value then 0
    else var k := FirstIndex(users[1..], key, value); if k == -1 then -1 else k + 1
  }

  /** A user appended with an email nobody has is where a search for that email stops. */
  lemma {:induction false} AppendedUserIsFound(users: seq<User>, u: User)
    requires forall i :: 0 <= i < |users| ==> users[i].email != u.email
    ensures FirstIndex(users + [u], EmailOf, u.email) == |users|
  {
    if users != [] {
      assert (users + [u])[1..] == users[1..] + [u];
      AppendedUserIsFound(users[1..], u);
    }
  }

  /** Appending a user whose email is new and whose id is the counter keeps ids below the
      incremented counter and ids and emails unique. */
  lemma AppendedUserKeepsUnique(users: seq<User>, u: User, nextId: nat)
    requires forall i :: 0 <= i < |users| ==> users[i].id < nextId
    requires forall i, j :: 0 <= i < j < |users| ==> users[i].id != users[j].id
    requires forall i, j :: 0 <= i < j < |users| ==> users[i].email != users[j].email
    requires forall i :: 0 <= i < |users| ==> users[i].email != u.email
    requires u.id == nextId
    ensures forall i :: 0 <= i < |users + [u]| ==> (users + [u])[i].id < nextId + 1
    ensures forall i, j :: 0 <= i < j < |users + [u]| ==> (users + [u])[i].id != (users + [u])[j].id
    ensures forall i, j :: 0 <= i < j < |users + [u]| ==> (users + [u])[i].email != (users + [u])[j].email
  {
  }

  /** The stored address sets: the body's address, or the schema default when the body has none. */
  function AddressOrDefault(address: Option<string>): (r: string)
    ensures address.Some? ==> r == address.value
    ensures r == DefaultAddress <==> address == None || address == Some(DefaultAddress)
  {
    if address.Some? then address.value else DefaultAddress
  }

  /** The `users` collection. Ids are handed out by a counter, which stands for the
      ObjectIds Mongo generates. */
  class UserStore {
    var users: seq<User>
    var nextId: nat

    /** Ids are unique and below the counter; emails are unique because `createUser` checks them. */
    ghost predicate Valid()
      reads this
    {
      && (forall i :: 0 <= i < |users| ==> users[i].id < nextId)
      && (forall i, j :: 0 <= i < j < |users| ==> users[i].id != users[j].id)
      && (forall i, j :: 0 <= i < j < |users| ==> users[i].email != users[j].email)
    }

    constructor ()
      ensures Valid() && users == []
    {
      users := [];
      nextId := 0;
    }

    /** `getUserByEmail`: the stored user whose email is `email` (after the path's setters), or null. */
    function GetUserByEmail(email: string): (r: User?)
      reads this
      ensures r == null <==> !IsEmailTaken(users, email)
      ensures r != null ==> r in users && r.email == NormalizeEmail(email)
      ensures Valid() && r != null ==> forall i :: 0 <= i < |users| && users[i].email == r.email ==> users[i] == r
    {
      var k := FirstIndex(users, EmailOf, NormalizeEmail(email));
      if k == -1 then null else users[k]
    }

    /** `getUserById`: the stored user with that id, or null. */
    function GetUserById(id: nat): (r: User?)
      reads this
      ensures r == null <==> forall i :: 0 <= i < |users| ==> users[i].id != id
      ensures r != null ==> r in users && r.id == id
      ensures Valid() && r != null ==> forall i :: 0 <= i < |users| && users[i].id == id ==> users[i] == r
    {
      var k := FirstIndex(users, IdOf, id);
      if k == -1 then null else users[k]
    }

    /** `getUserAddressById`: the id, email and address of the user with that id, or nothing. */
    function GetUserAddressById(id: nat): (r: Option<AddressView>)
      reads this, users
      ensures r == None <==> GetUserById(id) == null
      ensures r.Some? ==> exists i :: 0 <= i < |users| && users[i].id == id
                                      && r.value == AddressView(id, users[i].email, users[i].address)
    {
      var u := GetUserById(id);
      if u == null then None else Some(AddressView(u.id, u.email, u.address))
    }

    /** Stores a user whose email is new and whose id is the counter: the user is appended, the
        counter moves past its id, and a search for its email finds it. */
    method Insert(user: User)
      requires Valid()
      requires forall i :: 0 <= i < |users| ==> users[i].email != user.email
      requires user.id == nextId
      modifies this
      ensures Valid()
      ensures users == old(users) + [user] && nextId == old(nextId) + 1
      ensures FirstIndex(users, EmailOf, user.email) == |old(users)|
    {
      AppendedUserIsFound(users, user);
      AppendedUserKeepsUnique(users, user, nextId);
      users := users + [user];
      nextId := nextId + 1;
    }

    /** `createUser`. A taken email (compared after the setters) fails with status 200 and changes
        nothing. Otherwise the document gets the trimmed name, the normalised email and the trimmed
        hash as password, and the body's `walletMoney` as it is; if a validator rejects it the store is
        unchanged, else exactly one user is appended. The returned record reports the wallet through
        ReportedWalletMoney, which need not be what is stored. `hashedPassword` is what bcrypt.hash
        made of the body's password; `walletMoney` is the body's wallet, None when it has none
        (a null, empty-string or false wallet is passed as Some(0), which it behaves like). */
    method CreateUser(name: string, email: string, hashedPassword: string,
                      walletMoney: Option<int>, address: Option<string>)
      returns (r: Result<CreatedUser>)
      requires Valid()
      modifies this
      ensures Valid()
      ensures IsEmailTaken(old(users), email) ==>
        r == Failure(ApiError(StatusOk, "Email already taken")) && users == old(users)
      ensures !IsEmailTaken(old(users), email)
              && FailedPaths(Trim(name), NormalizeEmail(email), Trim(hashedPassword)) != [] ==>
        r == Failure(ValidationError(FailedPaths(Trim(name), NormalizeEmail(email), Trim(hashedPassword))))
        && users == old(users)
      ensures r.Success? <==>
        !IsEmailTaken(old(users), email) && FailedPaths(Trim(name), NormalizeEmail(email), Trim(hashedPassword)) == []
      ensures r.Success? ==>
        && |users| == |old(users)| + 1 && users[..|old(users)|] == old(users)
        && fresh(users[|old(users)|])
        && users[|old(users)|].id == old(nextId)
        && users[|old(users)|].name == Trim(name)
        && users[|old(users)|].email == NormalizeEmail(email)
        && users[|old(users)|].password == Trim(hashedPassword)
        && users[|old(users)|].walletMoney == walletMoney
        && users[|old(users)|].address == AddressOrDefault(address)
        && r.value == CreatedUser(old(nextId), NormalizeEmail(email), Trim(name), ReportedWalletMoney(walletMoney))
        && GetUserByEmail(email) == users[|old(users)|]
      ensures r.Failure? ==> nextId == old(nextId)
      ensures r.Success? ==> nextId == old(nextId) + 1
      ensures r.Success? && address == None ==> !users[|old(users)|].HasSetNonDefaultAddress()
    {
      if FirstIndex(users, EmailOf, NormalizeEmail(email)) != -1 {
        assert IsEmailTaken(users, email);
        return Failure(ApiError(StatusOk, "Email already taken"));
      }
      assert !IsEmailTaken(users, email);
      var storedName, storedEmail, storedPassword := Trim(name), NormalizeEmail(email), Trim(hashedPassword);
      var failed := FailedPaths(storedName, storedEmail, storedPassword);
      if failed != [] {
        return Failure(ValidationError(failed));
      }
      var user := new User(nextId, storedName, storedEmail, storedPassword, walletMoney, AddressOrDefault(address));
      ghost var before := users;
      Insert(user);
      assert users[|before|] == user && users[..|before|] == before;
      r := Success(CreatedUser(user.id, user.email, user.name, ReportedWalletMoney(user.walletMoney)));
    }
  }

  /** `setAddress`: the user's address becomes `newAddress`, which is returned; the wallet is
      untouched (the other fields cannot change), so the address guard of checkout now passes
      exactly when `newAddress` is not the default sentinel. */
  method SetAddress(user: User, newAddress: string) returns (r: string)
    modifies user
    ensures user.address == newAddress && r == newAddress
    ensures user.walletMoney == old(user.walletMoney)
    ensures user.HasSetNonDefaultAddress() <==> newAddress != DefaultAddress
  {
    user.address := newAddress;
    r := user.address;
  }
}
