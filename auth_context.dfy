/** src/contexts/AuthContext.tsx: the signed-in user. The state is the two React
    state cells `user` and `isAuthenticated`; the user record lives in
    AsyncStorage under `pma_user`. */
module AuthContext {
  import opened Wrappers
  import opened Types
  import opened Storage

  const UserKey := "pma_user"

  /** `Partial<User>`: each field either given (and then overriding) or absent. */
  datatype UserPatch = UserPatch(
    id: Option<string>,
    firstName: Option<string>,
    middleName: Option<string>,
    lastName: Option<string>,
    dateOfBirth: Option<string>,
    address: Option<PostalAddress>,
    mobile: Option<string>,
    email: Option<string>,
    walletAddress: Option<string>,
    createdAt: Option<string>,
    updatedAt: Option<string>)

  const EmptyPatch := UserPatch(None, None, None, None, None, None, None, None, None, None, None)

  function Pick<T>(given: Option<T>, current: T): T {
    if given.Some? then given.value else current
  }

  function PickOptional<T>(given: Option<T>, current: Option<T>): Option<T> {
    if given.Some? then given else current
  }

  /** `{ ...user, ...patch }`: a shallow merge in which every given field wins. */
  function Merge(u: User, p: UserPatch): (r: User)
    ensures p.id.Some? ==> r.id == p.id.value
    ensures p.id.None? ==> r.id == u.id
    ensures p.firstName.Some? ==> r.firstName == p.firstName.value
    ensures p.firstName.None? ==> r.firstName == u.firstName
    ensures p.middleName.Some? ==> r.middleName == p.middleName
    ensures p.middleName.None? ==> r.middleName == u.middleName
    ensures p.lastName.Some? ==> r.lastName == p.lastName.value
    ensures p.lastName.None? ==> r.lastName == u.lastName
    ensures p.dateOfBirth.Some? ==> r.dateOfBirth == p.dateOfBirth.value
    ensures p.dateOfBirth.None? ==> r.dateOfBirth == u.dateOfBirth
    ensures p.address.Some? ==> r.address == p.address.value
    ensures p.address.None? ==> r.address == u.address
    ensures p.mobile.Some? ==> r.mobile == p.mobile.value
    ensures p.mobile.None? ==> r.mobile == u.mobile
    ensures p.email.Some? ==> r.email == p.email.value
    ensures p.email.None? ==> r.email == u.email
    ensures p.walletAddress.Some? ==> r.walletAddress == p.walletAddress
    ensures p.walletAddress.None? ==> r.walletAddress == u.walletAddress
    ensures p.createdAt.Some? ==> r.createdAt == p.createdAt.value
    ensures p.createdAt.None? ==> r.createdAt == u.createdAt
    ensures p.updatedAt.Some? ==> r.updatedAt == p.updatedAt.value
    ensures p.updatedAt.None? ==> r.updatedAt == u.updatedAt
  {
    User(
      Pick(p.id, u.id),
      Pick(p.firstName, u.firstName),
      PickOptional(p.middleName, u.middleName),
      Pick(p.lastName, u.lastName),
      Pick(p.dateOfBirth, u.dateOfBirth),
      Pick(p.address, u.address),
      Pick(p.mobile, u.mobile),
      Pick(p.email, u.email),
      PickOptional(p.walletAddress, u.walletAddress),
      Pick(p.createdAt, u.createdAt),
      Pick(p.updatedAt, u.updatedAt))
  }

  /** Two patches applied one after the other: the later one's given fields win. */
  function Then(p: UserPatch, q: UserPatch): UserPatch {
    UserPatch(
      PickOptional(q.id, p.id), PickOptional(q.firstName, p.firstName),
      PickOptional(q.middleName, p.middleName), PickOptional(q.lastName, p.lastName),
      PickOptional(q.dateOfBirth, p.dateOfBirth), PickOptional(q.address, p.address),
      PickOptional(q.mobile, p.mobile), PickOptional(q.email, p.email),
      PickOptional(q.walletAddress, p.walletAddress), PickOptional(q.createdAt, p.createdAt),
      PickOptional(q.updatedAt, p.updatedAt))
  }

  /** An empty patch keeps the user as it is. */
  lemma MergeEmpty(u: User)
    ensures Merge(u, EmptyPatch) == u
  {
  }

  /** Applying the same patch twice is applying it once. */
  lemma MergeIdempotent(u: User, p: UserPatch)
    ensures Merge(Merge(u, p), p) == Merge(u, p)
  {
  }

  /** Two updates in a row are one update with the combined patch. */
  lemma MergeThen(u: User, p: UserPatch, q: UserPatch)
    ensures Merge(Merge(u, p), q) == Merge(u, Then(p, q))
  {
  }

  class AuthSession {
    var user: Option<User>
    var isAuthenticated: bool
    const storage: KeyValueStore

    /** `isAuthenticated` is true exactly when there is a user, and a writable store
        holds that user under `pma_user`. */
    ghost predicate Valid()
      reads this, storage
    {
      && (isAuthenticated <==> user.Some?)
      && (user.Some? && storage.writable ==>
            UserKey in storage.entries && storage.entries[UserKey] == UserJson(user.value))
    }

    /** The provider's initial state: no user. */
    constructor (asyncStorage: KeyValueStore)
      ensures Valid() && storage == asyncStorage
      ensures user == None && !isAuthenticated
    {
      storage := asyncStorage;
      user := None;
      isAuthenticated := false;
    }

    /** `checkAuthState`: adopts a stored user record; an absent or empty value, or
        text that does not parse as a user, leaves the state as it was. */
    method CheckAuthState()
      requires Valid()
      modifies this
      ensures Valid()
      ensures (storage.Get(UserKey).Some? && storage.Get(UserKey).value.UserJson?) ==>
        user == Some(storage.Get(UserKey).value.user) && isAuthenticated
      ensures !(storage.Get(UserKey).Some? && storage.Get(UserKey).value.UserJson?) ==>
        user == old(user) && isAuthenticated == old(isAuthenticated)
    {
      var stored := storage.Get(UserKey);
      if stored.Some? && Truthy(stored.value) {
        match stored.value
        case UserJson(u) =>
          user := Some(u);
          isAuthenticated := true;
        case _ =>
      }
    }

    /** `login(u)`: persists the user first; only a successful write signs in.
        A failed write leaves everything unchanged and rethrows (`ok` false). */
    method Login(u: User) returns (ok: bool)
      requires Valid()
      modifies this, storage
      ensures Valid() && storage.writable == old(storage.writable)
      ensures ok == storage.writable
      ensures ok ==> user == Some(u) && isAuthenticated
                     && storage.entries == old(storage.entries)[UserKey := UserJson(u)]
      ensures !ok ==> user == old(user) && isAuthenticated == old(isAuthenticated)
                      && storage.entries == old(storage.entries)
    {
      ok := storage.SetItem(UserKey, UserJson(u));
      if ok {
        user := Some(u);
        isAuthenticated := true;
      }
    }

    /** `logout`: removes `pma_user`, then signs out; a failed delete rethrows and
        leaves the state as it was. */
    method Logout() returns (ok: bool)
      requires Valid()
      modifies this, storage
      ensures Valid() && storage.writable == old(storage.writable)
      ensures ok == storage.writable
      ensures ok ==> user == None && !isAuthenticated && UserKey !in storage.entries
                     && storage.entries == old(storage.entries) - {UserKey}
      ensures !ok ==> user == old(user) && isAuthenticated == old(isAuthenticated)
                      && storage.entries == old(storage.entries)
    {
      ok := storage.RemoveItem(UserKey);
      if ok {
        user := None;
        isAuthenticated := false;
      }
    }

    /** `updateUser(patch)`: nothing without a user; otherwise persists the merged
        record and then shows it. A failed write rethrows and keeps the old user. */
    method UpdateUser(patch: UserPatch) returns (ok: bool)
      requires Valid()
      modifies this, storage
      ensures Valid() && storage.writable == old(storage.writable)
      ensures isAuthenticated == old(isAuthenticated)
      ensures old(user).None? ==> ok && user == None && storage.entries == old(storage.entries)
      ensures old(user).Some? ==> ok == storage.writable
      ensures old(user).Some? && ok ==>
        user == Some(Merge(old(user).value, patch))
        && storage.entries == old(storage.entries)[UserKey := UserJson(Merge(old(user).value, patch))]
      ensures old(user).Some? && !ok ==> user == old(user) && storage.entries == old(storage.entries)
    {
      if user.None? {
        return true;
      }
      var updated := Merge(user.value, patch);
      ok := storage.SetItem(UserKey, UserJson(updated));
      if ok {
        user := Some(updated);
      }
    }
  }
}
