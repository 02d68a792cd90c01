/** The registration screen: its ordered validation chain, the duplicate-e-mail
    check against `pma_users`, and the append of the new user before signing in. */
module Signup {
  import opened Wrappers
  import opened Types
  import opened Storage
  import opened JsText
  import opened Patterns
  import opened UserDirectory
  import opened AuthContext
  import opened WalletContext
  import Login

  datatype SignupForm = SignupForm(
    firstName: string,
    middleName: string,
    lastName: string,
    dateOfBirth: string,
    streetAddress: string,
    city: string,
    state: string,
    mobileNumber: string,
    email: string,
    password: string,
    confirmPassword: string)

  const InitialForm := SignupForm("", "", "", "", "", "", "west-bank", "", "", "", "")
  const MinPasswordLength := 6

  /** The fields `validateForm` requires, in the order it checks them; the middle
      name is not among them. */
  function RequiredFields(f: SignupForm): (r: seq<string>)
    ensures |r| == 9
    ensures f.email in r && f.password in r && f.mobileNumber in r
    ensures "" in r <==>
      f.firstName == "" || f.lastName == "" || f.dateOfBirth == "" || f.streetAddress == ""
      || f.city == "" || f.mobileNumber == "" || f.email == "" || f.password == ""
      || f.confirmPassword == ""
  {
    [f.firstName, f.lastName, f.dateOfBirth, f.streetAddress, f.city,
     f.mobileNumber, f.email, f.password, f.confirmPassword]
  }

  /** The middle name and the state never decide whether a field is missing. */
  lemma OptionalFieldsNotRequired(f: SignupForm, middleName: string, state: string)
    ensures RequiredFields(f.(middleName := middleName, state := state)) == RequiredFields(f)
  {
  }

  /** The alert `validateForm` raises, one per check. */
  datatype SignupError =
    | MissingField       // 'Please fill in all required fields'
    | InvalidEmail       // 'Please enter a valid email address'
    | ShortPassword      // 'Password must be at least 6 characters long'
    | PasswordMismatch   // 'Passwords do not match'
    | InvalidMobile      // 'Please enter a valid mobile number'

  /** `validateForm`: the first failing check in the order required fields (`!value`,
      so a value of spaces passes), e-mail pattern on the untrimmed text, password
      length, confirmation, mobile number. */
  function ValidateForm(f: SignupForm): (r: Option<SignupError>)
    ensures r == Some(MissingField) <==> "" in RequiredFields(f)
    ensures r == Some(InvalidEmail) <==> "" !in RequiredFields(f) && !MatchesEmailPattern(f.email)
    ensures r == Some(ShortPassword) <==>
      "" !in RequiredFields(f) && MatchesEmailPattern(f.email) && |f.password| < MinPasswordLength
    ensures r == Some(PasswordMismatch) <==>
      "" !in RequiredFields(f) && MatchesEmailPattern(f.email) && |f.password| >= MinPasswordLength
      && f.password != f.confirmPassword
    ensures r == Some(InvalidMobile) <==>
      "" !in RequiredFields(f) && MatchesEmailPattern(f.email) && |f.password| >= MinPasswordLength
      && f.password == f.confirmPassword && !IsMobileNumber(f.mobileNumber)
    ensures r == None <==>
      "" !in RequiredFields(f) && MatchesEmailPattern(f.email) && |f.password| >= MinPasswordLength
      && f.password == f.confirmPassword && IsMobileNumber(f.mobileNumber)
  {
    if "" in RequiredFields(f) then Some(MissingField)
    else if !IsEmail(f.email) then Some(InvalidEmail)
    else if |f.password| < MinPasswordLength then Some(ShortPassword)
    else if f.password != f.confirmPassword then Some(PasswordMismatch)
    else if !IsMobileNumber(f.mobileNumber) then Some(InvalidMobile)
    else None
  }

  /** Every registration the form accepts also passes the sign-in form's checks with
      the same e-mail and password: the pattern leaves nothing for `trim` to remove. */
  lemma AcceptedFormPassesLogin(f: SignupForm)
    requires ValidateForm(f) == None
    ensures Login.Acceptable(Login.LoginForm(f.email, f.password))
  {
    TrimKeepsEmail(f.email);
  }

  /** `formData.state === 'west-bank' ? 'West Bank' : 'Gaza'`. */
  function RegionOf(state: string): (r: Region)
    ensures r == WestBank <==> state == "west-bank"
  {
    if state == "west-bank" then WestBank else Gaza
  }

  /** The `userData` record: the form's fields, the region, the clock's id and times,
      and no wallet address. */
  function NewUser(f: SignupForm, id: string, now: string): (u: User)
    ensures u.email == f.email && u.mobile == f.mobileNumber && u.id == id
    ensures u.address == PostalAddress(f.streetAddress, f.city, RegionOf(f.state))
    ensures u.middleName == Some(f.middleName) && u.walletAddress == None
    ensures u.createdAt == now && u.updatedAt == now
  {
    User(id, f.firstName, Some(f.middleName), f.lastName, f.dateOfBirth,
         PostalAddress(f.streetAddress, f.city, RegionOf(f.state)),
         f.mobileNumber, f.email, None, now, now)
  }

  /** A completed registration can sign in at once: the sign-in form accepts the
      same e-mail and password, and the lookup finds exactly the appended record. */
  lemma RegisteredCanSignIn(users: seq<StoredUser>, f: SignupForm, id: string, now: string)
    requires ValidateForm(f) == None && !HasEmail(users, f.email)
    ensures Login.Acceptable(Login.LoginForm(f.email, f.password))
    ensures FindUser(users + [StoredUser(NewUser(f, id, now), f.password)], f.email, f.password) == Some(|users|)
  {
    AcceptedFormPassesLogin(f);
    RegisteredUserSignsIn(users, NewUser(f, id, now), f.password);
  }

  /** What `handleSignup` ends with. */
  datatype SignupOutcome =
    | Rejected(error: SignupError)
    | Duplicate
    | SignupFailed
    | SignedUp(user: User)

  /** `handleSignup`: validates; reads `pma_users`; stops on an e-mail already
      registered (compared without case, the typed one trimmed) before creating a
      wallet; creates the wallet; appends the new user with its password at the end
      of the list and writes it back; signs in with the user record. A failure after
      the wallet is created leaves that wallet in place. */
  method HandleSignup(
    form: SignupForm, auth: AuthSession, session: WalletSession,
    id: string, now: string, generated: string, derive: string -> Option<Account>)
    returns (outcome: SignupOutcome)
    requires auth.Valid() && session.Valid() && auth.storage != session.store
    modifies auth, auth.storage, session, session.store, session.gateway
    ensures auth.Valid() && session.Valid()
    ensures auth.storage.writable == old(auth.storage.writable)
    ensures ValidateForm(form).Some? <==> outcome.Rejected?
    ensures outcome.Rejected? ==> outcome.error == ValidateForm(form).value
    ensures outcome.Rejected? || outcome.Duplicate? ==>
      && auth.storage.entries == old(auth.storage.entries)
      && auth.user == old(auth.user) && session.wallet == old(session.wallet)
      && session.store.entries == old(session.store.entries)
    ensures !outcome.Rejected? ==>
      var users := ParseUsers(old(auth.storage.Get(UsersKey)));
      && (users.None? ==> outcome == SignupFailed && auth.storage.entries == old(auth.storage.entries)
                          && session.wallet == old(session.wallet))
      && (users.Some? ==> (outcome == Duplicate <==> HasEmail(users.value, form.email)))
      && (outcome.SignedUp? ==>
           && users.Some? && !HasEmail(users.value, form.email)
           && outcome.user == NewUser(form, id, now)
           && auth.user == Some(outcome.user) && auth.isAuthenticated
           && auth.storage.entries ==
                old(auth.storage.entries)[UsersKey := UsersJson(users.value + [StoredUser(outcome.user, form.password)])]
                                         [UserKey := UserJson(outcome.user)]
           && session.wallet.Some? && session.isWalletCreated)
      && (users.Some? && !HasEmail(users.value, form.email) ==>
           (outcome.SignedUp? <==> derive(generated).Some? && session.store.writable && auth.storage.writable))
  {
    var invalid := ValidateForm(form);
    if invalid.Some? {
      return Rejected(invalid.value);
    }
    var users := ParseUsers(auth.storage.Get(UsersKey));
    if users.None? {
      return SignupFailed;
    }
    if HasEmail(users.value, form.email) {
      return Duplicate;
    }
    var created := session.CreateWallet(None, generated, derive);
    if created.Err? {
      return SignupFailed;
    }
    var user := NewUser(form, id, now);
    var ok := AppendAndSignIn(auth, users.value, user, form.password);
    outcome := if ok then SignedUp(user) else SignupFailed;
  }

  /** The end of `handleSignup`: writes the list with the new user and its password
      appended, then signs in with the user record. A store that rejects writes keeps
      everything as it was. */
  method AppendAndSignIn(auth: AuthSession, users: seq<StoredUser>, user: User, password: string)
    returns (ok: bool)
    requires auth.Valid()
    modifies auth, auth.storage
    ensures auth.Valid() && auth.storage.writable == old(auth.storage.writable)
    ensures ok == auth.storage.writable
    ensures ok ==>
      && auth.user == Some(user) && auth.isAuthenticated
      && auth.storage.entries ==
           old(auth.storage.entries)[UsersKey := UsersJson(users + [StoredUser(user, password)])]
                                    [UserKey := UserJson(user)]
    ensures !ok ==>
      && auth.storage.entries == old(auth.storage.entries)
      && auth.user == old(auth.user) && auth.isAuthenticated == old(auth.isAuthenticated)
  {
    ok := auth.storage.SetItem(UsersKey, UsersJson(users + [StoredUser(user, password)]));
    if ok {
      ok := auth.Login(user);
    }
  }
}
