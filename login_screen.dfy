/** The sign-in screen: its form validation, the remembered-credentials record,
    and the lookup of the typed e-mail and password in the registered users. */
module Login {
  import opened Wrappers
  import opened Types
  import opened Storage
  import opened JsText
  import opened Patterns
  import opened UserDirectory
  import opened AuthContext

  const CredentialsKey := "pma_saved_credentials"
  const MinPasswordLength := 6

  datatype LoginForm = LoginForm(email: string, password: string)

  datatype EmailError = EmailRequired | EmailInvalid
  datatype PasswordError = PasswordRequired | PasswordTooShort

  /** The `errors` record: one optional message per field. */
  datatype FormErrors = FormErrors(email: Option<EmailError>, password: Option<PasswordError>)

  const NoErrors := FormErrors(None, None)

  /** The e-mail half of `validateForm`: blank after trimming is "required";
      otherwise the trimmed text must match the e-mail pattern. */
  function EmailErrorOf(email: string): (r: Option<EmailError>)
    ensures r == Some(EmailRequired) <==> AllSpace(email)
    ensures r == Some(EmailInvalid) <==> !AllSpace(email) && !MatchesEmailPattern(Trim(email))
    ensures r == None <==> MatchesEmailPattern(Trim(email))
  {
    TrimEmptyIffBlank(email);
    if Trim(email) == [] then Some(EmailRequired)
    else if !IsEmail(Trim(email)) then Some(EmailInvalid)
    else None
  }

  /** The password half of `validateForm`: "" is "required", fewer than six
      characters is "too short". */
  function PasswordErrorOf(password: string): (r: Option<PasswordError>)
    ensures r == Some(PasswordRequired) <==> password == ""
    ensures r == Some(PasswordTooShort) <==> 0 < |password| < MinPasswordLength
    ensures r == None <==> |password| >= MinPasswordLength
  {
    if password == "" then Some(PasswordRequired)
    else if |password| < MinPasswordLength then Some(PasswordTooShort)
    else None
  }

  /** The `newErrors` record `validateForm` builds; each field's message depends on that field alone. */
  function FormErrorsOf(form: LoginForm): FormErrors {
    FormErrors(EmailErrorOf(form.email), PasswordErrorOf(form.password))
  }

  /** What the sign-in form demands: a trimmed e-mail the pattern accepts and a
      password of at least six characters. */
  ghost predicate Acceptable(form: LoginForm) {
    MatchesEmailPattern(Trim(form.email)) && |form.password| >= MinPasswordLength
  }

  /** `validateForm` records no error exactly when the form is acceptable. */
  lemma FormAccepted(form: LoginForm)
    ensures FormErrorsOf(form) == NoErrors <==> Acceptable(form)
  {
    var e := EmailErrorOf(form.email);
    var p := PasswordErrorOf(form.password);
    assert FormErrorsOf(form) == NoErrors <==> e.None? && p.None?;
  }

  /** The store after `saveCredentials` on a writable store. */
  function SavedCredentials(entries: map<string, Stored>, rememberMe: bool, form: LoginForm): (r: map<string, Stored>)
    ensures rememberMe <==> CredentialsKey in r
    ensures rememberMe ==> r[CredentialsKey] == CredentialsJson(Credentials(form.email, form.password, true))
    ensures forall k :: k != CredentialsKey ==> (k in r <==> k in entries)
    ensures forall k :: k != CredentialsKey && k in r ==> r[k] == entries[k]
  {
    if rememberMe then entries[CredentialsKey := CredentialsJson(Credentials(form.email, form.password, true))]
    else entries - {CredentialsKey}
  }

  datatype LoginField = EmailField | PasswordField

  /** What `handleLogin` ends with. */
  datatype LoginOutcome =
    | InvalidForm
    | NoMatch
    | LoginError
    | LoggedIn(user: User)

  /** The part of the session `handleLogin` can change: the secure store's entries,
      the signed-in user and the authenticated flag. */
  datatype SessionState = SessionState(entries: map<string, Stored>, user: Option<User>, isAuthenticated: bool)

  /** The `try` block of `handleLogin` on a session: read the registered users, take the
      first record with the typed e-mail and password, save or forget the credentials and
      sign in with that record's user. A store that rejects writes ends in an error. */
  function AttemptLogin(s: SessionState, writable: bool, form: LoginForm, rememberMe: bool): (r: (LoginOutcome, SessionState))
    ensures r.0 != InvalidForm
    ensures !r.0.LoggedIn? ==> r.1 == s
    ensures r.0.LoggedIn? ==> r.1.user == Some(r.0.user) && r.1.isAuthenticated
  {
    var users := ParseUsers(if UsersKey in s.entries then Some(s.entries[UsersKey]) else None);
    if users.None? then (LoginError, s)
    else
      var found := FindUser(users.value, form.email, form.password);
      if found.None? then (NoMatch, s)
      else if !writable then (LoginError, s)
      else
        var u := users.value[found.value].user;
        (LoggedIn(u), SessionState(SavedCredentials(s.entries, rememberMe, form)[UserKey := UserJson(u)], Some(u), true))
  }

  /** The users list `handleLogin` reads from a session. */
  function StoredUsers(s: SessionState): Option<seq<StoredUser>> {
    ParseUsers(if UsersKey in s.entries then Some(s.entries[UsersKey]) else None)
  }

  /** "Invalid email or password" is reported exactly when the stored list parses and
      no record has the typed e-mail with exactly the typed password. */
  lemma NoMatchIffNoRecord(s: SessionState, writable: bool, form: LoginForm, rememberMe: bool)
    ensures AttemptLogin(s, writable, form, rememberMe).0 == NoMatch <==>
      && StoredUsers(s).Some?
      && forall k :: 0 <= k < |StoredUsers(s).value| ==> !Matches(StoredUsers(s).value[k], form.email, form.password)
  {
  }

  /** A successful sign-in is with the user of the first matching record, and it leaves
      that user signed in, the credentials saved or forgotten, and the stored session user
      written; it needs a store that accepts writes. */
  lemma SignedInWithFirstMatch(s: SessionState, writable: bool, form: LoginForm, rememberMe: bool)
    requires AttemptLogin(s, writable, form, rememberMe).0.LoggedIn?
    ensures writable && StoredUsers(s).Some?
    ensures var users := StoredUsers(s).value; var r := AttemptLogin(s, writable, form, rememberMe);
      exists k :: 0 <= k < |users| && users[k].user == r.0.user
        && Matches(users[k], form.email, form.password)
        && (forall j :: 0 <= j < k ==> !Matches(users[j], form.email, form.password))
        && r.1 == SessionState(SavedCredentials(s.entries, rememberMe, form)[UserKey := UserJson(r.0.user)], Some(r.0.user), true)
  {
    var users := StoredUsers(s).value;
    var k := FindUser(users, form.email, form.password).value;
    assert users[k].user == AttemptLogin(s, writable, form, rememberMe).0.user;
  }

  /** When the stored list parses, has a matching record and the store accepts writes,
      the sign-in succeeds. */
  lemma MatchOnWritableStoreSignsIn(s: SessionState, form: LoginForm, rememberMe: bool, k: nat)
    requires StoredUsers(s).Some? && k < |StoredUsers(s).value|
    requires Matches(StoredUsers(s).value[k], form.email, form.password)
    ensures AttemptLogin(s, true, form, rememberMe).0.LoggedIn?
  {
  }

  class LoginScreen {
    var formData: LoginForm
    var rememberMe: bool
    var errors: FormErrors
    var loadingCredentials: bool
    var isLoading: bool
    const auth: AuthSession

    ghost predicate Valid()
      reads this, auth, auth.storage
    {
      auth.Valid()
    }

    /** The session as the screen's `login` call sees it. */
    function Session(): SessionState
      reads auth, auth.storage
    {
      SessionState(auth.storage.entries, auth.user, auth.isAuthenticated)
    }

    /** The screen's initial state, before the saved credentials are read. */
    constructor (session: AuthSession)
      requires session.Valid()
      ensures Valid() && auth == session
      ensures formData == LoginForm("", "") && !rememberMe && errors == NoErrors
      ensures loadingCredentials && !isLoading
    {
      auth := session;
      formData := LoginForm("", "");
      rememberMe := false;
      errors := NoErrors;
      loadingCredentials := true;
      isLoading := false;
    }

    /** `loadSavedCredentials`: a saved record fills the form and ticks "remember me"
        only when its own `rememberMe` flag is set; anything else, including text that
        does not parse, leaves the form alone. Loading ends either way. */
    method LoadSavedCredentials()
      requires Valid()
      modifies this
      ensures Valid() && !loadingCredentials
      ensures errors == old(errors) && isLoading == old(isLoading)
      ensures var saved := auth.storage.Get(CredentialsKey);
        if saved.Some? && saved.value.CredentialsJson? && saved.value.credentials.rememberMe then
          && formData == LoginForm(saved.value.credentials.email, saved.value.credentials.password)
          && rememberMe
        else
          formData == old(formData) && rememberMe == old(rememberMe)
    {
      var saved := auth.storage.Get(CredentialsKey);
      if saved.Some? && Truthy(saved.value) {
        match saved.value
        case CredentialsJson(c) =>
          if c.rememberMe {
            formData := LoginForm(c.email, c.password);
            rememberMe := true;
          }
        case _ =>
      }
      loadingCredentials := false;
    }

    /** `saveCredentials`: stores the typed e-mail and password when "remember me" is
        ticked and deletes the saved record otherwise. A failing store is ignored. */
    method SaveCredentials()
      requires Valid()
      modifies auth.storage
      ensures Valid() && auth.storage.writable == old(auth.storage.writable)
      ensures auth.storage.entries ==
        if auth.storage.writable then SavedCredentials(old(auth.storage.entries), rememberMe, formData)
        else old(auth.storage.entries)
    {
      if rememberMe {
        var credentials := Credentials(formData.email, formData.password, true);
        var _ := auth.storage.SetItem(CredentialsKey, CredentialsJson(credentials));
      } else {
        var _ := auth.storage.RemoveItem(CredentialsKey);
      }
    }

    /** `updateFormData(field, value)`: sets that field and clears that field's error only. */
    method UpdateFormData(field: LoginField, value: string)
      modifies this
      ensures field == EmailField ==>
        formData == old(formData).(email := value) && errors == old(errors).(email := None)
      ensures field == PasswordField ==>
        formData == old(formData).(password := value) && errors == old(errors).(password := None)
      ensures rememberMe == old(rememberMe) && loadingCredentials == old(loadingCredentials)
      ensures isLoading == old(isLoading)
    {
      match field
      case EmailField =>
        formData := formData.(email := value);
        if errors.email.Some? {
          errors := errors.(email := None);
        }
      case PasswordField =>
        formData := formData.(password := value);
        if errors.password.Some? {
          errors := errors.(password := None);
        }
    }

    /** `validateForm`: records the errors and reports whether there are none. */
    method ValidateForm() returns (ok: bool)
      modifies this`errors
      ensures errors == FormErrorsOf(formData)
      ensures ok <==> errors == NoErrors
    {
      var emailError := EmailErrorOf(formData.email);
      var passwordError := PasswordErrorOf(formData.password);
      errors := FormErrors(emailError, passwordError);
      ok := emailError.None? && passwordError.None?;
    }

    /** The end of `handleLogin` once a record matched: save or forget the
        credentials, then sign in with the user record without its password. */
    method SignIn(user: User) returns (outcome: LoginOutcome)
      requires Valid()
      modifies auth, auth.storage
      ensures Valid() && auth.storage.writable == old(auth.storage.writable)
      ensures auth.storage.writable ==>
        && outcome == LoggedIn(user) && auth.user == Some(user) && auth.isAuthenticated
        && auth.storage.entries == SavedCredentials(old(auth.storage.entries), rememberMe, formData)[UserKey := UserJson(user)]
      ensures !auth.storage.writable ==>
        && outcome == LoginError && auth.storage.entries == old(auth.storage.entries)
        && auth.user == old(auth.user) && auth.isAuthenticated == old(auth.isAuthenticated)
    {
      SaveCredentials();
      var ok := auth.Login(user);
      outcome := if ok then LoggedIn(user) else LoginError;
    }

    /** The `try` block of `handleLogin`: reads the registered users, finds the first
        record with the typed e-mail (ignoring case and surrounding whitespace) and
        exactly the typed password, and signs in with it. Without a match nothing is
        written and nobody signs in. */
    method Authenticate() returns (outcome: LoginOutcome)
      requires Valid()
      modifies auth, auth.storage
      ensures Valid() && auth.storage.writable == old(auth.storage.writable)
      ensures (outcome, Session()) == AttemptLogin(old(Session()), auth.storage.writable, formData, rememberMe)
    {
      var users := ParseUsers(auth.storage.Get(UsersKey));
      if users.None? {
        return LoginError;
      }
      var found := FindUser(users.value, formData.email, formData.password);
      if found.None? {
        return NoMatch;
      }
      outcome := SignIn(users.value[found.value].user);
    }

    /** `handleLogin`: validates the form, then runs the sign-in with the loading flag
        raised and lowers it whatever the outcome. An invalid form touches nothing else. */
    method HandleLogin() returns (outcome: LoginOutcome)
      requires Valid()
      modifies this`errors, this`isLoading, auth, auth.storage
      ensures Valid() && auth.storage.writable == old(auth.storage.writable)
      ensures errors == FormErrorsOf(formData)
      ensures outcome == InvalidForm <==> errors != NoErrors
      ensures outcome == InvalidForm ==> isLoading == old(isLoading) && Session() == old(Session())
      ensures outcome != InvalidForm ==>
        && !isLoading
        && (outcome, Session()) == AttemptLogin(old(Session()), auth.storage.writable, formData, rememberMe)
    {
      var valid := ValidateForm();
      if !valid {
        return InvalidForm;
      }
      outcome := SubmitLogin();
    }

    /** The part of `handleLogin` after validation: the sign-in runs with the loading
        flag raised, and the flag is lowered afterwards. */
    method SubmitLogin() returns (outcome: LoginOutcome)
      requires Valid()
      modifies this`isLoading, auth, auth.storage
      ensures Valid() && auth.storage.writable == old(auth.storage.writable)
      ensures !isLoading
      ensures (outcome, Session()) == AttemptLogin(old(Session()), auth.storage.writable, formData, rememberMe)
    {
      isLoading := true;
      outcome := Authenticate();
      isLoading := false;
    }
  }
}
