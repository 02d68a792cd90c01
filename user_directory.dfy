/** The `pma_users` list that registration appends to and sign-in searches:
    every registered user with the password it was registered with, kept in
    AsyncStorage as one JSON array. */
module UserDirectory {
  import opened Wrappers
  import opened Types
  import opened Storage
  import opened JsText
  import Patterns

  const UsersKey := "pma_users"

  /** `existingUsers ? JSON.parse(existingUsers) : []`, then used as an array: nothing
      stored, or "", is the empty list and a stored list is itself; anything else throws
      (text that is not JSON, or a JSON value that is not a list of users). */
  function ParseUsers(v: Option<Stored>): (r: Option<seq<StoredUser>>)
    ensures v.None? || v == Some(Text("")) ==> r == Some([])
    ensures v.Some? && v.value.UsersJson? ==> r == Some(v.value.users)
    ensures r.None? <==> v.Some? && v.value != Text("") && !v.value.UsersJson?
  {
    match v
    case None => Some([])
    case Some(UsersJson(users)) => Some(users)
    case Some(other) => if other == Text("") then Some([]) else None
  }

  /** `u.email.toLowerCase() === typed.toLowerCase().trim()`. */
  predicate SameEmail(stored: string, typed: string) {
    ToLower(stored) == Trim(ToLower(typed))
  }

  /** The comparison ignores letter case on both sides and whitespace around the
      typed address, and nothing else. */
  lemma SameEmailMeansTrimmedCaseless(stored: string, typed: string)
    ensures SameEmail(stored, typed) <==> ToLower(stored) == ToLower(Trim(typed))
  {
    TrimLower(typed);
  }

  /** An address the registration form accepts matches itself. */
  lemma SameEmailReflexive(e: string)
    requires Patterns.IsEmail(e)
    ensures SameEmail(e, e)
  {
    Patterns.TrimKeepsEmail(e);
    TrimLower(e);
  }

  /** The record `users.find(...)` of the sign-in screen looks for. */
  predicate Matches(u: StoredUser, email: string, password: string) {
    SameEmail(u.user.email, email) && u.password == password
  }

  /** `xs.findIndex(p)`, `None` for -1. */
  function FindFirst<T>(xs: seq<T>, p: T -> bool): (r: Option<nat>)
    ensures r.None? <==> forall k :: 0 <= k < |xs| ==> !p(xs[k])
    ensures r.Some? ==> r.value < |xs| && p(xs[r.value])
    ensures r.Some? ==> forall k :: 0 <= k < r.value ==> !p(xs[k])
  {
    if xs == [] then None
    else if p(xs[0]) then Some(0)
    else
      match FindFirst(xs[1..], p)
      case None =>
        assert forall k :: 1 <= k < |xs| ==> xs[k] == xs[1..][k - 1];
        None
      case Some(k) =>
        assert forall j :: 1 <= j <= k ==> xs[j] == xs[1..][j - 1];
        Some(k + 1)
  }

  /** The sign-in lookup: the position of the first record whose e-mail matches the
      typed one and whose password is exactly the typed one. */
  function FindUser(users: seq<StoredUser>, email: string, password: string): (r: Option<nat>)
    ensures r.None? <==> forall k :: 0 <= k < |users| ==> !Matches(users[k], email, password)
    ensures r.Some? ==> r.value < |users| && Matches(users[r.value], email, password)
    ensures r.Some? ==> forall k :: 0 <= k < r.value ==> !Matches(users[k], email, password)
  {
    FindFirst(users, Credentials(email, password))
  }

  /** The `find` callback of the sign-in screen. */
  function Credentials(email: string, password: string): StoredUser -> bool {
    u => Matches(u, email, password)
  }

  /** An element appended after elements that all fail `p` is the first to pass it. */
  lemma FindFirstAppended<T>(xs: seq<T>, x: T, p: T -> bool)
    requires p(x)
    requires forall k :: 0 <= k < |xs| ==> !p(xs[k])
    ensures FindFirst(xs + [x], p) == Some(|xs|)
  {
    var all := xs + [x];
    assert all[|xs|] == x;
    var r := FindFirst(all, p);
    assert forall k :: 0 <= k < |xs| ==> all[k] == xs[k];
  }

  /** The registration duplicate check: some stored user has the typed e-mail. */
  function HasEmail(users: seq<StoredUser>, email: string): (r: bool)
    ensures r <==> exists k :: 0 <= k < |users| && SameEmail(users[k].user.email, email)
  {
    if users == [] then false
    else
      var rest := HasEmail(users[1..], email);
      assert rest <==> exists k :: 1 <= k < |users| && SameEmail(users[k].user.email, email) by {
        if rest {
          var k :| 0 <= k < |users[1..]| && SameEmail(users[1..][k].user.email, email);
          assert users[k + 1] == users[1..][k];
        }
        if exists k :: 1 <= k < |users| && SameEmail(users[k].user.email, email) {
          var k :| 1 <= k < |users| && SameEmail(users[k].user.email, email);
          assert users[1..][k - 1] == users[k];
        }
      }
      SameEmail(users[0].user.email, email) || rest
  }

  /** Without a stored user of that e-mail, no record matches it, whatever the password. */
  lemma FreshEmailMatchesNone(users: seq<StoredUser>, email: string, password: string)
    requires !HasEmail(users, email)
    ensures forall k :: 0 <= k < |users| ==> !Matches(users[k], email, password)
  {
  }

  /** Appending a user whose e-mail matches itself and no stored user's makes that
      record the one the lookup finds. */
  lemma AppendedUserIsFound(users: seq<StoredUser>, u: User, password: string)
    requires SameEmail(u.email, u.email) && !HasEmail(users, u.email)
    ensures FindUser(users + [StoredUser(u, password)], u.email, password) == Some(|users|)
  {
    FreshEmailMatchesNone(users, u.email, password);
    assert Credentials(u.email, password)(StoredUser(u, password));
    FindFirstAppended(users, StoredUser(u, password), Credentials(u.email, password));
  }

  /** A user registered with a fresh, well-formed e-mail is exactly the record the
      sign-in lookup finds for that e-mail and password. */
  lemma RegisteredUserSignsIn(users: seq<StoredUser>, u: User, password: string)
    requires Patterns.IsEmail(u.email) && !HasEmail(users, u.email)
    ensures FindUser(users + [StoredUser(u, password)], u.email, password) == Some(|users|)
  {
    SameEmailReflexive(u.email);
    AppendedUserIsFound(users, u, password);
  }
}
