/**
 * The mock credential store of services/authService.ts.
 *
 * The browser's local storage holds two slots: the list of registered
 * credential records (`enem_users`) and the current session
 * (`enem_current_user`).  The store keeps both as fields.  The JSON
 * encoding of the slots is abstracted away: the user list is a sequence of
 * records, and the session slot says whether it is absent, empty, holds a
 * parseable user, or holds text that does not parse.  The 500 ms timers
 * of `register` and `login` are modelled as one synchronous step each.
 */
module AuthService {
  import opened Wrappers

  /** A session user: a credential record with the password stripped. */
  datatype User = User(username: string, email: string)

  /** A stored credential record; the password is kept verbatim. */
  datatype UserRec = UserRec(username: string, email: string, password: string)

  /** The contents of the `enem_current_user` slot. */
  datatype Slot =
    | Absent          // the key is not set
    | Empty           // the key holds the empty string
    | Valid(user: User)  // the key holds JSON that parses to a user
    | Corrupt         // the key holds text that does not parse

  /** The two ways the store rejects. */
  datatype AuthError = DuplicateEmail | InvalidCredentials

  /** The message of the `Error` each rejection carries. */
  function Message(e: AuthError): (m: string)
    ensures m != ""
  {
    match e
    case DuplicateEmail => "Um usuário com este e-mail já existe."
    case InvalidCredentials => "Credenciais inválidas. Verifique seu e-mail e senha."
  }

  /** The session value built from a stored record. */
  function SessionOf(rec: UserRec): (u: User)
    ensures u.username == rec.username && u.email == rec.email
  {
    User(rec.username, rec.email)
  }

  /** The invariant `register` keeps: no two records share an email. */
  ghost predicate EmailsDistinct(users: seq<UserRec>) {
    forall i, j :: 0 <= i < j < |users| ==> users[i].email != users[j].email
  }

  /** Some record has this email. */
  ghost predicate HasEmail(users: seq<UserRec>, email: string) {
    exists i :: 0 <= i < |users| && users[i].email == email
  }

  /** A record matches a login attempt when both email and password are equal. */
  predicate Matches(rec: UserRec, email: string, password: string) {
    rec.email == email && rec.password == password
  }

  /**
   * The index of the first record matching the credentials, as
   * `users.find(u => u.email === email && u.password === password)`
   * selects it.
   */
  function FirstCredentialMatch(users: seq<UserRec>, email: string, password: string): (r: Option<nat>)
    ensures r.Some? ==> r.value < |users| && Matches(users[r.value], email, password)
    ensures r.Some? ==> forall j :: 0 <= j < r.value ==> !Matches(users[j], email, password)
    ensures r.None? <==> forall j :: 0 <= j < |users| ==> !Matches(users[j], email, password)
  {
    if users == [] then None
    else if Matches(users[0], email, password) then Some(0)
    else
      match FirstCredentialMatch(users[1..], email, password)
      case None => None
      case Some(k) => Some(k + 1)
  }

  /** The linear scan of `users.find(u => u.email === email)`. */
  method FindByEmail(users: seq<UserRec>, email: string) returns (found: Option<nat>)
    ensures found.Some? ==> found.value < |users| && users[found.value].email == email
    ensures found.Some? ==> forall j :: 0 <= j < found.value ==> users[j].email != email
    ensures found.None? <==> !HasEmail(users, email)
  {
    var i := 0;
    while i < |users|
      invariant 0 <= i <= |users|
      invariant forall j :: 0 <= j < i ==> users[j].email != email
    {
      if users[i].email == email {
        return Some(i);
      }
      i := i + 1;
    }
    return None;
  }

  /** The linear scan of `users.find(u => u.email === email && u.password === password)`. */
  method FindByCredentials(users: seq<UserRec>, email: string, password: string) returns (found: Option<nat>)
    ensures found == FirstCredentialMatch(users, email, password)
  {
    var i := 0;
    while i < |users|
      invariant 0 <= i <= |users|
      invariant forall j :: 0 <= j < i ==> !Matches(users[j], email, password)
    {
      if Matches(users[i], email, password) {
        FirstMatchIsUnique(users, email, password, i);
        return Some(i);
      }
      i := i + 1;
    }
    return None;
  }

  /** A matching index with no match before it is the one `FirstCredentialMatch` picks. */
  lemma FirstMatchIsUnique(users: seq<UserRec>, email: string, password: string, i: nat)
    requires i < |users| && Matches(users[i], email, password)
    requires forall j :: 0 <= j < i ==> !Matches(users[j], email, password)
    ensures FirstCredentialMatch(users, email, password) == Some(i)
  {
  }

  /** Appending a record whose email is new keeps the emails distinct. */
  lemma AppendKeepsEmailsDistinct(users: seq<UserRec>, rec: UserRec)
    requires EmailsDistinct(users)
    requires !HasEmail(users, rec.email)
    ensures EmailsDistinct(users + [rec])
  {
  }

  /**
   * When emails are distinct, a record just appended is the first and only
   * match for its own email and password: a login right after a register
   * returns that record's session.
   */
  lemma {:induction false} LoginFindsAppendedRecord(users: seq<UserRec>, rec: UserRec)
    requires !HasEmail(users, rec.email)
    ensures FirstCredentialMatch(users + [rec], rec.email, rec.password) == Some(|users|)
  {
    var s := users + [rec];
    forall j | 0 <= j < |users| ensures !Matches(s[j], rec.email, rec.password) {
      assert s[j] == users[j];
    }
    FirstMatchIsUnique(s, rec.email, rec.password, |users|);
  }

  /** With distinct emails, at most one record matches a given email, so login picks it. */
  lemma DistinctEmailsMatchIsUnique(users: seq<UserRec>, email: string, password: string, i: nat)
    requires EmailsDistinct(users)
    requires i < |users| && Matches(users[i], email, password)
    ensures FirstCredentialMatch(users, email, password) == Some(i)
  {
  }

  /**
   * What `getCurrentUser` returns for a slot: null when the slot is
   * absent, empty or unparseable, otherwise the parsed user.
   */
  function CurrentUserOf(slot: Slot): (u: Option<User>)
    ensures u.Some? <==> slot.Valid?
    ensures slot.Valid? ==> u.value == slot.user
  {
    match slot
    case Valid(user) => Some(user)
    case _ => None
  }

  /** The store: the persisted user list and the persisted session slot. */
  class AuthStore {
    var users: seq<UserRec>
    var session: Slot

    /** The store over whatever local storage holds when the page loads. */
    constructor (persistedUsers: seq<UserRec>, persistedSession: Slot)
      ensures users == persistedUsers && session == persistedSession
    {
      users := persistedUsers;
      session := persistedSession;
    }

    /**
     * `register`: rejects a duplicate email and changes nothing; otherwise
     * appends the record, writes the password-free session and returns it.
     */
    method Register(username: string, email: string, password: string) returns (r: Result<User, AuthError>)
      modifies this
      ensures old(HasEmail(users, email)) ==>
        r == Err(DuplicateEmail) && users == old(users) && session == old(session)
      ensures !old(HasEmail(users, email)) ==>
        r == Ok(User(username, email)) &&
        users == old(users) + [UserRec(username, email, password)] &&
        session == Valid(User(username, email))
      ensures old(EmailsDistinct(users)) ==> EmailsDistinct(users)
    {
      var existing := FindByEmail(users, email);
      if existing.Some? {
        return Err(DuplicateEmail);
      }
      var newUser := UserRec(username, email, password);
      if EmailsDistinct(users) {
        AppendKeepsEmailsDistinct(users, newUser);
      }
      users := users + [newUser];
      var sessionUser := User(username, email);
      session := Valid(sessionUser);
      return Ok(sessionUser);
    }

    /**
     * `login`: the first record matching both email and password becomes
     * the session and is returned; with no match it rejects and nothing
     * changes.  The user list is never written.
     */
    method Login(email: string, password: string) returns (r: Result<User, AuthError>)
      modifies this`session
      ensures users == old(users)
      ensures FirstCredentialMatch(users, email, password).None? ==>
        r == Err(InvalidCredentials) && session == old(session)
      ensures FirstCredentialMatch(users, email, password).Some? ==>
        r == Ok(SessionOf(users[FirstCredentialMatch(users, email, password).value])) &&
        session == Valid(r.value)
    {
      var found := FindByCredentials(users, email, password);
      if found.Some? {
        var sessionUser := SessionOf(users[found.value]);
        session := Valid(sessionUser);
        return Ok(sessionUser);
      }
      return Err(InvalidCredentials);
    }

    /** `logout`: removes the session slot; the user list is untouched. */
    method Logout()
      modifies this`session
      ensures session == Absent
    {
      session := Absent;
    }

    /** `getCurrentUser`: reads the slot without writing and without failing. */
    function GetCurrentUser(): (u: Option<User>)
      reads this
      ensures u.Some? <==> session.Valid?
      ensures u.Some? ==> u.value == session.user
    {
      CurrentUserOf(session)
    }
  }

  /** Registering, then registering the same email again, then logging in. */
  method RegisterScenario(store: AuthStore)
    requires store.users == [] && store.session == Absent
    modifies store
  {
    var r := store.Register("ana", "ana@x.com", "pw1");
    assert r == Ok(User("ana", "ana@x.com"));
    assert |store.users| == 1;
    assert store.GetCurrentUser() == Some(User("ana", "ana@x.com"));
    var again := store.Register("outra", "ana@x.com", "pw9");
    assert store.users[0].email == "ana@x.com";
    assert again == Err(DuplicateEmail);
    store.Logout();
    store.Logout();
    assert store.GetCurrentUser() == None;
    LoginFindsAppendedRecord([], UserRec("ana", "ana@x.com", "pw1"));
    assert store.users == [] + [UserRec("ana", "ana@x.com", "pw1")];
    var back := store.Login("ana@x.com", "pw1");
    assert back == Ok(User("ana", "ana@x.com"));
    assert !Matches(store.users[0], "ana@x.com", "wrong");
    var wrong := store.Login("ana@x.com", "wrong");
    assert wrong == Err(InvalidCredentials);
    assert store.GetCurrentUser() == Some(User("ana", "ana@x.com"));
  }
}
