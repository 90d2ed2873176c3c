/**
 * The authentication provider of src/contexts/AuthContext.tsx: the React state
 * `user` and `isLoading`, the browser storage slot under `safeguard70e_user`,
 * and the four operations that change them (startup load, cross-tab storage
 * event, login against the two built-in test identities, logout).
 *
 * Each operation is first given as a function on an `AuthState` value; the
 * class `AuthProvider` then performs it step by step and is proved to reach
 * exactly the state that function describes.
 */
module AuthContext {
  import opened Types

  /** A `MOCK_USERS` entry: a user record that still carries its password. */
  datatype MockUser = MockUser(id: string, name: string, email: string, role: UserRole, password: string)

  /** The two built-in test identities. */
  const MOCK_USERS: seq<MockUser> := [
    MockUser("1", "Admin User", "admin@example.com", Admin, "password123"),
    MockUser("2", "Tech User", "tech@example.com", Technician, "password123")
  ]

  /** The storage key under which the signed-in user is kept. */
  const USER_STORAGE_KEY: string := "safeguard70e_user"

  /** What the storage slot holds; `Corrupt` is text that `JSON.parse` rejects. */
  datatype Slot = Empty | Stored(user: User) | Corrupt

  /** The exceptions the context raises or lets escape. */
  datatype Error = InvalidCredentials | ParseError | StorageUnavailable

  /** Whether an operation finished normally or an exception left it. */
  datatype Outcome = Ok | Threw(error: Error)

  /**
   * The `message` of each error. Only the credential-mismatch text is the
   * program's own; the other two are placeholders for engine-worded
   * messages, and no modelled handler shows them (`login` throws only the
   * credential mismatch).
   */
  function Message(e: Error): string
  {
    match e
    case InvalidCredentials => "Invalid credentials"
    case ParseError => "SyntaxError: invalid JSON"
    case StorageUnavailable => "SecurityError: storage is unavailable"
  }

  /** One tab's React state together with the storage slot it sees. */
  datatype AuthState = AuthState(user: Option<User>, isLoading: bool, slot: Slot, storageAvailable: bool)

  /** The value the provider hands to consumers. */
  datatype ContextValue = ContextValue(user: Option<User>, isAuthenticated: bool, isLoading: bool)

  /** The state a provider mounts with: no user, still loading. */
  function Initial(slot: Slot, storageAvailable: bool): AuthState
  {
    AuthState(None, true, slot, storageAvailable)
  }

  /** `isAuthenticated: !!user` */
  function Value(s: AuthState): (v: ContextValue)
    ensures v.isAuthenticated <==> v.user != None
    ensures v.user == s.user && v.isLoading == s.isLoading
  {
    ContextValue(s.user, s.user.Some?, s.isLoading)
  }

  predicate Matches(m: MockUser, email: string, password: string)
  {
    m.email == email && m.password == password
  }

  /** `users.find(u => u.email === email && u.password === password)` */
  function FindUser(users: seq<MockUser>, email: string, password: string): (r: Option<MockUser>)
    ensures r.None? <==> forall i :: 0 <= i < |users| ==> !Matches(users[i], email, password)
    ensures r.Some? ==> exists i :: 0 <= i < |users| && users[i] == r.value && Matches(users[i], email, password) &&
                                    forall j :: 0 <= j < i ==> !Matches(users[j], email, password)
  {
    if users == [] then None
    else if Matches(users[0], email, password) then Some(users[0])
    else
      var r := FindUser(users[1..], email, password);
      assert forall i :: 1 <= i < |users| ==> users[i] == users[1..][i - 1];
      r
  }

  /** The stored record: the entry with its password removed. */
  function WithoutPassword(m: MockUser): User
  {
    User(m.id, m.name, m.email, m.role)
  }

  /** `loadUserFromStorage`, run once when the provider mounts. */
  function LoadStep(s: AuthState): (AuthState, Outcome)
  {
    if !s.storageAvailable then
      // getItem throws; the catch block's removeItem throws again and escapes
      (s.(isLoading := false), Threw(StorageUnavailable))
    else
      match s.slot
      case Empty => (s.(isLoading := false), Ok)
      case Stored(u) => (s.(user := Some(u), isLoading := false), Ok)
      case Corrupt => (s.(slot := Empty, isLoading := false), Ok)
  }

  /** `handleStorageChange`: another tab wrote `newValue` under `key`. */
  function StorageEventStep(s: AuthState, key: string, newValue: Slot): (AuthState, Outcome)
  {
    if key != USER_STORAGE_KEY then (s, Ok)
    else
      match newValue
      case Empty => (s.(user := None), Ok)
      case Stored(u) => (s.(user := Some(u)), Ok)
      case Corrupt => (s, Threw(ParseError))
  }

  /** `login(email, password)` */
  function LoginStep(s: AuthState, email: string, password: string): (AuthState, Outcome)
  {
    match FindUser(MOCK_USERS, email, password)
    case Some(m) =>
      var u := WithoutPassword(m);
      (s.(user := Some(u), isLoading := false, slot := if s.storageAvailable then Stored(u) else s.slot), Ok)
    case None =>
      (s.(isLoading := false), Threw(InvalidCredentials))
  }

  /** `logout()` */
  function LogoutStep(s: AuthState): AuthState
  {
    s.(user := None, slot := if s.storageAvailable then Empty else s.slot)
  }

  /** Login succeeds exactly for an email/password pair of a built-in test identity. */
  lemma LoginSucceedsIffTestIdentity(s: AuthState, email: string, password: string)
    ensures LoginStep(s, email, password).1 == Ok <==>
              exists i :: 0 <= i < |MOCK_USERS| && MOCK_USERS[i].email == email && MOCK_USERS[i].password == password
  {
  }

  /**
   * A matching pair signs in as that identity without its password, stores the
   * same record (when storage works) and ends loaded and authenticated.
   */
  lemma LoginSuccess(s: AuthState, i: nat)
    requires i < |MOCK_USERS|
    ensures var (t, o) := LoginStep(s, MOCK_USERS[i].email, MOCK_USERS[i].password);
            o == Ok && t.user == Some(WithoutPassword(MOCK_USERS[i])) &&
            Value(t).isAuthenticated && !t.isLoading &&
            t.slot == (if s.storageAvailable then Stored(WithoutPassword(MOCK_USERS[i])) else s.slot)
  {
    var m := MOCK_USERS[i];
    var r := FindUser(MOCK_USERS, m.email, m.password);
    assert Matches(MOCK_USERS[i], m.email, m.password);
    assert r.Some?;
    assert r.value == m;
  }

  /** A non-matching pair throws "Invalid credentials" and changes nothing but `isLoading`. */
  lemma LoginFailure(s: AuthState, email: string, password: string)
    requires forall i :: 0 <= i < |MOCK_USERS| ==> !Matches(MOCK_USERS[i], email, password)
    ensures var (t, o) := LoginStep(s, email, password);
            o == Threw(InvalidCredentials) && Message(o.error) == "Invalid credentials" &&
            t == s.(isLoading := false)
  {
  }

  /** Logout signs out, empties the slot when storage works, and is idempotent. */
  lemma LogoutSignsOut(s: AuthState)
    ensures !Value(LogoutStep(s)).isAuthenticated
    ensures LogoutStep(s).slot == (if s.storageAvailable then Empty else s.slot)
    ensures LogoutStep(s).isLoading == s.isLoading
    ensures LogoutStep(LogoutStep(s)) == LogoutStep(s)
  {
  }

  /**
   * The startup load always ends loaded; a stored user is adopted, an empty
   * slot adopts nothing, and corrupt data is removed without an exception.
   */
  lemma LoadIsFailSafe(s: AuthState)
    ensures !LoadStep(s).0.isLoading
    ensures s.storageAvailable && s.slot.Stored? ==> LoadStep(s).0.user == Some(s.slot.user)
    ensures s.slot.Empty? || !s.storageAvailable ==> LoadStep(s).0.user == s.user
    ensures s.storageAvailable && s.slot.Corrupt? ==>
              LoadStep(s) == (s.(slot := Empty, isLoading := false), Ok)
    ensures LoadStep(s).1.Threw? <==> !s.storageAvailable
  {
  }

  /** After a successful login a fresh provider over the same storage restores the same user. */
  lemma LoginThenReload(s: AuthState, email: string, password: string)
    requires s.storageAvailable
    requires LoginStep(s, email, password).1 == Ok
    ensures var t := LoginStep(s, email, password).0;
            LoadStep(Initial(t.slot, t.storageAvailable)) == (t, Ok)
  {
  }

  /**
   * A storage event for the auth key adopts the new value (a cleared value
   * signs out; an unparsable one throws and changes nothing); events for
   * other keys change nothing. The slot itself is never written.
   */
  lemma StorageEventEffects(s: AuthState, key: string, newValue: Slot)
    ensures var (t, o) := StorageEventStep(s, key, newValue);
            t.slot == s.slot && t.isLoading == s.isLoading &&
            (key != USER_STORAGE_KEY ==> t == s && o == Ok) &&
            (key == USER_STORAGE_KEY && newValue.Empty? ==> t.user == None && o == Ok) &&
            (key == USER_STORAGE_KEY && newValue.Stored? ==> t.user == Some(newValue.user) && o == Ok) &&
            (key == USER_STORAGE_KEY && newValue.Corrupt? ==> t == s && o == Threw(ParseError))
  {
  }

  /** `localStorage`, shared by every tab of the browser profile; only the auth slot is modelled. */
  class LocalStorage {
    var slot: Slot
    /** False when the browser refuses storage access: every call then throws. */
    var available: bool

    constructor (slot: Slot, available: bool)
      ensures this.slot == slot && this.available == available
    {
      this.slot := slot;
      this.available := available;
    }
  }

  /** One mounted `AuthProvider`: the state of one tab. */
  class AuthProvider {
    var user: Option<User>
    var isLoading: bool
    const storage: LocalStorage

    constructor (storage: LocalStorage)
      ensures this.storage == storage
      ensures State() == Initial(storage.slot, storage.available)
    {
      this.storage := storage;
      user := None;
      isLoading := true;
    }

    function State(): AuthState
      reads this, storage
    {
      AuthState(user, isLoading, storage.slot, storage.available)
    }

    method LoadUserFromStorage() returns (outcome: Outcome)
      modifies this, storage
      ensures (State(), outcome) == LoadStep(old(State()))
    {
      if !storage.available {
        // getItem throws; the catch block logs and calls removeItem, which throws again
        outcome := Threw(StorageUnavailable);
      } else {
        match storage.slot
        case Empty =>
          outcome := Ok;
        case Stored(u) =>
          user := Some(u);
          outcome := Ok;
        case Corrupt =>
          // JSON.parse throws; the catch block clears the corrupted slot
          storage.slot := Empty;
          outcome := Ok;
      }
      isLoading := false;
    }

    method HandleStorageChange(key: string, newValue: Slot) returns (outcome: Outcome)
      modifies this`user
      ensures (State(), outcome) == StorageEventStep(old(State()), key, newValue)
    {
      outcome := Ok;
      if key == USER_STORAGE_KEY {
        match newValue
        case Empty =>
          user := None;
        case Stored(u) =>
          user := Some(u);
        case Corrupt =>
          // JSON.parse throws out of the listener; nothing is set
          outcome := Threw(ParseError);
      }
    }

    method Login(email: string, password: string) returns (outcome: Outcome)
      modifies this, storage
      ensures (State(), outcome) == LoginStep(old(State()), email, password)
    {
      isLoading := true;
      var found := FindUser(MOCK_USERS, email, password);
      if found.Some? {
        var u := WithoutPassword(found.value);
        user := Some(u);
        if storage.available {
          storage.slot := Stored(u);
        }
        // otherwise setItem throws and the error is only logged
        outcome := Ok;
      } else {
        outcome := Threw(InvalidCredentials);
      }
      isLoading := false;
    }

    method Logout()
      modifies this, storage
      ensures State() == LogoutStep(old(State()))
    {
      user := None;
      if storage.available {
        storage.slot := Empty;
      }
      // otherwise removeItem throws and the error is only logged
    }
  }

  /**
   * A successful login followed by a page reload (a fresh provider loading
   * from the same storage) restores the same user.
   */
  method ReloadAfterLogin(email: string, password: string) returns (loggedIn: Option<User>, restored: Option<User>)
    ensures FindUser(MOCK_USERS, email, password).Some? ==> loggedIn.Some? && restored == loggedIn
    ensures FindUser(MOCK_USERS, email, password).None? ==> loggedIn == None && restored == None
  {
    var store := new LocalStorage(Empty, true);
    var tab := new AuthProvider(store);
    var _ := tab.LoadUserFromStorage();
    var _ := tab.Login(email, password);
    loggedIn := tab.user;
    var reloaded := new AuthProvider(store);
    var _ := reloaded.LoadUserFromStorage();
    restored := reloaded.user;
  }

  /**
   * Two tabs share one storage; both are signed in. Tab A logs out; the
   * storage event it causes in tab B signs tab B out too.
   */
  method LogoutReachesOtherTab(i: nat) returns (userA: Option<User>, userB: Option<User>)
    requires i < |MOCK_USERS|
    ensures userA == None && userB == None
  {
    var store := new LocalStorage(Empty, true);
    var tabA := new AuthProvider(store);
    var tabB := new AuthProvider(store);
    var _ := tabA.LoadUserFromStorage();
    var _ := tabB.LoadUserFromStorage();
    var _ := tabA.Login(MOCK_USERS[i].email, MOCK_USERS[i].password);
    LoginSuccess(Initial(Empty, true).(isLoading := false), i);
    var _ := tabB.HandleStorageChange(USER_STORAGE_KEY, store.slot);
    assert tabB.user.Some?;
    tabA.Logout();
    var _ := tabB.HandleStorageChange(USER_STORAGE_KEY, store.slot);
    userA, userB := tabA.user, tabB.user;
  }
}
