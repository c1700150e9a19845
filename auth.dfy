// Demo authentication (src/contexts/auth-context.tsx): three hard-coded
// accounts, a session kept in browser storage under one key, and the
// provider's state (current user and loading flag).
//
// Browser storage is a map from keys to stored items. A stored item is either
// a session written by this code or some other text, which reading back
// either parses as a user or fails to parse.

module Auth {
  import opened Wrappers

  /** The public part of an account, as kept in the session. */
  datatype User = User(id: string, username: string, email: string, role: string)

  datatype DemoAccount = DemoAccount(id: string, username: string, password: string,
                                     email: string, role: string)

  /** A value under a storage key: a session this code wrote, or text that parses (or not) as a user. */
  datatype StoredItem =
    | Session(user: User)
    | Other(raw: string, parsed: Option<User>)

  datatype AuthState = AuthState(user: Option<User>, isLoading: bool, storage: map<string, StoredItem>)

  const SessionKey: string := "soa-dashboard-user"

  const DemoUsers: seq<DemoAccount> := [
    DemoAccount("1", "admin", "admin123", "admin@soa.com", "Administrator"),
    DemoAccount("2", "analyst", "analyst123", "analyst@soa.com", "Data Analyst"),
    DemoAccount("3", "viewer", "viewer123", "viewer@soa.com", "Viewer")
  ]

  predicate Matches(a: DemoAccount, username: string, password: string)
  {
    a.username == username && a.password == password
  }

  /** The first demo account whose username and password both match. */
  function FindUser(username: string, password: string): (r: Option<DemoAccount>)
    ensures r.Some? <==> exists i :: 0 <= i < |DemoUsers| && Matches(DemoUsers[i], username, password)
    ensures r.Some? ==> r.value in DemoUsers && Matches(r.value, username, password)
  {
    FindFrom(DemoUsers, username, password)
  }

  function FindFrom(accounts: seq<DemoAccount>, username: string, password: string): (r: Option<DemoAccount>)
    ensures r.Some? <==> exists i :: 0 <= i < |accounts| && Matches(accounts[i], username, password)
    ensures r.Some? ==> r.value in accounts && Matches(r.value, username, password)
  {
    if accounts == [] then None
    else if Matches(accounts[0], username, password) then Some(accounts[0])
    else FindFrom(accounts[1..], username, password)
  }

  /** The session for an account: everything but the password. */
  function SessionOf(a: DemoAccount): User
  {
    User(a.id, a.username, a.email, a.role)
  }

  /** The session stored under a key is truthy: a written session always is, other text when non-empty. */
  predicate IsTruthy(item: StoredItem)
  {
    item.Session? || item.raw != ""
  }

  /** The mount effect: restore a saved session, dropping one that does not parse. */
  function MountStep(s: AuthState): (t: AuthState)
  {
    if SessionKey in s.storage && IsTruthy(s.storage[SessionKey]) then
      match s.storage[SessionKey]
      case Session(u) => s.(user := Some(u), isLoading := false)
      case Other(_, Some(u)) => s.(user := Some(u), isLoading := false)
      case Other(_, None) => s.(isLoading := false, storage := s.storage - {SessionKey})
    else s.(isLoading := false)
  }

  /** login: on matching credentials the session becomes current and is saved. */
  function LoginStep(s: AuthState, username: string, password: string): (AuthState, bool)
  {
    match FindUser(username, password)
    case Some(a) =>
      (AuthState(Some(SessionOf(a)), false, s.storage[SessionKey := Session(SessionOf(a))]), true)
    case None =>
      (s.(isLoading := false), false)
  }

  /** logout: forget the current session in state and in storage. */
  function LogoutStep(s: AuthState): AuthState
  {
    s.(user := None, storage := s.storage - {SessionKey})
  }

  /** Login succeeds exactly for the credentials of a demo account; the session is that account without its password. */
  lemma LoginIffDemoCredentials(s: AuthState, username: string, password: string)
    ensures var (t, ok) := LoginStep(s, username, password);
      && (ok <==> exists i :: 0 <= i < |DemoUsers| && DemoUsers[i].username == username
                                && DemoUsers[i].password == password)
      && (ok ==> t.user.Some? && t.user.value.username == username
                 && exists i :: 0 <= i < |DemoUsers| && t.user.value == SessionOf(DemoUsers[i]))
      && !t.isLoading
  {
  }

  /** A failed login keeps whatever session was current and leaves storage untouched. */
  lemma FailedLoginKeepsSession(s: AuthState, username: string, password: string)
    requires !LoginStep(s, username, password).1
    ensures LoginStep(s, username, password).0.user == s.user
    ensures LoginStep(s, username, password).0.storage == s.storage
  {
  }

  /** A session saved by login is restored by the next mount. */
  lemma LoginThenMount(s: AuthState, username: string, password: string, next: AuthState)
    requires LoginStep(s, username, password).1
    requires next.storage == LoginStep(s, username, password).0.storage
    ensures MountStep(next).user == LoginStep(s, username, password).0.user
    ensures MountStep(next).user.Some?
  {
  }

  /** After logout a newly mounted provider restores nothing, and other storage keys are untouched. */
  lemma LogoutThenMount(s: AuthState, next: AuthState)
    requires next.storage == LogoutStep(s).storage && next.user.None?
    ensures MountStep(next).user.None?
    ensures LogoutStep(s).user.None?
    ensures forall k :: k in s.storage && k != SessionKey ==> k in LogoutStep(s).storage
  {
  }

  /** A saved value that does not parse is removed and restores nothing; an empty one is left alone. */
  lemma MountDropsMalformed(s: AuthState)
    requires SessionKey in s.storage && s.storage[SessionKey].Other?
    ensures s.storage[SessionKey].raw != "" && s.storage[SessionKey].parsed.None? ==>
      SessionKey !in MountStep(s).storage && MountStep(s).user == s.user
    ensures s.storage[SessionKey].raw == "" ==> MountStep(s) == s.(isLoading := false)
  {
  }

  /** Mounting always ends loading; a saved value that parses becomes the current user and stays saved. */
  lemma MountRestoresParsed(s: AuthState)
    ensures !MountStep(s).isLoading
    ensures SessionKey in s.storage && s.storage[SessionKey].Other? && s.storage[SessionKey].raw != ""
            && s.storage[SessionKey].parsed.Some? ==>
      MountStep(s).user == s.storage[SessionKey].parsed && MountStep(s).storage == s.storage
    ensures SessionKey !in s.storage ==> MountStep(s) == s.(isLoading := false)
  {
  }

  lemma AdminLogin(s: AuthState)
    ensures LoginStep(s, "admin", "admin123").1
    ensures LoginStep(s, "admin", "admin123").0.user == Some(User("1", "admin", "admin@soa.com", "Administrator"))
  {
  }

  lemma WrongPasswordFails(s: AuthState)
    ensures !LoginStep(s, "admin", "analyst123").1
  {
  }

  /** The provider's state, updated in place. */
  class AuthProvider {
    var user: Option<User>
    var isLoading: bool
    var storage: map<string, StoredItem>

    function State(): AuthState
      reads this
    {
      AuthState(user, isLoading, storage)
    }

    predicate IsAuthenticated()
      reads this
    {
      user.Some?
    }

    /** A provider starts with no user, loading, over the browser's storage. */
    constructor(browserStorage: map<string, StoredItem>)
      ensures State() == AuthState(None, true, browserStorage)
    {
      user, isLoading, storage := None, true, browserStorage;
    }

    method Mount()
      modifies this
      ensures State() == MountStep(old(State()))
    {
      if SessionKey in storage && IsTruthy(storage[SessionKey]) {
        match storage[SessionKey] {
          case Session(u) => user := Some(u);
          case Other(_, Some(u)) => user := Some(u);
          case Other(_, None) => storage := storage - {SessionKey};
        }
      }
      isLoading := false;
    }

    method Login(username: string, password: string) returns (ok: bool)
      modifies this
      ensures (State(), ok) == LoginStep(old(State()), username, password)
      ensures ok ==> IsAuthenticated()
    {
      isLoading := true;
      var found := FindUser(username, password);
      if found.Some? {
        var session := SessionOf(found.value);
        user := Some(session);
        storage := storage[SessionKey := Session(session)];
        isLoading := false;
        return true;
      }
      isLoading := false;
      return false;
    }

    method Logout()
      modifies this
      ensures State() == LogoutStep(old(State()))
      ensures !IsAuthenticated()
    {
      user := None;
      storage := storage - {SessionKey};
    }
  }
}
