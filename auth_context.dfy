/** The frontend session (frontend/src/context/AuthContext.js): the
    `AuthProvider` state `user`, `isAuthenticated`, `error`, the two
    `localStorage` keys `token` and `user`, the effect that restores a session
    on mount, and `login`, `register`, `logout`. The outcome of each API call
    is a parameter. */
module AuthContext {
  import opened Common
  import opened Credentials

  const TokenKey := "token"
  const UserKey := "user"

  const LoginFallback := "Identifiants incorrects"
  const RegisterFallback := "Email déjà utilisé"
  const RegisterSuccessFallback := "Utilisateur créé avec succès"

  const DashboardPath := "/dashboard"
  const LoginPath := "/login"

  /** The client libraries: whether `jwtDecode` accepts a token (it throws
      otherwise), and `JSON.stringify`/`JSON.parse` on the stored user.
      `parse` yields None where `JSON.parse` throws, Some(None) for the text
      of JSON `null`, and Some(Some(u)) for the text of a user. */
  datatype ClientLibs = ClientLibs(
    decodes: string -> bool,
    stringify: PublicUser -> string,
    parse: string -> Option<Option<PublicUser>>)

  /** `JSON.parse(JSON.stringify(u))` gives back `u`, and the text of an
      object is never empty. */
  ghost predicate JsonRoundTrips(libs: ClientLibs) {
    forall u :: libs.parse(libs.stringify(u)) == Some(Some(u)) && libs.stringify(u) != ""
  }

  /** The provider's state together with `localStorage`. */
  datatype Session = Session(
    user: Option<PublicUser>,
    isAuthenticated: bool,
    error: Option<string>,
    storage: map<string, string>)

  /** What `loginUser` resolved to, or the `response.data.message` of the
      error it rejected with. */
  datatype LoginOutcome = LoginOk(token: string, user: PublicUser) | LoginFailed(message: Option<string>)

  /** What `registerUser` resolved to (its `response.data.message`), or the
      message of the error it rejected with. */
  datatype RegisterOutcome = RegisterOk(message: Option<string>) | RegisterFailed(message: Option<string>)

  /** The effects besides the state: the `alert` shown, the path navigated to,
      and the message of a returned `{ error }` object. */
  datatype Feedback = Feedback(alert: Option<string>, navigate: Option<string>, returnedError: Option<string>)

  /** `localStorage.getItem(key)`: None plays `null`. */
  function GetItem(storage: map<string, string>, key: string): Option<string> {
    if key in storage then Some(storage[key]) else None
  }

  /** The session invariant: an authenticated session always has a user. */
  predicate Consistent(s: Session) {
    s.isAuthenticated ==> s.user.Some?
  }

  /** The state before the mount effect runs: the `useState` initial values. */
  function Initial(storage: map<string, string>): (s: Session)
    ensures s.user == None && !s.isAuthenticated && s.error == None
    ensures s.storage == storage
    ensures Consistent(s)
  {
    Session(None, false, None, storage)
  }

  /** The mount effect: with both keys set, a token that decodes and a user
      that parses authenticate the stored user; if either throws, both keys
      are removed; with a key missing nothing happens. */
  function Restore(s: Session, libs: ClientLibs): (t: Session)
    ensures t.error == s.error
    ensures var token, userText := GetItem(s.storage, TokenKey), GetItem(s.storage, UserKey);
            && (!Truthy(token) || !Truthy(userText) ==> t == s)
            && (Truthy(token) && Truthy(userText) && libs.decodes(token.value) && libs.parse(userText.value).Some? ==>
                  t == s.(user := libs.parse(userText.value).value, isAuthenticated := true))
            && (Truthy(token) && Truthy(userText) && !(libs.decodes(token.value) && libs.parse(userText.value).Some?) ==>
                  t == s.(storage := s.storage - {TokenKey, UserKey}))
  {
    var token, userText := GetItem(s.storage, TokenKey), GetItem(s.storage, UserKey);
    if Truthy(token) && Truthy(userText) then
      if libs.decodes(token.value) && libs.parse(userText.value).Some? then
        s.(user := libs.parse(userText.value).value, isAuthenticated := true)
      else
        s.(storage := s.storage - {TokenKey, UserKey})
    else s
  }

  /** `login(credentials)`: on success both keys are written, the user is set
      and the session is authenticated; on failure only `error` changes, to the
      server's message or "Identifiants incorrects". */
  function AfterLogin(s: Session, outcome: LoginOutcome, libs: ClientLibs): (t: Session)
    ensures outcome.LoginOk? ==>
              && t.isAuthenticated && t.user == Some(outcome.user) && t.error == None
              && GetItem(t.storage, TokenKey) == Some(outcome.token)
              && GetItem(t.storage, UserKey) == Some(libs.stringify(outcome.user))
              && forall k :: k != TokenKey && k != UserKey ==> GetItem(t.storage, k) == GetItem(s.storage, k)
    ensures outcome.LoginFailed? ==>
              && t.user == s.user && t.isAuthenticated == s.isAuthenticated && t.storage == s.storage
              && t.error == Some(MessageOr(outcome.message, LoginFallback))
  {
    match outcome
    case LoginOk(token, user) =>
      Session(Some(user), true, None, s.storage[TokenKey := token][UserKey := libs.stringify(user)])
    case LoginFailed(message) =>
      s.(error := Some(MessageOr(message, LoginFallback)))
  }

  /** `register(userData)`: `error` is cleared, and on failure set to the
      server's message or "Email déjà utilisé"; nothing else changes. */
  function AfterRegister(s: Session, outcome: RegisterOutcome): (t: Session)
    ensures t.user == s.user && t.isAuthenticated == s.isAuthenticated && t.storage == s.storage
    ensures t.error == match outcome
                       case RegisterOk(_) => None
                       case RegisterFailed(m) => Some(MessageOr(m, RegisterFallback))
  {
    match outcome
    case RegisterOk(_) => s.(error := None)
    case RegisterFailed(message) => s.(error := Some(MessageOr(message, RegisterFallback)))
  }

  /** `logout()`: both keys go, the user is cleared and the session is no
      longer authenticated; `error` and the other storage keys stay. */
  function AfterLogout(s: Session): (t: Session)
    ensures t.user == None && !t.isAuthenticated && t.error == s.error
    ensures TokenKey !in t.storage && UserKey !in t.storage
    ensures forall k :: k != TokenKey && k != UserKey ==> GetItem(t.storage, k) == GetItem(s.storage, k)
  {
    Session(None, false, s.error, s.storage - {TokenKey, UserKey})
  }

  /** The mount effect's one way into an authenticated session without a
      user: both keys are set, the token decodes and the stored user text is
      JSON `null`, so `setUser(null)` runs and `setIsAuthenticated(true)`
      follows. */
  predicate RestoresNullUser(s: Session, libs: ClientLibs) {
    var token, userText := GetItem(s.storage, TokenKey), GetItem(s.storage, UserKey);
    Truthy(token) && Truthy(userText) && libs.decodes(token.value) && libs.parse(userText.value) == Some(None)
  }

  /** The mount effect keeps the session invariant exactly when the stored
      user text is not JSON `null`. */
  lemma RestoreConsistentUnlessNull(s: Session, libs: ClientLibs)
    requires Consistent(s)
    ensures Consistent(Restore(s, libs)) <==> !RestoresNullUser(s, libs)
  {
  }

  /** A stored user text "null" beside a token that decodes gives an
      authenticated session with no user. */
  lemma NullUserAuthenticates(token: string, libs: ClientLibs)
    requires token != "" && libs.decodes(token) && libs.parse("null") == Some(None)
    ensures var t := Restore(Initial(map[TokenKey := token, UserKey := "null"]), libs);
            t.isAuthenticated && t.user == None
  {
  }

  /** Login, register and logout keep the session invariant, and a
      successful login or a logout establishes it from any state. */
  lemma TransitionsKeepConsistent(s: Session, libs: ClientLibs, login: LoginOutcome, register: RegisterOutcome)
    ensures Consistent(s) ==> Consistent(AfterLogin(s, login, libs)) && Consistent(AfterRegister(s, register))
    ensures login.LoginOk? ==> Consistent(AfterLogin(s, login, libs))
    ensures Consistent(AfterLogout(s))
  {
  }

  /** Logging out twice is the same as logging out once. */
  lemma LogoutIdempotent(s: Session)
    ensures AfterLogout(AfterLogout(s)) == AfterLogout(s)
  {
  }

  /** A failed login leaves the session's authentication and storage as
      they were, whatever they were. */
  lemma FailedLoginKeepsSession(s: Session, message: Option<string>, libs: ClientLibs)
    ensures var t := AfterLogin(s, LoginFailed(message), libs);
            t.isAuthenticated == s.isAuthenticated && t.user == s.user && t.storage == s.storage
            && t.error.Some? && t.error.value != ""
  {
  }

  /** Round trip through storage: after a successful login, a reload (a fresh
      provider over the same storage) restores the same user, authenticated. */
  lemma LoginSurvivesReload(s: Session, token: string, user: PublicUser, libs: ClientLibs)
    requires JsonRoundTrips(libs) && token != "" && libs.decodes(token)
    ensures var stored := AfterLogin(s, LoginOk(token, user), libs).storage;
            Restore(Initial(stored), libs) == Session(Some(user), true, None, stored)
  {
  }

  /** After a logout, a reload starts unauthenticated and leaves storage alone. */
  lemma LogoutSurvivesReload(s: Session, libs: ClientLibs)
    ensures var stored := AfterLogout(s).storage;
            Restore(Initial(stored), libs) == Initial(stored)
  {
  }

  /** The `AuthProvider` component's state, updated by its setters, and the
      browser's `localStorage`, updated by `setItem`/`removeItem`. */
  class AuthProvider {
    var user: Option<PublicUser>
    var isAuthenticated: bool
    var error: Option<string>
    var storage: map<string, string>

    function State(): Session
      reads this
    {
      Session(user, isAuthenticated, error, storage)
    }

    ghost predicate Valid()
      reads this
    {
      Consistent(State())
    }

    /** The first render: the `useState` initial values over the storage
        the browser already holds. */
    constructor (storage: map<string, string>)
      ensures user == None && !isAuthenticated && error == None && this.storage == storage
      ensures State() == Initial(storage)
      ensures Valid()
    {
      user := None;
      isAuthenticated := false;
      error := None;
      this.storage := storage;
    }

    /** The `useEffect` run on mount. */
    method Mount(libs: ClientLibs)
      modifies this
      ensures old(Valid()) ==> (Valid() <==> !RestoresNullUser(old(State()), libs))
      ensures State() == Restore(old(State()), libs)
    {
      var token := GetItem(storage, TokenKey);
      var userText := GetItem(storage, UserKey);
      if Truthy(token) && Truthy(userText) {
        if libs.decodes(token.value) {
          var parsed := libs.parse(userText.value);
          if parsed.Some? {
            user := parsed.value;
            isAuthenticated := true;
            return;
          }
        }
        storage := storage - {TokenKey};
        storage := storage - {UserKey};
      }
    }

    method Login(outcome: LoginOutcome, libs: ClientLibs) returns (feedback: Feedback)
      modifies this
      ensures old(Valid()) || outcome.LoginOk? ==> Valid()
      ensures State() == AfterLogin(old(State()), outcome, libs)
      ensures outcome.LoginOk? ==> feedback == Feedback(None, Some(DashboardPath), None)
      ensures outcome.LoginFailed? ==>
                var m := MessageOr(outcome.message, LoginFallback);
                feedback == Feedback(Some(m), None, Some(m))
    {
      error := None;
      match outcome
      case LoginOk(token, u) =>
        storage := storage[TokenKey := token];
        storage := storage[UserKey := libs.stringify(u)];
        user := Some(u);
        isAuthenticated := true;
        feedback := Feedback(None, Some(DashboardPath), None);
      case LoginFailed(message) =>
        var m := MessageOr(message, LoginFallback);
        error := Some(m);
        feedback := Feedback(Some(m), None, Some(m));
    }

    method Register(outcome: RegisterOutcome) returns (feedback: Feedback)
      modifies this
      ensures old(Valid()) ==> Valid()
      ensures State() == AfterRegister(old(State()), outcome)
      ensures outcome.RegisterOk? ==>
                feedback == Feedback(Some(MessageOr(outcome.message, RegisterSuccessFallback)), Some(LoginPath), None)
      ensures outcome.RegisterFailed? ==>
                var m := MessageOr(outcome.message, RegisterFallback);
                feedback == Feedback(Some(m), None, Some(m))
    {
      error := None;
      match outcome
      case RegisterOk(message) =>
        feedback := Feedback(Some(MessageOr(message, RegisterSuccessFallback)), Some(LoginPath), None);
      case RegisterFailed(message) =>
        var m := MessageOr(message, RegisterFallback);
        error := Some(m);
        feedback := Feedback(Some(m), None, Some(m));
    }

    method Logout() returns (feedback: Feedback)
      modifies this
      ensures Valid()
      ensures State() == AfterLogout(old(State()))
      ensures feedback == Feedback(None, Some(LoginPath), None)
    {
      storage := storage - {TokenKey};
      storage := storage - {UserKey};
      user := None;
      isAuthenticated := false;
      feedback := Feedback(None, Some(LoginPath), None);
    }
  }
}
