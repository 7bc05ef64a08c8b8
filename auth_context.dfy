/** The mock admin session: whether the admin is signed in, under which
    email, the `adminAuth` record kept in the browser's local storage, and the
    current route. Any non-empty email and password are accepted. */
module AuthContext {
  import opened Wrappers

  /** The record stored under `adminAuth`. `email` is absent when the slot
      holds a record that some other code wrote without one. */
  datatype StoredAuth = StoredAuth(email: Option<string>)

  /** A snapshot of the provider's state together with the storage slot and
      the route it writes. */
  datatype Session = Session(
    isAuthenticated: bool,
    adminEmail: Option<string>,
    stored: Option<StoredAuth>,
    route: string)

  const DashboardRoute: string := "/dashboard"
  const HomeRoute: string := "/"

  /** What the provider exposes as its context value. */
  datatype AuthContextValue = AuthContextValue(isAuthenticated: bool, adminEmail: Option<string>)

  /** The context value a session exposes to `useAuth` callers. */
  function ContextOf(s: Session): AuthContextValue
  {
    AuthContextValue(s.isAuthenticated, s.adminEmail)
  }

  /** The session right after the provider is created: signed out, whatever
      storage and route the browser already has. */
  function Initial(stored: Option<StoredAuth>, route: string): (s: Session)
    ensures !s.isAuthenticated && s.adminEmail == None
    ensures s.stored == stored && s.route == route
  {
    Session(false, None, stored, route)
  }

  /** The mount effect: a stored record signs the admin in under its email;
      with no record nothing changes. */
  function Restored(s: Session): Session
  {
    match s.stored
    case Some(rec) => s.(adminEmail := rec.email, isAuthenticated := true)
    case None => s
  }

  /** `login`: with a non-empty email and password, signs in, stores a
      record holding the email alone and goes to the dashboard; otherwise
      does nothing. */
  function LoggedIn(s: Session, email: string, password: string): Session
  {
    if email != [] && password != [] then
      Session(true, Some(email), Some(StoredAuth(Some(email))), DashboardRoute)
    else s
  }

  /** `logout`: signs out, removes the stored record and goes home. */
  function LoggedOut(s: Session): Session
  {
    Session(false, None, None, HomeRoute)
  }

  /** The provider is signed in exactly when it knows an email. */
  predicate Consistent(s: Session)
  {
    s.isAuthenticated <==> s.adminEmail.Some?
  }

  /** The storage slot is empty or holds what `login` writes: a record with
      a non-empty email. */
  predicate StoredByLogin(s: Session)
  {
    s.stored.Some? ==> s.stored.value.email.Some? && s.stored.value.email.value != []
  }

  /** The operations the provider offers, for reasoning about runs. */
  datatype Event = Mount | Login(email: string, password: string) | Logout

  function Step(s: Session, e: Event): Session
  {
    match e
    case Mount => Restored(s)
    case Login(email, password) => LoggedIn(s, email, password)
    case Logout => LoggedOut(s)
  }

  function Run(s: Session, events: seq<Event>): Session
    decreases |events|
  {
    if events == [] then s else Run(Step(s, events[0]), events[1..])
  }

  /** A login with an empty email or an empty password changes nothing: no
      state, no storage, no route. */
  lemma LoginNeedsBothFields(s: Session, email: string, password: string)
    requires email == [] || password == []
    ensures LoggedIn(s, email, password) == s
  {
  }

  /** A successful login signs in under that email, stores that email and
      nothing else (never the password), and routes to the dashboard. */
  lemma LoginSucceeds(s: Session, email: string, password: string)
    requires email != [] && password != []
    ensures var t := LoggedIn(s, email, password);
      && t.isAuthenticated && t.adminEmail == Some(email)
      && t.stored == Some(StoredAuth(Some(email)))
      && t.route == DashboardRoute
      && Consistent(t) && StoredByLogin(t)
  {
  }

  /** Logging out signs out, clears storage and routes home, from any
      state; a second logout changes nothing more. */
  lemma LogoutClears(s: Session)
    ensures var t := LoggedOut(s);
      && !t.isAuthenticated && t.adminEmail == None && t.stored == None && t.route == HomeRoute
    ensures LoggedOut(LoggedOut(s)) == LoggedOut(s)
  {
  }

  /** On mount, a stored record signs in under its email; no record leaves
      the state as it was. */
  lemma RestoreReadsStorage(s: Session)
    ensures s.stored.Some? ==> Restored(s).isAuthenticated && Restored(s).adminEmail == s.stored.value.email
    ensures s.stored.None? ==> Restored(s) == s
  {
  }

  /** A record without an email in the slot breaks the invariant: the mount
      effect signs in with no email. This is why the invariant below needs
      the slot to have been written by `login`. */
  lemma RestoreOfForeignRecord(route: string)
    ensures !Consistent(Restored(Initial(Some(StoredAuth(None)), route)))
  {
  }

  /** Every operation keeps the invariant "signed in exactly when an email
      is known", as long as the slot only ever holds what `login` writes. */
  lemma StepPreservesInvariant(s: Session, e: Event)
    requires Consistent(s) && StoredByLogin(s)
    ensures Consistent(Step(s, e)) && StoredByLogin(Step(s, e))
  {
  }

  /** Starting from the initial state with storage written by `login` (or
      empty), the invariant holds after any sequence of operations. */
  lemma {:induction false} RunPreservesInvariant(s: Session, events: seq<Event>)
    requires Consistent(s) && StoredByLogin(s)
    ensures Consistent(Run(s, events)) && StoredByLogin(Run(s, events))
    decreases |events|
  {
    if events != [] {
      StepPreservesInvariant(s, events[0]);
      RunPreservesInvariant(Step(s, events[0]), events[1..]);
    }
  }

  lemma InitialSatisfiesInvariant(stored: Option<StoredAuth>, route: string)
    requires StoredByLogin(Session(false, None, stored, route))
    ensures Consistent(Initial(stored, route)) && StoredByLogin(Initial(stored, route))
  {
  }

  /** Login followed by logout leaves the session and storage as in a fresh
      browser: signed out, no email, nothing stored, at the home route. */
  lemma LoginLogoutRoundTrip(s: Session, email: string, password: string)
    ensures LoggedOut(LoggedIn(s, email, password)) == Initial(None, HomeRoute)
  {
  }

  /** `useAuth`: the context value, or the error it throws when no provider
      is above the caller. */
  function UseAuth(context: Option<AuthContextValue>): (r: Result<AuthContextValue, string>)
    ensures context.None? <==> r.Failure?
    ensures context.Some? ==> r == Success(context.value)
    ensures r.Failure? ==> r.error == "useAuth must be used within an AuthProvider"
  {
    match context
    case Some(value) => Success(value)
    case None => Failure("useAuth must be used within an AuthProvider")
  }

  /** What a `useAuth` caller under the provider reads: after a successful
      login, signed in under that email; after a logout, signed out with no
      email; after a login with an empty field, what it read before. */
  lemma UseAuthAfterLoginAndLogout(s: Session, email: string, password: string)
    ensures email != [] && password != [] ==>
      UseAuth(Some(ContextOf(LoggedIn(s, email, password)))) == Success(AuthContextValue(true, Some(email)))
    ensures email == [] || password == [] ==>
      UseAuth(Some(ContextOf(LoggedIn(s, email, password)))) == UseAuth(Some(ContextOf(s)))
    ensures UseAuth(Some(ContextOf(LoggedOut(s)))) == Success(AuthContextValue(false, None))
  {
  }

  /** `AuthProvider`: the session state with its storage slot and route. */
  class AuthProvider {
    var isAuthenticated: bool
    var adminEmail: Option<string>
    var storedAuth: Option<StoredAuth>
    var route: string

    function State(): Session
      reads this
    {
      Session(isAuthenticated, adminEmail, storedAuth, route)
    }

    /** The context value handed to `useAuth` callers. */
    function Value(): (v: AuthContextValue)
      reads this
      ensures v.isAuthenticated == isAuthenticated && v.adminEmail == adminEmail
      ensures v == ContextOf(State())
    {
      AuthContextValue(isAuthenticated, adminEmail)
    }

    /** Both state hooks start signed out; storage and route are what the
        browser already has. */
    constructor (storage: Option<StoredAuth>, location: string)
      ensures State() == Initial(storage, location)
    {
      isAuthenticated := false;
      adminEmail := None;
      storedAuth := storage;
      route := location;
    }

    /** The mount effect reading `adminAuth`. */
    method RestoreSession()
      modifies this
      ensures State() == Restored(old(State()))
    {
      var record := storedAuth;
      if record.Some? {
        adminEmail := record.value.email;
        isAuthenticated := true;
      }
    }

    method Login(email: string, password: string)
      modifies this
      ensures State() == LoggedIn(old(State()), email, password)
      ensures email != [] && password != [] ==>
        UseAuth(Some(Value())) == Success(AuthContextValue(true, Some(email)))
    {
      if email != [] && password != [] {
        isAuthenticated := true;
        adminEmail := Some(email);
        storedAuth := Some(StoredAuth(Some(email)));
        route := DashboardRoute;
      }
    }

    method Logout()
      modifies this
      ensures State() == LoggedOut(old(State()))
      ensures UseAuth(Some(Value())) == Success(AuthContextValue(false, None))
    {
      isAuthenticated := false;
      adminEmail := None;
      storedAuth := None;
      route := HomeRoute;
    }
  }
}
