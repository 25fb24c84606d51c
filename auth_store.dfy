/**
 * The in-memory session store: who is signed in and whether they have
 * picked their interests. The two back-end calls are deterministic mocks;
 * each store action is one atomic step (the simulated network delay is not
 * modelled).
 */
module AuthStore {
  import opened Wrappers

  datatype User = User(id: string, email: string, firstName: string, lastName: string, interests: seq<string>)

  /** The payload `signup` receives from the sign-up screen. */
  datatype SignupData = SignupData(email: string, password: string, firstName: string, lastName: string)

  /** The three fields of the store's state. */
  datatype AuthState = AuthState(user: Option<User>, isAuthenticated: bool, hasCompletedOnboarding: bool)

  const DemoEmail := "demo@listenup.com"
  const DemoPassword := "password"

  /** The mock login back end: only the demo credentials are accepted. */
  function MockLogin(email: string, password: string): (r: Option<User>)
    ensures r.Some? <==> email == DemoEmail && password == DemoPassword
    ensures r.Some? ==> r.value.id == "1" && r.value.email == email
    ensures r.Some? ==> r.value.firstName == "John" && r.value.lastName == "Doe"
    ensures r.Some? ==> r.value.interests == ["Technology", "Science", "Business"]
  {
    if email == DemoEmail && password == DemoPassword then
      Some(User("1", email, "John", "Doe", ["Technology", "Science", "Business"]))
    else
      None
  }

  /**
   * The mock sign-up back end. It always answers with a user; the random
   * identifier it draws is the parameter `id`.
   */
  function MockSignup(data: SignupData, id: string): (u: User)
    ensures u.id == id
    ensures u.email == data.email && u.firstName == data.firstName && u.lastName == data.lastName
    ensures u.interests == []
  {
    User(id, data.email, data.firstName, data.lastName, [])
  }

  /** The store's state before any action. */
  function Initial(): (s: AuthState)
    ensures s.user.None? && !s.isAuthenticated && !s.hasCompletedOnboarding
    ensures Consistent(s)
  {
    AuthState(None, false, false)
  }

  /**
   * What every reachable state satisfies: authenticated exactly when a user
   * is present, and onboarded only when authenticated.
   */
  predicate Consistent(s: AuthState) {
    && (s.isAuthenticated <==> s.user.Some?)
    && (s.hasCompletedOnboarding ==> s.isAuthenticated)
  }

  /** `login`: the new state and the boolean the action resolves to. */
  function AfterLogin(s: AuthState, email: string, password: string): (r: (AuthState, bool))
    ensures r.1 <==> email == DemoEmail && password == DemoPassword
    ensures !r.1 ==> r.0 == s
    ensures r.1 ==> r.0.isAuthenticated && r.0.user == MockLogin(email, password)
    ensures r.1 ==> r.0.hasCompletedOnboarding == (|r.0.user.value.interests| > 0)
    ensures Consistent(s) ==> Consistent(r.0)
  {
    match MockLogin(email, password)
    case Some(user) => (AuthState(Some(user), true, |user.interests| > 0), true)
    case None => (s, false)
  }

  /** `signup`: always succeeds with a fresh, not yet onboarded user. */
  function AfterSignup(s: AuthState, data: SignupData, id: string): (r: (AuthState, bool))
    ensures r.1
    ensures r.0.user == Some(MockSignup(data, id))
    ensures r.0.isAuthenticated && !r.0.hasCompletedOnboarding
    ensures Consistent(r.0)
  {
    (AuthState(Some(MockSignup(data, id)), true, false), true)
  }

  /**
   * `setInterests`: with a user, replaces only the user's interests and marks
   * onboarding complete; with no user, does nothing.
   */
  function AfterSetInterests(s: AuthState, interests: seq<string>): (r: AuthState)
    ensures s.user.None? ==> r == s
    ensures s.user.Some? ==> r.user.Some? && r.user.value.interests == interests
    ensures s.user.Some? ==> r.user.value == s.user.value.(interests := interests)
    ensures s.user.Some? ==> r.isAuthenticated == s.isAuthenticated && r.hasCompletedOnboarding
    ensures Consistent(s) ==> Consistent(r)
  {
    match s.user
    case Some(u) => AuthState(Some(u.(interests := interests)), s.isAuthenticated, true)
    case None => s
  }

  /** `logout`: back to the initial state, whatever the state was. */
  function AfterLogout(s: AuthState): (r: AuthState)
    ensures r.user.None? && !r.isAuthenticated && !r.hasCompletedOnboarding
  {
    AuthState(None, false, false)
  }

  lemma LogoutRestoresInitial(s: AuthState)
    ensures AfterLogout(s) == Initial()
    ensures AfterLogout(AfterLogout(s)) == AfterLogout(s)
  {
  }

  /** The demo user logs in already onboarded: it has three interests. */
  lemma DemoLoginIsOnboarded(s: AuthState)
    ensures AfterLogin(s, DemoEmail, DemoPassword).1
    ensures AfterLogin(s, DemoEmail, DemoPassword).0.hasCompletedOnboarding
  {
  }

  /** The session store: the three fields the actions overwrite. */
  class Store {
    var user: Option<User>
    var isAuthenticated: bool
    var hasCompletedOnboarding: bool

    function State(): AuthState
      reads this
    {
      AuthState(user, isAuthenticated, hasCompletedOnboarding)
    }

    predicate Valid()
      reads this
    {
      Consistent(State())
    }

    constructor ()
      ensures State() == Initial() && Valid()
    {
      user := None;
      isAuthenticated := false;
      hasCompletedOnboarding := false;
    }

    method Login(email: string, password: string) returns (success: bool)
      requires Valid()
      modifies this
      ensures Valid()
      ensures (State(), success) == AfterLogin(old(State()), email, password)
    {
      var found := MockLogin(email, password);
      if found.Some? {
        user, isAuthenticated, hasCompletedOnboarding := found, true, |found.value.interests| > 0;
        return true;
      }
      return false;
    }

    /** `id` is the identifier the mock back end draws at random. */
    method Signup(data: SignupData, id: string) returns (success: bool)
      requires Valid()
      modifies this
      ensures Valid()
      ensures (State(), success) == AfterSignup(old(State()), data, id)
    {
      var created := MockSignup(data, id);
      user, isAuthenticated, hasCompletedOnboarding := Some(created), true, false;
      return true;
    }

    method SetInterests(interests: seq<string>)
      requires Valid()
      modifies this
      ensures Valid()
      ensures State() == AfterSetInterests(old(State()), interests)
    {
      var current := user;
      if current.Some? {
        user := Some(current.value.(interests := interests));
        hasCompletedOnboarding := true;
      }
    }

    method Logout()
      requires Valid()
      modifies this
      ensures Valid()
      ensures State() == AfterLogout(old(State()))
    {
      user, isAuthenticated, hasCompletedOnboarding := None, false, false;
    }
  }
}
