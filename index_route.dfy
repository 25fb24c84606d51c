/** The app's entry route: where a launch is redirected, from the two store flags. */
module IndexRoute {
  import opened Navigation
  import AuthStore

  /** The redirect target of the entry screen. */
  function StartRoute(isAuthenticated: bool, hasCompletedOnboarding: bool): (r: Route)
    ensures r == LoginRoute <==> !isAuthenticated
    ensures r == InterestsRoute <==> isAuthenticated && !hasCompletedOnboarding
    ensures r == TabsRoute <==> isAuthenticated && hasCompletedOnboarding
  {
    if !isAuthenticated then LoginRoute
    else if !hasCompletedOnboarding then InterestsRoute
    else TabsRoute
  }

  /** The onboarding flag is ignored while signed out. */
  lemma SignedOutIgnoresOnboarding(onboarded1: bool, onboarded2: bool)
    ensures StartRoute(false, onboarded1) == StartRoute(false, onboarded2) == LoginRoute
  {
  }

  /** The start route of a store state. */
  function StartRouteOf(s: AuthStore.AuthState): (r: Route)
    ensures AuthStore.Consistent(s) ==> (r == LoginRoute <==> s.user.None?)
  {
    StartRoute(s.isAuthenticated, s.hasCompletedOnboarding)
  }

  /** The store's initial state and every logged-out state start at the login screen. */
  lemma LoggedOutStartsAtLogin(s: AuthStore.AuthState)
    ensures StartRouteOf(AuthStore.Initial()) == LoginRoute
    ensures StartRouteOf(AuthStore.AfterLogout(s)) == LoginRoute
  {
  }

  /** After signing up, the entry screen sends the user to pick interests. */
  lemma SignupStartsAtInterests(s: AuthStore.AuthState, data: AuthStore.SignupData, id: string)
    ensures StartRouteOf(AuthStore.AfterSignup(s, data, id).0) == InterestsRoute
  {
  }

  /** After logging in as the demo user, the entry screen goes straight to the tabs. */
  lemma DemoLoginStartsAtTabs(s: AuthStore.AuthState)
    ensures StartRouteOf(AuthStore.AfterLogin(s, AuthStore.DemoEmail, AuthStore.DemoPassword).0) == TabsRoute
  {
  }

  /** Once a signed-in user has chosen interests, the entry screen goes to the tabs. */
  lemma InterestsChosenStartsAtTabs(s: AuthStore.AuthState, interests: seq<string>)
    requires AuthStore.Consistent(s) && s.user.Some?
    ensures StartRouteOf(AuthStore.AfterSetInterests(s, interests)) == TabsRoute
  {
  }
}
