/**
 * What a screen does to the outside world: it replaces the current route
 * (`router.replace`, `<Redirect>`) or shows an alert (`Alert.alert`).
 * Both are recorded as values rather than performed.
 */
module Navigation {
  /** The three routes the authentication flow moves between. */
  datatype Route = LoginRoute | InterestsRoute | TabsRoute

  /** The href each route stands for. */
  function Path(r: Route): (p: string)
    ensures r == LoginRoute ==> p == "/auth/login"
    ensures r == InterestsRoute ==> p == "/auth/interests"
    ensures r == TabsRoute ==> p == "/(tabs)"
  {
    match r
    case LoginRoute => "/auth/login"
    case InterestsRoute => "/auth/interests"
    case TabsRoute => "/(tabs)"
  }

  datatype Effect =
    | Navigate(to: Route)
    | Alert(title: string, message: string)

  /** How an awaited store action ended: it resolved to a boolean or it threw. */
  datatype CallOutcome = Resolved(success: bool) | Threw

  const ErrorTitle := "Error"
  const FillAllFields := "Please fill in all fields"
  const SomethingWentWrong := "Something went wrong. Please try again."
}
