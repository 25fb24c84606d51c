/**
 * The login screen: an empty-field check, then one call to the store's
 * `login` bracketed by the loading flag, and a navigation or an alert
 * depending on how the call ends. Social sign-in only announces itself.
 */
module Login {
  import opened Wrappers
  import opened Navigation
  import AuthStore

  const LoginFailedTitle := "Login Failed"
  const InvalidCredentials := "Invalid email or password"
  const ComingSoonTitle := "Coming Soon"
  const SocialSuffix := " login will be available soon!"

  /** The screen's only check: both fields filled. */
  function Validate(email: string, password: string): (err: Option<string>)
    ensures err.None? <==> email != "" && password != ""
    ensures err.Some? ==> err.value == FillAllFields
  {
    if email == "" || password == "" then Some(FillAllFields) else None
  }

  /** The screen's reaction to the end of the `login` call. */
  function OutcomeEffect(o: CallOutcome): (e: Effect)
    ensures e.Navigate? <==> o == Resolved(true)
    ensures e.Navigate? ==> e.to == TabsRoute
    ensures o == Resolved(false) ==> e == Alert(LoginFailedTitle, InvalidCredentials)
    ensures o == Threw ==> e == Alert(ErrorTitle, SomethingWentWrong)
  {
    match o
    case Resolved(true) => Navigate(TabsRoute)
    case Resolved(false) => Alert(LoginFailedTitle, InvalidCredentials)
    case Threw => Alert(ErrorTitle, SomethingWentWrong)
  }

  class LoginScreen {
    var email: string
    var password: string
    var isLoading: bool
    /** Every value passed to `setIsLoading`, oldest first. */
    ghost var loadingWrites: seq<bool>

    constructor ()
      ensures email == "" && password == "" && !isLoading && loadingWrites == []
    {
      email, password := "", "";
      isLoading := false;
      loadingWrites := [];
    }

    method SetLoading(value: bool)
      modifies this
      ensures isLoading == value && loadingWrites == old(loadingWrites) + [value]
      ensures email == old(email) && password == old(password)
    {
      isLoading := value;
      loadingWrites := loadingWrites + [value];
    }

    /**
     * `handleLogin`. Empty fields only raise an alert; otherwise the store is
     * asked with the loading flag raised, then lowered, and only the demo
     * credentials reach the tabs.
     */
    method HandleLogin(store: AuthStore.Store) returns (effect: Effect)
      requires store.Valid()
      modifies this, store
      ensures store.Valid() && email == old(email) && password == old(password)
      ensures Validate(email, password).Some? ==>
                && effect == Alert(ErrorTitle, FillAllFields)
                && store.State() == old(store.State())
                && isLoading == old(isLoading) && loadingWrites == old(loadingWrites)
      ensures Validate(email, password).None? ==>
                && (store.State(), effect.Navigate?) == AuthStore.AfterLogin(old(store.State()), email, password)
                && effect == OutcomeEffect(Resolved(effect.Navigate?))
                && !isLoading && loadingWrites == old(loadingWrites) + [true, false]
      ensures effect == Navigate(TabsRoute) <==> email == AuthStore.DemoEmail && password == AuthStore.DemoPassword
    {
      var err := Validate(email, password);
      if err.Some? {
        return Alert(ErrorTitle, err.value);
      }
      SetLoading(true);
      var success := store.Login(email, password);
      effect := OutcomeEffect(Resolved(success));
      SetLoading(false);
    }

    /** `handleSocialLogin`: an announcement naming the provider; no state is touched. */
    method HandleSocialLogin(provider: string) returns (effect: Effect)
      ensures effect.Alert? && effect.title == ComingSoonTitle
      ensures effect.message == provider + SocialSuffix
    {
      effect := Alert(ComingSoonTitle, provider + SocialSuffix);
    }
  }
}
