/**
 * The sign-up screen: an ordered chain of form checks, each with its own
 * message, then one call to the store's `signup` bracketed by the loading
 * flag, and a navigation or an alert depending on how the call ends.
 */
module Signup {
  import opened Wrappers
  import opened Navigation
  import AuthStore

  datatype SignupForm = SignupForm(
    email: string, password: string, confirmPassword: string, firstName: string, lastName: string)

  const MinPasswordLength := 6
  const PasswordsDoNotMatch := "Passwords do not match"
  const PasswordTooShort := "Password must be at least 6 characters"
  const SignupFailedTitle := "Signup Failed"
  const TryAgain := "Please try again"

  predicate AllFilled(f: SignupForm) {
    f.email != "" && f.password != "" && f.confirmPassword != "" && f.firstName != "" && f.lastName != ""
  }

  /**
   * The first failing check, in the screen's order: empty fields, then
   * mismatched passwords, then a short password. None when all pass.
   */
  function Validate(f: SignupForm): (err: Option<string>)
    ensures err == Some(FillAllFields) <==> !AllFilled(f)
    ensures err == Some(PasswordsDoNotMatch) <==> AllFilled(f) && f.password != f.confirmPassword
    ensures err == Some(PasswordTooShort) <==>
              AllFilled(f) && f.password == f.confirmPassword && |f.password| < MinPasswordLength
    ensures err == None <==>
              AllFilled(f) && f.password == f.confirmPassword && |f.password| >= MinPasswordLength
  {
    if !AllFilled(f) then Some(FillAllFields)
    else if f.password != f.confirmPassword then Some(PasswordsDoNotMatch)
    else if |f.password| < MinPasswordLength then Some(PasswordTooShort)
    else None
  }

  /** What the store's `signup` receives: the form without its confirmation field. */
  function Payload(f: SignupForm): (d: AuthStore.SignupData)
    ensures d.email == f.email && d.password == f.password
    ensures d.firstName == f.firstName && d.lastName == f.lastName
  {
    AuthStore.SignupData(f.email, f.password, f.firstName, f.lastName)
  }

  /** The password confirmation never reaches the store. */
  lemma PayloadIgnoresConfirmation(f: SignupForm, confirm: string)
    ensures Payload(f.(confirmPassword := confirm)) == Payload(f)
  {
  }

  /** The screen's reaction to the end of the `signup` call. */
  function OutcomeEffect(o: CallOutcome): (e: Effect)
    ensures e.Navigate? <==> o == Resolved(true)
    ensures e.Navigate? ==> e.to == InterestsRoute
    ensures o == Resolved(false) ==> e == Alert(SignupFailedTitle, TryAgain)
    ensures o == Threw ==> e == Alert(ErrorTitle, SomethingWentWrong)
  {
    match o
    case Resolved(true) => Navigate(InterestsRoute)
    case Resolved(false) => Alert(SignupFailedTitle, TryAgain)
    case Threw => Alert(ErrorTitle, SomethingWentWrong)
  }

  class SignupScreen {
    var form: SignupForm
    var isLoading: bool
    /** Every value passed to `setIsLoading`, oldest first. */
    ghost var loadingWrites: seq<bool>

    constructor ()
      ensures form == SignupForm("", "", "", "", "") && !isLoading && loadingWrites == []
    {
      form := SignupForm("", "", "", "", "");
      isLoading := false;
      loadingWrites := [];
    }

    method SetLoading(value: bool)
      modifies this
      ensures isLoading == value && loadingWrites == old(loadingWrites) + [value]
      ensures form == old(form)
    {
      isLoading := value;
      loadingWrites := loadingWrites + [value];
    }

    /**
     * `handleSignup`. `id` is the identifier the mock back end draws. A form
     * that fails a check only raises that check's alert; a valid one is sent
     * to the store with the loading flag raised, then lowered, whatever the
     * call's outcome.
     */
    method HandleSignup(store: AuthStore.Store, id: string) returns (effect: Effect)
      requires store.Valid()
      modifies this, store
      ensures store.Valid() && form == old(form)
      ensures Validate(form).Some? ==>
                && effect == Alert(ErrorTitle, Validate(form).value)
                && store.State() == old(store.State())
                && isLoading == old(isLoading) && loadingWrites == old(loadingWrites)
      ensures Validate(form).None? ==>
                && (store.State(), true) == AuthStore.AfterSignup(old(store.State()), Payload(form), id)
                && effect == OutcomeEffect(Resolved(true)) == Navigate(InterestsRoute)
                && !isLoading && loadingWrites == old(loadingWrites) + [true, false]
    {
      var err := Validate(form);
      if err.Some? {
        return Alert(ErrorTitle, err.value);
      }
      SetLoading(true);
      var success := store.Signup(Payload(form), id);
      effect := OutcomeEffect(Resolved(success));
      SetLoading(false);
    }
  }
}
