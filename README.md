# ListenUp client: session, onboarding and request logic in Dafny

ListenUp is a mobile news/podcast client. Beneath its screens sits a small
amount of sequential logic, and this project models that logic and proves
properties about it:

- **Session store** (`AuthStore`). It holds three fields: `user`,
  `isAuthenticated` and `hasCompletedOnboarding`. Four actions change them:
  `login`, `signup`, `setInterests` and `logout`. The back end behind the
  actions is a deterministic mock: only `demo@listenup.com` / `password` can
  log in, and sign-up always succeeds. The model has a `Store` class whose
  methods update the fields. Each method is tied to a pure transition function
  on `AuthState`. Every action preserves the invariant "authenticated exactly
  when a user is present, and onboarded only when authenticated".
- **Entry redirect** (`IndexRoute`). This maps the two store flags to the login
  route, the interests route or the tabs. It is connected to the store:
  - after sign-up the user goes to the interests screen;
  - after a demo login the user goes to the tabs;
  - after logout the user goes to the login screen.
- **Interest picking** (`Interests`). The catalogue has nine categories. A card
  press toggles that card's id in the selection list: a present id is
  filtered out, and an absent id is appended. The model proves these facts:
  - a toggle flips membership of that id;
  - the other ids keep their order;
  - the list never gains a duplicate;
  - toggling an absent id twice restores the list;
  - the selection never has more than nine entries.
  "Next" is disabled below three picks. When it is enabled, it passes the
  exact selection to the store and moves to the tabs.
- **Sign-up and login screens** (`Signup`, `Login`). Validation runs as an
  ordered chain of checks, and each check has its own message. The store call
  is bracketed by the loading flag. Depending on how the call ends, the screen
  navigates or shows an alert. Navigation and alerts are recorded as `Effect`
  values.
- **Request helper** (`UseApi`). This covers:
  - the URL;
  - the header object: JSON content type, then the caller's headers, then a
    bearer token unless the endpoint mentions `auth`;
  - the body;
  - the fact that the caller's options are spread last, so caller headers
    replace the built header object;
  - the choice of error value;
  - the loading and error state writes.
- **Data hooks** (`UseAllCategories`, `UseCategories`, `UseHome`). Each one
  picks lists out of an untyped JSON result and has its own fallback rule.

Support modules:
- `Wrappers` provides `Option`.
- `Json` provides parsed JSON values, JavaScript truthiness, property access
  and `||`.
- `Navigation` provides routes, effects and the outcome of an awaited store
  call.

React state setters are modelled as field writes. Where the order of writes
matters, a ghost log records every value passed to the setter. For example,
`loadingWrites` grows by `[true, false]` around each store call or request.

The code declares the request error a string (`error?: string` at
hooks/useApi.ts:16, `useState<null | string>` at hooks/useApi.ts:9). But
`json.message || 'API error'` passes through whatever truthy `message` the
body holds. So the model types error values as JSON values.

## Model

| member | source | states |
|---|---|---|
| AuthStore.MockLogin | stores/authStore.ts:27-41 | a user is returned iff the email is `demo@listenup.com` and the password is `password`; that user has id "1", John Doe, the given email and three interests |
| AuthStore.MockSignup | stores/authStore.ts:43-59 | the new user carries the given id, email, first and last name, and no interests |
| AuthStore.Initial | stores/authStore.ts:61-64 | no user, not authenticated, not onboarded, and consistent |
| AuthStore.AfterLogin | stores/authStore.ts:66-81 | resolves true iff the demo credentials are given; on failure the state is unchanged; on success the user is the mock's user, the session is authenticated, onboarding equals "interests non-empty", and consistency is preserved |
| AuthStore.AfterSignup | stores/authStore.ts:83-98 | always resolves true, storing the mock user, authenticated and not onboarded, in a consistent state |
| AuthStore.AfterSetInterests | stores/authStore.ts:100-109 | with no user the state is unchanged; with a user only `interests` is replaced, authentication is kept, onboarding becomes true, and consistency is preserved |
| AuthStore.AfterLogout | stores/authStore.ts:111-117 | no user, not authenticated, not onboarded, from any state |
| AuthStore.LogoutRestoresInitial | stores/authStore.ts:111-117 | logout yields exactly the initial state and is idempotent |
| AuthStore.DemoLoginIsOnboarded | stores/authStore.ts:31-74 | the demo login succeeds and leaves the session onboarded, because the demo user has interests |
| AuthStore.Store.constructor | stores/authStore.ts:61-64 | the store starts in the initial state and is valid |
| AuthStore.Store.Login | stores/authStore.ts:66-81 | the new fields and the returned boolean are those of AfterLogin, and validity is kept |
| AuthStore.Store.Signup | stores/authStore.ts:83-98 | the new fields and the returned boolean are those of AfterSignup, and validity is kept |
| AuthStore.Store.SetInterests | stores/authStore.ts:100-109 | the fields read with `get()` are rewritten as AfterSetInterests says, and validity is kept |
| AuthStore.Store.Logout | stores/authStore.ts:111-117 | the fields become those of AfterLogout, and validity is kept |
| Navigation.Path | app/index.tsx:8-16 | the login route is `/auth/login`, the interests route `/auth/interests` and the tabs `/(tabs)`: the hrefs of the redirects and of the screens' `router.replace` calls |
| IndexRoute.StartRoute | app/index.tsx:8-16 | login iff not authenticated; interests iff authenticated and not onboarded; tabs iff both hold |
| IndexRoute.SignedOutIgnoresOnboarding | app/index.tsx:8-10 | while signed out, both values of the onboarding flag give the login route |
| IndexRoute.StartRouteOf | app/index.tsx:5-16 | for a consistent store state, the route is login iff no user is present |
| IndexRoute.LoggedOutStartsAtLogin | app/index.tsx:8-10 | the initial state and every post-logout state start at login |
| IndexRoute.SignupStartsAtInterests | app/index.tsx:12-14 | after any sign-up the entry route is the interests screen |
| IndexRoute.DemoLoginStartsAtTabs | app/index.tsx:16 | after the demo login the entry route is the tabs |
| IndexRoute.InterestsChosenStartsAtTabs | app/index.tsx:12-16 | once a signed-in user has set interests, the entry route is the tabs |
| Interests.CatalogueIdList | app/auth/interests.tsx:14-69 | the ids of the nine catalogue entries, in grid order |
| Interests.CatalogueSize | app/auth/interests.tsx:14-69 | the catalogue's nine ids are pairwise distinct |
| Interests.Without | app/auth/interests.tsx:79 | the filtered list has exactly the members of the list other than the id, and it is no longer |
| Interests.Toggled | app/auth/interests.tsx:77-81 | the id is in the result iff it was not in the list; every other id keeps its membership |
| Interests.WithoutAt | app/auth/interests.tsx:79 | in a duplicate-free list, filtering out the element at position i removes exactly that position |
| Interests.ToggledShape | app/auth/interests.tsx:79-80 | an absent id is appended at the end; a present id is cut out of its place, and the rest stay in order |
| Interests.ToggledKeepsNoDup | app/auth/interests.tsx:77-81 | a toggle never creates a duplicate |
| Interests.ToggleTwiceRestores | app/auth/interests.tsx:77-81 | toggling an absent id twice gives back the original list |
| Interests.ToggleTwiceMovesToEnd | app/auth/interests.tsx:77-81 | toggling a present id twice moves it to the end of the list |
| Interests.SelectableBound | app/auth/interests.tsx:14-69 | a duplicate-free selection of catalogue ids has at most nine entries |
| Interests.AfterPresses | app/auth/interests.tsx:123-130 | the selection after a run of card presses; a duplicate-free start stays duplicate-free |
| Interests.PressesStaySelectable | app/auth/interests.tsx:123-130 | any run of card presses keeps the selection duplicate-free, within the catalogue, and at most nine long |
| Interests.InterestsScreen.constructor | app/auth/interests.tsx:72 | the selection starts empty, which is a valid selection |
| Interests.InterestsScreen.NextDisabled | app/auth/interests.tsx:100-103 | the Next button is disabled iff fewer than three interests are selected |
| Interests.InterestsScreen.ToggleInterest | app/auth/interests.tsx:76-82 | the selection becomes Toggled of the old selection and stays duplicate-free; a catalogue id keeps it within the catalogue |
| Interests.InterestsScreen.PressCard | app/auth/interests.tsx:123-130 | a press on card i toggles that card's id and keeps the selection distinct catalogue ids |
| Interests.InterestsScreen.HandleNext | app/auth/interests.tsx:84-91 | navigates iff Next is enabled; when disabled the store is untouched; when enabled the store gets exactly the selection and the target is the tabs |
| Signup.Validate | app/auth/signup.tsx:27-40 | the first failing check in the order empty fields, mismatch, length is reported with its own message; no error iff all fields are filled, the passwords match and the password has at least 6 characters |
| Signup.Payload | app/auth/signup.tsx:44 | the store receives email, password, first name and last name from the form |
| Signup.PayloadIgnoresConfirmation | app/auth/signup.tsx:44 | the confirmation field does not reach the store |
| Signup.OutcomeEffect | app/auth/signup.tsx:45-51 | navigation happens only on a true result, and it goes to the interests screen; false gives "Signup Failed"; an exception gives the generic error |
| Signup.SignupScreen.constructor | app/auth/signup.tsx:17-22 | empty form, not loading |
| Signup.SignupScreen.SetLoading | app/auth/signup.tsx:22 | `setIsLoading` sets the flag, appends the value to the write log and leaves the form untouched |
| Signup.SignupScreen.HandleSignup | app/auth/signup.tsx:26-55 | an invalid form only raises its check's alert, with the store and loading flag untouched; a valid form signs up with the payload, navigates to interests, and the loading flag is written true then false |
| Login.Validate | app/auth/login.tsx:43-46 | no error iff both fields are filled; otherwise "Please fill in all fields" |
| Login.OutcomeEffect | app/auth/login.tsx:50-57 | navigation happens only on a true result, and it goes to the tabs; false gives "Login Failed" / "Invalid email or password"; an exception gives the generic error |
| Login.LoginScreen.constructor | app/auth/login.tsx:36-38 | empty fields, not loading |
| Login.LoginScreen.SetLoading | app/auth/login.tsx:38 | `setIsLoading` sets the flag, appends the value to the write log and leaves the fields untouched |
| Login.LoginScreen.HandleLogin | app/auth/login.tsx:42-61 | empty fields only raise an alert, with the store and loading flag untouched; otherwise the store moves as AfterLogin says, the loading flag is written true then false, and the screen reaches the tabs iff the demo credentials are given |
| Login.LoginScreen.HandleSocialLogin | app/auth/login.tsx:63-65 | a "Coming Soon" alert naming the provider, with no state touched |
| UseApi.BaseUrl | hooks/useApi.ts:5 | the configured root when it is set and non-empty, otherwise the default root |
| UseApi.Includes | hooks/useApi.ts:29 | `endpoint.includes(...)`: a match at the start is found, and a string never includes a longer one |
| UseApi.SendsBearer | hooks/useApi.ts:29 | the bearer rule holds iff the token is present and non-empty and `auth` occurs nowhere in the endpoint |
| UseApi.IncludesIffOccurs | hooks/useApi.ts:29 | the substring test holds exactly when the substring occurs at some position |
| UseApi.Headers | hooks/useApi.ts:23-31 | content type JSON unless the caller overrides it; caller headers are kept with their values; no other keys; a bearer token iff a non-empty token exists and the endpoint does not mention `auth`; otherwise Authorization is present only when the caller gave one, with the caller's value |
| UseApi.Call | hooks/useApi.ts:33-38 | URL is base plus endpoint; each caller option replaces the built method, headers or body; the built body is the data only when it is truthy |
| UseApi.PlainCallHeaders | hooks/useApi.ts:23-38 | without options the fetch carries JSON content type, and carries Authorization exactly when the bearer rule applies |
| UseApi.CallerHeadersReplaceBuilt | hooks/useApi.ts:33-38 | caller headers without Authorization drop the bearer token from the fetch, whatever token is stored |
| UseApi.AuthEndpointsCarryNoToken | hooks/useApi.ts:28-31 | an endpoint containing `auth` never carries the token |
| UseApi.ResponseError | hooks/useApi.ts:40-42 | a truthy `message` of the body, otherwise "API error"; always truthy |
| UseApi.ThrownError | hooks/useApi.ts:45-47 | a non-empty exception message, otherwise "Network error" |
| UseApi.ResultOf | hooks/useApi.ts:39-47 | exactly one of data or error; data iff the response is ok, and then it is the parsed body; the error of a non-ok response or an exception is chosen as above |
| UseApi.Api.constructor | hooks/useApi.ts:8-9 | not loading, no error |
| UseApi.Api.SetLoading | hooks/useApi.ts:8 | `setLoading` sets the flag, appends the value to the write log and leaves the error untouched |
| UseApi.Api.SetError | hooks/useApi.ts:9 | `setError` sets the error, appends the value to the write log and leaves the loading flag untouched |
| UseApi.Api.Request | hooks/useApi.ts:11-51 | issues Call; resolves to ResultOf; loading is written true then false; error is cleared first, then set to the result's error when there is one |
| UseAllCategories.HasNestedArray | hooks/useAllCategories.ts:11 | the first branch is taken iff the data is an object whose `categories` field is an array |
| UseAllCategories.IsArrayResult | hooks/useAllCategories.ts:13 | the second branch is taken only when there is data, and that data is truthy |
| UseAllCategories.Select | hooks/useAllCategories.ts:11-17 | the nested `categories` array if present, else the data when it is an array, else empty |
| UseAllCategories.ShapesExclusive | hooks/useAllCategories.ts:11-14 | a parsed body cannot match both branches, so which check comes first never changes the result |
| UseAllCategories.FailureClears | hooks/useAllCategories.ts:15-16 | a failed request empties the list |
| UseAllCategories.NestedArraySelected | hooks/useAllCategories.ts:11-12 | an ok object body with a `categories` array yields exactly that array |
| UseAllCategories.AllCategories.constructor | hooks/useAllCategories.ts:5-6 | the list starts empty and the request state is idle |
| UseAllCategories.AllCategories.Load | hooks/useAllCategories.ts:8-19 | one GET of `/categories/allFormatted` with no body; the list becomes Select of the result |
| UseCategories.Select | hooks/useCategories.ts:11-15 | the nested array, else the top-level array, else no write |
| UseCategories.AgreesWithAllCategories | hooks/useCategories.ts:11-15 | when this hook writes, it writes what useAllCategories would; when it does not, useAllCategories would write the empty list |
| UseCategories.FailureWritesNothing | hooks/useCategories.ts:11-15 | a failed request leaves the list untouched |
| UseCategories.Categories.constructor | hooks/useCategories.ts:5-6 | the list starts empty and the request state is idle |
| UseCategories.Categories.Load | hooks/useCategories.ts:8-17 | one GET of `/categories/getAllCategories`; the list becomes the selected array, or stays as it was |
| UseHome.Select | hooks/useHome.ts:12-15 | a write happens iff the data is truthy; `main` and `categories` are then taken, each defaulting to an empty array, and both are truthy |
| UseHome.BothFieldsTaken | hooks/useHome.ts:12-14 | an ok body with both arrays yields them unchanged |
| UseHome.MissingFieldsEmpty | hooks/useHome.ts:13-14 | an ok body without the fields yields two empty arrays |
| UseHome.FailureWritesNothing | hooks/useHome.ts:12 | a failed request writes neither list |
| UseHome.Home.constructor | hooks/useHome.ts:5-7 | both lists start empty and the request state is idle |
| UseHome.Home.Load | hooks/useHome.ts:9-17 | one GET of `/user/home`; both lists are written together from Select, or both are kept |

## Left out

- Token storage, `fetch` and `res.json()` are input/output. The stored token
  is a parameter. What the network and the body parser did is an `Exchange`
  value: a response, or a rejection with its message.
- Reading the base URL from the environment is a parameter of `BaseUrl`.
- The simulated 1000 ms delay and async scheduling are not modelled. Each store
  action and each request is one atomic step, so overlapping presses and racing
  requests are not modelled. The screens disable their buttons while loading.
- The random user id from `Math.random()` is the parameter `id`.
- The `catch` branches of the store actions are not modelled, because the mocks
  never throw.
- The `return false` after `mockSignup` is dead code and is not modelled,
  because `mockSignup` always returns a user.
- Signup.SignupScreen.HandleSignup: the modelled store always resolves true, so
  the false and exception reactions of the screen are reachable only through
  `Signup.OutcomeEffect`.
- Login.LoginScreen.HandleLogin: the modelled store never throws, so the
  exception reaction is reachable only through `Login.OutcomeEffect`.
- Signup.SignupScreen.HandleSignup and Login.LoginScreen.HandleLogin: "loading
  during the call" is stated through the order of writes (`true`, then the
  call, then `false`). It is not stated as a state observed mid-call.
- UseApi.ResponseError: when a non-ok response has the JSON body `null`, reading
  `json.message` throws a TypeError whose text comes from the JavaScript engine.
  The model reads `message` of `null` as absent and reports "API error".
- UseApi.ResultOf: passes on that "API error" for a non-ok `null` body, where the
  code would report the engine's TypeError text instead.
- UseApi.Api.Request: `call` is the fetch the request would issue. When the
  exchange failed before `fetch` ran (for example, the token read failed), no
  such call was actually made.
- `JSON.stringify` is not modelled. A body is recorded as the value to be
  serialized, not as its text.
- Only three `RequestInit` fields are modelled: `method`, `headers` and `body`.
  Any other field passes through `...options` unchanged.
- Headers given as a `Headers` instance or as pairs are not modelled; only
  plain objects are. Header names are compared case-sensitively, as object keys
  are.
- JSON numbers are reals. Password length is sequence length, not UTF-16 code
  units.
- Rendering, styles, images, colours, `ActivityIndicator` and the router
  framework are not modelled. Navigation and alerts are recorded as values.
- `app/_layout.tsx` is not part of this model, because it only handles fonts,
  the splash screen and toast styling.
- `useLogin`, `useSignup`, `useSocialAuth`, `useProfile` and
  `useUserCategoryPreference` are not part of this model. Each forwards one
  fixed endpoint and payload to `request`, and adds no case analysis of its
  own.
