# Exam portal client: session and launch routing

This project models the core of the exam portal's mobile client in Dafny
and proves properties of the model. The core has four parts:

- **The auth context** (`context/AuthContext.jsx`). It keeps one session,
  `{user, tokens, isLoading, error}`, together with the device store (keys
  `tokens` and `user`) and the HTTP client's global `Authorization` header.
  Its actions are startup hydration, `login`, `logout`, `refreshToken` and
  `updateUserProfile`. It also answers `isAuthenticated()` and `hasRole(r)`.
- **The login screen** (`app/login.jsx`). Its submit handler checks that
  both fields are filled, calls `login`, and sends the user to the home
  screen of their role. The password field has a show/hide toggle.
- **The onboarding gate** (`app/index.jsx`, `app/_layout.jsx`,
  `app/onboarding.jsx`). One stored flag, `@viewedOnboarding`, decides
  whether a launch shows onboarding or login. Finishing onboarding writes
  that flag.
- **The bottom navigation bar** (`app/template/BottomNav.jsx`). It works out
  the focused tab from the current path and builds the path a tab press
  navigates to.

How it is modelled:

- Field values are JavaScript values: `Values.Value` together with
  JavaScript's truthiness (`Values.Truthy`), `===` and string conversion.
  An object is a `map<string, Value>`, and an absent key reads as
  `undefined`.
- The store is a map from keys to entries (`Platform.Storage`). An entry
  is either the stringified form of an object (`Json`) or any other string
  (`Text`).
- Everything the app gets from outside is an input of the action: the
  server's answer, the location permission and position, the device build
  id, and whether a storage call throws.
- Each auth action is a pure function in `SessionSpec`, from the session
  before to the session after. Each method of the class
  `AuthContext.AuthProvider` makes its changes step by step, as the source
  does, and is proved to reach exactly the state that function gives.

The model includes these edge cases of the code:

- `login` builds its welcome toast after it has stored the session. If the
  user has no first name and no string email, building that toast throws.
  `login` then rejects, but the session stays stored and the header stays
  set. `SessionSpec.FailedLoginKeepsSession` states this.
- `logout` builds its goodbye name before it clears anything. If the user
  exists but has no first name and no string email, that throws, and
  nothing is cleared. So `logout` does not always clear; clearing needs
  `SessionSpec.LogoutClears`.
- `updateUserProfile` sets the new user in memory before it writes the
  user to storage. So a storage failure leaves memory and storage
  different. An update with no signed-in user fails at `user.id` before
  any request is sent.
- At startup the tokens are parsed and set before the user is parsed. If
  the user entry cannot be parsed, the tokens stay set and the user stays
  null.
- `login` uses type `location` both when the device position cannot be read
  and when the server rejects the `location` field.

## Model

| member | source | states |
|---|---|---|
| `LoginErrors.ClassifyRejection` | context/AuthContext.jsx:98-143 | A server rejection is read in a fixed order: `email`, `password`, `device_id`, `location`, then `detail`. Each kind holds exactly when no earlier field is truthy and its own field is. A field error's message is that field's list joined with ", ". `detail` gives `backend`, its message the detail converted to a string (string details are kept as they are). No response, or none of the five fields, gives `network`. A truthy field that is not a list has no `join`, so it gives an untyped script error. |
| `LoginErrors.LoginToast` | context/AuthContext.jsx:164-176 | The toast is never empty. For email, password, device and location errors it is "<Label> error: " followed by the message. For any other error it is the bare message, or "Login failed" when the message is empty. |
| `SessionSpec.Hydrate` | context/AuthContext.jsx:43-60 | Startup restores the user, the tokens and the header `Bearer <access>` only when both entries are present and readable, and only then does the user change. Otherwise the user and the header stay as they were. The tokens change without the user only when the token entry parses but the user entry does not. Storage and error are untouched. `isLoading` is false in every case, including a read error. |
| `SessionSpec.DeviceId` | context/AuthContext.jsx:90 | The device id is the build id when it is a non-empty string, and "unknown" otherwise. It is never empty. |
| `SessionSpec.TokenPart` | context/AuthContext.jsx:145-146 | The tokens are exactly the response's `refresh` and `access` fields. |
| `SessionSpec.UserPart` | context/AuthContext.jsx:145 | The user is exactly the response's fields other than `refresh` and `access`. |
| `SessionSpec.ResponseSplits` | context/AuthContext.jsx:145-146 | Tokens and user share no field, and together they are the whole response data. |
| `SessionSpec.Login` | context/AuthContext.jsx:65-181 | No request is sent exactly when the permission is not granted or the position is missing. Those two cases give errors `permission` and `location`, in that order. The request carries the given email and password, the device id and the coordinates. A rejection gives its classified error, and a storage failure gives that failure's error. Tokens, user, header and the `tokens`/`user` entries are written exactly when the call gets through storage; otherwise they are untouched. The call returns the user exactly when, in addition, the welcome name can be built, and then it returns the stored user and the error is cleared. A failure records the error it rethrows, with the toast `LoginToast` gives. `isLoading` always ends false. |
| `SessionSpec.FailedLoginKeepsSession` | context/AuthContext.jsx:145-177 | A failed login that did not reach storage leaves tokens, user and storage as they were. A failed login that did reach storage failed in building the welcome name, and the new user is stored. |
| `SessionSpec.LoginAuthenticates` | context/AuthContext.jsx:32-39 | After a successful login, the session is authenticated exactly when the access token is truthy, and `hasRole(r)` holds exactly when the response's role is `r`. |
| `SessionSpec.HydrateRestoresLogin` | context/AuthContext.jsx:45-155 | Round trip: a fresh start on the store that a login wrote restores the same user, the same tokens and the same header. |
| `SessionSpec.NoRoleWithoutUser` | context/AuthContext.jsx:32-39 | With no user, `hasRole` and `isAuthenticated` are both false. |
| `SessionSpec.Initial` | context/AuthContext.jsx:13-16 | The session as the provider mounts: no user, no tokens, no error and no header, `isLoading` true, the store as given, and so not authenticated. |
| `SessionSpec.IsAuthenticated` | context/AuthContext.jsx:32-34 | True exactly when there is a user and the tokens hold a truthy `access`. |
| `SessionSpec.HasRole` | context/AuthContext.jsx:37-39 | `hasRole(r)` holds exactly when there is a user and its role is the string `r`. |
| `SessionSpec.Logout` | context/AuthContext.jsx:248-264 | When `logout` gets through the goodbye name and the removal, user, tokens and header become null, and exactly the `tokens` and `user` entries are removed. Otherwise the session and the store are unchanged. The error is untouched, and `isLoading` ends false. |
| `SessionSpec.LogoutEndsSession` | context/AuthContext.jsx:248-264 | After a logout that clears, the session is not authenticated, no role holds, and a later start restores no user. |
| `SessionSpec.RefreshedTokens` | context/AuthContext.jsx:276-279 | The new tokens have the server's `access` and the old `refresh`, and no other field. |
| `SessionSpec.Refresh` | context/AuthContext.jsx:266-292 | The old refresh token is posted exactly when it is truthy. The call succeeds exactly when it is posted, the exchange succeeds and the store write succeeds. On success the new tokens hold the server's `access` and the old `refresh`, and no other field. The tokens entry is rewritten, the header becomes `Bearer <access>`, the new access token is returned, and user, isLoading and error are untouched. Every failure leaves exactly the state of one `logout`. A failure with nothing posted is "no refresh token". |
| `SessionSpec.ProfileFields` | context/AuthContext.jsx:212 | The profile fields are the submitted fields without `new_password` and `verify_password`. |
| `SessionSpec.Payload` | context/AuthContext.jsx:212-221 | The request body holds every non-password field as submitted. It holds both password fields exactly when both are truthy. |
| `SessionSpec.MergeProfile` | context/AuthContext.jsx:229 | The new user is the old user overlaid with the profile fields. A password field is present exactly when the old user had it, with the old value. |
| `SessionSpec.UpdateProfile` | context/AuthContext.jsx:209-246 | Two truthy passwords that differ give "Passwords do not match", with no request, and user and store unchanged. A request is sent exactly when the passwords do not clash and there is a user. Its path is `/profile/<id>/`, its body comes from `Payload`, and its header is `Bearer <access>`. The user becomes the merged user exactly when the server accepts. The store's user entry is rewritten exactly when, in addition, the write succeeds. The result is success, with the server's data, exactly when, in addition, the greeting can be built. Tokens, error and header never change, and `isLoading` ends false. |
| `SessionSpec.UpdateKeepsPasswordsOut` | context/AuthContext.jsx:212-229 | An update never adds a password field to the user, whatever the server answers. |
| `AuthContext.AuthProvider.constructor` | context/AuthContext.jsx:13-16 | The provider starts with no user, no tokens, no error and no header, with `isLoading` true. |
| `AuthContext.AuthProvider.IsAuthenticated` | context/AuthContext.jsx:32-34 | The provider's answer is `SessionSpec.IsAuthenticated` of its state, so every session lemma about that predicate applies to it. |
| `AuthContext.AuthProvider.HasRole` | context/AuthContext.jsx:37-39 | The provider's answer is `SessionSpec.HasRole` of its state, so it is false when logged out. |
| `AuthContext.AuthProvider.SetError` | context/AuthContext.jsx:16 | `setError` replaces the error and nothing else. |
| `AuthContext.AuthProvider.LoadAuthData` | context/AuthContext.jsx:42-63 | The new state is `SessionSpec.Hydrate` of the old one. |
| `AuthContext.AuthProvider.FailLogin` | context/AuthContext.jsx:160-180 | The error is recorded, `isLoading` is cleared, and the error is returned with its toast. |
| `AuthContext.AuthProvider.Login` | context/AuthContext.jsx:65-181 | The new state, the request sent and the outcome are those of `SessionSpec.Login`. |
| `AuthContext.AuthProvider.Logout` | context/AuthContext.jsx:248-264 | The new state is `SessionSpec.Logout` of the old one. |
| `AuthContext.AuthProvider.RefreshToken` | context/AuthContext.jsx:266-292 | The new state, the token posted and the result are those of `SessionSpec.Refresh`. |
| `AuthContext.AuthProvider.UpdateUserProfile` | context/AuthContext.jsx:209-246 | The new state, the request sent and the result are those of `SessionSpec.UpdateProfile`. |
| `LoginScreen.RouteForRole` | app/login.jsx:129-144 | There is a route exactly for the four role names Student, Lecturer, Invigilator and Admin. Any other value, a non-string included, has none. |
| `LoginScreen.RouteIsRoleGroup` | app/login.jsx:129-141 | Each role's route is `/(<role in lower case>)/home`. |
| `LoginScreen.RoutesAreDistinct` | app/login.jsx:129-141 | Two roles share a route only when they are the same role. |
| `LoginScreen.Submit` | app/login.jsx:121-148 | An empty username or password sets "Please enter both username and password", sends nothing, navigates nowhere and changes nothing else. Otherwise `login` runs with the username as its email, after the error has been cleared. If `login` rejects, there is no navigation and the context's error stands. If it returns, the role's route is taken, or "Your role is not recognized" is set and there is no navigation. A navigation always goes to the signed-in user's role route, with no error set. |
| `LoginScreen.SubmitForgetsPriorError` | app/login.jsx:122 | Since the error is cleared first, a submit's whole effect never depends on the error shown before it. |
| `LoginScreen.NavigationIsARoleHome` | app/login.jsx:129-144 | A submit navigates, if at all, to one of the four role home screens. |
| `LoginScreen.LoginPage.constructor` | app/login.jsx:116-118 | The form starts with an empty username and password and the password hidden. |
| `LoginScreen.LoginPage.ChangeUsername` | app/login.jsx:187 | Typing in the username field sets the username only. |
| `LoginScreen.LoginPage.ChangePassword` | app/login.jsx:195 | Typing in the password field sets the password only. |
| `LoginScreen.LoginPage.PasswordMasked` | app/login.jsx:90 | The password field sets `secureTextEntry`, so it is masked exactly when the password is not shown. |
| `LoginScreen.LoginPage.ToggleVisibility` | app/login.jsx:199 | Each press flips `showPassword`, and so flips the mask. The form fields are unchanged. |
| `LoginScreen.LoginPage.HandleLogin` | app/login.jsx:121-148 | The session after the press is the one `Submit` gives. The router gets exactly `Submit`'s one navigation, or none. |
| `BottomNav.Split` | app/template/BottomNav.jsx:137 | `split('/')` gives at least one piece, no piece holds '/', and there is one more piece than there are '/'s. |
| `BottomNav.SplitJoins` | app/template/BottomNav.jsx:137 | Joining the pieces of a split with the separator gives the string back, so the pieces are exactly the text between the separators. |
| `BottomNav.CurrentRoute` | app/template/BottomNav.jsx:137 | The current route is never empty and never holds '/'. |
| `BottomNav.CurrentRouteIsFirstSegment` | app/template/BottomNav.jsx:137 | The current route is the segment between the first '/' and the next one. It is 'home' when that segment is empty or the path has no '/', for example '/'. |
| `BottomNav.TabsAreFourDistinct` | app/template/BottomNav.jsx:139-144 | There are four tabs, in the order home, sessions, exams, profile. Their names are distinct, non-empty and free of '/'. |
| `BottomNav.Focused` | app/template/BottomNav.jsx:162-163 | A tab is focused exactly when its name is the path's first segment, or when it is `home` and that segment is empty or missing. |
| `BottomNav.AtMostOneFocused` | app/template/BottomNav.jsx:162-163 | Two focused tabs are the same tab. |
| `BottomNav.PressTarget` | app/template/BottomNav.jsx:146-148 | A press navigates to '/' followed by the tab's name. |
| `BottomNav.PressedRouteIsName` | app/template/BottomNav.jsx:137-148 | Round trip: for a non-empty name without '/', the current route of `'/' + name` is the name itself. |
| `BottomNav.PressedTabIsFocused` | app/template/BottomNav.jsx:137-163 | After a tab is pressed, that tab is focused and no other tab is. |
| `BottomNav.BottomPadding` | app/template/BottomNav.jsx:157 | The bottom padding is the inset when the inset is positive, and 6 otherwise. It is always positive. |
| `BottomNav.BarHeight` | app/template/BottomNav.jsx:158 | The height is 72 plus the inset when the inset is positive, and 72 otherwise. |
| `LaunchIndex.LaunchTarget` | app/index.jsx:12-20 | Launch goes to `/onboarding` exactly when the flag was read and is absent. Any stored value, not only 'true', and any read error go to `/login`. |
| `LaunchIndex.IndexScreen.constructor` | app/index.jsx:7 | The entry screen starts loading and shows the spinner. |
| `LaunchIndex.IndexScreen.Rendered` | app/index.jsx:29-37 | The spinner shows exactly while loading. Afterwards nothing is rendered. |
| `LaunchIndex.IndexScreen.CheckOnboarding` | app/index.jsx:10-24 | The check performs exactly one `router.replace`, to `LaunchTarget`, and then stops loading, so nothing is rendered. |
| `RootLayout.ShowsOnboarding` | app/_layout.jsx:15-21 | `showOnboarding` is set exactly when the flag was read and is absent. |
| `RootLayout.RegisteredScreens` | app/_layout.jsx:41-55 | With onboarding shown, only `onboarding` is registered. Otherwise nine distinct screens are registered, including index, onboarding, login, contact, (public) and the four role groups. |
| `RootLayout.Layout.constructor` | app/_layout.jsx:9-10 | The layout starts loading, with `showOnboarding` false. |
| `RootLayout.Layout.Rendered` | app/_layout.jsx:29-55 | The spinner shows while loading. Afterwards the stack of `RegisteredScreens` shows. |
| `RootLayout.Layout.CheckOnboarding` | app/_layout.jsx:13-24 | `showOnboarding` becomes true when the flag was read and is absent. Otherwise it keeps its value, after a read error too. Loading always ends. |
| `Onboarding.OnboardingScreen.CompleteOnboarding` | app/onboarding.jsx:103-106 | The call writes `@viewedOnboarding = 'true'`, and only once that write has completed does it navigate to `/login`. A failed write leaves the store as it was and navigates nowhere. |
| `Onboarding.OnboardingScreen.Finish` | app/onboarding.jsx:111-112 | Done and Skip have the same effect, the one `CompleteOnboarding` has. |
| `Onboarding.CompletedOnboardingIsRemembered` | app/onboarding.jsx:104 | After the flag is written, the next launch goes to `/login` and the layout does not show onboarding, whatever else the store holds. |
| `Onboarding.FreshInstall` | app/onboarding.jsx:103-106 | On an empty store, the first launch goes to `/onboarding`. Finishing onboarding then navigates to `/login`. A relaunch goes to `/login`, and the layout does not show onboarding. |

## Left out

- HTTP, the device store, location and device services are not modelled as
  code. Their results are inputs to each action: the response, whether a
  storage call throws and with which message, the permission status, the
  position and the build id. Nothing is said about the server.
- A call to the permission API that throws is not modelled. Only its
  status string is.
- `multiSet` is taken as all-or-nothing: a write that throws is modelled as
  writing nothing. A partial write is not modelled.
- JSON text is not modelled. A stored object reads back as the same object.
  Under `tokens` or `user`, any entry that is not a stored object is treated
  as text that does not parse.
- Values are flat JSON scalars and string arrays. Nested objects are not
  modelled, and numbers are integers: the coordinates are passed through as
  opaque strings, and the bar insets are reals.
- `LoginErrors.ClassifyRejection`: the typed errors `login` builds from a
  rejection also carry the whole response data as `details`; `AuthError`
  has no such field. The `backend` error's message is the raw `detail`
  value, while the model converts it to a string. The two differ for a
  detail that is not a string: for an empty array the source's toast
  receives the (truthy) array, where the model shows "Login failed".
- `SessionSpec.HasRole`: the role asked about is a string. Calling
  `hasRole()` with no argument, which is true when logged out because
  `undefined === undefined`, is not modelled; no screen calls it that way.
- The message text of script errors is not modelled. A TypeError carries a
  fixed placeholder message (`LoginErrors.ScriptErrorMessage`).
- Asynchrony: each action is one atomic step. Hook timing, re-renders and
  overlapping calls (a double submit, a refresh that races a logout) are
  not modelled. So is the login button being disabled while loading.
- Toast display and console logging are left out. Only the text of the
  login error toast is modelled. The welcome, goodbye and profile toasts
  matter only in whether building them throws.
- `register` is left out. It sends one POST and touches only `isLoading`
  and `error`: it sets and clears the one, and clears and, on failure, sets
  the other. Those changes are not modelled.
- Presentation is left out: the floating-label animation, the onboarding
  animation and pages, styles, colours and icons, the theme and toast
  configuration, the headers, drawers and layouts, and the components.
- The commented-out first version of the bottom bar is left out.
- The `Platform.Storage` and `Platform.Router` methods stand for the
  library's store and router calls. They are not code from the repository.
