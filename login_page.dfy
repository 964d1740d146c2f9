/** The login screen: its form fields, the show/hide toggle of the password,
    and the submit handler that checks the form, calls `login` and sends the
    user to the home screen of their role. */
module LoginScreen {
  import opened Values
  import opened Platform
  import opened LoginErrors
  import opened SessionSpec
  import opened AuthContext

  const EmptyFieldsMessage := "Please enter both username and password"
  const UnknownRoleMessage := "Your role is not recognized"
  const KnownRoles := ["Student", "Lecturer", "Invigilator", "Admin"]

  function LowerChar(c: char): char
  {
    if 'A' <= c <= 'Z' then (c as int + 32) as char else c
  }

  /** ASCII lower case. */
  function Lower(s: string): string
  {
    seq(|s|, i requires 0 <= i < |s| => LowerChar(s[i]))
  }

  /** The `switch (user.role)`: the four known roles have a home screen;
      any other value, a non-string included, has none. */
  function RouteForRole(role: Value): (r: Option<string>)
    ensures r.Some? <==> role.Str? && role.s in KnownRoles
  {
    if role == Str("Student") then Some("/(student)/home")
    else if role == Str("Lecturer") then Some("/(lecturer)/home")
    else if role == Str("Invigilator") then Some("/(invigilator)/home")
    else if role == Str("Admin") then Some("/(admin)/home")
    else None
  }

  /** Each role's home screen is the one of the route group named after the
      role in lower case. */
  lemma RouteIsRoleGroup(role: Value)
    requires RouteForRole(role).Some?
    ensures RouteForRole(role).value == "/(" + Lower(role.s) + ")/home"
  {
    if role == Str("Student") {
      assert Lower("Student") == "student";
    } else if role == Str("Lecturer") {
      assert Lower("Lecturer") == "lecturer";
    } else if role == Str("Invigilator") {
      assert Lower("Invigilator") == "invigilator";
    } else {
      assert Lower("Admin") == "admin";
    }
  }

  /** Different roles never share a home screen. */
  lemma RoutesAreDistinct(a: Value, b: Value)
    requires RouteForRole(a).Some? && RouteForRole(b).Some?
    ensures RouteForRole(a) == RouteForRole(b) <==> a == b
  {
  }

  /** One press of the submit button: the new session, the login request
      sent (if any) and the route navigated to (if any). */
  datatype Submission = Submission(state: SessionState, sent: Option<LoginRequest>, navigation: Option<string>)

  /** `handleLogin` for the form's current username and password. */
  function Submit(s: SessionState, username: string, password: string, env: LoginEnv): (r: Submission)
    ensures username == "" || password == "" ==>
      r.sent.None? && r.navigation.None? && r.state == s.(error := Some(Untyped(EmptyFieldsMessage)))
    ensures r.sent.Some? ==> r.sent.value.email == username && r.sent.value.password == password
    ensures username != "" && password != "" ==>
      var step := SessionSpec.Login(s.(error := None), username, password, env);
      r.sent == step.sent
      && (step.outcome.LoginFailed? ==> r.navigation.None? && r.state == step.state)
      && (step.outcome.LoggedIn? ==>
            r.navigation == RouteForRole(Field(step.outcome.user, "role"))
            && r.state == (if r.navigation.Some? then step.state
                           else step.state.(error := Some(Untyped(UnknownRoleMessage)))))
    ensures r.navigation.Some? ==>
      r.state.error.None? && r.state.user.Some?
      && r.navigation == RouteForRole(Field(r.state.user.value, "role"))
  {
    var cleared := s.(error := None);
    if username == "" || password == "" then
      Submission(cleared.(error := Some(Untyped(EmptyFieldsMessage))), None, None)
    else
      var step := SessionSpec.Login(cleared, username, password, env);
      match step.outcome
      case LoginFailed(_, _) => Submission(step.state, step.sent, None)
      case LoggedIn(u) =>
        var route := RouteForRole(Field(u, "role"));
        if route.Some? then Submission(step.state, step.sent, route)
        else Submission(step.state.(error := Some(Untyped(UnknownRoleMessage))), step.sent, None)
  }

  /** The error is cleared at the start of every attempt, so what a submit
      does never depends on the error shown before it. */
  lemma SubmitForgetsPriorError(s: SessionState, e1: Option<AuthError>, e2: Option<AuthError>,
                                username: string, password: string, env: LoginEnv)
    ensures Submit(s.(error := e1), username, password, env) == Submit(s.(error := e2), username, password, env)
  {
  }

  /** A submission navigates only to one of the four role home screens. */
  lemma NavigationIsARoleHome(s: SessionState, username: string, password: string, env: LoginEnv)
    ensures var nav := Submit(s, username, password, env).navigation;
      nav.Some? ==> nav.value in ["/(student)/home", "/(lecturer)/home", "/(invigilator)/home", "/(admin)/home"]
  {
  }

  /** The screen `LoginPage`. */
  class LoginPage {
    var username: string
    var password: string
    var showPassword: bool
    const session: AuthProvider
    const router: Router

    constructor (session: AuthProvider, router: Router)
      ensures this.session == session && this.router == router
      ensures username == "" && password == "" && !showPassword
    {
      this.session := session;
      this.router := router;
      username, password, showPassword := "", "", false;
    }

    method ChangeUsername(text: string)
      modifies this
      ensures username == text && password == old(password) && showPassword == old(showPassword)
    {
      username := text;
    }

    method ChangePassword(text: string)
      modifies this
      ensures password == text && username == old(username) && showPassword == old(showPassword)
    {
      password := text;
    }

    /** The password field sets `secureTextEntry`, so it is masked exactly
        while the password is not shown. */
    function PasswordMasked(): (m: bool)
      reads this
      ensures m <==> !showPassword
    {
      var secureTextEntry := true;
      secureTextEntry && !showPassword
    }

    /** `onToggleVisibility`: `setShowPassword((v) => !v)` */
    method ToggleVisibility()
      modifies this
      ensures showPassword == !old(showPassword)
      ensures PasswordMasked() == !old(PasswordMasked())
      ensures username == old(username) && password == old(password)
    {
      showPassword := !showPassword;
    }

    /** `handleLogin` */
    method HandleLogin(env: LoginEnv)
      modifies session, session.store, router
      ensures var r := Submit(old(session.State()), username, password, env);
        session.State() == r.state
        && router.replaced == old(router.replaced) + (if r.navigation.Some? then [r.navigation.value] else [])
    {
      session.SetError(None);
      if username == "" || password == "" {
        session.SetError(Some(Untyped(EmptyFieldsMessage)));
        return;
      }
      var sent, outcome := session.Login(username, password, env);
      match outcome {
        case LoginFailed(_, _) =>
        case LoggedIn(u) =>
          var route := RouteForRole(Field(u, "role"));
          if route.Some? {
            router.Replace(route.value);
          } else {
            session.SetError(Some(Untyped(UnknownRoleMessage)));
          }
      }
    }
  }
}
