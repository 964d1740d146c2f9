/** The authentication session as a value, and each action of the auth
    context as a function from the session before to the session after (plus
    the request the action sends and what it returns). One action is one
    atomic step: hooks, re-renders and overlapping calls are not modelled. */
module SessionSpec {
  import opened Values
  import opened Platform
  import opened LoginErrors

  const TokensKey := "tokens"
  const UserKey := "user"

  /** `{user, tokens, isLoading, error}` of the context, the global
      `Authorization` header of the HTTP client, and the persistent store. */
  datatype SessionState = SessionState(
    user: Option<Obj>,
    tokens: Option<Obj>,
    isLoading: bool,
    error: Option<AuthError>,
    authorization: Option<string>,
    storage: map<string, Entry>)

  /** The state when the provider mounts, before the stored session is read. */
  function Initial(storage: map<string, Entry>): (r: SessionState)
    ensures r.storage == storage && r.isLoading
    ensures r.user.None? && r.tokens.None? && r.error.None? && r.authorization.None?
    ensures !IsAuthenticated(r)
  {
    SessionState(None, None, true, None, None, storage)
  }

  /** `isAuthenticated()` */
  function IsAuthenticated(s: SessionState): (b: bool)
    ensures b <==> s.user.Some? && s.tokens.Some? && Truthy(Field(s.tokens.value, "access"))
  {
    s.user.Some? && Truthy(FieldOf(s.tokens, "access"))
  }

  /** `hasRole(role)`: `user?.role === role`. Only a user can have a role. */
  function HasRole(s: SessionState, role: string): (b: bool)
    ensures b <==> s.user.Some? && Field(s.user.value, "role") == Str(role)
  {
    FieldOf(s.user, "role") == Str(role)
  }

  /** The header value `Bearer ${access}`. */
  function BearerOf(access: Value): string
  {
    "Bearer " + ToText(access)
  }

  lemma NoRoleWithoutUser(s: SessionState, role: string)
    requires s.user.None?
    ensures !HasRole(s, role) && !IsAuthenticated(s)
  {
  }

  // ----------------------------------------------------------------------
  // Startup

  /** `loadAuthData`: reads `tokens` and `user`; only when both hold a
      non-empty string are they parsed, tokens first. `readFails` is a storage
      read that throws. A string that is not a stringified object does not
      parse, and the parse that throws stops the step where it is. */
  function Hydrate(s: SessionState, readFails: bool): (r: SessionState)
    ensures !r.isLoading
    ensures r.storage == s.storage && r.error == s.error
    ensures r.user != s.user <==>
      !readFails && Lookup(s.storage, TokensKey).Some? && Lookup(s.storage, TokensKey).value.Json?
      && Lookup(s.storage, UserKey).Some? && Lookup(s.storage, UserKey).value.Json?
      && s.user != Some(s.storage[UserKey].obj)
    ensures var t := Lookup(s.storage, TokensKey); var u := Lookup(s.storage, UserKey);
      if !readFails && t.Some? && t.value.Json? && u.Some? && u.value.Json? then
        r.tokens == Some(t.value.obj) && r.user == Some(u.value.obj)
        && r.authorization == Some(BearerOf(Field(t.value.obj, "access")))
      else
        r.user == s.user && r.authorization == s.authorization
        && (r.tokens != s.tokens ==>
              !readFails && t.Some? && t.value.Json? && r.tokens == Some(t.value.obj)
              && u.Some? && u.value.Text? && u.value.text != "")
  {
    var t := Lookup(s.storage, TokensKey);
    var u := Lookup(s.storage, UserKey);
    var done := s.(isLoading := false);
    if readFails || !EntryTruthy(t) || !EntryTruthy(u) then done
    else if t.value.Text? then done
    else if u.value.Text? then done.(tokens := Some(t.value.obj))
    else
      done.(tokens := Some(t.value.obj), user := Some(u.value.obj),
            authorization := Some(BearerOf(Field(t.value.obj, "access"))))
  }

  // ----------------------------------------------------------------------
  // Login

  /** The device position, its coordinates as the strings the request sends. */
  datatype Position = Position(latitude: string, longitude: string)

  /** The body of the POST to `/login/`. */
  datatype LoginRequest = LoginRequest(
    email: string, password: string, deviceId: string, latitude: string, longitude: string)

  /** The server's answer: the response data of a success, or the data of a
      failed request (None when there was no response or no data). */
  datatype LoginResponse = Accepted(data: Obj) | Rejected(body: Option<Obj>)

  /** Everything outside the app that `login` consults: the location
      permission status, the position (None when it cannot be read), the
      device's build id, the server's answer, and a failure of the storage
      write (its error message). */
  datatype LoginEnv = LoginEnv(
    permission: string,
    position: Option<Position>,
    osBuildId: Option<string>,
    response: LoginResponse,
    storeFault: Option<string>)

  /** What the call returns: the user, or the error it rethrows together with
      the text of the toast shown for it. */
  datatype LoginOutcome = LoggedIn(user: Obj) | LoginFailed(error: AuthError, toast: string)

  datatype LoginStep = LoginStep(state: SessionState, sent: Option<LoginRequest>, outcome: LoginOutcome)

  /** `Device.osBuildId || 'unknown'` */
  function DeviceId(osBuildId: Option<string>): (id: string)
    ensures id != ""
    ensures osBuildId.Some? && osBuildId.value != "" ==> id == osBuildId.value
    ensures osBuildId.None? || osBuildId.value == "" ==> id == "unknown"
  {
    if osBuildId.Some? && osBuildId.value != "" then osBuildId.value else "unknown"
  }

  /** `{ refresh, access }` of the response data. */
  function TokenPart(data: Obj): (t: Obj)
    ensures t.Keys == data.Keys * {"refresh", "access"}
    ensures forall k :: k in t ==> t[k] == data[k]
  {
    map k | k in data && (k == "refresh" || k == "access") :: data[k]
  }

  /** `...userData`: the response data without `refresh` and `access`. */
  function UserPart(data: Obj): (u: Obj)
    ensures u.Keys == data.Keys - {"refresh", "access"}
    ensures forall k :: k in u ==> u[k] == data[k]
  {
    map k | k in data && k != "refresh" && k != "access" :: data[k]
  }

  /** The two parts together are exactly the response data, and they share
      no field. */
  lemma ResponseSplits(data: Obj)
    ensures TokenPart(data).Keys !! UserPart(data).Keys
    ensures TokenPart(data) + UserPart(data) == data
  {
    var t, u := TokenPart(data), UserPart(data);
    assert (t + u).Keys == data.Keys;
  }

  /** `u.first_name || u.email.split('@')[0]` evaluates without throwing:
      without a first name, `email` must be a string. */
  predicate Greets(u: Obj)
  {
    Truthy(Field(u, "first_name")) || Field(u, "email").Str?
  }

  /** The login request is sent and answered with success, and the session
      is written to storage. */
  predicate Persists(env: LoginEnv)
  {
    env.permission == "granted" && env.position.Some? && env.response.Accepted? && env.storeFault.None?
  }

  /** The `catch` of `login`: record the error; `finally` clears isLoading. */
  function LoginFails(s: SessionState, sent: Option<LoginRequest>, e: AuthError): LoginStep
  {
    LoginStep(s.(error := Some(e), isLoading := false), sent, LoginFailed(e, LoginToast(e)))
  }

  /** `login(email, password)` */
  function Login(s: SessionState, email: string, password: string, env: LoginEnv): (r: LoginStep)
    ensures !r.state.isLoading
    ensures r.sent.None? <==> env.permission != "granted" || env.position.None?
    ensures r.sent.Some? ==>
      r.sent.value == LoginRequest(email, password, DeviceId(env.osBuildId),
                                   env.position.value.latitude, env.position.value.longitude)
    ensures env.permission != "granted" ==>
      r.outcome.LoginFailed? && r.outcome.error == Typed(Permission, PermissionMessage)
    ensures env.permission == "granted" && env.position.None? ==>
      r.outcome.LoginFailed? && r.outcome.error == Typed(Location, LocationMessage)
    ensures r.sent.Some? && env.response.Rejected? ==>
      r.outcome.LoginFailed? && r.outcome.error == ClassifyRejection(env.response.body)
    ensures r.sent.Some? && env.response.Accepted? && env.storeFault.Some? ==>
      r.outcome.LoginFailed? && r.outcome.error == Untyped(env.storeFault.value)
    ensures Persists(env) ==>
      var data := env.response.data;
      r.state.tokens == Some(TokenPart(data)) && r.state.user == Some(UserPart(data))
      && r.state.authorization == Some(BearerOf(Field(data, "access")))
      && r.state.storage == s.storage[TokensKey := Json(TokenPart(data))][UserKey := Json(UserPart(data))]
    ensures !Persists(env) ==>
      r.state.tokens == s.tokens && r.state.user == s.user
      && r.state.authorization == s.authorization && r.state.storage == s.storage
    ensures r.outcome.LoggedIn? <==> Persists(env) && Greets(UserPart(env.response.data))
    ensures r.outcome.LoggedIn? ==>
      r.state.user == Some(r.outcome.user) && r.outcome.user == UserPart(env.response.data)
      && r.state.error.None?
    ensures r.outcome.LoginFailed? ==>
      r.state.error == Some(r.outcome.error) && r.outcome.toast == LoginToast(r.outcome.error)
  {
    var s0 := s.(isLoading := true, error := None);
    if env.permission != "granted" then
      LoginFails(s0, None, Typed(Permission, PermissionMessage))
    else if env.position.None? then
      LoginFails(s0, None, Typed(Location, LocationMessage))
    else
      var pos := env.position.value;
      var req := LoginRequest(email, password, DeviceId(env.osBuildId), pos.latitude, pos.longitude);
      match env.response
      case Rejected(body) => LoginFails(s0, Some(req), ClassifyRejection(body))
      case Accepted(data) =>
        if env.storeFault.Some? then LoginFails(s0, Some(req), Untyped(env.storeFault.value))
        else
          var tokens, user := TokenPart(data), UserPart(data);
          var s1 := s0.(tokens := Some(tokens), user := Some(user),
                        storage := s0.storage[TokensKey := Json(tokens)][UserKey := Json(user)],
                        authorization := Some(BearerOf(Field(data, "access"))));
          if Greets(user) then LoginStep(s1.(isLoading := false), Some(req), LoggedIn(user))
          else LoginFails(s1, Some(req), Untyped(ScriptErrorMessage))
  }

  /** A failed login that did not get as far as writing the session leaves
      tokens, user, header and storage as they were. */
  lemma FailedLoginKeepsSession(s: SessionState, email: string, password: string, env: LoginEnv)
    requires Login(s, email, password, env).outcome.LoginFailed?
    ensures var r := Login(s, email, password, env).state;
      !Persists(env) ==> r.tokens == s.tokens && r.user == s.user && r.storage == s.storage
    ensures var r := Login(s, email, password, env).state;
      Persists(env) ==> !Greets(UserPart(env.response.data)) && r.user == Some(UserPart(env.response.data))
  {
  }

  /** After a login that returns, the session is authenticated exactly when
      the server sent a truthy access token, and the user has the role the
      server gave. */
  lemma LoginAuthenticates(s: SessionState, email: string, password: string, env: LoginEnv, role: string)
    requires Login(s, email, password, env).outcome.LoggedIn?
    ensures var r := Login(s, email, password, env).state;
      IsAuthenticated(r) <==> Truthy(Field(env.response.data, "access"))
    ensures var r := Login(s, email, password, env).state;
      HasRole(r, role) <==> Field(env.response.data, "role") == Str(role)
  {
  }

  /** Round trip through storage: a later launch restores the session a
      successful login wrote. */
  lemma HydrateRestoresLogin(s: SessionState, email: string, password: string, env: LoginEnv)
    requires Persists(env)
    ensures var written := Login(s, email, password, env).state;
      var restored := Hydrate(Initial(written.storage), false);
      restored.user == written.user && restored.tokens == written.tokens
      && restored.authorization == written.authorization && !restored.isLoading
  {
  }

  // ----------------------------------------------------------------------
  // Logout

  /** `user?.first_name || user?.email.split('@')[0] || 'User'` evaluates
      without throwing: with no user at all the chain yields 'User'. */
  predicate GoodbyeEvaluates(user: Option<Obj>)
  {
    user.None? || Greets(user.value)
  }

  /** The logout reaches and completes the removal of the stored session. */
  predicate LogoutClears(s: SessionState, removeFails: bool)
  {
    GoodbyeEvaluates(s.user) && !removeFails
  }

  /** `logout()`; `removeFails` is a `multiRemove` that throws. The call
      itself never throws. */
  function Logout(s: SessionState, removeFails: bool): (r: SessionState)
    ensures !r.isLoading && r.error == s.error
    ensures LogoutClears(s, removeFails) ==>
      r.user.None? && r.tokens.None? && r.authorization.None?
      && r.storage == s.storage - {TokensKey, UserKey}
    ensures !LogoutClears(s, removeFails) ==> r == s.(isLoading := false)
  {
    var done := s.(isLoading := false);
    if !GoodbyeEvaluates(s.user) || removeFails then done
    else done.(user := None, tokens := None, authorization := None,
               storage := s.storage - {TokensKey, UserKey})
  }

  /** A logout that clears ends the session, and a later launch finds none. */
  lemma LogoutEndsSession(s: SessionState, removeFails: bool, role: string)
    requires LogoutClears(s, removeFails)
    ensures !IsAuthenticated(Logout(s, removeFails)) && !HasRole(Logout(s, removeFails), role)
    ensures Hydrate(Initial(Logout(s, removeFails).storage), false).user.None?
  {
  }

  // ----------------------------------------------------------------------
  // Token refresh

  /** The answer to the POST to `/token/refresh/`. */
  datatype RefreshResponse = Refreshed(data: Obj) | RefreshRejected

  /** The server's answer, whether writing the new tokens throws, and whether
      the storage removal of the logout that a failure triggers throws. */
  datatype RefreshEnv = RefreshEnv(response: RefreshResponse, storeFails: bool, removeFails: bool)

  datatype RefreshError = NoRefreshToken | ExchangeFailed | StorageFailed

  /** The new state, the refresh token posted (None when none was sent), and
      the new access token or the error rethrown. */
  datatype RefreshStep = RefreshStep(state: SessionState, sent: Option<Value>, result: Result<Value, RefreshError>)

  /** `{ access: response.data.access, refresh: tokens.refresh }`; an
      undefined access is a field that is not there. */
  function RefreshedTokens(refresh: Value, data: Obj): (t: Obj)
    requires Truthy(refresh)
    ensures Field(t, "access") == Field(data, "access")
    ensures Field(t, "refresh") == refresh
    ensures t.Keys <= {"access", "refresh"}
  {
    var withRefresh := map["refresh" := refresh];
    if "access" in data then withRefresh["access" := data["access"]] else withRefresh
  }

  /** `refreshToken()` */
  function Refresh(s: SessionState, env: RefreshEnv): (r: RefreshStep)
    ensures r.sent.Some? <==> Truthy(FieldOf(s.tokens, "refresh"))
    ensures r.sent.Some? ==> r.sent.value == FieldOf(s.tokens, "refresh")
    ensures r.result.Ok? <==> r.sent.Some? && env.response.Refreshed? && !env.storeFails
    ensures r.result.Ok? ==> r.state.tokens.Some?
    ensures r.result.Ok? && r.state.tokens.Some? ==>
      var t := r.state.tokens.value;
      Field(t, "access") == Field(env.response.data, "access") == r.result.value
      && Field(t, "refresh") == FieldOf(s.tokens, "refresh")
      && t.Keys <= {"access", "refresh"}
      && r.state.authorization == Some(BearerOf(r.result.value))
      && r.state.storage == s.storage[TokensKey := Json(t)]
      && r.state.user == s.user && r.state.isLoading == s.isLoading && r.state.error == s.error
    ensures r.result.Err? ==> r.state == Logout(s, env.removeFails)
    ensures r.result.Err? && r.sent.None? ==> r.result.error == NoRefreshToken
  {
    var refresh := FieldOf(s.tokens, "refresh");
    if !Truthy(refresh) then
      RefreshStep(Logout(s, env.removeFails), None, Err(NoRefreshToken))
    else
      match env.response
      case RefreshRejected =>
        RefreshStep(Logout(s, env.removeFails), Some(refresh), Err(ExchangeFailed))
      case Refreshed(data) =>
        var t := RefreshedTokens(refresh, data);
        if env.storeFails then
          RefreshStep(Logout(s, env.removeFails), Some(refresh), Err(StorageFailed))
        else
          RefreshStep(s.(tokens := Some(t), authorization := Some(BearerOf(Field(t, "access"))),
                         storage := s.storage[TokensKey := Json(t)]),
                      Some(refresh), Ok(Field(t, "access")))
  }

  // ----------------------------------------------------------------------
  // Profile update

  const NewPasswordKey := "new_password"
  const VerifyPasswordKey := "verify_password"
  const MismatchMessage := "Passwords do not match"

  /** `...profileData`: the submitted fields without the two password fields. */
  function ProfileFields(fields: Obj): (p: Obj)
    ensures p.Keys == fields.Keys - {NewPasswordKey, VerifyPasswordKey}
    ensures forall k :: k in p ==> p[k] == fields[k]
  {
    map k | k in fields && k != NewPasswordKey && k != VerifyPasswordKey :: fields[k]
  }

  /** Both passwords are given (truthy) and they differ. */
  predicate PasswordsMismatch(fields: Obj)
  {
    var np, vp := Field(fields, NewPasswordKey), Field(fields, VerifyPasswordKey);
    Truthy(np) && Truthy(vp) && !StrictEquals(np, vp)
  }

  /** The body of the PUT: the profile fields, plus both password fields when
      both are given. */
  function Payload(fields: Obj): (p: Obj)
    ensures forall k :: k != NewPasswordKey && k != VerifyPasswordKey ==>
      (k in p <==> k in fields) && (k in p ==> p[k] == fields[k])
    ensures NewPasswordKey in p <==>
      Truthy(Field(fields, NewPasswordKey)) && Truthy(Field(fields, VerifyPasswordKey))
    ensures (NewPasswordKey in p <==> VerifyPasswordKey in p)
    ensures NewPasswordKey in p ==>
      p[NewPasswordKey] == fields[NewPasswordKey] && p[VerifyPasswordKey] == fields[VerifyPasswordKey]
  {
    var np, vp := Field(fields, NewPasswordKey), Field(fields, VerifyPasswordKey);
    if Truthy(np) && Truthy(vp) then ProfileFields(fields)[NewPasswordKey := np][VerifyPasswordKey := vp]
    else ProfileFields(fields)
  }

  /** `{ ...user, ...profileData }` */
  function MergeProfile(user: Obj, fields: Obj): (u: Obj)
    ensures u.Keys == user.Keys + (fields.Keys - {NewPasswordKey, VerifyPasswordKey})
    ensures forall k :: k in fields && k != NewPasswordKey && k != VerifyPasswordKey ==> u[k] == fields[k]
    ensures forall k :: k in user && k !in fields ==> u[k] == user[k]
    ensures NewPasswordKey in u <==> NewPasswordKey in user
    ensures VerifyPasswordKey in u <==> VerifyPasswordKey in user
    ensures NewPasswordKey in user ==> u[NewPasswordKey] == user[NewPasswordKey]
    ensures VerifyPasswordKey in user ==> u[VerifyPasswordKey] == user[VerifyPasswordKey]
  {
    user + ProfileFields(fields)
  }

  /** The PUT to `/profile/{id}/`: path, body and the Authorization header
      sent with it. */
  datatype ProfileRequest = ProfileRequest(path: string, payload: Obj, authorization: string)

  /** The server's answer: its data, or the failure's response data (None
      without a response) and the failure's message. */
  datatype PutResponse = PutOk(data: Obj) | PutFailed(body: Option<Obj>, message: string)

  /** The server's answer and a failure of the storage write (its message). */
  datatype UpdateEnv = UpdateEnv(response: PutResponse, storeFault: Option<string>)

  /** `error.response?.data || error.message || 'Update failed'` */
  datatype UpdateError = Message(text: string) | ServerBody(body: Obj)

  /** `{ success: true, data }` or `{ success: false, error }` */
  datatype UpdateResult = Updated(data: Obj) | NotUpdated(error: UpdateError)

  datatype UpdateStep = UpdateStep(state: SessionState, sent: Option<ProfileRequest>, result: UpdateResult)

  function OrUpdateFailed(message: string): string
  {
    if message != "" then message else "Update failed"
  }

  /** The profile request is sent (the passwords agree and there is a user
      whose id can be read) and the server accepts it. */
  predicate UpdateAccepted(s: SessionState, fields: Obj, env: UpdateEnv)
  {
    !PasswordsMismatch(fields) && s.user.Some? && env.response.PutOk?
  }

  /** `updateUserProfile(userData)` */
  function UpdateProfile(s: SessionState, fields: Obj, env: UpdateEnv): (r: UpdateStep)
    ensures !r.state.isLoading
    ensures r.state.tokens == s.tokens && r.state.error == s.error && r.state.authorization == s.authorization
    ensures PasswordsMismatch(fields) ==>
      r.sent.None? && r.result == NotUpdated(Message(MismatchMessage))
    ensures r.sent.Some? <==> !PasswordsMismatch(fields) && s.user.Some?
    ensures r.sent.Some? ==>
      r.sent.value == ProfileRequest("/profile/" + ToText(Field(s.user.value, "id")) + "/",
                                     Payload(fields), BearerOf(FieldOf(s.tokens, "access")))
    ensures r.state.user ==
      if UpdateAccepted(s, fields, env) then Some(MergeProfile(s.user.value, fields)) else s.user
    ensures r.state.storage ==
      if UpdateAccepted(s, fields, env) && env.storeFault.None?
      then s.storage[UserKey := Json(MergeProfile(s.user.value, fields))]
      else s.storage
    ensures r.result.Updated? <==>
      UpdateAccepted(s, fields, env) && env.storeFault.None? && Greets(MergeProfile(s.user.value, fields))
    ensures r.result.Updated? ==> r.result.data == env.response.data
  {
    var done := s.(isLoading := false);
    if PasswordsMismatch(fields) then UpdateStep(done, None, NotUpdated(Message(MismatchMessage)))
    else if s.user.None? then UpdateStep(done, None, NotUpdated(Message(ScriptErrorMessage)))
    else
      var req := ProfileRequest("/profile/" + ToText(Field(s.user.value, "id")) + "/",
                                Payload(fields), BearerOf(FieldOf(s.tokens, "access")));
      match env.response
      case PutFailed(body, message) =>
        UpdateStep(done, Some(req),
                   NotUpdated(if body.Some? then ServerBody(body.value) else Message(OrUpdateFailed(message))))
      case PutOk(data) =>
        var u := MergeProfile(s.user.value, fields);
        var s1 := done.(user := Some(u));
        if env.storeFault.Some? then
          UpdateStep(s1, Some(req), NotUpdated(Message(OrUpdateFailed(env.storeFault.value))))
        else
          var s2 := s1.(storage := s1.storage[UserKey := Json(u)]);
          if Greets(u) then UpdateStep(s2, Some(req), Updated(data))
          else UpdateStep(s2, Some(req), NotUpdated(Message(ScriptErrorMessage)))
  }

  /** A profile update never writes the password fields into the user: the
      stored user has them exactly when the old user had them. */
  lemma UpdateKeepsPasswordsOut(s: SessionState, fields: Obj, env: UpdateEnv)
    requires s.user.Some?
    ensures var u := UpdateProfile(s, fields, env).state.user.value;
      (NewPasswordKey in u <==> NewPasswordKey in s.user.value)
      && (VerifyPasswordKey in u <==> VerifyPasswordKey in s.user.value)
  {
  }
}
