/** The auth context provider: the session fields it keeps, the store it
    writes and the global Authorization header, updated step by step by each
    action. Every action is proved to produce exactly the state that the
    matching function of SessionSpec describes. */
module AuthContext {
  import opened Values
  import opened Platform
  import opened LoginErrors
  import opened SessionSpec

  class AuthProvider {
    var user: Option<Obj>
    var tokens: Option<Obj>
    var isLoading: bool
    var error: Option<AuthError>
    /** `axios.defaults.headers.common['Authorization']` */
    var authorization: Option<string>
    const store: Storage

    ghost function State(): SessionState
      reads this, store
    {
      SessionState(user, tokens, isLoading, error, authorization, store.entries)
    }

    /** The provider as it mounts: nothing loaded yet, spinner on. */
    constructor (store: Storage)
      ensures this.store == store
      ensures State() == Initial(store.entries)
    {
      this.store := store;
      user, tokens, isLoading, error, authorization := None, None, true, None, None;
    }

    function IsAuthenticated(): (b: bool)
      reads this, store
      ensures b == SessionSpec.IsAuthenticated(State())
    {
      user.Some? && Truthy(FieldOf(tokens, "access"))
    }

    function HasRole(role: string): (b: bool)
      reads this, store
      ensures b == SessionSpec.HasRole(State(), role)
    {
      FieldOf(user, "role") == Str(role)
    }

    /** `setError` */
    method SetError(e: Option<AuthError>)
      modifies this
      ensures State() == old(State()).(error := e)
    {
      error := e;
    }

    /** `loadAuthData`, run once on mount. */
    method LoadAuthData(readFails: bool)
      modifies this
      ensures State() == Hydrate(old(State()), readFails)
    {
      if !readFails {
        var storedTokens := store.GetItem(TokensKey);
        var storedUser := store.GetItem(UserKey);
        if EntryTruthy(storedTokens) && EntryTruthy(storedUser) {
          match storedTokens.value
          case Text(_) =>
          case Json(t) =>
            tokens := Some(t);
            match storedUser.value
            case Text(_) =>
            case Json(u) =>
              user := Some(u);
              authorization := Some(BearerOf(Field(t, "access")));
        }
      }
      isLoading := false;
    }

    /** The `catch` and `finally` of `login`. */
    method FailLogin(e: AuthError) returns (outcome: LoginOutcome)
      modifies this
      ensures State() == old(State()).(error := Some(e), isLoading := false)
      ensures outcome == LoginFailed(e, LoginToast(e))
    {
      error := Some(e);
      outcome := LoginFailed(e, LoginToast(e));
      isLoading := false;
    }

    /** `login(email, password)` */
    method Login(email: string, password: string, env: LoginEnv)
      returns (sent: Option<LoginRequest>, outcome: LoginOutcome)
      modifies this, store
      ensures var step := SessionSpec.Login(old(State()), email, password, env);
        State() == step.state && sent == step.sent && outcome == step.outcome
    {
      isLoading := true;
      error := None;
      sent := None;
      if env.permission != "granted" {
        outcome := FailLogin(Typed(Permission, PermissionMessage));
        return;
      }
      if env.position.None? {
        outcome := FailLogin(Typed(Location, LocationMessage));
        return;
      }
      var position := env.position.value;
      var request := LoginRequest(email, password, DeviceId(env.osBuildId),
                                  position.latitude, position.longitude);
      sent := Some(request);
      match env.response {
        case Rejected(body) =>
          outcome := FailLogin(ClassifyRejection(body));
        case Accepted(data) =>
          if env.storeFault.Some? {
            outcome := FailLogin(Untyped(env.storeFault.value));
            return;
          }
          var authTokens, userData := TokenPart(data), UserPart(data);
          store.MultiSet(TokensKey, Json(authTokens), UserKey, Json(userData));
          tokens := Some(authTokens);
          user := Some(userData);
          authorization := Some(BearerOf(Field(data, "access")));
          if !Greets(userData) {
            outcome := FailLogin(Untyped(ScriptErrorMessage));
            return;
          }
          outcome := LoggedIn(userData);
          isLoading := false;
      }
    }

    /** `logout()` */
    method Logout(removeFails: bool)
      modifies this, store
      ensures State() == SessionSpec.Logout(old(State()), removeFails)
    {
      isLoading := true;
      if GoodbyeEvaluates(user) && !removeFails {
        store.MultiRemove(TokensKey, UserKey);
        user := None;
        tokens := None;
        authorization := None;
      }
      isLoading := false;
    }

    /** `refreshToken()` */
    method RefreshToken(env: RefreshEnv) returns (sent: Option<Value>, result: Result<Value, RefreshError>)
      modifies this, store
      ensures var step := Refresh(old(State()), env);
        State() == step.state && sent == step.sent && result == step.result
    {
      var refresh := FieldOf(tokens, "refresh");
      if !Truthy(refresh) {
        sent := None;
        Logout(env.removeFails);
        result := Err(NoRefreshToken);
        return;
      }
      sent := Some(refresh);
      match env.response {
        case RefreshRejected =>
          Logout(env.removeFails);
          result := Err(ExchangeFailed);
        case Refreshed(data) =>
          var newTokens := RefreshedTokens(refresh, data);
          if env.storeFails {
            Logout(env.removeFails);
            result := Err(StorageFailed);
            return;
          }
          store.SetItem(TokensKey, Json(newTokens));
          tokens := Some(newTokens);
          authorization := Some(BearerOf(Field(newTokens, "access")));
          result := Ok(Field(newTokens, "access"));
      }
    }

    /** `updateUserProfile(userData)` */
    method UpdateUserProfile(fields: Obj, env: UpdateEnv) returns (sent: Option<ProfileRequest>, result: UpdateResult)
      modifies this, store
      ensures var step := UpdateProfile(old(State()), fields, env);
        State() == step.state && sent == step.sent && result == step.result
    {
      isLoading := true;
      sent := None;
      if PasswordsMismatch(fields) {
        result := NotUpdated(Message(MismatchMessage));
      } else if user.None? {
        result := NotUpdated(Message(ScriptErrorMessage));
      } else {
        var request := ProfileRequest("/profile/" + ToText(Field(user.value, "id")) + "/",
                                      Payload(fields), BearerOf(FieldOf(tokens, "access")));
        sent := Some(request);
        match env.response {
          case PutFailed(body, message) =>
            result := NotUpdated(if body.Some? then ServerBody(body.value) else Message(OrUpdateFailed(message)));
          case PutOk(data) =>
            var updatedUser := MergeProfile(user.value, fields);
            user := Some(updatedUser);
            if env.storeFault.Some? {
              result := NotUpdated(Message(OrUpdateFailed(env.storeFault.value)));
            } else {
              store.SetItem(UserKey, Json(updatedUser));
              result := if Greets(updatedUser) then Updated(data) else NotUpdated(Message(ScriptErrorMessage));
            }
        }
      }
      isLoading := false;
    }
  }
}
