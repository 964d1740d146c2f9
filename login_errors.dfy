/** How a failed login is turned into an error the screens can show: the
    typed errors `login` throws, the order in which a server rejection is
    read, and the text of the toast that reports it. */
module LoginErrors {
  import opened Values

  /** The `type` tags `login` puts on the errors it throws. */
  datatype ErrorKind = Permission | Location | Email | Password | Device | Backend | Network

  /** An error object as `setError` stores it. `Typed` errors are the ones
      `login` builds itself; `Untyped` ones carry only a message (a script
      error, a storage error, or an error set by a screen). */
  datatype AuthError = Typed(kind: ErrorKind, message: string) | Untyped(message: string)

  const PermissionMessage := "Please enable location services to continue"
  const LocationMessage := "Could not determine your location. Please try again."
  const NetworkMessage := "Network error. Please check your connection."
  /** Stands for the message of the TypeError the script engine raises when
      it calls a method on a value that lacks it; its exact text is the
      engine's. */
  const ScriptErrorMessage := "TypeError"

  predicate IsKind(e: AuthError, k: ErrorKind)
  {
    e.Typed? && e.kind == k
  }

  /** The four server fields whose rejection gets its own error type. */
  predicate FieldKind(k: ErrorKind)
  {
    k == Email || k == Password || k == Device || k == Location
  }

  /** The word the toast puts before " error: ". */
  function KindLabel(k: ErrorKind): string
  {
    match k
    case Permission => "Permission"
    case Location => "Location"
    case Email => "Email"
    case Password => "Password"
    case Device => "Device"
    case Backend => "Backend"
    case Network => "Network"
  }

  predicate Rejects(d: Obj, key: string)
  {
    Truthy(Field(d, key))
  }

  /** `error.response.data[key].join(', ')` for a field already known to be
      truthy: an array gives the typed error; any other value has no `join`,
      and calling it raises a script error instead. */
  function FieldError(d: Obj, key: string, k: ErrorKind): (e: AuthError)
  {
    match Field(d, key)
    case StrList(items) => Typed(k, Join(items, ", "))
    case _ => Untyped(ScriptErrorMessage)
  }

  /** The error `login` throws when the login request is rejected. `body` is
      the response's data, or None when there was no response or its data was
      empty. */
  function ClassifyRejection(body: Option<Obj>): (e: AuthError)
    ensures body.None? ==> e == Typed(Network, NetworkMessage)
    ensures IsKind(e, Email) <==>
      body.Some? && Field(body.value, "email").StrList?
    ensures IsKind(e, Password) <==>
      body.Some? && !Rejects(body.value, "email") && Field(body.value, "password").StrList?
    ensures IsKind(e, Device) <==>
      body.Some? && !Rejects(body.value, "email") && !Rejects(body.value, "password")
      && Field(body.value, "device_id").StrList?
    ensures IsKind(e, Location) <==>
      body.Some? && !Rejects(body.value, "email") && !Rejects(body.value, "password")
      && !Rejects(body.value, "device_id") && Field(body.value, "location").StrList?
    ensures IsKind(e, Backend) <==>
      body.Some? && !Rejects(body.value, "email") && !Rejects(body.value, "password")
      && !Rejects(body.value, "device_id") && !Rejects(body.value, "location")
      && Rejects(body.value, "detail")
    ensures IsKind(e, Network) <==>
      body.None? ||
      (!Rejects(body.value, "email") && !Rejects(body.value, "password")
       && !Rejects(body.value, "device_id") && !Rejects(body.value, "location")
       && !Rejects(body.value, "detail"))
    ensures !IsKind(e, Permission)
    ensures IsKind(e, Email) ==> e.message == Join(Field(body.value, "email").items, ", ")
    ensures IsKind(e, Password) ==> e.message == Join(Field(body.value, "password").items, ", ")
    ensures IsKind(e, Device) ==> e.message == Join(Field(body.value, "device_id").items, ", ")
    ensures IsKind(e, Location) ==> e.message == Join(Field(body.value, "location").items, ", ")
    ensures e.Untyped? ==> e.message == ScriptErrorMessage
    ensures IsKind(e, Backend) ==> e.message == ToText(Field(body.value, "detail"))
  {
    if body.None? then Typed(Network, NetworkMessage)
    else
      var d := body.value;
      if Rejects(d, "email") then FieldError(d, "email", Email)
      else if Rejects(d, "password") then FieldError(d, "password", Password)
      else if Rejects(d, "device_id") then FieldError(d, "device_id", Device)
      else if Rejects(d, "location") then FieldError(d, "location", Location)
      else if Rejects(d, "detail") then Typed(Backend, ToText(Field(d, "detail")))
      else Typed(Network, NetworkMessage)
  }

  /** The text of the error toast `login` shows for a thrown error. */
  function LoginToast(e: AuthError): (t: string)
    ensures |t| > 0
    ensures e.Typed? && FieldKind(e.kind) ==> t == KindLabel(e.kind) + " error: " + e.message
    ensures !(e.Typed? && FieldKind(e.kind)) ==> t == (if e.message == "" then "Login failed" else e.message)
  {
    var fallback := if e.message != "" then e.message else "Login failed";
    if IsKind(e, Email) then "Email error: " + e.message
    else if IsKind(e, Password) then "Password error: " + e.message
    else if IsKind(e, Device) then "Device error: " + e.message
    else if IsKind(e, Location) then "Location error: " + e.message
    else fallback
  }
}
