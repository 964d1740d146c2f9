/** The entry route: on launch it reads the onboarding flag and replaces
    itself with the onboarding screen or the login screen. */
module LaunchIndex {
  import opened Values
  import opened Platform

  /** Where `checkOnboarding` sends the app: to onboarding only when the flag
      was read and is absent; any stored value, not only 'true', and any read
      error lead to login. */
  function LaunchTarget(flag: Option<Entry>, readFails: bool): (path: string)
    ensures path == "/onboarding" <==> !readFails && flag.None?
    ensures path == "/onboarding" || path == "/login"
  {
    if readFails then "/login"
    else if flag.None? then "/onboarding"
    else "/login"
  }

  /** The screen `Index`. */
  class IndexScreen {
    var isLoading: bool
    const store: Storage
    const router: Router

    constructor (store: Storage, router: Router)
      ensures this.store == store && this.router == router
      ensures isLoading && Rendered() == Spinner
    {
      this.store := store;
      this.router := router;
      isLoading := true;
    }

    /** A spinner while loading, and nothing afterwards. */
    function Rendered(): (v: View)
      reads this
      ensures v == Spinner <==> isLoading
      ensures v == Spinner || v == Blank
    {
      if isLoading then Spinner else Blank
    }

    /** `checkOnboarding`: exactly one `router.replace`, then isLoading false. */
    method CheckOnboarding(readFails: bool)
      modifies this, router
      ensures router.replaced == old(router.replaced) + [LaunchTarget(Lookup(store.entries, ViewedOnboardingKey), readFails)]
      ensures !isLoading && Rendered() == Blank
    {
      if readFails {
        router.Replace("/login");
      } else {
        var value := store.GetItem(ViewedOnboardingKey);
        if value.None? {
          router.Replace("/onboarding");
        } else {
          router.Replace("/login");
        }
      }
      isLoading := false;
    }
  }
}
