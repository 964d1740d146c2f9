/** The root layout: it reads the onboarding flag once and then registers
    either the onboarding screen alone or the app's full set of screens. */
module RootLayout {
  import opened Values
  import opened Platform

  const RoleGroups := ["(student)", "(lecturer)", "(invigilator)", "(admin)"]

  /** `showOnboarding` is set only when the flag was read and is absent. */
  function ShowsOnboarding(flag: Option<Entry>, readFails: bool): (show: bool)
    ensures show <==> !readFails && flag.None?
  {
    !readFails && flag.None?
  }

  /** The `Stack.Screen`s registered for a value of `showOnboarding`. */
  function RegisteredScreens(showOnboarding: bool): (screens: seq<string>)
    ensures showOnboarding ==> screens == ["onboarding"]
    ensures !showOnboarding ==>
      |screens| == 9 && "index" in screens && "onboarding" in screens && "login" in screens
      && "contact" in screens && "(public)" in screens
      && forall g :: g in RoleGroups ==> g in screens
    ensures forall i, j :: 0 <= i < j < |screens| ==> screens[i] != screens[j]
  {
    if showOnboarding then ["onboarding"]
    else ["index", "onboarding", "login", "contact", "(public)",
          "(student)", "(lecturer)", "(invigilator)", "(admin)"]
  }

  /** The component `RootLayout`. */
  class Layout {
    var isLoading: bool
    var showOnboarding: bool
    const store: Storage

    constructor (store: Storage)
      ensures this.store == store
      ensures isLoading && !showOnboarding && Rendered() == Spinner
    {
      this.store := store;
      isLoading, showOnboarding := true, false;
    }

    /** The spinner until the check is done, then the navigation stack. */
    function Rendered(): (v: View)
      reads this
      ensures isLoading ==> v == Spinner
      ensures !isLoading ==> v.Stack? && v.screens == RegisteredScreens(showOnboarding)
    {
      if isLoading then Spinner else Stack(RegisteredScreens(showOnboarding))
    }

    /** `checkOnboarding`: a read error is logged and leaves the flag false. */
    method CheckOnboarding(readFails: bool)
      modifies this
      ensures showOnboarding == (old(showOnboarding) || ShowsOnboarding(Lookup(store.entries, ViewedOnboardingKey), readFails))
      ensures !isLoading
    {
      if !readFails {
        var value := store.GetItem(ViewedOnboardingKey);
        if value.None? {
          showOnboarding := true;
        }
      }
      isLoading := false;
    }
  }
}
