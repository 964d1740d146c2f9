/** The onboarding screen: finishing it, by Done or by Skip, records that it
    was seen and moves on to login, so later launches skip it. */
module Onboarding {
  import opened Values
  import opened Platform
  import LaunchIndex
  import RootLayout

  /** The swiper's two ways out. */
  datatype SwiperEvent = Done | Skip

  /** The screen `OnboardingScreen`. */
  class OnboardingScreen {
    const store: Storage
    const router: Router

    constructor (store: Storage, router: Router)
      ensures this.store == store && this.router == router
    {
      this.store := store;
      this.router := router;
    }

    /** `completeOnboarding`: the flag is written, and only once the write
        has completed does the screen navigate to login; a write that throws
        rejects the call before the navigation. */
    method CompleteOnboarding(writeFails: bool)
      modifies store, router
      ensures store.entries == if writeFails then old(store.entries)
                               else old(store.entries)[ViewedOnboardingKey := Text("true")]
      ensures router.replaced == old(router.replaced) + (if writeFails then [] else ["/login"])
    {
      if writeFails {
        return;
      }
      store.SetItem(ViewedOnboardingKey, Text("true"));
      router.Replace("/login");
    }

    /** `onDone` and `onSkip` are both `completeOnboarding`: the effect does
        not depend on which was pressed. */
    method Finish(event: SwiperEvent, writeFails: bool)
      modifies store, router
      ensures store.entries == if writeFails then old(store.entries)
                               else old(store.entries)[ViewedOnboardingKey := Text("true")]
      ensures router.replaced == old(router.replaced) + (if writeFails then [] else ["/login"])
    {
      match event
      case Done => CompleteOnboarding(writeFails);
      case Skip => CompleteOnboarding(writeFails);
    }
  }

  /** Once the flag is written, the next launch goes to login and the layout
      does not show onboarding, whatever else the store holds. */
  lemma CompletedOnboardingIsRemembered(entries: map<string, Entry>)
    ensures var flag := Lookup(entries[ViewedOnboardingKey := Text("true")], ViewedOnboardingKey);
      LaunchIndex.LaunchTarget(flag, false) == "/login" && !RootLayout.ShowsOnboarding(flag, false)
  {
  }

  /** A fresh install: the first launch goes to onboarding; after it is
      finished, a relaunch goes to login and the layout registers the full
      set of screens. */
  method FreshInstall(event: SwiperEvent) returns (firstLaunch: string, afterwards: seq<string>, relaunch: string, layoutShowsOnboarding: bool)
    ensures firstLaunch == "/onboarding"
    ensures afterwards == ["/onboarding", "/login"]
    ensures relaunch == "/login"
    ensures !layoutShowsOnboarding
  {
    var store := new Storage(map[]);
    var router := new Router();
    var index := new LaunchIndex.IndexScreen(store, router);
    index.CheckOnboarding(false);
    firstLaunch := router.replaced[0];
    var screen := new OnboardingScreen(store, router);
    screen.Finish(event, false);
    afterwards := router.replaced;
    var relaunchRouter := new Router();
    var relaunched := new LaunchIndex.IndexScreen(store, relaunchRouter);
    relaunched.CheckOnboarding(false);
    relaunch := relaunchRouter.replaced[0];
    var layout := new RootLayout.Layout(store);
    layout.CheckOnboarding(false);
    layoutShowsOnboarding := layout.showOnboarding;
  }
}
