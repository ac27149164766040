/**
 * The main stack's start-up route: chosen once the onboarding flags and the
 * node flag are known, with a loading view shown until then.
 */
module Navigation {
  import opened Wrappers
  import opened Types
  import Screens

  /** The store flags the main stack subscribes to. */
  datatype StartupFlags = StartupFlags(
    choseRestoreWallet: bool,
    acknowledgedDisclaimer: bool,
    pinType: PinType,
    userStarted: bool,
    seenSlides: bool,
    nodeIsUp: bool)

  predicate IsStartupRoute(r: Screens.Screen)
  {
    r == Screens.WelcomeScreen || r == Screens.RestoreWalletScreen
    || r == Screens.StartLdkScreen || r == Screens.DrawerNavigator
  }

  /** The route the effect hands to `setInitialRoute`. */
  function InitialRoute(f: StartupFlags): (r: Screens.Screen)
    ensures IsStartupRoute(r)
    ensures !f.acknowledgedDisclaimer || f.pinType == Unset ==> r == Screens.WelcomeScreen
    ensures f.acknowledgedDisclaimer && f.pinType != Unset && !f.nodeIsUp ==>
      r == (if f.choseRestoreWallet then Screens.RestoreWalletScreen else Screens.StartLdkScreen)
    ensures f.acknowledgedDisclaimer && f.pinType != Unset && f.nodeIsUp ==> r == Screens.DrawerNavigator
  {
    if !f.acknowledgedDisclaimer || f.pinType == Unset then Screens.WelcomeScreen
    else if !f.nodeIsUp then
      (if f.choseRestoreWallet then Screens.RestoreWalletScreen else Screens.StartLdkScreen)
    else Screens.DrawerNavigator
  }

  /** `userStarted` and `seenSlides` re-run the effect but never change its outcome. */
  lemma RouteIgnoresOnboardingProgress(f: StartupFlags, userStarted: bool, seenSlides: bool)
    ensures InitialRoute(f.(userStarted := userStarted, seenSlides := seenSlides)) == InitialRoute(f)
  {
  }

  /** The restore choice matters only on the path where the node is not up. */
  lemma RestoreChoiceOnlyWhenNodeDown(f: StartupFlags)
    requires InitialRoute(f) != InitialRoute(f.(choseRestoreWallet := !f.choseRestoreWallet))
    ensures f.acknowledgedDisclaimer && f.pinType != Unset && !f.nodeIsUp
  {
  }

  /** What the main stack renders. */
  datatype View = AppLoading | Stack(initialRouteName: Screens.Screen)

  /** The route state before the effect has run. */
  const NoRoute: Option<Screens.Screen> := None

  /** The route state after the effect has run with the flags `f`. */
  function AfterEffect(f: StartupFlags): (route: Option<Screens.Screen>)
    ensures route.Some? && IsStartupRoute(route.value)
  {
    Some(InitialRoute(f))
  }

  /** The loading view is what an undefined route renders, and only that. */
  function Render(route: Option<Screens.Screen>): (v: View)
    ensures v == AppLoading <==> route.None?
    ensures route.Some? ==> v == Stack(route.value)
  {
    match route
    case None => AppLoading
    case Some(r) => Stack(r)
  }

  /**
   * The modelled screens the main stack registers: the drawer and the
   * onboarding screens. The disclaimer belongs to the modal stack above it,
   * and no stack in Navigator.tsx registers the restore screen.
   */
  predicate RegisteredInMainStack(s: Screens.Screen)
  {
    s == Screens.DrawerNavigator || s == Screens.SetPinScreen || s == Screens.EnableBiometryScreen
    || s == Screens.StartLdkScreen || s == Screens.WelcomeScreen
  }

  /** The chosen route names a registered screen on every path except the restore branch. */
  lemma InitialRouteRegistered(f: StartupFlags)
    ensures RegisteredInMainStack(InitialRoute(f)) <==>
      !(f.acknowledgedDisclaimer && f.pinType != Unset && !f.nodeIsUp && f.choseRestoreWallet)
  {
  }

  /** Before the effect the stack shows the loading view; after it, never. */
  lemma LoadingOnlyBeforeEffect(f: StartupFlags)
    ensures Render(NoRoute) == AppLoading
    ensures Render(AfterEffect(f)) == Stack(InitialRoute(f))
  {
  }
}
