/**
 * The root screen (`MainScreen`): decides what is shown from the application
 * state and the current secondary screen, and relays a disguise's unlock.
 */
module MainScreen {
  import opened Wrappers
  import opened Storage
  import opened AppContext

  datatype Screen = Main | SettingsScreen | StationsScreen | DisguiseScreen | ResourcesScreen | ReportScreen

  /** What is on screen; a disguise receives the PIN it must recognise. */
  datatype View =
    | LoadingView
    | OnboardingView
    | CalculatorView(pin: string)
    | NotesView(pin: string)
    | ClockView(pin: string)
    | DashboardView
    | SettingsView
    | StationsView
    | DisguiseSwitcherView
    | ResourcesView
    | ReportView
  {
    /** The views that show the real application rather than its cover. */
    predicate Protected()
    {
      DashboardView? || SettingsView? || StationsView? || DisguiseSwitcherView? || ResourcesView? || ReportView?
    }
  }

  /** `pin || '0000'`: the stored PIN, or "0000" when it is missing or empty. */
  function DisguisePin(pin: Option<string>): (p: string)
    ensures p != ""
    ensures pin.Some? && pin.value != "" ==> p == pin.value
    ensures !(pin.Some? && pin.value != "") ==> p == "0000"
  {
    if pin.Some? && pin.value != "" then pin.value else "0000"
  }

  /** The cover of each disguise. */
  function CoverView(d: DisguiseType, pin: string): (v: View)
    ensures (v.CalculatorView? || v.NotesView? || v.ClockView?) && v.pin == pin
    ensures !v.Protected()
    ensures v.NotesView? <==> d == Notes
    ensures v.ClockView? <==> d == Clock
    ensures v.CalculatorView? <==> d == Calculator
  {
    match d
    case Notes => NotesView(pin)
    case Clock => ClockView(pin)
    case Calculator => CalculatorView(pin)
  }

  /**
   * The routing decision. While loading only the loading view shows; without
   * onboarding, onboarding shows whatever the unlock flag; onboarded but locked,
   * the active disguise's cover shows; only onboarded and unlocked is the
   * dashboard or a secondary screen reachable.
   */
  function Render(isLoading: bool, isOnboarded: bool, isUnlocked: bool, pin: Option<string>,
                  disguise: DisguiseType, screen: Screen): (v: View)
    ensures isLoading ==> v == LoadingView
    ensures !isLoading && !isOnboarded ==> v == OnboardingView
    ensures !isLoading && isOnboarded && !isUnlocked ==> v == CoverView(disguise, DisguisePin(pin))
    ensures v.Protected() <==> !isLoading && isOnboarded && isUnlocked
    ensures v == DashboardView <==> !isLoading && isOnboarded && isUnlocked && screen == Main
  {
    if isLoading then LoadingView
    else if !isOnboarded then OnboardingView
    else if !isUnlocked then CoverView(disguise, DisguisePin(pin))
    else match screen
      case SettingsScreen => SettingsView
      case StationsScreen => StationsView
      case DisguiseScreen => DisguiseSwitcherView
      case ResourcesScreen => ResourcesView
      case ReportScreen => ReportView
      case Main => DashboardView
  }

  /**
   * The navigation callbacks the dashboard declares and calls. The root also
   * passes callbacks for the resources and report screens, but the dashboard
   * neither declares nor calls them, so they are not events.
   */
  datatype DashboardEvent = OpenSettings | OpenSafeStations | OpenDisguiseSwitch

  /** Events that change the current screen. */
  datatype NavEvent = FromDashboard(e: DashboardEvent) | BackToMain | Unlock

  /** The screen after one event; the dashboard's events open settings, stations or the switcher. */
  function NextScreen(s: Screen, e: NavEvent): (r: Screen)
    ensures r != ResourcesScreen && r != ReportScreen
    ensures e.BackToMain? || e.Unlock? ==> r == Main
  {
    match e
    case FromDashboard(OpenSettings) => SettingsScreen
    case FromDashboard(OpenSafeStations) => StationsScreen
    case FromDashboard(OpenDisguiseSwitch) => DisguiseScreen
    case BackToMain => Main
    case Unlock => Main
  }

  function AfterAll(s: Screen, es: seq<NavEvent>): Screen
    decreases |es|
  {
    if es == [] then s else AfterAll(NextScreen(s, es[0]), es[1..])
  }

  /**
   * Starting from the dashboard, no sequence of events ever reaches the resources
   * or the report screen.
   */
  lemma {:induction false} ResourcesAndReportUnreachable(s: Screen, es: seq<NavEvent>)
    requires s != ResourcesScreen && s != ReportScreen
    ensures AfterAll(s, es) != ResourcesScreen && AfterAll(s, es) != ReportScreen
    decreases |es|
  {
    if es != [] {
      ResourcesAndReportUnreachable(NextScreen(s, es[0]), es[1..]);
    }
  }

  class Root {
    var screen: Screen

    constructor ()
      ensures screen == Main
    {
      screen := Main;
    }

    /** What is shown for the given application state. */
    function Current(app: AppState): View
      reads this, app
    {
      Render(app.isLoading, app.isOnboarded, app.isUnlocked, app.pin, app.activeDisguise, screen)
    }

    /** `handleUnlock`: unlocks and returns to the dashboard. */
    method HandleUnlock(app: AppState)
      modifies this, app
      ensures app.Fields() == old(app.Fields()).(isUnlocked := true)
      ensures screen == NextScreen(old(screen), Unlock) == Main
    {
      app.SetIsUnlocked(true);
      screen := Main;
    }

    /** A dashboard navigation callback. */
    method Navigate(e: DashboardEvent)
      modifies this
      ensures screen == NextScreen(old(screen), FromDashboard(e))
    {
      match e
      case OpenSettings => screen := SettingsScreen;
      case OpenSafeStations => screen := StationsScreen;
      case OpenDisguiseSwitch => screen := DisguiseScreen;
    }

    /** The back action every secondary screen receives. */
    method Back()
      modifies this
      ensures screen == NextScreen(old(screen), BackToMain) == Main
    {
      screen := Main;
    }
  }

  /** After an unlock from an onboarded, loaded state the dashboard shows. */
  lemma UnlockShowsDashboard(pin: Option<string>, disguise: DisguiseType, s: Screen)
    ensures Render(false, true, true, pin, disguise, NextScreen(s, Unlock)) == DashboardView
  {
  }
}
