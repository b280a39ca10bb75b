/**
 * Screen and tab routing. The app keeps two strings, the current screen and
 * the current tab, and `renderCurrentScreen` picks the view by comparing them
 * with fixed names, falling back to the home dashboard for a name it does not
 * know. Buttons exist only on the views that render them, so an intent whose
 * button is not on screen cannot be issued; `Step` leaves the state as it is
 * for such an intent.
 */
module Navigation {

  const STUDENT_DETAILS: string := "studentDetails"
  const MAIN: string := "main"
  const MOOD_TRACKING: string := "moodTracking"
  const JOURNALING: string := "journaling"
  const PHQ9: string := "phq9"
  const VOICE_CALL: string := "voiceCall"

  const HOME: string := "home"
  const MENTAL_HEALTH: string := "mentalHealth"
  const COUNSELOR: string := "counselor"

  /** The screens the four feature cards of the home dashboard open. */
  const FEATURE_SCREENS: seq<string> := [MOOD_TRACKING, JOURNALING, PHQ9, VOICE_CALL]

  /** The keys of the three bottom tab buttons. */
  const TAB_KEYS: seq<string> := [HOME, MENTAL_HEALTH, COUNSELOR]

  /** Every screen name the app ever assigns. */
  const SCREENS: seq<string> := [STUDENT_DETAILS, MAIN] + FEATURE_SCREENS

  datatype View =
    | StudentDetailsScreen
    | HomeDashboard
    | MentalHealthStatusScreen
    | CounselorScreen
    | MoodTrackingScreen
    | JournalingScreen
    | Phq9Screen
    | VoiceCallScreen

  datatype Nav = Nav(screen: string, tab: string)

  /** `useState('studentDetails')` and `useState('home')`. */
  const INITIAL: Nav := Nav(STUDENT_DETAILS, HOME)

  /** `renderCurrentScreen`: the view shown for a screen and tab. */
  function Render(n: Nav): (r: View)
    ensures r == StudentDetailsScreen <==> n.screen == STUDENT_DETAILS
    ensures (r == MentalHealthStatusScreen || r == CounselorScreen) ==> n.screen == MAIN
    ensures HasBackButton(r) <==> n.screen in FEATURE_SCREENS
  {
    if n.screen == STUDENT_DETAILS then StudentDetailsScreen
    else if n.screen == MAIN then
      if n.tab == HOME then HomeDashboard
      else if n.tab == MENTAL_HEALTH then MentalHealthStatusScreen
      else if n.tab == COUNSELOR then CounselorScreen
      else HomeDashboard
    else if n.screen == MOOD_TRACKING then MoodTrackingScreen
    else if n.screen == JOURNALING then JournalingScreen
    else if n.screen == PHQ9 then Phq9Screen
    else if n.screen == VOICE_CALL then VoiceCallScreen
    else HomeDashboard
  }

  /** The bottom tab bar is rendered only on the main screen. */
  predicate TabBarShown(n: Nav) {
    n.screen == MAIN
  }

  /** The four detail views, each with a "Back to Home" button. */
  predicate HasBackButton(v: View) {
    v == MoodTrackingScreen || v == JournalingScreen || v == Phq9Screen || v == VoiceCallScreen
  }

  /** The onboarding form. */
  datatype ProfileForm = ProfileForm(name: string, rollNo: string, className: string, department: string)

  /** The gate of `handleSubmit`: each field truthy, i.e. a non-empty string (no trimming). */
  predicate IsComplete(form: ProfileForm) {
    form.name != [] && form.rollNo != [] && form.className != [] && form.department != []
  }

  /** What the user can press that moves between screens or tabs. */
  datatype Intent =
    | Submit(form: ProfileForm)
    | OpenFeature(target: string)
    | Back
    | SelectTab(key: string)

  /** Whether the button behind an intent is on screen. */
  predicate Offered(n: Nav, e: Intent) {
    match e
    case Submit(_) => Render(n) == StudentDetailsScreen
    case OpenFeature(target) => Render(n) == HomeDashboard && target in FEATURE_SCREENS
    case Back => HasBackButton(Render(n))
    case SelectTab(key) => TabBarShown(n) && key in TAB_KEYS
  }

  /**
   * The routing effect of an intent. Only an intent whose button is shown
   * changes anything, and the app only ever assigns names it knows.
   */
  function Step(n: Nav, e: Intent): (r: Nav)
    ensures r != n ==> Offered(n, e)
    ensures WellFormed(n) ==> WellFormed(r)
    ensures n.screen == STUDENT_DETAILS && e.Submit? ==> (r == Nav(MAIN, n.tab) <==> IsComplete(e.form))
  {
    if !Offered(n, e) then n
    else
      match e
      case Submit(form) => if IsComplete(form) then n.(screen := MAIN) else n
      case OpenFeature(target) => n.(screen := target)
      case Back => n.(screen := MAIN)
      case SelectTab(key) => n.(tab := key)
  }

  function Run(n: Nav, es: seq<Intent>): Nav
    decreases |es|
  {
    if es == [] then n else Run(Step(n, es[0]), es[1..])
  }

  /** A state whose names are all ones the app assigns. */
  predicate WellFormed(n: Nav) {
    n.screen in SCREENS && n.tab in TAB_KEYS
  }

  /** The feature screens are known screens, none of them the onboarding screen. */
  lemma FeatureScreenIsDetail(target: string)
    requires target in FEATURE_SCREENS
    ensures target in SCREENS && target != STUDENT_DETAILS && target != MAIN
  {
  }

  /** In a well-formed state no fallback branch of the dispatch is taken. */
  lemma WellFormedRendersByName(n: Nav)
    requires WellFormed(n)
    ensures Render(n) == HomeDashboard <==> n == Nav(MAIN, HOME)
  {
  }

  /** On the main screen an unknown tab name renders the home dashboard. */
  lemma UnknownTabRendersHome(n: Nav)
    requires n.screen == MAIN && n.tab !in TAB_KEYS
    ensures Render(n) == HomeDashboard
  {
  }

  /** Every state reachable from the initial one is well formed. */
  lemma {:induction false} RunPreservesWellFormed(n: Nav, es: seq<Intent>)
    requires WellFormed(n)
    ensures WellFormed(Run(n, es))
    decreases |es|
  {
    if es != [] {
      RunPreservesWellFormed(Step(n, es[0]), es[1..]);
    }
  }

  /** The only way off the onboarding screen is a complete form, and it leads to the main screen. */
  lemma LeaveOnboardingOnlyBySubmit(n: Nav, e: Intent)
    requires n.screen == STUDENT_DETAILS && Step(n, e).screen != STUDENT_DETAILS
    ensures e.Submit? && IsComplete(e.form)
    ensures Step(n, e) == Nav(MAIN, n.tab)
  {
  }

  /** The tab changes only while the main screen is shown, and only to a tab button's key. */
  lemma TabChangesOnlyOnMain(n: Nav, e: Intent)
    requires Step(n, e).tab != n.tab
    ensures n.screen == MAIN && e.SelectTab? && Step(n, e).tab in TAB_KEYS
  {
  }

  /** A detail screen's back button returns to the main screen with the tab unchanged. */
  lemma BackReturnsToMain(n: Nav)
    requires HasBackButton(Render(n))
    ensures Step(n, Back) == Nav(MAIN, n.tab)
  {
  }

  /** Detail screens are reached only from the home dashboard. */
  lemma DetailScreensOnlyFromHome(n: Nav, e: Intent)
    requires Step(n, e).screen in FEATURE_SCREENS && Step(n, e) != n
    ensures Render(n) == HomeDashboard && e == OpenFeature(Step(n, e).screen)
  {
  }

  /**
   * Until a complete profile form is submitted, nothing moves: whatever else
   * is pressed, the app stays on the onboarding screen with the initial tab.
   */
  lemma {:induction false} OnboardingGate(es: seq<Intent>)
    requires forall k :: 0 <= k < |es| ==> !(es[k].Submit? && IsComplete(es[k].form))
    ensures Run(INITIAL, es) == INITIAL
    decreases |es|
  {
    if es != [] {
      assert Step(INITIAL, es[0]) == INITIAL;
      OnboardingGate(es[1..]);
    }
  }
}
