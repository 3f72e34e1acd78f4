/** The top-level page (src/pages/Index.tsx): which screen shows for the
    auth hook's `loading` flag, the signed-in user and the page's own
    `appState`, the buttons that move between screens, and the dashboard's
    current analysis and analysis counter. */
module IndexView {
  import opened Wrappers
  import opened Ledger
  import AnalysisResult

  /** `AppState`. */
  datatype AppState = Landing | Auth | Dashboard

  /** The screen the page renders. */
  datatype Screen = LoadingScreen | LandingPage | AuthScreen | DashboardScreen

  /** The page's inputs and state: the auth hook's `loading` and `user`,
      and the component's `appState`, `currentAnalysis` and
      `analysisCount`. */
  datatype Page = Page(loading: bool, user: Option<UserId>, appState: AppState,
                       current: Option<AnalysisResult.Analysis>, count: nat)

  /** The page as first mounted: landing state, no analysis, count 0. */
  function Initial(loading: bool, user: Option<UserId>): (p: Page)
    ensures p.appState == Landing && p.current.None? && p.count == 0
    ensures p.loading == loading && p.user == user
  {
    Page(loading, user, Landing, None, 0)
  }

  /** The render's early returns, in order. */
  function ScreenOf(p: Page): (s: Screen)
    ensures s == LoadingScreen <==> p.loading
    ensures s == LandingPage <==> !p.loading && p.user.None? && p.appState != Auth
    ensures s == AuthScreen <==> !p.loading && p.user.None? && p.appState == Auth
    ensures s == DashboardScreen <==> !p.loading && p.user.Some?
  {
    if p.loading then LoadingScreen
    else if p.user.None? && p.appState != Auth then LandingPage
    else if p.user.None? && p.appState == Auth then AuthScreen
    else DashboardScreen
  }

  /** What can happen to the page: the three screen buttons, a completed
      analysis from the upload box, and the auth hook changing. */
  datatype Event =
    | GetStarted                                   // landing page button
    | AuthSuccess                                  // auth screen callback
    | Back                                         // auth screen button
    | AnalysisComplete(a: AnalysisResult.Analysis) // upload box callback
    | Session(loading: bool, user: Option<UserId>) // auth hook update

  /** The screen that offers an event's handler (the hook is always live). */
  predicate Offered(s: Screen, e: Event) {
    match e
    case GetStarted => s == LandingPage
    case AuthSuccess => s == AuthScreen
    case Back => s == AuthScreen
    case AnalysisComplete(_) => s == DashboardScreen
    case Session(_, _) => true
  }

  /** One event. An event whose handler is not on screen changes nothing. */
  function Step(p: Page, e: Event): (q: Page)
    ensures !Offered(ScreenOf(p), e) ==> q == p
    ensures Offered(ScreenOf(p), e) && e == GetStarted ==> q == p.(appState := Auth)
    ensures Offered(ScreenOf(p), e) && e == AuthSuccess ==> q == p.(appState := Dashboard)
    ensures Offered(ScreenOf(p), e) && e == Back ==> q == p.(appState := Landing)
    ensures Offered(ScreenOf(p), e) && e.AnalysisComplete? ==> q == p.(current := Some(e.a), count := p.count + 1)
    ensures e.Session? ==> q == p.(loading := e.loading, user := e.user)
  {
    if !Offered(ScreenOf(p), e) then p
    else
      match e
      case GetStarted => p.(appState := Auth)
      case AuthSuccess => p.(appState := Dashboard)
      case Back => p.(appState := Landing)
      case AnalysisComplete(a) => p.(current := Some(a), count := p.count + 1)
      case Session(l, u) => p.(loading := l, user := u)
  }

  /** Get Started shows the auth screen and Back returns to the landing
      page. */
  lemma GetStartedThenBack(p: Page)
    requires ScreenOf(p) == LandingPage
    ensures ScreenOf(Step(p, GetStarted)) == AuthScreen
    ensures ScreenOf(Step(Step(p, GetStarted), Back)) == LandingPage
  {
  }

  /** The auth screen's success callback only sets `appState`: until the
      hook reports the user, the page falls back to the landing page; once
      it does, the dashboard shows. */
  lemma AuthSuccessNeedsSession(p: Page, u: UserId)
    requires ScreenOf(p) == AuthScreen
    ensures ScreenOf(Step(p, AuthSuccess)) == LandingPage
    ensures ScreenOf(Step(Step(p, AuthSuccess), Session(false, Some(u)))) == DashboardScreen
  {
  }

  /** While loading, the loading screen shows whatever else holds; a
      signed-in user who is not loading sees the dashboard whatever
      `appState` says. */
  lemma ScreenPriority(p: Page, st: AppState, u: Option<UserId>)
    ensures p.loading ==> ScreenOf(p.(appState := st, user := u)) == LoadingScreen
    ensures !p.loading && p.user.Some? ==> ScreenOf(p.(appState := st)) == DashboardScreen
  {
  }

  /** Events in order. */
  function Run(p: Page, es: seq<Event>): Page
    decreases |es|
  {
    if |es| == 0 then p else Run(Step(p, es[0]), es[1..])
  }

  /** On the dashboard, each completed analysis replaces the current one and
      adds exactly one to the counter: `n` completions add `n` and leave the
      last analysis showing. */
  lemma {:induction false} CompletionsCount(p: Page, as_: seq<AnalysisResult.Analysis>)
    requires ScreenOf(p) == DashboardScreen
    ensures var q := Run(p, seq(|as_|, i requires 0 <= i < |as_| => AnalysisComplete(as_[i])));
      && q.count == p.count + |as_|
      && (|as_| > 0 ==> q.current == Some(as_[|as_| - 1]))
      && (|as_| == 0 ==> q.current == p.current)
      && ScreenOf(q) == DashboardScreen
    decreases |as_|
  {
    var es := seq(|as_|, i requires 0 <= i < |as_| => AnalysisComplete(as_[i]));
    if |as_| > 0 {
      var p1 := Step(p, es[0]);
      assert es[1..] == seq(|as_[1..]|, i requires 0 <= i < |as_[1..]| => AnalysisComplete(as_[1..][i]));
      CompletionsCount(p1, as_[1..]);
      if |as_| > 1 {
        assert as_[1..][|as_[1..]| - 1] == as_[|as_| - 1];
      }
    }
  }

  /** Signing out keeps the current analysis and the counter; signing back
      in shows the dashboard with both. */
  lemma SignOutKeepsCounter(p: Page, u: UserId)
    requires ScreenOf(p) == DashboardScreen
    ensures var q := Run(p, [Session(false, None), Session(false, Some(u))]);
      && q.count == p.count && q.current == p.current && ScreenOf(q) == DashboardScreen
  {
    var es := [Session(false, None), Session(false, Some(u))];
    var p1 := Step(p, es[0]);
    assert es[1..] == [Session(false, Some(u))];
    assert Run(p1, es[1..]) == Run(Step(p1, Session(false, Some(u))), []);
  }
}
