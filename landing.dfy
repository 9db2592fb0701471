/**
 * The public entry page (a single page with a landing view, a login view and
 * an info view): its own history engine (`navigationStack`, `currentViewState`
 * and the double-back-press exit), the navigation functions that replace the
 * first definitions of `navigateToLogin`, `navigateToHome` and `navigateToInfo`,
 * its two panels, the choice of the visible auth form, the redirect after login
 * and the checks made before a password reset is sent.
 */
module Landing {
  import opened Wrappers
  import opened Panels
  import SessionHistory

  // ---------------------------------------------------------------------------
  // Views and state

  datatype View = LandingView | LoginView | InfoView

  /** The history state names the page uses. */
  const ViewNames: set<string> := {"landing", "login", "info"}

  /** The window for a second back press to count as "press back again". */
  const ExitWindowMs := 2000

  /** The keys of `pageData`, the info pages. */
  const PageKeys: set<string> := {"about", "contact", "help", "privacy", "terms", "guidelines"}

  /**
   * - active: the views carrying `active-view`
   * - stack, viewState: `navigationStack` and `currentViewState`
   * - presses, lastPress: `backPressCount` and `lastBackPressTime` (ms)
   * - authMode, userType: `currentAuthMode` and `currentUserType`
   * - panels: the sidebar, the notification panel and their overlays (this page
   *   has no hamburger highlight; that flag is never set)
   * - history, backs: the history payloads the page wrote, and its `history.back()` calls
   */
  datatype Page = Page(active: set<View>, stack: seq<string>, viewState: string, presses: int, lastPress: int,
                       authMode: string, userType: string, panels: Panels,
                       history: seq<string>, backs: nat)

  /** The page after `DOMContentLoaded` has run `initHistoryNavigation`: the
      initial entry's payload is replaced by "landing". */
  function Initial(): (p: Page)
    ensures p.viewState == "landing" && p.stack == ["landing"] && p.history == ["landing"]
    ensures p.active == {LandingView} && p.presses == 0 && p.lastPress == 0
  {
    Page({LandingView}, ["landing"], "landing", 0, 0, "signin", "resident", AllClosed, ["landing"], 0)
  }

  // ---------------------------------------------------------------------------
  // Panels

  /** `closeAllPanels` of this page. */
  function ClosePanels(p: Panels): (r: Panels)
    ensures !r.sidebar && !r.sidebarOverlay && !r.drawer && !r.drawerOverlay && r.hamburger == p.hamburger
  {
    p.(sidebar := false, sidebarOverlay := false, drawer := false, drawerOverlay := false)
  }

  /** `toggleSidebar`: from an open sidebar all panels close, otherwise only the
      sidebar and its overlay end open. */
  function SidebarToggled(p: Panels): (r: Panels)
    ensures p.sidebar ==> !r.sidebar && !r.sidebarOverlay && !r.drawer && !r.drawerOverlay
    ensures !p.sidebar ==> r.sidebar && r.sidebarOverlay && !r.drawer && !r.drawerOverlay
    ensures r.hamburger == p.hamburger
  {
    var q := ClosePanels(p);
    if !p.sidebar then q.(sidebar := true, sidebarOverlay := true) else q
  }

  /** `toggleNotifications`: from an open panel all panels close, otherwise only the
      notification panel and its overlay end open. */
  function NotifyToggled(p: Panels): (r: Panels)
    ensures p.drawer ==> !r.sidebar && !r.sidebarOverlay && !r.drawer && !r.drawerOverlay
    ensures !p.drawer ==> !r.sidebar && !r.sidebarOverlay && r.drawer && r.drawerOverlay
    ensures r.hamburger == p.hamburger
  {
    var q := ClosePanels(p);
    if !p.drawer then q.(drawer := true, drawerOverlay := true) else q
  }

  /** The overlays follow their panels, and at most one panel is open. */
  predicate PanelsInOrder(p: Panels) {
    Exclusive(p) && p.sidebarOverlay == p.sidebar && p.drawerOverlay == p.drawer
  }

  lemma TogglesKeepOrder(p: Panels)
    ensures PanelsInOrder(SidebarToggled(p)) && PanelsInOrder(NotifyToggled(p)) && PanelsInOrder(ClosePanels(p))
  {
  }

  // ---------------------------------------------------------------------------
  // History engine

  /** `pushHistoryState(v)`: nothing when `v` is already the current state;
      otherwise `v` is appended to the stack, becomes current and is pushed. */
  function AfterPush(p: Page, v: string): (r: Page)
    ensures p.viewState == v ==> r == p
    ensures p.viewState != v ==> r == p.(stack := p.stack + [v], viewState := v, history := p.history + [v])
  {
    if p.viewState != v then p.(stack := p.stack + [v], viewState := v, history := p.history + [v]) else p
  }

  /** Pushing the same state twice pushes it once. */
  lemma PushIdempotent(p: Page, v: string)
    ensures AfterPush(AfterPush(p, v), v) == AfterPush(p, v)
    ensures AfterPush(p, v).viewState == v
  {
  }

  /** `navigateToHomeInternal`: panels closed, only the landing view shown, and the
      current state set to "landing" without any push. */
  function AfterHomeInternal(p: Page): (r: Page)
    ensures r.active == {LandingView} && r.viewState == "landing"
    ensures r == p.(active := {LandingView}, viewState := "landing", panels := ClosePanels(p.panels))
  {
    p.(panels := ClosePanels(p.panels), active := {LandingView}, viewState := "landing")
  }

  /** `showLoginViewInternal`: panels closed and only the login view shown; the
      current state is left as it was. */
  function AfterLoginInternal(p: Page): (r: Page)
    ensures r.active == {LoginView} && r.viewState == p.viewState
    ensures r == p.(active := {LoginView}, panels := ClosePanels(p.panels))
  {
    p.(panels := ClosePanels(p.panels), active := {LoginView})
  }

  /** `showInfoViewInternal`: like the login one, for the info view. */
  function AfterInfoInternal(p: Page): (r: Page)
    ensures r.active == {InfoView} && r.viewState == p.viewState
    ensures r == p.(active := {InfoView}, panels := ClosePanels(p.panels))
  {
    p.(panels := ClosePanels(p.panels), active := {InfoView})
  }

  /** `handleExitConfirmation` at time `now`: a press within the window after the
      previous one adds to the count, any other starts it at 1; from two presses
      on the page asks the browser to go back, else it re-pushes "landing". */
  function AfterExitPress(p: Page, now: int): (r: Page)
    ensures r.lastPress == now
    ensures r.presses == (if now - p.lastPress < ExitWindowMs then p.presses + 1 else 1)
    ensures r.presses >= 2 ==> r.backs == p.backs + 1 && r.history == p.history && r.viewState == p.viewState
    ensures r.presses < 2 ==>
              r.backs == p.backs && r == AfterPush(p.(presses := r.presses, lastPress := now), "landing")
    ensures r.active == p.active && r.panels == p.panels
  {
    var count := if now - p.lastPress < ExitWindowMs then p.presses + 1 else 1;
    var q := p.(presses := count, lastPress := now);
    if count >= 2 then q.(backs := q.backs + 1) else AfterPush(q, "landing")
  }

  /** `handleHistoryNavigation(v)`; a name other than the three does nothing. */
  function AfterHistoryNavigation(p: Page, v: string, now: int): (r: Page)
    ensures v == "landing" && p.viewState == "landing" ==> r == AfterExitPress(p, now)
    ensures (v == "landing" && p.viewState != "landing") || (v == "login" && p.viewState == "login") ==>
      r.active == {LandingView} && r.viewState == "landing" && r.history == p.history && r.stack == p.stack
    ensures v == "login" && p.viewState != "login" ==>
      r.active == {LoginView} && r.viewState == p.viewState && r.history == p.history
    ensures v == "info" ==> r.active == {InfoView} && r.viewState == p.viewState && r.history == p.history
    ensures v !in {"landing", "login", "info"} ==> r == p
  {
    if v == "landing" then
      if p.viewState == "landing" then AfterExitPress(p, now) else AfterHomeInternal(p)
    else if v == "login" then
      if p.viewState == "login" then AfterPush(AfterHomeInternal(p), "landing") else AfterLoginInternal(p)
    else if v == "info" then AfterInfoInternal(p)
    else p
  }

  /** The `popstate` listener: a payload with a view name is navigated to, anything
      else counts as a back press out of the page. */
  function AfterPop(p: Page, state: Option<string>, now: int): (r: Page)
    ensures state.None? || state.value == "" ==> r == AfterExitPress(p, now)
    ensures state.Some? && state.value != "" ==> r == AfterHistoryNavigation(p, state.value, now)
    ensures p.history <= r.history && p.stack <= r.stack
  {
    if state.Some? && state.value != "" then AfterHistoryNavigation(p, state.value, now) else AfterExitPress(p, now)
  }

  /** Two back presses less than two seconds apart request leaving the page. */
  lemma DoubleBackExits(p: Page, t1: int, t2: int)
    requires p.presses >= 0 && 0 <= t2 - t1 < ExitWindowMs
    ensures AfterExitPress(AfterExitPress(p, t1), t2).presses >= 2
    ensures AfterExitPress(AfterExitPress(p, t1), t2).backs >= p.backs + 1
  {
  }

  /** A first back press on the landing view (after a pause) only counts: the
      re-push of "landing" adds no entry, since "landing" is already current. */
  lemma FirstPressOnLandingPushesNothing(p: Page, now: int)
    requires p.viewState == "landing" && now - p.lastPress >= ExitWindowMs
    ensures var r := AfterExitPress(p, now);
      r.presses == 1 && r.history == p.history && r.stack == p.stack && r.backs == p.backs
  {
  }

  /** Back to "login" while "login" is current goes home and pushes nothing: the
      current state is already "landing" when "landing" is pushed. */
  lemma LoginAgainGoesHomeSilently(p: Page, now: int)
    requires p.viewState == "login"
    ensures var r := AfterPop(p, Some("login"), now);
      r.active == {LandingView} && r.viewState == "landing" && r.history == p.history && r.stack == p.stack
  {
  }

  // ---------------------------------------------------------------------------
  // Navigation entry points (the replacing definitions)

  /** `setAuthMode` and `setUserType` store the value; the form shown follows from it. */
  function AfterNavigateToLogin(p: Page, mode: string, userType: Option<string>): (r: Page)
    ensures r.active == {LoginView} && r.authMode == mode
    ensures r.userType == (if userType.Some? && userType.value != "" && mode != "register" then userType.value else p.userType)
    ensures r.viewState == "login"
    ensures p.viewState != "login" ==> r.history == p.history + ["login"] && r.stack == p.stack + ["login"]
    ensures p.viewState == "login" ==> r.history == p.history && r.stack == p.stack
  {
    var q := p.(panels := ClosePanels(p.panels), active := {LoginView}, authMode := mode);
    var q2 := if userType.Some? && userType.value != "" && mode != "register" then q.(userType := userType.value) else q;
    AfterPush(q2, "login")
  }

  /** `navigateToHome`: `navigateToHomeInternal` and then a push of "landing", which
      never records anything because the internal step has just made "landing" current. */
  function AfterNavigateToHome(p: Page): (r: Page)
    ensures r == AfterHomeInternal(p)
    ensures r.history == p.history && r.stack == p.stack
  {
    AfterPush(AfterHomeInternal(p), "landing")
  }

  /** `navigateToInfo(key)`: all views are hidden; a known key shows the info view
      and pushes "info" (unless it is current); an unknown key leaves no view shown. */
  function AfterNavigateToInfo(p: Page, key: string): (r: Page)
    ensures key in PageKeys ==> r.active == {InfoView} && r.viewState == "info"
    ensures key !in PageKeys ==> r == p.(active := {}, panels := ClosePanels(p.panels))
    ensures key in PageKeys && p.viewState != "info" ==> r.history == p.history + ["info"]
    ensures key in PageKeys && p.viewState == "info" ==> r.history == p.history
  {
    var q := p.(panels := ClosePanels(p.panels), active := {});
    if key in PageKeys then AfterPush(q.(active := {InfoView}), "info") else q
  }

  // ---------------------------------------------------------------------------
  // Invariants over every run

  datatype Event =
    | Pop(state: Option<string>, now: int)
    | GoLogin(mode: string, userType: Option<string>)
    | GoHome
    | GoInfo(key: string)
    | SidebarToggle
    | NotifyToggle

  function Step(p: Page, e: Event): Page {
    match e
    case Pop(state, now) => AfterPop(p, state, now)
    case GoLogin(mode, userType) => AfterNavigateToLogin(p, mode, userType)
    case GoHome => AfterNavigateToHome(p)
    case GoInfo(key) => AfterNavigateToInfo(p, key)
    case SidebarToggle => p.(panels := SidebarToggled(p.panels))
    case NotifyToggle => p.(panels := NotifyToggled(p.panels))
  }

  function Run(p: Page, events: seq<Event>): Page
    decreases |events|
  {
    if events == [] then p else Run(Step(p, events[0]), events[1..])
  }

  /** At most one view shown; the current state and every stacked and pushed entry
      is one of the three view names; the panels are in order; the counter is not
      negative. */
  predicate Invariant(p: Page) {
    |p.active| <= 1 && p.viewState in ViewNames &&
    (forall i :: 0 <= i < |p.stack| ==> p.stack[i] in ViewNames) &&
    (forall i :: 0 <= i < |p.history| ==> p.history[i] in ViewNames) &&
    PanelsInOrder(p.panels) && p.presses >= 0
  }

  /** A push of a view name keeps the invariant and only appends. */
  lemma PushKeepsInvariant(p: Page, v: string)
    requires Invariant(p) && v in ViewNames
    ensures Invariant(AfterPush(p, v))
    ensures p.stack <= AfterPush(p, v).stack && p.history <= AfterPush(p, v).history
  {
  }

  /** An exit press keeps the invariant and only appends. */
  lemma ExitPressKeepsInvariant(p: Page, now: int)
    requires Invariant(p)
    ensures Invariant(AfterExitPress(p, now))
    ensures p.stack <= AfterExitPress(p, now).stack && p.history <= AfterExitPress(p, now).history
  {
    var count := if now - p.lastPress < ExitWindowMs then p.presses + 1 else 1;
    PushKeepsInvariant(p.(presses := count, lastPress := now), "landing");
  }

  /** Showing one view with the panels closed keeps the invariant. */
  lemma ShowKeepsInvariant(p: Page, v: View)
    requires Invariant(p)
    ensures Invariant(p.(active := {v}, panels := ClosePanels(p.panels)))
    ensures Invariant(p.(active := {}, panels := ClosePanels(p.panels)))
  {
    TogglesKeepOrder(p.panels);
    assert |{v}| == 1;
  }

  /** A `popstate` event keeps the invariant and only appends. */
  lemma PopKeepsInvariant(p: Page, state: Option<string>, now: int)
    requires Invariant(p)
    ensures Invariant(AfterPop(p, state, now))
    ensures p.stack <= AfterPop(p, state, now).stack && p.history <= AfterPop(p, state, now).history
  {
    ExitPressKeepsInvariant(p, now);
    ShowKeepsInvariant(p, LandingView);
    ShowKeepsInvariant(p, LoginView);
    ShowKeepsInvariant(p, InfoView);
    PushKeepsInvariant(AfterHomeInternal(p), "landing");
  }

  /** One step keeps the invariant, and the stack and the pushed history only grow. */
  lemma StepKeepsInvariant(p: Page, e: Event)
    requires Invariant(p)
    ensures Invariant(Step(p, e))
    ensures p.stack <= Step(p, e).stack && p.history <= Step(p, e).history
  {
    TogglesKeepOrder(p.panels);
    match e
    case Pop(state, now) =>
      PopKeepsInvariant(p, state, now);
    case GoLogin(mode, userType) =>
      var q := p.(panels := ClosePanels(p.panels), active := {LoginView}, authMode := mode);
      ShowKeepsInvariant(p, LoginView);
      var q2 := if userType.Some? && userType.value != "" && mode != "register" then q.(userType := userType.value) else q;
      PushKeepsInvariant(q2, "login");
    case GoHome =>
      ShowKeepsInvariant(p, LandingView);
    case GoInfo(key) =>
      ShowKeepsInvariant(p, InfoView);
      PushKeepsInvariant(p.(panels := ClosePanels(p.panels), active := {InfoView}), "info");
    case SidebarToggle =>
    case NotifyToggle =>
  }

  /** From the loaded page, every sequence of back presses, clicks and panel toggles
      keeps the invariant, and neither `navigationStack` nor the pushed history ever
      loses an entry. */
  lemma {:induction false} RunKeepsInvariant(p: Page, events: seq<Event>)
    requires Invariant(p)
    ensures Invariant(Run(p, events))
    ensures p.stack <= Run(p, events).stack && p.history <= Run(p, events).history
    decreases |events|
  {
    if events != [] {
      StepKeepsInvariant(p, events[0]);
      RunKeepsInvariant(Step(p, events[0]), events[1..]);
    }
  }

  lemma InitialInvariant()
    ensures Invariant(Initial())
  {
  }

  // ---------------------------------------------------------------------------
  // Auth forms, redirect, reset-password checks

  datatype Form = ResidentSignIn | ResidentSignUp | BusinessSignIn | BusinessSignUp | SocietyRegister

  /** `updateActiveForm`: the one form left active. */
  function ActiveForm(mode: string, userType: string): (f: Form)
    ensures f == SocietyRegister <==> mode == "register"
    ensures f in {ResidentSignIn, BusinessSignIn} <==> mode == "signin"
    ensures f in {ResidentSignIn, ResidentSignUp} <==> mode != "register" && userType == "resident"
  {
    if mode == "register" then SocietyRegister
    else if mode == "signin" then (if userType == "resident" then ResidentSignIn else BusinessSignIn)
    else (if userType == "resident" then ResidentSignUp else BusinessSignUp)
  }

  /** Any user type other than "resident" counts as business for the form choice. */
  lemma ActiveFormIsBusinessOtherwise(mode: string, userType: string)
    requires mode != "register" && userType != "resident"
    ensures ActiveForm(mode, userType) in {BusinessSignIn, BusinessSignUp}
  {
  }

  /** `redirectToDashboard(user)`: the user type "business" wins, then the role. */
  function RedirectToDashboard(userType: string, role: string): (path: string)
    ensures path == "/dashboard/business" <==> userType == "business"
    ensures path == "/dashboard/admin" <==> userType != "business" && role == "admin"
    ensures path == "/dashboard/guard" <==> userType != "business" && role == "guard"
    ensures path == "/dashboard/resident" <==> userType != "business" && role != "admin" && role != "guard"
  {
    if userType == "business" then "/dashboard/business"
    else if role == "admin" then "/dashboard/admin"
    else if role == "guard" then "/dashboard/guard"
    else "/dashboard/resident"
  }

  /** What `resetPassword` does with the three fields: the first failing check's
      error toast, or the request. */
  datatype ResetCheck = MissingField | Mismatch | TooShort | Send

  function CheckReset(token: string, newPassword: string, confirm: string): (r: ResetCheck)
    ensures r == MissingField <==> token == [] || newPassword == [] || confirm == []
    ensures r == Mismatch <==> token != [] && newPassword != [] && confirm != [] && newPassword != confirm
    ensures r == TooShort <==> token != [] && newPassword != [] && newPassword == confirm && |newPassword| < 6
    ensures r == Send <==> token != [] && newPassword == confirm && |newPassword| >= 6
  {
    if token == [] || newPassword == [] || confirm == [] then MissingField
    else if newPassword != confirm then Mismatch
    else if |newPassword| < 6 then TooShort
    else Send
  }

  // ---------------------------------------------------------------------------

  /** The entry page's globals and the session history it writes. */
  class LandingPage {
    var active: set<View>
    var navigationStack: seq<string>
    var currentViewState: string
    var backPressCount: int
    var lastBackPressTime: int
    var currentAuthMode: string
    var currentUserType: string
    var sidebar: bool
    var sidebarOverlay: bool
    var notificationPanel: bool
    var notificationOverlay: bool
    const history: SessionHistory.BrowserHistory

    function State(): Page
      reads this, history
    {
      Page(active, navigationStack, currentViewState, backPressCount, lastBackPressTime,
           currentAuthMode, currentUserType,
           Panels(sidebar, false, sidebarOverlay, notificationPanel, notificationOverlay),
           history.entries, history.backRequests)
    }

    /** Script load, then `initHistoryNavigation` on `DOMContentLoaded`. */
    constructor ()
      ensures fresh(history)
      ensures State() == Initial()
    {
      active := {LandingView};
      navigationStack := ["landing"];
      currentViewState := "landing";
      backPressCount, lastBackPressTime := 0, 0;
      currentAuthMode, currentUserType := "signin", "resident";
      sidebar, sidebarOverlay, notificationPanel, notificationOverlay := false, false, false, false;
      history := new SessionHistory.BrowserHistory();
      new;
      history.Replace("landing");
    }

    method CloseAllPanels()
      modifies this
      ensures State() == old(State()).(panels := ClosePanels(old(State()).panels))
    {
      sidebar, sidebarOverlay, notificationPanel, notificationOverlay := false, false, false, false;
    }

    method PushHistoryState(viewState: string)
      modifies this, history
      ensures State() == AfterPush(old(State()), viewState)
    {
      if currentViewState != viewState {
        navigationStack := navigationStack + [viewState];
        currentViewState := viewState;
        history.Push(viewState);
      }
    }

    method NavigateToHomeInternal()
      modifies this
      ensures State() == AfterHomeInternal(old(State()))
    {
      CloseAllPanels();
      active := {LandingView};
      currentViewState := "landing";
    }

    method ShowLoginViewInternal()
      modifies this
      ensures State() == AfterLoginInternal(old(State()))
    {
      CloseAllPanels();
      active := {LoginView};
    }

    method ShowInfoViewInternal()
      modifies this
      ensures State() == AfterInfoInternal(old(State()))
    {
      CloseAllPanels();
      active := {InfoView};
    }

    /** `now` is `Date.now()`, an input here. */
    method HandleExitConfirmation(now: int)
      modifies this, history
      ensures State() == AfterExitPress(old(State()), now)
    {
      if now - lastBackPressTime < ExitWindowMs {
        backPressCount := backPressCount + 1;
      } else {
        backPressCount := 1;
      }
      lastBackPressTime := now;
      if backPressCount >= 2 {
        history.Back();
      } else {
        PushHistoryState("landing");
      }
    }

    method HandleHistoryNavigation(viewState: string, now: int)
      modifies this, history
      ensures State() == AfterHistoryNavigation(old(State()), viewState, now)
    {
      if viewState == "landing" {
        if currentViewState == "landing" {
          HandleExitConfirmation(now);
        } else {
          NavigateToHomeInternal();
        }
      } else if viewState == "login" {
        if currentViewState == "login" {
          NavigateToHomeInternal();
          PushHistoryState("landing");
        } else {
          ShowLoginViewInternal();
        }
      } else if viewState == "info" {
        ShowInfoViewInternal();
      }
    }

    method OnPopState(state: Option<string>, now: int)
      modifies this, history
      ensures State() == AfterPop(old(State()), state, now)
    {
      if state.Some? && state.value != "" {
        HandleHistoryNavigation(state.value, now);
      } else {
        HandleExitConfirmation(now);
      }
    }

    method NavigateToLogin(mode: string, userType: Option<string>)
      modifies this, history
      ensures State() == AfterNavigateToLogin(old(State()), mode, userType)
    {
      CloseAllPanels();
      active := {LoginView};
      currentAuthMode := mode;
      if userType.Some? && userType.value != "" && mode != "register" {
        currentUserType := userType.value;
      }
      PushHistoryState("login");
    }

    method NavigateToHome()
      modifies this, history
      ensures State() == AfterNavigateToHome(old(State()))
    {
      NavigateToHomeInternal();
      PushHistoryState("landing");
    }

    method NavigateToInfo(pageKey: string)
      modifies this, history
      ensures State() == AfterNavigateToInfo(old(State()), pageKey)
    {
      CloseAllPanels();
      active := {};
      if pageKey in PageKeys {
        active := {InfoView};
        PushHistoryState("info");
      }
    }

    method ToggleSidebar()
      modifies this
      ensures State() == old(State()).(panels := SidebarToggled(old(State()).panels))
    {
      var isOpen := sidebar;
      CloseAllPanels();
      if !isOpen {
        sidebar, sidebarOverlay := true, true;
      }
    }

    method ToggleNotifications()
      modifies this
      ensures State() == old(State()).(panels := NotifyToggled(old(State()).panels))
    {
      var isOpen := notificationPanel;
      CloseAllPanels();
      if !isOpen {
        notificationPanel, notificationOverlay := true, true;
      }
    }

    /** The auth form `updateActiveForm` leaves active for the current mode and type. */
    function ShownForm(): Form
      reads this
    {
      ActiveForm(currentAuthMode, currentUserType)
    }

    /** `setAuthMode(mode)`: records the mode; the form shown follows it. */
    method SetAuthMode(mode: string)
      modifies this
      ensures State() == old(State()).(authMode := mode)
      ensures ShownForm() == ActiveForm(mode, old(currentUserType))
    {
      currentAuthMode := mode;
    }

    /** `setUserType(type)`: records the type; the form shown follows it. */
    method SetUserType(userType: string)
      modifies this
      ensures State() == old(State()).(userType := userType)
      ensures ShownForm() == ActiveForm(old(currentAuthMode), userType)
    {
      currentUserType := userType;
    }
  }
}
