/**
 * The view router and back-button controller that each dashboard page
 * (admin, resident, guard, business) carries as its own copy: module-level
 * `currentView` and `navigationHistory`, `navigateToView(viewId, addToHistory)`
 * (`navigateToViewBusiness` in the business page), `initBackButtonHandling`
 * with its `popstate` listener, and `showLogoutConfirmation`.
 *
 * The copies differ only in the home view's name, so one router is modelled,
 * configured with the home view and the set of view sections present on the
 * page. The pure functions below say what each step does to the page state;
 * the `Router` class performs the same steps on its fields.
 */
module DashboardNav {
  import opened Wrappers
  import SessionHistory

  /** The id of a `.view-section` element. */
  type ViewId = string

  /** A dashboard: its home view and the ids of the view sections present on the page. */
  datatype Config = Config(home: ViewId, sections: set<ViewId>)

  /**
   * The state one dashboard page's router code reads and writes.
   * - current: `currentView`
   * - trail: `navigationHistory` (only ever appended to)
   * - pushed: the view payloads the page pushed onto the browser history, in order
   * - active: the sections carrying the `active-view` class
   * - listeners: how many `popstate` listeners are installed
   * - prompts, logouts: how many exit confirmations were shown, and how many of
   *   them were answered "yes" (each of those sends the logout request and then
   *   leaves for the entry page)
   */
  datatype Nav = Nav(current: ViewId, trail: seq<ViewId>, pushed: seq<ViewId>, active: set<ViewId>,
                     listeners: nat, prompts: nat, logouts: nat)

  /** The page just loaded: both globals name the home view, which the markup shows. */
  function Loaded(c: Config): (s: Nav)
    ensures s.current == c.home && s.trail == [c.home] && s.pushed == []
    ensures s.active == (if c.home in c.sections then {c.home} else {})
    ensures s.listeners == 0 && s.prompts == 0 && s.logouts == 0
  {
    Nav(c.home, [c.home], [], if c.home in c.sections then {c.home} else {}, 0, 0, 0)
  }

  /** `initBackButtonHandling`: push `{view: home}` and add one `popstate` listener. */
  function InstallHandler(c: Config, s: Nav): (r: Nav)
    ensures r.pushed == s.pushed + [c.home] && r.listeners == s.listeners + 1
    ensures r == s.(pushed := r.pushed, listeners := r.listeners)
  {
    s.(pushed := s.pushed + [c.home], listeners := s.listeners + 1)
  }

  /** The last element of `navigationHistory` differs from `id` (an empty list has
      `undefined` there, which differs from every id). */
  predicate DiffersFromLast(trail: seq<ViewId>, id: ViewId) {
    trail == [] || id != trail[|trail| - 1]
  }

  /** Whether `navigateToView(id, addToHistory)` records a history entry. */
  predicate Records(c: Config, s: Nav, id: ViewId, addToHistory: bool) {
    id in c.sections && addToHistory && DiffersFromLast(s.trail, id)
  }

  /**
   * `navigateToView(id, addToHistory)`: every section loses `active-view`; when
   * the element `id` exists it alone becomes active and `currentView` becomes
   * `id`; the trail and the browser history grow by `id` together, exactly when
   * `addToHistory` holds and `id` differs from the trail's last entry (not from
   * `currentView`). A missing element leaves no section active and changes
   * nothing else.
   */
  function Navigate(c: Config, s: Nav, id: ViewId, addToHistory: bool): (r: Nav)
    ensures id in c.sections ==> r.active == {id} && r.current == id
    ensures id !in c.sections ==> r == s.(active := {})
    ensures Records(c, s, id, addToHistory) ==> r.trail == s.trail + [id] && r.pushed == s.pushed + [id]
    ensures !Records(c, s, id, addToHistory) ==> r.trail == s.trail && r.pushed == s.pushed
    ensures r.listeners == s.listeners && r.prompts == s.prompts && r.logouts == s.logouts
  {
    var s1 := s.(active := {});
    if id in c.sections then
      var s2 := s1.(active := {id}, current := id);
      if addToHistory && DiffersFromLast(s.trail, id) then
        s2.(trail := s.trail + [id], pushed := s.pushed + [id])
      else s2
    else s1
  }

  /** `showLogoutConfirmation`: one `confirm` prompt; "yes" sends the logout request. */
  function Confirm(s: Nav, answer: bool): (r: Nav)
    ensures r.prompts == s.prompts + 1
    ensures r.logouts == s.logouts + (if answer then 1 else 0)
    ensures r == s.(prompts := r.prompts, logouts := r.logouts)
  {
    s.(prompts := s.prompts + 1, logouts := if answer then s.logouts + 1 else s.logouts)
  }

  /** `event.state && event.state.view` is truthy: a payload with a non-empty view name. */
  predicate HasView(state: Option<ViewId>) {
    state.Some? && state.value != ""
  }

  /** Whether the listener treats the event as "back pressed on the home view". */
  predicate TrapsHome(c: Config, s: Nav, state: Option<ViewId>) {
    HasView(state) && state.value == c.home && s.current == c.home
  }

  /**
   * One run of the `popstate` listener. Back to the home view while already on
   * it: confirm, then push `{view: home}`. Any other named view: navigate there
   * without recording it. No payload: confirm, then push `{view: currentView}`.
   * `answer` is the user's reply to the prompt, if one is shown.
   */
  function HandlePop(c: Config, s: Nav, state: Option<ViewId>, answer: bool): (r: Nav)
    ensures TrapsHome(c, s, state) ==> r == Confirm(s, answer).(pushed := s.pushed + [c.home])
    ensures HasView(state) && !TrapsHome(c, s, state) ==> r == Navigate(c, s, state.value, false)
    ensures !HasView(state) ==> r == Confirm(s, answer).(pushed := s.pushed + [s.current])
    ensures r.trail == s.trail && r.listeners == s.listeners
  {
    if HasView(state) then
      if state.value == c.home && s.current == c.home then
        var t := Confirm(s, answer);
        t.(pushed := t.pushed + [c.home])
      else
        Navigate(c, s, state.value, false)
    else
      var t := Confirm(s, answer);
      t.(pushed := t.pushed + [s.current])
  }

  /** All installed listeners run on the same event, in installation order, each
      seeing what the earlier ones did; `answers[i]` is the reply to listener i's prompt. */
  function RunListeners(c: Config, s: Nav, state: Option<ViewId>, answers: seq<bool>): (r: Nav)
    ensures r.trail == s.trail && r.listeners == s.listeners
    ensures s.pushed <= r.pushed && |r.pushed| <= |s.pushed| + |answers|
    ensures s.prompts <= r.prompts <= s.prompts + |answers|
    decreases |answers|
  {
    if answers == [] then s else RunListeners(c, HandlePop(c, s, state, answers[0]), state, answers[1..])
  }

  /** A `popstate` event delivered to the page: one reply per installed listener. */
  function DispatchPop(c: Config, s: Nav, state: Option<ViewId>, answers: seq<bool>): (r: Nav)
    requires |answers| == s.listeners
    ensures r.trail == s.trail && r.listeners == s.listeners
    ensures s.pushed <= r.pushed && |r.pushed| <= |s.pushed| + s.listeners
    ensures s.prompts <= r.prompts <= s.prompts + s.listeners
  {
    RunListeners(c, s, state, answers)
  }

  /** With one installed listener, a `popstate` event is that listener's run. */
  lemma OneListener(c: Config, s: Nav, state: Option<ViewId>, answer: bool)
    requires s.listeners == 1
    ensures DispatchPop(c, s, state, [answer]) == HandlePop(c, s, state, answer)
  {
    var t := HandlePop(c, s, state, answer);
    assert [answer][1..] == [];
    assert RunListeners(c, s, state, [answer]) == RunListeners(c, t, state, []);
  }

  // ---------------------------------------------------------------------------
  // What the listener does, case by case

  /** Back from the home view while on it: exactly one prompt and exactly one
      pushed home entry; the view, the trail and the active sections stay. */
  lemma HomeTrap(c: Config, s: Nav, answer: bool)
    requires s.current == c.home
    ensures var r := HandlePop(c, s, Some(c.home), answer);
      r.current == c.home && r.prompts == s.prompts + 1 && r.pushed == s.pushed + [c.home] &&
      r.trail == s.trail && r.active == s.active &&
      (r.logouts == s.logouts + 1 <==> answer)
  {
    assert c.home != "" ==> TrapsHome(c, s, Some(c.home));
    if c.home == "" {
      assert !HasView(Some(c.home));
    }
  }

  /** Any other named view: the listener only navigates there, pushing nothing. */
  lemma PopToOtherView(c: Config, s: Nav, v: ViewId, answer: bool)
    requires v != "" && !(v == c.home && s.current == c.home)
    ensures HandlePop(c, s, Some(v), answer) == Navigate(c, s, v, false)
    ensures HandlePop(c, s, Some(v), answer).pushed == s.pushed
    ensures HandlePop(c, s, Some(v), answer).prompts == s.prompts
  {
  }

  /** No payload: one prompt and one pushed entry naming the current view, which stays. */
  lemma PopWithoutPayload(c: Config, s: Nav, state: Option<ViewId>, answer: bool)
    requires !HasView(state)
    ensures var r := HandlePop(c, s, state, answer);
      r.current == s.current && r.prompts == s.prompts + 1 && r.pushed == s.pushed + [s.current] &&
      r.trail == s.trail && r.active == s.active
  {
  }

  // ---------------------------------------------------------------------------
  // Invariants over any run

  /** Exclusivity: no section other than the current view is active. */
  predicate ShowsAtMostCurrent(s: Nav) {
    s.active <= {s.current}
  }

  lemma NavigateKeepsInvariants(c: Config, s: Nav, id: ViewId, add: bool)
    requires ShowsAtMostCurrent(s)
    ensures ShowsAtMostCurrent(Navigate(c, s, id, add))
    ensures |Navigate(c, s, id, add).active| <= 1
    ensures s.trail <= Navigate(c, s, id, add).trail && s.pushed <= Navigate(c, s, id, add).pushed
  {
  }

  lemma HandlePopKeepsInvariants(c: Config, s: Nav, state: Option<ViewId>, answer: bool)
    requires ShowsAtMostCurrent(s)
    ensures var r := HandlePop(c, s, state, answer);
      ShowsAtMostCurrent(r) && s.trail <= r.trail && s.pushed <= r.pushed && r.listeners == s.listeners
  {
    if HasView(state) && !(state.value == c.home && s.current == c.home) {
      NavigateKeepsInvariants(c, s, state.value, false);
    }
  }

  /** However many listeners run, the invariant holds, the trail and the pushed
      entries only grow, and each listener adds at most one pushed entry. */
  lemma {:induction false} RunListenersKeepsInvariants(c: Config, s: Nav, state: Option<ViewId>, answers: seq<bool>)
    requires ShowsAtMostCurrent(s)
    ensures var r := RunListeners(c, s, state, answers);
      ShowsAtMostCurrent(r) && s.trail <= r.trail && s.pushed <= r.pushed &&
      |r.pushed| <= |s.pushed| + |answers| && r.listeners == s.listeners && r.trail == s.trail
    decreases |answers|
  {
    if answers != [] {
      var t := HandlePop(c, s, state, answers[0]);
      HandlePopKeepsInvariants(c, s, state, answers[0]);
      RunListenersKeepsInvariants(c, t, state, answers[1..]);
    }
  }

  /** Something that happens to a dashboard page after it has loaded. */
  datatype Event = Activate(id: ViewId, addToHistory: bool) | PopState(state: Option<ViewId>, answers: seq<bool>)

  function Step(c: Config, s: Nav, e: Event): Nav {
    match e
    case Activate(id, add) => Navigate(c, s, id, add)
    case PopState(state, answers) => RunListeners(c, s, state, answers)
  }

  function Run(c: Config, s: Nav, events: seq<Event>): Nav
    decreases |events|
  {
    if events == [] then s else Run(c, Step(c, s, events[0]), events[1..])
  }

  /** For every sequence of navigations and back presses: exactly the current view
      or nothing is active, `navigationHistory` never shrinks (its old contents stay
      a prefix), and the pushed history entries only grow. */
  lemma {:induction false} RunKeepsInvariants(c: Config, s: Nav, events: seq<Event>)
    requires ShowsAtMostCurrent(s)
    ensures var r := Run(c, s, events);
      ShowsAtMostCurrent(r) && |r.active| <= 1 && s.trail <= r.trail && s.pushed <= r.pushed
    decreases |events|
  {
    if events != [] {
      var t := Step(c, s, events[0]);
      match events[0] {
        case Activate(id, add) => NavigateKeepsInvariants(c, s, id, add);
        case PopState(state, answers) => RunListenersKeepsInvariants(c, s, state, answers);
      }
      RunKeepsInvariants(c, t, events[1..]);
    }
    var r := Run(c, s, events);
    AtMostOne(r.active, r.current);
  }

  lemma AtMostOne(a: set<ViewId>, x: ViewId)
    requires a <= {x}
    ensures |a| <= 1
  {
    if x in a {
      assert a == {x};
    } else {
      assert a == {};
    }
  }

  // ---------------------------------------------------------------------------
  // Forward navigation

  /** Activations with `addToHistory` in order. */
  function NavigateAll(c: Config, s: Nav, ids: seq<ViewId>): Nav
    decreases |ids|
  {
    if ids == [] then s else NavigateAll(c, Navigate(c, s, ids[0], true), ids[1..])
  }

  /** Each id exists and differs from the one recorded just before it. */
  predicate DistinctSteps(c: Config, trail: seq<ViewId>, ids: seq<ViewId>) {
    (forall i :: 0 <= i < |ids| ==> ids[i] in c.sections) &&
    (ids != [] ==> DiffersFromLast(trail, ids[0])) &&
    (forall i :: 0 < i < |ids| ==> ids[i] != ids[i - 1])
  }

  /** N activations, each of an existing view different from the previous one,
      push exactly those N entries, in order, and end on the last of them. */
  lemma {:induction false} ForwardNavigation(c: Config, s: Nav, ids: seq<ViewId>)
    requires DistinctSteps(c, s.trail, ids)
    ensures var r := NavigateAll(c, s, ids);
      r.pushed == s.pushed + ids && r.trail == s.trail + ids && |r.pushed| == |s.pushed| + |ids| &&
      (ids != [] ==> r.current == ids[|ids| - 1] && r.active == {ids[|ids| - 1]}) &&
      r.prompts == s.prompts
    decreases |ids|
  {
    if ids != [] {
      var t := Navigate(c, s, ids[0], true);
      assert t.trail == s.trail + [ids[0]];
      assert DistinctSteps(c, t.trail, ids[1..]) by {
        if |ids| > 1 {
          assert ids[1] != ids[0];
        }
      }
      ForwardNavigation(c, t, ids[1..]);
      assert s.pushed + [ids[0]] + ids[1..] == s.pushed + ids;
      assert s.trail + [ids[0]] + ids[1..] == s.trail + ids;
    }
  }

  /** Activating the view just recorded again pushes nothing. */
  lemma NavigateIdempotent(c: Config, s: Nav, id: ViewId)
    ensures Navigate(c, Navigate(c, s, id, true), id, true) == Navigate(c, s, id, true)
  {
  }

  /** De-duplication looks at `navigationHistory`, not at the view shown: after a
      back press to `b`, activating `a` (the last recorded view) pushes nothing
      although the page moves from `b` to `a`, and activating `b` (on screen)
      pushes a second entry for it. */
  lemma DedupIgnoresCurrentView(c: Config, s: Nav, a: ViewId, b: ViewId)
    requires a in c.sections && b in c.sections && a != b && b != "" && b != c.home
    requires DiffersFromLast(s.trail, a)
    ensures var t := HandlePop(c, Navigate(c, s, a, true), Some(b), false);
      t.current == b &&
      Navigate(c, t, a, true).pushed == t.pushed && Navigate(c, t, a, true).current == a &&
      Navigate(c, t, b, true).pushed == t.pushed + [b]
  {
  }

  // ---------------------------------------------------------------------------

  /** One dashboard page's router globals, with the browser history it pushes to. */
  class Router {
    const config: Config
    const history: SessionHistory.BrowserHistory
    var currentView: ViewId
    var navigationHistory: seq<ViewId>
    var active: set<ViewId>
    var listeners: nat
    var prompts: nat
    var logouts: nat

    function State(): Nav
      reads this, history
    {
      Nav(currentView, navigationHistory, history.entries, active, listeners, prompts, logouts)
    }

    constructor (c: Config)
      ensures config == c && fresh(history)
      ensures State() == Loaded(c)
    {
      config := c;
      history := new SessionHistory.BrowserHistory();
      currentView := c.home;
      navigationHistory := [c.home];
      active := if c.home in c.sections then {c.home} else {};
      listeners, prompts, logouts := 0, 0, 0;
    }

    method InitBackButtonHandling()
      modifies this, history
      ensures State() == InstallHandler(config, old(State()))
    {
      history.Push(config.home);
      listeners := listeners + 1;
    }

    method NavigateToView(viewId: ViewId, addToHistory: bool)
      modifies this, history
      ensures State() == Navigate(config, old(State()), viewId, addToHistory)
    {
      active := {};
      if viewId in config.sections {
        active := {viewId};
        currentView := viewId;
        if addToHistory && (navigationHistory == [] || viewId != navigationHistory[|navigationHistory| - 1]) {
          navigationHistory := navigationHistory + [viewId];
          history.Push(viewId);
        }
      }
    }

    method ShowLogoutConfirmation(answer: bool)
      modifies this
      ensures State() == Confirm(old(State()), answer)
    {
      prompts := prompts + 1;
      if answer {
        logouts := logouts + 1;
      }
    }

    /** One listener's run on a `popstate` event. */
    method PopStateListener(state: Option<ViewId>, answer: bool)
      modifies this, history
      ensures State() == HandlePop(config, old(State()), state, answer)
    {
      if state.Some? && state.value != "" {
        if state.value == config.home && currentView == config.home {
          ShowLogoutConfirmation(answer);
          history.Push(config.home);
        } else {
          NavigateToView(state.value, false);
        }
      } else {
        ShowLogoutConfirmation(answer);
        history.Push(currentView);
      }
    }

    /** The browser delivers a `popstate` event to every installed listener. */
    method DispatchPopState(state: Option<ViewId>, answers: seq<bool>)
      requires |answers| == listeners
      modifies this, history
      ensures State() == DispatchPop(config, old(State()), state, answers)
    {
      var i := 0;
      while i < |answers|
        invariant 0 <= i <= |answers|
        invariant RunListeners(config, State(), state, answers[i..]) == RunListeners(config, old(State()), state, answers)
      {
        assert answers[i..][1..] == answers[i + 1..];
        PopStateListener(state, answers[i]);
        i := i + 1;
      }
    }
  }
}
