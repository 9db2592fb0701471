/**
 * The service business's dashboard page. Its router (`navigateToViewBusiness`)
 * is the shared one, but the page's own links go through `showPage`, which
 * switches the visible view without touching `currentView` or any history. The
 * bookings page splits the business's bookings into two lists, and the
 * dashboard counts them.
 */
module BusinessDashboard {
  import opened Wrappers
  import opened DashboardNav

  const Home: ViewId := "dashboard-view"

  function BusinessConfig(sections: set<ViewId>): Config {
    Config(Home, sections)
  }

  // ---------------------------------------------------------------------------
  // Tabs and pages

  /** The `.toggle-btn` group of one view (by `data-tab`) and the `.tab-content`
      elements beside it (by id), with the ones carrying `active`. */
  datatype TabGroup = TabGroup(buttons: set<string>, contents: set<string>,
                               activeButtons: set<string>, activeContents: set<string>)

  /** The router state and the tab group of each view that has one. */
  datatype Page = Page(nav: Nav, tabs: map<ViewId, TabGroup>)

  /** Both the tab button and the tab content named `tabId` exist in the group. */
  predicate HasTab(g: TabGroup, tabId: string) {
    tabId in g.buttons && tabId in g.contents
  }

  /** The tab switch of `showPage`: with both elements found, exactly the target
      button and the target content are active; otherwise nothing changes. */
  function SelectTab(g: TabGroup, tabId: string): (r: TabGroup)
    ensures HasTab(g, tabId) ==> r.activeButtons == {tabId} && r.activeContents == {tabId}
    ensures !HasTab(g, tabId) ==> r == g
    ensures r.buttons == g.buttons && r.contents == g.contents
  {
    if HasTab(g, tabId) then g.(activeButtons := {tabId}, activeContents := {tabId}) else g
  }

  /** The page once `DOMContentLoaded` has run `initBackButtonHandling` once. */
  function AfterLoad(sections: set<ViewId>, tabs: map<ViewId, TabGroup>): (p: Page)
    ensures p.nav.pushed == [Home] && p.nav.listeners == 1 && p.nav.trail == [Home]
    ensures p.nav.current == Home && p.nav.prompts == 0 && p.tabs == tabs
  {
    Page(InstallHandler(BusinessConfig(sections), Loaded(BusinessConfig(sections))), tabs)
  }

  /**
   * `showPage(pageId, infoKey, tabId)`: all views are hidden; when `pageId-view`
   * exists it alone is shown and a non-empty `tabId` selects that tab of its group;
   * when it does not exist the dashboard view is shown (if it is missing too,
   * the lookup throws and no view is shown). `currentView`, `navigationHistory`
   * and the browser history are never touched.
   */
  function AfterShowPage(c: Config, p: Page, pageId: string, tabId: Option<string>): (r: Page)
    requires c.home == Home
    ensures r.nav == p.nav.(active := r.nav.active)
    ensures pageId + "-view" in c.sections ==> r.nav.active == {pageId + "-view"}
    ensures pageId + "-view" !in c.sections ==> r.nav.active == {Home} * c.sections && r.tabs == p.tabs
    ensures r.tabs.Keys == p.tabs.Keys
    ensures forall w :: w in p.tabs && w != pageId + "-view" ==> r.tabs[w] == p.tabs[w]
    ensures var v := pageId + "-view";
      v in c.sections && v in p.tabs && tabId.Some? && tabId.value != "" ==> r.tabs[v] == SelectTab(p.tabs[v], tabId.value)
    ensures var v := pageId + "-view";
      v in p.tabs && !(v in c.sections && tabId.Some? && tabId.value != "") ==> r.tabs[v] == p.tabs[v]
  {
    var v := pageId + "-view";
    var hidden := p.nav.(active := {});
    if v in c.sections then
      var tabs := if tabId.Some? && tabId.value != "" && v in p.tabs then p.tabs[v := SelectTab(p.tabs[v], tabId.value)] else p.tabs;
      Page(hidden.(active := {v}), tabs)
    else
      Page(hidden.(active := if Home in c.sections then {Home} else {}), p.tabs)
  }

  /** Something the user does on the business page: follow a link (`showPage`, the
      brand logo being `showPage('dashboard')`), or press back. */
  datatype Event = Click(pageId: string, tabId: Option<string>) | Back(state: Option<ViewId>, answer: bool)

  function Step(c: Config, p: Page, e: Event): Page
    requires c.home == Home
  {
    match e
    case Click(pageId, tabId) => AfterShowPage(c, p, pageId, tabId)
    case Back(state, answer) => Page(HandlePop(c, p.nav, state, answer), p.tabs)
  }

  function Run(c: Config, p: Page, events: seq<Event>): Page
    requires c.home == Home
    decreases |events|
  {
    if events == [] then p else Run(c, Step(c, p, events[0]), events[1..])
  }

  /** What stays true on the business page: `navigationHistory` never leaves its
      initial value, exactly one history entry has been pushed per exit prompt
      beyond the initial one, and at most one view is shown. */
  predicate PageInvariant(p: Page) {
    p.nav.trail == [Home] && |p.nav.pushed| == 1 + p.nav.prompts && |p.nav.active| <= 1
  }

  lemma StepKeepsInvariant(c: Config, p: Page, e: Event)
    requires c.home == Home && PageInvariant(p)
    ensures PageInvariant(Step(c, p, e))
  {
    match e
    case Click(pageId, tabId) =>
      var r := AfterShowPage(c, p, pageId, tabId);
      if pageId + "-view" !in c.sections {
        AtMostOne(r.nav.active, Home);
      }
    case Back(state, answer) =>
      if HasView(state) && !(state.value == c.home && p.nav.current == c.home) {
        var r := Navigate(c, p.nav, state.value, false);
        if state.value in c.sections {
          AtMostOne(r.active, state.value);
        }
      }
  }

  /** Whatever sequence of clicks and back presses follows the page load, the
      business page records nothing in `navigationHistory` and pushes browser
      history only when it re-pushes after an exit prompt. */
  lemma {:induction false} BusinessNeverRecords(c: Config, p: Page, events: seq<Event>)
    requires c.home == Home && PageInvariant(p)
    ensures PageInvariant(Run(c, p, events))
    ensures Run(c, p, events).nav.trail == [Home]
    decreases |events|
  {
    if events != [] {
      StepKeepsInvariant(c, p, events[0]);
      BusinessNeverRecords(c, Step(c, p, events[0]), events[1..]);
    }
  }

  lemma AfterLoadInvariant(sections: set<ViewId>, tabs: map<ViewId, TabGroup>)
    ensures PageInvariant(AfterLoad(sections, tabs))
  {
    var p := AfterLoad(sections, tabs);
    if Home in sections {
      assert p.nav.active == {Home};
    } else {
      assert p.nav.active == {};
    }
  }

  /** `currentView` stays "dashboard-view" while `showPage` shows another page, so a
      back press carrying the home entry is taken for "back on the home view": it
      prompts to log out instead of returning to the dashboard, and the other page
      stays on screen. */
  lemma BackAfterClickPrompts(sections: set<ViewId>, tabs: map<ViewId, TabGroup>, pageId: string, answer: bool)
    requires pageId + "-view" in sections && pageId + "-view" != Home
    ensures var c := BusinessConfig(sections);
      var p1 := AfterShowPage(c, AfterLoad(sections, tabs), pageId, None);
      var p2 := Step(c, p1, Back(Some(Home), answer));
      p1.nav.current == Home && p1.nav.active == {pageId + "-view"} &&
      p2.nav.prompts == 1 && p2.nav.active == {pageId + "-view"} && p2.nav.pushed == [Home, Home]
  {
    var c := BusinessConfig(sections);
    var p1 := AfterShowPage(c, AfterLoad(sections, tabs), pageId, None);
    HomeTrap(c, p1.nav, answer);
  }

  /** The business page: its router globals and its tab groups. */
  class BusinessPage {
    const router: Router
    var tabs: map<ViewId, TabGroup>

    function State(): Page
      reads this, router, router.history
    {
      Page(router.State(), tabs)
    }

    constructor (sections: set<ViewId>, groups: map<ViewId, TabGroup>)
      ensures router.config == BusinessConfig(sections) && fresh(router) && fresh(router.history)
      ensures State() == Page(Loaded(BusinessConfig(sections)), groups)
    {
      router := new Router(BusinessConfig(sections));
      tabs := groups;
    }

    method ShowPage(pageId: string, tabId: Option<string>)
      requires router.config.home == Home
      modifies this, router
      ensures State() == AfterShowPage(router.config, old(State()), pageId, tabId)
    {
      var v := pageId + "-view";
      router.active := {};
      if v in router.config.sections {
        router.active := {v};
        if tabId.Some? && tabId.value != "" && v in tabs {
          var g := tabs[v];
          if tabId.value in g.buttons && tabId.value in g.contents {
            tabs := tabs[v := g.(activeButtons := {tabId.value}, activeContents := {tabId.value})];
          }
        }
      } else if Home in router.config.sections {
        router.active := {Home};
      }
    }
  }

  // ---------------------------------------------------------------------------
  // Bookings

  /** The fields of a booking the lists look at. */
  datatype Booking = Booking(id: int, title: string, status: string)

  /** `bookings.filter(b => statuses contain b.status)`, order kept. */
  function WithStatus(bs: seq<Booking>, statuses: set<string>): (r: seq<Booking>)
    ensures |r| <= |bs|
    ensures forall b :: b in r <==> b in bs && b.status in statuses
    ensures multiset(r) <= multiset(bs)
    ensures |bs| == 1 ==> r == if bs[0].status in statuses then bs else []
    decreases |bs|
  {
    if bs == [] then []
    else
      var rest := WithStatus(bs[1..], statuses);
      assert bs == [bs[0]] + bs[1..];
      if bs[0].status in statuses then [bs[0]] + rest else rest
  }

  /** Filtering distributes over concatenation: every matching booking is kept,
      in its original order, duplicates included. */
  lemma {:induction false} WithStatusConcat(a: seq<Booking>, b: seq<Booking>, statuses: set<string>)
    ensures WithStatus(a + b, statuses) == WithStatus(a, statuses) + WithStatus(b, statuses)
    decreases |a|
  {
    if a == [] {
      assert a + b == b;
    } else {
      var h := if a[0].status in statuses then [a[0]] else [];
      assert a + b == [a[0]] + (a[1..] + b);
      assert [a[0]] + a[1..] == a;
      calc {
        WithStatus(a + b, statuses);
      == { WithStatusCons(a[0], a[1..] + b, statuses); }
        h + WithStatus(a[1..] + b, statuses);
      == { WithStatusConcat(a[1..], b, statuses); }
        h + (WithStatus(a[1..], statuses) + WithStatus(b, statuses));
      ==
        (h + WithStatus(a[1..], statuses)) + WithStatus(b, statuses);
      == { WithStatusCons(a[0], a[1..], statuses); }
        WithStatus(a, statuses) + WithStatus(b, statuses);
      }
    }
  }

  /** One step of the filter: the head is kept exactly when its status matches. */
  lemma WithStatusCons(x: Booking, rest: seq<Booking>, statuses: set<string>)
    ensures WithStatus([x] + rest, statuses) ==
            (if x.status in statuses then [x] else []) + WithStatus(rest, statuses)
  {
    assert ([x] + rest)[1..] == rest;
  }

  /** The statuses of the bookings, in order. */
  function Statuses(bs: seq<Booking>): (r: seq<string>)
    ensures |r| == |bs| && forall i :: 0 <= i < |bs| ==> r[i] == bs[i].status
  {
    if bs == [] then [] else [bs[0].status] + Statuses(bs[1..])
  }

  /** `displayBusinessBookings`' "pending" list. */
  function PendingList(bs: seq<Booking>): (r: seq<Booking>)
    ensures forall b :: b in r <==> b in bs && (b.status == "pending" || b.status == "assigned")
    ensures multiset(r) <= multiset(bs)
  {
    WithStatus(bs, {"pending", "assigned"})
  }

  /** `displayBusinessBookings`' "confirmed" list. */
  function ConfirmedList(bs: seq<Booking>): (r: seq<Booking>)
    ensures forall b :: b in r <==> b in bs && (b.status == "in_progress" || b.status == "approved")
    ensures multiset(r) <= multiset(bs)
  {
    WithStatus(bs, {"in_progress", "approved"})
  }

  /** Filtering by two disjoint status sets splits the filter by their union. */
  lemma {:induction false} SplitByStatus(bs: seq<Booking>, a: set<string>, b: set<string>)
    requires a !! b
    ensures multiset(WithStatus(bs, a)) + multiset(WithStatus(bs, b)) == multiset(WithStatus(bs, a + b))
    decreases |bs|
  {
    if bs != [] {
      SplitByStatus(bs[1..], a, b);
    }
  }

  /** No booking is in both lists, and together they are exactly the bookings whose
      status is one of the four; a completed or denied booking is in neither. */
  lemma ListsPartition(bs: seq<Booking>)
    ensures forall b :: !(b in PendingList(bs) && b in ConfirmedList(bs))
    ensures multiset(PendingList(bs)) + multiset(ConfirmedList(bs)) ==
            multiset(WithStatus(bs, {"pending", "assigned", "in_progress", "approved"}))
    ensures forall b :: b in bs && b.status !in {"pending", "assigned", "in_progress", "approved"} ==>
            b !in PendingList(bs) && b !in ConfirmedList(bs)
  {
    SplitByStatus(bs, {"pending", "assigned"}, {"in_progress", "approved"});
    assert {"pending", "assigned"} + {"in_progress", "approved"} == {"pending", "assigned", "in_progress", "approved"};
  }

  /** A one-status filter has as many entries as the status occurs. */
  lemma {:induction false} FilterCountsStatus(bs: seq<Booking>, st: string)
    ensures |WithStatus(bs, {st})| == multiset(Statuses(bs))[st]
    decreases |bs|
  {
    if bs != [] {
      FilterCountsStatus(bs[1..], st);
      assert Statuses(bs) == [bs[0].status] + Statuses(bs[1..]);
    }
  }

  /** `updateBookingsList`: the new-requests count and the upcoming count are
      exactly the numbers of "pending" and "in_progress" bookings. */
  function BookingCounts(bs: seq<Booking>): (r: (nat, nat))
    ensures r.0 == multiset(Statuses(bs))["pending"]
    ensures r.1 == multiset(Statuses(bs))["in_progress"]
  {
    FilterCountsStatus(bs, "pending");
    FilterCountsStatus(bs, "in_progress");
    (|WithStatus(bs, {"pending"})|, |WithStatus(bs, {"in_progress"})|)
  }

  /** The dashboard counter of new requests counts "pending" only, so it never
      exceeds the bookings page's pending list, which adds the "assigned" ones. */
  lemma NewRequestsWithinPendingList(bs: seq<Booking>)
    ensures BookingCounts(bs).0 <= |PendingList(bs)|
  {
    SplitByStatus(bs, {"pending"}, {"assigned"});
    assert {"pending"} + {"assigned"} == {"pending", "assigned"};
  }
}
