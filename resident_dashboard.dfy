/**
 * The resident's dashboard page: its router instance (whose back handler and
 * header bell listener are both installed twice by its `DOMContentLoaded`
 * handler), the status badge of its activity list, the service-provider dues
 * list and its search box.
 */
module ResidentDashboard {
  import opened Wrappers
  import opened Search
  import opened DashboardNav
  import Panels

  const Home: ViewId := "resident-dashboard-view"

  function ResidentConfig(sections: set<ViewId>): Config {
    Config(Home, sections)
  }

  /** `initBackButtonHandling` runs twice while the page loads: two home entries are
      pushed and two `popstate` listeners are installed. */
  function AfterLoad(sections: set<ViewId>): (s: Nav)
    ensures s.pushed == [Home, Home] && s.listeners == 2
    ensures s.current == Home && s.trail == [Home] && s.prompts == 0
  {
    var c := ResidentConfig(sections);
    InstallHandler(c, InstallHandler(c, Loaded(c)))
  }

  /** Both listeners see one `popstate` event. */
  lemma TwoListeners(c: Config, s: Nav, state: Option<ViewId>, a1: bool, a2: bool)
    requires s.listeners == 2
    ensures DispatchPop(c, s, state, [a1, a2]) == HandlePop(c, HandlePop(c, s, state, a1), state, a2)
  {
    var t := HandlePop(c, s, state, a1);
    assert [a1, a2][1..] == [a2];
    assert [a2][1..] == [];
    assert RunListeners(c, t, state, [a2]) == RunListeners(c, HandlePop(c, t, state, a2), state, []);
  }

  /** Going back to the home view from any other page asks for confirmation: the
      first listener navigates home, the second then finds the home view current. */
  lemma BackToHomePrompts(sections: set<ViewId>, s: Nav, a1: bool, a2: bool)
    requires Home in sections && s.listeners == 2 && s.current != Home
    ensures var r := DispatchPop(ResidentConfig(sections), s, Some(Home), [a1, a2]);
      r.current == Home && r.active == {Home} && r.prompts == s.prompts + 1 && r.pushed == s.pushed + [Home] &&
      (r.logouts == s.logouts + 1 <==> a2)
  {
    var c := ResidentConfig(sections);
    TwoListeners(c, s, Some(Home), a1, a2);
    var t := HandlePop(c, s, Some(Home), a1);
    assert t == Navigate(c, s, Home, false);
    HomeTrap(c, t, a2);
  }

  /** Back to any other page: both listeners navigate there, which is one navigation. */
  lemma BackToOtherPage(sections: set<ViewId>, s: Nav, v: ViewId, a1: bool, a2: bool)
    requires s.listeners == 2 && v != "" && v != Home
    ensures DispatchPop(ResidentConfig(sections), s, Some(v), [a1, a2]) == Navigate(ResidentConfig(sections), s, v, false)
  {
    TwoListeners(ResidentConfig(sections), s, Some(v), a1, a2);
  }

  /** Without a payload both listeners prompt and push the current view. */
  lemma BackWithoutPayload(sections: set<ViewId>, s: Nav, a1: bool, a2: bool)
    requires s.listeners == 2
    ensures var r := DispatchPop(ResidentConfig(sections), s, None, [a1, a2]);
      r.prompts == s.prompts + 2 && r.pushed == s.pushed + [s.current, s.current] && r.current == s.current
  {
    TwoListeners(ResidentConfig(sections), s, None, a1, a2);
  }

  /** The header bell carries `initResidentNotifications`' listener twice; one click
      runs both toggles and leaves the panels as they were. */
  function HeaderBellClick(p: Panels.Panels): (r: Panels.Panels)
    ensures r == p
  {
    Panels.HeaderToggleTwice(p);
    Panels.HeaderToggle(Panels.HeaderToggle(p))
  }

  // ---------------------------------------------------------------------------
  // Activity status badge

  /** `getStatusClass`: the first of three keyword pairs found in the action (case
      sensitive) picks the colour; blue when none is found. */
  function StatusClass(action: string): (r: string)
    ensures r in {"status-blue", "status-green", "status-red"}
    ensures r == "status-green" <==>
      !Text.Contains(action, "Completed") && !Text.Contains(action, "Approved") &&
      (Text.Contains(action, "Confirmed") || Text.Contains(action, "Paid"))
    ensures r == "status-red" <==>
      !Text.Contains(action, "Completed") && !Text.Contains(action, "Approved") &&
      !Text.Contains(action, "Confirmed") && !Text.Contains(action, "Paid") &&
      (Text.Contains(action, "Overdue") || Text.Contains(action, "Pending"))
  {
    if Text.Contains(action, "Completed") || Text.Contains(action, "Approved") then "status-blue"
    else if Text.Contains(action, "Confirmed") || Text.Contains(action, "Paid") then "status-green"
    else if Text.Contains(action, "Overdue") || Text.Contains(action, "Pending") then "status-red"
    else "status-blue"
  }

  /** An approval outranks a pending marker in the same action text. */
  lemma ApprovedBeforePending(a: string, b: string, c: string)
    ensures StatusClass(a + "Approved" + b + "Pending" + c) == "status-blue"
  {
    Text.ContainsInMiddle(a, "Approved", b + "Pending" + c);
    assert a + "Approved" + b + "Pending" + c == a + "Approved" + (b + "Pending" + c);
  }

  // ---------------------------------------------------------------------------
  // Service-provider dues

  /** One entry of `dueSamounts`. */
  datatype Due = Due(provider: string, amount: int, date: string)

  /** `addServiceProviderReminder`: the new due goes last, dated "Just now". */
  function WithReminder(dues: seq<Due>, provider: string, amount: int): (r: seq<Due>)
    ensures |r| == |dues| + 1 && r[..|dues|] == dues
    ensures r[|dues|] == Due(provider, amount, "Just now")
  {
    dues + [Due(provider, amount, "Just now")]
  }

  /** `handlePaymentForDue(idx)`: reading `dueSamounts[idx].provider` throws when
      there is no due at `idx`, before anything changes (None); otherwise exactly
      that due is removed by `splice(idx, 1)`. */
  function PayDue(dues: seq<Due>, idx: int): (r: Option<seq<Due>>)
    ensures r.Some? <==> 0 <= idx < |dues|
    ensures r.Some? ==> |r.value| == |dues| - 1
    ensures r.Some? ==> forall i :: 0 <= i < idx ==> r.value[i] == dues[i]
    ensures r.Some? ==> forall i :: idx <= i < |r.value| ==> r.value[i] == dues[i + 1]
  {
    if 0 <= idx < |dues| then Some(dues[..idx] + dues[idx + 1..]) else None
  }

  /** Putting the paid due back where it was gives the list before payment, and
      the remaining dues are the old ones less exactly that one. */
  lemma PayDueRemovesOne(dues: seq<Due>, idx: int)
    requires 0 <= idx < |dues|
    ensures var rest := PayDue(dues, idx).value;
      rest[..idx] + [dues[idx]] + rest[idx..] == dues &&
      multiset(rest) + multiset{dues[idx]} == multiset(dues)
  {
    var rest := PayDue(dues, idx).value;
    assert rest[..idx] == dues[..idx];
    assert rest[idx..] == dues[idx + 1..];
    assert dues == dues[..idx] + [dues[idx]] + dues[idx + 1..];
    calc {
      multiset(dues);
      multiset(dues[..idx] + [dues[idx]] + dues[idx + 1..]);
      multiset(dues[..idx]) + multiset{dues[idx]} + multiset(dues[idx + 1..]);
      multiset(dues[..idx] + dues[idx + 1..]) + multiset{dues[idx]};
    }
  }

  /** Paying the reminder just added gives back the earlier list. */
  lemma PayNewestUndoesReminder(dues: seq<Due>, provider: string, amount: int)
    ensures PayDue(WithReminder(dues, provider, amount), |dues|) == Some(dues)
  {
    var r := WithReminder(dues, provider, amount);
    assert r[..|dues|] + r[|dues| + 1..] == dues;
  }

  /** The page's `dueSamounts` array. */
  class DueList {
    var dues: seq<Due>

    constructor ()
      ensures dues == []
    {
      dues := [];
    }

    method AddServiceProviderReminder(providerName: string, amount: int)
      modifies this
      ensures dues == WithReminder(old(dues), providerName, amount)
    {
      dues := dues + [Due(providerName, amount, "Just now")];
    }

    /** `paid` is false exactly when the lookup throws, leaving the list as it was. */
    method HandlePaymentForDue(idx: int) returns (paid: bool)
      modifies this
      ensures paid <==> PayDue(old(dues), idx).Some?
      ensures dues == PayDue(old(dues), idx).GetOr(old(dues))
    {
      if 0 <= idx < |dues| {
        dues := dues[..idx] + dues[idx + 1..];
        paid := true;
      } else {
        paid := false;
      }
    }
  }

  // ---------------------------------------------------------------------------
  // Search

  function NotFound(q: string): Outcome {
    Toast("No service found for \"" + q + "\"", "error")
  }

  /** The `else if` chain of `handleSearch`, applied to the normalised query. */
  function Route(q: string): (o: Outcome)
    ensures o.Toast? ==> o == NotFound(q) && o.kind == "error"
    ensures o.Open? ==> o.view in {"maintenance-view", "review-view", "visitor-log-view", "payments-view",
                                   "announcement-view", "residents-chat-view", "service-providers-view"}
  {
    if Text.Contains(q, "maintenance") || Text.Contains(q, "wrench") then Open("maintenance-view")
    else if Text.Contains(q, "review") || Text.Contains(q, "star") then Open("review-view")
    else if Text.Contains(q, "visitor") || Text.Contains(q, "guest") then Open("visitor-log-view")
    else if Text.Contains(q, "payment") || Text.Contains(q, "bill") then Open("payments-view")
    else if Text.Contains(q, "announcement") || Text.Contains(q, "notice") then Open("announcement-view")
    else if Text.Contains(q, "chat") || Text.Contains(q, "group") then Open("residents-chat-view")
    else if Text.Contains(q, "service") || Text.Contains(q, "provider") then Open("service-providers-view")
    else NotFound(q)
  }

  /** `handleSearch`: the normalised text is routed, which is the first match in the keyword table. */
  function HandleSearch(input: string): (o: Outcome)
    ensures o == ByTable(Normalise(input), SearchRules, NotFound(Normalise(input)))
  {
    HandleSearchByTable(Normalise(input));
    Route(Normalise(input))
  }

  /** The keyword groups of `handleSearch`, in the order they are tried. */
  const SearchRules: seq<Rule> := [
    Rule(["maintenance", "wrench"], "maintenance-view"),
    Rule(["review", "star"], "review-view"),
    Rule(["visitor", "guest"], "visitor-log-view"),
    Rule(["payment", "bill"], "payments-view"),
    Rule(["announcement", "notice"], "announcement-view"),
    Rule(["chat", "group"], "residents-chat-view"),
    Rule(["service", "provider"], "service-providers-view")
  ]

  /** The chain is the first-match reading of the rule table. */
  lemma HandleSearchByTable(q: string)
    ensures Route(q) == ByTable(q, SearchRules, NotFound(q))
  {
    var rs := SearchRules;
    assert rs[7..] == [];
    assert FirstMatch(q, rs[6..]) == if Text.Contains(q, "service") || Text.Contains(q, "provider") then Some("service-providers-view") else None by {
      MatchesKeywords(q, rs[6]);
      FirstMatchStep(q, rs, 6);
    }
    assert FirstMatch(q, rs[5..]) == if Text.Contains(q, "chat") || Text.Contains(q, "group") then Some("residents-chat-view") else FirstMatch(q, rs[6..]) by {
      MatchesKeywords(q, rs[5]);
      FirstMatchStep(q, rs, 5);
    }
    assert FirstMatch(q, rs[4..]) == if Text.Contains(q, "announcement") || Text.Contains(q, "notice") then Some("announcement-view") else FirstMatch(q, rs[5..]) by {
      MatchesKeywords(q, rs[4]);
      FirstMatchStep(q, rs, 4);
    }
    assert FirstMatch(q, rs[3..]) == if Text.Contains(q, "payment") || Text.Contains(q, "bill") then Some("payments-view") else FirstMatch(q, rs[4..]) by {
      MatchesKeywords(q, rs[3]);
      FirstMatchStep(q, rs, 3);
    }
    assert FirstMatch(q, rs[2..]) == if Text.Contains(q, "visitor") || Text.Contains(q, "guest") then Some("visitor-log-view") else FirstMatch(q, rs[3..]) by {
      MatchesKeywords(q, rs[2]);
      FirstMatchStep(q, rs, 2);
    }
    assert FirstMatch(q, rs[1..]) == if Text.Contains(q, "review") || Text.Contains(q, "star") then Some("review-view") else FirstMatch(q, rs[2..]) by {
      MatchesKeywords(q, rs[1]);
      FirstMatchStep(q, rs, 1);
    }
    assert FirstMatch(q, rs[0..]) == if Text.Contains(q, "maintenance") || Text.Contains(q, "wrench") then Some("maintenance-view") else FirstMatch(q, rs[1..]) by {
      MatchesKeywords(q, rs[0]);
      FirstMatchStep(q, rs, 0);
    }
    assert rs[0..] == rs;
  }

  /** "star" is part of "start": any text containing it, such as "start payment",
      opens the maintenance page or the reviews, never the payments. */
  lemma StarWinsOverPayment(a: string, b: string)
    ensures HandleSearch(a + "star" + b) in {Open("maintenance-view"), Open("review-view")}
  {
    KeywordSurvivesNormalise(a, "star", b);
  }
}
