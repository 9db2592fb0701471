/**
 * The society administrator's dashboard page: its router instance, its activity
 * icons and its search box. The panels it shares with the other dashboards are
 * in `Panels`, its relative timestamps in `TimeAgo`.
 */
module AdminDashboard {
  import opened Wrappers
  import opened Search
  import opened DashboardNav

  const Home: ViewId := "admin-dashboard-view"

  /** The admin page, given the ids of its view sections. */
  function AdminConfig(sections: set<ViewId>): Config {
    Config(Home, sections)
  }

  /** The router once `DOMContentLoaded` has run `initBackButtonHandling`: exactly
      one `{view: home}` entry pushed, one listener, the home view current. */
  function AfterLoad(sections: set<ViewId>): (s: Nav)
    ensures s.pushed == [Home] && s.listeners == 1
    ensures s.current == Home && s.trail == [Home] && s.prompts == 0
  {
    InstallHandler(AdminConfig(sections), Loaded(AdminConfig(sections)))
  }

  /** Open a page, go back to home, then back once more onto the page's own load
      entry (which carries no payload): the first back press only returns home,
      the second one asks for confirmation and re-pushes the home entry. */
  lemma BackTwiceFromPage(sections: set<ViewId>, v: ViewId, a1: bool, a2: bool)
    requires Home in sections && v in sections && v != Home
    ensures var c := AdminConfig(sections);
      var s1 := Navigate(c, AfterLoad(sections), v, true);
      var s2 := HandlePop(c, s1, Some(Home), a1);
      var s3 := HandlePop(c, s2, None, a2);
      s1.listeners == 1 && DispatchPop(c, s1, Some(Home), [a1]) == s2 &&
      s2.listeners == 1 && DispatchPop(c, s2, None, [a2]) == s3 &&
      s1.pushed == [Home, v] && s2.current == Home && s2.prompts == 0 && s2.pushed == [Home, v] &&
      s3.current == Home && s3.prompts == 1 && s3.pushed == [Home, v, Home] && s3.trail == [Home, v]
  {
    var c := AdminConfig(sections);
    var s1 := Navigate(c, AfterLoad(sections), v, true);
    OneListener(c, s1, Some(Home), a1);
    var s2 := HandlePop(c, s1, Some(Home), a1);
    OneListener(c, s2, None, a2);
  }

  // ---------------------------------------------------------------------------
  // Activity icons

  /** The icon names of `getActivityIcon`, by logged action. */
  const Icons: map<string, string> := map[
    "User Approved" := "user-check",
    "User Denied" := "user-x",
    "Announcement Created" := "megaphone",
    "Maintenance Assigned" := "wrench",
    "Visitor Approved" := "door-open",
    "Payment Received" := "wallet",
    "Login" := "log-in",
    "Signup" := "user-plus"
  ]

  /** `getActivityIcon`: the action's own icon, and the generic one exactly for
      actions without an icon of their own. */
  function ActivityIcon(action: string): (icon: string)
    ensures icon in Icons.Values || icon == "activity"
    ensures icon == "activity" <==> action !in Icons
  {
    if action in Icons then Icons[action] else "activity"
  }

  /** Different known actions show different icons, so the icon names the action. */
  lemma IconNamesAction(a1: string, a2: string)
    requires a1 in Icons && a2 in Icons && a1 != a2
    ensures ActivityIcon(a1) != ActivityIcon(a2)
  {
  }

  // ---------------------------------------------------------------------------
  // Search

  function NotFound(q: string): Outcome {
    Toast("No page found for \"" + q + "\"", "success")
  }

  /** The `else if` chain of `handleSearch`, applied to the normalised query. */
  function Route(q: string): (o: Outcome)
    ensures o.Toast? ==> o == NotFound(q)
    ensures o.Open? ==> o.view in {"maintenance-view", "manage-members-view", "visitor-log-view",
                                   "payments-view", "announcement-view", "residents-chat-view"}
  {
    if Text.Contains(q, "maintenance") then Open("maintenance-view")
    else if Text.Contains(q, "member") || Text.Contains(q, "resident") then Open("manage-members-view")
    else if Text.Contains(q, "visitor") then Open("visitor-log-view")
    else if Text.Contains(q, "payment") then Open("payments-view")
    else if Text.Contains(q, "announcement") then Open("announcement-view")
    else if Text.Contains(q, "chat") then Open("residents-chat-view")
    else NotFound(q)
  }

  /** `handleSearch`: the normalised text is routed, which is the first match in the keyword table. */
  function HandleSearch(input: string): (o: Outcome)
    ensures o == ByTable(Normalise(input), SearchRules, NotFound(Normalise(input)))
  {
    HandleSearchByTable(Normalise(input));
    Route(Normalise(input))
  }

  /** The keyword groups of `handleSearch`, in the order they are tried. */
  const SearchRules: seq<Rule> := [
    Rule(["maintenance"], "maintenance-view"),
    Rule(["member", "resident"], "manage-members-view"),
    Rule(["visitor"], "visitor-log-view"),
    Rule(["payment"], "payments-view"),
    Rule(["announcement"], "announcement-view"),
    Rule(["chat"], "residents-chat-view")
  ]

  /** The chain is the first-match reading of the rule table. */
  lemma HandleSearchByTable(q: string)
    ensures Route(q) == ByTable(q, SearchRules, NotFound(q))
  {
    var rs := SearchRules;
    assert rs[6..] == [];
    assert FirstMatch(q, rs[5..]) == if Text.Contains(q, "chat") then Some("residents-chat-view") else None by {
      MatchesKeywords(q, rs[5]);
      FirstMatchStep(q, rs, 5);
    }
    assert FirstMatch(q, rs[4..]) == if Text.Contains(q, "announcement") then Some("announcement-view") else FirstMatch(q, rs[5..]) by {
      MatchesKeywords(q, rs[4]);
      FirstMatchStep(q, rs, 4);
    }
    assert FirstMatch(q, rs[3..]) == if Text.Contains(q, "payment") then Some("payments-view") else FirstMatch(q, rs[4..]) by {
      MatchesKeywords(q, rs[3]);
      FirstMatchStep(q, rs, 3);
    }
    assert FirstMatch(q, rs[2..]) == if Text.Contains(q, "visitor") then Some("visitor-log-view") else FirstMatch(q, rs[3..]) by {
      MatchesKeywords(q, rs[2]);
      FirstMatchStep(q, rs, 2);
    }
    assert FirstMatch(q, rs[1..]) == if Text.Contains(q, "member") || Text.Contains(q, "resident") then Some("manage-members-view") else FirstMatch(q, rs[2..]) by {
      MatchesKeywords(q, rs[1]);
      FirstMatchStep(q, rs, 1);
    }
    assert FirstMatch(q, rs[0..]) == if Text.Contains(q, "maintenance") then Some("maintenance-view") else FirstMatch(q, rs[1..]) by {
      MatchesKeywords(q, rs[0]);
      FirstMatchStep(q, rs, 0);
    }
    assert rs[0..] == rs;
  }

  /** Text typed with "maintenance" in it opens maintenance, before any other page. */
  lemma MaintenanceWins(a: string, b: string)
    ensures HandleSearch(a + "maintenance" + b) == Open("maintenance-view")
  {
    KeywordSurvivesNormalise(a, "maintenance", b);
  }
}
