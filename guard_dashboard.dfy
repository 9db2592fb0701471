/**
 * The security guard's dashboard page: its router instance, the recent-activity
 * log, the IN/OUT status buttons of the residents list and its search box.
 */
module GuardDashboard {
  import opened Wrappers
  import opened Search
  import opened DashboardNav

  const Home: ViewId := "guard-dashboard-view"

  function GuardConfig(sections: set<ViewId>): Config {
    Config(Home, sections)
  }

  /** The router once `DOMContentLoaded` has run `initBackButtonHandling` once. */
  function AfterLoad(sections: set<ViewId>): (s: Nav)
    ensures s.pushed == [Home] && s.listeners == 1
    ensures s.current == Home && s.trail == [Home] && s.prompts == 0
  {
    InstallHandler(GuardConfig(sections), Loaded(GuardConfig(sections)))
  }

  /** The home trap re-pushes exactly one home entry and keeps the current view. */
  lemma GuardHomeTrap(sections: set<ViewId>, s: Nav, answer: bool)
    requires s.listeners == 1 && s.current == Home
    ensures var r := DispatchPop(GuardConfig(sections), s, Some(Home), [answer]);
      r.current == Home && r.pushed == s.pushed + [Home] && r.prompts == s.prompts + 1
  {
    OneListener(GuardConfig(sections), s, Some(Home), answer);
    HomeTrap(GuardConfig(sections), s, answer);
  }

  // ---------------------------------------------------------------------------
  // Recent activity

  const LogCapacity := 10

  /** One `activityLog` entry: its text and the wall-clock time it was logged. */
  datatype Activity = Activity(text: string, time: string)

  /** `addActivity`: the new entry goes first (`unshift`); when that makes the log
      longer than ten, the last entry is removed (`pop`). */
  function WithActivity(log: seq<Activity>, e: Activity): (r: seq<Activity>)
    ensures r != [] && r[0] == e
    ensures |log| < LogCapacity ==> r == [e] + log
    ensures |log| >= LogCapacity ==> |r| == |log| && r[1..] == log[..|log| - 1]
    ensures |log| <= LogCapacity ==> |r| <= LogCapacity
  {
    var grown := [e] + log;
    if |grown| > LogCapacity then grown[..|grown| - 1] else grown
  }

  /** `addActivity` called for each entry of `es`, in order. */
  function AddAll(log: seq<Activity>, es: seq<Activity>): seq<Activity>
    decreases |es|
  {
    if es == [] then log else AddAll(WithActivity(log, es[0]), es[1..])
  }

  function Reverse(es: seq<Activity>): (r: seq<Activity>)
    ensures |r| == |es|
    ensures forall i :: 0 <= i < |es| ==> r[i] == es[|es| - 1 - i]
  {
    if es == [] then [] else Reverse(es[1..]) + [es[0]]
  }

  function Min(a: int, b: int): int {
    if a <= b then a else b
  }

  lemma TruncateTwice(a: seq<Activity>, b: seq<Activity>, m: int, k: int)
    requires 0 <= m <= |b| && 0 <= k <= |a| + m
    ensures (a + b[..m])[..k] == (a + b)[..k]
  {
    assert forall i :: 0 <= i < k ==> (a + b[..m])[i] == (a + b)[i];
  }

  /** From a log of at most ten entries, any sequence of additions leaves the ten
      newest entries of all, newest first: the log never exceeds ten entries and the
      oldest entries are the ones dropped. */
  lemma {:induction false} AddAllKeepsNewest(log: seq<Activity>, es: seq<Activity>)
    requires |log| <= LogCapacity
    ensures AddAll(log, es) == (Reverse(es) + log)[..Min(|es| + |log|, LogCapacity)]
    ensures |AddAll(log, es)| <= LogCapacity
    decreases |es|
  {
    if es == [] {
      assert (Reverse(es) + log)[..|log|] == log;
    } else {
      var e, rest := es[0], es[1..];
      var l1 := WithActivity(log, e);
      WithActivityIsTake(log, e);
      AddAllKeepsNewest(l1, rest);
      assert Reverse(es) == Reverse(rest) + [e];
      NewestStep(Reverse(rest), e, log, l1);
      assert Reverse(rest) + [e] + log == Reverse(es) + log;
    }
  }

  /** From a log within capacity, one addition keeps the newest entries of `[e] + log`. */
  lemma WithActivityIsTake(log: seq<Activity>, e: Activity)
    requires |log| <= LogCapacity
    ensures WithActivity(log, e) == ([e] + log)[..Min(|log| + 1, LogCapacity)]
  {
  }

  /** Adding `e` to the log and then keeping the newest entries after `newer` is
      keeping the newest of `newer`, `e` and the log together. */
  lemma NewestStep(newer: seq<Activity>, e: Activity, log: seq<Activity>, l1: seq<Activity>)
    requires |log| <= LogCapacity && l1 == ([e] + log)[..Min(|log| + 1, LogCapacity)]
    ensures (newer + l1)[..Min(|newer| + |l1|, LogCapacity)] ==
            (newer + [e] + log)[..Min(|newer| + 1 + |log|, LogCapacity)]
  {
    var m := Min(|log| + 1, LogCapacity);
    var k := Min(|newer| + |l1|, LogCapacity);
    assert k == Min(|newer| + 1 + |log|, LogCapacity);
    TruncateTwice(newer, [e] + log, m, k);
    assert newer + ([e] + log) == newer + [e] + log;
  }

  /** The page's `activityLog` array. */
  class ActivityLog {
    var entries: seq<Activity>

    constructor ()
      ensures entries == []
    {
      entries := [];
    }

    /** `now` is the formatted clock time, an input here. */
    method AddActivity(text: string, now: string)
      modifies this
      ensures entries == WithActivity(old(entries), Activity(text, now))
    {
      entries := [Activity(text, now)] + entries;
      if |entries| > LogCapacity {
        entries := entries[..|entries| - 1];
      }
    }
  }

  // ---------------------------------------------------------------------------
  // IN/OUT status buttons

  const In := "status-in"
  const Out := "status-out"

  /** What `toggleStatus` reads of a button: its class list and whether the name
      element before it exists. */
  datatype Button = Button(classes: set<string>, hasName: bool)

  /** The new button, and the status announced ("IN" or "OUT"); a button without a
      name element is left alone. */
  datatype Toggled = Toggled(button: Button, marked: Option<string>)

  /** `toggleStatus`: an IN button becomes OUT, any other becomes IN; classes other
      than the two status classes are kept. */
  function ToggleStatus(b: Button): (r: Toggled)
    ensures !b.hasName ==> r == Toggled(b, None)
    ensures b.hasName ==> r.button.hasName && r.marked.Some?
    ensures b.hasName ==> ((In in r.button.classes) != (Out in r.button.classes))
    ensures b.hasName ==> (r.marked == Some("OUT") <==> In in b.classes) && (r.marked == Some("IN") <==> In !in b.classes)
    ensures b.hasName ==> (Out in r.button.classes <==> In in b.classes)
    ensures r.button.classes - {In, Out} == b.classes - {In, Out}
  {
    if !b.hasName then Toggled(b, None)
    else if In in b.classes then Toggled(b.(classes := b.classes - {In} + {Out}), Some("OUT"))
    else Toggled(b.(classes := b.classes - {Out} + {In}), Some("IN"))
  }

  /** Exactly one status class on the button. */
  predicate ShowsOneStatus(b: Button) {
    (In in b.classes) != (Out in b.classes)
  }

  /** Toggling a named button twice restores it exactly when it carried one status
      class: with both or neither, the second toggle leaves a different class set. */
  lemma ToggleTwice(b: Button)
    requires b.hasName
    ensures ToggleStatus(ToggleStatus(b).button).button == b <==> ShowsOneStatus(b)
  {
    var t := ToggleStatus(ToggleStatus(b).button).button;
    if In in b.classes && Out in b.classes {
      assert Out !in t.classes;
    } else if In !in b.classes && Out !in b.classes {
      assert Out in t.classes;
    } else if In in b.classes {
      assert t.classes == b.classes;
    } else {
      assert t.classes == b.classes;
    }
  }

  /** A status button of the residents list. */
  class StatusButton {
    var classes: set<string>
    const hasName: bool

    function State(): Button
      reads this
    {
      Button(classes, hasName)
    }

    constructor (cls: set<string>, named: bool)
      ensures State() == Button(cls, named)
    {
      classes := cls;
      hasName := named;
    }

    method Toggle() returns (marked: Option<string>)
      modifies this
      ensures ToggleStatus(old(State())) == Toggled(State(), marked)
    {
      if !hasName {
        return None;
      }
      if In in classes {
        classes := classes - {In};
        classes := classes + {Out};
        marked := Some("OUT");
      } else {
        classes := classes - {Out};
        classes := classes + {In};
        marked := Some("IN");
      }
    }
  }

  // ---------------------------------------------------------------------------
  // Search

  function NotFound(q: string): Outcome {
    Toast("No page found for \"" + q + "\"", "success")
  }

  /** The `else if` chain of `handleSearch`, applied to the normalised query. */
  function Route(q: string): (o: Outcome)
    ensures o.Toast? ==> o == NotFound(q)
    ensures o.Open? ==> o.view in {"visitor-log-view", "gate-status-view", "maint-visitors-view",
                                   "shift-report-view", "residents-view"}
  {
    if Text.Contains(q, "visitor") then Open("visitor-log-view")
    else if Text.Contains(q, "gate") then Open("gate-status-view")
    else if Text.Contains(q, "maintenance") || Text.Contains(q, "maint") then Open("maint-visitors-view")
    else if Text.Contains(q, "shift") || Text.Contains(q, "report") then Open("shift-report-view")
    else if Text.Contains(q, "resident") then Open("residents-view")
    else NotFound(q)
  }

  /** `handleSearch`: the normalised text is routed, which is the first match in the keyword table. */
  function HandleSearch(input: string): (o: Outcome)
    ensures o == ByTable(Normalise(input), SearchRules, NotFound(Normalise(input)))
  {
    HandleSearchByTable(Normalise(input));
    Route(Normalise(input))
  }

  const SearchRules: seq<Rule> := [
    Rule(["visitor"], "visitor-log-view"),
    Rule(["gate"], "gate-status-view"),
    Rule(["maintenance", "maint"], "maint-visitors-view"),
    Rule(["shift", "report"], "shift-report-view"),
    Rule(["resident"], "residents-view")
  ]

  /** The chain is the first-match reading of the rule table. */
  lemma HandleSearchByTable(q: string)
    ensures Route(q) == ByTable(q, SearchRules, NotFound(q))
  {
    var rs := SearchRules;
    assert rs[5..] == [];
    assert FirstMatch(q, rs[4..]) == if Text.Contains(q, "resident") then Some("residents-view") else None by {
      MatchesKeywords(q, rs[4]);
      FirstMatchStep(q, rs, 4);
    }
    assert FirstMatch(q, rs[3..]) == if Text.Contains(q, "shift") || Text.Contains(q, "report") then Some("shift-report-view") else FirstMatch(q, rs[4..]) by {
      MatchesKeywords(q, rs[3]);
      FirstMatchStep(q, rs, 3);
    }
    assert FirstMatch(q, rs[2..]) == if Text.Contains(q, "maintenance") || Text.Contains(q, "maint") then Some("maint-visitors-view") else FirstMatch(q, rs[3..]) by {
      MatchesKeywords(q, rs[2]);
      FirstMatchStep(q, rs, 2);
    }
    assert FirstMatch(q, rs[1..]) == if Text.Contains(q, "gate") then Some("gate-status-view") else FirstMatch(q, rs[2..]) by {
      MatchesKeywords(q, rs[1]);
      FirstMatchStep(q, rs, 1);
    }
    assert FirstMatch(q, rs[0..]) == if Text.Contains(q, "visitor") then Some("visitor-log-view") else FirstMatch(q, rs[1..]) by {
      MatchesKeywords(q, rs[0]);
      FirstMatchStep(q, rs, 0);
    }
    assert rs[0..] == rs;
  }

  /** The "maintenance" test adds nothing to the "maint" test beside it: every query
      including "maintenance" includes "maint". */
  lemma MaintenanceImpliesMaint(q: string)
    ensures Text.Contains(q, "maintenance") || Text.Contains(q, "maint") <==> Text.Contains(q, "maint")
  {
    if Text.Contains(q, "maintenance") {
      ContainsPart(q, "maintenance", 0, 5);
      assert "maintenance"[0..5] == "maint";
    }
  }
}
