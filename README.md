# Urvoic in Dafny

Urvoic is a housing-society web app. A Flask server (`app.py`) serves four role
dashboards: admin, resident, guard and business. Each dashboard is a single
page whose script switches between view sections and traps the browser's back
button. The public landing page (`static/script.js`) holds the sign-in forms
and its own back-button engine. This project models, in Dafny, the logic of
those scripts and the business rules of the server, and proves the properties
the code promises.

Modules, one per file:

- `Wrappers`: `Option`.
- `Text`: `includes`, `toLowerCase` and `trim` on strings.
- `SessionHistory`: the browser's session history. The class records pushed payloads and `history.back()` requests.
- `Panels`: the sidebar, the notification drawer and their overlays. Pure transition functions plus a `PanelManager` class.
- `TimeAgo`: the `getTimeAgo` labels.
- `Search`: the keyword search shared by the dashboards. An `else if` chain is read as a first-match rule table.
- `DashboardNav`: the view router and back-button handler that the four dashboards share.
  - Pure: `Navigate`, `HandlePop`, and runs over event sequences.
  - A `Router` class with the page globals and browser history.
- `AdminDashboard`, `ResidentDashboard`, `GuardDashboard`, `BusinessDashboard`: each dashboard's constants and quirks.
  - Resident: the double listener and the dues list.
  - Guard: the capped activity log and the IN/OUT button.
  - Business: `showPage` with its tabs, and the booking lists.
  - Admin: icons and search.
- `Landing`: the landing page's history engine, forms, redirect and reset-password checks. A `LandingPage` class holds the page globals.
- `Backend`: the server's tables as sequences of records, with row `i` having primary key `i + 1`. Each route is a function from the state before a request to the status code and the state after it.
- `BackendStore`: the same tables as fields of a `Store` class. Each route is a method that updates rows field by field, proved equal to the `Backend` function.

Behaviour of the code that the model keeps and proves, although a reader
might not expect it:

- The resident dashboard runs `initBackButtonHandling` twice, at `static/resident_dashboard.js:1432` and `:1529`. Every `popstate` event therefore runs two listeners, and a back press to home prompts twice.
  - Its header-bell listener is also installed twice, so one click leaves the drawer as it was.
- De-duplication of pushed views compares with the last entry of `navigationHistory`, not with the view on screen (`DashboardNav.DedupIgnoresCurrentView`).
- On the business dashboard, clicks go through `showPage`, which never touches `currentView` or history. A back press after a click therefore lands in the home trap (`BusinessDashboard.BackAfterClickPrompts`).
- The admin page defines `getTimeAgo` twice. The later definition wins, and it says "0 min ago" where the other pages say "Just now".
- A view switch does not close the open panels; only sidebar link clicks do. The model follows the code.
- `demote_admin` protects only the caller, so a co-admin can demote the main admin, who keeps the main-admin flag.
- `respond_visitor_permission` matches the resident by flat number alone, not society. It does not look at the visitor's status either, so an exited visitor can be allowed again.
- Signing up as user type "guard" with the default role "resident" yields an account that the landing redirect sends to the resident dashboard, which then redirects to "/".

## Model

| member | source | states |
|---|---|---|
| SessionHistory.BrowserHistory.constructor | static/script.js:639-641 | a page starts with no entries written and no back request |
| SessionHistory.BrowserHistory.Push | static/admin_dashboard.js:41 | `history.pushState` adds exactly one entry on top and requests no navigation |
| SessionHistory.BrowserHistory.Replace | static/script.js:640 | `history.replaceState` rewrites the top entry, or creates it on an empty history |
| SessionHistory.BrowserHistory.Back | static/script.js:680-681 | `history.back()` is recorded as a request; the entries are unchanged |
| TimeAgo.SecondsTimeAgo | static/resident_dashboard.js:88-94 | "Just now" exactly below 60 s; minutes below 3600 s, hours below 86400 s, then days, each the floor of the elapsed time |
| TimeAgo.SecondsTimeAgoMonotone | static/guard_dashboard.js:65-71 | an older date never gets a finer label, and within one unit the count never decreases |
| TimeAgo.DivMonotone | static/guard_dashboard.js:66-69 | the `Math.floor` quotients used for minutes, hours and days never decrease as the elapsed time grows |
| TimeAgo.AdminTimeAgo | static/admin_dashboard.js:1449-1459 | the effective admin `getTimeAgo`: "N min ago" (N from 0 to 59) below an hour, hours below a day, days after; singular exactly for 1 |
| TimeAgo.AdminSaysZeroMinutes | static/admin_dashboard.js:1449-1459 | under a minute the admin page says "0 min ago" where the other dashboards say "Just now" |
| Text.Lower | static/admin_dashboard.js:858 | `toLowerCase` keeps the length and maps each character on its own |
| Text.Trim | static/admin_dashboard.js:858 | `trim` returns a contiguous part of the input with no whitespace at either end, and every character removed before or after it is whitespace |
| Text.TrimSteps | static/admin_dashboard.js:858 | `trimStart` then `trimEnd` keeps a part with non-space ends and drops only whitespace around it |
| Text.TrimIsSpacesAround | static/admin_dashboard.js:858 | a part cut from the end of a whitespace-stripped suffix has only whitespace before and after it |
| Text.Contains | static/admin_dashboard.js:860 | `includes(k)` holds when `k` is a prefix of the text, and only when `k` is no longer than the text |
| Text.IsSpace | static/admin_dashboard.js:858 | space, tab, newline and carriage return are removable; no letter or digit is |
| Text.ContainsAt | static/admin_dashboard.js:860 | `includes(k)` holds exactly when `k` occurs at some index |
| Text.ContainsInMiddle | static/admin_dashboard.js:860 | a keyword is included in any text built around it |
| Text.LowerChar | static/admin_dashboard.js:858 | capital letters A to Z become lower-case letters; every other character is kept |
| Text.TrimStart | static/admin_dashboard.js:858 | the result is a suffix of the input, starts with no removable character, and only removable characters were dropped |
| Text.TrimEnd | static/admin_dashboard.js:858 | the result is a prefix of the input, ends with no removable character, and only removable characters were dropped |
| Search.Normalise | static/admin_dashboard.js:858 | the query is the lower-cased, trimmed input, never longer than it |
| Search.FirstMatch | static/admin_dashboard.js:860-866 | the `else if` chain as a table: no page exactly when no rule matches, otherwise the first matching rule's page |
| Search.ByTable | static/admin_dashboard.js:860-866 | when some rule matches, the page of the first matching rule in table order is opened; when none matches, the not-found toast is shown, and a toast outcome occurs exactly then |
| Search.FirstMatchStep | static/admin_dashboard.js:860-866 | from any position, a rule is tried before all later ones |
| Search.FirstMatchCons | static/admin_dashboard.js:860-866 | a rule placed first decides on its own when it matches, otherwise the rest of the table decides |
| Search.MatchesKeywords | static/resident_dashboard.js:1038 | a rule of one or two keywords matches exactly when the query includes one of them |
| Search.ContainsPart | static/guard_dashboard.js:883 | a query that includes a word includes every part of that word |
| Search.LowerKeeps | static/admin_dashboard.js:858 | a keyword without capital letters keeps its place when the text is lower-cased |
| Search.TrimStartKeeps | static/admin_dashboard.js:858 | an occurrence that starts with a non-space survives `trimStart`, shifted by the removed prefix |
| Search.DropSpacesKeeps | static/admin_dashboard.js:858 | dropping leading spaces, one at a time, keeps an occurrence that starts with a non-space, shifted by the number dropped |
| Search.TrimEndKeeps | static/admin_dashboard.js:858 | an occurrence that ends with a non-space survives `trimEnd` in place |
| Search.KeywordSurvivesNormalise | static/admin_dashboard.js:858-860 | a lower-case keyword typed anywhere in the input is still found after lower-casing and trimming |
| Search.OccurrenceSurvivesNormalise | static/admin_dashboard.js:858-860 | a lower-case keyword found at position i of the input is still included in the normalised query |
| Search.OccurrenceSurvivesSteps | static/admin_dashboard.js:858-860 | an occurrence of a lower-case keyword survives lower-casing, `trimStart` and `trimEnd` in turn |
| Search.OccursContains | static/admin_dashboard.js:860 | a keyword found at some position counts as included for `includes` |
| Panels.CloseAll | static/admin_dashboard.js:362-368 | `closeAllPanels` leaves every panel, overlay and the hamburger highlight off |
| Panels.Hamburger | static/admin_dashboard.js:370-381 | from an open sidebar everything closes; otherwise only the sidebar, its overlay and the highlight are on |
| Panels.ToggleNotifications | static/admin_dashboard.js:391-406 | `toggleNotifications` always closes the sidebar and flips only the drawer and its overlay |
| Panels.HeaderToggle | static/admin_dashboard.js:230-240 | the header bell flips the drawer and its overlay and leaves the sidebar as it was |
| Panels.BusinessNotify | static/business_dashboard.js:578-588 | from an open drawer everything closes; otherwise only the drawer and its overlay are open |
| Panels.ControlsExclude | static/guard_dashboard.js:317-367 | every control except the header bell leaves at most one panel open, with overlays matching their panels |
| Panels.HeaderToggleOpensBoth | static/admin_dashboard.js:230-240 | the header bell with the sidebar open shows sidebar and drawer together |
| Panels.HeaderToggleTwice | static/resident_dashboard.js:1591-1601 | two header listeners on one button cancel out |
| Panels.HamburgerTwice | static/guard_dashboard.js:325-336 | pressing the hamburger twice from a consistent state without the drawer restores it |
| Panels.PanelManager.constructor | static/admin_dashboard.js:355-360 | the page loads with every panel closed |
| Panels.PanelManager.CloseAllPanels | static/admin_dashboard.js:362-368 | the panel flags become `CloseAll` of the old ones |
| Panels.PanelManager.HamburgerClick | static/admin_dashboard.js:370-381 | the panel flags become `Hamburger` of the old ones |
| Panels.PanelManager.ToggleNotificationsPanel | static/resident_dashboard.js:1538-1556 | the panel flags become `ToggleNotifications` of the old ones |
| Panels.PanelManager.HeaderBellClick | static/admin_dashboard.js:230-240 | the panel flags become `HeaderToggle` of the old ones |
| Panels.PanelManager.BusinessBellClick | static/business_dashboard.js:578-588 | the panel flags become `BusinessNotify` of the old ones |
| DashboardNav.Loaded | static/admin_dashboard.js:2-3 | on load both globals name the home view and nothing has been pushed |
| DashboardNav.InstallHandler | static/admin_dashboard.js:40-43 | `initBackButtonHandling` pushes exactly one home entry and adds one listener, changing nothing else |
| DashboardNav.Navigate | static/admin_dashboard.js:66-79 | an existing id becomes the only active view and the current view; an unknown id deactivates every view and changes nothing else; an entry goes to both `navigationHistory` and browser history exactly when `addToHistory` holds and the id differs from the last recorded one |
| DashboardNav.Confirm | static/admin_dashboard.js:58-64 | one confirmation prompt; a logout request exactly when the answer is yes |
| DashboardNav.HandlePop | static/admin_dashboard.js:43-55 | back onto home while on home prompts and re-pushes home; another named view is navigated to unrecorded; no payload prompts and re-pushes the current view; the trail and listeners stay |
| DashboardNav.RunListeners | static/resident_dashboard.js:19-31 | every listener runs in turn on one event: the trail and the listeners stay, the pushed entries only grow, by at most one per listener, as do the prompts |
| DashboardNav.DispatchPop | static/resident_dashboard.js:19-31 | a `popstate` event reaches every installed listener: at most one push and one prompt each, the trail unchanged |
| DashboardNav.OneListener | static/admin_dashboard.js:43-55 | with one listener installed, a `popstate` event is one run of that listener |
| DashboardNav.HomeTrap | static/admin_dashboard.js:45-47 | back onto home while on home: one prompt, exactly one home entry pushed, current view stays home |
| DashboardNav.PopToOtherView | static/admin_dashboard.js:48-50 | back onto any other view navigates there without history, so nothing is pushed and nobody is prompted |
| DashboardNav.PopWithoutPayload | static/admin_dashboard.js:51-54 | an event without a view payload prompts once and pushes the current view |
| DashboardNav.NavigateKeepsInvariants | static/admin_dashboard.js:66-79 | at most one view is active, and it is the current one; both histories only grow |
| DashboardNav.HandlePopKeepsInvariants | static/admin_dashboard.js:43-55 | the listener keeps the same invariant and only grows the histories |
| DashboardNav.RunListenersKeepsInvariants | static/resident_dashboard.js:19-31 | any number of listeners on one event keep the invariant, leave `navigationHistory` as it was, and push at most one entry each |
| DashboardNav.RunKeepsInvariants | static/admin_dashboard.js:43-79 | after any sequence of activations and back presses, at most one view is active and the histories are extensions of the start |
| DashboardNav.ForwardNavigation | static/admin_dashboard.js:66-79 | N activations of existing views, each different from the previous, append exactly those N ids to both histories |
| DashboardNav.NavigateIdempotent | static/admin_dashboard.js:75 | activating the view just recorded again changes nothing |
| DashboardNav.DedupIgnoresCurrentView | static/admin_dashboard.js:75 | after a back press to b, activating a again pushes nothing, because a is still last in `navigationHistory` while b is shown |
| DashboardNav.Router.constructor | static/admin_dashboard.js:2-3 | the router starts in the loaded state with a fresh history |
| DashboardNav.Router.InitBackButtonHandling | static/admin_dashboard.js:40-43 | the router state becomes `InstallHandler` of the old one |
| DashboardNav.Router.NavigateToView | static/admin_dashboard.js:66-79 | the router state becomes `Navigate` of the old one, and the browser history tracks the pushed sequence |
| DashboardNav.Router.ShowLogoutConfirmation | static/admin_dashboard.js:58-64 | the router state becomes `Confirm` of the old one |
| DashboardNav.Router.PopStateListener | static/admin_dashboard.js:43-55 | the router state becomes `HandlePop` of the old one |
| DashboardNav.Router.DispatchPopState | static/resident_dashboard.js:19-31 | every installed listener runs on the event, in order: the state becomes `DispatchPop` of the old one |
| AdminDashboard.AfterLoad | static/admin_dashboard.js:20 | loading the admin page pushes exactly one home entry and installs one listener |
| AdminDashboard.BackTwiceFromPage | static/admin_dashboard.js:43-55 | open a page, go back twice: the second back press hits the home trap and re-pushes home |
| AdminDashboard.ActivityIcon | static/admin_dashboard.js:125-137 | a known action's own icon, and the generic "activity" icon exactly for unknown actions |
| AdminDashboard.IconNamesAction | static/admin_dashboard.js:126-135 | different known actions get different icons |
| AdminDashboard.Route | static/admin_dashboard.js:860-866 | the keyword chain opens one of the six admin pages or shows the not-found toast naming the query |
| AdminDashboard.HandleSearch | static/admin_dashboard.js:856-867 | searching the lower-cased, trimmed input is the first match over the keyword table; no match gives the not-found toast of type 'success' |
| AdminDashboard.HandleSearchByTable | static/admin_dashboard.js:860-866 | for every query the chain equals first-match over its rule table in source order |
| AdminDashboard.MaintenanceWins | static/admin_dashboard.js:860 | any input containing "maintenance" opens the maintenance page, whatever else it contains |
| ResidentDashboard.AfterLoad | static/resident_dashboard.js:1432 | loading the resident page pushes two home entries and installs two listeners |
| ResidentDashboard.TwoListeners | static/resident_dashboard.js:1529 | one `popstate` event runs both listeners, the second seeing the first one's result |
| ResidentDashboard.BackToHomePrompts | static/resident_dashboard.js:19-31 | back to home from another page: the first listener navigates home, the second traps it, so one prompt and one home push |
| ResidentDashboard.BackToOtherPage | static/resident_dashboard.js:24-26 | back to any other page: both listeners together make one navigation without history |
| ResidentDashboard.BackWithoutPayload | static/resident_dashboard.js:27-30 | an event without payload prompts twice and pushes the current view twice |
| ResidentDashboard.HeaderBellClick | static/resident_dashboard.js:1591-1601 | one header-bell click through both installed listeners leaves the panels unchanged |
| ResidentDashboard.StatusClass | static/resident_dashboard.js:81-86 | green exactly when Confirmed/Paid appear without Completed/Approved; red exactly when Overdue/Pending appear without the other four; blue otherwise |
| ResidentDashboard.ApprovedBeforePending | static/resident_dashboard.js:82-84 | an action with both "Approved" and "Pending" is blue |
| ResidentDashboard.WithReminder | static/resident_dashboard.js:102-105 | the new due goes last, dated "Just now", and the earlier dues stay |
| ResidentDashboard.PayDue | static/resident_dashboard.js:128-132 | an index in range removes exactly that due, keeping the order of the rest; any other index fails |
| ResidentDashboard.PayDueRemovesOne | static/resident_dashboard.js:130 | putting the paid due back at its index restores the list, and the multiset loses exactly that due |
| ResidentDashboard.PayNewestUndoesReminder | static/resident_dashboard.js:102-132 | paying the reminder just added gives back the earlier list |
| ResidentDashboard.DueList.constructor | static/resident_dashboard.js:96 | `dueSamounts` starts empty |
| ResidentDashboard.DueList.AddServiceProviderReminder | static/resident_dashboard.js:102-105 | the list becomes `WithReminder` of the old one |
| ResidentDashboard.DueList.HandlePaymentForDue | static/resident_dashboard.js:128-132 | the payment succeeds exactly for an index in range, and the list becomes `PayDue` of the old one; otherwise it stays |
| ResidentDashboard.Route | static/resident_dashboard.js:1038-1055 | the keyword chain opens one of the seven resident pages or shows the not-found toast of type 'error' |
| ResidentDashboard.HandleSearch | static/resident_dashboard.js:1035-1056 | searching the lower-cased, trimmed input is the first match over the keyword table; no match gives the not-found toast |
| ResidentDashboard.HandleSearchByTable | static/resident_dashboard.js:1038-1055 | for every query the chain equals first-match over its rule table in source order |
| ResidentDashboard.StarWinsOverPayment | static/resident_dashboard.js:1038-1041 | text containing "star" (such as "start payment") never reaches the payments page |
| GuardDashboard.AfterLoad | static/guard_dashboard.js:88 | loading the guard page pushes exactly one home entry and installs one listener |
| GuardDashboard.GuardHomeTrap | static/guard_dashboard.js:19-30 | the home trap re-pushes exactly one home entry and never changes the current view |
| GuardDashboard.WithActivity | static/guard_dashboard.js:500-505 | the new entry goes to index 0; below ten entries nothing is lost, at ten the oldest is dropped; the log never exceeds ten |
| GuardDashboard.AddAllKeepsNewest | static/guard_dashboard.js:500-505 | after any sequence of additions the log is the ten newest entries, newest first |
| GuardDashboard.WithActivityIsTake | static/guard_dashboard.js:500-505 | one addition to a log within capacity gives the first ten entries of the new entry followed by the log |
| GuardDashboard.NewestStep | static/guard_dashboard.js:500-505 | adding an entry and then later entries keeps the same ten newest entries as adding all of them together |
| GuardDashboard.ActivityLog.constructor | static/guard_dashboard.js:369 | `activityLog` starts empty |
| GuardDashboard.ActivityLog.AddActivity | static/guard_dashboard.js:500-505 | the log becomes `WithActivity` of the old one |
| GuardDashboard.ToggleStatus | static/guard_dashboard.js:705-732 | an IN button becomes OUT and anything else IN, which is announced; other classes are unchanged; a button without a name cell is left alone |
| GuardDashboard.ToggleTwice | static/guard_dashboard.js:713-724 | toggling twice restores the button exactly when it carried exactly one status class |
| GuardDashboard.StatusButton.constructor | static/guard_dashboard.js:705 | the button holds the given classes |
| GuardDashboard.StatusButton.Toggle | static/guard_dashboard.js:705-732 | the button becomes `ToggleStatus` of the old one, and the announced status is returned |
| GuardDashboard.Route | static/guard_dashboard.js:879-890 | the keyword chain opens one of the five guard pages or shows the not-found toast |
| GuardDashboard.HandleSearch | static/guard_dashboard.js:875-892 | searching the lower-cased, trimmed input is the first match over the keyword table; no match gives the not-found toast |
| GuardDashboard.HandleSearchByTable | static/guard_dashboard.js:879-890 | visitor, then gate, then maintenance or maint, then shift or report, then resident: first match wins |
| GuardDashboard.MaintenanceImpliesMaint | static/guard_dashboard.js:883 | the "maintenance" test adds nothing to the "maint" test beside it |
| BusinessDashboard.SelectTab | static/business_dashboard.js:208-225 | with both the tab button and the content present, exactly they are active in their group; otherwise the group is unchanged |
| BusinessDashboard.AfterLoad | static/business_dashboard.js:89 | loading the business page pushes exactly one home entry and installs one listener |
| BusinessDashboard.AfterShowPage | static/business_dashboard.js:188-231 | `showPage` activates exactly `p-view` when it exists, else only the dashboard view; it changes neither `currentView` nor either history; tab changes only within the page's own group |
| BusinessDashboard.StepKeepsInvariant | static/business_dashboard.js:16-59 | a click or a back press keeps `navigationHistory` at its initial entry, pushes only from the home trap, and leaves at most one view active |
| BusinessDashboard.BusinessNeverRecords | static/business_dashboard.js:17-25 | over any sequence of clicks and back presses, `navigationHistory` stays the single home entry |
| BusinessDashboard.AfterLoadInvariant | static/business_dashboard.js:89 | the loaded page satisfies the invariant |
| BusinessDashboard.BackAfterClickPrompts | static/business_dashboard.js:20-23 | after clicking to another page, back to home prompts, because `currentView` stayed home |
| BusinessDashboard.BusinessPage.constructor | static/business_dashboard.js:2-3 | the page starts loaded with the given tab groups |
| BusinessDashboard.BusinessPage.ShowPage | static/business_dashboard.js:188-231 | the page state becomes `AfterShowPage` of the old one |
| BusinessDashboard.WithStatus | static/business_dashboard.js:309-310 | the filter keeps exactly the bookings with a listed status; a single booking is kept exactly when its status is listed |
| BusinessDashboard.WithStatusConcat | static/business_dashboard.js:309-310 | filtering a concatenation is concatenating the filtered parts, so every matching booking is kept in order, duplicates included |
| BusinessDashboard.WithStatusCons | static/business_dashboard.js:309-310 | the first booking is kept in front of the filtered rest exactly when its status is listed |
| BusinessDashboard.PendingList | static/business_dashboard.js:309 | a booking is in the pending list exactly when it is one of the bookings and its status is `pending` or `assigned`; no booking appears more often than in the input |
| BusinessDashboard.ConfirmedList | static/business_dashboard.js:310 | a booking is in the confirmed list exactly when it is one of the bookings and its status is `in_progress` or `approved`; no booking appears more often than in the input |
| BusinessDashboard.ListsPartition | static/business_dashboard.js:305-310 | the pending and confirmed lists are disjoint and together hold exactly the bookings in the four statuses |
| BusinessDashboard.SplitByStatus | static/business_dashboard.js:309-310 | filtering by two disjoint status sets splits the filter by their union |
| BusinessDashboard.FilterCountsStatus | static/business_dashboard.js:141-150 | a one-status filter has as many entries as the status occurs |
| BusinessDashboard.BookingCounts | static/business_dashboard.js:141-150 | the two counters equal the number of 'pending' and of 'in_progress' bookings |
| BusinessDashboard.NewRequestsWithinPendingList | static/business_dashboard.js:141-150 | the new-requests counter never exceeds the pending list's length |
| Landing.Initial | static/script.js:634-649 | the loaded page: state "landing", one stacked and one history entry, no presses |
| Landing.ClosePanels | static/script.js:88-94 | `closeAllPanels` closes both panels and overlays |
| Landing.SidebarToggled | static/script.js:411-415 | from an open sidebar everything closes, otherwise only the sidebar and its overlay open |
| Landing.NotifyToggled | static/script.js:416-420 | from an open panel everything closes, otherwise only the notification panel and its overlay open |
| Landing.TogglesKeepOrder | static/script.js:411-420 | the toggles keep overlays matching their panels and at most one panel open |
| Landing.AfterPush | static/script.js:687-693 | no change when `v` is the current state; otherwise `v` is appended to the stack and to history and becomes current |
| Landing.PushIdempotent | static/script.js:687-688 | pushing the same state twice pushes it once |
| Landing.AfterHomeInternal | static/script.js:695-701 | only the landing view shows, panels close, and the state becomes "landing" |
| Landing.AfterLoginInternal | static/script.js:703-708 | only the login view shows and the current state is left unchanged |
| Landing.AfterInfoInternal | static/script.js:710-715 | only the info view shows and the current state is left unchanged |
| Landing.AfterExitPress | static/script.js:670-685 | a press within 2000 ms of the previous one counts up, any other press resets to 1; at 2 or more the page requests `history.back()`, otherwise it pushes "landing" |
| Landing.AfterHistoryNavigation | static/script.js:651-668 | 'landing' on landing is an exit press, elsewhere it goes home; 'login' on login goes home, elsewhere it shows login; 'info' shows info; no other name changes anything; no case pushes except through the exit press |
| Landing.AfterPop | static/script.js:642-648 | a payload with a view is routed, anything else is an exit press; the stack and history only grow |
| Landing.DoubleBackExits | static/script.js:673-681 | two presses less than 2000 ms apart request leaving the page |
| Landing.FirstPressOnLandingPushesNothing | static/script.js:670-693 | a first press while already on landing adds no history entry |
| Landing.LoginAgainGoesHomeSilently | static/script.js:658-661 | back to "login" while on "login" goes home and pushes nothing |
| Landing.AfterNavigateToLogin | static/script.js:717-726 | the login view shows with the mode set; the type is taken only outside register mode; "login" is pushed unless current |
| Landing.AfterNavigateToHome | static/script.js:728-732 | the override equals `navigateToHomeInternal` and never pushes |
| Landing.AfterNavigateToInfo | static/script.js:734-745 | all views hide; a known key shows the info view and pushes "info" unless current |
| Landing.StepKeepsInvariant | static/script.js:639-745 | one event keeps at most one view shown and only grows the stack and history |
| Landing.PushKeepsInvariant | static/script.js:687-693 | `pushHistoryState` of a known view keeps the invariant and only extends the stack and history |
| Landing.ExitPressKeepsInvariant | static/script.js:670-685 | `handleExitConfirmation` keeps the invariant and only extends the stack and history |
| Landing.ShowKeepsInvariant | static/script.js:88-94 | showing one view, or none, with both panels closed keeps the invariant |
| Landing.PopKeepsInvariant | static/script.js:642-668 | a `popstate` event, with or without a view in its state, keeps the invariant and only extends the stack and history |
| Landing.RunKeepsInvariant | static/script.js:639-745 | any sequence of events keeps the invariant |
| Landing.InitialInvariant | static/script.js:634-649 | the loaded page satisfies the invariant |
| Landing.ActiveForm | static/script.js:438-474 | register mode shows the society form; otherwise mode and user type pick one of the four, resident exactly for type "resident" |
| Landing.ActiveFormIsBusinessOtherwise | static/script.js:456-472 | any type other than "resident" gets a business form |
| Landing.RedirectToDashboard | static/script.js:147-157 | business type wins, then the admin role, then guard, else resident |
| Landing.CheckReset | static/script.js:599-612 | an empty field, then mismatched passwords, then a length below 6 are rejected in that order, before any request |
| Landing.LandingPage.constructor | static/script.js:634-649 | the page starts in the initial state, history replaced with "landing" |
| Landing.LandingPage.CloseAllPanels | static/script.js:88-94 | only the panels change, to `ClosePanels` of the old ones |
| Landing.LandingPage.PushHistoryState | static/script.js:687-693 | the page state becomes `AfterPush` of the old one |
| Landing.LandingPage.NavigateToHomeInternal | static/script.js:695-701 | the page state becomes `AfterHomeInternal` of the old one |
| Landing.LandingPage.ShowLoginViewInternal | static/script.js:703-708 | the page state becomes `AfterLoginInternal` of the old one |
| Landing.LandingPage.ShowInfoViewInternal | static/script.js:710-715 | the page state becomes `AfterInfoInternal` of the old one |
| Landing.LandingPage.HandleExitConfirmation | static/script.js:670-685 | the page state becomes `AfterExitPress` of the old one at time `now` |
| Landing.LandingPage.HandleHistoryNavigation | static/script.js:651-668 | the page state becomes `AfterHistoryNavigation` of the old one: "landing" while on landing is an exit press, else the home view; "login" while on login goes home and pushes "landing", else the login view; "info" shows the info view; any other name changes nothing |
| Landing.LandingPage.OnPopState | static/script.js:642-648 | a payload view is navigated to, anything else is an exit press |
| Landing.LandingPage.NavigateToLogin | static/script.js:717-726 | the page state becomes `AfterNavigateToLogin` of the old one |
| Landing.LandingPage.NavigateToHome | static/script.js:728-732 | the page state becomes `AfterNavigateToHome` of the old one |
| Landing.LandingPage.NavigateToInfo | static/script.js:734-745 | the page state becomes `AfterNavigateToInfo` of the old one |
| Landing.LandingPage.ToggleSidebar | static/script.js:411-415 | only the panels change, to `SidebarToggled` of the old ones |
| Landing.LandingPage.ToggleNotifications | static/script.js:416-420 | only the panels change, to `NotifyToggled` of the old ones |
| Landing.LandingPage.SetAuthMode | static/script.js:486 | the mode is stored and the form shown follows from the new mode and the old type |
| Landing.LandingPage.SetUserType | static/script.js:487 | the type is stored and the form shown follows from the old mode and the new type |
| Backend.FirstIndex | app.py:375 | `filter_by(...).first()`: none exactly when no row matches, otherwise the first matching row |
| Backend.Row | app.py:548 | `query.get(id)` finds a row exactly when the id is a primary key in range, and then it is the row with that id |
| Backend.Me | app.py:281-283 | `current_user` is a stored user, the one `query.get` finds for the session id |
| Backend.Blank | app.py:528 | `not value` holds for an absent field and for an empty string, and for nothing else |
| Backend.Caller | app.py:281-283 | the session names the logged-in user exactly when its id is the key of an existing user row |
| Backend.Memberships | app.py:403-408 | one business-society row per listed society, in order |
| Backend.Signup | app.py:371-450 | a taken email gives 400 and no change; otherwise the user is appended with the given email, password, name, type, society and flat, role defaulting to resident, approved exactly when it is a business; a business gets its society rows and is logged in; anyone else gets exactly one pending approval request and stays logged out; the token, society, request, upvote, visitor, group and message tables stay |
| Backend.Login | app.py:453-486 | 401 exactly when the first user with the email does not exist or its password is wrong; 200 exactly when it also is approved, which sets the session to that user; 403 otherwise |
| Backend.Logout | app.py:489-493 | 302 exactly for an anonymous caller; a logged-in caller's session is cleared |
| Backend.SignupKeepsEmailsUnique | app.py:375-379 | signup keeps emails unique |
| Backend.SignupThenLogin | app.py:371-486 | logging in right after signup succeeds for a business and gives 403 for anyone else |
| Backend.ForgotPassword | app.py:496-520 | an unknown email answers 200 with no change; a colliding token fails the unique constraint (500); otherwise one unused token row is added for the first user with that email |
| Backend.ResetPassword | app.py:523-562 | a missing or empty field, or no unused row with the token, gives 400; the first unused row with the token older than 3600 s gives 400; 200 exactly when both fields are given and that row is at most 3600 s old with an existing user, and then exactly the password changes and the row is marked used; 404 exactly when its user is missing |
| Backend.ForgotPasswordKeepsTokensUnique | app.py:286-291 | issuing tokens keeps them unique |
| Backend.ResetPasswordKeepsTokensUnique | app.py:286-291 | resetting keeps tokens unique |
| Backend.ResetTokenSingleUse | app.py:535-557 | after a successful reset the same token is refused with no change, whatever comes next |
| Backend.ForgotThenReset | app.py:496-557 | a freshly issued token resets the password when used within the hour |
| Backend.ExpiredTokenRefused | app.py:542-546 | more than 3600 s after issue the token is refused |
| Backend.Promote | app.py:643-668 | 302 exactly for an anonymous caller; 403 exactly when the caller is not the main admin; 404 exactly for a target outside the society; otherwise 200 and the target becomes admin without the main-admin flag |
| Backend.Demote | app.py:671-701 | 302 exactly for an anonymous caller; the same 403 and 404 cases; 400 with no change for the main admin; otherwise 200 and the target becomes a resident |
| Backend.TransferMainAdmin | app.py:704-735 | 302 exactly for an anonymous caller; the 403 and 404 cases of promotion; otherwise the caller's flag is cleared, the target gets the admin role and the flag, the first society the caller administers passes to the target, and no other society, user or table changes |
| Backend.DemoteAdmin | app.py:2940-2959 | 302 exactly for an anonymous caller; 403 for a non-admin caller; 404 unless the target is an admin of the society; 400 for self; otherwise 200 and the role becomes resident |
| Backend.MainAdminNotDemoted | app.py:689-694 | `demote_user` never changes a main admin and never answers 200 |
| Backend.CoAdminDemotesMainAdmin | app.py:2950-2957 | a co-admin can demote the main admin through `demote_admin`; the flag stays |
| Backend.TransferMovesFlag | app.py:719-721 | after a transfer the target holds the flag and the admin role, and another caller no longer holds the flag |
| Backend.AdminRoutesKeepOneMainAdmin | app.py:643-735 | none of the four admin routes gives a society two main admins |
| Backend.FlagsOnlyCleared | app.py:643-701 | rewriting one user without moving it to another society or giving it the flag keeps one main admin per society |
| Backend.TransferKeepsOneMainAdmin | app.py:704-735 | after a transfer the target is the only flag holder of the caller's society |
| Backend.Engage | app.py:823-858 | 302 exactly for an anonymous caller; 404 exactly for a missing request; 403 exactly for a non-resident or another society; 400 exactly for a non-public request; otherwise only `engaged` is set |
| Backend.MayAssign | app.py:873-884 | a public request may be assigned exactly by an admin of its society, any other exactly by its creator; so a non-admin may assign only requests they created |
| Backend.Assign | app.py:861-900 | 302 exactly for an anonymous caller; 404 exactly for a missing request; a public request needs an admin of its society and any other its creator (403); 400 exactly when the target is not a business user; then it is assigned and set pending |
| Backend.AssignedOnly | app.py:908-919 | 404 for a missing request; 403 exactly when it is not assigned to the caller; otherwise only that request changes |
| Backend.Approve | app.py:903-929 | only the assigned business succeeds; the request becomes in progress with the given schedule |
| Backend.Deny | app.py:932-956 | only the assigned business succeeds; the assignment is cleared and the request is pending again |
| Backend.Complete | app.py:959-982 | only the assigned business succeeds; the request becomes completed |
| Backend.AssignThenApprove | app.py:861-929 | the business a request was assigned to can approve it |
| Backend.DenyReleases | app.py:932-982 | after denying, the business can no longer approve, deny or complete the request |
| Backend.UnassignedIsLocked | app.py:903-982 | a request assigned to no one cannot be approved, denied or completed |
| Backend.UpvoteRequest | app.py:3748-3772 | 302 exactly for an anonymous caller; 404 exactly for a missing request; a repeat by the same user is 400 with no change; otherwise exactly one upvote row is added and the counter goes up by one |
| Backend.UpvoteOnce | app.py:3755-3766 | the second upvote by the same user is refused and the count stays one above the original |
| Backend.UpvoteKeepsCounts | app.py:351-356 | upvoting keeps every counter equal to its number of rows and the rows unique per user and request |
| Backend.Clamp | app.py:1292-1296 | the limit is 50 when missing or not an integer, `min(max(n, 1), 200)` otherwise, so always in [1, 200] |
| Backend.InGroup | app.py:1311-1313 | every message of the group is kept and no other message is; a single message is kept exactly when it belongs to the group |
| Backend.InGroupConcat | app.py:1311-1313 | filtering a concatenation is concatenating the filtered parts, so the group's messages keep their order and duplicates |
| Backend.InGroupSnoc | app.py:1311-1313 | one step of the filter: a message appended at the end is kept exactly when it is of the group |
| Backend.GetMessages | app.py:1288-1326 | the code is 302, 404, 403 or 200: 302 exactly for an anonymous caller, 404 exactly for a missing or unknown group, 403 exactly for another society's group; otherwise the group's newest `Clamp(limit)` messages, oldest first |
| Backend.NewestInOrder | app.py:1311-1315 | taking the newest n messages newest first and reversing them gives the last n messages in insertion order |
| Backend.TakeOfReversed | app.py:1311-1315 | reversing the first n of a reversed list gives the list's last n elements |
| Backend.AskPermission | app.py:1706-1732 | 302 exactly for an anonymous caller; 403 exactly for a non-guard; 404 exactly for a visitor outside the society; otherwise 200 with permission pending and status permission requested |
| Backend.RespondPermission | app.py:1791-1839 | 302 exactly for an anonymous caller; only a resident (403); only for the own flat number (404); 200 exactly for 'allow' or 'deny', which set both fields; any other action is 400 with no change |
| Backend.VisitorExit | app.py:1842-1868 | 302 exactly for an anonymous caller; 403 exactly for a non-guard; 404 exactly for a visitor outside the society; otherwise 200, the exit time is set and the status becomes exited |
| Backend.PreApprove | app.py:1871-1907 | 302 exactly for an anonymous caller; only a resident (403); a resident without flat or society fails the insert (500); otherwise 200 and the visitor is created for the resident's flat and society, pre-approved and allowed |
| Backend.VerifyQr | app.py:2012-2086 | 302 exactly for an anonymous caller; only a guard; malformed JSON is 400 and the other parse failures 500; a falsy id 400, unknown 404, another society 403, exited 400; 200 exactly for a guard's scan of a non-exited visitor of the society, which records the guard and entry time and turns only a pre-approved status into allowed |
| Backend.PreApproveThenScan | app.py:1871-2086 | a pre-approved visitor scanned by a guard of the same society ends up allowed |
| Backend.ExitThenScanRefused | app.py:1842-2086 | once the exit is logged, every later scan of that visitor is refused with no change |
| Backend.RespondIgnoresSociety | app.py:1803-1813 | a resident whose flat number matches can allow a visitor of any society, whatever its status |
| Backend.MayOpen | app.py:2617-2656 | the resident dashboard admits resident-type users with role resident or admin, the admin dashboard role admin, the guard dashboard role guard, the business dashboard business-type users; a resident-type guard may open only the guard dashboard |
| Backend.DashboardPage | app.py:2617-2656 | anonymous requests go to the login view; unapproved users and users of the wrong kind go to "/"; otherwise the dashboard renders |
| Backend.LandingRedirectRenders | app.py:2617-2656 | the dashboard the landing page redirects an approved user to renders exactly for businesses, admins, guards and resident-type residents |
| BackendStore.Store.constructor | app.py:359-360 | the store holds the given tables and session |
| BackendStore.Store.Signup | app.py:371-450 | the code and tables are those of `Backend.Signup`; the society rows are added one per loop iteration |
| BackendStore.Store.AddMemberships | app.py:401-408 | the loop appends one `BusinessSociety` row per listed society, in order, and changes no other table |
| BackendStore.Store.Login | app.py:453-486 | the code and tables are those of `Backend.Login` |
| BackendStore.Store.Logout | app.py:489-493 | the code and tables are those of `Backend.Logout` |
| BackendStore.Store.ForgotPassword | app.py:496-520 | the code and tables are those of `Backend.ForgotPassword` |
| BackendStore.Store.ResetPassword | app.py:523-562 | the code and tables are those of `Backend.ResetPassword` |
| BackendStore.Store.Promote | app.py:643-668 | the code and tables are those of `Backend.Promote` |
| BackendStore.Store.Demote | app.py:671-701 | the code and tables are those of `Backend.Demote` |
| BackendStore.Store.TransferMainAdmin | app.py:704-735 | the code and tables are those of `Backend.TransferMainAdmin`, with the writes in the handler's order |
| BackendStore.Store.DemoteAdmin | app.py:2940-2959 | the code and tables are those of `Backend.DemoteAdmin` |
| BackendStore.Store.Engage | app.py:823-858 | the code and tables are those of `Backend.Engage` |
| BackendStore.Store.Assign | app.py:861-900 | the code and tables are those of `Backend.Assign` |
| BackendStore.Store.CheckAssigned | app.py:908-919 | OK exactly when the request is assigned to the caller, otherwise the guard's error code |
| BackendStore.Store.Approve | app.py:903-929 | the code and tables are those of `Backend.Approve` |
| BackendStore.Store.Deny | app.py:932-956 | the code and tables are those of `Backend.Deny` |
| BackendStore.Store.Complete | app.py:959-982 | the code and tables are those of `Backend.Complete` |
| BackendStore.Store.UpvoteRequest | app.py:3748-3772 | the code and tables are those of `Backend.UpvoteRequest` |
| BackendStore.Store.AskPermission | app.py:1706-1732 | the code and tables are those of `Backend.AskPermission` |
| BackendStore.Store.RespondPermission | app.py:1791-1839 | the code and tables are those of `Backend.RespondPermission` |
| BackendStore.Store.VisitorExit | app.py:1842-1868 | the code and tables are those of `Backend.VisitorExit` |
| BackendStore.Store.PreApprove | app.py:1871-1907 | the code and tables are those of `Backend.PreApprove` |
| BackendStore.Store.VerifyQr | app.py:2012-2086 | the code and tables are those of `Backend.VerifyQr` |

## Left out

- `fetch` calls and response rendering (`innerHTML` templates, icons, toasts, animations, scrolling) are left out; they are DOM and network plumbing. A search outcome and a toast are values.
- Floating-point money, rating averages and earnings are left out.
- Socket.IO emits, `log_activity`, QR image generation, the Google OAuth client, the seed script and the database URL selection are left out; they are I/O with no rule to state.
- The clock, `confirm()` answers, drawn reset tokens and `toLocaleTimeString` output are left out as sources; each is a parameter.
- `get_messages` orders by `created_at`. The model takes the message table in insertion order as that order, so ties between equal timestamps are not modelled.
- Password hashing is abstract: a stored value compared by equality.
- Request bodies missing a required key are not modelled; Flask answers those 500. Each body is a record of its fields, with optional keys as `Option`. JSON null for an optional key is treated as the key missing.
- Row ids are positions in a table. No modelled route deletes rows, and other routes (visitor creation by guards, request creation, payments, announcements, chat posting) are not modelled.
- For `verify_visitor_qr` the JSON id is an integer or absent. A string or other non-integer id is not modelled.
- Each getElementById target is taken to be one of the page's `.view-section` elements, so "the element exists" means "the id is a section".
- JavaScript object-prototype keys such as "constructor" are not modelled: the model does not treat them as keys of the icon map or of `pageData`.
- `toLowerCase` changes only the letters A to Z in the model. The search keywords are plain ASCII, so matching is unaffected.
- The browser's history cursor is not modelled: `history.back()` is a recorded request, and what the browser then delivers is the next `popstate` event.
- `business_dashboard.js` calls `initBusinessNotifications` and `initBusinessRating` during load, but neither is defined in that file. Their markup is not part of this model; it assumes load completes.
- The resident page's `[aria-label="Notifications"]` button is assumed to be a different element from the header bell.
- In `showPage` the tab content is assumed to belong to the same group as its tab button.
- Panels.HeaderToggle: the admin and resident header bells toggle each class on its own. The model flips the flags independently, without assuming the drawer and its overlay agree.
- The dashboards' `navigateToInfo` (for instance `static/admin_dashboard.js:2037-2048`) and the resident page's `showPastActivitiesPage` (`static/resident_dashboard.js:762-766`) switch the shown view without updating `currentView` or the history. They are not modelled, so the router's "only the current view is active" holds for the runs of `navigateToView` and the `popstate` listener that the model covers, not after one of those calls.
