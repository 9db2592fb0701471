/**
 * The browser's session history as the pages use it: `history.pushState`,
 * `history.replaceState` and `history.back`. Only the state payloads (the view
 * names) the page writes are kept; which entry the browser is showing, and the
 * forward entries it drops on a push, belong to the browser and are not
 * modelled: a back or forward press reaches the page as a `popstate` event
 * whose payload is an input.
 */
module SessionHistory {

  class BrowserHistory {
    /** The payloads written by this page, oldest first. */
    var entries: seq<string>
    /** How many times the page asked the browser to go back. */
    var backRequests: nat

    constructor ()
      ensures entries == [] && backRequests == 0
    {
      entries := [];
      backRequests := 0;
    }

    /** `history.pushState({view: v}, ...)`: one entry more, on top. */
    method Push(v: string)
      modifies this
      ensures entries == old(entries) + [v]
      ensures backRequests == old(backRequests)
    {
      entries := entries + [v];
    }

    /** `history.replaceState({view: v}, ...)`: the top entry's payload becomes `v`
        (the page's own load entry is the top when nothing was pushed yet). */
    method Replace(v: string)
      modifies this
      ensures entries == (if old(entries) == [] then [v] else old(entries)[..|old(entries)| - 1] + [v])
      ensures backRequests == old(backRequests)
    {
      if entries == [] {
        entries := [v];
      } else {
        entries := entries[..|entries| - 1] + [v];
      }
    }

    /** `history.back()`: only the request is recorded; what the browser does next
        arrives, if at all, as a later `popstate` event. */
    method Back()
      modifies this
      ensures entries == old(entries)
      ensures backRequests == old(backRequests) + 1
    {
      backRequests := backRequests + 1;
    }
  }
}
