/** The partial refresh (`_getGridAndPagination`): the request goes out, and
    its success callback overwrites the grid and pagination regions of the
    live page with those of the response, then fires the completion event. */
module Refresh {
  import opened Js
  import Dispatch
  import SortLink

  /** The live page: the grid region's content, the pagination region's
      content, and everything else. */
  datatype Page = Page(grid: string, pagination: string, rest: string)

  /** A response as far as the callback reads it: the content of its grid
      region and of its pagination region, each of which may be missing. */
  datatype Fragment = Fragment(grid: Option<string>, pagination: Option<string>)

  predicate Complete(f: Fragment) {
    f.grid.Some? && f.pagination.Some?
  }

  /** The page after the success callback. A region the response lacks is
      left as it was (see README: its contract is deliberately silent). */
  function Splice(p: Page, f: Fragment): (r: Page)
    ensures r.rest == p.rest
    ensures f.grid.Some? ==> r.grid == f.grid.value
    ensures f.pagination.Some? ==> r.pagination == f.pagination.value
  {
    Page(if f.grid.Some? then f.grid.value else p.grid,
         if f.pagination.Some? then f.pagination.value else p.pagination,
         p.rest)
  }

  /** `if (callback != undefined) self._trigger(callback, ...)` */
  function Completion(callback: Option<string>): (events: seq<string>)
    ensures |events| <= 1
    ensures events == [] <==> callback.None?
    ensures callback.Some? ==> events == [callback.value]
  {
    if callback.Some? then [callback.value] else []
  }

  /** Whatever the page held before, a complete response decides both
      regions: the last complete response to arrive is what shows. */
  lemma LastCompleteResponseWins(p: Page, q: Page, f: Fragment)
    requires Complete(f)
    requires p.rest == q.rest
    ensures Splice(p, f) == Splice(q, f)
  {
  }

  /** Refreshing twice is refreshing once with the later response, when the later one is complete. */
  lemma SpliceOverwrites(p: Page, f1: Fragment, f2: Fragment)
    requires Complete(f2)
    ensures Splice(Splice(p, f1), f2) == Splice(p, f2)
  {
  }

  /** Every interaction that refreshes fires exactly its own completion event. */
  lemma OneEventPerTrigger(t: Dispatch.Trigger, paramName: string)
    requires SortLink.IsPlainName(paramName)
    ensures var events := Completion(Dispatch.CallFor(t, paramName).callback);
      |events| == 1 &&
      events[0] == (match t
        case SortClick(_) => "afterColumnSort"
        case PageClick(_) => "afterPagination"
        case SearchSubmit(_, _) => "afterSearch")
  {
  }

  /** The grid container as the page shows it, and the events the widget has fired. */
  class GridView {
    var page: Page
    var fired: seq<string>

    constructor (initial: Page)
      ensures page == initial && fired == []
    {
      page := initial;
      fired := [];
    }

    /** `_getGridAndPagination(href, params, gridContainer, callback, method)`:
        sends the request, and when the server answers with `response`,
        overwrites the two regions and fires the named event, if any. */
    method GetGridAndPagination(c: Dispatch.Call, response: Fragment) returns (sent: Dispatch.Request)
      modifies this
      ensures sent == Dispatch.RequestFor(c)
      ensures page == Splice(old(page), response)
      ensures fired == old(fired) + Completion(c.callback)
    {
      sent := Dispatch.RequestFor(c);
      if response.grid.Some? {
        page := page.(grid := response.grid.value);
      }
      if response.pagination.Some? {
        page := page.(pagination := response.pagination.value);
      }
      if c.callback.Some? {
        fired := fired + [c.callback.value];
      }
    }
  }
}
