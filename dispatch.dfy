/** Which request each hijacked interaction sends (`_doColumnSort`,
    `_doPagination`, `_getSearchResults`, and the choice of loader in
    `_getGridAndPagination`). */
module Dispatch {
  import opened Js
  import SortLink

  /** The interactions that end in a partial refresh. */
  datatype Trigger =
    | SortClick(href: string)
    | PageClick(href: string)
      // the form's `action` attribute, which may be missing, and its serialisation
    | SearchSubmit(action: Option<string>, fields: string)

  /** The request data: the empty object `{}` or a serialised form. */
  datatype Params = NoParams | Form(body: string)

  datatype HttpMethod = Get | Post

  /** The arguments of a `_getGridAndPagination` call. */
  datatype Call = Call(href: Option<string>, params: Params, callback: Option<string>, methodName: Option<string>)

  /** What goes to the server, and which event is due on completion. */
  datatype Request = Request(url: Option<string>, params: Params, verb: HttpMethod, completion: Option<string>)

  const AfterColumnSort := "afterColumnSort"
  const AfterPagination := "afterPagination"
  const AfterSearch := "afterSearch"

  /** `(method == 'post') ? $.post : $.get` */
  function LoadMethod(methodName: Option<string>): (m: HttpMethod)
    ensures m == Post <==> methodName == Some("post")
  {
    if methodName == Some("post") then Post else Get
  }

  /** The `_getGridAndPagination` call each handler makes: every one names a
      completion event, only the search asks for POST and sends data, and a
      sort link is never made longer. */
  function CallFor(t: Trigger, paramName: string): (c: Call)
    requires SortLink.IsPlainName(paramName)
    ensures c.callback.Some?
    ensures c.methodName == Some("post") <==> t.SearchSubmit?
    ensures c.params.Form? <==> t.SearchSubmit?
    ensures t.SortClick? ==> c.href.Some? && |c.href.value| <= |t.href|
    ensures t.PageClick? ==> c.href == Some(t.href)
    ensures t.SearchSubmit? ==> c.href == t.action
  {
    match t
    case SortClick(href) => Call(Some(SortLink.StripParam(href, paramName)), NoParams, Some(AfterColumnSort), None)
    case PageClick(href) => Call(Some(href), NoParams, Some(AfterPagination), None)
    case SearchSubmit(action, fields) => Call(action, Form(fields), Some(AfterSearch), Some("post"))
  }

  /** The request a call sends: its URL, data and completion event as given,
      by POST exactly when the method argument is `'post'`. */
  function RequestFor(c: Call): (r: Request)
    ensures r.url == c.href && r.params == c.params && r.completion == c.callback
    ensures r.verb == Post <==> c.methodName == Some("post")
  {
    Request(c.href, c.params, LoadMethod(c.methodName), c.callback)
  }

  /** From interaction to request: only a search is sent by POST. */
  function Dispatch(t: Trigger, paramName: string): (r: Request)
    requires SortLink.IsPlainName(paramName)
    ensures r.verb == Post <==> t.SearchSubmit?
    ensures r.completion.Some?
  {
    RequestFor(CallFor(t, paramName))
  }

  /** The request table: sort clicks GET the link without its leftmost page
      parameter, pagination clicks GET the link as it is, searches POST the
      serialised form to the form's action; each names its completion event. */
  lemma DispatchTable(t: Trigger, paramName: string)
    requires SortLink.IsPlainName(paramName)
    ensures var r := Dispatch(t, paramName);
      && (r.verb == Post <==> t.SearchSubmit?)
      && (r.params == NoParams <==> !t.SearchSubmit?)
      && r.completion.Some?
      && match t
         case SortClick(href) =>
           r.url == Some(SortLink.StripParam(href, paramName)) && r.completion == Some("afterColumnSort")
         case PageClick(href) =>
           r.url == Some(href) && r.completion == Some("afterPagination")
         case SearchSubmit(action, fields) =>
           r.url == action && r.params == Form(fields) && r.completion == Some("afterSearch")
  {
  }

  /** A sort link without a page parameter is requested unchanged; one with
      it is requested shorter. */
  lemma SortRequestUrl(href: string, paramName: string)
    requires SortLink.IsPlainName(paramName)
    ensures Dispatch(SortClick(href), paramName).url == Some(href) <==> !SortLink.HasMatch(href, paramName)
  {
  }
}
