# jQuery AJAX data grid widget — a Dafny model of its logic

The widget (`$.ui.ajaxgrid`, in `jquery-ajaxgrid.js`) attaches to a data-grid
container and turns its column-sort links, pagination links and search form
into partial refreshes: it sends the request itself and, when the server
answers, replaces only the grid and pagination regions of the page with those
of the response. With `search.filterResults` on, typing in the search field
submits the search after a pause; with autocomplete on, the search field gets
suggestions, rendered by default as edit links.

Almost all of the file hands work to jQuery and jQuery UI. This model covers
the logic that is the widget's own:

- `sort_link.dfy` (module `SortLink`): the sort-link rewrite of
  `_doColumnSort`. The pattern `(&){0,1}<name>=(\d+)`, case-insensitive and
  without the global flag, is matched by an explicit leftmost search (optional
  `&` tried first, ASCII case folding of the name, `=`, a greedy run of at least
  one digit), and its leftmost match is removed.
- `dispatch.dfy` (module `Dispatch`): which request each interaction sends —
  URL, parameters, GET or POST, completion event.
- `refresh.dfy` (module `Refresh`): the success callback of
  `_getGridAndPagination`. The page is a record of grid, pagination and the
  rest; the response a fragment whose two regions may each be missing. The
  class `GridView` holds the live page and the fired events and overwrites them
  in place; the network answer is a parameter of its method.
- `debounce.dfy` (module `Debounce`): filter-as-you-type. The class
  `Debouncer` holds the `typingTimer` slot of one run of `_init` (a second
  run binds a second handler pair with a slot of its own) and counts
  submitter calls; its
  methods `KeyUp`, `KeyDown` and `Fire` are proved against a pure step function
  `Step`, about whose runs `Run` the lemmas speak. Time is abstract: `Fire` is
  the expiry of the pending timer.
- `grid_init.dfy` (module `GridInit`): `_init`. The function `InitActions`
  lists what it wires, in order, and `InitOptions` gives the options after the
  defaults are installed; the class `AjaxGrid` has the imperative `Init`,
  which updates its options in place step by step and is proved to agree with
  both.
- `autocomplete.dfy` (module `Autocomplete`): the URL suggestions come from,
  and the default suggestion rendering — `name`/`Name` and `id`/`ID` fallbacks by
  JavaScript truthiness, and the link `pathname + '/edit/' + id`.
- `js.dfy` (module `Js`): `Option`, and the JavaScript values, truthiness and
  string conversion (safe integers in decimal) the rendering depends on.

The page path (`window.location.pathname`), the response of the server, and
the facts `_init` reads from the page (the data attribute, the number of forms
found) are parameters.

What the code does, as the model states it:

- Only the leftmost match of the sort-link pattern is removed, so a second
  occurrence of the page parameter stays in the requested URL
  (`SortLink.SecondPageKept`, `SortLink.LaterOccurrenceKept`). A leading
  `?page=3&sort=x` becomes `?&sort=x`. The pattern has no boundary before the
  name, so `mypage=2` loses its `page=2` (`SortLink.SuffixOfLongerNameRemoved`).
- The typing delay is fixed at 500 ms (line 149). The submitter serialises
  the form when the timer fires, not when the key is released.
- The submit handler is bound on the search form (line 109), and the keyup
  and keydown handlers on the search fields inside it (lines 152 and 165),
  both as found at `_init` time, not delegated from the document.
- `jquery-ajaxgrid.js` has no reset link, no public `refresh` and no
  custom-events hook, and its `destroy` is empty.

## Model

| member | source | states |
|---|---|---|
| `Js.Decimal` | jquery-ajaxgrid.js:221 | the text of a natural number is a non-empty digit string with no leading zero |
| `Js.DecimalRoundTrip` | jquery-ajaxgrid.js:221 | reading that digit string back gives the number |
| `Js.Truthy` | jquery-ajaxgrid.js:220-221 | a value is falsy exactly when it is `undefined`, `null`, `false`, `''` or `0` |
| `Js.ToText` | jquery-ajaxgrid.js:221-222 | a string converts to itself; an integer to its decimal digits, with no leading zero unless it is 0, which read back as its magnitude, after a `-` exactly when it is negative |
| `Js.Or` | jquery-ajaxgrid.js:220-221 | `a ? a : b` is `a` when `a` is truthy and `b` otherwise |
| `SortLink.NameAt` | jquery-ajaxgrid.js:229 | the name can match only where it fits in the rest of the link |
| `SortLink.NameAtMeans` | jquery-ajaxgrid.js:229 | the name matches at i exactly when it fits there and each of its characters equals the link's, ignoring ASCII case |
| `SortLink.DigitsEnd` | jquery-ajaxgrid.js:229 | `\d+` is greedy: everything up to the end is a digit and the next character is not |
| `SortLink.ParamEnd` | jquery-ajaxgrid.js:229 | a `name=\d+` match starting at j ends after the name, `=` and at least one digit |
| `SortLink.MatchAt` | jquery-ajaxgrid.js:229 | a match anchored at i, with the optional `&` tried first, spans at least the name, `=` and one digit |
| `SortLink.HasMatch` | jquery-ajaxgrid.js:232 | `link.match(regex)` succeeds only on a link long enough for the name, `=` and a digit |
| `SortLink.FindFrom` | jquery-ajaxgrid.js:232-233 | the match found is a match and no position between the start of the search and it starts one; none found means no position does |
| `SortLink.LeftmostMatch` | jquery-ajaxgrid.js:232 | there is no leftmost match exactly when the link holds no match at all |
| `SortLink.StripParam` | jquery-ajaxgrid.js:228-234 | the requested URL equals the link exactly when the link holds no optional-`&` + name + `=` + digits; it is never longer |
| `SortLink.AmpersandBranch` | jquery-ajaxgrid.js:229 | at an `&` only the `&` branch of the pattern can match, since the name begins with a letter, digit or `_` |
| `SortLink.MatchShape` | jquery-ajaxgrid.js:229 | every match is an optional `&`, the name in any ASCII case, `=`, and all the digits that follow, at least one |
| `SortLink.ShapeIsMatch` | jquery-ajaxgrid.js:229 | conversely, every stretch of that shape is the match the pattern finds at its start |
| `SortLink.LeftmostMatchRemoved` | jquery-ajaxgrid.js:229-234 | the removed span is the leftmost match, of that shape; an `&` just before the name is removed with it; the text before and after is kept verbatim |
| `SortLink.LaterOccurrenceKept` | jquery-ajaxgrid.js:229-233 | with no global flag, any later match is still a match in the requested URL, shifted by the removed length |
| `SortLink.SortLinkDropsTrailingPage` | jquery-ajaxgrid.js:225-237 | `/items?sort=name&page=3` is requested as `/items?sort=name` |
| `SortLink.NonNumericPageKept` | jquery-ajaxgrid.js:229 | `page=abc` is not a match and the link is requested unchanged |
| `SortLink.SecondPageKept` | jquery-ajaxgrid.js:229-233 | `?page=1&PAGE=2` is requested as `?&PAGE=2`: the second occurrence stays |
| `SortLink.SuffixOfLongerNameRemoved` | jquery-ajaxgrid.js:229-233 | `?sort=a&mypage=2` is requested as `?sort=a&my`: the pattern has no boundary before the name |
| `Dispatch.LoadMethod` | jquery-ajaxgrid.js:253 | the request is POST exactly when the method argument is `'post'`, GET otherwise |
| `Dispatch.CallFor` | jquery-ajaxgrid.js:176-244 | each handler names a completion event; only the search asks for POST and sends the form; a sort link is never made longer; pagination uses the link and search the form's action |
| `Dispatch.RequestFor` | jquery-ajaxgrid.js:246-256 | the request carries the call's URL, data and completion event, and is a POST exactly when the method argument is `'post'` |
| `Dispatch.Dispatch` | jquery-ajaxgrid.js:176-256 | an interaction is sent by POST exactly when it is a search, and always names a completion event |
| `Dispatch.DispatchTable` | jquery-ajaxgrid.js:176-244 | sort: GET of the stripped link, `{}`, `afterColumnSort`; pagination: GET of the link, `{}`, `afterPagination`; search: POST of the serialised form to its action, `afterSearch`; POST exactly for search |
| `Dispatch.SortRequestUrl` | jquery-ajaxgrid.js:225-238 | a sort click requests the link unchanged exactly when it holds no page parameter match |
| `Refresh.Splice` | jquery-ajaxgrid.js:256-262 | after the callback the grid region holds the response's grid content and the pagination region its pagination content; the rest of the page is unchanged |
| `Refresh.Completion` | jquery-ajaxgrid.js:264-266 | the completion event fires once, and only when a callback name was given |
| `Refresh.LastCompleteResponseWins` | jquery-ajaxgrid.js:256-262 | a response with both regions determines the page whatever it showed before, apart from the untouched rest |
| `Refresh.SpliceOverwrites` | jquery-ajaxgrid.js:256-262 | two refreshes in a row, the second complete, leave what the second alone would |
| `Refresh.OneEventPerTrigger` | jquery-ajaxgrid.js:176-266 | each of sort, pagination and search fires exactly its own completion event |
| `Refresh.GridView.constructor` | jquery-ajaxgrid.js:250-252 | the view shows the given page and no event has fired |
| `Refresh.GridView.GetGridAndPagination` | jquery-ajaxgrid.js:246-268 | sends the request of the call; overwrites the two regions as `Splice` says; appends the completion event, if named, to the fired events |
| `Debounce.Step` | jquery-ajaxgrid.js:152-167 | after one input a timer is pending exactly when it was a keyup; at most one submission; ids only grow; the pending timer stays the last one started |
| `Debounce.Run` | jquery-ajaxgrid.js:152-167 | a run of inputs starts one new timer per keyup and never undoes a submission |
| `Debounce.StepFacts` | jquery-ajaxgrid.js:152-167 | a keyup leaves a new timer pending in place of any earlier one, a keydown and an expiry leave none, an expiry submits exactly when a timer was pending; the pending timer is always the last one started |
| `Debounce.RunAppend` | jquery-ajaxgrid.js:152-167 | running two input sequences one after the other is running their concatenation |
| `Debounce.RunWellFormed` | jquery-ajaxgrid.js:148-167 | at most one timer is pending, and it is the one started last, after any sequence of inputs |
| `Debounce.SubmitsAtMostExpiries` | jquery-ajaxgrid.js:159-161 | a sequence of inputs submits at most once per expiry |
| `Debounce.SubmitsAtMostKeyUps` | jquery-ajaxgrid.js:158-161 | a sequence of inputs submits at most once per keyup, plus once for a timer pending at the start |
| `Debounce.TypingDoesNotSubmit` | jquery-ajaxgrid.js:152-167 | keyups and keydowns alone submit nothing, and leave a timer pending exactly when the last of them was a keyup |
| `Debounce.ExpiriesWhenIdle` | jquery-ajaxgrid.js:159-161 | with no timer pending, expiries change nothing |
| `Debounce.BurstThenPause` | jquery-ajaxgrid.js:148-167 | a burst of key events followed by a pause submits exactly once if the last was a keyup and never if it was a keydown |
| `Debounce.Debouncer.constructor` | jquery-ajaxgrid.js:148 | the slot starts empty with no submission |
| `Debounce.Debouncer.KeyUp` | jquery-ajaxgrid.js:152-162 | clears the slot and puts a new timer in it; no submission |
| `Debounce.Debouncer.KeyDown` | jquery-ajaxgrid.js:165-167 | clears the slot; no submission |
| `Debounce.Debouncer.Fire` | jquery-ajaxgrid.js:159-161 | the pending timer's expiry runs the submitter once and empties the slot; with nothing pending nothing happens |
| `GridInit.AutocompleteUrl` | jquery-ajaxgrid.js:135-137 | the worker gets the configured URL, or `pathname + '/search'` when it is null |
| `GridInit.InitOptions` | jquery-ajaxgrid.js:91-141 | with a search form a submitter is set, and with autocomplete on a worker and renderer too; the switches, the URL and the select handler are untouched |
| `GridInit.InitActions` | jquery-ajaxgrid.js:75-174 | `afterInit` is always the last effect, and without a search form only the two click bindings precede it |
| `GridInit.AfterInitLast` | jquery-ajaxgrid.js:75-174 | the sort and pagination clicks are always bound first, and `afterInit` is triggered last, exactly once, whichever branches ran |
| `GridInit.NoSearchFormNoSearchWiring` | jquery-ajaxgrid.js:91-96 | submit, autocomplete and filter wiring happen only when the container has the search data attribute and its selector finds a form; otherwise no option changes |
| `GridInit.FormSubmitBinding` | jquery-ajaxgrid.js:101-113 | the default submitter is installed and the form's submit bound exactly when no submitter was supplied; a supplied one gets no submit binding |
| `GridInit.AutocompleteGate` | jquery-ajaxgrid.js:118-141 | the worker runs exactly when autocomplete is enabled, with the supplied or built-in worker and the configured or derived URL |
| `GridInit.DefaultsOnlyWhenAbsent` | jquery-ajaxgrid.js:120-132 | the built-in worker and renderer are installed only when absent and autocomplete is reached; supplied ones and the other options are untouched |
| `GridInit.FilterGate` | jquery-ajaxgrid.js:145-168 | keyup and keydown are bound exactly when filtering is on, and the submitter the timer calls is then set |
| `GridInit.ReInit` | jquery-ajaxgrid.js:101-132 | a second `_init` changes no option and binds no form submit |
| `GridInit.DefaultsWithSearchForm` | jquery-ajaxgrid.js:31-68 | with the default options and a search form: clicks, form submit, the built-in worker at `pathname + '/search'`, then `afterInit` |
| `GridInit.AjaxGrid.constructor` | jquery-ajaxgrid.js:31-68 | the widget holds the options it was created with and has wired nothing |
| `GridInit.AjaxGrid.Init` | jquery-ajaxgrid.js:75-174 | updating the options in place step by step ends in `InitOptions` and performs exactly `InitActions`, in order |
| `GridInit.AjaxGrid.HijackSubmit` | jquery-ajaxgrid.js:101-113 | a missing submitter is replaced by the built-in one and the form's submit is bound; a supplied one is kept and nothing is bound |
| `GridInit.AjaxGrid.AttachAutocomplete` | jquery-ajaxgrid.js:118-141 | when enabled, a missing worker and renderer are replaced by the built-in ones and the worker is called with the configured URL or `pathname + '/search'`; otherwise nothing changes |
| `GridInit.AjaxGrid.FilterResults` | jquery-ajaxgrid.js:145-168 | keyup and keydown are bound exactly when filtering is on; no option changes |
| `Autocomplete.SourceUrl` | jquery-ajaxgrid.js:187 | a configured URL is used; otherwise the form's action, and there is no URL only when both are missing |
| `Autocomplete.InitUrlIsSource` | jquery-ajaxgrid.js:136-140 | through `_init` the form's action is never the fallback: the URL is the configured one or `pathname + '/search'` |
| `Autocomplete.Prop` | jquery-ajaxgrid.js:220-221 | a present property reads as its value; anything but undefined comes from a present property |
| `Autocomplete.Fallback` | jquery-ajaxgrid.js:220-221 | `item[k] ? item[k] : item[alt]`: the first property when it is truthy, else the second; falsy exactly when both are (used for `id`/`ID` and `name`/`Name`) |
| `Autocomplete.EditLink` | jquery-ajaxgrid.js:221 | the link starts with the page path followed by `/edit/` |
| `Autocomplete.ItemMarkup` | jquery-ajaxgrid.js:222 | the anchor opens with `<a href="`, closes with `</a>`, and holds exactly the link, `">` and the label |
| `Autocomplete.EditLinkShape` | jquery-ajaxgrid.js:221 | the link is the page path, `/edit/`, and the text of `id` when truthy, else of `ID` |
| `Autocomplete.EditLinkCarriesId` | jquery-ajaxgrid.js:221 | a positive integer id ends the link as its own decimal digits, without a leading zero, and is read back from them |
| `Autocomplete.ZeroIdFallsBack` | jquery-ajaxgrid.js:220-221 | an id of 0 falls back to `ID`; with neither, the link ends in `undefined` |
| `Autocomplete.ItemMarkupParts` | jquery-ajaxgrid.js:222 | the anchor's `href` is the edit link and its text the `name`-or-`Name` label |

## Left out

- DOM querying, HTML parsing and `.html()` (lines 251-262): the grid and
  pagination regions of the page and of the response are given as strings.
- `Refresh.Splice`: its own ensures say nothing about a region the response
  lacks. What `.html(undefined)` does depends on the jQuery version; the
  model leaves such a region as it was, and because `Splice`'s body is
  visible, `Refresh.GridView.GetGridAndPagination`, whose ensures is
  `page == Splice(old(page), response)`, does promise that.
- The transport (`$.get`, `$.post`, `$.ajax` at lines 196 and 253): I/O. The
  responding server is a parameter; failed requests have no path in the
  source, so none in the model.
- Real `setTimeout`/`clearTimeout` timing and the 500 ms delay (lines 149,
  159): expiry is the abstract `Fire` input.
- The submitter's effect when the timer fires: `Debouncer.Fire` counts the
  call. With the built-in submitter (lines 101-106), what the call sends is
  `Dispatch`'s search row; a supplied submitter's effect belongs to the page
  and is not modelled.
- jQuery UI autocomplete itself (`minLength`, `source`, `select`, the
  `_renderItem` override at lines 190-213) and building the `<li>` at line 222.
- The widget-factory lifecycle: `_trigger` internals, `_create` and the empty
  `destroy` (lines 70-73, 271-273). Triggering is recorded as an event name.
- Regular-expression metacharacters in `paginationParamName` (line 229): the
  name is required to be ASCII letters, digits and `_`.
- `this.element` inside the submit handler (line 111) is the form's, not the
  widget's, so the default submitter receives no grid container; DOM identity
  is not modelled.
- Ordering of overlapping in-flight responses: an asynchronous race. The
  model shows only that the last complete response to arrive decides the page.
- jQuery's conversion of data-attribute values and the loose comparisons
  `true == enabled` and `true == filterResults` (lines 91, 118, 145): the
  model takes them as booleans.
- JavaScript numbers other than integers, and HTML escaping (there is none
  in the source): not modelled.
- Js.Value: holds no object or array values. A JSON suggestion's `id` or
  `name` could be one; those are truthy even when empty (so `[]` does not
  fall back to `ID`), and their text is `[object Object]` or the
  comma-joined elements, which the model does not compute.
- Js.Decimal: gives JavaScript's text of a number only for a safe integer
  (`Js.SafeInt`, magnitude at most 2^53 - 1, the only numbers `Js.Value`
  holds); JavaScript prints `1e21` as `1e+21` and `2**60` rounded.
- Js.ToText: converts only the safe integers `Js.Value` holds; larger and
  non-integer numbers are not modelled.
- Autocomplete.EditLinkCarriesId: requires the id to be at most 2^53 - 1;
  for a larger id JavaScript's text of it does not read back as the id.
- Deep merging of user options into the defaults by the widget factory: the
  options reach `_init` already merged.
