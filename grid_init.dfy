/** What `_init` wires and which defaults it installs. The widget's options
    are updated in place: a missing submitter, autocomplete worker or
    renderer is replaced by the built-in one when its feature is reached. */
module GridInit {
  import opened Js

  /** A handler held in the options: the widget's own, or one the page supplied. */
  datatype Handler = Builtin | Supplied(id: nat)

  datatype AutocompleteOptions = AutocompleteOptions(
    url: Option<string>,
    enabled: bool,
    worker: Option<Handler>,
    renderer: Option<Handler>,
    onSelect: Option<Handler>)

  datatype SearchOptions = SearchOptions(
    filterResults: bool,
    submit: Option<Handler>,
    autocomplete: AutocompleteOptions)

  /** The option defaults of the widget. */
  const Defaults := SearchOptions(false, None, AutocompleteOptions(None, true, None, None, None))

  /** What `_init` finds on the page: whether the container carries the
      search-form data attribute, and how many elements its selector finds. */
  datatype Container = Container(hasSearchAttribute: bool, formsFound: nat)

  /** The effects of `_init`, in the order it performs them. */
  datatype Action =
    | BindSortClick
    | BindPaginationClick
    | BindFormSubmit
      // the worker call that attaches autocomplete, with the URL it is given
    | RunWorker(worker: Handler, url: string)
    | BindFilterKeyUp
    | BindFilterKeyDown
    | TriggerAfterInit

  predicate IsSearchWiring(a: Action) {
    a.BindFormSubmit? || a.RunWorker? || a.BindFilterKeyUp? || a.BindFilterKeyDown?
  }

  /** Search-related wiring happens only for a grid with a search form. */
  predicate HasSearchForm(c: Container) {
    c.hasSearchAttribute && c.formsFound > 0
  }

  /** The URL given to the autocomplete worker (line 136). */
  function AutocompleteUrl(o: AutocompleteOptions, pathname: string): (u: string)
    ensures o.url.Some? ==> u == o.url.value
    ensures o.url.None? ==> u == pathname + "/search"
  {
    if o.url.None? then pathname + "/search" else o.url.value
  }

  function OrBuiltin(h: Option<Handler>): Handler {
    if h.Some? then h.value else Builtin
  }

  /** The options after `_init`: with a search form a submitter is always
      set, and with autocomplete reached a worker and a renderer too; the
      switches, the URL and the select handler are never touched. */
  function InitOptions(o: SearchOptions, c: Container): (r: SearchOptions)
    ensures HasSearchForm(c) ==> r.submit.Some?
    ensures HasSearchForm(c) && o.autocomplete.enabled ==>
      r.autocomplete.worker.Some? && r.autocomplete.renderer.Some?
    ensures r.filterResults == o.filterResults && r.autocomplete.enabled == o.autocomplete.enabled
    ensures r.autocomplete.url == o.autocomplete.url && r.autocomplete.onSelect == o.autocomplete.onSelect
  {
    var search := HasSearchForm(c);
    var ac := search && o.autocomplete.enabled;
    o.(submit := if search then Some(OrBuiltin(o.submit)) else o.submit,
       autocomplete := o.autocomplete.(
         worker := if ac then Some(OrBuiltin(o.autocomplete.worker)) else o.autocomplete.worker,
         renderer := if ac then Some(OrBuiltin(o.autocomplete.renderer)) else o.autocomplete.renderer))
  }

  /** The effects of `_init`, in order: always the two click bindings and
      `afterInit`, and nothing else without a search form. */
  function InitActions(o: SearchOptions, c: Container, pathname: string): (acts: seq<Action>)
    ensures 3 <= |acts| && acts[|acts| - 1] == TriggerAfterInit
    ensures !HasSearchForm(c) ==> |acts| == 3
  {
    var search := HasSearchForm(c);
    [BindSortClick, BindPaginationClick]
    + (if search && o.submit.None? then [BindFormSubmit] else [])
    + (if search && o.autocomplete.enabled
       then [RunWorker(OrBuiltin(o.autocomplete.worker), AutocompleteUrl(o.autocomplete, pathname))]
       else [])
    + (if search && o.filterResults then [BindFilterKeyUp, BindFilterKeyDown] else [])
    + [TriggerAfterInit]
  }

  /** The two click bindings come first and `afterInit` last, exactly once,
      whichever branches ran. */
  lemma AfterInitLast(o: SearchOptions, c: Container, pathname: string)
    ensures var acts := InitActions(o, c, pathname);
      && 3 <= |acts| <= 7
      && acts[0] == BindSortClick && acts[1] == BindPaginationClick
      && acts[|acts| - 1] == TriggerAfterInit
      && forall k :: 0 <= k < |acts| - 1 ==> acts[k] != TriggerAfterInit
  {
  }

  /** Without a search form, `_init` only binds the two click handlers,
      fires `afterInit`, and changes no option. */
  lemma NoSearchFormNoSearchWiring(o: SearchOptions, c: Container, pathname: string)
    ensures !HasSearchForm(c) ==> InitActions(o, c, pathname) == [BindSortClick, BindPaginationClick, TriggerAfterInit]
    ensures !HasSearchForm(c) ==> InitOptions(o, c) == o
    ensures forall a :: a in InitActions(o, c, pathname) && IsSearchWiring(a) ==> HasSearchForm(c)
  {
  }

  /** The form's submit event is bound exactly when a search form exists and
      no submitter was supplied; a supplied submitter gets no binding at all. */
  lemma FormSubmitBinding(o: SearchOptions, c: Container, pathname: string)
    ensures BindFormSubmit in InitActions(o, c, pathname) <==> HasSearchForm(c) && o.submit.None?
    ensures o.submit.Some? ==> InitOptions(o, c).submit == o.submit
    ensures InitOptions(o, c).submit == (if HasSearchForm(c) && o.submit.None? then Some(Builtin) else o.submit)
  {
  }

  /** Autocomplete is attached exactly when a search form exists and it is
      enabled; the worker it runs is the supplied one or else the built-in
      one, and it receives the configured URL or else `pathname + '/search'`. */
  lemma AutocompleteGate(o: SearchOptions, c: Container, pathname: string, w: Handler, u: string)
    ensures RunWorker(w, u) in InitActions(o, c, pathname) <==>
      && HasSearchForm(c) && o.autocomplete.enabled
      && w == (if o.autocomplete.worker.Some? then o.autocomplete.worker.value else Builtin)
      && u == (if o.autocomplete.url.None? then pathname + "/search" else o.autocomplete.url.value)
  {
  }

  /** A worker or renderer that was supplied is never replaced; a missing
      one is filled in only when autocomplete is switched on for a grid with
      a search form. The URL option itself is never rewritten. */
  lemma DefaultsOnlyWhenAbsent(o: SearchOptions, c: Container)
    ensures var n := InitOptions(o, c).autocomplete;
      && (o.autocomplete.worker.Some? ==> n.worker == o.autocomplete.worker)
      && (o.autocomplete.renderer.Some? ==> n.renderer == o.autocomplete.renderer)
      && (n.worker.None? <==> o.autocomplete.worker.None? && !(HasSearchForm(c) && o.autocomplete.enabled))
      && (n.renderer.None? <==> o.autocomplete.renderer.None? && !(HasSearchForm(c) && o.autocomplete.enabled))
      && n.url == o.autocomplete.url && n.enabled == o.autocomplete.enabled && n.onSelect == o.autocomplete.onSelect
      && InitOptions(o, c).filterResults == o.filterResults
  {
  }

  /** The filter handlers are bound exactly when a search form exists and
      filtering is on, and then the submitter their timer calls is set. */
  lemma FilterGate(o: SearchOptions, c: Container, pathname: string)
    ensures BindFilterKeyUp in InitActions(o, c, pathname) <==> HasSearchForm(c) && o.filterResults
    ensures BindFilterKeyDown in InitActions(o, c, pathname) <==> HasSearchForm(c) && o.filterResults
    ensures BindFilterKeyUp in InitActions(o, c, pathname) ==> InitOptions(o, c).submit.Some?
  {
  }

  /** Running `_init` again (the widget factory calls it whenever the
      widget is invoked again on the same element) changes no option and
      binds no form submit: the first run installed the submitter. */
  lemma ReInit(o: SearchOptions, c: Container, pathname: string)
    ensures var o1 := InitOptions(o, c);
      && InitOptions(o1, c) == o1
      && BindFormSubmit !in InitActions(o1, c, pathname)
  {
  }

  /** The defaults on a grid with a search form: the form submit is bound
      and autocomplete is attached with the built-in worker at
      `pathname + '/search'`; filtering is off. */
  lemma DefaultsWithSearchForm(c: Container, pathname: string)
    requires HasSearchForm(c)
    ensures InitActions(Defaults, c, pathname) ==
      [BindSortClick, BindPaginationClick, BindFormSubmit, RunWorker(Builtin, pathname + "/search"), TriggerAfterInit]
    ensures InitOptions(Defaults, c).submit == Some(Builtin)
  {
  }

  /** The widget instance as `_init` sees it: its options, and the effects
      performed so far. */
  class AjaxGrid {
    var options: SearchOptions
    var log: seq<Action>

    constructor (o: SearchOptions)
      ensures options == o && log == []
    {
      options := o;
      log := [];
    }

    /** `_init`, step by step as the source does it. */
    method Init(c: Container, pathname: string)
      modifies this
      ensures options == InitOptions(old(options), c)
      ensures log == old(log) + InitActions(old(options), c, pathname)
    {
      log := log + [BindSortClick];
      log := log + [BindPaginationClick];
      if c.hasSearchAttribute && c.formsFound > 0 {
        HijackSubmit();
        AttachAutocomplete(pathname);
        FilterResults();
      }
      log := log + [TriggerAfterInit];
    }

    /** HIJACK SEARCH SUBMIT (lines 101-113): install the default submitter
        and bind the form's submit, unless a submitter was supplied. */
    method HijackSubmit()
      modifies this
      ensures options == old(options).(submit := Some(OrBuiltin(old(options).submit)))
      ensures log == old(log) + (if old(options).submit.None? then [BindFormSubmit] else [])
    {
      if options.submit.None? {
        options := options.(submit := Some(Builtin));
        log := log + [BindFormSubmit];
      }
    }

    /** ATTACH AUTOCOMPLETE (lines 118-141): fill in a missing worker and
        renderer, then call the worker with the URL. */
    method AttachAutocomplete(pathname: string)
      modifies this
      ensures var ac := old(options).autocomplete;
        options == old(options).(autocomplete := ac.(
          worker := if ac.enabled then Some(OrBuiltin(ac.worker)) else ac.worker,
          renderer := if ac.enabled then Some(OrBuiltin(ac.renderer)) else ac.renderer))
      ensures log == old(log) + (if old(options).autocomplete.enabled
        then [RunWorker(OrBuiltin(old(options).autocomplete.worker), AutocompleteUrl(old(options).autocomplete, pathname))]
        else [])
    {
      if options.autocomplete.enabled {
        if options.autocomplete.worker.None? {
          options := options.(autocomplete := options.autocomplete.(worker := Some(Builtin)));
        }
        if options.autocomplete.renderer.None? {
          options := options.(autocomplete := options.autocomplete.(renderer := Some(Builtin)));
        }
        var url := if options.autocomplete.url.None? then pathname + "/search" else options.autocomplete.url.value;
        log := log + [RunWorker(options.autocomplete.worker.value, url)];
      }
    }

    /** FILTER RESULTS AS SEARCH IS DONE (lines 145-168): bind the keyup and
        keydown handlers when filtering is on. */
    method FilterResults()
      modifies this
      ensures options == old(options)
      ensures log == old(log) + (if options.filterResults then [BindFilterKeyUp, BindFilterKeyDown] else [])
    {
      if options.filterResults {
        log := log + [BindFilterKeyUp];
        log := log + [BindFilterKeyDown];
      }
    }
  }
}
