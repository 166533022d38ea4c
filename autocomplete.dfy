/** The logic of the autocomplete attachment that is not the autocomplete
    widget itself: which URL suggestions are fetched from
    (`_attachAutocomplete`), and the default rendering of a suggestion
    (`_renderAutocompleteItem`). */
module Autocomplete {
  import opened Js
  import GridInit

  /** `null == options.url ? searchForm.attr('action') : options.url`;
      a missing `action` attribute stays missing. */
  function SourceUrl(configured: Option<string>, formAction: Option<string>): (u: Option<string>)
    ensures configured.Some? ==> u == configured
    ensures configured.None? ==> u == formAction
    ensures u.None? <==> configured.None? && formAction.None?
  {
    if configured.None? then formAction else configured
  }

  /** Through `_init` the worker always gets a URL, so the form's action is
      never the fallback there: suggestions come from the configured URL or
      else from `pathname + '/search'`. */
  lemma InitUrlIsSource(o: GridInit.AutocompleteOptions, pathname: string, formAction: Option<string>)
    ensures SourceUrl(Some(GridInit.AutocompleteUrl(o, pathname)), formAction) ==
      (if o.url.Some? then o.url else Some(pathname + "/search"))
  {
  }

  /** A suggestion as the server sends it: a plain object. */
  type Item = map<string, Value>

  /** `item[key]`: a missing property reads as undefined. */
  function Prop(item: Item, key: string): (v: Value)
    ensures key in item ==> v == item[key]
    ensures v != Undefined ==> key in item
  {
    if key in item then item[key] else Undefined
  }

  /** `item[key] ? item[key] : item[alt]`: the first property when it is
      truthy, the second otherwise; falsy only when both are. */
  function Fallback(item: Item, key: string, alt: string): (v: Value)
    ensures v == Prop(item, key) || v == Prop(item, alt)
    ensures Truthy(Prop(item, key)) ==> v == Prop(item, key)
    ensures Truthy(v) <==> Truthy(Prop(item, key)) || Truthy(Prop(item, alt))
  {
    Or(Prop(item, key), Prop(item, alt))
  }

  /** The id written into the link: `id`, or `ID` when `id` is falsy. */
  function ItemId(item: Item): Value {
    Fallback(item, "id", "ID")
  }

  /** The label: `name`, or `Name` when `name` is falsy. */
  function ItemName(item: Item): Value {
    Fallback(item, "name", "Name")
  }

  /** `window.location.pathname + '/edit/' + id` */
  function EditLink(pathname: string, item: Item): (link: string)
    ensures |link| >= |pathname| + 6
    ensures link[..|pathname| + 6] == pathname + "/edit/"
  {
    pathname + "/edit/" + ToText(ItemId(item))
  }

  /** The anchor the default renderer appends to its list item. */
  function ItemMarkup(pathname: string, item: Item): (m: string)
    ensures |m| == 15 + |EditLink(pathname, item)| + |ToText(ItemName(item))|
    ensures m[..9] == "<a href=\"" && m[|m| - 4..] == "</a>"
  {
    "<a href=\"" + EditLink(pathname, item) + "\">" + ToText(ItemName(item)) + "</a>"
  }

  /** The link is the page path, `/edit/`, and the text of `id` when that is
      truthy, else the text of `ID`. */
  lemma EditLinkShape(pathname: string, item: Item)
    ensures var link := EditLink(pathname, item);
      var n := |pathname| + 6;
      && |link| >= n
      && link[..n] == pathname + "/edit/"
      && link[n..] == (if Truthy(Prop(item, "id")) then ToText(Prop(item, "id")) else ToText(Prop(item, "ID")))
  {
    var link := EditLink(pathname, item);
    assert link == (pathname + "/edit/") + ToText(ItemId(item));
  }

  /** A positive integer id can be read back from the link. */
  lemma EditLinkCarriesId(pathname: string, item: Item, id: nat)
    requires 0 < id <= MaxSafeInteger && Prop(item, "id") == Int(id)
    ensures var tail := EditLink(pathname, item)[|pathname| + 6..];
      AllDigits(tail) && tail[0] != '0' && ParseDecimal(tail) == id
  {
    EditLinkShape(pathname, item);
    DecimalRoundTrip(id);
  }

  /** The fallbacks are truthiness, not presence: an id of 0 falls back to
      `ID`, and with neither the link ends in `undefined`. */
  lemma ZeroIdFallsBack(pathname: string)
    ensures EditLink(pathname, map["id" := Int(0), "ID" := Int(7)]) == pathname + "/edit/7"
    ensures EditLink(pathname, map["name" := Str("x")]) == pathname + "/edit/undefined"
  {
  }

  /** The anchor's target is the edit link and its text is the label. */
  lemma ItemMarkupParts(pathname: string, item: Item)
    ensures var m := ItemMarkup(pathname, item);
      var link := EditLink(pathname, item);
      var text := ToText(ItemName(item));
      && m[..9] == "<a href=\""
      && m[9..9 + |link|] == link
      && m[9 + |link|..11 + |link|] == "\">"
      && m[11 + |link|..|m| - 4] == text
      && m[|m| - 4..] == "</a>"
  {
    var link := EditLink(pathname, item);
    var text := ToText(ItemName(item));
    var m := ItemMarkup(pathname, item);
    assert m == "<a href=\"" + link + "\">" + text + "</a>";
    assert |m| == 15 + |link| + |text|;
  }
}
