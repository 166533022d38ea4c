/** Removing the page number from a column-sort link (`_doColumnSort`).

    The source builds the pattern `(&){0,1}` + name + `=(\d+)` with the
    case-insensitive flag and no global flag, and replaces its leftmost
    match with the empty string. Here the pattern is matched by an explicit
    leftmost search. Without the unicode flag, JavaScript's case-insensitive
    matching never maps a non-ASCII character onto an ASCII one, so for a
    name made of ASCII letters, digits and `_`, ASCII case folding is exact. */
module SortLink {
  import opened Js

  /** A stretch [start, end) of the link. */
  datatype Span = Span(start: nat, end: nat)

  predicate IsNameChar(c: char) {
    ('a' <= c <= 'z') || ('A' <= c <= 'Z') || ('0' <= c <= '9') || c == '_'
  }

  /** A parameter name with no regular-expression metacharacters in it. */
  predicate IsPlainName(name: string) {
    forall k :: 0 <= k < |name| ==> IsNameChar(name[k])
  }

  function Fold(c: char): char {
    if 'A' <= c <= 'Z' then (c as int + 32) as char else c
  }

  /** The text at position i spells name, ignoring ASCII case. */
  predicate NameAt(s: string, i: nat, name: string): (b: bool)
    ensures b ==> i + |name| <= |s|
    decreases name
  {
    if name == [] then i <= |s|
    else i < |s| && Fold(s[i]) == Fold(name[0]) && NameAt(s, i + 1, name[1..])
  }

  /** Where the run of digits starting at i ends (greedy `\d+`). */
  function DigitsEnd(s: string, i: nat): (e: nat)
    requires i <= |s|
    ensures i <= e <= |s|
    ensures forall k :: i <= k < e ==> IsDigit(s[k])
    ensures e == |s| || !IsDigit(s[e])
    decreases |s| - i
  {
    if i < |s| && IsDigit(s[i]) then DigitsEnd(s, i + 1) else i
  }

  /** Where `name=\d+` ends when it begins at j, if it does. */
  function ParamEnd(s: string, j: nat, name: string): (r: Option<nat>)
    ensures r.Some? ==> j + |name| + 2 <= r.value <= |s|
  {
    var eq := j + |name|;
    if NameAt(s, j, name) && eq + 1 < |s| && s[eq] == '=' && IsDigit(s[eq + 1])
    then Some(DigitsEnd(s, eq + 1))
    else None
  }

  /** The pattern anchored at i: the optional `&` is tried first, as a
      greedy `{0,1}` does. Gives the end of the match. */
  function MatchAt(s: string, i: nat, name: string): (r: Option<nat>)
    ensures r.Some? ==> i + |name| + 2 <= r.value <= |s|
  {
    if i < |s| && s[i] == '&' && ParamEnd(s, i + 1, name).Some?
    then ParamEnd(s, i + 1, name)
    else ParamEnd(s, i, name)
  }

  /** Some position of the link starts a match; a match needs the name,
      `=` and a digit, so the link is at least that long. */
  ghost predicate HasMatch(s: string, name: string): (b: bool)
    ensures b ==> |name| + 2 <= |s|
  {
    exists k :: 0 <= k < |s| && MatchAt(s, k, name).Some?
  }

  /** The leftmost match that starts at or after i. */
  function FindFrom(s: string, name: string, i: nat): (r: Option<Span>)
    requires i <= |s|
    ensures r.Some? ==> i <= r.value.start < r.value.end <= |s|
    ensures r.Some? ==> MatchAt(s, r.value.start, name) == Some(r.value.end)
    ensures r.Some? ==> forall k :: i <= k < r.value.start ==> MatchAt(s, k, name).None?
    ensures r.None? ==> forall k :: i <= k < |s| ==> MatchAt(s, k, name).None?
    decreases |s| - i
  {
    if i == |s| then None
    else match MatchAt(s, i, name)
      case Some(e) => Some(Span(i, e))
      case None => FindFrom(s, name, i + 1)
  }

  function LeftmostMatch(s: string, name: string): (r: Option<Span>)
    ensures r.None? <==> !HasMatch(s, name)
  {
    FindFrom(s, name, 0)
  }

  /** The URL a column-sort click requests: `link.match(regex)` guards
      `link.replace(regex, '')`. */
  function StripParam(href: string, name: string): (r: string)
    requires IsPlainName(name)
    ensures r == href <==> !HasMatch(href, name)
    ensures |r| <= |href|
  {
    var m := LeftmostMatch(href, name);
    if m.Some? then href[..m.value.start] + href[m.value.end..] else href
  }

  /** A match begins with `&` exactly when the `&` branch was taken:
      a plain name cannot start with `&` or `=`. */
  lemma AmpersandBranch(s: string, i: nat, name: string)
    requires IsPlainName(name)
    requires i < |s| && s[i] == '&'
    ensures ParamEnd(s, i, name).None?
  {
    if |name| > 0 {
      assert IsNameChar(name[0]);
    }
  }

  /** [i, e) is an optional `&`, the name in any ASCII case, `=`, and every
      digit that follows, at least one. */
  ghost predicate ParamShape(s: string, i: nat, e: nat, name: string)
    requires i < e <= |s|
  {
    var j := if s[i] == '&' then i + 1 else i;
    && NameAt(s, j, name)
    && j + |name| + 1 < e
    && s[j + |name|] == '='
    && (forall k :: j + |name| < k < e ==> IsDigit(s[k]))
    && (e == |s| || !IsDigit(s[e]))
  }

  /** Every match has that shape. */
  lemma MatchShape(s: string, i: nat, name: string, e: nat)
    requires IsPlainName(name)
    requires MatchAt(s, i, name) == Some(e)
    ensures ParamShape(s, i, e, name)
  {
    if s[i] == '&' {
      AmpersandBranch(s, i, name);
    }
  }

  /** And every stretch of that shape is the match found there. */
  lemma ShapeIsMatch(s: string, i: nat, name: string, e: nat)
    requires IsPlainName(name)
    requires i < e <= |s| && ParamShape(s, i, e, name)
    ensures MatchAt(s, i, name) == Some(e)
  {
    var j := if s[i] == '&' then i + 1 else i;
    assert DigitsEnd(s, j + |name| + 1) == e;
  }

  /** What is removed: the leftmost match, of the shape above, together
      with an `&` just before the name. What is kept: the text before and
      after the match, verbatim. */
  lemma LeftmostMatchRemoved(href: string, name: string)
    requires IsPlainName(name)
    requires HasMatch(href, name)
    ensures LeftmostMatch(href, name).Some?
    ensures var sp := LeftmostMatch(href, name).value;
      && (forall k :: 0 <= k < sp.start ==> MatchAt(href, k, name).None?)
      && MatchAt(href, sp.start, name) == Some(sp.end)
      && ParamShape(href, sp.start, sp.end, name)
      && StripParam(href, name) == href[..sp.start] + href[sp.end..]
      && (href[sp.start] != '&' ==> sp.start == 0 || href[sp.start - 1] != '&')
  {
    var sp := LeftmostMatch(href, name).value;
    var a := sp.start;
    MatchShape(href, a, name, sp.end);
    if href[a] != '&' && a > 0 {
      assert ParamEnd(href, a, name).Some?;
      assert MatchAt(href, a - 1, name).None?;
    }
  }

  /** NameAt compares the name with the text character by character,
      folding ASCII case, and needs the whole name to fit. */
  lemma {:induction false} NameAtMeans(s: string, i: nat, name: string)
    ensures NameAt(s, i, name) <==>
      i + |name| <= |s| && forall k :: 0 <= k < |name| ==> Fold(s[i + k]) == Fold(name[k])
    decreases name
  {
    if name != [] {
      NameAtMeans(s, i + 1, name[1..]);
      assert forall k :: 1 <= k < |name| ==> name[k] == name[1..][k - 1];
    }
  }

  lemma {:induction false} NameAtShift(s: string, t: string, i: nat, j: nat, name: string)
    requires i <= |s| && j <= |t| && s[i..] == t[j..]
    ensures NameAt(s, i, name) == NameAt(t, j, name)
    decreases name
  {
    if name != [] && i < |s| {
      assert s[i] == s[i..][0] == t[j..][0] == t[j];
      assert s[i + 1..] == s[i..][1..];
      assert t[j + 1..] == t[j..][1..];
      NameAtShift(s, t, i + 1, j + 1, name[1..]);
    }
  }

  /** MatchAt looks only at the text from its position on. */
  lemma {:induction false} DigitsEndShift(s: string, t: string, i: nat, j: nat)
    requires i <= |s| && j <= |t| && s[i..] == t[j..]
    ensures DigitsEnd(s, i) - i == DigitsEnd(t, j) - j
    decreases |s| - i
  {
    if i < |s| {
      assert s[i] == s[i..][0] == t[j..][0] == t[j];
      assert s[i + 1..] == s[i..][1..];
      assert t[j + 1..] == t[j..][1..];
      if IsDigit(s[i]) {
        DigitsEndShift(s, t, i + 1, j + 1);
      }
    }
  }

  lemma ParamEndShift(s: string, t: string, i: nat, j: nat, name: string)
    requires i <= |s| && j <= |t| && s[i..] == t[j..]
    ensures ParamEnd(s, i, name).None? <==> ParamEnd(t, j, name).None?
    ensures ParamEnd(s, i, name).Some? ==>
      ParamEnd(s, i, name).value - i == ParamEnd(t, j, name).value - j
  {
    var eq := |name|;
    assert |s| - i == |t| - j;
    NameAtShift(s, t, i, j, name);
    if i + eq + 1 < |s| {
      assert s[i + eq] == s[i..][eq] == t[j..][eq] == t[j + eq];
      assert s[i + eq + 1] == s[i..][eq + 1] == t[j..][eq + 1] == t[j + eq + 1];
      assert s[i + eq + 1..] == t[j + eq + 1..] by {
        assert s[i + eq + 1..] == s[i..][eq + 1..];
        assert t[j + eq + 1..] == t[j..][eq + 1..];
      }
      DigitsEndShift(s, t, i + eq + 1, j + eq + 1);
    }
  }

  lemma MatchAtShift(s: string, t: string, i: nat, j: nat, name: string)
    requires i <= |s| && j <= |t| && s[i..] == t[j..]
    ensures MatchAt(s, i, name).None? <==> MatchAt(t, j, name).None?
    ensures MatchAt(s, i, name).Some? ==>
      MatchAt(s, i, name).value - i == MatchAt(t, j, name).value - j
  {
    ParamEndShift(s, t, i, j, name);
    if i < |s| {
      assert s[i] == s[i..][0] == t[j..][0] == t[j];
      assert s[i + 1..] == s[i..][1..];
      assert t[j + 1..] == t[j..][1..];
      ParamEndShift(s, t, i + 1, j + 1, name);
    }
  }

  lemma CutKeepsTail(s: string, a: nat, b: nat, k: nat)
    requires a <= b <= k <= |s|
    ensures (s[..a] + s[b..])[k - (b - a)..] == s[k..]
  {
    var r := s[..a] + s[b..];
    assert r[a..] == s[b..];
    assert r[k - (b - a)..] == r[a..][k - b..];
    assert s[k..] == s[b..][k - b..];
  }

  /** Cutting [a, b) out of s keeps a match that starts at or after b. */
  lemma MatchSurvivesCut(s: string, a: nat, b: nat, k: nat, name: string)
    requires a <= b <= k < |s|
    requires MatchAt(s, k, name).Some?
    ensures MatchAt(s[..a] + s[b..], k - (b - a), name) == Some(MatchAt(s, k, name).value - (b - a))
  {
    CutKeepsTail(s, a, b, k);
    MatchAtShift(s[..a] + s[b..], s, k - (b - a), k, name);
  }

  /** Only one match is removed: an occurrence after the leftmost one is
      still a match in the requested URL, moved left by the removed length. */
  lemma LaterOccurrenceKept(href: string, name: string, k: nat)
    requires IsPlainName(name)
    requires LeftmostMatch(href, name).Some?
    requires LeftmostMatch(href, name).value.end <= k < |href|
    requires MatchAt(href, k, name).Some?
    ensures var sp := LeftmostMatch(href, name).value;
      var cut := sp.end - sp.start;
      MatchAt(StripParam(href, name), k - cut, name) == Some(MatchAt(href, k, name).value - cut)
  {
    var sp := LeftmostMatch(href, name).value;
    assert StripParam(href, name) == href[..sp.start] + href[sp.end..];
    MatchSurvivesCut(href, sp.start, sp.end, k, name);
  }

  lemma {:induction false} FindFromSkip(s: string, name: string, i: nat, j: nat)
    requires i <= j <= |s|
    requires forall k :: i <= k < j ==> MatchAt(s, k, name).None?
    ensures FindFrom(s, name, i) == FindFrom(s, name, j)
    decreases j - i
  {
    if i < j {
      FindFromSkip(s, name, i + 1, j);
    }
  }

  /** No match starts in [i, j) when that stretch holds neither `&` nor
      any case of the name's first letter. */
  lemma SkipUnrelated(s: string, name: string, i: nat, j: nat)
    requires |name| > 0 && i <= j <= |s|
    requires forall k :: i <= k < j ==> s[k] != '&' && Fold(s[k]) != Fold(name[0])
    ensures FindFrom(s, name, i) == FindFrom(s, name, j)
  {
    FindFromSkip(s, name, i, j);
  }

  // Worked cases, checked against the definitions.

  /** The page parameter at the end goes, with its `&`. */
  lemma SortLinkDropsTrailingPage(s: string)
    requires s == "/items?sort=name&page=3"
    ensures StripParam(s, "page") == "/items?sort=name"
  {
    assert FindFrom(s, "page", 16) == Some(Span(16, 23));
    assert forall k :: 0 <= k < 16 ==> s[k] != '&' && s[k] != 'p' && s[k] != 'P';
    SkipUnrelated(s, "page", 0, 16);
    assert s[..16] + s[23..] == "/items?sort=name";
  }

  /** The pattern needs a digit after `=`. */
  lemma NonNumericPageKept(s: string)
    requires s == "/items?page=abc"
    ensures StripParam(s, "page") == s
  {
    assert forall k :: 0 <= k < 7 ==> s[k] != '&' && s[k] != 'p' && s[k] != 'P';
    SkipUnrelated(s, "page", 0, 7);
    assert MatchAt(s, 7, "page").None?;
    assert forall k :: 8 <= k < 15 ==> s[k] != '&' && s[k] != 'p' && s[k] != 'P';
    SkipUnrelated(s, "page", 8, 15);
  }

  /** No global flag: the second occurrence stays, in whatever case. */
  lemma SecondPageKept(s: string)
    requires s == "?page=1&PAGE=2"
    ensures StripParam(s, "page") == "?&PAGE=2"
  {
    assert MatchAt(s, 0, "page").None?;
    assert NameAt(s, 1, "page");
    assert DigitsEnd(s, 6) == 7;
    assert ParamEnd(s, 1, "page") == Some(7);
    assert MatchAt(s, 1, "page") == Some(7);
    assert FindFrom(s, "page", 1) == Some(Span(1, 7));
    assert FindFrom(s, "page", 0) == Some(Span(1, 7));
    assert s[..1] + s[7..] == "?&PAGE=2";
  }

  /** No boundary before the name: `mypage=2` loses its `page=2`. */
  lemma SuffixOfLongerNameRemoved(s: string)
    requires s == "?sort=a&mypage=2"
    ensures StripParam(s, "page") == "?sort=a&my"
  {
    assert forall k :: 0 <= k < 7 ==> s[k] != '&' && s[k] != 'p' && s[k] != 'P';
    SkipUnrelated(s, "page", 0, 7);
    NoMatchAtAmpersandOfMypage(s);
    assert forall k :: 8 <= k < 10 ==> s[k] != '&' && s[k] != 'p' && s[k] != 'P';
    SkipUnrelated(s, "page", 8, 10);
    MatchInsideMypage(s);
    assert s[..10] + s[16..] == "?sort=a&my";
  }

  lemma NoMatchAtAmpersandOfMypage(s: string)
    requires s == "?sort=a&mypage=2"
    ensures FindFrom(s, "page", 7) == FindFrom(s, "page", 8)
  {
    assert !NameAt(s, 8, "page");
    assert MatchAt(s, 7, "page").None?;
  }

  lemma MatchInsideMypage(s: string)
    requires s == "?sort=a&mypage=2"
    ensures FindFrom(s, "page", 10) == Some(Span(10, 16))
  {
    assert NameAt(s, 10, "page");
    assert DigitsEnd(s, 15) == 16;
    assert MatchAt(s, 10, "page") == Some(16);
  }
}
