/**
 * The shared utilities and page-wide widgets of every page (scripts/main.js):
 * the read-time estimate, URL-parameter lookup, the mobile menu, the theme
 * toggle and the loading overlay.
 */
module Common {
  import opened JsRuntime

  // ---------------------------------------------------------------------
  // calculateReadTime

  const WordsPerMinute: nat := 200
  const ReadSuffix := " min read"

  /** `text.trim().split(/\s+/).length`: one more than the whitespace runs inside the trimmed text. */
  function WordCount(text: string): (n: nat)
    ensures n >= 1
    ensures n == 1 + SpaceRuns(Trim(text), false)
    ensures (forall i :: 0 <= i < |text| ==> IsSpace(text[i])) ==> n == 1
  {
    var t := Trim(text);
    SplitCountsRuns(t);
    |SplitOnSpaces(t)|
  }

  /** `Math.ceil(words / 200)`. */
  function ReadMinutes(text: string): (m: nat)
    ensures m >= 1
    ensures (m - 1) * WordsPerMinute < WordCount(text) <= m * WordsPerMinute
  {
    (WordCount(text) + WordsPerMinute - 1) / WordsPerMinute
  }

  /** `${minutes} min read`. */
  function CalculateReadTime(text: string): (caption: string)
    ensures |caption| > |ReadSuffix| && caption[|caption| - |ReadSuffix|..] == ReadSuffix
    ensures var digits := caption[..|caption| - |ReadSuffix|];
      (forall i :: 0 <= i < |digits| ==> '0' <= digits[i] <= '9')
      && digits != [] && digits[0] != '0'
      && ParseDecimal(digits) == ReadMinutes(text)
  {
    var digits := Decimal(ReadMinutes(text));
    DecimalRoundTrip(ReadMinutes(text));
    var caption := digits + ReadSuffix;
    assert caption[..|caption| - |ReadSuffix|] == digits;
    caption
  }

  /** Counting by pieces: exactly 200 words take one minute, 201 words take two. */
  lemma ReadMinutesAtBoundary(text: string)
    ensures WordCount(text) == 200 ==> ReadMinutes(text) == 1
    ensures WordCount(text) == 201 ==> ReadMinutes(text) == 2
  {
  }

  /** Blank text still reads as one word, hence one minute. */
  lemma {:induction false} BlankTextReadsInOneMinute(text: string)
    requires forall i :: 0 <= i < |text| ==> IsSpace(text[i])
    ensures ReadMinutes(text) == 1
  {
    assert WordCount(text) == 1;
  }

  /** When the trimmed text is non-empty every counted piece is a real (non-empty) word. */
  lemma WordsAreNonEmpty(text: string)
    requires Trim(text) != []
    ensures forall k :: 0 <= k < |SplitOnSpaces(Trim(text))| ==> SplitOnSpaces(Trim(text))[k] != []
  {
    SplitTrimmedIntoWords(Trim(text));
  }

  // ---------------------------------------------------------------------
  // getUrlParameter

  /**
   * A name without regular-expression metacharacters, so that `'[\\?&]' + name + '=([^&#]*)'`
   * matches the name literally (the code escapes only the first `[` and the first `]`).
   */
  predicate PlainName(name: string) {
    forall i :: 0 <= i < |name| ==> name[i] !in "\\^$.|?*+()[]{}"
  }

  /** The pattern `[\?&]name=` occurs in `search` starting at index `i`. */
  predicate KeyAt(search: string, name: string, i: int) {
    0 <= i && i + |name| + 2 <= |search|
    && (search[i] == '?' || search[i] == '&')
    && search[i + 1..i + 1 + |name|] == name
    && search[i + 1 + |name|] == '='
  }

  /** `i` is the leftmost occurrence of the key in `search`. */
  predicate FirstKeyAt(search: string, name: string, i: int) {
    KeyAt(search, name, i) && forall j :: 0 <= j < i ==> !KeyAt(search, name, j)
  }

  /** The leftmost occurrence of the key at or after `from`, as `RegExp.exec` finds it. */
  function FindKey(search: string, name: string, from: nat): (r: Option<nat>)
    requires from <= |search|
    ensures r.Some? ==> (from <= r.value && KeyAt(search, name, r.value)
      && forall j :: from <= j < r.value ==> !KeyAt(search, name, j))
    ensures r.None? ==> forall j :: from <= j ==> !KeyAt(search, name, j)
    decreases |search| - from
  {
    if KeyAt(search, name, from) then Some(from)
    else if from == |search| then None
    else FindKey(search, name, from + 1)
  }

  /** The capture `([^&#]*)`: everything up to, and excluding, the next `&` or `#`. */
  function ValueRun(s: string): (v: string)
    ensures |v| <= |s| && v == s[..|v|]
    ensures forall i :: 0 <= i < |v| ==> v[i] != '&' && v[i] != '#'
    ensures |v| < |s| ==> s[|v|] == '&' || s[|v|] == '#'
  {
    if s == [] || s[0] == '&' || s[0] == '#' then [] else [s[0]] + ValueRun(s[1..])
  }

  /** `.replace(/\+/g, ' ')`. */
  function PlusToSpace(s: string): (r: string)
    ensures |r| == |s|
    ensures forall i :: 0 <= i < |s| ==> r[i] == if s[i] == '+' then ' ' else s[i]
  {
    seq(|s|, i requires 0 <= i < |s| => if s[i] == '+' then ' ' else s[i])
  }

  /**
   * `getUrlParameter(name)` over the query string `search` (`location.search`);
   * `decode` stands for `decodeURIComponent`.
   */
  function GetUrlParameter(search: string, name: string, decode: string -> string): (r: string)
    requires PlainName(name)
    ensures (forall i :: !KeyAt(search, name, i)) ==> r == ""
    ensures forall i :: FirstKeyAt(search, name, i) ==> r == decode(PlusToSpace(ValueRun(search[i + |name| + 2..])))
  {
    match FindKey(search, name, 0)
    case None => ""
    case Some(i) => decode(PlusToSpace(ValueRun(search[i + |name| + 2..])))
  }

  lemma {:induction false} ValueRunUnique(s: string, v: string)
    requires |v| <= |s| && v == s[..|v|]
    requires forall i :: 0 <= i < |v| ==> v[i] != '&' && v[i] != '#'
    requires |v| < |s| ==> s[|v|] == '&' || s[|v|] == '#'
    ensures ValueRun(s) == v
  {
    if v != [] {
      assert s[0] == v[0];
      ValueRunUnique(s[1..], v[1..]);
    }
  }

  /**
   * The value of the leftmost key occurrence `i`: the characters `v` after `=` up to the
   * next `&`, `#` or the end, with `+` read as a space before decoding.
   */
  lemma ParameterIsFirstValue(search: string, name: string, decode: string -> string, i: nat, v: string)
    requires PlainName(name)
    requires KeyAt(search, name, i) && forall j :: 0 <= j < i ==> !KeyAt(search, name, j)
    requires var rest := search[i + |name| + 2..];
      |v| <= |rest| && v == rest[..|v|]
      && (forall k :: 0 <= k < |v| ==> v[k] != '&' && v[k] != '#')
      && (|v| < |rest| ==> rest[|v|] == '&' || rest[|v|] == '#')
    ensures GetUrlParameter(search, name, decode) == decode(PlusToSpace(v))
  {
    assert FindKey(search, name, 0) == Some(i);
    ValueRunUnique(search[i + |name| + 2..], v);
  }

  // ---------------------------------------------------------------------
  // Mobile menu

  /**
   * The mobile menu and its button's icon. The two handlers are attached only when
   * both the menu and its button exist; `hasIcon` says whether the button holds an `<i>`.
   */
  class MobileMenu {
    var menuHidden: bool   // the menu carries 'hidden'
    const hasIcon: bool
    var bars: bool         // the icon carries 'fa-bars'
    var times: bool        // the icon carries 'fa-times'

    /** The icon shows bars exactly while the menu is hidden, and a cross while it is open. */
    ghost predicate IconAgrees()
      reads this
    {
      hasIcon ==> (bars == menuHidden && times == !menuHidden)
    }

    constructor (menuHidden: bool, hasIcon: bool, bars: bool, times: bool)
      ensures this.menuHidden == menuHidden && this.hasIcon == hasIcon
      ensures this.bars == bars && this.times == times
    {
      this.menuHidden := menuHidden;
      this.hasIcon := hasIcon;
      this.bars := bars;
      this.times := times;
    }

    /** A click on the menu button. */
    method ClickButton()
      modifies this
      ensures menuHidden == !old(menuHidden)
      ensures hasIcon ==> bars == !old(bars) && times == !old(times)
      ensures !hasIcon ==> bars == old(bars) && times == old(times)
      ensures old(IconAgrees()) ==> IconAgrees()
    {
      menuHidden := !menuHidden;
      if hasIcon {
        bars := !bars;
        times := !times;
      }
    }

    /**
     * A click anywhere in the document; `inMenu` and `inButton` say whether its target lies
     * inside the menu or inside the button. An outside click closes an open menu.
     */
    method ClickDocument(inMenu: bool, inButton: bool)
      modifies this
      ensures (inMenu || inButton || old(menuHidden)) ==>
        menuHidden == old(menuHidden) && bars == old(bars) && times == old(times)
      ensures !inMenu && !inButton && !old(menuHidden) ==>
        menuHidden && (hasIcon ==> bars && !times) && (!hasIcon ==> bars == old(bars) && times == old(times))
      ensures old(IconAgrees()) ==> IconAgrees()
    {
      if !inMenu && !inButton {
        if !menuHidden {
          menuHidden := true;
          if hasIcon {
            times := false;
            bars := true;
          }
        }
      }
    }
  }

  /** Clicking the menu button twice restores the menu and its icon. */
  method ClickButtonTwice(m: MobileMenu)
    modifies m
    ensures m.menuHidden == old(m.menuHidden) && m.bars == old(m.bars) && m.times == old(m.times)
  {
    m.ClickButton();
    m.ClickButton();
  }

  // ---------------------------------------------------------------------
  // Theme toggle

  const ThemeKey := "theme"

  /**
   * The theme toggle of a page that has the `#themeToggle` button: the `dark` class of
   * `<html>`, the button icon's `fa-moon`/`fa-sun` classes (when it has an icon) and the
   * `theme` entry of `localStorage` (`None` when absent).
   */
  class ThemeToggle {
    var dark: bool
    const hasIcon: bool
    var moon: bool
    var sun: bool
    var stored: Option<string>

    /** Page load: a saved `'light'` removes `dark` and shows the sun; anything else changes nothing. */
    constructor Load(dark: bool, hasIcon: bool, moon: bool, sun: bool, saved: Option<string>)
      ensures this.hasIcon == hasIcon && stored == saved
      ensures saved == Some("light") ==> (!this.dark
        && (hasIcon ==> this.sun && !this.moon)
        && (!hasIcon ==> this.moon == moon && this.sun == sun))
      ensures saved != Some("light") ==> this.dark == dark && this.moon == moon && this.sun == sun
    {
      this.hasIcon := hasIcon;
      this.stored := saved;
      if saved == Some("light") {
        this.dark := false;
        if hasIcon {
          this.moon := false;
          this.sun := true;
        } else {
          this.moon := moon;
          this.sun := sun;
        }
      } else {
        this.dark := dark;
        this.moon := moon;
        this.sun := sun;
      }
    }

    /**
     * A click flips `dark`. With an icon, the icon and the stored theme follow the new
     * class; without one nothing else changes.
     */
    method Click()
      modifies this
      ensures dark == !old(dark)
      ensures hasIcon ==> (moon == dark && sun == !dark
        && stored == Some(if dark then "dark" else "light"))
      ensures !hasIcon ==> moon == old(moon) && sun == old(sun) && stored == old(stored)
      ensures hasIcon ==> (stored == Some("dark") <==> dark)
    {
      dark := !dark;
      if hasIcon {
        if dark {
          sun := false;
          moon := true;
          stored := Some("dark");
        } else {
          moon := false;
          sun := true;
          stored := Some("light");
        }
      }
    }
  }

  // ---------------------------------------------------------------------
  // showNotification

  /** A toast appended by `showNotification(message, type)`; `success` is `type === 'success'`. */
  datatype Notification = Notification(message: string, success: bool)

  // ---------------------------------------------------------------------
  // showLoading

  const OverlayId := "loadingOverlay"

  /** Number of occurrences of `x` in `s`. */
  function Count(s: seq<string>, x: string): nat {
    if s == [] then 0 else (if s[0] == x then 1 else 0) + Count(s[1..], x)
  }

  /** `s` without its first occurrence of `x` (unchanged when there is none). */
  function RemoveFirst(s: seq<string>, x: string): (r: seq<string>)
    ensures x !in s ==> r == s
  {
    if s == [] then []
    else if s[0] == x then s[1..]
    else [s[0]] + RemoveFirst(s[1..], x)
  }

  /** The document's element ids, in document order, after `showLoading(show)`. */
  function AfterShowLoading(ids: seq<string>, show: bool): seq<string> {
    if show then (if OverlayId in ids then ids else ids + [OverlayId])
    else RemoveFirst(ids, OverlayId)
  }

  lemma {:induction false} CountAppend(s: seq<string>, t: seq<string>, x: string)
    ensures Count(s + t, x) == Count(s, x) + Count(t, x)
  {
    if s != [] {
      assert (s + t)[0] == s[0] && (s + t)[1..] == s[1..] + t;
      CountAppend(s[1..], t, x);
    } else {
      assert s + t == t;
    }
  }

  lemma {:induction false} CountPositive(s: seq<string>, x: string)
    ensures x in s <==> Count(s, x) > 0
  {
    if s != [] {
      CountPositive(s[1..], x);
      assert x in s <==> s[0] == x || x in s[1..];
    }
  }

  lemma {:induction false} CountRemoveFirst(s: seq<string>, x: string, y: string)
    ensures Count(RemoveFirst(s, x), y) == if y == x && x in s then Count(s, y) - 1 else Count(s, y)
  {
    if s != [] {
      CountRemoveFirst(s[1..], x, y);
      assert x in s <==> s[0] == x || x in s[1..];
      if s[0] != x {
        assert RemoveFirst(s, x)[1..] == RemoveFirst(s[1..], x);
        CountPositive(s[1..], x);
      }
    }
  }

  /** Showing the overlay twice is the same as showing it once. */
  lemma ShowLoadingIdempotent(ids: seq<string>)
    ensures AfterShowLoading(AfterShowLoading(ids, true), true) == AfterShowLoading(ids, true)
  {
  }

  /**
   * Showing leaves exactly one overlay when there was at most one; hiding removes one overlay
   * and does nothing when there is none. No other element is added or removed.
   */
  lemma {:induction false} ShowLoadingCounts(ids: seq<string>, y: string)
    ensures Count(ids, OverlayId) <= 1 ==> Count(AfterShowLoading(ids, true), OverlayId) == 1
    ensures Count(AfterShowLoading(ids, false), OverlayId) ==
      if Count(ids, OverlayId) == 0 then 0 else Count(ids, OverlayId) - 1
    ensures y != OverlayId ==> (Count(AfterShowLoading(ids, true), y) == Count(ids, y)
      && Count(AfterShowLoading(ids, false), y) == Count(ids, y))
  {
    CountPositive(ids, OverlayId);
    CountAppend(ids, [OverlayId], OverlayId);
    CountAppend(ids, [OverlayId], y);
    assert Count([OverlayId], y) == (if y == OverlayId then 1 else 0) by {
      assert [OverlayId][1..] == [];
    }
    CountRemoveFirst(ids, OverlayId, OverlayId);
    CountRemoveFirst(ids, OverlayId, y);
  }

  /** The document, as far as the loading overlay is concerned: the ids of its elements in order. */
  class Document {
    var ids: seq<string>

    constructor (ids: seq<string>)
      ensures this.ids == ids
    {
      this.ids := ids;
    }

    /** `showLoading(show = true)`. */
    method ShowLoading(show: bool := true)
      modifies this
      ensures ids == AfterShowLoading(old(ids), show)
    {
      if show {
        if OverlayId !in ids {
          ids := ids + [OverlayId];
        }
      } else {
        if OverlayId in ids {
          ids := RemoveFirst(ids, OverlayId);
        }
      }
    }
  }
}
