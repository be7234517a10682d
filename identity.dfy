/**
 * Identity derivation (`get_pack_info`): the display title is stripped of
 * surrounding whitespace and of the characters a file system cannot take,
 * and the pack id and its kind come from the product URL.
 */
module PageIdentifier {
  import opened Util

  datatype PackType = Sticker | Emoji

  /**
   * What fetching and parsing the store page produced: either the request
   * failed, or the page was read and each of the two title selectors
   * (current layout, then legacy layout) found an element with the given
   * text, or none.
   */
  datatype PageFetch =
    | FetchFailed
    | Fetched(currentLayoutTitle: Option<string>, legacyLayoutTitle: Option<string>)

  /** The triple `get_pack_info` returns; each part may be None. */
  datatype PackInfo = PackInfo(id: Option<string>, title: Option<string>, kind: Option<PackType>)

  const NoInfo := PackInfo(None, None, None)

  // ---------------------------------------------------------------------
  // Title: strip, then sanitise
  // ---------------------------------------------------------------------

  /** Python's `str.isspace`: the characters `str.strip()` removes. */
  predicate IsSpace(c: char) {
    || ('\t' <= c <= '\r')                 // U+0009 .. U+000D
    || ('\U{1C}' <= c <= ' ')               // U+001C .. U+0020
    || c == '\U{85}' || c == '\U{A0}' || c == '\U{1680}'
    || ('\U{2000}' <= c <= '\U{200A}')
    || c == '\U{2028}' || c == '\U{2029}' || c == '\U{202F}' || c == '\U{205F}' || c == '\U{3000}'
  }

  /** Leading whitespace removed. */
  function TrimStart(s: string): (r: string)
    ensures |r| <= |s| && r == s[|s| - |r|..]
    ensures forall i :: 0 <= i < |s| - |r| ==> IsSpace(s[i])
    ensures r == [] || !IsSpace(r[0])
  {
    if s != [] && IsSpace(s[0]) then TrimStart(s[1..]) else s
  }

  /** Trailing whitespace removed. */
  function TrimEnd(s: string): (r: string)
    ensures |r| <= |s| && r == s[..|r|]
    ensures forall i :: |r| <= i < |s| ==> IsSpace(s[i])
    ensures r == [] || !IsSpace(r[|r| - 1])
  {
    if s != [] && IsSpace(s[|s| - 1]) then TrimEnd(s[..|s| - 1]) else s
  }

  /** `str.strip()`. */
  function Strip(s: string): string {
    TrimEnd(TrimStart(s))
  }

  /** Everything in front of `i` and from `j` on is whitespace. */
  predicate TrimmedOnlySpace(s: string, i: nat, j: nat) {
    && (forall k :: 0 <= k < i && k < |s| ==> IsSpace(s[k]))
    && (forall k :: j <= k < |s| ==> IsSpace(s[k]))
  }

  /** Whitespace cut from the front of `s` to leave `t`, then from the back of `t` to leave `r`. */
  lemma TrimmedSlice(s: string, t: string, r: string)
    requires |t| <= |s| && t == s[|s| - |t|..] && forall k :: 0 <= k < |s| - |t| ==> IsSpace(s[k])
    requires |r| <= |t| && r == t[..|r|] && forall k :: |r| <= k < |t| ==> IsSpace(t[k])
    ensures exists i, j :: 0 <= i <= j <= |s| && r == s[i..j] && TrimmedOnlySpace(s, i, j)
  {
    var i := |s| - |t|;
    forall k | i + |r| <= k < |s| ensures IsSpace(s[k]) {
      assert s[k] == t[k - i];
    }
    assert r == s[i..i + |r|] && TrimmedOnlySpace(s, i, i + |r|);
  }

  /**
   * The stripped title is a contiguous slice of the text with only
   * whitespace cut off on either side.
   */
  lemma StripIsTrimmedSlice(s: string)
    ensures exists i, j :: 0 <= i <= j <= |s| && Strip(s) == s[i..j] && TrimmedOnlySpace(s, i, j)
  {
    TrimmedSlice(s, TrimStart(s), Strip(s));
  }

  /** The stripped title neither starts nor ends with whitespace. */
  lemma StripEndsClean(s: string)
    ensures Strip(s) == [] || (!IsSpace(Strip(s)[0]) && !IsSpace(Strip(s)[|Strip(s)| - 1]))
  {
    var t := TrimStart(s);
    var r := TrimEnd(t);
    if r != [] {
      assert r[0] == t[0];
    }
  }

  /** Stripping an already stripped title changes nothing. */
  lemma StripIdempotent(s: string)
    ensures Strip(Strip(s)) == Strip(s)
  {
    var r := Strip(s);
    if r != [] {
      assert !IsSpace(r[0]);
      assert TrimStart(r) == r;
      assert TrimEnd(r) == r;
    }
  }

  /**
   * The nine characters the title filter deletes: backslash, slash, star,
   * question mark, colon, double quote, greater-than, less-than and bar.
   */
  predicate IsForbidden(c: char) {
    c == '\\' || c == '/' || c == '*' || c == '?' || c == ':' || c == '"' || c == '>' || c == '<' || c == '|'
  }

  predicate IsClean(s: string) {
    forall i :: 0 <= i < |s| ==> !IsForbidden(s[i])
  }

  /** The title with every forbidden character deleted. */
  function Sanitize(s: string): (r: string)
    ensures IsClean(r)
    ensures |r| <= |s|
  {
    if s == [] then []
    else if IsForbidden(s[0]) then Sanitize(s[1..])
    else [s[0]] + Sanitize(s[1..])
  }

  /**
   * Sanitising distributes over concatenation; together with the
   * single-character case (`Sanitize([c])` is `[]` for a forbidden `c` and
   * `[c]` otherwise) this says the result keeps every other character,
   * in its original order.
   */
  lemma {:induction false} SanitizeAppend(a: string, b: string)
    ensures Sanitize(a + b) == Sanitize(a) + Sanitize(b)
    decreases |a|
  {
    if a == [] {
      assert a + b == b;
    } else {
      assert (a + b)[0] == a[0];
      assert (a + b)[1..] == a[1..] + b;
      SanitizeAppend(a[1..], b);
    }
  }

  lemma SanitizeSingle(c: char)
    ensures Sanitize([c]) == if IsForbidden(c) then [] else [c]
  {
    assert [c][1..] == [];
  }

  /** A title without forbidden characters is left as it is. */
  lemma {:induction false} SanitizeKeepsClean(s: string)
    requires IsClean(s)
    ensures Sanitize(s) == s
  {
    if s != [] {
      assert IsClean(s[1..]);
      SanitizeKeepsClean(s[1..]);
      assert [s[0]] + s[1..] == s;
    }
  }

  /** Sanitising twice is sanitising once. */
  lemma SanitizeIdempotent(s: string)
    ensures Sanitize(Sanitize(s)) == Sanitize(s)
  {
    SanitizeKeepsClean(Sanitize(s));
  }

  /** The title `get_pack_info` keeps for a found title element's text. */
  function CleanTitle(text: string): (r: string)
    ensures IsClean(r) && |r| <= |text|
  {
    Sanitize(Strip(text))
  }

  // ---------------------------------------------------------------------
  // URL: `re.search(r'/product/(\d+)', url)` and the hex variant
  // ---------------------------------------------------------------------

  /** Which character class the id group uses: `\d` or `[a-fA-F0-9]`. */
  datatype IdAlphabet = Decimal | Hexadecimal

  predicate InAlphabet(a: IdAlphabet, c: char) {
    match a
    case Decimal => IsDigit(c)
    case Hexadecimal => IsHexDigit(c)
  }

  const ProductPath: string := "/product/"

  /** The search pattern matches at index `i`: `/product/` and at least one id character. */
  predicate ProductAt(url: string, a: IdAlphabet, i: nat) {
    OccursAt(url, i, ProductPath) && i + |ProductPath| < |url| && InAlphabet(a, url[i + |ProductPath|])
  }

  /** `id` is the whole run of id characters that starts at index `start`. */
  predicate MaximalRunAt(url: string, a: IdAlphabet, start: nat, id: string) {
    && start + |id| <= |url| && id == url[start..start + |id|]
    && (forall k :: 0 <= k < |id| ==> InAlphabet(a, id[k]))
    && (start + |id| == |url| || !InAlphabet(a, url[start + |id|]))
  }

  /** The longest run of id characters starting at `i` (the greedy `+`). */
  function IdRun(url: string, a: IdAlphabet, i: nat): (r: string)
    requires i <= |url|
    ensures i + |r| <= |url| && r == url[i..i + |r|]
    ensures forall k :: 0 <= k < |r| ==> InAlphabet(a, r[k])
    ensures i + |r| == |url| || !InAlphabet(a, url[i + |r|])
    decreases |url| - i
  {
    if i < |url| && InAlphabet(a, url[i]) then [url[i]] + IdRun(url, a, i + 1) else []
  }

  /** The leftmost index at or after `from` where the search pattern matches. */
  function FindProduct(url: string, a: IdAlphabet, from: nat): (r: Option<nat>)
    ensures r.Some? ==> from <= r.value && ProductAt(url, a, r.value)
    ensures r.Some? ==> forall j :: from <= j < r.value ==> !ProductAt(url, a, j)
    ensures r.None? ==> forall j :: from <= j ==> !ProductAt(url, a, j)
    decreases |url| - from
  {
    if from + |ProductPath| >= |url| then None
    else if ProductAt(url, a, from) then Some(from)
    else FindProduct(url, a, from + 1)
  }

  /** `match.group(1)` of the search, or None when there is no match. */
  function ProductId(url: string, a: IdAlphabet): (r: Option<string>)
    ensures r.Some? ==> r.value != [] && forall k :: 0 <= k < |r.value| ==> InAlphabet(a, r.value[k])
    ensures r.Some? <==> exists i: nat :: ProductAt(url, a, i)
  {
    match FindProduct(url, a, 0)
    case None => None
    case Some(i) => Some(IdRun(url, a, i + |ProductPath|))
  }

  /**
   * The id is the maximal run of id characters right behind the leftmost
   * `/product/` that is followed by at least one of them.
   */
  lemma ProductIdIsLeftmostMaximalRun(url: string, a: IdAlphabet)
    requires ProductId(url, a).Some?
    ensures exists i: nat ::
      && ProductAt(url, a, i)
      && (forall j :: 0 <= j < i ==> !ProductAt(url, a, j))
      && MaximalRunAt(url, a, i + |ProductPath|, ProductId(url, a).value)
  {
    var i := FindProduct(url, a, 0).value;
    assert ProductAt(url, a, i);
    assert MaximalRunAt(url, a, i + |ProductPath|, ProductId(url, a).value);
  }

  /**
   * The kind and id for a URL: a URL mentioning `stickershop` is a sticker
   * pack with a decimal id; only otherwise is `emojishop` tried, with a hex
   * id; a URL without a match gives nothing.
   */
  function Classify(url: string): (r: Option<(string, PackType)>)
    ensures r.Some? ==> r.value.0 != []
    ensures r.Some? ==> (r.value.1 == Sticker <==> Contains(url, "stickershop"))
    ensures r.Some? ==> Contains(url, "stickershop") || Contains(url, "emojishop")
  {
    if Contains(url, "stickershop") then
      (match ProductId(url, Decimal)
       case Some(id) => Some((id, Sticker))
       case None => None)
    else if Contains(url, "emojishop") then
      (match ProductId(url, Hexadecimal)
       case Some(id) => Some((id, Emoji))
       case None => None)
    else None
  }

  /** A `stickershop` URL is classified exactly when it has a decimal product id. */
  lemma ClassifyStickerShop(url: string)
    requires Contains(url, "stickershop")
    ensures Classify(url).Some? <==> exists i: nat :: ProductAt(url, Decimal, i)
    ensures Classify(url).Some? ==> Classify(url) == Some((ProductId(url, Decimal).value, Sticker))
    ensures Classify(url).Some? ==> AllDigits(Classify(url).value.0)
  {
  }

  /** An `emojishop` URL without `stickershop` is classified exactly when it has a hex product id. */
  lemma ClassifyEmojiShop(url: string)
    requires !Contains(url, "stickershop") && Contains(url, "emojishop")
    ensures Classify(url).Some? <==> exists i: nat :: ProductAt(url, Hexadecimal, i)
    ensures Classify(url).Some? ==> Classify(url) == Some((ProductId(url, Hexadecimal).value, Emoji))
  {
  }

  /** A URL with both substrings is never treated as an emoji pack. */
  lemma BothShopsMeansSticker(url: string)
    requires Contains(url, "stickershop") && Contains(url, "emojishop")
    ensures Classify(url).None? || Classify(url).value.1 == Sticker
  {
  }

  // ---------------------------------------------------------------------
  // get_pack_info
  // ---------------------------------------------------------------------

  /** The title element's text: the current layout's selector first, then the legacy one. */
  function TitleText(current: Option<string>, legacy: Option<string>): Option<string> {
    if current.Some? then current else legacy
  }

  /** All three parts set, or none of them. */
  predicate AllOrNothing(info: PackInfo) {
    info.id.Some? == info.title.Some? && info.title.Some? == info.kind.Some?
  }

  function GetPackInfo(url: string, page: PageFetch): (r: PackInfo)
    ensures AllOrNothing(r)
    ensures r.title.Some? ==> r.title.value != [] && IsClean(r.title.value)
    ensures r.id.Some? ==> r.id.value != []
  {
    match page
    case FetchFailed => NoInfo
    case Fetched(current, legacy) =>
      var tag := TitleText(current, legacy);
      if tag.None? then NoInfo
      else
        var title := CleanTitle(tag.value);
        match Classify(url)
        case None => NoInfo
        case Some((id, kind)) =>
          if id != [] && title != [] then PackInfo(Some(id), Some(title), Some(kind)) else NoInfo
  }

  /**
   * `get_pack_info` succeeds exactly when the page was fetched, one of the
   * two selectors found a title, that title is non-empty after cleaning and
   * the URL yields an id and kind; it then returns that cleaned title and
   * the URL's id and kind.
   */
  lemma GetPackInfoSucceedsIff(url: string, page: PageFetch)
    ensures GetPackInfo(url, page).id.Some? <==>
      (&& page.Fetched?
       && TitleText(page.currentLayoutTitle, page.legacyLayoutTitle).Some?
       && CleanTitle(TitleText(page.currentLayoutTitle, page.legacyLayoutTitle).value) != []
       && Classify(url).Some?)
    ensures GetPackInfo(url, page).id.Some? ==>
      (&& GetPackInfo(url, page).title == Some(CleanTitle(TitleText(page.currentLayoutTitle, page.legacyLayoutTitle).value))
       && GetPackInfo(url, page).id == Some(Classify(url).value.0)
       && GetPackInfo(url, page).kind == Some(Classify(url).value.1))
  {
  }
}
