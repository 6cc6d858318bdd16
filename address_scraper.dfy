/**
 * The wallet-address scraper that server/api/traders/create.post.ts and
 * server/api/traders/update.post.ts run over a profile page's HTML: first the
 * case-insensitive pattern `"user":"(0x<40 hex>)"`, else the first
 * `0x<40 hex>` of all matches of the global pattern, else nothing.
 */
module AddressScraper {
  import opened Wrappers
  import opened Dedup
  import JsValue

  /** `[a-fA-F0-9]`, which the `i` flag leaves as it is. */
  predicate IsHexDigit(c: char) {
    ('0' <= c <= '9') || ('a' <= c <= 'f') || ('A' <= c <= 'F')
  }

  predicate HexRun(s: string, from: nat, to: nat)
    requires from <= to <= |s|
  {
    forall k :: from <= k < to ==> IsHexDigit(s[k])
  }

  /**
   * A pattern letter under the `i` flag: an ASCII letter matches either case
   * (non-ASCII characters never fold onto ASCII ones without the `u` flag).
   */
  predicate Folds(c: char, lower: char) {
    c == lower || ('a' <= lower <= 'z' && c as int == lower as int - 32)
  }

  /** `/0x[a-fA-F0-9]{40}/` matches at `i`. */
  predicate AddressAt(s: string, i: nat) {
    i + 42 <= |s| && s[i] == '0' && s[i + 1] == 'x' && HexRun(s, i + 2, i + 42)
  }

  /** `/"user":"(0x[a-fA-F0-9]{40})"/i` matches at `i`; the group is `s[i + 8..i + 50]`. */
  predicate UserAddressAt(s: string, i: nat) {
    && i + 51 <= |s|
    && s[i] == '"' && Folds(s[i + 1], 'u') && Folds(s[i + 2], 's') && Folds(s[i + 3], 'e')
    && Folds(s[i + 4], 'r') && s[i + 5] == '"' && s[i + 6] == ':' && s[i + 7] == '"'
    && s[i + 8] == '0' && Folds(s[i + 9], 'x') && HexRun(s, i + 10, i + 50)
    && s[i + 50] == '"'
  }

  /** What either pattern can yield: `0x` or (pattern 1 only) `0X`, then 40 hex digits. */
  predicate LooksLikeAddress(a: string) {
    |a| == 42 && a[0] == '0' && Folds(a[1], 'x') && HexRun(a, 2, 42)
  }

  /** The leftmost position at or after `from` where pattern 1 matches. */
  function FirstUserMatch(s: string, from: nat): (r: Option<nat>)
    requires from <= |s|
    ensures r.Some? ==> from <= r.value && UserAddressAt(s, r.value)
    ensures r.Some? ==> forall j :: from <= j < r.value ==> !UserAddressAt(s, j)
    ensures r.None? ==> forall j :: from <= j ==> !UserAddressAt(s, j)
    decreases |s| - from
  {
    if from + 51 > |s| then None
    else if UserAddressAt(s, from) then Some(from)
    else FirstUserMatch(s, from + 1)
  }

  /** The leftmost position at or after `from` where pattern 2 matches. */
  function FirstAddressMatch(s: string, from: nat): (r: Option<nat>)
    requires from <= |s|
    ensures r.Some? ==> from <= r.value && AddressAt(s, r.value)
    ensures r.Some? ==> forall j :: from <= j < r.value ==> !AddressAt(s, j)
    ensures r.None? ==> forall j :: from <= j ==> !AddressAt(s, j)
    decreases |s| - from
  {
    if from + 42 > |s| then None
    else if AddressAt(s, from) then Some(from)
    else FirstAddressMatch(s, from + 1)
  }

  /**
   * `s.match(/0x[a-fA-F0-9]{40}/g)` from position `from`: all non-overlapping
   * matches, left to right (empty where JavaScript returns null).
   */
  function AddressMatches(s: string, from: nat): (r: seq<string>)
    requires from <= |s|
    ensures forall m :: m in r ==> LooksLikeAddress(m) && m[1] == 'x'
    decreases |s| - from
  {
    if from + 42 > |s| then []
    else if AddressAt(s, from) then
      var m := s[from..from + 42];
      assert LooksLikeAddress(m) && m[1] == 'x' by {
        forall k | 2 <= k < 42 ensures IsHexDigit(m[k]) { assert m[k] == s[from + k]; }
      }
      [m] + AddressMatches(s, from + 42)
    else AddressMatches(s, from + 1)
  }

  /** The global match list starts with the leftmost match, and is empty exactly when there is none. */
  lemma {:induction false} MatchesStartLeftmost(s: string, from: nat)
    requires from <= |s|
    ensures |AddressMatches(s, from)| > 0 <==> FirstAddressMatch(s, from).Some?
    ensures FirstAddressMatch(s, from).Some? ==>
      var k := FirstAddressMatch(s, from).value; AddressMatches(s, from)[0] == s[k..k + 42]
    decreases |s| - from
  {
    if from + 42 <= |s| && !AddressAt(s, from) {
      MatchesStartLeftmost(s, from + 1);
    }
  }

  /** The scraper applied to a fetched page. */
  function ScrapeAddress(html: string): (r: Option<string>)
    ensures r.Some? ==> LooksLikeAddress(r.value)
  {
    match FirstUserMatch(html, 0)
    case Some(i) =>
      var a := html[i + 8..i + 50];
      assert LooksLikeAddress(a) by {
        forall k | 2 <= k < 42 ensures IsHexDigit(a[k]) { assert a[k] == html[i + 8 + k]; }
      }
      Some(a)
    case None =>
      var matches := AddressMatches(html, 0);
      if |matches| > 0 then
        DistinctKeepsFirst(matches);
        assert matches[0] in matches;
        Some(Distinct(matches)[0])
      else None
  }

  /**
   * The scraper yields the group of the leftmost pattern-1 match; failing
   * that, the text of the leftmost pattern-2 match; failing both, nothing.
   */
  lemma ScrapeAddressChoice(html: string)
    ensures FirstUserMatch(html, 0).Some? ==>
      var i := FirstUserMatch(html, 0).value; ScrapeAddress(html) == Some(html[i + 8..i + 50])
    ensures FirstUserMatch(html, 0).None? && FirstAddressMatch(html, 0).Some? ==>
      var k := FirstAddressMatch(html, 0).value; ScrapeAddress(html) == Some(html[k..k + 42])
    ensures FirstUserMatch(html, 0).None? && FirstAddressMatch(html, 0).None? ==> ScrapeAddress(html) == None
  {
    MatchesStartLeftmost(html, 0);
    if FirstUserMatch(html, 0).None? && FirstAddressMatch(html, 0).Some? {
      DistinctKeepsFirst(AddressMatches(html, 0));
    }
  }

  /**
   * The page text the scraper sees: `html` is the body of a successful fetch
   * of the profile URL, or None when the fetch failed, timed out or was not ok.
   */
  function ScrapeFetched(html: Option<string>): (r: Option<string>)
    ensures html.None? ==> r.None?
    ensures html.Some? ==> r == ScrapeAddress(html.value)
  {
    match html
    case None => None
    case Some(page) => ScrapeAddress(page)
  }

  /** `scrapedAddress` as the routes send it: null when nothing was found. */
  function AddressValue(scraped: Option<string>): (v: JsValue.JsValue)
    ensures scraped.None? <==> v == JsValue.JNull
    ensures scraped.Some? ==> v == JsValue.JStr(scraped.value)
  {
    if scraped.Some? then JsValue.JStr(scraped.value) else JsValue.JNull
  }
}
