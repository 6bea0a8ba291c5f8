/**
 * The pure data shaping of the Flask backend: the Pinterest authorization URL
 * and the shopping filter applied to the image-search response.
 * Configuration that the server reads from the environment is passed in as
 * parameters; the HTTP calls themselves are not modelled.
 */
module Backend {
  import opened Wrappers

  // ---------------------------------------------------------------------------
  // Text helpers
  // ---------------------------------------------------------------------------

  /** `sep.join(parts)`. */
  function Join(parts: seq<string>, sep: char): string
  {
    if |parts| == 0 then ""
    else if |parts| == 1 then parts[0]
    else parts[0] + [sep] + Join(parts[1..], sep)
  }

  /** `s.split(sep)`: the maximal pieces of `s` between occurrences of `sep`. */
  function SplitOn(s: string, sep: char): (parts: seq<string>)
    ensures |parts| >= 1
    ensures Join(parts, sep) == s
    ensures forall k :: 0 <= k < |parts| ==> sep !in parts[k]
  {
    if |s| == 0 then [""]
    else
      var rest := SplitOn(s[1..], sep);
      if s[0] == sep then
        assert s == [sep] + s[1..];
        [""] + rest
      else
        var parts := [[s[0]] + rest[0]] + rest[1..];
        assert Join(parts, sep) == s by {
          assert s == [s[0]] + s[1..];
          if |rest| > 1 {
            assert parts[1..] == rest[1..];
            assert Join(parts, sep) == [s[0]] + rest[0] + [sep] + Join(rest[1..], sep);
            assert Join(rest, sep) == rest[0] + [sep] + Join(rest[1..], sep);
          }
        }
        parts
  }

  lemma {:induction false} SplitOnNoSeparator(x: string, sep: char)
    requires sep !in x
    ensures SplitOn(x, sep) == [x]
  {
    if |x| > 0 {
      SplitOnNoSeparator(x[1..], sep);
      assert [x[0]] + x[1..] == x;
    }
  }

  lemma {:induction false} SplitOnFirstPiece(x: string, sep: char, y: string)
    requires sep !in x
    ensures SplitOn(x + [sep] + y, sep) == [x] + SplitOn(y, sep)
  {
    var s := x + [sep] + y;
    if |x| == 0 {
      assert s[1..] == y;
    } else {
      assert s[1..] == x[1..] + [sep] + y;
      SplitOnFirstPiece(x[1..], sep, y);
      assert [x[0]] + x[1..] == x;
    }
  }

  /** `s.partition(c)` when `c` occurs in `s`: the text before its first occurrence and the text after it. */
  function SplitFirst(s: string, c: char): (r: Option<(string, string)>)
    ensures r.None? <==> c !in s
    ensures r.Some? ==> s == r.value.0 + [c] + r.value.1 && c !in r.value.0
  {
    if |s| == 0 then None
    else if s[0] == c then Some(([], s[1..]))
    else match SplitFirst(s[1..], c)
      case None => None
      case Some((before, after)) =>
        assert s == [s[0]] + s[1..];
        Some(([s[0]] + before, after))
  }

  lemma SplitFirstAt(x: string, c: char, y: string)
    requires c !in x
    ensures SplitFirst(x + [c] + y, c) == Some((x, y))
  {
    var s := x + [c] + y;
    assert s[|x|] == c;
    var r := SplitFirst(s, c);
    var (p, q) := r.value;
    assert |p| == |x| by {
      assert s[|p|] == c;
      assert forall i :: 0 <= i < |x| ==> s[i] == x[i];
      assert forall i :: 0 <= i < |p| ==> s[i] == p[i];
    }
    assert p == s[..|x|] == x;
    assert q == s[|x| + 1..] == y;
  }

  // ---------------------------------------------------------------------------
  // The authorization URL (backend/app.py:14, 19-24)
  // ---------------------------------------------------------------------------

  const PinterestOAuthUrl: string := "https://www.pinterest.com/oauth"
  const Scope: string := "boards:read,pins:read"

  /** How a Python f-string renders a value that may be `None`. */
  function Render(v: Option<string>): string
  {
    match v
    case Some(text) => text
    case None => "None"
  }

  /**
   * `pinterest_auth`: the authorization request of section 4.1.1 of RFC 6749.
   * `appId` is the PINTEREST_APP_ID environment variable and `redirectUri`
   * the request's redirect_uri argument; both are inserted verbatim, without
   * percent-encoding.
   */
  function AuthUrl(appId: Option<string>, redirectUri: Option<string>): string
  {
    PinterestOAuthUrl + "?response_type=code&client_id=" + Render(appId)
    + "&redirect_uri=" + Render(redirectUri) + "&scope=" + Scope
  }

  /** One `key=value` component of a query string, as written (no percent-decoding). */
  datatype Param = Param(key: string, value: string)

  /** A URL split into the part before `?` and the components of its query. */
  datatype Url = Url(base: string, query: seq<Param>)

  function ParseParam(part: string): Param
  {
    match SplitFirst(part, '=')
    case None => Param(part, "")
    case Some((key, value)) => Param(key, value)
  }

  function ParseQuery(query: string): (ps: seq<Param>)
    ensures |ps| == |SplitOn(query, '&')|
  {
    var parts := SplitOn(query, '&');
    seq(|parts|, i requires 0 <= i < |parts| => ParseParam(parts[i]))
  }

  /** Read a URL back: the base, then the query up to any `#` fragment, split on `&` and on the first `=`. */
  function ParseUrl(url: string): Url
  {
    match SplitFirst(url, '?')
    case None => Url(url, [])
    case Some((base, rest)) =>
      var query := match SplitFirst(rest, '#')
        case None => rest
        case Some((q, _)) => q;
      Url(base, ParseQuery(query))
  }

  /** A value a query component can carry unchanged: it cannot end the component or the query. */
  predicate QuerySafe(v: string)
  {
    '&' !in v && '#' !in v
  }

  /** The authorization request a server reads back from AuthUrl: the four parameters in order. */
  function AuthRequest(appId: string, redirectUri: string): seq<Param>
  {
    [Param("response_type", "code"), Param("client_id", appId),
     Param("redirect_uri", redirectUri), Param("scope", Scope)]
  }

  lemma ParamAt(key: string, value: string)
    requires '=' !in key
    ensures ParseParam(key + "=" + value) == Param(key, value)
  {
    SplitFirstAt(key, '=', value);
  }

  /** Splitting a join of pieces free of the separator gives the pieces back. */
  lemma {:induction false} SplitOnJoin(parts: seq<string>, sep: char)
    requires |parts| >= 1 && forall k :: 0 <= k < |parts| ==> sep !in parts[k]
    ensures SplitOn(Join(parts, sep), sep) == parts
  {
    if |parts| == 1 {
      SplitOnNoSeparator(parts[0], sep);
    } else {
      SplitOnFirstPiece(parts[0], sep, Join(parts[1..], sep));
      SplitOnJoin(parts[1..], sep);
      assert [parts[0]] + parts[1..] == parts;
    }
  }

  /** A character that is neither the separator nor in any piece is not in their join. */
  lemma {:induction false} NotInJoin(parts: seq<string>, sep: char, c: char)
    requires c != sep && forall k :: 0 <= k < |parts| ==> c !in parts[k]
    ensures c !in Join(parts, sep)
  {
    if |parts| > 1 {
      NotInJoin(parts[1..], sep, c);
    }
  }

  lemma Join4(a: string, b: string, c: string, d: string, sep: char)
    ensures Join([a, b, c, d], sep) == a + [sep] + b + [sep] + c + [sep] + d
  {
    var ps := [a, b, c, d];
    assert ps[1..] == [b, c, d];
    assert ps[1..][1..] == [c, d];
    assert ps[1..][1..][1..] == [d];
    assert Join([c, d], sep) == c + [sep] + d;
    assert Join([b, c, d], sep) == b + [sep] + (c + [sep] + d);
  }

  /** Reading back a URL built from a base without `?` and query pieces without `&` or `#`. */
  lemma ParseJoinedUrl(base: string, parts: seq<string>)
    requires '?' !in base && |parts| >= 1
    requires forall k :: 0 <= k < |parts| ==> '&' !in parts[k] && '#' !in parts[k]
    ensures var u := ParseUrl(base + "?" + Join(parts, '&'));
      u.base == base && |u.query| == |parts| && forall k :: 0 <= k < |parts| ==> u.query[k] == ParseParam(parts[k])
  {
    var q := Join(parts, '&');
    SplitFirstAt(base, '?', q);
    NotInJoin(parts, '&', '#');
    SplitOnJoin(parts, '&');
  }

  /** A query key: it cannot end the key, the component or the query. */
  predicate KeySafe(k: string)
  {
    '=' !in k && QuerySafe(k)
  }

  /** Reading back a base and four `key=value` components gives exactly those four parameters. */
  lemma ParseFourParams(base: string, k0: string, v0: string, k1: string, v1: string,
                        k2: string, v2: string, k3: string, v3: string)
    requires '?' !in base
    requires KeySafe(k0) && KeySafe(k1) && KeySafe(k2) && KeySafe(k3)
    requires QuerySafe(v0) && QuerySafe(v1) && QuerySafe(v2) && QuerySafe(v3)
    ensures ParseUrl(base + "?" + Join([k0 + "=" + v0, k1 + "=" + v1, k2 + "=" + v2, k3 + "=" + v3], '&'))
      == Url(base, [Param(k0, v0), Param(k1, v1), Param(k2, v2), Param(k3, v3)])
  {
    var ps := [k0 + "=" + v0, k1 + "=" + v1, k2 + "=" + v2, k3 + "=" + v3];
    ParseJoinedUrl(base, ps);
    ParamAt(k0, v0);
    ParamAt(k1, v1);
    ParamAt(k2, v2);
    ParamAt(k3, v3);
  }

  /** The literal pieces of AuthUrl regrouped as the endpoint, `?` and `&`-separated components. */
  lemma Regroup(base: string, l1: string, a: string, l2: string, r: string, l3: string, scope: string,
                q: string, amp: string, p0: string, c1: string, c2: string, c3: string)
    requires l1 == q + p0 + amp + c1 && l2 == amp + c2 && l3 == amp + c3
    ensures base + l1 + a + l2 + r + l3 + scope
      == base + q + (p0 + amp + (c1 + a) + amp + (c2 + r) + amp + (c3 + scope))
  {
  }

  /** AuthUrl is the OAuth endpoint, `?`, and the join of four `key=value` components. */
  lemma AuthUrlParts(a: string, r: string)
    ensures AuthUrl(Some(a), Some(r)) == PinterestOAuthUrl + "?"
      + Join(["response_type" + "=" + "code", "client_id" + "=" + a, "redirect_uri" + "=" + r, "scope" + "=" + Scope], '&')
  {
    Join4("response_type" + "=" + "code", "client_id" + "=" + a, "redirect_uri" + "=" + r, "scope" + "=" + Scope, '&');
    Regroup(PinterestOAuthUrl, "?response_type=code&client_id=", a, "&redirect_uri=", r, "&scope=", Scope,
            "?", "&", "response_type" + "=" + "code", "client_id" + "=", "redirect_uri" + "=", "scope" + "=");
  }

  /** The fixed parts of the authorization request need no encoding. */
  lemma OAuthUrlHasNoQuery()
    ensures '?' !in PinterestOAuthUrl
  {
  }

  lemma AuthKeysSafe()
    ensures KeySafe("response_type") && KeySafe("client_id")
    ensures KeySafe("redirect_uri") && KeySafe("scope")
  {
  }

  lemma AuthFixedValuesSafe()
    ensures QuerySafe("code") && QuerySafe(Scope)
  {
  }

  /**
   * Round trip: for an app id and a redirect URI that contain no `&` or `#`,
   * reading AuthUrl back yields the OAuth endpoint and exactly the four
   * parameters of the authorization request, each value as given.
   */
  lemma AuthUrlRoundTrip(appId: string, redirectUri: string)
    requires QuerySafe(appId) && QuerySafe(redirectUri)
    ensures ParseUrl(AuthUrl(Some(appId), Some(redirectUri))) == Url(PinterestOAuthUrl, AuthRequest(appId, redirectUri))
  {
    AuthUrlParts(appId, redirectUri);
    OAuthUrlHasNoQuery();
    AuthKeysSafe();
    AuthFixedValuesSafe();
    ParseFourParams(PinterestOAuthUrl, "response_type", "code", "client_id", appId,
                    "redirect_uri", redirectUri, "scope", Scope);
  }

  /** With PINTEREST_APP_ID unset, the URL carries the literal text "None" as the client id. */
  lemma AuthUrlWithoutAppId(redirectUri: string)
    requires QuerySafe(redirectUri)
    ensures ParseUrl(AuthUrl(None, Some(redirectUri))) == Url(PinterestOAuthUrl, AuthRequest("None", redirectUri))
  {
    assert QuerySafe("None") by {}
    assert AuthUrl(None, Some(redirectUri)) == AuthUrl(Some("None"), Some(redirectUri));
    AuthUrlRoundTrip("None", redirectUri);
  }

  /** A piece holding the separator reads as two pieces. */
  lemma JoinSplitsPiece(p0: string, p1: string, k: string, before: string, after: string, p3: string, sep: char)
    ensures Join([p0, p1, k + (before + [sep] + after), p3], sep) == Join([p0, p1, k + before, after, p3], sep)
  {
    var ps5 := [p0, p1, k + before, after, p3];
    Join4(p0, p1, k + (before + [sep] + after), p3, sep);
    Join4(p1, k + before, after, p3, sep);
    assert ps5[1..] == [p1, k + before, after, p3];
  }

  /** Reading back a base and five components, the fourth of which is not a fixed `key=value`. */
  lemma ParseFiveParts(base: string, k0: string, v0: string, k1: string, v1: string,
                       k2: string, v2: string, mid: string, k3: string, v3: string)
    requires '?' !in base
    requires KeySafe(k0) && KeySafe(k1) && KeySafe(k2) && KeySafe(k3)
    requires QuerySafe(v0) && QuerySafe(v1) && QuerySafe(v2) && QuerySafe(mid) && QuerySafe(v3)
    ensures ParseUrl(base + "?" + Join([k0 + "=" + v0, k1 + "=" + v1, k2 + "=" + v2, mid, k3 + "=" + v3], '&'))
      == Url(base, [Param(k0, v0), Param(k1, v1), Param(k2, v2), ParseParam(mid), Param(k3, v3)])
  {
    ParseJoinedUrl(base, [k0 + "=" + v0, k1 + "=" + v1, k2 + "=" + v2, mid, k3 + "=" + v3]);
    ParamAt(k0, v0);
    ParamAt(k1, v1);
    ParamAt(k2, v2);
    ParamAt(k3, v3);
  }

  /**
   * Because redirect_uri is not percent-encoded, a redirect URI whose own
   * query holds an `&` splits the authorization request: the server reads a
   * truncated redirect_uri followed by an extra parameter.
   */
  lemma UnencodedRedirectUriSplits(appId: string, before: string, after: string)
    requires QuerySafe(appId) && QuerySafe(before) && QuerySafe(after)
    ensures ParseUrl(AuthUrl(Some(appId), Some(before + "&" + after))) == Url(PinterestOAuthUrl,
      [Param("response_type", "code"), Param("client_id", appId), Param("redirect_uri", before),
       ParseParam(after), Param("scope", Scope)])
  {
    AuthUrlParts(appId, before + "&" + after);
    JoinSplitsPiece("response_type" + "=" + "code", "client_id" + "=" + appId, "redirect_uri" + "=",
                    before, after, "scope" + "=" + Scope, '&');
    OAuthUrlHasNoQuery();
    AuthKeysSafe();
    AuthFixedValuesSafe();
    ParseFiveParts(PinterestOAuthUrl, "response_type", "code", "client_id", appId,
                   "redirect_uri", before, after, "scope", Scope);
  }

  // ---------------------------------------------------------------------------
  // The shopping filter of search_products (backend/app.py:66-79)
  // ---------------------------------------------------------------------------

  /** `str.lower()` on ASCII letters. */
  function LowerChar(c: char): char
  {
    if 'A' <= c <= 'Z' then (c as int + 32) as char else c
  }

  function Lower(s: string): string
  {
    seq(|s|, i requires 0 <= i < |s| => LowerChar(s[i]))
  }

  /** `pat` occurs in `text` starting at index `k`. */
  ghost predicate OccursAt(pat: string, text: string, k: int)
  {
    0 <= k <= |text| - |pat| && text[k..k + |pat|] == pat
  }

  /** Python's `pat in text` on strings: substring search. */
  function Contains(text: string, pat: string): (b: bool)
    ensures b <==> exists k :: OccursAt(pat, text, k)
    decreases |text|
  {
    if |pat| > |text| then false
    else if text[..|pat|] == pat then
      assert OccursAt(pat, text, 0);
      true
    else
      var b := Contains(text[1..], pat);
      assert b ==> exists k :: OccursAt(pat, text, k) by {
        if b {
          var k :| OccursAt(pat, text[1..], k);
          assert text[k + 1..k + 1 + |pat|] == text[1..][k..k + |pat|];
          assert OccursAt(pat, text, k + 1);
        }
      }
      assert (exists k :: OccursAt(pat, text, k)) ==> b by {
        if k :| OccursAt(pat, text, k) {
          assert k != 0;
          assert text[1..][k - 1..k - 1 + |pat|] == text[k..k + |pat|];
          assert OccursAt(pat, text[1..], k - 1);
        }
      }
      b
  }

  const ShoppingDomains: seq<string> :=
    ["amazon.com", "ebay.com", "etsy.com", "asos.com", "zara.com",
     "nordstrom.com", "macys.com", "h&m.com", "gap.com", "uniqlo.com"]

  /** Python's `any(d in text for d in domains)`. */
  function AnyDomainIn(text: string, domains: seq<string>): (b: bool)
    ensures b <==> exists i :: 0 <= i < |domains| && Contains(text, domains[i])
  {
    if |domains| == 0 then false
    else
      var b := Contains(text, domains[0]) || AnyDomainIn(text, domains[1..]);
      assert (exists i :: 0 <= i < |domains| && Contains(text, domains[i])) ==> b by {
        if i :| 0 <= i < |domains| && Contains(text, domains[i]) {
          if i > 0 { assert domains[1..][i - 1] == domains[i]; }
        }
      }
      b
  }

  /** A link is a shopping link when its lower-cased text contains one of the shopping domains. */
  predicate IsShoppingLink(link: string)
  {
    AnyDomainIn(Lower(link), ShoppingDomains)
  }

  /** The `image` object of a search item. */
  datatype ImageInfo = ImageInfo(thumbnailLink: Option<string>)

  /** One entry of the search API's `items` array; a key the entry lacks is None. */
  datatype Item = Item(title: Option<string>, link: Option<string>, image: Option<ImageInfo>)

  /** The JSON body of the search API's response; `items` may be absent. */
  datatype SearchResponse = SearchResponse(items: Option<seq<Item>>)

  /** One element of the `results` list returned to the frontend. */
  datatype Product = Product(title: string, link: string, image: string)

  /** The `KeyError` raised by `item[key]` for a missing key; it aborts the request. */
  datatype KeyError = KeyError(key: string)

  /** `results.get('items', [])`. */
  function ItemsOf(response: SearchResponse): seq<Item>
  {
    match response.items
    case Some(items) => items
    case None => []
  }

  /** `item.get('image', {}).get('thumbnailLink', '')`. */
  function Thumbnail(item: Item): string
  {
    match item.image
    case None => ""
    case Some(info) =>
      match info.thumbnailLink
      case None => ""
      case Some(t) => t
  }

  /** What one iteration of the loop does with an item. */
  datatype Verdict = Abort(error: KeyError) | Skip | Keep(product: Product)

  /**
   * The link is read first; the title is read only for an item that is kept.
   * The loop aborts exactly on the items Aborts names, keeps exactly the
   * matching items that have a title, and a kept item's product copies its
   * title and link and takes its thumbnail or ''.
   */
  function Examine(item: Item): (v: Verdict)
    ensures v.Abort? <==> Aborts(item)
    ensures v.Keep? <==> Matches(item) && item.title.Some?
    ensures v.Abort? ==> v.error == KeyError(if item.link.None? then "link" else "title")
    ensures v.Keep? ==> v.product == Product(item.title.value, item.link.value, Thumbnail(item))
  {
    match item.link
    case None => Abort(KeyError("link"))
    case Some(link) =>
      if !IsShoppingLink(link) then Skip
      else match item.title
        case None => Abort(KeyError("title"))
        case Some(title) => Keep(Product(title, link, Thumbnail(item)))
  }

  /** The result of running the loop over `items`, defined item by item from the front. */
  function ShoppingResults(items: seq<Item>): Result<seq<Product>, KeyError>
  {
    if |items| == 0 then Ok([])
    else match ShoppingResults(items[..|items| - 1])
      case Err(e) => Err(e)
      case Ok(kept) =>
        match Examine(items[|items| - 1])
        case Abort(e) => Err(e)
        case Skip => Ok(kept)
        case Keep(p) => Ok(kept + [p])
  }

  /** Once a prefix has aborted, the whole loop ends with that error. */
  lemma {:induction false} AbortIsFinal(items: seq<Item>, j: nat)
    requires j <= |items| && ShoppingResults(items[..j]).Err?
    ensures ShoppingResults(items) == ShoppingResults(items[..j])
    decreases |items| - j
  {
    if j < |items| {
      assert items[..j + 1][..j] == items[..j];
      AbortIsFinal(items, j + 1);
    } else {
      assert items[..j] == items;
    }
  }

  /** The filter loop of search_products, over the items of a search response. */
  method FilterShoppingResults(response: SearchResponse) returns (r: Result<seq<Product>, KeyError>)
    ensures r == ShoppingResults(ItemsOf(response))
  {
    var items := ItemsOf(response);
    var shopping: seq<Product> := [];
    var i := 0;
    while i < |items|
      invariant 0 <= i <= |items|
      invariant ShoppingResults(items[..i]) == Ok(shopping)
    {
      var item := items[i];
      assert items[..i + 1][..i] == items[..i];
      if item.link.None? {
        AbortIsFinal(items, i + 1);
        return Err(KeyError("link"));
      }
      if IsShoppingLink(item.link.value) {
        if item.title.None? {
          AbortIsFinal(items, i + 1);
          return Err(KeyError("title"));
        }
        shopping := shopping + [Product(item.title.value, item.link.value, Thumbnail(item))];
      }
      i := i + 1;
    }
    assert items[..i] == items;
    r := Ok(shopping);
  }

  /** The items the filter keeps: those that have a link and whose link is a shopping link. */
  predicate Matches(item: Item)
  {
    item.link.Some? && IsShoppingLink(item.link.value)
  }

  /** The positions of the kept items, in increasing order. */
  function KeptIndices(items: seq<Item>): (idx: seq<nat>)
    ensures forall k :: 0 <= k < |idx| ==> idx[k] < |items|
    ensures forall k, l :: 0 <= k < l < |idx| ==> idx[k] < idx[l]
    ensures forall i :: 0 <= i < |items| ==> (i in idx <==> Matches(items[i]))
  {
    if |items| == 0 then []
    else
      var front := items[..|items| - 1];
      var rest := KeptIndices(front);
      assert forall i :: 0 <= i < |front| ==> front[i] == items[i];
      if Matches(items[|items| - 1]) then rest + [|items| - 1] else rest
  }

  /** An item the loop would abort on. */
  predicate Aborts(item: Item)
  {
    item.link.None? || (IsShoppingLink(item.link.value) && item.title.None?)
  }

  /** The filter succeeds exactly when no item lacks a link and no kept item lacks a title. */
  lemma {:induction false} ShoppingSucceedsIff(items: seq<Item>)
    ensures ShoppingResults(items).Ok? <==> forall i :: 0 <= i < |items| ==> !Aborts(items[i])
  {
    if |items| > 0 {
      var front := items[..|items| - 1];
      ShoppingSucceedsIff(front);
      assert forall i :: 0 <= i < |front| ==> front[i] == items[i];
    }
  }

  /** An item without a `link` key aborts the whole request instead of being skipped. */
  lemma MissingLinkAborts(items: seq<Item>, j: nat)
    requires j < |items| && items[j].link.None?
    ensures ShoppingResults(items).Err?
  {
    ShoppingSucceedsIff(items);
    assert Aborts(items[j]);
  }

  /** On an abort, the error is that of the first offending item. */
  lemma {:induction false} AbortReportsFirstOffender(items: seq<Item>)
    requires ShoppingResults(items).Err?
    ensures exists j :: (0 <= j < |items| && Examine(items[j]) == Abort(ShoppingResults(items).error)
      && forall i :: 0 <= i < j ==> !Aborts(items[i]))
  {
    var front := items[..|items| - 1];
    assert forall i :: 0 <= i < |front| ==> front[i] == items[i];
    if ShoppingResults(front).Err? {
      AbortReportsFirstOffender(front);
      var j :| 0 <= j < |front| && Examine(front[j]) == Abort(ShoppingResults(front).error)
        && forall i :: 0 <= i < j ==> !Aborts(front[i]);
      assert Examine(items[j]) == Abort(ShoppingResults(items).error);
    } else {
      ShoppingSucceedsIff(front);
      assert Examine(items[|items| - 1]) == Abort(ShoppingResults(items).error);
    }
  }

  /**
   * On success the results are exactly the kept items, in input order: the
   * k-th result comes from the item at KeptIndices(items)[k], with its title
   * and link copied unchanged and its thumbnail link or ''.
   */
  lemma {:induction false} ShoppingResultsAreKeptItems(items: seq<Item>, r: seq<Product>)
    requires ShoppingResults(items) == Ok(r)
    ensures |r| == |KeptIndices(items)|
    ensures forall k :: 0 <= k < |r| ==>
      var item := items[KeptIndices(items)[k]];
      item.title == Some(r[k].title) && item.link == Some(r[k].link) && r[k].image == Thumbnail(item)
  {
    if |items| > 0 {
      var n := |items| - 1;
      var front := items[..n];
      var kept :| ShoppingResults(front) == Ok(kept);
      ShoppingResultsAreKeptItems(front, kept);
      assert forall i :: 0 <= i < |front| ==> front[i] == items[i];
      if Matches(items[n]) {
        assert KeptIndices(items) == KeptIndices(front) + [n];
        assert r == kept + [Examine(items[n]).product];
      } else {
        assert KeptIndices(items) == KeptIndices(front);
        assert r == kept;
      }
    }
  }

  /** The filter never returns more results than there were items. */
  lemma {:induction false} ShoppingResultsNoLonger(items: seq<Item>, r: seq<Product>)
    requires ShoppingResults(items) == Ok(r)
    ensures |r| <= |items|
  {
    if |items| > 0 {
      var kept :| ShoppingResults(items[..|items| - 1]) == Ok(kept);
      ShoppingResultsNoLonger(items[..|items| - 1], kept);
    }
  }

  /** A response without an `items` key yields an empty result list. */
  lemma NoItemsNoResults()
    ensures ShoppingResults(ItemsOf(SearchResponse(None))) == Ok([])
  {
  }

  /** Lower-casing works character by character. */
  lemma LowerConcat(a: string, b: string)
    ensures Lower(a + b) == Lower(a) + Lower(b)
  {
  }

  /**
   * Matching is by substring and ignores case: an item whose link contains a
   * shopping domain anywhere, in any letter case, is kept, and its result
   * carries the link exactly as written.
   */
  lemma DomainAnywhereIsKept(title: string, prefix: string, domain: string, suffix: string,
                             image: Option<ImageInfo>, d: nat)
    requires d < |ShoppingDomains| && Lower(domain) == ShoppingDomains[d]
    ensures var item := Item(Some(title), Some(prefix + domain + suffix), image);
      ShoppingResults([item]) == Ok([Product(title, prefix + domain + suffix, Thumbnail(item))])
  {
    var link := prefix + domain + suffix;
    LowerConcat(prefix + domain, suffix);
    LowerConcat(prefix, domain);
    assert Lower(link)[|prefix|..|prefix| + |domain|] == ShoppingDomains[d];
    assert OccursAt(ShoppingDomains[d], Lower(link), |prefix|);
    assert Contains(Lower(link), ShoppingDomains[d]);
    assert IsShoppingLink(link);
    var item := Item(Some(title), Some(link), image);
    assert Examine(item) == Keep(Product(title, link, Thumbnail(item)));
    assert [item][..0] == [];
    assert ShoppingResults([item][..0]) == Ok([]);
    assert [item][0] == item;
    var p := Product(title, link, Thumbnail(item));
    assert ShoppingResults([item]) == Ok([] + [p]);
    assert [] + [p] == [p];
  }
}
