/** The address handling of the web scraper `BillScraper`: the path-segment
    parser of congress.gov bill addresses, and the rewrite of 119th-congress
    addresses to the 118th congress before every request. The requests, the
    delays and the page scraping are not part of this model. */
module BillScraper {
  import opened Wrappers
  import opened PyStr
  import CongressApi

  // ---------------------------------------------------------------------
  // urlparse(url).path
  // ---------------------------------------------------------------------

  predicate IsAsciiLetter(c: char) {
    ('a' <= c <= 'z') || ('A' <= c <= 'Z')
  }

  /** The characters a scheme may hold. */
  predicate IsSchemeChar(c: char) {
    IsAsciiLetter(c) || IsDigit(c) || c == '+' || c == '-' || c == '.'
  }

  /** Every character of `s` may appear in a scheme. */
  predicate SchemeChars(s: string) {
    s == [] || (IsSchemeChar(s[0]) && SchemeChars(s[1..]))
  }

  predicate NotColon(c: char) {
    c != ':'
  }

  /** The length of the `scheme:` prefix: up to the first `:`, when that part
      is non-empty, starts with a letter and holds only scheme characters;
      nothing otherwise. */
  function SchemeLen(url: string): (n: nat)
    ensures n <= |url|
  {
    var i := RunLen(url, NotColon);
    if 0 < i < |url| && IsAsciiLetter(url[0]) && SchemeChars(url[..i]) then i + 1 else 0
  }

  /** A character inside the host part: not `/`, `?` or `#`. */
  predicate InNetloc(c: char) {
    c != '/' && c != '?' && c != '#'
  }

  /** A character inside the path: not `?` or `#`. */
  predicate InPath(c: char) {
    c != '?' && c != '#'
  }

  /** The characters `urlsplit` strips from the front of an address: the C0
      controls and the space. */
  predicate IsC0OrSpace(c: char) {
    c <= ' '
  }

  /** The characters `urlsplit` deletes wherever they stand in an address. */
  predicate IsUnsafe(c: char) {
    c == '\t' || c == '\r' || c == '\n'
  }

  predicate NoUnsafe(s: string) {
    '\t' !in s && '\r' !in s && '\n' !in s
  }

  /** `s` with every tab, carriage return and line feed deleted. */
  function RemoveUnsafe(s: string): (r: string)
    ensures |r| <= |s| && NoUnsafe(r)
  {
    if s == [] then []
    else if IsUnsafe(s[0]) then RemoveUnsafe(s[1..])
    else [s[0]] + RemoveUnsafe(s[1..])
  }

  /** The address `urlsplit` goes on to cut: leading controls and spaces
      stripped, then tabs and line breaks deleted. */
  function Cleaned(url: string): string {
    RemoveUnsafe(LStripBy(url, IsC0OrSpace))
  }

  /** The pieces `urlsplit` cuts an address into: the scheme in lower case
      (empty without one), the network location and the path, which ends at
      the query or the fragment. */
  datatype UrlPieces = UrlPieces(scheme: string, netloc: string, path: string)

  function Split(url: string): UrlPieces {
    var u := Cleaned(url);
    var n := SchemeLen(u);
    SplitAfterScheme(if n == 0 then "" else LowerStr(u[..n - 1]), u[n..])
  }

  /** The host after `//`, up to the first `/`, `?` or `#`, then the path
      up to the first `?` or `#`. */
  function SplitAfterScheme(scheme: string, rest: string): UrlPieces {
    var hostEnd := if StartsWith(rest, "//") then 2 + RunLen(rest[2..], InNetloc) else 0;
    var afterHost := rest[hostEnd..];
    var netloc := if StartsWith(rest, "//") then rest[2..hostEnd] else "";
    UrlPieces(scheme, netloc, afterHost[..RunLen(afterHost, InPath)])
  }

  /** The schemes whose paths may carry `;` parameters. */
  const UsesParams: set<string> := {
    "", "ftp", "hdl", "prospero", "http", "imap", "https", "shttp", "rtsp", "rtsps", "rtspu",
    "sip", "sips", "mms", "sftp", "tel"
  }

  /** Where `_splitparams` starts looking for `;`: the last `/` of the path,
      or its start when it holds none. */
  function ParamsFrom(s: string): (j: nat)
    ensures j <= |s|
    ensures '/' in s ==> j < |s| && s[j] == '/' && forall k :: j < k < |s| ==> s[k] != '/'
    ensures '/' !in s ==> j == 0
  {
    if s == [] then 0
    else if s[|s| - 1] == '/' then |s| - 1
    else
      var j := ParamsFrom(s[..|s| - 1]);
      assert '/' in s ==> '/' in s[..|s| - 1] by {
        if '/' in s {
          var k :| 0 <= k < |s| && s[k] == '/';
          assert s[..|s| - 1][k] == '/';
        }
      }
      j
  }

  predicate NotSemicolon(c: char) {
    c != ';'
  }

  /** `_splitparams`: the path up to the first `;` that follows its last `/`. */
  function CutParams(path: string): (r: string)
    ensures StartsWith(path, r)
    ensures r == path || path[|r|] == ';'
    ensures forall k :: ParamsFrom(path) <= k < |r| ==> r[k] != ';'
  {
    var j := ParamsFrom(path);
    RunLenKeeps(path[j..], NotSemicolon);
    path[..j + RunLen(path[j..], NotSemicolon)]
  }

  /** The path of an address as `urlparse` reports it: the path `urlsplit`
      cuts out, without its parameters where the scheme allows them. */
  function UrlPath(url: string): string {
    var p := Split(url);
    if p.scheme in UsesParams then CutParams(p.path) else p.path
  }

  /** An unpaired bracket in the network location, which `urlsplit` refuses. */
  predicate UnpairedBracket(netloc: string) {
    ('[' in netloc && ']' !in netloc) || (']' in netloc && '[' !in netloc)
  }

  const InvalidIpv6: string := "ValueError: Invalid IPv6 URL"

  // ---------------------------------------------------------------------
  // parse_congress_url
  // ---------------------------------------------------------------------

  /** The identifiers this parser returns: the congress keeps its ordinal
      suffix and the bill type is the web slug. */
  datatype ScrapedInfo = ScrapedInfo(congress: string, billType: string, number: string)

  const CongressSuffix: string := "-congress"

  /** The host of every bill's web address. */
  const CongressHost: string := "www.congress.gov"
  const InvalidUrl: string := "ValueError: Invalid Congress.gov URL format"

  predicate IsSlash(c: char) {
    c == '/'
  }

  /** The path without surrounding `/`, split at each `/`. */
  function PathParts(url: string): (parts: seq<string>)
    ensures |parts| >= 1
  {
    SplitOn(StripBy(UrlPath(url), IsSlash), '/')
  }

  /** `parse_congress_url` as written: `urlparse` refuses an unpaired bracket
      in the host; then exactly four path segments are needed, of which the
      first must end with `-congress`; the congress is that segment up to its
      first `-`, type and number are the third and fourth segments. */
  function ParseCongressUrl(url: string): (r: Result<ScrapedInfo, string>)
    ensures r.Ok? <==> && !UnpairedBracket(Split(url).netloc)
                       && |PathParts(url)| == 4 && EndsWith(PathParts(url)[0], CongressSuffix)
    ensures r.Ok? ==> r.value.billType == PathParts(url)[2] && r.value.number == PathParts(url)[3]
    ensures r.Ok? ==> r.value.congress == SplitOn(PathParts(url)[0], '-')[0]
    ensures r.Err? ==> r.error == if UnpairedBracket(Split(url).netloc) then InvalidIpv6 else InvalidUrl
  {
    if UnpairedBracket(Split(url).netloc) then Err(InvalidIpv6)
    else
      var parts := PathParts(url);
      if |parts| != 4 || !EndsWith(parts[0], CongressSuffix) then Err(InvalidUrl)
      else Ok(ScrapedInfo(SplitOn(parts[0], '-')[0], parts[2], parts[3]))
  }

  /** The parser with the segment it evidently means: the `...-congress`
      segment is the second one, after `bill`. */
  function ParseCongressUrlFixed(url: string): (r: Result<ScrapedInfo, string>)
    ensures r.Ok? <==> && !UnpairedBracket(Split(url).netloc)
                       && |PathParts(url)| == 4 && EndsWith(PathParts(url)[1], CongressSuffix)
    ensures r.Ok? ==> r.value.billType == PathParts(url)[2] && r.value.number == PathParts(url)[3]
    ensures r.Ok? ==> r.value.congress == SplitOn(PathParts(url)[1], '-')[0]
    ensures r.Err? ==> r.error == if UnpairedBracket(Split(url).netloc) then InvalidIpv6 else InvalidUrl
  {
    if UnpairedBracket(Split(url).netloc) then Err(InvalidIpv6)
    else
      var parts := PathParts(url);
      if |parts| != 4 || !EndsWith(parts[1], CongressSuffix) then Err(InvalidUrl)
      else Ok(ScrapedInfo(SplitOn(parts[1], '-')[0], parts[2], parts[3]))
  }

  /** A path segment that reads back as itself: non-empty, with none of the
      characters that end a segment, start the parameters, or that `urlsplit`
      deletes. */
  predicate PlainSegment(s: string) {
    s != [] && '/' !in s && '?' !in s && '#' !in s && ';' !in s && NoUnsafe(s)
  }

  /** The part of a bill's web address after `/bill/`. */
  function AddressTail(congress: string, suffix: string, slug: string, number: string): string {
    congress + suffix + CongressApi.CongressInfix + slug + "/" + number
  }

  /** Digits hold none of the characters that end a path segment. */
  lemma DigitsPlain(d: string)
    requires AllDigits(d)
    ensures '/' !in d && '?' !in d && '#' !in d && '-' !in d && ';' !in d && NoUnsafe(d)
  {
    assert forall i :: 0 <= i < |d| ==> IsDigit(d[i]);
  }

  /** Text that stays whole in a path: no query, fragment or parameters,
      and nothing `urlsplit` deletes. */
  predicate InPathWhole(s: string) {
    '?' !in s && '#' !in s && ';' !in s && NoUnsafe(s)
  }

  lemma InPathWholeConcat(a: string, b: string)
    requires InPathWhole(a) && InPathWhole(b)
    ensures InPathWhole(a + b)
  {
    assert forall c :: c in a + b ==> c in a || c in b;
  }

  /** Lower-case letters, `-` and `/` stay whole in a path. */
  lemma PlainCharsWhole(s: string)
    requires forall i | 0 <= i < |s| :: 'a' <= s[i] <= 'z' || s[i] == '-' || s[i] == '/'
    ensures InPathWhole(s)
  {
  }

  lemma TailInPath(congress: string, suffix: string, slug: string, number: string)
    requires AllDigits(congress) && CongressApi.IsOrdinalSuffix(suffix)
    requires PlainSegment(slug) && AllDigits(number)
    ensures InPathWhole("/bill/" + AddressTail(congress, suffix, slug, number))
  {
    DigitsPlain(congress);
    DigitsPlain(number);
    PlainCharsWhole("/bill/");
    PlainCharsWhole(suffix);
    PlainCharsWhole(CongressApi.CongressInfix);
    PlainCharsWhole("/");
    InPathWholeConcat("/bill/", congress);
    InPathWholeConcat("/bill/" + congress, suffix);
    InPathWholeConcat("/bill/" + congress + suffix, CongressApi.CongressInfix);
    InPathWholeConcat("/bill/" + congress + suffix + CongressApi.CongressInfix, slug);
    InPathWholeConcat("/bill/" + congress + suffix + CongressApi.CongressInfix + slug, "/");
    InPathWholeConcat("/bill/" + congress + suffix + CongressApi.CongressInfix + slug + "/", number);
  }

  /** Text without tabs or line breaks loses nothing to their deletion. */
  lemma {:induction false} RemoveUnsafeNone(s: string)
    requires NoUnsafe(s)
    ensures RemoveUnsafe(s) == s
  {
    if s != [] {
      assert s == [s[0]] + s[1..];
      assert NoUnsafe(s[1..]) by {
        assert forall c :: c in s[1..] ==> c in s;
      }
      RemoveUnsafeNone(s[1..]);
    }
  }

  /** An address that starts with a visible character and holds no tab or
      line break is its own clean-up. */
  lemma CleanedPlain(url: string)
    requires url != [] && !IsC0OrSpace(url[0]) && NoUnsafe(url)
    ensures Cleaned(url) == url
  {
    RemoveUnsafeNone(url);
  }

  lemma LowerHttps()
    ensures LowerStr("https") == "https"
  {
    var r := LowerStr("https");
    assert forall i :: 0 <= i < 5 ==> r[i] == "https"[i];
  }

  /** `urlsplit` of `https://host/path`: scheme `https`, the host, and the
      path, when the path holds no `?` or `#`. */
  lemma SplitOfHttps(host: string, path: string)
    requires '/' !in host && '?' !in host && '#' !in host && NoUnsafe(host)
    requires path != [] && path[0] == '/' && '?' !in path && '#' !in path && NoUnsafe(path)
    ensures Split("https://" + host + path) == UrlPieces("https", host, path)
  {
    var rest := "//" + host + path;
    var url := "https://" + host + path;
    assert url == "https:" + rest;
    assert NoUnsafe(url);
    CleanedPlain(url);
    HttpsScheme(rest);
    assert url[..5] == "https";
    LowerHttps();
    AfterSchemeOfHost(host, path);
  }

  /** After `//`, the host and then the path. */
  lemma AfterSchemeOfHost(host: string, path: string)
    requires '/' !in host && '?' !in host && '#' !in host
    requires path != [] && path[0] == '/' && '?' !in path && '#' !in path
    ensures SplitAfterScheme("https", "//" + host + path) == UrlPieces("https", host, path)
  {
    var rest := "//" + host + path;
    assert StartsWith(rest, "//");
    assert rest[2..] == host + path;
    HostRun(host, path);
    assert rest[2..2 + |host|] == host;
    assert rest[2 + |host|..] == path;
    PathRun(path);
  }

  /** The path of an `https://host/...` address is everything after the
      host, when no `?`, `#` or `;` follows. */
  lemma UrlPathOfHttps(host: string, path: string)
    requires '/' !in host && '?' !in host && '#' !in host && NoUnsafe(host)
    requires path != [] && path[0] == '/' && '?' !in path && '#' !in path && NoUnsafe(path)
    requires ';' !in path
    ensures UrlPath("https://" + host + path) == path
  {
    SplitOfHttps(host, path);
    CutParamsNone(path);
  }

  /** A path without `;` has no parameters to cut. */
  lemma CutParamsNone(path: string)
    requires ';' !in path
    ensures CutParams(path) == path
  {
  }

  /** `;` parameters after the last `/` are cut off the path. */
  lemma CutParamsAfter(path: string, params: string)
    requires path != [] && path[0] == '/' && ';' !in path && '/' !in params
    ensures CutParams(path + ";" + params) == path
  {
    var p := path + ";" + params;
    assert p[0] == '/';
    assert ParamsFrom(p) < |path|;
    var j := ParamsFrom(p);
    assert j < |path|;
    assert p[j..] == path[j..] + (";" + params);
    forall k | 0 <= k < |path[j..]| ensures NotSemicolon(path[j..][k]) {
      assert path[j..][k] in path;
    }
    RunLenConcat(path[j..], ";" + params, NotSemicolon);
    var r := CutParams(p);
    assert r == p[..|path|] == path;
  }

  /** `urlparse` cuts `;` parameters after the last `/` off an `https`
      path. */
  lemma ParamsCut(host: string, path: string, params: string)
    requires '/' !in host && '?' !in host && '#' !in host && NoUnsafe(host)
    requires path != [] && path[0] == '/' && '?' !in path && '#' !in path && NoUnsafe(path)
    requires ';' !in path
    requires '/' !in params && '?' !in params && '#' !in params && NoUnsafe(params)
    ensures Split("https://" + host + path + ";" + params).netloc == host
    ensures UrlPath("https://" + host + path + ";" + params) == path
  {
    var p := path + ";" + params;
    assert "https://" + host + path + ";" + params == "https://" + host + p;
    assert NoUnsafe(p) && '?' !in p && '#' !in p;
    SplitOfHttps(host, p);
    CutParamsAfter(path, params);
  }

  /** `https:` is a scheme. */
  lemma HttpsScheme(rest: string)
    ensures SchemeLen("https:" + rest) == 6
    ensures ("https:" + rest)[6..] == rest
  {
    var url := "https:" + rest;
    assert url == "https" + (":" + rest);
    RunLenConcat("https", ":" + rest, NotColon);
    assert url[..5] == "https";
  }

  /** The host runs up to the first `/`. */
  lemma HostRun(host: string, path: string)
    requires '/' !in host && '?' !in host && '#' !in host
    requires path != [] && path[0] == '/'
    ensures RunLen(host + path, InNetloc) == |host|
  {
    forall i | 0 <= i < |host| ensures InNetloc(host[i]) {
      assert host[i] in host;
    }
    RunLenConcat(host, path, InNetloc);
  }

  /** A path without `?` or `#` runs to the end. */
  lemma PathRun(path: string)
    requires '?' !in path && '#' !in path
    ensures RunLen(path, InPath) == |path|
  {
    forall i | 0 <= i < |path| ensures InPath(path[i]) {
      assert path[i] in path;
    }
    RunLenConcat(path, [], InPath);
    assert path + [] == path;
  }


  /** A bill's web address, cut where the parser cuts it: scheme, host and
      path. */
  lemma AddressSplit(congress: string, suffix: string, slug: string, number: string)
    ensures CongressApi.CongressGovUrl(congress, suffix, slug, number)
         == "https://" + CongressHost + ("/bill/" + AddressTail(congress, suffix, slug, number))
  {
    var tail := AddressTail(congress, suffix, slug, number);
    Regroup(CongressApi.WebPrefix, CongressApi.UrlLead, congress, suffix, CongressApi.CongressInfix, slug, "/", number);
    AddressLead();
    Regroup3("https://", CongressHost, "/bill/", tail);
  }

  lemma Regroup(a: string, b: string, c: string, d: string, e: string, f: string, g: string, h: string)
    ensures a + b + c + d + e + f + g + h == (a + b) + (c + d + e + f + g + h)
  {
  }

  lemma Regroup3(a: string, b: string, c: string, d: string)
    ensures a + b + c + d == a + b + (c + d)
  {
  }

  lemma AddressLead()
    ensures CongressApi.WebPrefix + CongressApi.UrlLead == "https://" + CongressHost + "/bill/"
  {
  }


  /** The path of a bill's web address. */
  lemma UrlPathOfAddress(congress: string, suffix: string, slug: string, number: string)
    requires AllDigits(congress) && CongressApi.IsOrdinalSuffix(suffix)
    requires PlainSegment(slug) && AllDigits(number)
    ensures Split(CongressApi.CongressGovUrl(congress, suffix, slug, number)).netloc == CongressHost
    ensures UrlPath(CongressApi.CongressGovUrl(congress, suffix, slug, number))
         == "/bill/" + AddressTail(congress, suffix, slug, number)
  {
    AddressSplit(congress, suffix, slug, number);
    TailInPath(congress, suffix, slug, number);
    var host := CongressHost;
    HostPlain();
    SplitOfHttps(host, "/bill/" + AddressTail(congress, suffix, slug, number));
    UrlPathOfHttps(host, "/bill/" + AddressTail(congress, suffix, slug, number));
  }

  /** Stripping `/` from a path that starts with one and does not end with
      one removes just the leading `/`. */
  lemma StripLeadingSlash(t: string)
    requires t != [] && t[0] != '/' && t[|t| - 1] != '/'
    ensures StripBy("/" + t, IsSlash) == t
  {
    assert ("/" + t)[1..] == t;
    assert LStripBy("/" + t, IsSlash) == t;
  }

  /** The path of a bill without its surrounding `/`. */
  lemma StrippedBillPath(tail: string, number: string)
    requires number != [] && AllDigits(number)
    requires |tail| >= |number| && tail[|tail| - |number|..] == number
    ensures StripBy("/bill/" + tail, IsSlash) == "bill/" + tail
  {
    var t := "bill/" + tail;
    assert t[|t| - 1] == number[|number| - 1];
    assert "/bill/" + tail == "/" + t;
    StripLeadingSlash(t);
  }

  /** The path of a bill's web address without its surrounding `/`. */
  lemma StrippedPathOfAddress(congress: string, suffix: string, slug: string, number: string)
    requires AllDigits(congress) && CongressApi.IsOrdinalSuffix(suffix)
    requires PlainSegment(slug) && number != [] && AllDigits(number)
    ensures StripBy(UrlPath(CongressApi.CongressGovUrl(congress, suffix, slug, number)), IsSlash)
         == "bill/" + AddressTail(congress, suffix, slug, number)
  {
    UrlPathOfAddress(congress, suffix, slug, number);
    var tail := AddressTail(congress, suffix, slug, number);
    assert tail == (congress + suffix + CongressApi.CongressInfix + slug + "/") + number;
    StrippedBillPath(tail, number);
  }

  /** The parts of the path of a bill's web address. */
  lemma PathPartsOfAddress(congress: string, suffix: string, slug: string, number: string)
    requires congress != [] && AllDigits(congress) && CongressApi.IsOrdinalSuffix(suffix)
    requires PlainSegment(slug) && number != [] && AllDigits(number)
    ensures PathParts(CongressApi.CongressGovUrl(congress, suffix, slug, number))
         == ["bill", congress + suffix + CongressSuffix, slug, number]
  {
    StrippedPathOfAddress(congress, suffix, slug, number);
    var first := congress + suffix + CongressSuffix;
    TailSegments(congress, suffix, slug, number);
    DigitsPlain(number);
    FirstSegment(congress, suffix);
    SplitBillPath(first, slug, number);
  }

  lemma TailSegments(congress: string, suffix: string, slug: string, number: string)
    ensures AddressTail(congress, suffix, slug, number)
         == (congress + suffix + CongressSuffix) + "/" + slug + "/" + number
  {
    assert CongressApi.CongressInfix == CongressSuffix + "/";
  }

  /** The `<congress><suffix>-congress` segment holds no `/`. */
  lemma FirstSegment(congress: string, suffix: string)
    requires AllDigits(congress) && CongressApi.IsOrdinalSuffix(suffix)
    ensures '/' !in congress + suffix + CongressSuffix
  {
    DigitsPlain(congress);
    var t := suffix + CongressSuffix;
    assert forall i | 0 <= i < |t| :: 'a' <= t[i] <= 'z' || t[i] == '-';
    assert forall c :: c in congress + t ==> c in congress || c in t;
    assert congress + suffix + CongressSuffix == congress + t;
  }

  /** The four segments of `bill/<first>/<slug>/<number>`. */
  lemma SplitBillPath(first: string, slug: string, number: string)
    requires '/' !in first && '/' !in slug && '/' !in number
    ensures SplitOn("bill/" + (first + "/" + slug + "/" + number), '/') == ["bill", first, slug, number]
  {
    assert "bill/" + (first + "/" + slug + "/" + number)
        == "bill" + ['/'] + (first + ['/'] + (slug + ['/'] + number));
    SplitOnCons("bill", '/', first + ['/'] + (slug + ['/'] + number));
    SplitOnCons(first, '/', slug + ['/'] + number);
    SplitOnCons(slug, '/', number);
    SplitOnNone(number, '/');
  }


  /** The address of the docstring, `.../bill/118th-congress/house-bill/1234`,
      is refused: its first segment is `bill`. */
  lemma DocExampleRejected()
    ensures ParseCongressUrl(CongressApi.CongressGovUrl("118", "th", "house-bill", "1234")).Err?
  {
    assert PlainSegment("house-bill");
    PathPartsOfAddress("118", "th", "house-bill", "1234");
    UrlPathOfAddress("118", "th", "house-bill", "1234");
    HostPlain();
  }

  /** The corrected parser reads every bill's web address: the congress with
      its ordinal suffix, the web slug and the number. */
  lemma ParseCongressUrlFixedOfAddress(congress: string, suffix: string, slug: string, number: string)
    requires congress != [] && AllDigits(congress) && CongressApi.IsOrdinalSuffix(suffix)
    requires PlainSegment(slug) && number != [] && AllDigits(number)
    ensures ParseCongressUrlFixed(CongressApi.CongressGovUrl(congress, suffix, slug, number))
         == Ok(ScrapedInfo(congress + suffix, slug, number))
  {
    PathPartsOfAddress(congress, suffix, slug, number);
    UrlPathOfAddress(congress, suffix, slug, number);
    DigitsPlain(congress);
    ParseFixedOfParts(CongressApi.CongressGovUrl(congress, suffix, slug, number), congress + suffix, slug, number);
  }

  /** `;` parameters after a bill's number do not reach the number: the
      corrected parser reads the address with them as without them. */
  lemma ParseCongressUrlFixedParams(congress: string, suffix: string, slug: string, number: string, params: string)
    requires congress != [] && AllDigits(congress) && CongressApi.IsOrdinalSuffix(suffix)
    requires PlainSegment(slug) && number != [] && AllDigits(number)
    requires '/' !in params && '?' !in params && '#' !in params && NoUnsafe(params)
    ensures ParseCongressUrlFixed(CongressApi.CongressGovUrl(congress, suffix, slug, number) + ";" + params)
         == Ok(ScrapedInfo(congress + suffix, slug, number))
  {
    var url := CongressApi.CongressGovUrl(congress, suffix, slug, number);
    AddressParams(congress, suffix, slug, number, params);
    PathPartsOfAddress(congress, suffix, slug, number);
    SamePathParts(url + ";" + params, url);
    DigitsPlain(congress);
    ParseFixedOfParts(url + ";" + params, congress + suffix, slug, number);
  }

  /** A bill's web address with `;` parameters has the host and the path of
      the address without them. */
  lemma AddressParams(congress: string, suffix: string, slug: string, number: string, params: string)
    requires AllDigits(congress) && CongressApi.IsOrdinalSuffix(suffix)
    requires PlainSegment(slug) && AllDigits(number)
    requires '/' !in params && '?' !in params && '#' !in params && NoUnsafe(params)
    ensures var url := CongressApi.CongressGovUrl(congress, suffix, slug, number);
      Split(url + ";" + params).netloc == CongressHost && UrlPath(url + ";" + params) == UrlPath(url)
  {
    var path := "/bill/" + AddressTail(congress, suffix, slug, number);
    AddressSplit(congress, suffix, slug, number);
    TailInPath(congress, suffix, slug, number);
    HostPlain();
    ParamsCut(CongressHost, path, params);
    UrlPathOfAddress(congress, suffix, slug, number);
  }

  /** The parts of a path depend on the path alone. */
  lemma SamePathParts(u: string, v: string)
    requires UrlPath(u) == UrlPath(v)
    ensures PathParts(u) == PathParts(v)
  {
  }

  /** The corrected parser on an address with the host `www.congress.gov`
      and the path `bill/<congress>-congress/<slug>/<number>`. */
  lemma ParseFixedOfParts(url: string, congress: string, slug: string, number: string)
    requires Split(url).netloc == CongressHost
    requires PathParts(url) == ["bill", congress + CongressSuffix, slug, number]
    requires '-' !in congress
    ensures ParseCongressUrlFixed(url) == Ok(ScrapedInfo(congress, slug, number))
  {
    HostPlain();
    CongressFirst(congress);
  }

  /** The host holds no character that ends it, and no bracket. */
  lemma HostPlain()
    ensures '/' !in CongressHost && '?' !in CongressHost && '#' !in CongressHost
    ensures NoUnsafe(CongressHost) && !UnpairedBracket(CongressHost)
  {
    var h := CongressHost;
    assert forall i | 0 <= i < |h| :: 'a' <= h[i] <= 'z' || h[i] == '.';
  }

  /** `<congress>-congress` ends in `-congress` and reads back as
      `<congress>` before its first `-`. */
  lemma CongressFirst(congress: string)
    requires '-' !in congress
    ensures EndsWith(congress + CongressSuffix, CongressSuffix)
    ensures SplitOn(congress + CongressSuffix, '-')[0] == congress
  {
    var first := congress + CongressSuffix;
    assert first[|first| - |CongressSuffix|..] == CongressSuffix;
    assert first == congress + ['-'] + "congress";
    SplitOnCons(congress, '-', "congress");
  }

  // ---------------------------------------------------------------------
  // The rewrite in _make_request
  // ---------------------------------------------------------------------

  const OldCongress: string := "119th-congress"
  const NewCongress: string := "118th-congress"

  /** Every `119th-congress` in the address becomes `118th-congress`. */
  function RewriteUrl(url: string): string {
    if Contains(url, OldCongress) then Replace(url, OldCongress, NewCongress) else url
  }

  /** The two congress segments differ only in the third character. */
  lemma CongressSegments()
    ensures OldCongress == "11" + "9th-congress" && NewCongress == "11" + "8th-congress"
    ensures '1' !in "9th-congress" && '1' !in "8th-congress"
  {
  }

  /** The guard is redundant: the rewrite is the plain replacement. */
  lemma RewriteUrlIsReplace(url: string)
    ensures RewriteUrl(url) == Replace(url, OldCongress, NewCongress)
  {
    if !Contains(url, OldCongress) {
      ReplaceAbsent(url, OldCongress, NewCongress);
    }
  }

  /** The rewrite keeps the address's length. */
  lemma RewriteUrlLength(url: string)
    ensures |RewriteUrl(url)| == |url|
  {
    ReplaceLength(url, OldCongress, NewCongress);
  }

  /** A replaced address never starts with `119th-congress`. */
  lemma {:induction false} ReplacedNotStartsOld(s: string)
    ensures !StartsWith(Replace(s, OldCongress, NewCongress), OldCongress)
  {
    CongressSegments();
    var r := Replace(s, OldCongress, NewCongress);
    if s != [] && StartsWith(r, OldCongress) {
      if StartsWith(s, OldCongress) {
        assert false;
      } else {
        var r1 := Replace(s[1..], OldCongress, NewCongress);
        assert r == [s[0]] + r1;
        assert r1[..13] == OldCongress[1..];
        assert s[1..] != [];
        if StartsWith(s[1..], OldCongress) {
          assert r1 == NewCongress + Replace(s[1..][|OldCongress|..], OldCongress, NewCongress);
          NewNotShifted(Replace(s[1..][|OldCongress|..], OldCongress, NewCongress));
          assert false;
        } else {
          var r2 := Replace(s[2..], OldCongress, NewCongress);
          assert s[1..][1..] == s[2..];
          assert r1 == [s[1]] + r2;
          assert r1[1..13] == r2[..12];
          assert OldCongress[1..][1..] == OldCongress[2..] == "9th-congress";
          assert r2[..12] == "9th-congress";
          ReplacePrefix(s[2..], OldCongress, NewCongress, "9th-congress");
          assert false;
        }
      }
    }
  }

  /** `118th-congress` does not show `119th-congress` one place in. */
  lemma NewNotShifted(x: string)
    ensures (NewCongress + x)[..13] != OldCongress[1..]
  {
    assert (NewCongress + x)[..13][1] == '1';
    assert OldCongress[1..][1] == '9';
  }

  /** After `119th-congress` has become `118th-congress`, none of the former
      is left. */
  lemma {:induction false} ReplacedNoOld(s: string)
    ensures !Contains(Replace(s, OldCongress, NewCongress), OldCongress)
    decreases |s|
  {
    CongressSegments();
    var r := Replace(s, OldCongress, NewCongress);
    if s == [] {
    } else if StartsWith(s, OldCongress) {
      var x := Replace(s[|OldCongress|..], OldCongress, NewCongress);
      ReplacedNoOld(s[|OldCongress|..]);
      ContainsSkip("8th-congress", x, OldCongress);
      NewAhead(x);
    } else {
      ReplacedNotStartsOld(s);
      ReplacedNoOld(s[1..]);
      assert r[1..] == Replace(s[1..], OldCongress, NewCongress);
    }
  }

  /** `118th-congress` followed by text that does not show `119th-congress`
      does not show it either. */
  lemma NewAhead(x: string)
    requires !Contains("8th-congress" + x, OldCongress)
    ensures !Contains(NewCongress + x, OldCongress)
  {
    CongressSegments();
    var y := "8th-congress" + x;
    assert NewCongress + x == "1" + ("1" + y);
    assert ("1" + ("1" + y))[1..] == "1" + y;
    assert ("1" + y)[1..] == y;
    assert !StartsWith("1" + y, OldCongress) by {
      assert ("1" + y)[1] == '8';
    }
    assert !StartsWith("1" + ("1" + y), OldCongress) by {
      assert ("1" + ("1" + y))[2] == '8';
    }
  }

  /** After the rewrite no `119th-congress` is left. */
  lemma RewriteUrlNoOld(url: string)
    ensures !Contains(RewriteUrl(url), OldCongress)
  {
    RewriteUrlIsReplace(url);
    ReplacedNoOld(url);
  }

  /** Rewriting twice is rewriting once. */
  lemma RewriteUrlIdempotent(url: string)
    ensures RewriteUrl(RewriteUrl(url)) == RewriteUrl(url)
  {
    RewriteUrlNoOld(url);
  }
}
