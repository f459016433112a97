/** The deterministic part of the Congress.gov API client `CongressAPI`:
    turning a congress.gov web address into the API's bill identifiers, and
    choosing the bill's title, sponsor, committees, subjects, text format and
    bill list out of the JSON the API returns. The HTTP request is a
    parameter (`request` maps an endpoint and its query parameters to the
    decoded reply, or to the error it raised); the client object itself only
    holds its key, base address and session, which nothing here changes. */
module CongressApi {
  import opened Wrappers
  import opened PyStr
  import opened PyValue

  // ---------------------------------------------------------------------
  // parse_congress_url:
  //   congress\.gov/bill/(\d+)(?:st|nd|rd|th)-congress/([^/]+)/(\d+)
  // ---------------------------------------------------------------------

  /** The identifiers the API addresses a bill by. */
  datatype BillInfo = BillInfo(congress: string, billType: string, number: string)

  /** The three groups of a match of the web-address pattern. */
  datatype UrlMatch = UrlMatch(congress: string, slug: string, number: string)

  const UrlLead: string := "congress.gov/bill/"
  const CongressInfix: string := "-congress/"

  predicate IsOrdinalSuffix(x: string) {
    x == "st" || x == "nd" || x == "rd" || x == "th"
  }

  predicate NotSlash(c: char) {
    c != '/'
  }

  predicate NoSlash(s: string) {
    forall i :: 0 <= i < |s| ==> NotSlash(s[i])
  }

  /** What every match captures: two non-empty digit strings around a
      non-empty slug without `/`. */
  predicate WellFormedMatch(m: UrlMatch) {
    && m.congress != [] && AllDigits(m.congress)
    && m.slug != [] && NoSlash(m.slug)
    && m.number != [] && AllDigits(m.number)
  }

  /** The match of the pattern at the start of `t`, if any. Backtracking
      never changes it: the greedy `\d+` is followed by a letter of the
      suffix, so giving a digit back leaves a digit where a letter must be,
      and the greedy `[^/]+` is followed by `/`, so giving a character back
      leaves a non-`/` where `/` must be. The final `\d+` takes the whole
      digit run, as nothing follows it. */
  function UrlMatchAt(t: string): (r: Option<UrlMatch>)
    ensures r.Some? ==> WellFormedMatch(r.value)
  {
    if StartsWith(t, UrlLead) then CongressPart(t[|UrlLead|..]) else None
  }

  /** `(\d+)(?:st|nd|rd|th)-congress/` and what follows it. */
  function CongressPart(a: string): (r: Option<UrlMatch>)
    ensures r.Some? ==> WellFormedMatch(r.value)
  {
    var congress := LeadingDigits(a);
    var b := a[|congress|..];
    if congress != [] && |b| >= 2 && IsOrdinalSuffix(b[..2]) && StartsWith(b[2..], CongressInfix)
    then SlugPart(congress, b[2 + |CongressInfix|..])
    else None
  }

  /** `([^/]+)/(\d+)`, after the congress digits. */
  function SlugPart(congress: string, c: string): (r: Option<UrlMatch>)
    requires congress != [] && AllDigits(congress)
    ensures r.Some? ==> WellFormedMatch(r.value) && r.value.congress == congress
  {
    var n := RunLen(c, NotSlash);
    if n == 0 || n == |c| then None
    else
      var number := LeadingDigits(c[n + 1..]);
      if number == [] then None
      else
        RunLenKeeps(c, NotSlash);
        Some(UrlMatch(congress, c[..n], number))
  }

  /** `re.search`: the match at the leftmost start where there is one. */
  function UrlSearch(s: string): (r: Option<UrlMatch>)
    ensures r.Some? ==> WellFormedMatch(r.value)
    decreases |s|
  {
    var m := UrlMatchAt(s);
    if m.Some? || s == [] then m else UrlSearch(s[1..])
  }

  /** The search reports the match at the leftmost start that matches. */
  lemma {:induction false} UrlSearchLeftmost(s: string, p: nat)
    requires p <= |s| && UrlMatchAt(s[p..]).Some?
    requires forall q :: 0 <= q < p ==> UrlMatchAt(s[q..]).None?
    ensures UrlSearch(s) == UrlMatchAt(s[p..])
  {
    if p > 0 {
      assert s[0..] == s;
      forall q | 0 <= q < p - 1 ensures UrlMatchAt(s[1..][q..]).None? {
        assert s[1..][q..] == s[q + 1..];
      }
      assert s[1..][p - 1..] == s[p..];
      UrlSearchLeftmost(s[1..], p - 1);
    }
  }

  /** A search that finds nothing has no match at any start. */
  lemma {:induction false} UrlSearchNone(s: string, p: nat)
    requires UrlSearch(s).None? && p <= |s|
    ensures UrlMatchAt(s[p..]).None?
  {
    if p > 0 {
      assert s[1..][p - 1..] == s[p..];
      UrlSearchNone(s[1..], p - 1);
    }
  }

  /** `bill_type_map.get(slug)`: the API code of a web slug. */
  function ApiBillType(slug: string): Option<string> {
    if slug == "house-bill" then Some("hr")
    else if slug == "senate-bill" then Some("s")
    else if slug == "house-joint-resolution" then Some("hjres")
    else if slug == "senate-joint-resolution" then Some("sjres")
    else if slug == "house-concurrent-resolution" then Some("hconres")
    else if slug == "senate-concurrent-resolution" then Some("sconres")
    else if slug == "house-resolution" then Some("hres")
    else if slug == "senate-resolution" then Some("sres")
    else None
  }

  /** The web slugs the map accepts. */
  const WebSlugs: set<string> := {
    "house-bill", "senate-bill", "house-joint-resolution", "senate-joint-resolution",
    "house-concurrent-resolution", "senate-concurrent-resolution", "house-resolution", "senate-resolution"
  }

  /** The web slug of an API code: the inverse of the map. */
  function WebSlug(code: string): Option<string> {
    if code == "hr" then Some("house-bill")
    else if code == "s" then Some("senate-bill")
    else if code == "hjres" then Some("house-joint-resolution")
    else if code == "sjres" then Some("senate-joint-resolution")
    else if code == "hconres" then Some("house-concurrent-resolution")
    else if code == "sconres" then Some("senate-concurrent-resolution")
    else if code == "hres" then Some("house-resolution")
    else if code == "sres" then Some("senate-resolution")
    else None
  }

  /** The map accepts exactly the eight slugs, sends no two of them to the
      same code, and every code it produces is non-empty. */
  lemma ApiBillTypeExact(slug: string)
    ensures ApiBillType(slug).Some? <==> slug in WebSlugs
    ensures ApiBillType(slug).Some? ==> ApiBillType(slug).value != [] && WebSlug(ApiBillType(slug).value) == Some(slug)
  {
  }

  lemma WebSlugInverse(code: string)
    ensures WebSlug(code).Some? ==> ApiBillType(WebSlug(code).value) == Some(code)
  {
  }

  lemma WebSlugsCount()
    ensures |WebSlugs| == 8
  {
  }

  /** `parse_congress_url`: the congress and number digits of the leftmost
      match, and the API code of its slug; `ValueError` when nothing matches
      or the slug is not one of the eight. */
  function ParseCongressUrl(url: string): (r: Result<BillInfo, string>)
    ensures r.Ok? <==> UrlSearch(url).Some? && UrlSearch(url).value.slug in WebSlugs
    ensures r.Ok? ==> var m := UrlSearch(url).value;
      && r.value.congress == m.congress && r.value.number == m.number
      && AllDigits(r.value.congress) && AllDigits(r.value.number)
      && WebSlug(r.value.billType) == Some(m.slug)
    ensures UrlSearch(url).None? ==> r == Err("ValueError: Invalid Congress.gov URL format: " + url)
    ensures UrlSearch(url).Some? && r.Err? ==> r == Err("ValueError: Unknown bill type: " + UrlSearch(url).value.slug)
  {
    match UrlSearch(url)
    case None => Err("ValueError: Invalid Congress.gov URL format: " + url)
    case Some(m) =>
      ApiBillTypeExact(m.slug);
      match ApiBillType(m.slug)
      case None => Err("ValueError: Unknown bill type: " + m.slug)
      case Some(code) => Ok(BillInfo(m.congress, code, m.number))
  }

  const WebPrefix: string := "https://www."

  /** A bill's address on the congress.gov web site. */
  function CongressGovUrl(congress: string, suffix: string, slug: string, number: string): string {
    WebPrefix + UrlLead + congress + suffix + CongressInfix + slug + "/" + number
  }

  lemma SlugPartOfAddress(congress: string, slug: string, number: string)
    requires congress != [] && AllDigits(congress)
    requires slug != [] && NoSlash(slug) && number != [] && AllDigits(number)
    ensures SlugPart(congress, slug + "/" + number) == Some(UrlMatch(congress, slug, number))
  {
    var c := slug + "/" + number;
    assert c == slug + ("/" + number);
    RunLenConcat(slug, "/" + number, NotSlash);
    var n := RunLen(c, NotSlash);
    assert n == |slug|;
    assert n != 0 && n != |c|;
    assert c[n + 1..] == number + [];
    LeadingDigitsConcat(number, []);
    assert LeadingDigits(c[n + 1..]) == number;
    assert c[..n] == slug;
  }

  lemma CongressPartOfAddress(congress: string, suffix: string, c: string)
    requires congress != [] && AllDigits(congress) && IsOrdinalSuffix(suffix)
    ensures CongressPart(congress + suffix + CongressInfix + c) == SlugPart(congress, c)
  {
    var b := suffix + CongressInfix + c;
    assert congress + suffix + CongressInfix + c == congress + b;
    LeadingDigitsConcat(congress, b);
    assert (congress + b)[|congress|..] == b;
    assert b[..2] == suffix;
    assert b[2..][..|CongressInfix|] == CongressInfix;
    assert b[2 + |CongressInfix|..] == c;
  }

  /** The pattern matches a well-formed address where it starts. */
  lemma UrlMatchOfAddress(congress: string, suffix: string, slug: string, number: string)
    requires congress != [] && AllDigits(congress) && IsOrdinalSuffix(suffix)
    requires slug != [] && NoSlash(slug) && number != [] && AllDigits(number)
    ensures UrlMatchAt(UrlLead + (congress + suffix + CongressInfix + (slug + "/" + number)))
         == Some(UrlMatch(congress, slug, number))
  {
    var a := congress + suffix + CongressInfix + (slug + "/" + number);
    assert (UrlLead + a)[|UrlLead|..] == a;
    assert (UrlLead + a)[..|UrlLead|] == UrlLead;
    CongressPartOfAddress(congress, suffix, slug + "/" + number);
    SlugPartOfAddress(congress, slug, number);
  }

  /** No match starts at a character other than the `c` the pattern starts
      with. */
  lemma NoMatchAt(s: string)
    requires s != [] && s[0] != 'c'
    ensures UrlMatchAt(s).None?
  {
    assert !StartsWith(s, UrlLead) by {
      assert |UrlLead| > 0 && UrlLead[0] == 'c';
    }
  }

  lemma SearchPastNonC(s: string)
    requires s != [] && s[0] != 'c'
    ensures UrlSearch(s) == UrlSearch(s[1..])
  {
    NoMatchAt(s);
  }

  /** No match starts inside a prefix without `c`, such as `https://www.`. */
  lemma {:induction false} UrlSearchSkips(p: string, t: string)
    requires 'c' !in p
    ensures UrlSearch(p + t) == UrlSearch(t)
    decreases |p|
  {
    if p == [] {
      assert p + t == t;
    } else {
      var s := p + t;
      assert s[0] == p[0];
      SearchPastNonC(s);
      assert s[1..] == p[1..] + t;
      assert 'c' !in p[1..] by {
        assert forall x :: x in p[1..] ==> x in p;
      }
      UrlSearchSkips(p[1..], t);
    }
  }

  /** The search finds a well-formed web address's own groups. */
  lemma UrlSearchOfAddress(congress: string, suffix: string, slug: string, number: string)
    requires congress != [] && AllDigits(congress) && IsOrdinalSuffix(suffix)
    requires slug != [] && NoSlash(slug) && number != [] && AllDigits(number)
    ensures UrlSearch(CongressGovUrl(congress, suffix, slug, number)) == Some(UrlMatch(congress, slug, number))
  {
    var t := UrlLead + (congress + suffix + CongressInfix + (slug + "/" + number));
    assert CongressGovUrl(congress, suffix, slug, number) == WebPrefix + t;
    assert 'c' !in WebPrefix;
    UrlSearchSkips(WebPrefix, t);
    UrlMatchOfAddress(congress, suffix, slug, number);
  }

  lemma NoSlashOf(s: string)
    requires '/' !in s
    ensures NoSlash(s)
  {
    forall i | 0 <= i < |s| ensures NotSlash(s[i]) {
      assert s[i] in s;
    }
  }

  /** None of the eight slugs holds a `/`. */
  lemma WebSlugsNoSlash(slug: string)
    requires slug in WebSlugs
    ensures slug != [] && NoSlash(slug)
  {
    if slug == "house-bill" { NoSlashOf(slug); }
    else if slug == "senate-bill" { NoSlashOf(slug); }
    else if slug == "house-joint-resolution" { NoSlashOf(slug); }
    else if slug == "senate-joint-resolution" { NoSlashOf(slug); }
    else if slug == "house-concurrent-resolution" { NoSlashOf(slug); }
    else if slug == "senate-concurrent-resolution" { NoSlashOf(slug); }
    else if slug == "house-resolution" { NoSlashOf(slug); }
    else { NoSlashOf(slug); }
  }

  /** Parsing a bill's web address recovers its congress and number, whatever
      the ordinal suffix, and the API code of its slug. */
  lemma ParseCongressGovUrl(congress: string, suffix: string, slug: string, number: string)
    requires congress != [] && AllDigits(congress) && IsOrdinalSuffix(suffix)
    requires slug in WebSlugs && number != [] && AllDigits(number)
    ensures ParseCongressUrl(CongressGovUrl(congress, suffix, slug, number))
         == Ok(BillInfo(congress, ApiBillType(slug).value, number))
  {
    WebSlugsNoSlash(slug);
    UrlSearchOfAddress(congress, suffix, slug, number);
    var r := ParseCongressUrl(CongressGovUrl(congress, suffix, slug, number));
    WebSlugInverse(r.value.billType);
  }

  /** A web address whose slug is not one of the eight is refused. */
  lemma ParseCongressGovUrlUnknown(congress: string, suffix: string, slug: string, number: string)
    requires congress != [] && AllDigits(congress) && IsOrdinalSuffix(suffix)
    requires slug != [] && NoSlash(slug) && slug !in WebSlugs && number != [] && AllDigits(number)
    ensures ParseCongressUrl(CongressGovUrl(congress, suffix, slug, number))
         == Err("ValueError: Unknown bill type: " + slug)
  {
    UrlSearchOfAddress(congress, suffix, slug, number);
  }

  // ---------------------------------------------------------------------
  // get_bill_metadata: the fields taken out of the reply's `bill` object
  // ---------------------------------------------------------------------

  /** The record `get_bill_metadata` returns. The JSON fields keep whatever
      value the reply holds there. */
  datatype BillMetadata = BillMetadata(
    congress: string, billType: string, number: string,
    title: Value, sponsor: Value, introducedDate: Value,
    committees: seq<Value>, subjects: seq<Value>, url: string)

  /** The `name` of an object, `""` when it has none. */
  function NameOf(item: Value): Value
    requires item.Dict?
  {
    GetOr(item.entries, "name", Str(""))
  }

  /** The names a list of objects yields: each object's `name`, where truthy,
      in order; an item that is not an object raises `AttributeError` at
      `.get`. */
  function Names(items: seq<Value>): (r: Result<seq<Value>, string>)
    ensures r.Ok? ==> |r.value| <= |items| && forall i :: 0 <= i < |r.value| ==> Truthy(r.value[i])
    decreases |items|
  {
    if items == [] then Ok([])
    else
      match Names(items[..|items| - 1])
      case Err(e) => Err(e)
      case Ok(init) =>
        var last := items[|items| - 1];
        if last.Dict? then Ok(init + (if Truthy(NameOf(last)) then [NameOf(last)] else []))
        else Err("AttributeError")
  }

  /** The names are collected exactly when every item is an object. */
  lemma {:induction false} NamesOk(items: seq<Value>)
    ensures Names(items).Ok? <==> forall i :: 0 <= i < |items| ==> items[i].Dict?
    decreases |items|
  {
    if items != [] {
      var init := items[..|items| - 1];
      NamesOk(init);
      assert forall i :: 0 <= i < |init| ==> init[i] == items[i];
    }
  }

  /** When every item is an object with a truthy name, the names are all
      kept, in order. */
  lemma {:induction false} NamesAllNamed(items: seq<Value>)
    requires forall i :: 0 <= i < |items| ==> items[i].Dict? && Truthy(NameOf(items[i]))
    ensures Names(items).Ok? && |Names(items).value| == |items|
    ensures forall i :: 0 <= i < |items| ==> Names(items).value[i] == NameOf(items[i])
    decreases |items|
  {
    if items != [] {
      var init := items[..|items| - 1];
      assert forall i :: 0 <= i < |init| ==> init[i] == items[i];
      NamesAllNamed(init);
    }
  }

  /** A failure before the end of the list is the failure of the whole. */
  lemma {:induction false} NamesErrStays(items: seq<Value>, j: nat)
    requires j <= |items| && Names(items[..j]).Err?
    ensures Names(items) == Names(items[..j])
    decreases |items|
  {
    if j == |items| {
      assert items[..j] == items;
    } else {
      var init := items[..|items| - 1];
      assert init[..j] == items[..j];
      NamesErrStays(init, j);
    }
  }

  /** The loop appending each truthy name. */
  method CollectNames(items: seq<Value>) returns (r: Result<seq<Value>, string>)
    ensures r == Names(items)
  {
    var names: seq<Value> := [];
    for i := 0 to |items|
      invariant Names(items[..i]) == Ok(names)
    {
      var item := items[i];
      assert items[..i + 1][..i] == items[..i];
      if !item.Dict? {
        NamesErrStays(items, i + 1);
        return Err("AttributeError");
      }
      var name := GetOr(item.entries, "name", Str(""));
      if Truthy(name) {
        names := names + [name];
      } else {
        assert names + [] == names;
      }
    }
    assert items[..|items|] == items;
    return Ok(names);
  }

  /** Committee names come only from the list form of `committees`; the
      object form that points at another address, and every other form,
      yields none. */
  function Committees(bill: Value): (r: Result<seq<Value>, string>)
    ensures bill.Dict? ==> match Get(bill.entries, "committees")
      case Some(List(items)) => r == Names(items)
      case _ => r == Ok([])
  {
    match In("committees", bill)
    case Err(e) => Err(e)
    case Ok(present) =>
      if !present then Ok([])
      else
        match Subscript(bill, "committees")
        case Err(e) => Err(e)
        case Ok(c) =>
          if c.Dict? && "url" in Keys(c.entries) then Ok([])
          else if c.List? then Names(c.items)
          else Ok([])
  }

  /** The method form of the committee extraction, with its loop. */
  method ExtractCommittees(bill: Value) returns (r: Result<seq<Value>, string>)
    ensures r == Committees(bill)
  {
    var present := In("committees", bill);
    if present.Err? { return Err(present.error); }
    r := Ok([]);
    if present.value {
      var c := Subscript(bill, "committees");
      if c.Err? { return Err(c.error); }
      if c.value.Dict? && "url" in Keys(c.value.entries) {
      } else if c.value.List? {
        r := CollectNames(c.value.items);
      }
    }
  }

  /** The subject names under `subjects.legislativeSubjects.items`; none when
      any level is missing or `subjects` is not an object. */
  function Subjects(bill: Value): (r: Result<seq<Value>, string>)
    ensures bill.Dict? && Get(bill.entries, "subjects").None? ==> r == Ok([])
    ensures bill.Dict? && Get(bill.entries, "subjects").Some? && !Get(bill.entries, "subjects").value.Dict? ==> r == Ok([])
  {
    match In("subjects", bill)
    case Err(e) => Err(e)
    case Ok(present) =>
      if !present then Ok([])
      else
        match Subscript(bill, "subjects")
        case Err(e) => Err(e)
        case Ok(s) =>
          if !s.Dict? || "legislativeSubjects" !in Keys(s.entries) then Ok([])
          else
            var sd := Get(s.entries, "legislativeSubjects").value;
            if sd.Dict? && "items" in Keys(sd.entries) then
              match Iterate(Get(sd.entries, "items").value)
              case Err(e) => Err(e)
              case Ok(items) => Names(items)
            else Ok([])
  }

  /** A list of subject objects under the three levels yields their names. */
  lemma SubjectsOfList(bill: Value, items: seq<Value>)
    requires bill.Dict? && Get(bill.entries, "subjects").Some?
    requires var s := Get(bill.entries, "subjects").value;
      && s.Dict? && Get(s.entries, "legislativeSubjects").Some?
      && var sd := Get(s.entries, "legislativeSubjects").value;
      && sd.Dict? && Get(sd.entries, "items") == Some(List(items))
    ensures Subjects(bill) == Names(items)
  {
  }

  /** The method form of the subject extraction, with its loop. */
  method ExtractSubjects(bill: Value) returns (r: Result<seq<Value>, string>)
    ensures r == Subjects(bill)
  {
    var present := In("subjects", bill);
    if present.Err? { return Err(present.error); }
    r := Ok([]);
    if present.value {
      var s := Subscript(bill, "subjects");
      if s.Err? { return Err(s.error); }
      if s.value.Dict? && "legislativeSubjects" in Keys(s.value.entries) {
        var sd := Get(s.value.entries, "legislativeSubjects").value;
        if sd.Dict? && "items" in Keys(sd.entries) {
          var items := Iterate(Get(sd.entries, "items").value);
          if items.Err? { return Err(items.error); }
          r := CollectNames(items.value);
        }
      }
    }
  }

  /** The sponsor: the first sponsor's `fullName`, `""` when it has none or
      there is no non-empty sponsor list. */
  function Sponsor(bill: Value): (r: Result<Value, string>)
    ensures bill.Dict? ==> match Get(bill.entries, "sponsors")
      case Some(List(xs)) =>
        if xs == [] then r == Ok(Str(""))
        else if xs[0].Dict? then r == Ok(GetOr(xs[0].entries, "fullName", Str("")))
        else r.Err?
      case _ => r == Ok(Str(""))
  {
    match In("sponsors", bill)
    case Err(e) => Err(e)
    case Ok(present) =>
      if !present then Ok(Str(""))
      else
        match Subscript(bill, "sponsors")
        case Err(e) => Err(e)
        case Ok(v) =>
          if v.List? && v.items != [] then DictGet(v.items[0], "fullName", Str(""))
          else Ok(Str(""))
  }

  // ---------------------------------------------------------------------
  // The first item of a list whose `type` is accepted
  // ---------------------------------------------------------------------

  /** The loop `for x in items: if x.get("type") <accepted>: field =
      x.get(key, default); break`: the field of the first item whose type is
      accepted, `None` when no item's is. An item that is not an object
      raises at `.get`, if the loop reaches it. */
  function FirstOfType(items: seq<Value>, accepted: Value -> bool, key: string, default: Value): (r: Result<Option<Value>, string>)
    decreases |items|
  {
    if items == [] then Ok(None)
    else if !items[0].Dict? then Err("AttributeError")
    else if accepted(GetOr(items[0].entries, "type", PyNone)) then Ok(Some(GetOr(items[0].entries, key, default)))
    else FirstOfType(items[1..], accepted, key, default)
  }

  /** The result is the field of the item at the first accepted position, all
      earlier items being objects of another type. */
  lemma {:induction false} FirstOfTypeAt(items: seq<Value>, accepted: Value -> bool, key: string, default: Value, i: nat)
    requires i < |items| && items[i].Dict? && accepted(GetOr(items[i].entries, "type", PyNone))
    requires forall j :: 0 <= j < i ==> items[j].Dict? && !accepted(GetOr(items[j].entries, "type", PyNone))
    ensures FirstOfType(items, accepted, key, default) == Ok(Some(GetOr(items[i].entries, key, default)))
  {
    if i > 0 {
      assert forall j :: 0 <= j < i - 1 ==> items[1..][j] == items[j + 1];
      FirstOfTypeAt(items[1..], accepted, key, default, i - 1);
    }
  }

  /** Objects none of which has an accepted type give `None`. */
  lemma {:induction false} FirstOfTypeNone(items: seq<Value>, accepted: Value -> bool, key: string, default: Value)
    requires forall j :: 0 <= j < |items| ==> items[j].Dict? && !accepted(GetOr(items[j].entries, "type", PyNone))
    ensures FirstOfType(items, accepted, key, default) == Ok(None)
  {
    if items != [] {
      assert forall j :: 0 <= j < |items| - 1 ==> items[1..][j] == items[j + 1];
      FirstOfTypeNone(items[1..], accepted, key, default);
    }
  }

  /** The scanning loop, leaving at the first accepted item. */
  method FindFirstOfType(items: seq<Value>, accepted: Value -> bool, key: string, default: Value)
    returns (r: Result<Option<Value>, string>)
    ensures r == FirstOfType(items, accepted, key, default)
  {
    var i := 0;
    while i < |items|
      invariant i <= |items|
      invariant FirstOfType(items[i..], accepted, key, default) == FirstOfType(items, accepted, key, default)
    {
      var item := items[i];
      if !item.Dict? {
        return Err("AttributeError");
      }
      if accepted(GetOr(item.entries, "type", PyNone)) {
        return Ok(Some(GetOr(item.entries, key, default)));
      }
      assert items[i..][1..] == items[i + 1..];
      i := i + 1;
    }
    return Ok(None);
  }

  // ---------------------------------------------------------------------
  // The title
  // ---------------------------------------------------------------------

  predicate IsOfficialTitle(t: Value) {
    t == Str("Official Title as Introduced")
  }

  /** The title among the `titles` entries: the first official title when it
      is truthy, else the first entry's `title`. */
  function TitleAmong(xs: seq<Value>): (r: Result<Value, string>)
    requires xs != []
  {
    match FirstOfType(xs, IsOfficialTitle, "title", Str(""))
    case Err(e) => Err(e)
    case Ok(found) =>
      var t := if found.Some? then found.value else Str("");
      if Truthy(t) then Ok(t) else DictGet(xs[0], "title", Str(""))
  }

  /** The title: the `title` member; else, from a non-empty `titles` list,
      the first official title when truthy, else the first entry's `title`;
      else `""`. */
  function Title(bill: Value): (r: Result<Value, string>)
    ensures bill.Dict? && Get(bill.entries, "title").Some? ==> r == Ok(Get(bill.entries, "title").value)
    ensures bill.Dict? && Get(bill.entries, "title").None? ==> match Get(bill.entries, "titles")
      case Some(List(xs)) => r == if xs == [] then Ok(Str("")) else TitleAmong(xs)
      case _ => r == Ok(Str(""))
  {
    match In("title", bill)
    case Err(e) => Err(e)
    case Ok(present) =>
      if present then Subscript(bill, "title")
      else
        match In("titles", bill)
        case Err(e) => Err(e)
        case Ok(listed) =>
          if !listed then Ok(Str(""))
          else
            match Subscript(bill, "titles")
            case Err(e) => Err(e)
            case Ok(v) => if v.List? && v.items != [] then TitleAmong(v.items) else Ok(Str(""))
  }

  /** An official title that is truthy wins over the first entry, wherever it
      stands in the list. */
  lemma TitleOfficialWins(xs: seq<Value>, i: nat)
    requires i < |xs| && xs[i].Dict? && IsOfficialTitle(GetOr(xs[i].entries, "type", PyNone))
    requires forall j :: 0 <= j < i ==> xs[j].Dict? && !IsOfficialTitle(GetOr(xs[j].entries, "type", PyNone))
    requires Truthy(GetOr(xs[i].entries, "title", Str("")))
    ensures TitleAmong(xs) == Ok(GetOr(xs[i].entries, "title", Str("")))
  {
    FirstOfTypeAt(xs, IsOfficialTitle, "title", Str(""), i);
  }

  /** Without an official title, the first entry's title is used. */
  lemma TitleFirstEntry(xs: seq<Value>)
    requires xs != []
    requires forall j :: 0 <= j < |xs| ==> xs[j].Dict? && !IsOfficialTitle(GetOr(xs[j].entries, "type", PyNone))
    ensures TitleAmong(xs) == Ok(GetOr(xs[0].entries, "title", Str("")))
  {
    FirstOfTypeNone(xs, IsOfficialTitle, "title", Str(""));
  }

  /** The method form of the title choice, with its scanning loop. */
  method ChooseTitle(bill: Value) returns (r: Result<Value, string>)
    ensures r == Title(bill)
  {
    var present := In("title", bill);
    if present.Err? { return Err(present.error); }
    if present.value {
      return Subscript(bill, "title");
    }
    var listed := In("titles", bill).value;
    r := Ok(Str(""));
    if listed {
      var v := Subscript(bill, "titles");
      if v.Err? { return Err(v.error); }
      if v.value.List? && v.value.items != [] {
        var xs := v.value.items;
        var found := FindFirstOfType(xs, IsOfficialTitle, "title", Str(""));
        if found.Err? { return Err(found.error); }
        var t := if found.value.Some? then found.value.value else Str("");
        if Truthy(t) {
          r := Ok(t);
        } else {
          r := DictGet(xs[0], "title", Str(""));
        }
      }
    }
  }

  /** The address of a bill's record on the API. */
  function BillEndpoint(info: BillInfo): string {
    "bill/" + info.congress + "/" + info.billType + "/" + info.number
  }

  /** `get_bill_metadata`: the bill's record fetched from its endpoint, with
      its fields chosen as above, in the order the source reads them; every
      failure (an address that does not parse, a failed request, a reply of
      an unexpected shape) is raised again. */
  function BillMetadataOf(url: string, request: (string, Entries) -> Result<Value, string>): (r: Result<BillMetadata, string>)
    ensures ParseCongressUrl(url).Err? ==> r == Err(ParseCongressUrl(url).error)
    ensures r.Ok? ==> ParseCongressUrl(url).Ok?
    ensures r.Ok? ==> var info := ParseCongressUrl(url).value;
      && r.value.congress == info.congress && r.value.billType == info.billType
      && r.value.number == info.number && r.value.url == url
  {
    match ParseCongressUrl(url)
    case Err(e) => Err(e)
    case Ok(info) =>
      match request(BillEndpoint(info), [])
      case Err(e) => Err(e)
      case Ok(data) =>
        match DictGet(data, "bill", Dict([]))
        case Err(e) => Err(e)
        case Ok(bill) =>
          match (Committees(bill), Subjects(bill), Sponsor(bill), Title(bill), DictGet(bill, "introducedDate", Str("")))
          case (Err(e), _, _, _, _) => Err(e)
          case (_, Err(e), _, _, _) => Err(e)
          case (_, _, Err(e), _, _) => Err(e)
          case (_, _, _, Err(e), _) => Err(e)
          case (_, _, _, _, Err(e)) => Err(e)
          case (Ok(committees), Ok(subjects), Ok(sponsor), Ok(title), Ok(introduced)) =>
            Ok(BillMetadata(info.congress, info.billType, info.number, title, sponsor, introduced, committees, subjects, url))
  }

  /** A record that is returned holds exactly the committees, subjects,
      sponsor and title chosen from the reply's `bill` object. */
  lemma BillMetadataFields(url: string, request: (string, Entries) -> Result<Value, string>)
    requires BillMetadataOf(url, request).Ok?
    ensures var r := BillMetadataOf(url, request).value;
      var bill := DictGet(request(BillEndpoint(ParseCongressUrl(url).value), []).value, "bill", Dict([])).value;
      && Committees(bill) == Ok(r.committees) && Subjects(bill) == Ok(r.subjects)
      && Sponsor(bill) == Ok(r.sponsor) && Title(bill) == Ok(r.title)
  {
    var info := ParseCongressUrl(url).value;
    var reply := request(BillEndpoint(info), []);
    assert reply.Ok?;
    var bill := DictGet(reply.value, "bill", Dict([]));
    assert bill.Ok?;
    assert Committees(bill.value).Ok? && Subjects(bill.value).Ok? && Sponsor(bill.value).Ok? && Title(bill.value).Ok?;
  }

  /** The method form of `get_bill_metadata`. */
  method GetBillMetadata(url: string, request: (string, Entries) -> Result<Value, string>) returns (r: Result<BillMetadata, string>)
    ensures r == BillMetadataOf(url, request)
  {
    var parsed := ParseCongressUrl(url);
    if parsed.Err? { return Err(parsed.error); }
    var info := parsed.value;
    var data := request(BillEndpoint(info), []);
    if data.Err? { return Err(data.error); }
    var bill := DictGet(data.value, "bill", Dict([]));
    if bill.Err? { return Err(bill.error); }
    var committees := ExtractCommittees(bill.value);
    if committees.Err? { return Err(committees.error); }
    var subjects := ExtractSubjects(bill.value);
    if subjects.Err? { return Err(subjects.error); }
    var sponsor := Sponsor(bill.value);
    if sponsor.Err? { return Err(sponsor.error); }
    var title := ChooseTitle(bill.value);
    if title.Err? { return Err(title.error); }
    var introduced := DictGet(bill.value, "introducedDate", Str(""));
    if introduced.Err? { return Err(introduced.error); }
    return Ok(BillMetadata(info.congress, info.billType, info.number, title.value, sponsor.value,
      introduced.value, committees.value, subjects.value, url));
  }

  // ---------------------------------------------------------------------
  // get_bill_text: the version and the format
  // ---------------------------------------------------------------------

  /** The list a member names: the member itself when it is a list, its
      `items` when it is an object holding them, an empty list otherwise. */
  function ListOrItems(v: Value, key: string): (r: Result<Value, string>)
    ensures v.Dict? ==> match Get(v.entries, key)
      case Some(List(xs)) => r == Ok(List(xs))
      case Some(Dict(es)) => r == Ok(if "items" in Keys(es) then Get(es, "items").value else List([]))
      case _ => r == Ok(List([]))
  {
    match In(key, v)
    case Err(e) => Err(e)
    case Ok(present) =>
      if !present then Ok(List([]))
      else
        match Subscript(v, key)
        case Err(e) => Err(e)
        case Ok(x) =>
          if x.List? then Ok(x)
          else if x.Dict? && "items" in Keys(x.entries) then Ok(Get(x.entries, "items").value)
          else Ok(List([]))
  }

  predicate IsTextFormat(t: Value) {
    t == Str("Formatted Text") || t == Str("PDF") || t == Str("HTML")
  }

  /** The address of the text to download: the `url` of the first format of
      the first text version whose type is one of the three; `None` when
      there is no version, no such format, or its address is empty. */
  function TextUrl(data: Value): (r: Result<Option<Value>, string>)
    ensures r.Ok? && r.value.Some? ==> Truthy(r.value.value)
  {
    match ListOrItems(data, "textVersions")
    case Err(e) => Err(e)
    case Ok(versions) =>
      if !Truthy(versions) then Ok(None)
      else
        match First(versions)
        case Err(e) => Err(e)
        case Ok(latest) =>
          match ListOrItems(latest, "formats")
          case Err(e) => Err(e)
          case Ok(formats) =>
            match Iterate(formats)
            case Err(e) => Err(e)
            case Ok(fmts) =>
              match FirstOfType(fmts, IsTextFormat, "url", PyNone)
              case Err(e) => Err(e)
              case Ok(u) => if u.Some? && Truthy(u.value) then Ok(u) else Ok(None)
  }

  /** Without text versions there is nothing to download. */
  lemma TextUrlNoVersions(data: Value)
    requires data.Dict?
    requires Get(data.entries, "textVersions").None? || Get(data.entries, "textVersions") == Some(List([]))
    ensures TextUrl(data) == Ok(None)
  {
  }

  /** The format chosen is the first one of the first version whose type is
      one of the three, all formats before it being objects of other types. */
  lemma TextUrlFirstFormat(data: Value, versions: seq<Value>, fmts: seq<Value>, i: nat)
    requires data.Dict? && Get(data.entries, "textVersions") == Some(List(versions))
    requires versions != [] && versions[0].Dict? && Get(versions[0].entries, "formats") == Some(List(fmts))
    requires i < |fmts| && fmts[i].Dict? && IsTextFormat(GetOr(fmts[i].entries, "type", PyNone))
    requires forall j :: 0 <= j < i ==> fmts[j].Dict? && !IsTextFormat(GetOr(fmts[j].entries, "type", PyNone))
    requires Truthy(GetOr(fmts[i].entries, "url", PyNone))
    ensures TextUrl(data) == Ok(Some(GetOr(fmts[i].entries, "url", PyNone)))
  {
    FirstOfTypeAt(fmts, IsTextFormat, "url", PyNone, i);
  }

  /** A version without any of the three formats gives nothing to download. */
  lemma TextUrlNoFormat(data: Value, versions: seq<Value>, fmts: seq<Value>)
    requires data.Dict? && Get(data.entries, "textVersions") == Some(List(versions))
    requires versions != [] && versions[0].Dict? && Get(versions[0].entries, "formats") == Some(List(fmts))
    requires forall j :: 0 <= j < |fmts| ==> fmts[j].Dict? && !IsTextFormat(GetOr(fmts[j].entries, "type", PyNone))
    ensures TextUrl(data) == Ok(None)
  {
    FirstOfTypeNone(fmts, IsTextFormat, "url", PyNone);
  }

  /** `get_bill_text`: the downloaded text at the chosen address, `""` when
      there is none. `download` stands for the request and the extraction of
      the page's text. */
  function BillTextOf(url: string, request: (string, Entries) -> Result<Value, string>,
                      download: Value -> Result<string, string>): (r: Result<string, string>)
    ensures ParseCongressUrl(url).Err? ==> r == Err(ParseCongressUrl(url).error)
  {
    match ParseCongressUrl(url)
    case Err(e) => Err(e)
    case Ok(info) =>
      match request(BillEndpoint(info) + "/text", [])
      case Err(e) => Err(e)
      case Ok(data) =>
        match TextUrl(data)
        case Err(e) => Err(e)
        case Ok(None) => Ok("")
        case Ok(Some(u)) => download(u)
  }

  /** The method form of `get_bill_text`, with its scanning loop. */
  method GetBillText(url: string, request: (string, Entries) -> Result<Value, string>,
                     download: Value -> Result<string, string>) returns (r: Result<string, string>)
    ensures r == BillTextOf(url, request, download)
  {
    var parsed := ParseCongressUrl(url);
    if parsed.Err? { return Err(parsed.error); }
    var data := request(BillEndpoint(parsed.value) + "/text", []);
    if data.Err? { return Err(data.error); }
    var versions := ListOrItems(data.value, "textVersions");
    if versions.Err? { return Err(versions.error); }
    if !Truthy(versions.value) { return Ok(""); }
    var latest := First(versions.value);
    if latest.Err? { return Err(latest.error); }
    var formats := ListOrItems(latest.value, "formats");
    if formats.Err? { return Err(formats.error); }
    var fmts := Iterate(formats.value);
    if fmts.Err? { return Err(fmts.error); }
    var textUrl := FindFirstOfType(fmts.value, IsTextFormat, "url", PyNone);
    if textUrl.Err? { return Err(textUrl.error); }
    if textUrl.value.None? || !Truthy(textUrl.value.value) { return Ok(""); }
    r := download(textUrl.value.value);
  }

  // ---------------------------------------------------------------------
  // get_bill_list
  // ---------------------------------------------------------------------

  function ListParamsBase(limit: int, offset: int, sort: string): Entries {
    [("limit", Int(limit)), ("offset", Int(offset)), ("sort", Str(sort)), ("format", Str("json"))]
  }

  /** The query parameters: the four fixed ones, then each filter that is
      truthy. */
  function ListParams(congress: Value, billType: Value, limit: int, offset: int, sort: string,
                      fromDateTime: Value, toDateTime: Value): Entries {
    var p0 := ListParamsBase(limit, offset, sort);
    var p1 := if Truthy(congress) then Put(p0, "congress", congress) else p0;
    var p2 := if Truthy(billType) then Put(p1, "billType", billType) else p1;
    var p3 := if Truthy(fromDateTime) then Put(p2, "fromDateTime", fromDateTime) else p2;
    if Truthy(toDateTime) then Put(p3, "toDateTime", toDateTime) else p3
  }

  /** Assigning a key that is already absent or different keeps `k`'s value
      as it was, and assigning `k` sets it. */
  lemma PutIf(d: Entries, c: bool, k: string, v: Value, k': string)
    ensures Get(if c then Put(d, k, v) else d, k') == if c && k == k' then Some(v) else Get(d, k')
  {
    if c && k != k' {
      PutOther(d, k, v, k');
    }
  }

  /** The value a key takes in the query parameters. */
  lemma ListParamsGet(congress: Value, billType: Value, limit: int, offset: int, sort: string,
                      fromDateTime: Value, toDateTime: Value, k: string)
    ensures Get(ListParams(congress, billType, limit, offset, sort, fromDateTime, toDateTime), k)
         == if k == "toDateTime" && Truthy(toDateTime) then Some(toDateTime)
            else if k == "fromDateTime" && Truthy(fromDateTime) then Some(fromDateTime)
            else if k == "billType" && Truthy(billType) then Some(billType)
            else if k == "congress" && Truthy(congress) then Some(congress)
            else Get(ListParamsBase(limit, offset, sort), k)
  {
    var p0 := ListParamsBase(limit, offset, sort);
    PutChainGet(p0, Truthy(congress), "congress", congress, Truthy(billType), "billType", billType,
                Truthy(fromDateTime), "fromDateTime", fromDateTime, Truthy(toDateTime), "toDateTime", toDateTime, k);
  }

  /** Four assignments, each made or not, read back by key. */
  lemma PutChainGet(p0: Entries, c1: bool, k1: string, v1: Value, c2: bool, k2: string, v2: Value,
                    c3: bool, k3: string, v3: Value, c4: bool, k4: string, v4: Value, k: string)
    ensures var p1 := if c1 then Put(p0, k1, v1) else p0;
      var p2 := if c2 then Put(p1, k2, v2) else p1;
      var p3 := if c3 then Put(p2, k3, v3) else p2;
      Get(if c4 then Put(p3, k4, v4) else p3, k)
        == if k == k4 && c4 then Some(v4)
           else if k == k3 && c3 then Some(v3)
           else if k == k2 && c2 then Some(v2)
           else if k == k1 && c1 then Some(v1)
           else Get(p0, k)
  {
    var p1 := if c1 then Put(p0, k1, v1) else p0;
    var p2 := if c2 then Put(p1, k2, v2) else p1;
    var p3 := if c3 then Put(p2, k3, v3) else p2;
    PutIf(p0, c1, k1, v1, k);
    PutIf(p1, c2, k2, v2, k);
    PutIf(p2, c3, k3, v3, k);
    PutIf(p3, c4, k4, v4, k);
  }

  lemma ListParamsBaseGet(limit: int, offset: int, sort: string)
    ensures var p := ListParamsBase(limit, offset, sort);
      && Get(p, "congress").None? && Get(p, "billType").None?
      && Get(p, "fromDateTime").None? && Get(p, "toDateTime").None?
  {
  }

  lemma ListParamsBaseFixed(limit: int, offset: int, sort: string)
    ensures var p := ListParamsBase(limit, offset, sort);
      && Get(p, "limit") == Some(Int(limit)) && Get(p, "offset") == Some(Int(offset))
      && Get(p, "sort") == Some(Str(sort)) && Get(p, "format") == Some(Str("json"))
  {
    var p := ListParamsBase(limit, offset, sort);
    var p1 := [("offset", Int(offset)), ("sort", Str(sort)), ("format", Str("json"))];
    var p2 := [("sort", Str(sort)), ("format", Str("json"))];
    var p3 := [("format", Str("json"))];
    assert p[1..] == p1 && p1[1..] == p2 && p2[1..] == p3;
    assert Get(p3, "format") == Some(Str("json"));
    assert Get(p2, "format") == Get(p3, "format");
    assert Get(p1, "format") == Get(p2, "format");
    assert Get(p1, "sort") == Get(p2, "sort");
  }

  /** Each filter is sent exactly when it is truthy, with its own value. */
  lemma ListParamsFilters(congress: Value, billType: Value, limit: int, offset: int, sort: string,
                          fromDateTime: Value, toDateTime: Value)
    ensures var p := ListParams(congress, billType, limit, offset, sort, fromDateTime, toDateTime);
      && Get(p, "congress") == (if Truthy(congress) then Some(congress) else None)
      && Get(p, "billType") == (if Truthy(billType) then Some(billType) else None)
      && Get(p, "fromDateTime") == (if Truthy(fromDateTime) then Some(fromDateTime) else None)
      && Get(p, "toDateTime") == (if Truthy(toDateTime) then Some(toDateTime) else None)
  {
    ListParamsBaseGet(limit, offset, sort);
    ListParamsGet(congress, billType, limit, offset, sort, fromDateTime, toDateTime, "congress");
    ListParamsGet(congress, billType, limit, offset, sort, fromDateTime, toDateTime, "billType");
    ListParamsGet(congress, billType, limit, offset, sort, fromDateTime, toDateTime, "fromDateTime");
    ListParamsGet(congress, billType, limit, offset, sort, fromDateTime, toDateTime, "toDateTime");
  }

  /** The four fixed parameters are always sent. */
  lemma ListParamsFixed(congress: Value, billType: Value, limit: int, offset: int, sort: string,
                        fromDateTime: Value, toDateTime: Value)
    ensures var p := ListParams(congress, billType, limit, offset, sort, fromDateTime, toDateTime);
      && Get(p, "limit") == Some(Int(limit)) && Get(p, "offset") == Some(Int(offset))
      && Get(p, "sort") == Some(Str(sort)) && Get(p, "format") == Some(Str("json"))
  {
    ListParamsBaseFixed(limit, offset, sort);
    ListParamsGet(congress, billType, limit, offset, sort, fromDateTime, toDateTime, "limit");
    ListParamsGet(congress, billType, limit, offset, sort, fromDateTime, toDateTime, "offset");
    ListParamsGet(congress, billType, limit, offset, sort, fromDateTime, toDateTime, "sort");
    ListParamsGet(congress, billType, limit, offset, sort, fromDateTime, toDateTime, "format");
  }

  /** The bills of a reply: the `bills` list; else the reply's `items` list;
      else the `items` list of a `bills` object; else none. A reply without
      `bills` gets the empty default, which is a list. */
  function Bills(data: Value): (r: Result<seq<Value>, string>)
    ensures r.Ok? <==> data.Dict?
  {
    match DictGet(data, "bills", List([]))
    case Err(e) => Err(e)
    case Ok(bills) =>
      if bills.List? then Ok(bills.items)
      else if "items" in Keys(data.entries) && Get(data.entries, "items").value.List? then
        Ok(Get(data.entries, "items").value.items)
      else if bills.Dict? && "items" in Keys(bills.entries) && Get(bills.entries, "items").value.List? then
        Ok(Get(bills.entries, "items").value.items)
      else Ok([])
  }

  /** The `items` list of an object, if it holds one. */
  function ItemsList(v: Value): Option<seq<Value>> {
    if v.Dict? && Get(v.entries, "items").Some? && Get(v.entries, "items").value.List?
    then Some(Get(v.entries, "items").value.items)
    else None
  }

  /** The order in which the three places are consulted. */
  lemma BillsPrecedence(data: Value)
    requires data.Dict?
    ensures Get(data.entries, "bills").None? ==> Bills(data) == Ok([])
    ensures Get(data.entries, "bills").Some? && Get(data.entries, "bills").value.List? ==>
      Bills(data) == Ok(Get(data.entries, "bills").value.items)
    ensures Get(data.entries, "bills").Some? && !Get(data.entries, "bills").value.List? ==>
      Bills(data) == match ItemsList(data)
        case Some(ys) => Ok(ys)
        case None => match ItemsList(Get(data.entries, "bills").value)
          case Some(zs) => Ok(zs)
          case None => Ok([])
  {
  }

  /** `get_bill_list`. */
  function BillList(request: (string, Entries) -> Result<Value, string>, congress: Value, billType: Value,
                    limit: int, offset: int, sort: string, fromDateTime: Value, toDateTime: Value): (r: Result<seq<Value>, string>)
    ensures request("bill", ListParams(congress, billType, limit, offset, sort, fromDateTime, toDateTime)).Ok? ==>
      (r.Ok? <==> request("bill", ListParams(congress, billType, limit, offset, sort, fromDateTime, toDateTime)).value.Dict?)
  {
    match request("bill", ListParams(congress, billType, limit, offset, sort, fromDateTime, toDateTime))
    case Err(e) => Err(e)
    case Ok(data) => Bills(data)
  }

  // ---------------------------------------------------------------------
  // The record as a dictionary
  // ---------------------------------------------------------------------

  /** `metadata.__dict__` (and `asdict(metadata)`): the fields under their
      Python names, in declaration order. */
  function MetadataDict(m: BillMetadata): Entries {
    IdFields(m) + DescriptionFields(m) + ListFields(m)
  }

  function IdFields(m: BillMetadata): Entries {
    [("congress", Str(m.congress)), ("bill_type", Str(m.billType)), ("number", Str(m.number))]
  }

  function DescriptionFields(m: BillMetadata): Entries {
    [("title", m.title), ("sponsor", m.sponsor), ("introduced_date", m.introducedDate)]
  }

  function ListFields(m: BillMetadata): Entries {
    [("committees", List(m.committees)), ("subjects", List(m.subjects)), ("url", Str(m.url))]
  }

  /** Looking a field up in the dictionary gives the record's field. */
  lemma MetadataDictGet(m: BillMetadata)
    ensures var d := MetadataDict(m);
      && Get(d, "congress") == Some(Str(m.congress)) && Get(d, "bill_type") == Some(Str(m.billType))
      && Get(d, "title") == Some(m.title) && Get(d, "sponsor") == Some(m.sponsor)
      && Get(d, "introduced_date") == Some(m.introducedDate)
  {
    var rest := DescriptionFields(m) + ListFields(m);
    assert MetadataDict(m) == IdFields(m) + rest;
    assert IdFields(m)[1..] + rest == (IdFields(m) + rest)[1..];
    DescriptionLookups(m);
  }

  lemma DescriptionLookups(m: BillMetadata)
    ensures var d := MetadataDict(m);
      && Get(d, "title") == Some(m.title) && Get(d, "sponsor") == Some(m.sponsor)
      && Get(d, "introduced_date") == Some(m.introducedDate)
  {
    var ids := IdFields(m);
    var rest := DescriptionFields(m) + ListFields(m);
    assert MetadataDict(m) == ids + rest;
    IdKeys(m);
    GetAppend(ids, rest, "title");
    GetAppend(ids, rest, "sponsor");
    GetAppend(ids, rest, "introduced_date");
    DescriptionGet(m);
  }

  lemma IdKeys(m: BillMetadata)
    ensures "title" !in Keys(IdFields(m)) && "sponsor" !in Keys(IdFields(m))
    ensures "introduced_date" !in Keys(IdFields(m))
  {
    KeysIndex(IdFields(m));
    assert Keys(IdFields(m)) == ["congress", "bill_type", "number"];
  }

  lemma DescriptionGet(m: BillMetadata)
    ensures var rest := DescriptionFields(m) + ListFields(m);
      && Get(rest, "title") == Some(m.title) && Get(rest, "sponsor") == Some(m.sponsor)
      && Get(rest, "introduced_date") == Some(m.introducedDate)
  {
    var rest := DescriptionFields(m) + ListFields(m);
    assert rest[1..] == DescriptionFields(m)[1..] + ListFields(m);
    assert rest[1..][1..] == DescriptionFields(m)[2..] + ListFields(m);
  }
}
