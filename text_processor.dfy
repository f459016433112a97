/** The deterministic text handling of the bill pipeline: cleaning raw bill
    text, splitting it into sections at structural markers, and cutting its
    word sequence into fixed-size chunks. */
module TextProcessor {
  import opened PyStr
  import opened Wrappers

  /** One `{'header': ..., 'content': ...}` record. */
  datatype Section = Section(header: string, content: string)

  /** What `process_bill` returns, without the embeddings. */
  datatype Processed = Processed(cleanText: string, sections: seq<Section>, chunks: seq<string>)

  /** The default `chunk_size` of `chunk_text`. */
  const DefaultChunkSize: nat := 1000

  // =====================================================================
  // clean_bill_text
  // =====================================================================

  /** The three line-level substitutions of `clean_bill_text`, in the order
      applied: `\n\s*\n` -> "\n\n", `\n\s*\d+\s*\n` -> "\n" and
      `\n\s*Section\s+\d+\.\s*\n` -> "\n". The fourth, `\s+` -> " ", is `Collapse`. */
  datatype LineRule = BlankLines | PageNumber | SectionLine

  function Replacement(rule: LineRule): string {
    match rule
    case BlankLines => "\n\n"
    case PageNumber => "\n"
    case SectionLine => "\n"
  }

  /** Index just past the last newline among the first `n` characters of `s`, or 0. */
  function AfterLastNewline(s: string, n: nat): (k: nat)
    requires n <= |s|
    ensures k <= n
    ensures k > 0 ==> s[k - 1] == '\n'
  {
    if n == 0 then 0 else if s[n - 1] == '\n' then n else AfterLastNewline(s, n - 1)
  }

  /** Length of the match of `\s*\n` at the start of `s`, or 0 when there is none:
      the greedy `\s*` takes the whole whitespace run and gives characters back
      until the next one is a newline, so the match ends at the run's last newline. */
  function SpacesThroughNewline(s: string): (n: nat)
    ensures n <= |s|
  {
    AfterLastNewline(s, SpaceCount(s))
  }

  /** Match length of `\n\s*\n` at the start of `s`, or 0. */
  function BlankLinesLen(s: string): (n: nat)
    ensures n <= |s|
  {
    if s == [] || s[0] != '\n' then 0
    else
      var k := SpacesThroughNewline(s[1..]);
      if k > 0 then 1 + k else 0
  }

  /** Match length of `\n\s*\d+\s*\n` at the start of `s`, or 0. A `\s*` before
      a digit and a `\d+` can only end where their runs end. */
  function PageNumberLen(s: string): (n: nat)
    ensures n <= |s|
  {
    if s == [] || s[0] != '\n' then 0
    else
      var a := 1 + SpaceCount(s[1..]);
      var d := DigitCount(s[a..]);
      var k := SpacesThroughNewline(s[a + d..]);
      if d > 0 && k > 0 then a + d + k else 0
  }

  /** Match length of `\n\s*Section\s+\d+\.\s*\n` at the start of `s`, or 0. */
  function SectionLineLen(s: string): (n: nat)
    ensures n <= |s|
  {
    if s == [] || s[0] != '\n' then 0
    else
      var a := 1 + SpaceCount(s[1..]);
      if !StartsWith(s[a..], "Section") then 0
      else
        var w := SpaceCount(s[a + 7..]);
        var d := DigitCount(s[a + 7 + w..]);
        var e := a + 7 + w + d;
        if w == 0 || d == 0 || e >= |s| || s[e] != '.' then 0
        else
          var k := SpacesThroughNewline(s[e + 1..]);
          if k > 0 then e + 1 + k else 0
  }

  /** Length of the match of `rule`'s pattern at the start of `s`, or 0 when it
      does not match there; every match starts with a newline. */
  function MatchLen(rule: LineRule, s: string): (n: nat)
    ensures n <= |s|
    ensures n > 0 ==> s[0] == '\n'
  {
    match rule
    case BlankLines => BlankLinesLen(s)
    case PageNumber => PageNumberLen(s)
    case SectionLine => SectionLineLen(s)
  }

  /** `re.sub(pattern, replacement, s)`: scan left to right, replace each match
      and resume after it, copy unmatched characters. */
  function Sub(rule: LineRule, s: string): string
    decreases |s|
  {
    if s == [] then []
    else
      var n := MatchLen(rule, s);
      if n > 0 then Replacement(rule) + Sub(rule, s[n..])
      else [s[0]] + Sub(rule, s[1..])
  }

  /** The text after the three line-level substitutions, before the final collapse. */
  function LineCleaned(raw: string): string {
    Sub(SectionLine, Sub(PageNumber, Sub(BlankLines, raw)))
  }

  /** Text in the shape `clean_bill_text` produces: no whitespace at either end,
      a single space as the only whitespace character, never two in a row. */
  predicate Normalised(t: string) {
    && (t == [] || (!IsSpace(t[0]) && !IsSpace(t[|t| - 1])))
    && (forall i :: 0 <= i < |t| && IsSpace(t[i]) ==> t[i] == ' ')
    && (forall i :: 0 <= i < |t| - 1 ==> !(IsSpace(t[i]) && IsSpace(t[i + 1])))
  }

  /** `clean_bill_text`. The final `re.sub(r'\s+', ' ', text).strip()` is
      exactly `' '.join(text.split())`, so the result is normalised text. */
  function CleanBillText(raw: string): (r: string)
    ensures r == Join(" ", Words(LineCleaned(raw)))
    ensures Normalised(r)
    ensures forall i :: 0 <= i < |r| ==> r[i] != '\n'
  {
    var t := LineCleaned(raw);
    CollapseThenStrip(t);
    WordsAreWords(t);
    JoinedWordsNormalised(Words(t));
    Strip(Collapse(t))
  }

  lemma JoinedWordsNormalised(ws: seq<string>)
    requires AllWords(ws)
    ensures Normalised(Join(" ", ws))
    ensures forall i :: 0 <= i < |Join(" ", ws)| ==> Join(" ", ws)[i] != '\n'
  {
    JoinWordsShape(ws);
    NoNewlineInJoinedWords(ws);
    if ws != [] { JoinWordsEnds(ws); }
  }

  /** Every line-level pattern starts with a newline, so text without one is left alone. */
  lemma {:induction false} SubWithoutNewline(rule: LineRule, s: string)
    requires forall i :: 0 <= i < |s| ==> s[i] != '\n'
    ensures Sub(rule, s) == s
    decreases |s|
  {
    if s != [] {
      assert MatchLen(rule, s) == 0;
      SubWithoutNewline(rule, s[1..]);
      assert [s[0]] + s[1..] == s;
    }
  }

  /** `re.sub(r'\s+', ' ', s)`: each maximal whitespace run becomes one space. */
  function Collapse(s: string): string
    decreases |s|
  {
    if s == [] then []
    else if IsSpace(s[0]) then " " + Collapse(s[SpaceCount(s)..])
    else [s[0]] + Collapse(s[1..])
  }

  /** The whitespace collapse copies a run of non-whitespace unchanged. */
  lemma {:induction false} CollapseCopiesWord(w: string, r: string)
    requires NoSpace(w)
    ensures Collapse(w + r) == w + Collapse(r)
    decreases |w|
  {
    if w != [] {
      var s := w + r;
      assert s[0] == w[0] && !IsSpace(s[0]);
      assert Collapse(s) == [w[0]] + Collapse(s[1..]);
      assert s[1..] == w[1..] + r;
      CollapseCopiesWord(w[1..], r);
      assert [w[0]] + (w[1..] + Collapse(r)) == w + Collapse(r);
    } else {
      assert w + r == r;
    }
  }

  function Lead(s: string): string {
    if s != [] && IsSpace(s[0]) then " " else ""
  }

  function Trail(s: string): string {
    if Words(s) != [] && IsSpace(s[|s| - 1]) then " " else ""
  }

  /** `re.sub(r'\s+', ' ', s)` is the words of `s` joined by single spaces, with
      one space kept at an end where `s` had whitespace. */
  lemma {:induction false} CollapseShape(s: string)
    ensures Collapse(s) == Lead(s) + Join(" ", Words(s)) + Trail(s)
    decreases |s|, 2
  {
    if s == [] {
    } else if IsSpace(s[0]) {
      CollapseSpaceFirst(s);
    } else {
      CollapseWordFirst(s);
    }
  }

  lemma {:induction false} CollapseSpaceFirst(s: string)
    requires s != [] && IsSpace(s[0])
    ensures Collapse(s) == " " + Join(" ", Words(s)) + Trail(s)
    decreases |s|, 1
  {
    CollapseAfterSpaces(s);
    assert Collapse(s) == " " + Collapse(s[SpaceCount(s)..]);
    AppendAssoc(" ", Join(" ", Words(s)), Trail(s));
  }

  lemma {:induction false} CollapseAfterSpaces(s: string)
    requires s != [] && IsSpace(s[0])
    ensures Collapse(s[SpaceCount(s)..]) == Join(" ", Words(s)) + Trail(s)
    decreases |s|, 0
  {
    var t := s[SpaceCount(s)..];
    CollapseShape(t);
    LeadAfterSpaces(s);
    WordsSkipSpaces(s, SpaceCount(s));
    TrailSkipSpaces(s);
    assert "" + Join(" ", Words(t)) == Join(" ", Words(t));
  }

  lemma LeadAfterSpaces(s: string)
    ensures Lead(s[SpaceCount(s)..]) == ""
  {
    var t := s[SpaceCount(s)..];
    assert t == [] || t[0] == s[SpaceCount(s)];
  }

  /** Dropping leading whitespace keeps the trailing space. */
  lemma TrailSkipSpaces(s: string)
    ensures Trail(s[SpaceCount(s)..]) == Trail(s)
  {
    WordsSkipSpaces(s, SpaceCount(s));
    var t := s[SpaceCount(s)..];
    assert Words(s) != [] ==> |t| > 0;
  }

  lemma {:induction false} CollapseWordFirst(s: string)
    requires s != [] && !IsSpace(s[0])
    ensures Collapse(s) == Join(" ", Words(s)) + Trail(s)
    decreases |s|, 0
  {
    var n := WordLen(s);
    var w, r := s[..n], s[n..];
    assert s == w + r;
    WordLenNoSpace(s);
    CollapseCopiesWord(w, r);
    WordsCons(w, r);
    CollapseShape(r);
    assert Collapse(s) == w + Collapse(r);
    if r == [] {
      assert Trail(s) == "" by { assert s[|s| - 1] == w[|w| - 1]; }
      assert Collapse(r) == [];
      assert w + [] == w;
    } else if Words(r) == [] {
      NoWordsAllSpace(r);
      SpaceCountSpaces(r);
      assert IsSpace(r[|r| - 1]) && s[|s| - 1] == r[|r| - 1];
      assert Trail(s) == " ";
      assert Collapse(r) == " ";
      assert Words(s) == [w];
    } else {
      assert s[|s| - 1] == r[|r| - 1];
      assert Trail(s) == Trail(r);
      JoinConsWords(w, Words(r));
      assert Collapse(r) == " " + Join(" ", Words(r)) + Trail(r);
      AppendAssoc(w, " " + Join(" ", Words(r)), Trail(r));
      AppendAssoc(w, " ", Join(" ", Words(r)));
    }
  }

  /** The last step of `clean_bill_text` is `' '.join(s.split())`. */
  lemma CollapseThenStrip(s: string)
    ensures Strip(Collapse(s)) == Join(" ", Words(s))
  {
    CollapseShape(s);
    WordsAreWords(s);
    if Words(s) != [] { JoinWordsEnds(Words(s)); }
    StripPadded(Lead(s), Join(" ", Words(s)), Trail(s));
  }

  /** Cleaning keeps exactly the words left by the line-level substitutions. */
  lemma CleanKeepsWords(raw: string)
    ensures Words(CleanBillText(raw)) == Words(LineCleaned(raw))
  {
    WordsAreWords(LineCleaned(raw));
    WordsOfJoin(Words(LineCleaned(raw)));
  }

  /** On single-line text `clean_bill_text` is `' '.join(raw.split())`. */
  lemma CleanSingleLine(raw: string)
    requires forall i :: 0 <= i < |raw| ==> raw[i] != '\n'
    ensures CleanBillText(raw) == Join(" ", Words(raw))
  {
    SubWithoutNewline(BlankLines, raw);
    SubWithoutNewline(PageNumber, raw);
    SubWithoutNewline(SectionLine, raw);
  }

  /** `clean_bill_text` is idempotent: its output has no newline, so the three
      line-level substitutions leave it alone, and it already is its own words
      joined by single spaces. */
  lemma CleanIdempotent(raw: string)
    ensures CleanBillText(CleanBillText(raw)) == CleanBillText(raw)
  {
    var c := CleanBillText(raw);
    CleanSingleLine(c);
    WordsAreWords(LineCleaned(raw));
    WordsOfJoin(Words(LineCleaned(raw)));
  }

  // =====================================================================
  // chunk_text
  // =====================================================================

  /** The chunks of a word sequence: consecutive groups of `k` words, the last
      one possibly shorter, each joined by single spaces. */
  function Chunks(words: seq<string>, k: nat): seq<string>
    requires k > 0
    decreases |words|
  {
    if words == [] then []
    else if |words| <= k then [Join(" ", words)]
    else [Join(" ", words[..k])] + Chunks(words[k..], k)
  }

  lemma AppendAssoc<T>(a: seq<T>, b: seq<T>, c: seq<T>)
    ensures a + (b + c) == a + b + c
  {
  }

  /** One step of `chunk_text`'s loop: the chunks from word `i` on. */
  lemma ChunksFrom(words: seq<string>, i: nat, k: nat)
    requires k > 0 && i < |words|
    ensures i + k < |words| ==>
      Chunks(words[i..], k) == [Join(" ", words[i..i + k])] + Chunks(words[i + k..], k)
    ensures i + k >= |words| ==> Chunks(words[i..], k) == [Join(" ", words[i..])]
  {
    if i + k < |words| {
      assert words[i..][..k] == words[i..i + k];
      assert words[i..][k..] == words[i + k..];
    }
  }

  /** `chunk_text`'s loop state: `chunks` holds the chunks of the first `i` words. */
  predicate ChunkedUpTo(words: seq<string>, k: nat, i: nat, chunks: seq<string>)
    requires k > 0
  {
    if i < |words| then chunks + Chunks(words[i..], k) == Chunks(words, k)
    else chunks == Chunks(words, k)
  }

  lemma ChunkStep(words: seq<string>, k: nat, i: nat, chunks: seq<string>)
    requires k > 0 && i < |words| && ChunkedUpTo(words, k, i, chunks)
    ensures ChunkedUpTo(words, k, i + k,
      chunks + [Join(" ", words[i..if i + k < |words| then i + k else |words|])])
  {
    ChunksFrom(words, i, k);
    if i + k < |words| {
      AppendAssoc(chunks, [Join(" ", words[i..i + k])], Chunks(words[i + k..], k));
    } else {
      assert words[i..|words|] == words[i..];
    }
  }

  /** `chunk_text(text, chunk_size)`. A zero step makes `range` raise; a
      negative one gives an empty range. */
  method ChunkText(text: string, chunkSize: int) returns (r: Result<seq<string>, string>)
    ensures chunkSize == 0 <==> r.Err?
    ensures chunkSize < 0 ==> r == Ok([])
    ensures chunkSize > 0 ==> r == Ok(Chunks(Words(text), chunkSize))
  {
    if chunkSize == 0 {
      return Err("range() arg 3 must not be zero");
    }
    if chunkSize < 0 {
      return Ok([]);
    }
    var words := Words(text);
    var chunks: seq<string> := [];
    var i := 0;
    assert words[0..] == words;
    while i < |words|
      invariant 0 <= i
      invariant ChunkedUpTo(words, chunkSize, i, chunks)
    {
      var end := if i + chunkSize < |words| then i + chunkSize else |words|;
      ChunkStep(words, chunkSize, i, chunks);
      chunks := chunks + [Join(" ", words[i..end])];
      i := i + chunkSize;
    }
    return Ok(chunks);
  }

  /** There are ceil(n / k) chunks: the fewest groups of at most `k` that hold
      all `n` words (none for an empty or all-whitespace text). */
  lemma {:induction false} ChunkCount(words: seq<string>, k: nat)
    requires k > 0
    ensures (|Chunks(words, k)| - 1) * k < |words| <= |Chunks(words, k)| * k
    decreases |words|
  {
    if |words| > k {
      var m := |Chunks(words[k..], k)|;
      ChunkCount(words[k..], k);
      assert |Chunks(words, k)| == m + 1;
      assert (m + 1) * k == m * k + k;
      assert m * k == (m - 1) * k + k;
    }
  }

  /** The words of the chunks, group by group. */
  function ChunkWords(cs: seq<string>): (g: seq<seq<string>>)
    ensures |g| == |cs|
  {
    if cs == [] then [] else [Words(cs[0])] + ChunkWords(cs[1..])
  }

  function Flatten(gs: seq<seq<string>>): seq<string> {
    if gs == [] then [] else gs[0] + Flatten(gs[1..])
  }

  /** Taken in order, the chunks' words are the text's words, each exactly once. */
  lemma {:induction false} ChunksFlatten(words: seq<string>, k: nat)
    requires k > 0 && AllWords(words)
    ensures Flatten(ChunkWords(Chunks(words, k))) == words
    decreases |words|
  {
    if words == [] {
    } else if |words| <= k {
      ChunksFlattenLast(words, k);
    } else {
      AllWordsSlices(words, k);
      ChunksFlatten(words[k..], k);
      ChunksFlattenStep(words, k);
    }
  }

  lemma ChunksFlattenLast(words: seq<string>, k: nat)
    requires 0 < |words| <= k && AllWords(words)
    ensures Flatten(ChunkWords(Chunks(words, k))) == words
  {
    WordsOfJoin(words);
    assert ChunkWords([Join(" ", words)]) == [words];
    assert words + [] == words;
  }

  lemma AllWordsSlices(words: seq<string>, k: nat)
    requires k <= |words| && AllWords(words)
    ensures AllWords(words[..k]) && AllWords(words[k..])
  {
    assert forall i :: 0 <= i < k ==> words[..k][i] == words[i];
    assert forall i :: 0 <= i < |words| - k ==> words[k..][i] == words[k + i];
  }

  /** One full chunk in front of the rest. */
  lemma ChunksFlattenStep(words: seq<string>, k: nat)
    requires 0 < k < |words| && AllWords(words)
    requires Flatten(ChunkWords(Chunks(words[k..], k))) == words[k..]
    ensures Flatten(ChunkWords(Chunks(words, k))) == words
  {
    var head := Join(" ", words[..k]);
    var rest := Chunks(words[k..], k);
    assert Chunks(words, k) == [head] + rest;
    AllWordsSlices(words, k);
    WordsOfJoin(words[..k]);
    ChunkWordsCons(head, rest);
    FlattenCons(words[..k], ChunkWords(rest));
    TakeDrop(words, k);
  }

  lemma TakeDrop<T>(s: seq<T>, k: nat)
    requires k <= |s|
    ensures s[..k] + s[k..] == s
  {
  }

  lemma ChunkWordsCons(c: string, cs: seq<string>)
    ensures ChunkWords([c] + cs) == [Words(c)] + ChunkWords(cs)
  {
    assert ([c] + cs)[1..] == cs;
  }

  lemma FlattenCons(x: seq<string>, gs: seq<seq<string>>)
    ensures Flatten([x] + gs) == x + Flatten(gs)
  {
    assert ([x] + gs)[1..] == gs;
  }

  /** Groups of `k` items, except the last, which holds 1 to `k`. */
  predicate FullGroups(g: seq<seq<string>>, k: nat) {
    forall i :: 0 <= i < |g| ==> 1 <= |g[i]| <= k && (i < |g| - 1 ==> |g[i]| == k)
  }

  lemma FullGroupsCons(x: seq<string>, g: seq<seq<string>>, k: nat)
    requires |x| == k > 0 && FullGroups(g, k)
    ensures FullGroups([x] + g, k)
  {
    var h := [x] + g;
    forall i | 1 <= i < |h| ensures h[i] == g[i - 1] { }
  }

  /** Every chunk holds `k` words except the last, which holds 1 to `k`. */
  lemma {:induction false} ChunkSizes(words: seq<string>, k: nat)
    requires k > 0 && AllWords(words)
    ensures FullGroups(ChunkWords(Chunks(words, k)), k)
    decreases |words|
  {
    if words == [] {
    } else if |words| <= k {
      WordsOfJoin(words);
      assert ChunkWords([Join(" ", words)]) == [words];
    } else {
      var head := Join(" ", words[..k]);
      var rest := Chunks(words[k..], k);
      ChunkSizes(words[k..], k);
      WordsOfJoin(words[..k]);
      assert ([head] + rest)[1..] == rest;
      assert Chunks(words, k) == [head] + rest;
      assert ChunkWords([head] + rest) == [words[..k]] + ChunkWords(rest);
      FullGroupsCons(words[..k], ChunkWords(rest), k);
    }
  }

  /** Joining the chunks with single spaces gives the words joined with single
      spaces: the chunks neither overlap nor leave anything out. */
  lemma {:induction false} ChunksJoin(words: seq<string>, k: nat)
    requires k > 0
    ensures Join(" ", Chunks(words, k)) == Join(" ", words)
    decreases |words|
  {
    if |words| > k {
      ChunksJoin(words[k..], k);
      var rest := Chunks(words[k..], k);
      assert rest != [];
      JoinConsWords(Join(" ", words[..k]), rest);
      JoinAppend(words[..k], words[k..]);
      assert words[..k] + words[k..] == words;
    }
  }

  /** Splitting the joined chunks gives back the text's words. */
  lemma ChunksRoundTrip(text: string, k: nat)
    requires k > 0
    ensures Words(Join(" ", Chunks(Words(text), k))) == Words(text)
  {
    ChunksJoin(Words(text), k);
    WordsAreWords(text);
    WordsOfJoin(Words(text));
  }

  // =====================================================================
  // extract_sections
  // =====================================================================

  /** Match length of `\s+\d+\.` at the start of `t`, or 0. */
  function NumberedLen(t: string): nat {
    var w := SpaceCount(t);
    var d := DigitCount(t[w..]);
    if w > 0 && d > 0 && w + d < |t| && t[w + d] == '.' then w + d + 1 else 0
  }

  /** Match length of `Section\s+\d+\.` at the start of `s`, or 0. */
  function SectionMarkerLen(s: string): nat {
    if StartsWith(s, "Section") && NumberedLen(s[7..]) > 0 then 7 + NumberedLen(s[7..]) else 0
  }

  /** Match length of `\(\w\)\s+` at the start of `s`, or 0. */
  function ItemMarkerLen(s: string): nat {
    if |s| >= 3 && s[0] == '(' && IsWordChar(s[1]) && s[2] == ')' && SpaceCount(s[3..]) > 0
    then 3 + SpaceCount(s[3..]) else 0
  }

  /** Match length of the marker pattern `Section\s+\d+\.|\(\w\)\s+` at the
      start of `s` (the first alternative is tried first), or 0. */
  function MarkerLen(s: string): (n: nat)
    ensures n <= |s|
  {
    var a := SectionMarkerLen(s);
    if a > 0 then a else ItemMarkerLen(s)
  }

  /** `re.match(pattern, part)` succeeds: the part starts with a marker. */
  predicate IsMarker(part: string) {
    MarkerLen(part) > 0
  }

  /** `re.split` with a capturing group: the text before the first marker, then
      alternately a marker and the text up to the next one. `plain` is the text
      gathered since the last marker. */
  function SplitMarkers(s: string, plain: string): seq<string>
    decreases |s|
  {
    if s == [] then [plain]
    else
      var n := MarkerLen(s);
      if n > 0 then [plain, s[..n]] + SplitMarkers(s[n..], [])
      else SplitMarkers(s[1..], plain + [s[0]])
  }

  /** The parts of `text` as `re.split(r'(Section\s+\d+\.|\(\w\)\s+)', text)` gives them. */
  function Split(text: string): seq<string> {
    SplitMarkers(text, [])
  }

  function Concat(parts: seq<string>): string {
    if parts == [] then [] else parts[0] + Concat(parts[1..])
  }

  /** Parts that alternate: text at even positions, markers at odd ones, text at both ends. */
  predicate Alternates(parts: seq<string>, opens: string -> bool) {
    && |parts| % 2 == 1
    && forall i :: 0 <= i < |parts| ==> (opens(parts[i]) <==> i % 2 == 1)
  }

  lemma SpaceCountAppend(a: string, b: string)
    ensures SpaceCount(a + b) == if SpaceCount(a) < |a| then SpaceCount(a) else |a| + SpaceCount(b)
  {
    if a != [] { assert (a + b)[1..] == a[1..] + b; SpaceCountAppend(a[1..], b); }
    else { assert a + b == b; }
  }

  lemma DigitCountAppend(a: string, b: string)
    ensures DigitCount(a + b) == if DigitCount(a) < |a| then DigitCount(a) else |a| + DigitCount(b)
  {
    if a != [] { assert (a + b)[1..] == a[1..] + b; DigitCountAppend(a[1..], b); }
    else { assert a + b == b; }
  }

  /** A marker match still matches when more text follows. */
  lemma MarkerExtends(x: string, y: string)
    ensures IsMarker(x) ==> IsMarker(x + y)
  {
    if SectionMarkerLen(x) > 0 {
      SectionMarkerExtends(x, y);
    } else if ItemMarkerLen(x) > 0 {
      ItemMarkerExtends(x, y);
    }
  }

  lemma SectionMarkerExtends(x: string, y: string)
    requires SectionMarkerLen(x) > 0
    ensures SectionMarkerLen(x + y) > 0
  {
    assert (x + y)[..7] == x[..7];
    assert (x + y)[7..] == x[7..] + y;
    NumberedExtends(x[7..], y);
  }

  lemma NumberedExtends(t: string, y: string)
    requires NumberedLen(t) > 0
    ensures NumberedLen(t + y) == NumberedLen(t)
  {
    var w := SpaceCount(t);
    SpaceCountAppend(t, y);
    assert (t + y)[w..] == t[w..] + y;
    DigitCountAppend(t[w..], y);
  }

  lemma ItemMarkerExtends(x: string, y: string)
    requires ItemMarkerLen(x) > 0
    ensures ItemMarkerLen(x + y) > 0
  {
    assert (x + y)[3..] == x[3..] + y;
    SpaceCountAppend(x[3..], y);
  }

  /** A marker match, cut out on its own, is still a marker match. */
  lemma MarkerOfItself(s: string)
    requires IsMarker(s)
    ensures IsMarker(s[..MarkerLen(s)])
  {
    if SectionMarkerLen(s) > 0 {
      SectionMarkerOfItself(s);
    } else {
      ItemMarkerOfItself(s);
    }
  }

  lemma SectionMarkerOfItself(s: string)
    requires SectionMarkerLen(s) > 0
    ensures SectionMarkerLen(s[..SectionMarkerLen(s)]) > 0
  {
    var n := SectionMarkerLen(s);
    var m := s[..n];
    assert m[..7] == s[..7];
    assert m[7..] == s[7..][..n - 7];
    NumberedOfItself(s[7..]);
  }

  lemma NumberedOfItself(t: string)
    requires NumberedLen(t) > 0
    ensures NumberedLen(t[..NumberedLen(t)]) == NumberedLen(t)
  {
    var k := NumberedLen(t);
    var w := SpaceCount(t);
    var m := t[..k];
    assert t == m + t[k..];
    SpaceCountAppend(m, t[k..]);
    assert SpaceCount(m) == w;
    assert m[w..] == t[w..][..k - w];
    assert t[w..] == m[w..] + t[k..];
    DigitCountAppend(m[w..], t[k..]);
  }

  lemma ItemMarkerOfItself(s: string)
    requires SectionMarkerLen(s) == 0 && ItemMarkerLen(s) > 0
    ensures SectionMarkerLen(s[..ItemMarkerLen(s)]) == 0 && ItemMarkerLen(s[..ItemMarkerLen(s)]) > 0
  {
    var n := ItemMarkerLen(s);
    var m := s[..n];
    assert m[3..] == s[3..][..n - 3];
    assert s[3..] == s[3..][..n - 3] + s[n..];
    SpaceCountAppend(s[3..][..n - 3], s[n..]);
    assert m[0] == '(';
    ParenNotSection(m);
  }

  lemma ParenNotSection(m: string)
    requires m != [] && m[0] == '('
    ensures SectionMarkerLen(m) == 0
  {
    if |m| >= 7 {
      assert m[..7][0] != "Section"[0];
    }
  }

  lemma AlternatesCons2(a: string, b: string, rest: seq<string>, opens: string -> bool)
    requires !opens(a) && opens(b) && Alternates(rest, opens)
    ensures Alternates([a, b] + rest, opens)
  {
    var p := [a, b] + rest;
    forall i | 2 <= i < |p| ensures (opens(p[i]) <==> i % 2 == 1) {
      assert p[i] == rest[i - 2];
    }
  }

  lemma ConcatCons2(a: string, b: string, rest: seq<string>)
    ensures Concat([a, b] + rest) == a + (b + Concat(rest))
  {
    assert ([a, b] + rest)[1..] == [b] + rest;
    assert ([b] + rest)[1..] == rest;
  }

  /** The split alternates text and markers and loses nothing: its parts
      concatenate back to the text. */
  lemma {:induction false} SplitMarkersShape(s: string, plain: string)
    requires plain == [] || !IsMarker(plain + s)
    ensures Alternates(SplitMarkers(s, plain), IsMarker)
    ensures Concat(SplitMarkers(s, plain)) == plain + s
    decreases |s|
  {
    if s == [] {
      AppendEmpty(plain);
      SplitMarkersEnd(plain);
    } else if IsMarker(s) {
      AppendEmpty(s[MarkerLen(s)..]);
      SplitMarkersShape(s[MarkerLen(s)..], []);
      SplitAtMarker(s, plain);
    } else {
      SplitPastText(s, plain);
      SplitMarkersShape(s[1..], plain + [s[0]]);
    }
  }

  lemma SplitMarkersEnd(plain: string)
    requires plain == [] || !IsMarker(plain)
    ensures Alternates(SplitMarkers([], plain), IsMarker)
    ensures Concat(SplitMarkers([], plain)) == plain + []
  {
    assert SplitMarkers([], plain) == [plain];
    if plain == [] {
      NotMarkerEmpty();
    }
    AlternatesSingle(plain, IsMarker);
    ConcatSingle(plain);
    AppendEmpty(plain);
  }

  lemma NotMarkerEmpty()
    ensures !IsMarker([])
  {
    assert SectionMarkerLen([]) == 0;
    assert ItemMarkerLen([]) == 0;
  }

  lemma AlternatesSingle(x: string, opens: string -> bool)
    requires !opens(x)
    ensures Alternates([x], opens)
  {
  }

  lemma ConcatSingle(x: string)
    ensures Concat([x]) == x
  {
    assert [x][1..] == [];
  }

  lemma AppendEmpty<T>(a: seq<T>)
    ensures a + [] == a && [] + a == a
  {
  }

  lemma SplitPastText(s: string, plain: string)
    requires s != [] && !IsMarker(s) && (plain == [] || !IsMarker(plain + s))
    ensures (plain + [s[0]]) + s[1..] == plain + s
    ensures !IsMarker((plain + [s[0]]) + s[1..])
    ensures SplitMarkers(s, plain) == SplitMarkers(s[1..], plain + [s[0]])
  {
    assert (plain + [s[0]]) + s[1..] == plain + s;
    if plain == [] {
      assert plain + s == s;
    }
  }

  lemma SplitAtMarker(s: string, plain: string)
    requires IsMarker(s) && (plain == [] || !IsMarker(plain + s))
    requires var rest := SplitMarkers(s[MarkerLen(s)..], []);
      Alternates(rest, IsMarker) && Concat(rest) == s[MarkerLen(s)..]
    ensures Alternates(SplitMarkers(s, plain), IsMarker)
    ensures Concat(SplitMarkers(s, plain)) == plain + s
  {
    var n := MarkerLen(s);
    var rest := SplitMarkers(s[n..], []);
    assert SplitMarkers(s, plain) == [plain, s[..n]] + rest;
    MarkerExtends(plain, s);
    MarkerOfItself(s);
    AlternatesCons2(plain, s[..n], rest, IsMarker);
    ConcatCons2(plain, s[..n], rest);
    assert s[..n] + s[n..] == s;
    AppendAssoc(plain, s[..n], s[n..]);
  }

  /** The parts of any text alternate between text and markers and
      concatenate back to the text. */
  lemma SplitAlternates(text: string)
    ensures Alternates(Split(text), IsMarker)
    ensures Concat(Split(text)) == text
  {
    assert [] + text == text;
    SplitMarkersShape(text, []);
  }

  /** The sections before `extract_sections` drops the blank ones: a part that
      `opens` a section starts a new one headed by the stripped part, any other
      part is appended to the open section's content. The first section is
      headed `''`. */
  function Grouped(parts: seq<string>, opens: string -> bool): (gs: seq<Section>)
    ensures gs != []
    decreases |parts|
  {
    if parts == [] then [Section("", "")]
    else
      var gs := Grouped(parts[..|parts| - 1], opens);
      var p := parts[|parts| - 1];
      if opens(p) then gs + [Section(Strip(p), "")]
      else gs[..|gs| - 1] + [Section(gs[|gs| - 1].header, gs[|gs| - 1].content + p)]
  }

  /** The sections whose content is not blank, in order. */
  function Kept(gs: seq<Section>): seq<Section> {
    if gs == [] then []
    else
      var last := gs[|gs| - 1];
      Kept(gs[..|gs| - 1]) + Close(last)
  }

  lemma KeptSnoc(gs: seq<Section>, x: Section)
    ensures Kept(gs + [x]) == Kept(gs) + Close(x)
  {
    assert (gs + [x])[..|gs|] == gs;
  }

  lemma {:induction false} KeptNonBlank(gs: seq<Section>)
    ensures forall i :: 0 <= i < |Kept(gs)| ==> Strip(Kept(gs)[i].content) != []
    decreases |gs|
  {
    if gs != [] {
      KeptNonBlank(gs[..|gs| - 1]);
    }
  }

  /** The result of `extract_sections(text)`. */
  function Sections(text: string): seq<Section> {
    Kept(Grouped(Split(text), IsMarker))
  }

  /** `extract_sections`' loop state after `i` parts: the finished sections
      kept so far, and the section still open. */
  predicate Scanned(parts: seq<string>, i: nat, sections: seq<Section>, current: Section)
    requires i <= |parts|
  {
    var g := Grouped(parts[..i], IsMarker);
    sections == Kept(g[..|g| - 1]) && current == g[|g| - 1]
  }

  /** The section kept when `s` is closed. */
  function Close(s: Section): seq<Section> {
    if Strip(s.content) != [] then [s] else []
  }

  lemma ScanMarker(parts: seq<string>, i: nat, sections: seq<Section>, current: Section)
    requires i < |parts| && Scanned(parts, i, sections, current) && IsMarker(parts[i])
    ensures Scanned(parts, i + 1, sections + Close(current), Section(Strip(parts[i]), ""))
  {
    var g := Grouped(parts[..i], IsMarker);
    assert parts[..i + 1][..i] == parts[..i];
    KeptSnoc(g[..|g| - 1], current);
    assert g[..|g| - 1] + [current] == g;
    assert (g + [Section(Strip(parts[i]), "")])[..|g|] == g;
  }

  lemma ScanText(parts: seq<string>, i: nat, sections: seq<Section>, current: Section)
    requires i < |parts| && Scanned(parts, i, sections, current) && !IsMarker(parts[i])
    ensures Scanned(parts, i + 1, sections, current.(content := current.content + parts[i]))
  {
    var g := Grouped(parts[..i], IsMarker);
    assert parts[..i + 1][..i] == parts[..i];
    var c := current.(content := current.content + parts[i]);
    assert (g[..|g| - 1] + [c])[..|g| - 1] == g[..|g| - 1];
  }

  lemma ScanDone(parts: seq<string>, sections: seq<Section>, current: Section)
    requires Scanned(parts, |parts|, sections, current)
    ensures sections + Close(current) == Kept(Grouped(parts, IsMarker))
  {
    assert parts[..|parts|] == parts;
    var g := Grouped(parts, IsMarker);
    KeptSnoc(g[..|g| - 1], current);
    assert g[..|g| - 1] + [current] == g;
  }

  /** `extract_sections`: every emitted section has non-blank content. */
  method ExtractSections(text: string) returns (sections: seq<Section>)
    ensures sections == Sections(text)
    ensures forall i :: 0 <= i < |sections| ==> Strip(sections[i].content) != []
  {
    var parts := Split(text);
    sections := [];
    var current := Section("", "");
    var i := 0;
    assert parts[..0] == [];
    while i < |parts|
      invariant 0 <= i <= |parts|
      invariant Scanned(parts, i, sections, current)
    {
      var part := parts[i];
      if IsMarker(part) {
        ScanMarker(parts, i, sections, current);
        if Strip(current.content) != [] {
          sections := sections + [current];
        }
        current := Section(Strip(part), "");
      } else {
        ScanText(parts, i, sections, current);
        current := current.(content := current.content + part);
      }
      i := i + 1;
    }
    ScanDone(parts, sections, current);
    if Strip(current.content) != [] {
      sections := sections + [current];
    }
    KeptNonBlank(Grouped(parts, IsMarker));
  }

  /** The sections of alternating parts: `''` with the leading text, then each
      stripped marker with the text that follows it. */
  function Paired(parts: seq<string>): (ps: seq<Section>)
    requires |parts| % 2 == 1
    ensures |ps| == (|parts| + 1) / 2
    decreases |parts|
  {
    if |parts| == 1 then [Section("", parts[0])]
    else Paired(parts[..|parts| - 2]) + [Section(Strip(parts[|parts| - 2]), parts[|parts| - 1])]
  }

  lemma {:induction false} PairedAt(parts: seq<string>, j: nat)
    requires |parts| % 2 == 1 && j < (|parts| + 1) / 2
    ensures Paired(parts)[j] == Section(if j == 0 then "" else Strip(parts[2 * j - 1]), parts[2 * j])
    decreases |parts|
  {
    var n := |parts|;
    if n > 1 && j < (n - 1) / 2 {
      var front := parts[..n - 2];
      PairedAt(front, j);
      assert Paired(parts)[j] == Paired(front)[j];
      assert front[2 * j] == parts[2 * j];
      if j > 0 { assert front[2 * j - 1] == parts[2 * j - 1]; }
    }
  }

  lemma {:induction false} GroupedPaired(parts: seq<string>, opens: string -> bool)
    requires Alternates(parts, opens)
    ensures Grouped(parts, opens) == Paired(parts)
    decreases |parts|
  {
    var n := |parts|;
    if n == 1 {
      GroupedSingle(parts[0], opens);
      assert parts == [parts[0]];
    } else {
      var front := parts[..n - 2];
      AlternatesFront(parts, opens);
      GroupedPaired(front, opens);
      GroupedTwoMore(parts, opens);
    }
  }

  lemma AlternatesFront(parts: seq<string>, opens: string -> bool)
    requires Alternates(parts, opens) && |parts| >= 3
    ensures Alternates(parts[..|parts| - 2], opens)
  {
    var front := parts[..|parts| - 2];
    forall i | 0 <= i < |front| ensures front[i] == parts[i] { }
  }

  /** A marker and the text after it add one section to the grouping. */
  lemma GroupedTwoMore(parts: seq<string>, opens: string -> bool)
    requires |parts| >= 2 && opens(parts[|parts| - 2]) && !opens(parts[|parts| - 1])
    ensures Grouped(parts, opens) ==
      Grouped(parts[..|parts| - 2], opens) + [Section(Strip(parts[|parts| - 2]), parts[|parts| - 1])]
  {
    var n := |parts|;
    assert parts[..n - 1][..n - 2] == parts[..n - 2];
    var g := Grouped(parts[..n - 2], opens) + [Section(Strip(parts[n - 2]), "")];
    assert Grouped(parts[..n - 1], opens) == g;
    assert g[..|g| - 1] == Grouped(parts[..n - 2], opens);
    assert "" + parts[n - 1] == parts[n - 1];
  }

  /** `extract_sections(text)`, read off the split: section `j` is `''` with the
      text before the first marker when `j == 0`, otherwise the `j`-th marker,
      stripped, with the text up to the next marker; those with blank content
      are dropped, header included. */
  lemma SectionsArePairs(text: string)
    ensures |Split(text)| % 2 == 1 && Sections(text) == Kept(Paired(Split(text)))
    ensures forall j :: 0 <= j < (|Split(text)| + 1) / 2 ==>
      Paired(Split(text))[j] ==
        Section(if j == 0 then "" else Strip(Split(text)[2 * j - 1]), Split(text)[2 * j])
  {
    SplitAlternates(text);
    GroupedPaired(Split(text), IsMarker);
    forall j | 0 <= j < (|Split(text)| + 1) / 2 {
      PairedAt(Split(text), j);
    }
  }

  lemma {:induction false} SplitWithoutMarkers(s: string, plain: string)
    requires forall j :: 0 <= j < |s| ==> MarkerLen(s[j..]) == 0
    ensures SplitMarkers(s, plain) == [plain + s]
    decreases |s|
  {
    if s == [] {
      assert plain + s == plain;
    } else {
      assert s[0..] == s;
      forall j | 0 <= j < |s| - 1 ensures MarkerLen(s[1..][j..]) == 0 {
        assert s[1..][j..] == s[j + 1..];
      }
      assert (plain + [s[0]]) + s[1..] == plain + s;
      SplitWithoutMarkers(s[1..], plain + [s[0]]);
    }
  }

  lemma GroupedSingle(p: string, opens: string -> bool)
    requires !opens(p)
    ensures Grouped([p], opens) == [Section("", p)]
  {
    assert [p][..0] == [];
    var gs := Grouped([], opens);
    assert gs == [Section("", "")];
    assert "" + p == p;
  }

  /** Text with no marker anywhere is one section headed `''`, or none when blank. */
  lemma SectionsWithoutMarkers(text: string)
    requires forall j :: 0 <= j < |text| ==> MarkerLen(text[j..]) == 0
    ensures Sections(text) == if Strip(text) != [] then [Section("", text)] else []
  {
    SplitWithoutMarkers(text, []);
    assert [] + text == text;
    assert !IsMarker(text) by {
      if text != [] { assert text[0..] == text; }
    }
    GroupedSingle(text, IsMarker);
    KeptSnoc([], Section("", text));
    assert [] + [Section("", text)] == [Section("", text)];
  }

  /** `extract_sections("")` is `[]`. */
  lemma SectionsOfEmpty()
    ensures Sections("") == []
  {
    SectionsWithoutMarkers("");
  }

  // =====================================================================
  // process_bill
  // =====================================================================

  /** What `process_bill` computes from the raw text, embeddings aside. */
  function ProcessedBill(raw: string): Processed {
    var clean := CleanBillText(raw);
    Processed(clean, Sections(clean), Chunks(Words(clean), DefaultChunkSize))
  }

  /** The chunks of the cleaned text, joined by single spaces, are the cleaned
      text itself. */
  lemma ProcessedChunksJoin(raw: string)
    ensures Join(" ", ProcessedBill(raw).chunks) == ProcessedBill(raw).cleanText
  {
    var clean := CleanBillText(raw);
    ChunksJoin(Words(clean), DefaultChunkSize);
    CleanKeepsWords(raw);
  }

  /** `process_bill` without the embeddings: sections and chunks are both
      derived from the same cleaned text. */
  method ProcessBill(raw: string) returns (p: Processed)
    ensures p == ProcessedBill(raw)
    ensures Join(" ", p.chunks) == p.cleanText
  {
    var clean := CleanBillText(raw);
    var sections := ExtractSections(clean);
    var chunks := ChunkText(clean, DefaultChunkSize);
    p := Processed(clean, sections, chunks.value);
    ProcessedChunksJoin(raw);
  }
}
