/** The handling of completion-model text in `AIAnalyzer`: the truncation of
    bill text and section content before submission, the per-section
    breakdown capped at ten sections, and the layered parsing of the
    structured ideology reply into an `IdeologyAnalysis`. The completion model
    is a parameter (`complete` maps a prompt to the reply's content, `None`
    when the reply carries no content). */
module AiAnalyzer {
  import opened Wrappers
  import opened PyStr
  import opened PyValue
  import TextProcessor

  // ---------------------------------------------------------------------
  // Truncation
  // ---------------------------------------------------------------------

  const BillTextLimit: nat := 30000
  const BillTextNotice: string := "\n\n[Bill text truncated due to length...]\n\n"
  const SectionLimit: nat := 12000
  const SectionNotice: string := "\n\n[Section content truncated due to length...]\n\n"

  /** Text longer than `limit` characters is cut to its first `limit`
      characters and followed by `notice`. */
  function Truncate(text: string, limit: nat, notice: string): string {
    if |text| > limit then text[..limit] + notice else text
  }

  /** Text within the limit passes unchanged; longer text keeps exactly its
      first `limit` characters, then the notice. */
  lemma TruncateShape(text: string, limit: nat, notice: string)
    ensures |text| <= limit ==> Truncate(text, limit, notice) == text
    ensures |text| > limit ==>
      && |Truncate(text, limit, notice)| == limit + |notice|
      && Truncate(text, limit, notice)[..limit] == text[..limit]
      && Truncate(text, limit, notice)[limit..] == notice
  {
  }

  /** Truncating twice gives what truncating once gives (a non-empty notice
      keeps the result over the limit, and its first `limit` characters are
      the same). */
  lemma TruncateIdempotent(text: string, limit: nat, notice: string)
    requires notice != []
    ensures Truncate(Truncate(text, limit, notice), limit, notice) == Truncate(text, limit, notice)
  {
    if |text| > limit {
      var t := text[..limit] + notice;
      assert t[..limit] == text[..limit];
    }
  }

  // ---------------------------------------------------------------------
  // Prompts
  // ---------------------------------------------------------------------

  /** A prompt, represented by the values interpolated into its fixed
      template: the completion model receives one of these. */
  datatype Prompt =
    | SummaryPrompt(title: string, sponsor: string, introduced: string, billText: string)
    | SectionPrompt(header: string, content: string)
    | IdeologyPrompt(billText: string)

  /** `metadata[key]`, which raises `KeyError` for a missing key. */
  function Field(metadata: Entries, key: string): Result<string, string> {
    match Get(metadata, key)
    case Some(v) => Ok(StrOf(v))
    case None => Err("KeyError: " + ReprStr(key))
  }

  /** `generate_executive_summary`: the completion of the summary prompt over
      the truncated text; a missing title, sponsor or introduction date raises
      before any completion is requested. */
  function ExecutiveSummary(billText: string, metadata: Entries, complete: Prompt -> Option<string>): (r: Result<Option<string>, string>)
    ensures r.Ok? <==> Get(metadata, "title").Some? && Get(metadata, "sponsor").Some?
                        && Get(metadata, "introduced_date").Some?
  {
    var text := Truncate(billText, BillTextLimit, BillTextNotice);
    match (Field(metadata, "title"), Field(metadata, "sponsor"), Field(metadata, "introduced_date"))
    case (Ok(title), Ok(sponsor), Ok(introduced)) =>
      Ok(complete(SummaryPrompt(title, sponsor, introduced, text)))
    case (Err(e), _, _) => Err(e)
    case (_, Err(e), _) => Err(e)
    case (_, _, Err(e)) => Err(e)
  }

  // ---------------------------------------------------------------------
  // Section breakdown
  // ---------------------------------------------------------------------

  const SectionCap: nat := 10

  /** One entry of the breakdown: a header and its analysis text (the
      completion's content, `None` when it has none). */
  datatype SectionAnalysis = SectionAnalysis(header: string, analysis: Option<string>)

  /** The analysis of one section: its header, and the completion of the
      prompt over its truncated content. */
  function Analysed(s: TextProcessor.Section, complete: Prompt -> Option<string>): SectionAnalysis {
    SectionAnalysis(s.header, complete(SectionPrompt(s.header, Truncate(s.content, SectionLimit, SectionNotice))))
  }

  function AnalysedAll(ss: seq<TextProcessor.Section>, complete: Prompt -> Option<string>): seq<SectionAnalysis> {
    seq(|ss|, i requires 0 <= i < |ss| => Analysed(ss[i], complete))
  }

  /** The note appended when sections were left out. */
  function LimitNote(n: nat): SectionAnalysis {
    SectionAnalysis("Note", Some("Analysis limited to first 10 of " + NatToString(n) + " sections to avoid rate limits."))
  }

  /** The breakdown `generate_section_breakdown` returns. */
  function Breakdown(sections: seq<TextProcessor.Section>, complete: Prompt -> Option<string>): seq<SectionAnalysis> {
    var analysed := if |sections| > SectionCap then sections[..SectionCap] else sections;
    AnalysedAll(analysed, complete) + (if |sections| > SectionCap then [LimitNote(|sections|)] else [])
  }

  /** The breakdown holds the first `min(n, 10)` sections, in order and under
      their own headers, then one trailing note exactly when `n > 10`, naming
      both 10 and `n`. */
  lemma BreakdownShape(sections: seq<TextProcessor.Section>, complete: Prompt -> Option<string>)
    ensures var r := Breakdown(sections, complete);
      var m := if |sections| > SectionCap then SectionCap else |sections|;
      && |r| == m + (if |sections| > SectionCap then 1 else 0)
      && (forall i :: 0 <= i < m ==> r[i] == Analysed(sections[i], complete) && r[i].header == sections[i].header)
      && (|sections| > SectionCap ==> r[m] == LimitNote(|sections|))
  {
  }

  /** `generate_section_breakdown`. */
  method GenerateSectionBreakdown(sections: seq<TextProcessor.Section>, complete: Prompt -> Option<string>)
    returns (analysis: seq<SectionAnalysis>)
    ensures analysis == Breakdown(sections, complete)
  {
    analysis := [];
    var toAnalyze := if |sections| > SectionCap then sections[..SectionCap] else sections;
    for i := 0 to |toAnalyze|
      invariant analysis == AnalysedAll(toAnalyze[..i], complete)
    {
      var section := toAnalyze[i];
      var content := section.content;
      if |content| > SectionLimit {
        content := content[..SectionLimit] + SectionNotice;
      }
      var prompt := SectionPrompt(section.header, content);
      analysis := analysis + [SectionAnalysis(section.header, complete(prompt))];
    }
    assert toAnalyze[..|toAnalyze|] == toAnalyze;
    if |sections| > SectionCap {
      analysis := analysis + [LimitNote(|sections|)];
    }
  }

  // ---------------------------------------------------------------------
  // Regular-expression searches over the reply
  // ---------------------------------------------------------------------

  /** Whether a case-insensitive literal `lead` followed by what `tail`
      accepts matches at the start of `s`, and what it captures. */
  function MatchAt<T>(s: string, lead: string, tail: string -> Option<T>): Option<T> {
    if CiStartsWith(s, lead) then tail(s[|lead|..]) else None
  }

  /** `re.search(lead + tail, s, re.IGNORECASE)`: the capture of the leftmost
      start at which the pattern matches. */
  function Search<T>(s: string, lead: string, tail: string -> Option<T>): Option<T>
    decreases |s|
  {
    if MatchAt(s, lead, tail).Some? then MatchAt(s, lead, tail)
    else if s == [] then None
    else Search(s[1..], lead, tail)
  }

  /** The search reports the match at the leftmost matching start. */
  lemma {:induction false} SearchLeftmost<T>(s: string, lead: string, tail: string -> Option<T>, p: nat)
    requires p <= |s| && MatchAt(s[p..], lead, tail).Some?
    requires forall q :: 0 <= q < p ==> MatchAt(s[q..], lead, tail).None?
    ensures Search(s, lead, tail) == MatchAt(s[p..], lead, tail)
  {
    if p > 0 {
      assert MatchAt(s[0..], lead, tail).None?;
      assert s[0..] == s;
      forall q | 0 <= q < p - 1 ensures MatchAt(s[1..][q..], lead, tail).None? {
        assert s[1..][q..] == s[q + 1..];
      }
      assert s[1..][p - 1..] == s[p..];
      SearchLeftmost(s[1..], lead, tail, p - 1);
    }
  }

  /** A search that finds nothing has no match at any start. */
  lemma {:induction false} SearchNone<T>(s: string, lead: string, tail: string -> Option<T>, p: nat)
    requires Search(s, lead, tail).None? && p <= |s|
    ensures MatchAt(s[p..], lead, tail).None?
  {
    if p > 0 {
      assert s[1..][p - 1..] == s[p..];
      SearchNone(s[1..], lead, tail, p - 1);
    }
  }

  /** Two literals that are equal under case folding. */
  predicate SameFolded(l1: string, l2: string) {
    |l1| == |l2| && forall i :: 0 <= i < |l1| ==> Lower(l1[i]) == Lower(l2[i])
  }

  /** Labels equal under case folding search alike: the second spelling of
      each label is only ever tried after the first has failed, and then it
      fails too. */
  lemma {:induction false} SearchFoldedLabels<T>(s: string, l1: string, l2: string, tail: string -> Option<T>)
    requires SameFolded(l1, l2)
    ensures Search(s, l1, tail) == Search(s, l2, tail)
    decreases |s|
  {
    assert CiStartsWith(s, l1) == CiStartsWith(s, l2);
    if s != [] {
      SearchFoldedLabels(s[1..], l1, l2, tail);
    }
  }

  /** Where a label matches, a folded copy of its part from `k` on matches
      `k` characters later. */
  lemma CiStartsWithInner(s: string, l: string, k: nat, l2: string)
    requires CiStartsWith(s, l) && k <= |l| && SameFolded(l[k..], l2)
    ensures CiStartsWith(s[k..], l2)
  {
    forall i | 0 <= i < |l2| ensures Lower(s[k..][i]) == Lower(l2[i]) {
      assert s[k..][i] == s[k + i] && l[k..][i] == l[k + i];
    }
  }

  // ---------------------------------------------------------------------
  // Numbers: `\s*([+-]?\d+(?:\.\d+)?)` and `\s*(\d+(?:\.\d+)?)`
  // ---------------------------------------------------------------------

  /** A matched decimal numeral: its sign, its integer digits and its
      fraction digits (empty when it has no fraction). */
  datatype Numeral = Numeral(negative: bool, whole: string, fraction: string)

  predicate IsSign(c: char) {
    c == '+' || c == '-'
  }

  /** A numeral the pattern can capture: at least one integer digit, and
      digits only. */
  predicate WellFormed(n: Numeral) {
    n.whole != [] && AllDigits(n.whole) && AllDigits(n.fraction)
  }

  /** The fraction digits `(?:\.\d+)?` takes at the start of `rest`: a point
      counts only when a digit follows it. */
  function Fraction(rest: string): (f: string)
    ensures AllDigits(f)
  {
    if |rest| >= 2 && rest[0] == '.' && IsDigit(rest[1]) then LeadingDigits(rest[1..]) else []
  }

  /** What the number pattern captures at the start of `t` (after the label).
      The whitespace run is taken whole: a shorter run would leave a
      whitespace character where a sign or digit must be. A sign counts only
      when a digit follows it. */
  function NumeralAt(t: string, signed: bool): (r: Option<Numeral>)
    ensures r.Some? ==> WellFormed(r.value)
    ensures r.Some? && !signed ==> !r.value.negative
  {
    var u := t[SpaceCount(t)..];
    var signLen := if signed && |u| >= 2 && IsSign(u[0]) && IsDigit(u[1]) then 1 else 0;
    var v := u[signLen..];
    var w := LeadingDigits(v);
    if w == [] then None
    else Some(Numeral(signLen == 1 && u[0] == '-', w, Fraction(v[|w|..])))
  }

  /** `\s*([+-]?\d+(?:\.\d+)?)` */
  function SignedNumeral(t: string): Option<Numeral> {
    NumeralAt(t, true)
  }

  /** `\s*(\d+(?:\.\d+)?)` */
  function UnsignedNumeral(t: string): Option<Numeral> {
    NumeralAt(t, false)
  }

  /** The number after the leftmost match of a label. */
  function FindNumeral(content: string, lead: string, signed: bool): (r: Option<Numeral>)
    ensures r.Some? ==> WellFormed(r.value)
    ensures r.Some? && !signed ==> !r.value.negative
  {
    var tail := if signed then SignedNumeral else UnsignedNumeral;
    var r := Search(content, lead, tail);
    if r.None? then r
    else
      var p := LeftmostStart(content, lead, tail);
      assert r == NumeralAt(content[p..][|lead|..], signed);
      r
  }

  function Pow10(n: nat): (p: nat)
    ensures p >= 1
  {
    if n == 0 then 1 else 10 * Pow10(n - 1)
  }

  /** The exact value `float()` approximates. */
  function NumeralValue(n: Numeral): (x: real)
    requires WellFormed(n)
    ensures !n.negative ==> x >= 0.0
  {
    var magnitude := DigitsValue(n.whole) as real + DigitsValue(n.fraction) as real / Pow10(|n.fraction|) as real;
    if n.negative then -magnitude else magnitude
  }

  const ScoreLabel: string := "OVERALL SCORE:"
  const ScoreLabelAlt: string := "Overall score:"
  const ScoreLabelShort: string := "Score:"
  const ConfidenceLabel: string := "CONFIDENCE LEVEL:"
  const ConfidenceLabelAlt: string := "Confidence level:"
  const ConfidenceLabelShort: string := "Confidence:"

  const DefaultScore: real := 0.0
  const DefaultConfidence: real := 50.0

  /** The first of the three score searches that matches, as a value; 0 when
      none does. */
  function ParseScore(content: string): real {
    var m1 := FindNumeral(content, ScoreLabel, true);
    var m2 := if m1.Some? then m1 else FindNumeral(content, ScoreLabelAlt, true);
    var m := if m2.Some? then m2 else FindNumeral(content, ScoreLabelShort, true);
    if m.Some? then NumeralValue(m.value) else DefaultScore
  }

  /** The first of the three confidence searches that matches, as a value; 50
      when none does. The pattern takes no sign, so the confidence is never
      negative; nothing bounds it by 100. */
  function ParseConfidence(content: string): (x: real)
    ensures x >= 0.0
  {
    var m1 := FindNumeral(content, ConfidenceLabel, false);
    var m2 := if m1.Some? then m1 else FindNumeral(content, ConfidenceLabelAlt, false);
    var m := if m2.Some? then m2 else FindNumeral(content, ConfidenceLabelShort, false);
    if m.Some? then NumeralValue(m.value) else DefaultConfidence
  }

  /** The label spellings, compared under case folding. */
  lemma ScoreSpellings()
    ensures SameFolded(ScoreLabel, ScoreLabelAlt)
  {
  }

  lemma ConfidenceSpellings()
    ensures SameFolded(ConfidenceLabel, ConfidenceLabelAlt)
  {
  }

  lemma ShortScoreSpelling()
    ensures SameFolded(ScoreLabel[8..], ScoreLabelShort)
  {
  }

  /** The second spelling of each label can never decide the result: under
      case folding it is the first. So the score is the number after the
      leftmost `OVERALL SCORE:`, else after the leftmost `Score:`, else 0, and
      likewise for the confidence. */
  lemma AltLabelsRedundant(content: string)
    ensures FindNumeral(content, ScoreLabel, true) == FindNumeral(content, ScoreLabelAlt, true)
    ensures FindNumeral(content, ConfidenceLabel, false) == FindNumeral(content, ConfidenceLabelAlt, false)
  {
    ScoreSpellings();
    ConfidenceSpellings();
    SearchFoldedLabels(content, ScoreLabel, ScoreLabelAlt, SignedNumeral);
    SearchFoldedLabels(content, ConfidenceLabel, ConfidenceLabelAlt, UnsignedNumeral);
  }

  lemma MatchInside(s: string)
    requires MatchAt(s, ScoreLabel, SignedNumeral).Some?
    ensures MatchAt(s[8..], ScoreLabelShort, SignedNumeral).Some?
  {
    ShortScoreSpelling();
    CiStartsWithInner(s, ScoreLabel, 8, ScoreLabelShort);
    assert s[8..][|ScoreLabelShort|..] == s[|ScoreLabel|..];
  }

  /** `Score:` occurs inside every `OVERALL SCORE:`, with the same text after
      it: whenever the first score search matches, so does the last one, so
      the default score is used exactly when the `Score:` search finds
      nothing. */
  lemma ShortScoreLabelCovers(content: string)
    requires FindNumeral(content, ScoreLabel, true).Some?
    ensures FindNumeral(content, ScoreLabelShort, true).Some?
  {
    var p := LeftmostStart(content, ScoreLabel, SignedNumeral);
    MatchInside(content[p..]);
    assert content[p + 8..] == content[p..][8..];
    if Search(content, ScoreLabelShort, SignedNumeral).None? {
      SearchNone(content, ScoreLabelShort, SignedNumeral, p + 8);
    }
  }

  /** The start at which a successful search matched. */
  function LeftmostStart<T>(s: string, lead: string, tail: string -> Option<T>): (p: nat)
    requires Search(s, lead, tail).Some?
    ensures p <= |s| && MatchAt(s[p..], lead, tail) == Search(s, lead, tail)
    decreases |s|
  {
    if MatchAt(s, lead, tail).Some? then (assert s[0..] == s; 0)
    else
      var p := LeftmostStart(s[1..], lead, tail);
      assert s[1..][p..] == s[p + 1..];
      p + 1
  }

  // ---------------------------------------------------------------------
  // Reasoning: `\s*(.+?)(?:\n\n|\nCONFIDENCE|\nKEY PHRASES|$)`, DOTALL
  // ---------------------------------------------------------------------

  /** The number of characters the lazy group `.+?` takes from `u`: the least
      `e >= 1` at which `stop` accepts the rest. */
  function LazyLen(u: string, stop: string -> bool): (e: nat)
    requires u != [] && stop([])
    ensures 1 <= e <= |u| && stop(u[e..])
    decreases |u|
  {
    if stop(u[1..]) then 1
    else
      var e := LazyLen(u[1..], stop);
      assert u[1..][e..] == u[1 + e..];
      1 + e
  }

  /** The lazy group stops at the first place `stop` accepts. */
  lemma {:induction false} LazyLenLeast(u: string, stop: string -> bool, e': nat)
    requires u != [] && stop([])
    requires 1 <= e' < LazyLen(u, stop)
    ensures !stop(u[e'..])
    decreases |u|
  {
    if e' > 1 {
      assert u[1..][e' - 1..] == u[e'..];
      LazyLenLeast(u[1..], stop, e' - 1);
    }
  }

  /** What `\s*(.+?)` followed by a terminator captures at the start of `t`.
      The whitespace run is taken whole when a character follows it, and the
      lazy group then always ends at the latest at the end of the text; when
      only whitespace remains the run gives its last character back to the
      group, which then ends at the end. */
  function GroupAt(t: string, stop: string -> bool): Option<string>
    requires stop([])
  {
    var w := SpaceCount(t);
    if w < |t| then Some(t[w..w + LazyLen(t[w..], stop)])
    else if w > 0 then Some(t[w - 1..])
    else None
  }

  /** `$` without MULTILINE: the end, or just before a final newline. */
  predicate AtEnd(x: string) {
    x == [] || x == "\n"
  }

  predicate ReasoningStop(x: string) {
    AtEnd(x) || StartsWith(x, "\n\n") || CiStartsWith(x, "\nCONFIDENCE") || CiStartsWith(x, "\nKEY PHRASES")
  }

  function ReasoningGroup(t: string): Option<string> {
    GroupAt(t, ReasoningStop)
  }

  const ReasoningLabel: string := "DETAILED REASONING:"
  const ReasoningLabelAlt: string := "Detailed reasoning:"
  const DefaultReasoning: string := "No detailed reasoning provided."

  /** The stripped group after the first matching reasoning label, or the
      default text. */
  function ParseReasoning(content: string): string {
    var m1 := Search(content, ReasoningLabel, ReasoningGroup);
    var m := if m1.Some? then m1 else Search(content, ReasoningLabelAlt, ReasoningGroup);
    if m.Some? then Strip(m.value) else DefaultReasoning
  }

  /** No blank line (`\n\n`) inside. */
  predicate NoBlankLine(s: string) {
    forall i :: 0 <= i < |s| - 1 ==> !(s[i] == '\n' && s[i + 1] == '\n')
  }

  /** The group ends before the first blank line after its first character,
      and its first character is not whitespace when the text goes on. */
  lemma ReasoningGroupNoBlankLine(t: string)
    requires ReasoningGroup(t).Some?
    ensures NoBlankLine(ReasoningGroup(t).value)
  {
    var w := SpaceCount(t);
    var g := ReasoningGroup(t).value;
    if w < |t| {
      var u := t[w..];
      var e := LazyLen(u, ReasoningStop);
      assert g == u[..e];
      forall i | 0 <= i < |g| - 1 ensures !(g[i] == '\n' && g[i + 1] == '\n') {
        if i > 0 {
          LazyLenLeast(u, ReasoningStop, i);
          NoBlankLineAt(u, i);
        }
      }
    }
  }

  /** Where the group does not stop, no blank line begins. */
  lemma NoBlankLineAt(u: string, i: nat)
    requires i + 2 <= |u| && !ReasoningStop(u[i..])
    ensures !(u[i] == '\n' && u[i + 1] == '\n')
  {
    assert u[i..][..2] == [u[i], u[i + 1]];
  }

  /** A piece of a text without blank lines has none either. */
  lemma NoBlankLineSlice(s: string, a: nat, b: nat)
    requires NoBlankLine(s) && a <= b <= |s|
    ensures NoBlankLine(s[a..b])
  {
    forall i | 0 <= i < b - a - 1 ensures !(s[a..b][i] == '\n' && s[a..b][i + 1] == '\n') {
      assert s[a..b][i] == s[a + i] && s[a..b][i + 1] == s[a + i + 1];
    }
  }

  /** Stripping keeps a text free of blank lines and leaves no whitespace at
      either end. */
  lemma StripNoBlankLine(g: string)
    requires NoBlankLine(g)
    ensures var r := Strip(g);
      NoBlankLine(r) && (r == [] || (!IsSpace(r[0]) && !IsSpace(r[|r| - 1])))
  {
    var l := LStripBy(g, IsSpace);
    LStripByShape(g, IsSpace);
    RStripByShape(l, IsSpace);
    var r := RStripBy(l, IsSpace);
    assert g[|g| - |l|..|g|] == l;
    NoBlankLineSlice(g, |g| - |l|, |g|);
    NoBlankLineSlice(l, 0, |r|);
  }

  /** Whatever a reasoning label search captures has no blank line. */
  lemma ReasoningMatchNoBlankLine(content: string, lead: string)
    requires Search(content, lead, ReasoningGroup).Some?
    ensures NoBlankLine(Search(content, lead, ReasoningGroup).value)
  {
    var p := LeftmostStart(content, lead, ReasoningGroup);
    ReasoningGroupNoBlankLine(content[p..][|lead|..]);
  }

  /** The reasoning is the default text, or it has no surrounding whitespace
      and contains no blank line: it ends before the first one. */
  lemma ReasoningShape(content: string)
    ensures var r := ParseReasoning(content);
      r == DefaultReasoning
      || (NoBlankLine(r) && (r == [] || (!IsSpace(r[0]) && !IsSpace(r[|r| - 1]))))
  {
    var m1 := Search(content, ReasoningLabel, ReasoningGroup);
    if m1.Some? {
      ReasoningMatchNoBlankLine(content, ReasoningLabel);
      StripNoBlankLine(m1.value);
    } else if Search(content, ReasoningLabelAlt, ReasoningGroup).Some? {
      ReasoningMatchNoBlankLine(content, ReasoningLabelAlt);
      StripNoBlankLine(Search(content, ReasoningLabelAlt, ReasoningGroup).value);
    }
  }

  // ---------------------------------------------------------------------
  // Key phrases
  // ---------------------------------------------------------------------

  predicate NotQuote(c: char) {
    c != '"'
  }

  /** `re.findall(r'"([^"]+)"', s)`: the non-empty runs between a pair of
      double quotes, scanning left to right without overlap. */
  function QuotedRuns(s: string): seq<string>
    decreases |s|
  {
    if s == [] then []
    else if s[0] == '"' then
      var n := RunLen(s[1..], NotQuote);
      if 0 < n < |s| - 1 then [s[1..1 + n]] + QuotedRuns(s[2 + n..])
      else QuotedRuns(s[1..])
    else QuotedRuns(s[1..])
  }

  /** Every quoted run is non-empty and holds no double quote. */
  lemma {:induction false} QuotedRunsShape(s: string)
    ensures forall r :: r in QuotedRuns(s) ==> r != [] && forall i :: 0 <= i < |r| ==> NotQuote(r[i])
    decreases |s|
  {
    if s != [] {
      if s[0] == '"' {
        var n := RunLen(s[1..], NotQuote);
        RunLenKeeps(s[1..], NotQuote);
        if 0 < n < |s| - 1 {
          QuotedRunsShape(s[2 + n..]);
          assert s[1..1 + n] == s[1..][..n];
        } else {
          QuotedRunsShape(s[1..]);
        }
      } else {
        QuotedRunsShape(s[1..]);
      }
    }
  }

  /** The class `[\\^]`: a backslash or a caret. */
  predicate IsCaret(c: char) {
    c == '\\' || c == '^'
  }

  /** `re.findall(r'([\\^]+)', s)`: the maximal runs of backslashes and carets. */
  function CaretRuns(s: string): seq<string>
    decreases |s|
  {
    if s == [] then []
    else
      var n := RunLen(s, IsCaret);
      if n > 0 then [s[..n]] + CaretRuns(s[n..]) else CaretRuns(s[1..])
  }

  /** Every caret run is a non-empty run of backslashes and carets. */
  lemma {:induction false} CaretRunsShape(s: string)
    ensures forall r :: r in CaretRuns(s) ==> r != [] && forall i :: 0 <= i < |r| ==> IsCaret(r[i])
    decreases |s|
  {
    if s != [] {
      var n := RunLen(s, IsCaret);
      RunLenKeeps(s, IsCaret);
      if n > 0 {
        CaretRunsShape(s[n..]);
      } else {
        CaretRunsShape(s[1..]);
      }
    }
  }

  predicate PhrasesStop(x: string) {
    AtEnd(x) || StartsWith(x, "\n\n")
  }

  function PhrasesGroup(t: string): Option<string> {
    GroupAt(t, PhrasesStop)
  }

  const KeyPhrasesLabel: string := "KEY PHRASES:"

  /** The class `[,\n•\*-]` the phrase list is split on. */
  predicate IsPhraseSep(c: char) {
    c == ',' || c == '\n' || c == '•' || c == '*' || c == '-'
  }

  /** The characters `strip(' "\'-•*')` removes. */
  predicate IsPhraseTrim(c: char) {
    c == ' ' || c == '"' || c == '\'' || c == '-' || c == '•' || c == '*'
  }

  /** The pieces that are not blank, each with the trimmed characters removed
      from both ends. */
  function Phrases(pieces: seq<string>): seq<string> {
    if pieces == [] then []
    else (if Strip(pieces[0]) != [] then [StripBy(pieces[0], IsPhraseTrim)] else []) + Phrases(pieces[1..])
  }

  /** The phrases listed after the first `KEY PHRASES:` label. */
  function LabelledPhrases(content: string): seq<string> {
    match Search(content, KeyPhrasesLabel, PhrasesGroup)
    case Some(g) => Phrases(SplitWhere(g, IsPhraseSep))
    case None => []
  }

  /** A listed phrase holds no separator and neither starts nor ends with a
      trimmed character. */
  predicate TrimmedPhrase(p: string) {
    (forall i :: 0 <= i < |p| ==> !IsPhraseSep(p[i]))
    && (p == [] || (!IsPhraseTrim(p[0]) && !IsPhraseTrim(p[|p| - 1])))
  }

  lemma TrimmedPiece(piece: string)
    requires forall i :: 0 <= i < |piece| ==> !IsPhraseSep(piece[i])
    ensures TrimmedPhrase(StripBy(piece, IsPhraseTrim))
  {
    var l := LStripBy(piece, IsPhraseTrim);
    LStripByShape(piece, IsPhraseTrim);
    RStripByShape(l, IsPhraseTrim);
    var r := RStripBy(l, IsPhraseTrim);
    forall i | 0 <= i < |r| ensures !IsPhraseSep(r[i]) {
      assert r[i] == l[i] == piece[|piece| - |l| + i];
    }
  }

  lemma {:induction false} PhrasesTrimmed(pieces: seq<string>)
    requires forall j, i :: 0 <= j < |pieces| && 0 <= i < |pieces[j]| ==> !IsPhraseSep(pieces[j][i])
    ensures forall p :: p in Phrases(pieces) ==> TrimmedPhrase(p)
  {
    if pieces != [] {
      TrimmedPiece(pieces[0]);
      PhrasesTrimmed(pieces[1..]);
      assert forall j :: 1 <= j < |pieces| ==> pieces[1..][j - 1] == pieces[j];
    }
  }

  /** Every phrase taken from the `KEY PHRASES:` line is trimmed. */
  lemma LabelledPhrasesTrimmed(content: string)
    ensures forall p :: p in LabelledPhrases(content) ==> TrimmedPhrase(p)
  {
    match Search(content, KeyPhrasesLabel, PhrasesGroup)
    case Some(g) => PhrasesTrimmed(SplitWhere(g, IsPhraseSep));
    case None =>
  }

  const NoPhrases: string := "No key phrases identified"

  /** The first non-empty result of the three extractions, else the fixed
      placeholder; never empty. */
  function KeyPhrases(content: string): (r: seq<string>)
    ensures r != []
  {
    var quoted := QuotedRuns(content);
    if quoted != [] then quoted
    else
      var carets := CaretRuns(content);
      if carets != [] then carets
      else
        var listed := LabelledPhrases(content);
        if listed != [] then listed else [NoPhrases]
  }

  // ---------------------------------------------------------------------
  // The analysis
  // ---------------------------------------------------------------------

  datatype IdeologyAnalysis = IdeologyAnalysis(score: real, reasoning: string, confidence: real, keyPhrases: seq<string>)

  /** The analysis of the exception path. */
  const ErrorAnalysis: IdeologyAnalysis := IdeologyAnalysis(
    0.0,
    "Error parsing ideology analysis. The bill's content may be too complex or the analysis format was unexpected.",
    50.0,
    ["Error in analysis"])

  /** The parse of a reply. A reply without content makes the first search
      raise, which yields the exception path's analysis. */
  function ParseReply(content: Option<string>): (a: IdeologyAnalysis)
    ensures a.keyPhrases != [] && a.confidence >= 0.0
    ensures content.None? ==> a == ErrorAnalysis
  {
    match content
    case None => ErrorAnalysis
    case Some(c) => IdeologyAnalysis(ParseScore(c), ParseReasoning(c), ParseConfidence(c), KeyPhrases(c))
  }

  /** `score_political_ideology`: the parse of the completion of the ideology
      prompt over the truncated text. */
  function ScorePoliticalIdeology(billText: string, complete: Prompt -> Option<string>): (a: IdeologyAnalysis)
    ensures a.keyPhrases != [] && a.confidence >= 0.0
  {
    ParseReply(complete(IdeologyPrompt(Truncate(billText, BillTextLimit, BillTextNotice))))
  }
}
