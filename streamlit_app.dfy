/** The rules of the Streamlit front end: the analysis record that
    `perform_bill_analysis` builds (word count, size category, bill id and its
    error results), the session state the Analyze button resets and fills,
    the placeholder-then-answer protocol of the question history, and the
    congress.gov link shown for a listed bill. */
module StreamlitApp {
  import opened Wrappers
  import opened PyStr
  import opened PyValue
  import TextProcessor
  import AiAnalyzer
  import CongressApi
  import QaSystem
  import GradioApp

  // ---------------------------------------------------------------------
  // The size category
  // ---------------------------------------------------------------------

  datatype SizeCategory = Short | Medium | Long

  function Label(c: SizeCategory): string {
    match c
    case Short => "Short"
    case Medium => "Medium"
    case Long => "Long"
  }

  /** The category of a bill with the given number of words. */
  function SizeOf(wordCount: nat): SizeCategory {
    if wordCount < 5000 then Short
    else if wordCount < 20000 then Medium
    else Long
  }

  function Rank(c: SizeCategory): nat {
    match c
    case Short => 0
    case Medium => 1
    case Long => 2
  }

  /** Each category is one band of word counts. */
  lemma SizeBands(w: nat)
    ensures SizeOf(w) == Short <==> w < 5000
    ensures SizeOf(w) == Medium <==> 5000 <= w < 20000
    ensures SizeOf(w) == Long <==> 20000 <= w
  {
  }

  /** More words never give a smaller category. */
  lemma SizeMonotone(a: nat, b: nat)
    requires a <= b
    ensures Rank(SizeOf(a)) <= Rank(SizeOf(b))
  {
  }

  /** The Gradio front end's five categories refine these three: every
      Gradio band below 5000 words is Short here, and Large and Extra Large
      bills are Medium or Long. */
  lemma CategoriesAgree(w: nat)
    ensures GradioApp.Rank(GradioApp.SizeOf(w)) <= 2 <==> SizeOf(w) == Short
  {
  }

  // ---------------------------------------------------------------------
  // perform_bill_analysis
  // ---------------------------------------------------------------------

  /** The dictionary `perform_bill_analysis` returns: `{"error": ...}`, or
      the ten analysis entries. */
  datatype Analysis =
    | Failure(error: string)
    | Success(billId: string, summary: Option<string>, score: real, confidence: real,
              wordCount: nat, sizeCategory: string, billMetadata: Entries, fullText: string,
              processedSections: seq<TextProcessor.Section>, chunks: seq<string>)

  /** The keys of that dictionary. */
  function AnalysisKeys(a: Analysis): seq<string> {
    if a.Failure? then ["error"]
    else ["bill_id", "summary", "ideology_score", "ideology_confidence", "word_count",
          "size_category", "bill_metadata", "full_text", "processed_sections", "chunks"]
  }

  /** The Analyze button's test `"error" not in analysis_data` tells the two
      shapes apart, and an error result holds no analysis key. */
  lemma ErrorKeyExact(a: Analysis)
    ensures "error" in AnalysisKeys(a) <==> a.Failure?
    ensures a.Failure? ==> AnalysisKeys(a) == ["error"]
  {
    if a.Success? {
      var keys := AnalysisKeys(a);
      assert forall i :: 0 <= i < |keys| ==> keys[i] != "error" by {
        assert keys[0][0] == 'b' && keys[1][0] == 's' && keys[2][0] == 'i' && keys[3][0] == 'i';
        assert keys[4][0] == 'w' && keys[5][0] == 's' && keys[6][0] == 'b' && keys[7][0] == 'f';
        assert keys[8][0] == 'p' && keys[9][0] == 'c';
      }
    }
  }

  const NoMetadata: string := "Failed to retrieve bill metadata. Check URL or API."
  const EmptyText: string := "Failed to retrieve bill text (text is empty)."

  function Unexpected(e: string): string {
    "An unexpected error occurred: " + e
  }

  /** `perform_bill_analysis`, given the outcome of each call it makes: the
      metadata request, the text request for the metadata's `url`, the
      executive summary and the ideology score (an `Err` is the exception
      raised). A record without `url`, or an empty text, is refused with its
      own message; any exception becomes the unexpected-error message. */
  function PerformBillAnalysis(metadata: Result<CongressApi.BillMetadata, string>, fullText: Result<string, string>,
                               summary: Result<Option<string>, string>,
                               ideology: Result<AiAnalyzer.IdeologyAnalysis, string>): (a: Analysis)
    ensures metadata.Err? ==> a == Failure(Unexpected(metadata.error))
    ensures metadata.Ok? && metadata.value.url == [] ==> a == Failure(NoMetadata)
    ensures a.Success? <==> && metadata.Ok? && metadata.value.url != []
                            && fullText.Ok? && fullText.value != [] && summary.Ok? && ideology.Ok?
    ensures a.Success? ==>
      var m := metadata.value;
      && a.billId == GradioApp.BillId(m.congress, m.billType, m.number)
      && a.wordCount == GradioApp.WordCount(fullText.value)
      && a.sizeCategory == Label(SizeOf(a.wordCount))
      && a.billMetadata == CongressApi.MetadataDict(m)
      && a.summary == summary.value
      && a.score == ideology.value.score && a.confidence == ideology.value.confidence
      && a.fullText == fullText.value
      && a.processedSections == TextProcessor.ProcessedBill(fullText.value).sections
      && a.chunks == TextProcessor.ProcessedBill(fullText.value).chunks
  {
    if metadata.Err? then Failure(Unexpected(metadata.error))
    else if metadata.value.url == [] then Failure(NoMetadata)
    else if fullText.Err? then Failure(Unexpected(fullText.error))
    else if fullText.value == [] then Failure(EmptyText)
    else if summary.Err? then Failure(Unexpected(summary.error))
    else if ideology.Err? then Failure(Unexpected(ideology.error))
    else
      var m := metadata.value;
      var p := TextProcessor.ProcessedBill(fullText.value);
      var wc := GradioApp.WordCount(fullText.value);
      Success(GradioApp.BillId(m.congress, m.billType, m.number), summary.value,
              ideology.value.score, ideology.value.confidence, wc, Label(SizeOf(wc)),
              CongressApi.MetadataDict(m), fullText.value, p.sections, p.chunks)
  }

  /** An empty text is refused with its own message once the metadata is in. */
  lemma EmptyTextRefused(metadata: Result<CongressApi.BillMetadata, string>,
                         summary: Result<Option<string>, string>,
                         ideology: Result<AiAnalyzer.IdeologyAnalysis, string>)
    requires metadata.Ok? && metadata.value.url != []
    ensures PerformBillAnalysis(metadata, Ok(""), summary, ideology) == Failure(EmptyText)
  {
  }

  /** Where this analysis succeeds, the Gradio analysis succeeds too and
      reports the same summary, score, confidence and word count. */
  lemma AgreesWithGradio(metadata: Result<CongressApi.BillMetadata, string>, fullText: Result<string, string>,
                         summary: Result<Option<string>, string>,
                         ideology: Result<AiAnalyzer.IdeologyAnalysis, string>)
    requires PerformBillAnalysis(metadata, fullText, summary, ideology).Success?
    ensures var a := PerformBillAnalysis(metadata, fullText, summary, ideology);
      var g := GradioApp.AnalyzeOutcome(metadata, fullText, summary, ideology);
      && g.Five? && g.wordCount == a.wordCount && g.summary == a.summary
      && g.score == a.score && g.confidence == a.confidence
  {
  }

  // ---------------------------------------------------------------------
  // The session
  // ---------------------------------------------------------------------

  /** What the page keeps of a successful analysis. */
  datatype Results = Results(summary: Option<string>, score: real, confidence: real,
                             wordCount: nat, sizeCategory: string)

  const NoAnswer: string := "Sorry, I couldn't find an answer to that."

  function AnswerError(e: string): string {
    "Sorry, an error occurred while trying to get an answer: " + e
  }

  /** The answer that replaces a question's placeholder: the error message
      when the query raises (`raised`), the fallback for an empty answer,
      the store's answer otherwise. */
  function FinalAnswer(answer: string, raised: Option<string>): (r: string)
    ensures r != []
    ensures raised.None? && answer != [] ==> r == answer
  {
    if raised.Some? then AnswerError(raised.value)
    else if answer != [] then answer
    else NoAnswer
  }

  /** The session state the page keeps between reruns, and the Q&A store. */
  class Session {
    var analysisResults: Option<Results>
    var processedSections: seq<TextProcessor.Section>
    var qaHistory: seq<(string, Option<string>)>
    var currentBillIdForQa: Option<string>
    const qa: QaSystem.QASystem

    predicate Valid()
      reads this, qa
    {
      qa.Valid()
    }

    constructor(qa: QaSystem.QASystem)
      requires qa.Valid()
      ensures Valid() && this.qa == qa
      ensures analysisResults.None? && processedSections == [] && qaHistory == [] && currentBillIdForQa.None?
    {
      this.qa := qa;
      analysisResults := None;
      processedSections := [];
      qaHistory := [];
      currentBillIdForQa := None;
    }

    /** The Analyze button. With an empty address nothing changes. Otherwise
        the previous results, sections, history and bill are cleared; a
        successful analysis becomes current and its chunks are stored, while
        the store's bill-level metadata is left alone. */
    method AnalyzeClicked(url: string, metadata: Result<CongressApi.BillMetadata, string>,
                          fullText: Result<string, string>, summary: Result<Option<string>, string>,
                          ideology: Result<AiAnalyzer.IdeologyAnalysis, string>)
      requires Valid()
      modifies this, qa
      ensures Valid()
      ensures qa.billMetadatas == old(qa.billMetadatas)
      ensures url == [] ==>
        && analysisResults == old(analysisResults) && processedSections == old(processedSections)
        && qaHistory == old(qaHistory) && currentBillIdForQa == old(currentBillIdForQa)
        && qa.collection == old(qa.collection)
      ensures url != [] ==> (qaHistory == [] &&
        var a := PerformBillAnalysis(metadata, fullText, summary, ideology);
        if a.Failure? then
          && analysisResults.None? && processedSections == [] && currentBillIdForQa.None?
          && qa.collection == old(qa.collection)
        else
          && analysisResults == Some(Results(a.summary, a.score, a.confidence, a.wordCount, a.sizeCategory))
          && processedSections == a.processedSections
          && currentBillIdForQa == Some(a.billId)
          && qa.collection == old(qa.collection)
               + QaSystem.Added(old(qa.collection),
                                QaSystem.ChunkEntries(a.billId, a.chunks, QaSystem.StoredMetadata(a.billId, a.billMetadata))))
    {
      if url == [] {
        return;
      }
      analysisResults := None;
      processedSections := [];
      qaHistory := [];
      currentBillIdForQa := None;
      var a := PerformBillAnalysis(metadata, fullText, summary, ideology);
      if a.Success? {
        analysisResults := Some(Results(a.summary, a.score, a.confidence, a.wordCount, a.sizeCategory));
        processedSections := a.processedSections;
        currentBillIdForQa := Some(a.billId);
        // The bill id holds its two dashes and the metadata dictionary its
        // nine entries, so the guard before storing always holds.
        qa.StoreBillChunks(a.billId, a.chunks, a.billMetadata);
      }
    }

    /** `qa_system.query_bill(question=..., bill_id=current_bill_id_for_qa)`. */
    method Query(question: string, distance: (string, string) -> real, showScore: real -> string,
                 complete: string -> string) returns (answer: string)
      requires currentBillIdForQa.Some?
      ensures answer == GradioApp.StoreAnswer(currentBillIdForQa.value, qa.collection, qa.billMetadatas, question,
                                              distance, showScore, complete)
    {
      answer := qa.QueryBill(question, currentBillIdForQa.value, GradioApp.QueryK, distance, showScore, complete);
    }

    /** The question box. Without a current bill or with an empty question
        nothing changes. Otherwise one entry is appended with a placeholder,
        and that entry, and no earlier one, is then given its answer. */
    method AskQuestion(question: string, raised: Option<string>, distance: (string, string) -> real,
                       showScore: real -> string, complete: string -> string)
      modifies this
      ensures analysisResults == old(analysisResults) && processedSections == old(processedSections)
      ensures currentBillIdForQa == old(currentBillIdForQa)
      ensures !(GradioApp.Current(currentBillIdForQa) && question != []) ==> qaHistory == old(qaHistory)
      ensures GradioApp.Current(currentBillIdForQa) && question != [] ==>
        qaHistory == old(qaHistory) + [(question, Some(old(Answer(question, raised, distance, showScore, complete))))]
    {
      if GradioApp.Current(currentBillIdForQa) && question != [] {
        Ask(question, raised, distance, showScore, complete);
      }
    }

    /** The answer a question gets for the current bill. */
    function Answer(question: string, raised: Option<string>, distance: (string, string) -> real,
                    showScore: real -> string, complete: string -> string): string
      requires currentBillIdForQa.Some?
      reads this`currentBillIdForQa, qa
    {
      FinalAnswer(GradioApp.StoreAnswer(currentBillIdForQa.value, qa.collection, qa.billMetadatas,
                                        question, distance, showScore, complete), raised)
    }

    /** The text shown for a question: the error message when the question
        raised one, otherwise the answer for the current bill. */
    method Reply(question: string, raised: Option<string>, distance: (string, string) -> real,
                 showScore: real -> string, complete: string -> string) returns (reply: string)
      requires currentBillIdForQa.Some?
      ensures reply == Answer(question, raised, distance, showScore, complete)
    {
      if raised.Some? {
        reply := AnswerError(raised.value);
      } else {
        var answer := Query(question, distance, showScore, complete);
        reply := FinalAnswer(answer, None);
      }
    }

    /** The placeholder, then the answer in its place. */
    method Ask(question: string, raised: Option<string>, distance: (string, string) -> real,
               showScore: real -> string, complete: string -> string)
      requires currentBillIdForQa.Some?
      modifies this
      ensures analysisResults == old(analysisResults) && processedSections == old(processedSections)
      ensures currentBillIdForQa == old(currentBillIdForQa)
      ensures qaHistory == old(qaHistory) + [(question, Some(old(Answer(question, raised, distance, showScore, complete))))]
    {
      // The query reads only the store, so it may run before the placeholder
      // is appended.
      var reply := Reply(question, raised, distance, showScore, complete);
      Record(question, reply);
    }

    /** Appends the question with a placeholder, then puts the reply in the
        placeholder's place. */
    method Record(question: string, reply: string)
      modifies this`qaHistory
      ensures qaHistory == old(qaHistory) + [(question, Some(reply))]
    {
      ReplaceLast(qaHistory, question, reply);
      qaHistory := qaHistory + [(question, None)];
      qaHistory := qaHistory[|qaHistory| - 1 := (question, Some(reply))];
    }
  }

  /** Replacing the last entry of a history that just had a placeholder
      appended is the same as appending the answer: earlier entries stay. */
  lemma {:induction false} ReplaceLast(h: seq<(string, Option<string>)>, q: string, answer: string)
    ensures (h + [(q, None)])[|h| := (q, Some(answer))] == h + [(q, Some(answer))]
    ensures forall i :: 0 <= i < |h| ==> (h + [(q, None)])[|h| := (q, Some(answer))][i] == h[i]
  {
    var r := (h + [(q, None)])[|h| := (q, Some(answer))];
    assert forall i :: 0 <= i < |h| ==> r[i] == h[i];
    assert r[|h|] == (q, Some(answer));
  }

  // ---------------------------------------------------------------------
  // The congress.gov link of a listed bill
  // ---------------------------------------------------------------------

  const LinkLead: string := "https://www.congress.gov/bill/"

  /** The link shown for a bill of a fetched list: none unless the congress,
      the type and the number are all truthy (each defaults to `'N/A'`);
      `.lower()` of a type that is not a string raises `AttributeError`. */
  function Link(bill: Entries): (r: Result<Option<string>, string>)
    ensures r.Err? <==> && Truthy(GetOr(bill, "congress", Str("N/A"))) && Truthy(GetOr(bill, "number", Str("N/A")))
                        && Truthy(GetOr(bill, "type", Str("N/A"))) && !GetOr(bill, "type", Str("N/A")).Str?
  {
    var congress := GetOr(bill, "congress", Str("N/A"));
    var billType := GetOr(bill, "type", Str("N/A"));
    var number := GetOr(bill, "number", Str("N/A"));
    if !(Truthy(congress) && Truthy(billType) && Truthy(number)) then Ok(None)
    else if !billType.Str? then Err("AttributeError")
    else Ok(Some(LinkLead + StrOf(congress) + "th-congress/" + LowerStr(billType.s) + "-bill/" + StrOf(number)))
  }

  lemma LinkLeadParts()
    ensures CongressApi.WebPrefix + CongressApi.UrlLead == LinkLead
    ensures "th" + CongressApi.CongressInfix == "th-congress/"
  {
  }

  lemma {:induction false} Regroup(a: string, b: string, c: string, d: string, e: string, f: string, g: string)
    ensures a + b + (c + d) + (e + (f + g)) == a + b + c + d + e + f + g
  {
  }

  /** The link is the congress.gov web address with the `th` suffix and the
      slug `<type>-bill`. */
  lemma LinkIsAddress(c: string, t: string, n: string)
    ensures LinkLead + c + "th-congress/" + t + "-bill/" + n == CongressApi.CongressGovUrl(c, "th", t + "-bill", n)
  {
    LinkLeadParts();
    assert "-bill/" == "-bill" + "/";
    Regroup(CongressApi.WebPrefix, CongressApi.UrlLead, c, "th", CongressApi.CongressInfix, t, "-bill");
    Regroup(CongressApi.WebPrefix + CongressApi.UrlLead, c, "th", CongressApi.CongressInfix, t, "-bill", "/" + n);
  }

  /** Every API type code ends in `r` or `s`. */
  lemma CodeEnd(code: string)
    requires CongressApi.WebSlug(code).Some?
    ensures code != [] && (code[|code| - 1] == 'r' || code[|code| - 1] == 's') && '/' !in code
  {
  }

  /** A web slug ending in `l` (`house-bill`, `senate-bill`) has an `e` six
      places from its end. */
  lemma WebSlugEnds(s: string)
    requires s in CongressApi.WebSlugs
    ensures |s| >= 6 && (s[|s| - 1] != 'l' || s[|s| - 6] == 'e')
  {
  }

  /** No API type code followed by `-bill` is one of the eight web slugs. */
  lemma CodeSlugUnknown(code: string)
    requires CongressApi.WebSlug(code).Some?
    ensures code + "-bill" !in CongressApi.WebSlugs
    ensures CongressApi.NoSlash(code + "-bill")
  {
    var slug := code + "-bill";
    CodeEnd(code);
    assert slug[|slug| - 1] == 'l' && slug[|slug| - 6] == code[|code| - 1];
    if slug in CongressApi.WebSlugs {
      WebSlugEnds(slug);
      assert false;
    }
    assert forall i :: 0 <= i < |slug| ==> CongressApi.NotSlash(slug[i]) by {
      assert forall i :: |code| <= i < |slug| ==> slug[i] == "-bill"[i - |code|];
    }
  }

  /** A link built for a bill whose type is an API code, in any case, and
      whose congress and number are digit strings, is refused by the web
      address parser: `<type>-bill` is never one of the eight slugs. */
  lemma LinkNotParsed(bill: Entries, congress: string, number: string)
    requires GetOr(bill, "congress", Str("N/A")) == Str(congress) && congress != [] && AllDigits(congress)
    requires GetOr(bill, "number", Str("N/A")) == Str(number) && number != [] && AllDigits(number)
    requires GetOr(bill, "type", Str("N/A")).Str?
    requires CongressApi.WebSlug(LowerStr(GetOr(bill, "type", Str("N/A")).s)).Some?
    ensures Link(bill).Ok? && Link(bill).value.Some?
    ensures var slug := LowerStr(GetOr(bill, "type", Str("N/A")).s) + "-bill";
      CongressApi.ParseCongressUrl(Link(bill).value.value) == Err("ValueError: Unknown bill type: " + slug)
  {
    var t := GetOr(bill, "type", Str("N/A")).s;
    var code := LowerStr(t);
    assert t != [] by {
      assert code != [];
    }
    LinkOf(bill, congress, t, number);
    CodeSlugUnknown(code);
    LinkIsAddress(congress, code, number);
    CongressApi.ParseCongressGovUrlUnknown(congress, "th", code + "-bill", number);
  }

  /** The link of a bill whose three fields are non-empty strings. */
  lemma LinkOf(bill: Entries, c: string, t: string, n: string)
    requires GetOr(bill, "congress", Str("N/A")) == Str(c) && c != []
    requires GetOr(bill, "type", Str("N/A")) == Str(t) && t != []
    requires GetOr(bill, "number", Str("N/A")) == Str(n) && n != []
    ensures Link(bill) == Ok(Some(LinkLead + c + "th-congress/" + LowerStr(t) + "-bill/" + n))
  {
  }

  /** The link as evidently meant: a type that is an API code, in any case,
      is shown by its web slug; any other type keeps the `<type>-bill` slug.
      It fails and is absent exactly where the link as written is. */
  function LinkFixed(bill: Entries): (r: Result<Option<string>, string>)
    ensures r.Err? <==> Link(bill).Err?
    ensures r.Ok? ==> (r.value.Some? <==> Link(bill).value.Some?)
  {
    var congress := GetOr(bill, "congress", Str("N/A"));
    var billType := GetOr(bill, "type", Str("N/A"));
    var number := GetOr(bill, "number", Str("N/A"));
    if !(Truthy(congress) && Truthy(billType) && Truthy(number)) then Ok(None)
    else if !billType.Str? then Err("AttributeError")
    else
      var code := LowerStr(billType.s);
      var slug := if CongressApi.WebSlug(code).Some? then CongressApi.WebSlug(code).value else code + "-bill";
      Ok(Some(LinkLead + StrOf(congress) + "th-congress/" + slug + "/" + StrOf(number)))
  }

  /** The corrected link of a bill whose three fields are non-empty strings
      and whose type is an API code. */
  lemma LinkFixedOf(bill: Entries, c: string, t: string, n: string)
    requires GetOr(bill, "congress", Str("N/A")) == Str(c) && c != []
    requires GetOr(bill, "type", Str("N/A")) == Str(t) && t != []
    requires GetOr(bill, "number", Str("N/A")) == Str(n) && n != []
    requires CongressApi.WebSlug(LowerStr(t)).Some?
    ensures LinkFixed(bill) == Ok(Some(LinkLead + c + "th-congress/" + CongressApi.WebSlug(LowerStr(t)).value + "/" + n))
  {
  }

  /** The corrected link is a congress.gov web address with suffix `th`. */
  lemma LinkFixedIsAddress(c: string, slug: string, n: string)
    ensures LinkLead + c + "th-congress/" + slug + "/" + n == CongressApi.CongressGovUrl(c, "th", slug, n)
  {
    LinkLeadParts();
    Regroup(CongressApi.WebPrefix, CongressApi.UrlLead, c, "th", CongressApi.CongressInfix, slug, "/" + n);
  }

  /** The corrected link of a listed bill whose type is an API code parses
      back to that bill: its congress, its code in lower case, its number. */
  lemma LinkFixedParsed(bill: Entries, congress: string, number: string)
    requires GetOr(bill, "congress", Str("N/A")) == Str(congress) && congress != [] && AllDigits(congress)
    requires GetOr(bill, "number", Str("N/A")) == Str(number) && number != [] && AllDigits(number)
    requires GetOr(bill, "type", Str("N/A")).Str?
    requires CongressApi.WebSlug(LowerStr(GetOr(bill, "type", Str("N/A")).s)).Some?
    ensures LinkFixed(bill).Ok? && LinkFixed(bill).value.Some?
    ensures var code := LowerStr(GetOr(bill, "type", Str("N/A")).s);
      CongressApi.ParseCongressUrl(LinkFixed(bill).value.value) == Ok(CongressApi.BillInfo(congress, code, number))
  {
    var t := GetOr(bill, "type", Str("N/A")).s;
    var code := LowerStr(t);
    assert t != [] by {
      assert code != [];
    }
    var slug := CongressApi.WebSlug(code).value;
    LinkFixedOf(bill, congress, t, number);
    LinkFixedIsAddress(congress, slug, number);
    CongressApi.WebSlugInverse(code);
    assert slug in CongressApi.WebSlugs;
    CongressApi.ParseCongressGovUrl(congress, "th", slug, number);
  }
}
