/** The rules of the Gradio front end: the size category and the bill id that
    `analyze_bill` computes, the state it keeps between events (the current
    bill, its metadata and its sections), the chat-history protocol of the
    question handlers and the error paths of the two analysis buttons. */
module GradioApp {
  import opened Wrappers
  import opened PyStr
  import opened PyValue
  import TextProcessor
  import AiAnalyzer
  import CongressApi
  import QaSystem

  // ---------------------------------------------------------------------
  // The size category
  // ---------------------------------------------------------------------

  datatype SizeCategory = Small | MediumSmall | Medium | Large | ExtraLarge

  /** The text shown for a category. */
  function Label(c: SizeCategory): string {
    match c
    case Small => "Small"
    case MediumSmall => "Medium-Small"
    case Medium => "Medium"
    case Large => "Large"
    case ExtraLarge => "Extra Large"
  }

  /** The category of a bill with the given number of words. */
  function SizeOf(wordCount: nat): SizeCategory {
    if wordCount < 500 then Small
    else if wordCount < 1100 then MediumSmall
    else if wordCount < 5000 then Medium
    else if wordCount < 25000 then Large
    else ExtraLarge
  }

  /** The position of a category, from the smallest up. */
  function Rank(c: SizeCategory): nat {
    match c
    case Small => 0
    case MediumSmall => 1
    case Medium => 2
    case Large => 3
    case ExtraLarge => 4
  }

  /** The lower bounds of the four larger categories. */
  const Bounds: seq<nat> := [500, 1100, 5000, 25000]

  /** How many of the bounds a word count has reached. */
  function Reached(bounds: seq<nat>, w: nat): nat {
    if bounds == [] then 0 else (if bounds[0] <= w then 1 else 0) + Reached(bounds[1..], w)
  }

  /** Each category is one band of word counts. */
  lemma SizeBands(w: nat)
    ensures SizeOf(w) == Small <==> w < 500
    ensures SizeOf(w) == MediumSmall <==> 500 <= w < 1100
    ensures SizeOf(w) == Medium <==> 1100 <= w < 5000
    ensures SizeOf(w) == Large <==> 5000 <= w < 25000
    ensures SizeOf(w) == ExtraLarge <==> 25000 <= w
  {
  }

  /** A category's rank is the number of bounds its word count has reached. */
  lemma SizeRank(w: nat)
    ensures Rank(SizeOf(w)) == Reached(Bounds, w)
  {
    assert Reached([25000], w) == if 25000 <= w then 1 else 0 by {
      assert [25000][1..] == [];
    }
    assert Reached([5000, 25000], w) == (if 5000 <= w then 1 else 0) + Reached([25000], w) by {
      assert [5000, 25000][1..] == [25000];
    }
    assert Reached([1100, 5000, 25000], w) == (if 1100 <= w then 1 else 0) + Reached([5000, 25000], w) by {
      assert [1100, 5000, 25000][1..] == [5000, 25000];
    }
    assert Bounds[1..] == [1100, 5000, 25000];
  }

  lemma {:induction false} ReachedMonotone(bounds: seq<nat>, a: nat, b: nat)
    requires a <= b
    ensures Reached(bounds, a) <= Reached(bounds, b)
  {
    if bounds != [] {
      ReachedMonotone(bounds[1..], a, b);
    }
  }

  /** More words never give a smaller category. */
  lemma SizeMonotone(a: nat, b: nat)
    requires a <= b
    ensures Rank(SizeOf(a)) <= Rank(SizeOf(b))
  {
    SizeRank(a);
    SizeRank(b);
    ReachedMonotone(Bounds, a, b);
  }

  /** Distinct categories are shown differently. */
  lemma LabelInjective(c: SizeCategory, d: SizeCategory)
    ensures Label(c) == Label(d) ==> c == d
  {
  }

  /** `len(bill_text.split())`. */
  function WordCount(text: string): nat {
    |Words(text)|
  }

  // ---------------------------------------------------------------------
  // The bill id
  // ---------------------------------------------------------------------

  /** `f"{congress}-{bill_type}-{number}"`. */
  function BillId(congress: string, billType: string, number: string): (id: string)
    ensures |id| == |congress| + |billType| + |number| + 2
  {
    congress + "-" + billType + "-" + number
  }

  /** When no part holds a `-`, the id splits back into its parts. */
  lemma BillIdSplit(congress: string, billType: string, number: string)
    requires '-' !in congress && '-' !in billType && '-' !in number
    ensures SplitOn(BillId(congress, billType, number), '-') == [congress, billType, number]
  {
    assert BillId(congress, billType, number) == congress + ['-'] + (billType + ['-'] + number);
    SplitOnCons(congress, '-', billType + ['-'] + number);
    SplitOnCons(billType, '-', number);
    SplitOnNone(number, '-');
  }

  /** No API bill-type code holds a `-`. */
  lemma ApiCodePlain(code: string)
    requires CongressApi.WebSlug(code).Some?
    ensures '-' !in code
  {
  }

  /** The id of a bill read from a web address splits back into the
      congress, the API code and the number. */
  lemma BillIdOfParsed(url: string)
    requires CongressApi.ParseCongressUrl(url).Ok?
    ensures var info := CongressApi.ParseCongressUrl(url).value;
      SplitOn(BillId(info.congress, info.billType, info.number), '-') == [info.congress, info.billType, info.number]
  {
    var info := CongressApi.ParseCongressUrl(url).value;
    DigitsExclude(info.congress, '-');
    DigitsExclude(info.number, '-');
    ApiCodePlain(info.billType);
    BillIdSplit(info.congress, info.billType, info.number);
  }

  /** Two bills read from web addresses have the same id only when they are
      the same bill. */
  lemma BillIdInjective(url1: string, url2: string)
    requires CongressApi.ParseCongressUrl(url1).Ok? && CongressApi.ParseCongressUrl(url2).Ok?
    requires var a := CongressApi.ParseCongressUrl(url1).value;
      var b := CongressApi.ParseCongressUrl(url2).value;
      BillId(a.congress, a.billType, a.number) == BillId(b.congress, b.billType, b.number)
    ensures CongressApi.ParseCongressUrl(url1).value == CongressApi.ParseCongressUrl(url2).value
  {
    BillIdOfParsed(url1);
    BillIdOfParsed(url2);
  }

  // ---------------------------------------------------------------------
  // analyze_bill
  // ---------------------------------------------------------------------

  /** What `analyze_bill` returns: the five-item result, or on any failure
      the four-item tuple `(error_msg, [], 0, 0)`. */
  datatype AnalyzeReturn =
    | Five(summary: Option<string>, score: real, confidence: real, size: string, wordCount: nat)
    | Four(message: string)

  /** The class name every stage failure is re-raised under. */
  const FailureType: string := "Exception"

  /** The message of the error tuple. */
  function ErrorMessage(message: string): string {
    "Error: " + message + "\nError type: " + FailureType + "\n\nPlease check app.log for more details."
  }

  /** The stages of `analyze_bill` in their order, each with the outcome of
      its call: the metadata and text requests (`CongressApi.BillMetadataOf`,
      `CongressApi.BillTextOf`), the executive summary
      (`AiAnalyzer.ExecutiveSummary`) and the ideology score
      (`AiAnalyzer.ScorePoliticalIdeology`); an `Err` is the exception the
      call raised. The first failing stage names the message; a failed
      ideology score is not a failure. */
  function Stages(metadata: Result<CongressApi.BillMetadata, string>, billText: Result<string, string>,
                  summary: Result<Option<string>, string>,
                  ideology: Result<AiAnalyzer.IdeologyAnalysis, string>): (r: Result<AnalyzeReturn, string>)
    ensures r.Ok? <==> metadata.Ok? && billText.Ok? && summary.Ok?
    ensures metadata.Err? ==> r == Err(ErrorMessage("Failed to get bill metadata: " + metadata.error))
    ensures metadata.Ok? && billText.Err? ==> r == Err(ErrorMessage("Failed to get bill text: " + billText.error))
    ensures metadata.Ok? && billText.Ok? && summary.Err? ==>
      r == Err(ErrorMessage("Failed to generate executive summary: " + summary.error))
    ensures r.Ok? ==> var wc := WordCount(billText.value);
      r.value == Five(summary.value,
                      if ideology.Ok? then ideology.value.score else 0.0,
                      if ideology.Ok? then ideology.value.confidence else 50.0,
                      Label(SizeOf(wc)), wc)
  {
    if metadata.Err? then Err(ErrorMessage("Failed to get bill metadata: " + metadata.error))
    else if billText.Err? then Err(ErrorMessage("Failed to get bill text: " + billText.error))
    else if summary.Err? then Err(ErrorMessage("Failed to generate executive summary: " + summary.error))
    else
      var wc := WordCount(billText.value);
      var size := Label(SizeOf(wc));
      match ideology
      case Ok(a) => Ok(Five(summary.value, a.score, a.confidence, size, wc))
      case Err(_) => Ok(Five(summary.value, 0.0, 50.0, size, wc))
  }

  /** `analyze_bill` as written: a failure becomes the four-item tuple. */
  function AnalyzeOutcome(metadata: Result<CongressApi.BillMetadata, string>, billText: Result<string, string>,
                          summary: Result<Option<string>, string>,
                          ideology: Result<AiAnalyzer.IdeologyAnalysis, string>): (r: AnalyzeReturn)
    ensures r.Four? <==> Stages(metadata, billText, summary, ideology).Err?
  {
    match Stages(metadata, billText, summary, ideology)
    case Ok(five) => five
    case Err(message) => Four(message)
  }

  /** `analyze_bill` with the error path it evidently means: a five-item
      tuple shaped like a result, with the message where the summary goes. */
  function AnalyzeOutcomeFixed(metadata: Result<CongressApi.BillMetadata, string>, billText: Result<string, string>,
                               summary: Result<Option<string>, string>,
                               ideology: Result<AiAnalyzer.IdeologyAnalysis, string>): (r: AnalyzeReturn)
    ensures r.Five?
  {
    match Stages(metadata, billText, summary, ideology)
    case Ok(five) => five
    case Err(message) => Five(Some(message), 0.0, 0.0, "Error", 0)
  }

  /** A failed ideology score leaves the summary, the word count and the
      size category as a successful one gives them. */
  lemma IdeologyFailureKeepsSize(metadata: Result<CongressApi.BillMetadata, string>, billText: Result<string, string>,
                                 summary: Result<Option<string>, string>, a: AiAnalyzer.IdeologyAnalysis, e: string)
    requires metadata.Ok? && billText.Ok? && summary.Ok?
    ensures var good := AnalyzeOutcome(metadata, billText, summary, Ok(a));
      var bad := AnalyzeOutcome(metadata, billText, summary, Err(e));
      && bad == good.(score := 0.0, confidence := 50.0)
      && bad.size == Label(SizeOf(WordCount(billText.value)))
  {
  }

  /** The metadata dictionary always holds the three fields the summary
      prompt reads, so the summary never fails with `KeyError`. */
  lemma SummaryFieldsPresent(billText: string, m: CongressApi.BillMetadata,
                             complete: AiAnalyzer.Prompt -> Option<string>)
    ensures AiAnalyzer.ExecutiveSummary(billText, CongressApi.MetadataDict(m), complete).Ok?
  {
    CongressApi.MetadataDictGet(m);
  }

  // ---------------------------------------------------------------------
  // on_analyze_click
  // ---------------------------------------------------------------------

  /** The six values the analysis click shows. */
  datatype UiOutputs = UiOutputs(summary: Option<string>, sections: seq<Value>, score: real,
                                 confidence: real, size: string, wordCount: nat)

  /** The number of items of the returned tuple. */
  function Arity(r: AnalyzeReturn): nat {
    if r.Five? then 5 else 4
  }

  /** The `ValueError` of unpacking too short a tuple into five names. */
  function UnpackError(got: nat): string {
    "not enough values to unpack (expected 5, got " + NatToString(got) + ")"
  }

  const AnalysisErrorLead: string := "# Analysis Error\nAn error occurred while analyzing the bill: "

  /** What the click shows for the error it caught. */
  function ClickError(message: string): UiOutputs {
    UiOutputs(Some(AnalysisErrorLead + message), [], 0.0, 0.0, "Error", 0)
  }

  /** `on_analyze_click`: a five-item tuple is shown with an empty section
      list; anything else fails to unpack, and the click shows that error. */
  function Displayed(r: AnalyzeReturn): (out: UiOutputs)
    ensures r.Five? ==> out == UiOutputs(r.summary, [], r.score, r.confidence, r.size, r.wordCount)
    ensures r.Four? ==> out == ClickError(UnpackError(4))
  {
    if Arity(r) == 5 then UiOutputs(r.summary, [], r.score, r.confidence, r.size, r.wordCount)
    else ClickError(UnpackError(Arity(r)))
  }

  /** As written, every failure shows the same unpacking error: which stage
      failed, and why, never reaches the page. */
  lemma FailureMessageLost(metadata: Result<CongressApi.BillMetadata, string>, billText: Result<string, string>,
                           summary: Result<Option<string>, string>,
                           ideology: Result<AiAnalyzer.IdeologyAnalysis, string>)
    requires Stages(metadata, billText, summary, ideology).Err?
    ensures Displayed(AnalyzeOutcome(metadata, billText, summary, ideology))
         == ClickError("not enough values to unpack (expected 5, got 4)")
  {
    UnpackErrorFour();
  }

  lemma UnpackErrorFour()
    ensures UnpackError(4) == "not enough values to unpack (expected 5, got 4)"
  {
    assert NatToString(4) == "4" by {
      assert NatToString(4) == [DigitChar(4)];
    }
  }

  /** A web address that does not parse is one such failure. */
  lemma BadAddressLost(url: string, billText: Result<string, string>, summary: Result<Option<string>, string>,
                       ideology: Result<AiAnalyzer.IdeologyAnalysis, string>,
                       request: (string, Entries) -> Result<Value, string>)
    requires CongressApi.ParseCongressUrl(url).Err?
    ensures Displayed(AnalyzeOutcome(CongressApi.BillMetadataOf(url, request), billText, summary, ideology))
         == ClickError("not enough values to unpack (expected 5, got 4)")
  {
    FailureMessageLost(CongressApi.BillMetadataOf(url, request), billText, summary, ideology);
  }

  /** With the five-item error tuple, the page shows the failing stage's
      message, and a success is shown as before. */
  lemma FixedFailureShown(metadata: Result<CongressApi.BillMetadata, string>, billText: Result<string, string>,
                          summary: Result<Option<string>, string>,
                          ideology: Result<AiAnalyzer.IdeologyAnalysis, string>)
    ensures var s := Stages(metadata, billText, summary, ideology);
      var out := Displayed(AnalyzeOutcomeFixed(metadata, billText, summary, ideology));
      && (s.Err? ==> out.summary == Some(s.error) && out.size == "Error")
      && (s.Ok? ==> out == Displayed(AnalyzeOutcome(metadata, billText, summary, ideology)))
  {
  }

  // ---------------------------------------------------------------------
  // The questions and the section breakdown
  // ---------------------------------------------------------------------

  /** A chat history: the list of (question, reply) pairs the page passes in
      and the handlers extend in place. */
  class ChatHistory {
    var turns: seq<(string, string)>

    constructor(turns: seq<(string, string)>)
      ensures this.turns == turns
    {
      this.turns := turns;
    }
  }

  const NoBillReply: string := "Please analyze a bill first before asking questions."

  /** The reply of `handle_question` to a failed query. */
  function HandleErrorReply(e: string): string {
    "Sorry, I encountered an error: " + e + "\n\nPlease check app.log for more details."
  }

  /** The reply of `on_question_click` to a failed query. */
  function ClickErrorReply(e: string): string {
    "Sorry, I encountered an error answering your question: " + e
  }

  /** The number of context items a question is answered from. */
  const QueryK: nat := 5

  /** What the section button shows: the breakdown, or one `{'error': ...}`
      entry. */
  datatype SectionsOutput =
    | Analyses(items: seq<AiAnalyzer.SectionAnalysis>)
    | ErrorEntry(error: string)

  const NoBillSections: string := "Please analyze a bill first before generating section analysis."
  const NoSections: string := "No sections were found in the bill text to analyze."

  function SectionsError(e: string): string {
    "An error occurred during section analysis: " + e
  }

  /** `if not current_bill_id`. */
  predicate Current(billId: Option<string>) {
    billId.Some? && billId.value != []
  }

  /** The reply to a question: the refusal without a current bill, the error
      reply when the query raises (`raised`), and otherwise the store's
      answer from the five nearest chunks of the current bill. */
  function Reply(billId: Option<string>, collection: seq<QaSystem.Entry>, metadatas: map<string, Entries>,
                 question: string, raised: Option<string>, errorReply: string -> string,
                 distance: (string, string) -> real, showScore: real -> string,
                 complete: string -> string): string {
    if !Current(billId) then NoBillReply
    else if raised.Some? then errorReply(raised.value)
    else StoreAnswer(billId.value, collection, metadatas, question, distance, showScore, complete)
  }

  /** `qa_system.query_bill(question, bill_id)`: the answer from the five
      nearest chunks of the bill and its stored metadata. */
  function StoreAnswer(billId: string, collection: seq<QaSystem.Entry>, metadatas: map<string, Entries>,
                       question: string, distance: (string, string) -> real, showScore: real -> string,
                       complete: string -> string): string {
    QaSystem.ContextualizedResponse(question, QaSystem.RelevantContext(collection, question, billId, QueryK, distance),
                                    QaSystem.PromptMetadata(metadatas, billId), showScore, complete)
  }

  /** The module-level state of the app and the Q&A store it feeds. */
  class App {
    var currentBillId: Option<string>
    var currentMetadata: Option<Entries>
    var currentSections: seq<TextProcessor.Section>
    const qa: QaSystem.QASystem

    predicate Valid()
      reads this, qa
    {
      qa.Valid()
    }

    constructor(qa: QaSystem.QASystem)
      requires qa.Valid()
      ensures Valid() && this.qa == qa
      ensures currentBillId.None? && currentMetadata.None? && currentSections == []
    {
      this.qa := qa;
      currentBillId := None;
      currentMetadata := None;
      currentSections := [];
    }

    predicate HasBill()
      reads this
    {
      Current(currentBillId)
    }

    /** `analyze_bill`. Once metadata and text are in, the sections, the bill
        id and the metadata become current and the bill is stored for
        questions, whatever the later stages do; a failure before that
        changes nothing. */
    method AnalyzeBill(metadata: Result<CongressApi.BillMetadata, string>, billText: Result<string, string>,
                       summary: Result<Option<string>, string>,
                       ideology: Result<AiAnalyzer.IdeologyAnalysis, string>) returns (r: AnalyzeReturn)
      requires Valid()
      modifies this, qa
      ensures Valid()
      ensures r == AnalyzeOutcome(metadata, billText, summary, ideology)
      ensures metadata.Ok? && billText.Ok? ==>
        var m := metadata.value;
        var id := BillId(m.congress, m.billType, m.number);
        var md := CongressApi.MetadataDict(m);
        var p := TextProcessor.ProcessedBill(billText.value);
        && HasBill() && currentBillId == Some(id) && currentMetadata == Some(md)
        && currentSections == p.sections
        && qa.billMetadatas == old(qa.billMetadatas)[id := md]
        && qa.collection == old(qa.collection)
             + QaSystem.Added(old(qa.collection), QaSystem.ChunkEntries(id, p.chunks, QaSystem.StoredMetadata(id, md)))
      ensures !(metadata.Ok? && billText.Ok?) ==>
        && currentBillId == old(currentBillId) && currentMetadata == old(currentMetadata)
        && currentSections == old(currentSections)
        && qa.billMetadatas == old(qa.billMetadatas) && qa.collection == old(qa.collection)
    {
      if metadata.Err? || billText.Err? {
        return AnalyzeOutcome(metadata, billText, summary, ideology);
      }
      var m := metadata.value;
      var processed := TextProcessor.ProcessBill(billText.value);
      currentSections := processed.sections;
      var id := BillId(m.congress, m.billType, m.number);
      currentBillId := Some(id);
      currentMetadata := Some(CongressApi.MetadataDict(m));
      qa.StoreBillMetadata(id, CongressApi.MetadataDict(m));
      qa.StoreBillChunks(id, processed.chunks, CongressApi.MetadataDict(m));
      r := AnalyzeOutcome(metadata, billText, summary, ideology);
    }

    /** `on_analyze_click`: the analysis, shown. */
    method OnAnalyzeClick(metadata: Result<CongressApi.BillMetadata, string>, billText: Result<string, string>,
                          summary: Result<Option<string>, string>,
                          ideology: Result<AiAnalyzer.IdeologyAnalysis, string>) returns (out: UiOutputs)
      requires Valid()
      modifies this, qa
      ensures Valid()
      ensures out == Displayed(AnalyzeOutcome(metadata, billText, summary, ideology))
    {
      var r := AnalyzeBill(metadata, billText, summary, ideology);
      out := Displayed(r);
    }

    /** The reply to a question for the current bill and store. */
    method Answer(question: string, raised: Option<string>, errorReply: string -> string,
                  distance: (string, string) -> real, showScore: real -> string,
                  complete: string -> string) returns (reply: string)
      ensures reply == Reply(currentBillId, qa.collection, qa.billMetadatas, question, raised, errorReply,
                             distance, showScore, complete)
    {
      if !HasBill() {
        reply := NoBillReply;
      } else if raised.Some? {
        reply := errorReply(raised.value);
      } else {
        reply := Query(question, distance, showScore, complete);
      }
    }

    /** `qa_system.query_bill(question, current_bill_id)`. */
    method Query(question: string, distance: (string, string) -> real, showScore: real -> string,
                 complete: string -> string) returns (answer: string)
      requires HasBill()
      ensures answer == StoreAnswer(currentBillId.value, qa.collection, qa.billMetadatas, question,
                                    distance, showScore, complete)
    {
      answer := qa.QueryBill(question, currentBillId.value, QueryK, distance, showScore, complete);
    }

    /** `handle_question`: exactly one (question, reply) pair is appended,
        earlier turns stay as they were, and the input box is cleared. */
    method HandleQuestion(question: string, history: ChatHistory, raised: Option<string>,
                          distance: (string, string) -> real, showScore: real -> string,
                          complete: string -> string) returns (cleared: string)
      modifies history
      ensures cleared == ""
      ensures history.turns == old(history.turns)
        + [(question, Reply(currentBillId, qa.collection, qa.billMetadatas, question, raised, HandleErrorReply,
                            distance, showScore, complete))]
    {
      cleared := "";
      var reply := Answer(question, raised, HandleErrorReply, distance, showScore, complete);
      var turns := history.turns + [(question, reply)];
      history.turns := turns;
    }

    /** `on_question_click` (and `on_suggestion_click`, which passes the
        suggestion on as the question): the same protocol with its own
        error reply. */
    method OnQuestionClick(question: string, history: ChatHistory, raised: Option<string>,
                           distance: (string, string) -> real, showScore: real -> string,
                           complete: string -> string) returns (cleared: string)
      modifies history
      ensures cleared == ""
      ensures history.turns == old(history.turns)
        + [(question, Reply(currentBillId, qa.collection, qa.billMetadatas, question, raised, ClickErrorReply,
                            distance, showScore, complete))]
    {
      cleared := "";
      var reply := Answer(question, raised, ClickErrorReply, distance, showScore, complete);
      var turns := history.turns + [(question, reply)];
      history.turns := turns;
    }

    /** `on_generate_sections_click`: one error entry without a current bill,
        without sections, or when the breakdown raises (`raised`); the
        breakdown of the current sections otherwise. */
    method OnGenerateSectionsClick(raised: Option<string>, complete: AiAnalyzer.Prompt -> Option<string>)
      returns (out: SectionsOutput)
      ensures !HasBill() ==> out == ErrorEntry(NoBillSections)
      ensures HasBill() && currentSections == [] ==> out == ErrorEntry(NoSections)
      ensures HasBill() && currentSections != [] && raised.Some? ==> out == ErrorEntry(SectionsError(raised.value))
      ensures out.Analyses? <==> HasBill() && currentSections != [] && raised.None?
      ensures out.Analyses? ==> out.items == AiAnalyzer.Breakdown(currentSections, complete)
    {
      if !HasBill() {
        return ErrorEntry(NoBillSections);
      }
      if currentSections == [] {
        return ErrorEntry(NoSections);
      }
      if raised.Some? {
        return ErrorEntry(SectionsError(raised.value));
      }
      var items := AiAnalyzer.GenerateSectionBreakdown(currentSections, complete);
      out := Analyses(items);
    }
  }
}
