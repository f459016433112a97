# Congressional Bill Analyzer — a Dafny model of its deterministic core

The Congressional Bill Analyzer takes a congress.gov bill address and does four things:

- It fetches the bill's metadata and text from the Congress.gov API.
- It cleans the text and cuts it into sections and word chunks.
- It stores the chunks in a vector collection for questions and answers.
- It asks a completion model for an executive summary, a per-section breakdown and a political-ideology score.

Two front ends, one on Gradio and one on Streamlit, drive this pipeline and keep the current bill between events.

This project models the deterministic rules of that pipeline and proves what they promise:

- how bill text is cleaned, sectioned and chunked;
- how chunk ids, stored metadata, context and prompts are formed;
- how text is truncated and how the model's ideology reply is parsed;
- how the two address parsers read a bill's identity;
- how the API client picks the title, sponsor, committees, subjects, text format and bill list out of the JSON it receives;
- the size categories, bill ids, chat histories and error paths of the two front ends.

Everything outside the program is a parameter:

- the HTTP request and the download;
- the completion model;
- the embedding distance;
- the number rendering.

## Layout

There is one module per source file:

| file | module | models |
|---|---|---|
| `text_processor.dfy` | `TextProcessor` | `src/text_processor.py` |
| `qa_system.dfy` | `QaSystem` | `src/qa_system.py`, with `QASystem` as a class holding the collection and the bill-metadata map |
| `ai_analyzer.dfy` | `AiAnalyzer` | `src/ai_analyzer.py` |
| `congress_api.dfy` | `CongressApi` | `src/congress_api.py` |
| `bill_scraper.dfy` | `BillScraper` | `src/bill_scraper.py` (addresses only) |
| `app.dfy` | `GradioApp` | `src/app.py`, with the module-level state as the class `App` and the chat history as the class `ChatHistory` |
| `streamlit_app.dfy` | `StreamlitApp` | `src/streamlit_app.py`, with the session state as the class `Session` |

Three helper modules support them:

- `Wrappers`: `Option` and `Result`.
- `PyStr`: the Python string built-ins the code relies on, among them `str.split()`, `str.join`, `str.strip`, `str.replace` and `str.lower()`.
- `PyValue`: Python values and decoded JSON (`None`, booleans, integers, floats, strings, lists and dictionaries), with dictionary lookup, truthiness, `repr` and the exception each operation raises on a value of the wrong type.

Regular expressions are written as explicit matchers. Each matcher has the outcome Python's leftmost, greedy search gives for its pattern.

Where the code and its own comments disagree, the model follows the code. Two examples:

- `chunk_text` produces non-overlapping chunks, although its comment speaks of overlap.
- The confidence parsed from a reply is never negative but is not capped at 100.

## Model

| member | source | states |
|---|---|---|
| TextProcessor.AfterLastNewline | src/text_processor.py:13-19 | the index returned lies just past a newline, or is 0, and never beyond the bound |
| TextProcessor.SpacesThroughNewline | src/text_processor.py:13 | the match of `\s*\n` never runs past the text |
| TextProcessor.BlankLinesLen | src/text_processor.py:13 | the match of `\n\s*\n` never runs past the text |
| TextProcessor.PageNumberLen | src/text_processor.py:16 | the match of `\n\s*\d+\s*\n` never runs past the text |
| TextProcessor.SectionLineLen | src/text_processor.py:19 | the match of `\n\s*Section\s+\d+\.\s*\n` never runs past the text |
| TextProcessor.MatchLen | src/text_processor.py:13-19 | each of the three line patterns matches only where a newline starts, within the text |
| TextProcessor.CleanBillText | src/text_processor.py:10-24 | the cleaned text is the words left by the three substitutions, joined by single spaces: no whitespace at either end, no double space, no newline |
| TextProcessor.JoinedWordsNormalised | src/text_processor.py:22 | words joined by single spaces have no outer whitespace, no whitespace run and no newline |
| TextProcessor.SubWithoutNewline | src/text_processor.py:13-19 | a substitution whose pattern starts with a newline leaves text without a newline unchanged |
| TextProcessor.CollapseCopiesWord | src/text_processor.py:22 | collapsing whitespace copies a leading run of non-whitespace unchanged |
| TextProcessor.CollapseShape | src/text_processor.py:22 | `re.sub(r'\s+', ' ', s)` is a leading space if `s` starts with whitespace, the words joined by single spaces, and a trailing space if `s` ends with whitespace |
| TextProcessor.CollapseSpaceFirst | src/text_processor.py:22 | text starting with whitespace collapses to one space, the joined words and the trailing space |
| TextProcessor.CollapseAfterSpaces | src/text_processor.py:22 | text with its leading whitespace dropped collapses to the joined words and the trailing space |
| TextProcessor.LeadAfterSpaces | src/text_processor.py:22 | text with its leading whitespace dropped gets no leading space |
| TextProcessor.TrailSkipSpaces | src/text_processor.py:22 | dropping leading whitespace keeps the trailing space |
| TextProcessor.CollapseWordFirst | src/text_processor.py:22 | text starting with a non-space collapses to the joined words and the trailing space |
| TextProcessor.CollapseThenStrip | src/text_processor.py:22 | collapsing then stripping is joining the words with single spaces |
| TextProcessor.CleanKeepsWords | src/text_processor.py:10-24 | cleaning keeps exactly the words, in order, that the line substitutions leave |
| TextProcessor.LineCleaned | src/text_processor.py:13-19 | defines the text after the three line-level substitutions, before the whitespace collapse; CleanKeepsWords states what survives |
| TextProcessor.CleanSingleLine | src/text_processor.py:10-24 | on text without a newline, cleaning is `' '.join(raw.split())` |
| TextProcessor.CleanIdempotent | src/text_processor.py:10-24 | cleaning cleaned text changes nothing |
| TextProcessor.ChunksFrom | src/text_processor.py:53-57 | the chunks from word `i` are one chunk of `k` words then the rest, or one last chunk of what remains |
| TextProcessor.ChunkStep | src/text_processor.py:53-57 | one loop iteration extends the chunks of the first `i` words to those of the first `i + k` |
| TextProcessor.ChunkText | src/text_processor.py:48-59 | a zero size raises, a negative size gives no chunks, a positive size gives the consecutive groups of that many words, the last one shorter, each joined by single spaces |
| TextProcessor.ChunkCount | src/text_processor.py:53 | there are ceil(n / k) chunks of n words |
| TextProcessor.ChunkWords | src/text_processor.py:56 | there are as many word groups as chunks |
| TextProcessor.ChunksFlatten | src/text_processor.py:48-59 | the chunks' words, in order, are the text's words, each exactly once |
| TextProcessor.ChunksFlattenLast | src/text_processor.py:55-56 | the last chunk holds the remaining words |
| TextProcessor.ChunksFlattenStep | src/text_processor.py:55-57 | a full chunk followed by the rest gives back the words |
| TextProcessor.ChunkSizes | src/text_processor.py:53-56 | every chunk holds exactly `k` words except the last, which holds 1 to `k` |
| TextProcessor.ChunksJoin | src/text_processor.py:56 | the chunks joined by single spaces are the words joined by single spaces |
| TextProcessor.ChunksRoundTrip | src/text_processor.py:50-56 | splitting the joined chunks gives back the text's words |
| TextProcessor.Chunks | src/text_processor.py:48-59 | defines the chunks: consecutive groups of `k` words, the last possibly shorter, joined by single spaces; ChunkCount, ChunkSizes and ChunksRoundTrip state their number, sizes and contents |
| TextProcessor.MarkerLen | src/text_processor.py:33-36 | the marker match never runs past the text |
| TextProcessor.MarkerExtends | src/text_processor.py:36 | text that starts with a marker still does when more text follows |
| TextProcessor.SectionMarkerExtends | src/text_processor.py:33 | a `Section\s+\d+\.` match survives more text after it |
| TextProcessor.NumberedExtends | src/text_processor.py:33 | a `\s+\d+\.` match keeps its length when more text follows |
| TextProcessor.ItemMarkerExtends | src/text_processor.py:33 | a `\(\w\)\s+` match survives more text after it |
| TextProcessor.MarkerOfItself | src/text_processor.py:33-36 | every part `re.split` cuts out as a marker passes the `re.match` test |
| TextProcessor.SectionMarkerOfItself | src/text_processor.py:33-36 | a cut-out `Section` marker matches on its own |
| TextProcessor.NumberedOfItself | src/text_processor.py:33-36 | a cut-out `\s+\d+\.` match matches on its own with the same length |
| TextProcessor.ItemMarkerOfItself | src/text_processor.py:33-36 | a cut-out `(x)` marker matches only the second alternative on its own |
| TextProcessor.ParenNotSection | src/text_processor.py:33 | text starting with `(` never matches the `Section` alternative |
| TextProcessor.SplitMarkersShape | src/text_processor.py:33 | the split alternates text and markers and its parts concatenate to the input |
| TextProcessor.SplitMarkers | src/text_processor.py:33 | defines `re.split` with a capturing group: the text before the first marker, then each marker and the text after it; SplitMarkersShape and SplitWithoutMarkers state its shape |
| TextProcessor.SplitMarkersEnd | src/text_processor.py:33 | at the end of the text the split is the pending text alone |
| TextProcessor.NotMarkerEmpty | src/text_processor.py:36 | the empty part is not a marker |
| TextProcessor.SplitPastText | src/text_processor.py:33 | a character that starts no marker joins the pending text |
| TextProcessor.SplitAtMarker | src/text_processor.py:33 | at a marker the split emits the pending text and the marker, and keeps alternating |
| TextProcessor.SplitAlternates | src/text_processor.py:33 | the parts of any text alternate text and markers, text at both ends, and concatenate back to the text |
| TextProcessor.Grouped | src/text_processor.py:29-44 | grouping always yields at least the first section |
| TextProcessor.KeptSnoc | src/text_processor.py:37-44 | closing one more section appends it exactly when its content is not blank |
| TextProcessor.KeptNonBlank | src/text_processor.py:37-43 | every kept section has non-blank content |
| TextProcessor.ScanMarker | src/text_processor.py:36-39 | a marker part closes the current section and opens one headed by the stripped marker |
| TextProcessor.ScanText | src/text_processor.py:40-41 | a text part is appended to the current section's content |
| TextProcessor.ScanDone | src/text_processor.py:43-46 | after the last part, closing the current section gives the grouping's kept sections |
| TextProcessor.ExtractSections | src/text_processor.py:26-46 | the loop computes the sections of the text, and every emitted section has non-blank content |
| TextProcessor.Paired | src/text_processor.py:29-44 | alternating parts give one section per marker plus the leading one |
| TextProcessor.PairedAt | src/text_processor.py:29-44 | section `j` is headed by the stripped marker `2j - 1` (or `''` for `j = 0`) and holds part `2j` |
| TextProcessor.GroupedPaired | src/text_processor.py:29-44 | on alternating parts the loop's grouping is the pairing of each marker with the text after it |
| TextProcessor.AlternatesFront | src/text_processor.py:33 | dropping the last marker and text keeps the parts alternating |
| TextProcessor.GroupedTwoMore | src/text_processor.py:35-41 | a marker and the text after it add one section to the grouping |
| TextProcessor.SectionsArePairs | src/text_processor.py:26-46 | `extract_sections` is the non-blank sections among (`''`, leading text), (stripped marker, following text), … read off the split |
| TextProcessor.Sections | src/text_processor.py:26-46 | defines `extract_sections`: each marker with the text up to the next one, keeping the sections whose content is not blank; SectionsArePairs, SectionsOfEmpty and SectionsWithoutMarkers state it |
| TextProcessor.SplitWithoutMarkers | src/text_processor.py:33 | text where no marker starts splits into itself |
| TextProcessor.GroupedSingle | src/text_processor.py:30-41 | a single part becomes one section headed `''` |
| TextProcessor.SectionsWithoutMarkers | src/text_processor.py:26-46 | text with no marker anywhere is one section headed `''`, or none when blank |
| TextProcessor.SectionsOfEmpty | src/text_processor.py:26-46 | the empty text has no sections |
| TextProcessor.ProcessedChunksJoin | src/text_processor.py:65-74 | the chunks of the cleaned text, joined by single spaces, are the cleaned text |
| TextProcessor.ProcessBill | src/text_processor.py:65-76 | the cleaned text, its sections and its chunks, with the chunks joining back to the cleaned text |
| QaSystem.ChunkIdShape | src/qa_system.py:40 | the id of chunk `i` is the bill id, `_chunk_`, then a non-empty run of digits |
| QaSystem.ChunkId | src/qa_system.py:40 | defines the id `<bill>_chunk_<i>`; ChunkIdShape states its shape |
| QaSystem.InfixEnd | src/qa_system.py:40 | in a chunk id of bill `b`, the infix ends at a fixed place and only digits follow it |
| QaSystem.OneBillPerId | src/qa_system.py:40 | a chunk id belongs to exactly one bill id |
| QaSystem.ChunkIdInjective | src/qa_system.py:40 | two chunk ids are equal only for the same bill and the same chunk index |
| QaSystem.ChunkIdsDistinct | src/qa_system.py:40 | one call's `n` ids are pairwise distinct |
| QaSystem.Sanitize | src/qa_system.py:44-60 | every value is stored as a scalar: scalars unchanged, everything else as a string |
| QaSystem.SanitizeUniform | src/qa_system.py:47-58 | the special cases for the empty list (`""`) and the empty dictionary (`"{}"`) agree with the general rules, so every list is stored as its joined `str` items and every dictionary as its `str` |
| QaSystem.StoredMetadata | src/qa_system.py:43-63 | the stored metadata maps `bill_id` to the bill |
| QaSystem.KeysOfSanitizedValues | src/qa_system.py:44-46 | sanitising each value keeps the keys and their order |
| QaSystem.GetOfSanitizedValues | src/qa_system.py:44-46 | a key's sanitised value is the sanitised original, a missing key stays missing |
| QaSystem.UniqueKeysSnoc | src/qa_system.py:44 | without its last entry a dictionary still has unique keys, none of them the last one's |
| QaSystem.SanitizedLoopIsMap | src/qa_system.py:43-60 | over a dictionary, the loop's key-by-key assignment is the same as sanitising each value in place |
| QaSystem.SanitizedValuesSnoc | src/qa_system.py:44-60 | sanitising a dictionary with one more entry appends that entry, sanitised |
| QaSystem.SanitizedAllScalar | src/qa_system.py:42-60 | the loop leaves only scalar values |
| QaSystem.StoredMetadataShape | src/qa_system.py:42-63 | the stored metadata is all scalars, keeps the input's keys in order (adding `bill_id` at the end when missing), and holds the sanitised value of every key other than `bill_id` |
| QaSystem.SanitizeMetadata | src/qa_system.py:42-63 | the loop computes the stored metadata, which is all scalars |
| QaSystem.ChunkEntriesStored | src/qa_system.py:40-69 | one call's entries are tagged with the bill, carry chunk ids of that bill and scalar metadata, and have distinct ids |
| QaSystem.AddedFrom | src/qa_system.py:65-69 | the collection keeps only submitted entries whose id it did not hold |
| QaSystem.AddedDistinct | src/qa_system.py:65-69 | kept entries from a batch of distinct ids still have distinct ids |
| QaSystem.AppendStored | src/qa_system.py:65-69 | appending well-stored new entries with fresh ids keeps the collection's invariant |
| QaSystem.StorePreserves | src/qa_system.py:38-69 | `store_bill_chunks` keeps the collection's invariant: distinct ids, every entry tagged with its bill under a chunk id of it, scalar metadata |
| QaSystem.OfBill | src/qa_system.py:77 | the `where` filter returns only entries of the collection tagged with the bill |
| QaSystem.OfBillAppend | src/qa_system.py:77 | filtering distributes over concatenation |
| QaSystem.OfBillAll | src/qa_system.py:77 | a batch all tagged with the bill passes the filter whole |
| QaSystem.OfBillNone | src/qa_system.py:77 | a collection without the bill's tag filters to nothing |
| QaSystem.AddedAll | src/qa_system.py:65-69 | a batch with only new ids is kept whole |
| QaSystem.FirstStore | src/qa_system.py:38-77 | after a bill's first store, every chunk is kept and the bill's entries are exactly its chunks in chunk order |
| QaSystem.Insert | src/qa_system.py:74-78 | inserting into a ranking adds one entry |
| QaSystem.Ranked | src/qa_system.py:74-78 | ranking keeps the number of entries |
| QaSystem.ConsNearestFirst | src/qa_system.py:74-78 | an entry no farther than all of a ranking can lead it |
| QaSystem.InsertSorted | src/qa_system.py:74-78 | insertion adds exactly the entry and keeps nearest-first order |
| QaSystem.HeadNearest | src/qa_system.py:74-78 | the head of a ranking is nearest, and the tail is a ranking |
| QaSystem.RankedSorted | src/qa_system.py:74-78 | ranking is a permutation of the entries, nearest first |
| QaSystem.Nearest | src/qa_system.py:74-78 | the query returns `min(k, n)` entries of the `n` tagged with the bill |
| QaSystem.NearestOfBill | src/qa_system.py:74-78 | every returned entry is of the collection and of the bill, nearest first |
| QaSystem.NearestAreClosest | src/qa_system.py:74-78 | every entry of the bill the query leaves out is at least as far from the question as every entry it returns |
| QaSystem.PrefixBeforeSuffix | src/qa_system.py:74-78 | in a ranking, everything before a cut is no farther than everything after it |
| QaSystem.ZipResults | src/qa_system.py:80-91 | the zip is as long as its shortest input and item `i` holds document `i`, the `section` of metadata `i` (default `'Unknown'`) and distance `i` |
| QaSystem.RelevantContext | src/qa_system.py:71-91 | `min(k, n)` items, item `i` built from the `i`-th nearest entry of the bill: its text, its section or `'Unknown'`, its distance |
| QaSystem.FirstStoreMetadata | src/qa_system.py:63-69 | after a bill's first store every entry of that bill carries that store's metadata |
| QaSystem.SectionsUnknown | src/qa_system.py:38-91 | a bill stored without a `section` key gets the section `'Unknown'` in every context item |
| QaSystem.ContextUsesFirstFive | src/qa_system.py:95-102 | the prompt uses the first `min(5, n)` items in order, and items after the fifth never change the context string |
| QaSystem.ContextString | src/qa_system.py:95-102 | defines the context section: the blocks of the first five items, in order, separated by a blank line; ContextUsesFirstFive states which items it uses |
| QaSystem.FieldsOf | src/qa_system.py:146-153 | each of title, congress, sponsor and bill type is the stored value, or `'N/A'` when the key is missing |
| QaSystem.UnknownBillFields | src/qa_system.py:146-153 | a bill without stored metadata shows `'N/A'` in all four fields |
| QaSystem.PromptMetadata | src/qa_system.py:146-153 | defines the four prompt fields of a bill from its stored metadata, `N/A` for each missing key; UnknownBillFields and StoreMetadataFields state it |
| QaSystem.PromptText | src/qa_system.py:104-127 | defines the question prompt: the template with the bill fields, the context string and the question inserted; PromptTextQuestion states that the question is kept |
| QaSystem.PromptTextQuestion | src/qa_system.py:104-127 | for the same bill fields and context, two prompts are equal exactly when their questions are |
| QaSystem.ContextualizedResponse | src/qa_system.py:93-136 | defines the answer: the completion of the worded prompt built from the first five context items; QueryBill states that the store answers with it |
| QaSystem.StoreMetadataFields | src/qa_system.py:138-153 | storing one bill's metadata sets that bill's prompt fields and leaves every other bill's fields as they were |
| QaSystem.QASystem.constructor | src/qa_system.py:8-19 | a new store has an empty collection and no bill metadata |
| QaSystem.QASystem.StoreBillChunks | src/qa_system.py:38-69 | the collection gains the new chunk entries, keeps its invariant, and the bill metadata is untouched |
| QaSystem.QASystem.StoreBillMetadata | src/qa_system.py:138-140 | the bill's metadata is replaced and nothing else changes |
| QaSystem.QASystem.QueryBill | src/qa_system.py:142-154 | the answer is the completion of the prompt built from the `k` nearest chunks of the bill and its stored fields, with `'N/A'` defaults |
| AiAnalyzer.TruncateShape | src/ai_analyzer.py:53-54 | text within the limit passes unchanged; longer text keeps exactly its first `limit` characters followed by the notice (the same truncation is applied at lines 90-91 and 132-133) |
| AiAnalyzer.Truncate | src/ai_analyzer.py:53-54 | defines the cut: text longer than the limit keeps its first `limit` characters and gets the notice; TruncateShape and TruncateIdempotent state its properties (the same cut is at lines 90-91 and 132-133) |
| AiAnalyzer.TruncateIdempotent | src/ai_analyzer.py:53-54 | truncating an already truncated text changes nothing (the same truncation is applied at lines 132-133) |
| AiAnalyzer.ExecutiveSummary | src/ai_analyzer.py:50-78 | the summary is produced exactly when the metadata has `title`, `sponsor` and `introduced_date`; otherwise the lookup raises `KeyError` |
| AiAnalyzer.BreakdownShape | src/ai_analyzer.py:80-127 | the breakdown holds the first `min(n, 10)` sections in order, under their own headers, then one note exactly when `n > 10` |
| AiAnalyzer.Breakdown | src/ai_analyzer.py:80-127 | defines the breakdown: the first ten sections analysed in order, then the note when there were more; BreakdownShape states its shape and GenerateSectionBreakdown computes it |
| AiAnalyzer.GenerateSectionBreakdown | src/ai_analyzer.py:80-127 | the loop builds that breakdown |
| AiAnalyzer.SearchLeftmost | src/ai_analyzer.py:198-224 | `re.search` reports the match at the leftmost start where the pattern matches |
| AiAnalyzer.SearchNone | src/ai_analyzer.py:199-203 | a search that finds nothing matches at no start |
| AiAnalyzer.SearchFoldedLabels | src/ai_analyzer.py:198-222 | under `re.IGNORECASE`, two labels equal up to case search alike |
| AiAnalyzer.CiStartsWithInner | src/ai_analyzer.py:198-202 | where a label matches, a case-folded copy of its tail matches further on |
| AiAnalyzer.Fraction | src/ai_analyzer.py:198 | the optional `(?:\.\d+)` part captures only digits |
| AiAnalyzer.NumeralAt | src/ai_analyzer.py:198-220 | a captured number has at least one integer digit, and is never negative in the unsigned pattern |
| AiAnalyzer.FindNumeral | src/ai_analyzer.py:198-224 | the number found after a label is well-formed, and unsigned for the confidence patterns |
| AiAnalyzer.NumeralValue | src/ai_analyzer.py:207-229 | the value `float()` reads is non-negative for an unsigned number |
| AiAnalyzer.ParseConfidence | src/ai_analyzer.py:219-229 | the confidence is never negative: a match of `\d+(?:\.\d+)?` or the default 50 |
| AiAnalyzer.ScoreSpellings | src/ai_analyzer.py:198-200 | `OVERALL SCORE:` and `Overall score:` are equal up to case |
| AiAnalyzer.ConfidenceSpellings | src/ai_analyzer.py:220-222 | `CONFIDENCE LEVEL:` and `Confidence level:` are equal up to case |
| AiAnalyzer.ShortScoreSpelling | src/ai_analyzer.py:198-202 | `Score:` is the tail of `OVERALL SCORE:` up to case |
| AiAnalyzer.AltLabelsRedundant | src/ai_analyzer.py:198-222 | the second search of the score and of the confidence finds exactly what the first did, so it never decides the result |
| AiAnalyzer.MatchInside | src/ai_analyzer.py:198-202 | wherever `OVERALL SCORE:` and a number match, `Score:` and the same number match inside it |
| AiAnalyzer.ShortScoreLabelCovers | src/ai_analyzer.py:198-202 | whenever the first score search succeeds, the `Score:` search succeeds too |
| AiAnalyzer.LeftmostStart | src/ai_analyzer.py:198-202 | a successful search matched at some start of the text |
| AiAnalyzer.LazyLen | src/ai_analyzer.py:211 | the lazy group `.+?` takes at least one character and stops where the terminator first matches |
| AiAnalyzer.LazyLenLeast | src/ai_analyzer.py:211 | no terminator matches before the place the lazy group stops |
| AiAnalyzer.ReasoningGroupNoBlankLine | src/ai_analyzer.py:211 | the captured reasoning has no blank line |
| AiAnalyzer.NoBlankLineAt | src/ai_analyzer.py:211 | where the lazy group does not stop, no blank line starts |
| AiAnalyzer.NoBlankLineSlice | src/ai_analyzer.py:217 | a piece of text without blank lines has none either |
| AiAnalyzer.StripNoBlankLine | src/ai_analyzer.py:217 | stripping keeps text free of blank lines and leaves no whitespace at either end |
| AiAnalyzer.ReasoningMatchNoBlankLine | src/ai_analyzer.py:211-213 | whatever a reasoning-label search captures has no blank line |
| AiAnalyzer.ReasoningShape | src/ai_analyzer.py:210-217 | the reasoning is the default text, or has no blank line and no whitespace at either end |
| AiAnalyzer.ParseScore | src/ai_analyzer.py:197-207 | defines the score: the value after the first of `OVERALL SCORE:`, `Overall score:`, `Score:` that matches a signed numeral, else 0 |
| AiAnalyzer.ParseReasoning | src/ai_analyzer.py:210-217 | defines the reasoning: the stripped group after the first reasoning label that matches, else the default text; ReasoningShape states its shape |
| AiAnalyzer.QuotedRunsShape | src/ai_analyzer.py:232 | every phrase found between double quotes is non-empty and holds no double quote |
| AiAnalyzer.QuotedRuns | src/ai_analyzer.py:232 | defines `re.findall(r'"([^"]+)"', s)`: the non-empty runs between paired double quotes, left to right without overlap; QuotedRunsShape states their shape |
| AiAnalyzer.CaretRunsShape | src/ai_analyzer.py:235 | every phrase of the fallback pattern is a non-empty run of backslashes and carets |
| AiAnalyzer.CaretRuns | src/ai_analyzer.py:235 | defines the fallback `findall`: the maximal runs of backslashes and carets; CaretRunsShape states their shape |
| AiAnalyzer.TrimmedPiece | src/ai_analyzer.py:242 | a piece without separators, stripped of the trim set, holds no separator and neither starts nor ends with a trimmed character |
| AiAnalyzer.PhrasesTrimmed | src/ai_analyzer.py:242 | every kept piece is trimmed |
| AiAnalyzer.LabelledPhrasesTrimmed | src/ai_analyzer.py:237-242 | every phrase taken from the `KEY PHRASES:` list is trimmed |
| AiAnalyzer.LabelledPhrases | src/ai_analyzer.py:237-242 | defines the phrases after the first `KEY PHRASES:` label: the non-blank pieces between separators, trimmed; LabelledPhrasesTrimmed states they are trimmed |
| AiAnalyzer.KeyPhrases | src/ai_analyzer.py:231-245 | the key phrases are never empty |
| AiAnalyzer.ParseReply | src/ai_analyzer.py:194-254 | the analysis always has key phrases and a non-negative confidence; a reply without content gives the exception path's fixed analysis |
| AiAnalyzer.ScorePoliticalIdeology | src/ai_analyzer.py:129-264 | the analysis of the completion over the truncated text always has key phrases and a non-negative confidence |
| CongressApi.UrlMatchAt | src/congress_api.py:63 | a match of the pattern captures a non-empty digit congress, a non-empty slug without `/`, and a non-empty digit number |
| CongressApi.CongressPart | src/congress_api.py:63 | a match of the part from the congress on is well-formed |
| CongressApi.SlugPart | src/congress_api.py:63 | a match of the slug and number after the congress is well-formed and keeps the congress |
| CongressApi.UrlSearch | src/congress_api.py:63-64 | what the search reports is a well-formed match |
| CongressApi.UrlSearchLeftmost | src/congress_api.py:64 | the search reports the match at the leftmost start that matches |
| CongressApi.UrlSearchNone | src/congress_api.py:64-67 | a search that finds nothing matches at no start |
| CongressApi.ApiBillTypeExact | src/congress_api.py:74-85 | the map accepts exactly the eight web slugs, sends each to a non-empty code, and no two slugs to the same code |
| CongressApi.ApiBillType | src/congress_api.py:74-85 | defines `bill_type_map.get`: the eight web slugs and their API codes, `None` for any other text; ApiBillTypeExact states which slugs it knows |
| CongressApi.WebSlug | src/congress_api.py:74-83 | defines the map read backwards, an independent partner of the map; ApiBillTypeExact and WebSlugInverse state that the two are inverse |
| CongressApi.WebSlugInverse | src/congress_api.py:74-85 | the slug of a code maps back to that code |
| CongressApi.WebSlugsCount | src/congress_api.py:74-83 | there are exactly eight accepted slugs |
| CongressApi.ParseCongressUrl | src/congress_api.py:57-93 | the parse succeeds exactly when the search matches and the slug is one of the eight; then it gives the matched congress and number digits and the slug's API code; no match raises `Invalid Congress.gov URL format`, and an unknown slug raises `Unknown bill type` naming the slug |
| CongressApi.SlugPartOfAddress | src/congress_api.py:63 | the slug-and-number part of an address matches with the address's own groups |
| CongressApi.CongressPartOfAddress | src/congress_api.py:63 | the ordinal suffix `st`/`nd`/`rd`/`th` and `-congress/` are consumed, whatever the suffix |
| CongressApi.UrlMatchOfAddress | src/congress_api.py:63 | the pattern matches a well-formed address at `congress.gov/bill/` |
| CongressApi.NoMatchAt | src/congress_api.py:63 | no match starts at a character other than `c` |
| CongressApi.SearchPastNonC | src/congress_api.py:64 | the search skips a leading character other than `c` |
| CongressApi.UrlSearchSkips | src/congress_api.py:64 | no match starts inside a prefix without `c`, such as `https://www.` |
| CongressApi.UrlSearchOfAddress | src/congress_api.py:63-64 | the search finds a well-formed web address's own groups |
| CongressApi.NoSlashOf | src/congress_api.py:63 | a string without `/` satisfies the slug group's character class |
| CongressApi.WebSlugsNoSlash | src/congress_api.py:74-83 | none of the eight slugs is empty or holds a `/` |
| CongressApi.ParseCongressGovUrl | src/congress_api.py:57-93 | parsing a bill's web address with an accepted slug recovers its congress, its API code and its number, whatever the ordinal suffix |
| CongressApi.ParseCongressGovUrlUnknown | src/congress_api.py:85-87 | a web address with any other slug raises `Unknown bill type` naming that slug |
| CongressApi.Names | src/congress_api.py:117-131 | the collected names are truthy and no more than the items |
| CongressApi.NamesOk | src/congress_api.py:117-120 | names are collected exactly when every item is an object (`.get` on anything else raises) |
| CongressApi.NamesAllNamed | src/congress_api.py:117-120 | objects that all have a truthy name give all their names, in order |
| CongressApi.NamesErrStays | src/congress_api.py:117-120 | a failure partway through the list is the failure of the whole loop |
| CongressApi.CollectNames | src/congress_api.py:117-120 | the appending loop computes the names |
| CongressApi.Committees | src/congress_api.py:108-120 | committees come only from the list form of `committees`; the object-with-`url` form and every other form give none |
| CongressApi.ExtractCommittees | src/congress_api.py:108-120 | the loop computes the committees |
| CongressApi.Subjects | src/congress_api.py:122-131 | a bill without `subjects`, or with `subjects` that is not an object, has no subjects |
| CongressApi.SubjectsOfList | src/congress_api.py:124-131 | a list under `subjects.legislativeSubjects.items` gives its names |
| CongressApi.ExtractSubjects | src/congress_api.py:122-131 | the loop computes the subjects |
| CongressApi.Sponsor | src/congress_api.py:133-137 | the sponsor is the first sponsor's `fullName`, or `""` without a non-empty sponsor list; a first sponsor that is not an object raises |
| CongressApi.FirstOfTypeAt | src/congress_api.py:144-147 | the scan gives the field of the first item whose type is accepted (the format scan at lines 209-213 has the same shape) |
| CongressApi.FirstOfType | src/congress_api.py:144-147 | defines the search loop: the field of the first item whose type is accepted, `None` when none is, an error at the first item that is not an object; FirstOfTypeAt and FirstOfTypeNone state it (the same loop is at lines 209-213) |
| CongressApi.FirstOfTypeNone | src/congress_api.py:144-147 | objects none of which has an accepted type give nothing (the format scan at lines 209-213 has the same shape) |
| CongressApi.FindFirstOfType | src/congress_api.py:144-147 | the loop with its `break` computes the first accepted item's field (the format scan at lines 209-213 has the same shape) |
| CongressApi.Title | src/congress_api.py:139-150 | the title is the `title` member; else, from a non-empty `titles` list, the chosen entry's title; else `""` |
| CongressApi.TitleOfficialWins | src/congress_api.py:144-147 | a truthy title of the first `Official Title as Introduced` entry wins |
| CongressApi.TitleAmong | src/congress_api.py:143-150 | defines the title among the `titles` entries: the first official title when it is truthy, else the first entry's `title`; TitleOfficialWins and TitleFirstEntry state both cases |
| CongressApi.TitleFirstEntry | src/congress_api.py:148-150 | without an official title, the first entry's title is used |
| CongressApi.ChooseTitle | src/congress_api.py:139-150 | the loop computes the title |
| CongressApi.BillMetadataOf | src/congress_api.py:95-170 | an address that does not parse raises the parse's error; a returned record carries the parsed congress, code and number and the address itself |
| CongressApi.BillMetadataFields | src/congress_api.py:106-163 | a returned record holds exactly the committees, subjects, sponsor and title chosen from the reply's `bill` object |
| CongressApi.GetBillMetadata | src/congress_api.py:95-170 | the method computes that record |
| CongressApi.ListOrItems | src/congress_api.py:185-205 | a member that is a list is taken whole, an object's `items` is taken, anything else gives an empty list |
| CongressApi.TextUrl | src/congress_api.py:184-217 | an address chosen for download is never empty |
| CongressApi.TextUrlNoVersions | src/congress_api.py:192-194 | without text versions there is nothing to download |
| CongressApi.TextUrlFirstFormat | src/congress_api.py:196-213 | the address is that of the first format of the first version whose type is `Formatted Text`, `PDF` or `HTML` |
| CongressApi.TextUrlNoFormat | src/congress_api.py:207-217 | a first version without any of the three formats gives nothing to download |
| CongressApi.BillTextOf | src/congress_api.py:172-240 | an address that does not parse raises the parse's error |
| CongressApi.GetBillText | src/congress_api.py:172-240 | the method computes the bill text: the download at the chosen address, or `""` |
| CongressApi.PutIf | src/congress_api.py:265-272 | a conditional assignment sets its key only when made, leaving other keys alone |
| CongressApi.ListParamsGet | src/congress_api.py:259-272 | each key of the query parameters takes the value of its last assignment |
| CongressApi.ListParams | src/congress_api.py:259-272 | defines the query parameters: the four fixed ones, then each truthy filter in the order of the source; ListParamsGet, ListParamsFixed and ListParamsFilters state them |
| CongressApi.PutChainGet | src/congress_api.py:265-272 | four conditional assignments read back by key |
| CongressApi.ListParamsBaseGet | src/congress_api.py:259-264 | the fixed parameters hold no filter key |
| CongressApi.ListParamsBaseFixed | src/congress_api.py:259-264 | the fixed parameters are `limit`, `offset`, `sort` and `format=json` |
| CongressApi.ListParamsFilters | src/congress_api.py:265-272 | each filter is sent exactly when it is truthy, with its own value |
| CongressApi.ListParamsFixed | src/congress_api.py:259-264 | the four fixed parameters are always sent |
| CongressApi.Bills | src/congress_api.py:277-289 | the bills are read exactly when the reply is an object |
| CongressApi.BillsPrecedence | src/congress_api.py:277-289 | `bills` if it is a list (the empty default when missing), else the reply's `items` list, else the `items` list of a `bills` object, else `[]` |
| CongressApi.BillList | src/congress_api.py:242-296 | after a successful request, the list is read exactly when the reply is an object |
| CongressApi.MetadataDictGet | src/congress_api.py:11-21 | the record as a dictionary gives back its congress, type, title, sponsor and introduction date under their Python names |
| CongressApi.MetadataDict | src/congress_api.py:11-21 | defines `metadata.__dict__`: the nine fields under their Python names in declaration order; MetadataDictGet states each lookup |
| CongressApi.DescriptionLookups | src/congress_api.py:16-18 | the record as a dictionary gives back the title, sponsor and introduction date |
| CongressApi.IdKeys | src/congress_api.py:13-15 | the identifier fields hold none of the description keys |
| CongressApi.DescriptionGet | src/congress_api.py:16-21 | the description fields are found in the rest of the record |
| BillScraper.SchemeLen | src/bill_scraper.py:110 | the scheme prefix `urlparse` recognises never runs past the address |
| BillScraper.PathParts | src/bill_scraper.py:111 | splitting the stripped path always gives at least one segment |
| BillScraper.RemoveUnsafe | src/bill_scraper.py:110 | deleting tabs, carriage returns and line feeds leaves none of them and never lengthens the address |
| BillScraper.Split | src/bill_scraper.py:110 | defines `urlsplit`: clean-up, lower-cased scheme, network location after `//` up to `/`, `?` or `#`, and the path up to `?` or `#`; SplitOfHttps and ParamsCut state what it gives |
| BillScraper.ParamsFrom | src/bill_scraper.py:110 | the search for `;` parameters starts at the last `/` of the path, or at 0 when it has none |
| BillScraper.CutParams | src/bill_scraper.py:110 | the path without its parameters is a prefix of the path that is either all of it or stops at a `;`, with no `;` between the last `/` and its end |
| BillScraper.UrlPath | src/bill_scraper.py:110 | defines the path `urlparse` reports: the `urlsplit` path, cut at the parameters for the schemes that take them; UrlPathOfHttps, ParamsCut and UrlPathOfAddress state what it gives |
| BillScraper.RemoveUnsafeNone | src/bill_scraper.py:110 | text without tabs or line breaks is unchanged by their deletion |
| BillScraper.CleanedPlain | src/bill_scraper.py:110 | an address that starts with a visible character and holds no tab or line break is unchanged by the clean-up |
| BillScraper.LowerHttps | src/bill_scraper.py:110 | lower-casing `https` gives `https` |
| BillScraper.SplitOfHttps | src/bill_scraper.py:110 | `https://host/path` splits into the scheme `https`, the host and the path when neither holds a tab or line break, the host holds no `/`, `?` or `#` and the path no `?` or `#` |
| BillScraper.AfterSchemeOfHost | src/bill_scraper.py:110 | after `//` the host runs to the first `/` and the path runs to the end |
| BillScraper.CutParamsNone | src/bill_scraper.py:110 | a path without `;` keeps all of itself |
| BillScraper.CutParamsAfter | src/bill_scraper.py:110 | `;` parameters after the last `/` are cut off exactly, leaving the path before them |
| BillScraper.ParamsCut | src/bill_scraper.py:110 | for `https://host/path;params` the network location is the host and the path is `/path` |
| BillScraper.InPathWholeConcat | src/bill_scraper.py:110 | text with no `?`, `#`, `;`, tab or line break keeps that under concatenation |
| BillScraper.PlainCharsWhole | src/bill_scraper.py:110 | lower-case letters, `-` and `/` hold none of `?`, `#`, `;`, tab or line break |
| BillScraper.HostPlain | src/bill_scraper.py:109-110 | `www.congress.gov` holds no `/`, `?`, `#`, tab, line break or bracket |
| BillScraper.CongressFirst | src/bill_scraper.py:113-116 | `<n>-congress` ends in `-congress` and its part before the first `-` is `<n>` when `<n>` holds no `-` |
| BillScraper.FirstSegment | src/bill_scraper.py:111 | the `<congress><suffix>-congress` segment holds no `/` |
| BillScraper.TailSegments | src/bill_scraper.py:111 | the tail of a bill address is its congress segment, slug and number joined by `/` |
| BillScraper.SamePathParts | src/bill_scraper.py:111 | the path segments depend on the path alone |
| BillScraper.AddressParams | src/bill_scraper.py:110 | appending `;` parameters to a bill's web address changes neither its network location nor its path |
| BillScraper.ParseFixedOfParts | src/bill_scraper.py:107-124 | on the host `www.congress.gov` with the segments `bill`, `<n>-congress`, slug and number, the corrected parser returns `<n>`, the slug and the number |
| BillScraper.ParseCongressUrlFixedParams | src/bill_scraper.py:107-124 | a bill's web address with `;` parameters after the number parses to the same congress, slug and number |
| BillScraper.ParseCongressUrl | src/bill_scraper.py:107-124 | as written: an address whose network location has an unpaired `[` or `]` raises `ValueError: Invalid IPv6 URL`; otherwise the parse succeeds exactly when there are four segments and the first ends in `-congress`; the congress is the first segment up to its first `-`, and the type and number are the third and fourth segments verbatim; otherwise it raises the fixed `ValueError` |
| BillScraper.ParseCongressUrlFixed | src/bill_scraper.py:107-124 | the corrected parse checks and reads the segment after `bill` instead, the same in every other respect, the bracket error included |
| BillScraper.DigitsPlain | src/bill_scraper.py:110-116 | digit strings hold none of `/`, `?`, `#`, `-`, `;`, tab or line break |
| BillScraper.TailInPath | src/bill_scraper.py:110 | the `/bill/...` part of a bill address holds no `?`, `#`, `;`, tab or line break |
| BillScraper.UrlPathOfHttps | src/bill_scraper.py:110 | the path of `https://host/path` is `/path` when the path holds no `?`, `#` or `;` and neither part holds a tab or line break |
| BillScraper.HttpsScheme | src/bill_scraper.py:110 | `https:` is read as the scheme |
| BillScraper.HostRun | src/bill_scraper.py:110 | the host runs up to the first `/` |
| BillScraper.PathRun | src/bill_scraper.py:110 | a path without `?` or `#` runs to the end |
| BillScraper.AddressSplit | src/bill_scraper.py:109-110 | a bill's web address is `https://`, the host `www.congress.gov`, then `/bill/` and its tail |
| BillScraper.AddressLead | src/bill_scraper.py:109 | the fixed lead of a bill's web address is the scheme, the host and `/bill/` |
| BillScraper.UrlPathOfAddress | src/bill_scraper.py:110 | a bill's web address has the network location `www.congress.gov` and the path `/bill/<congress><suffix>-congress/<slug>/<number>` |
| BillScraper.StripLeadingSlash | src/bill_scraper.py:111 | stripping `/` removes exactly a leading slash from a text that does not end in one |
| BillScraper.StrippedBillPath | src/bill_scraper.py:111 | the stripped path of a bill is `bill/` and its tail |
| BillScraper.StrippedPathOfAddress | src/bill_scraper.py:111 | the stripped path of a bill's web address is `bill/<congress><suffix>-congress/<slug>/<number>` |
| BillScraper.PathPartsOfAddress | src/bill_scraper.py:111 | a bill's web address has the four segments `bill`, `<congress><suffix>-congress`, the slug and the number |
| BillScraper.SplitBillPath | src/bill_scraper.py:111 | splitting `bill/a/b/c` at `/` gives the four segments |
| BillScraper.DocExampleRejected | src/bill_scraper.py:109-114 | the parser as written refuses the address its own comment gives as the example |
| BillScraper.ParseCongressUrlFixedOfAddress | src/bill_scraper.py:107-124 | the corrected parser reads every bill's web address back: the congress with its ordinal suffix, the slug and the number |
| BillScraper.CongressSegments | src/bill_scraper.py:69-71 | `119th-congress` and `118th-congress` differ only in their third character |
| BillScraper.RewriteUrl | src/bill_scraper.py:69-71 | defines the rewrite: each `119th-congress` becomes `118th-congress` when there is one; the lemmas below state that it is the plain replacement, keeps the length, leaves no `119th-congress` and is idempotent |
| BillScraper.RewriteUrlIsReplace | src/bill_scraper.py:69-71 | the `in` guard is redundant: the rewrite is the plain replacement, which leaves other addresses unchanged |
| BillScraper.RewriteUrlLength | src/bill_scraper.py:71 | the rewrite keeps the address's length |
| BillScraper.ReplacedNotStartsOld | src/bill_scraper.py:71 | a replaced address never starts with `119th-congress` |
| BillScraper.NewNotShifted | src/bill_scraper.py:71 | `118th-congress` does not show `119th-congress` shifted by one place |
| BillScraper.ReplacedNoOld | src/bill_scraper.py:71 | after the replacement no `119th-congress` is left anywhere |
| BillScraper.NewAhead | src/bill_scraper.py:71 | `118th-congress` in front of text without `119th-congress` creates none |
| BillScraper.RewriteUrlNoOld | src/bill_scraper.py:69-71 | after the rewrite no `119th-congress` is left |
| BillScraper.RewriteUrlIdempotent | src/bill_scraper.py:69-71 | rewriting twice is rewriting once |
| GradioApp.SizeBands | src/app.py:209-222 | each size category is exactly one band of word counts: below 500, 500 to 1099, 1100 to 4999, 5000 to 24999, 25000 and up |
| GradioApp.SizeRank | src/app.py:213-222 | a category's rank is the number of the bounds 500, 1100, 5000 and 25000 its word count has reached |
| GradioApp.SizeOf | src/app.py:213-222 | defines the category of a word count by the four thresholds; SizeBands, SizeMonotone and SizeRank state its bands and order |
| GradioApp.WordCount | src/app.py:210 | defines `len(bill_text.split())` as the number of whitespace-separated words |
| GradioApp.ReachedMonotone | src/app.py:213-222 | a larger word count reaches at least as many bounds |
| GradioApp.SizeMonotone | src/app.py:213-222 | more words never give a smaller category |
| GradioApp.LabelInjective | src/app.py:214-222 | distinct categories are shown with distinct labels |
| GradioApp.BillId | src/app.py:157 | the bill id is the three parts and two separators |
| GradioApp.BillIdSplit | src/app.py:157 | an id of parts without `-` splits back into its three parts |
| GradioApp.ApiCodePlain | src/app.py:157 | no API bill-type code holds a `-` |
| GradioApp.BillIdOfParsed | src/app.py:157 | the id of a parsed bill splits back into its congress, code and number |
| GradioApp.BillIdInjective | src/app.py:157 | two parsed bills share an id only when they are the same bill |
| GradioApp.Stages | src/app.py:124-228 | the analysis succeeds exactly when metadata, text and summary all succeed; the first failing stage's message is wrapped as `Failed to ...` and framed as the error text; a success carries the summary, the ideology score and confidence (0.0 and 50.0 when scoring fails) and the word count's category |
| GradioApp.AnalyzeOutcome | src/app.py:118-252 | as written, a failed stage gives the four-item tuple and only then |
| GradioApp.AnalyzeOutcomeFixed | src/app.py:247-252 | the corrected analysis always gives a five-item tuple |
| GradioApp.IdeologyFailureKeepsSize | src/app.py:188-207 | a failed ideology score changes only the score and confidence (to 0.0 and 50.0); summary, word count and size are kept |
| GradioApp.SummaryFieldsPresent | src/app.py:158-177 | the metadata dictionary always holds the fields the summary prompt reads, so the summary never fails on a missing key |
| GradioApp.Displayed | src/app.py:341-355 | a five-item tuple is shown with an empty section list; a four-item tuple fails to unpack and the page shows that error |
| GradioApp.FailureMessageLost | src/app.py:346-355 | as written, every stage failure shows the same `not enough values to unpack (expected 5, got 4)` error (the 4-tuple is returned at lines 247-252) |
| GradioApp.UnpackErrorFour | src/app.py:346 | the unpacking error of a four-item tuple is `not enough values to unpack (expected 5, got 4)` |
| GradioApp.BadAddressLost | src/app.py:346-355 | an address that does not parse, which fails at lines 126-131, is one such lost failure |
| GradioApp.FixedFailureShown | src/app.py:341-355 | with the corrected tuple, a failure shows its stage's message and the `Error` size, and a success is shown unchanged |
| GradioApp.ChatHistory.constructor | src/app.py:254 | the history holds the given turns |
| GradioApp.App.constructor | src/app.py:113-116 | no current bill, no metadata, no sections |
| GradioApp.App.AnalyzeBill | src/app.py:118-252 | returns the outcome above; once metadata and text are in, the sections, bill id and metadata become current and the store gains the bill's metadata and the chunks it did not hold, whatever later stages do; an earlier failure changes nothing |
| GradioApp.App.OnAnalyzeClick | src/app.py:341-355 | the click shows the analysis outcome as displayed above |
| GradioApp.App.Answer | src/app.py:256-271 | the reply is the refusal without a current bill, the error reply when the query raises, and otherwise the store's answer from the five nearest chunks (`on_question_click` repeats this at lines 379-392) |
| GradioApp.App.Query | src/app.py:263 | the answer is the store's answer for the current bill (and at line 384) |
| GradioApp.App.HandleQuestion | src/app.py:254-271 | exactly one (question, reply) pair is appended, earlier turns are kept, and the input is cleared |
| GradioApp.App.OnQuestionClick | src/app.py:376-399 | the same protocol with the click's own error reply; a suggestion goes through it as the question |
| GradioApp.App.OnGenerateSectionsClick | src/app.py:357-374 | one error entry without a current bill, without sections, or when the breakdown raises, each with its message; the breakdown of the current sections otherwise, and only then |
| StreamlitApp.SizeBands | src/streamlit_app.py:157-163 | each category is exactly one band: below 5000 words Short, 5000 to 19999 Medium, 20000 and up Long |
| StreamlitApp.SizeMonotone | src/streamlit_app.py:158-163 | more words never give a smaller category |
| StreamlitApp.CategoriesAgree | src/streamlit_app.py:158-163 | a bill is Short here exactly when the Gradio front end calls it Small, Medium-Small or Medium |
| StreamlitApp.SizeOf | src/streamlit_app.py:157-163 | defines the category of a word count by the two thresholds; SizeBands, SizeMonotone and CategoriesAgree state its bands, order and relation to the Gradio categories |
| StreamlitApp.ErrorKeyExact | src/streamlit_app.py:165-176 | the `"error" not in analysis_data` test tells failures from successes, and a failure holds only the `error` key (tested at lines 237 and 269) |
| StreamlitApp.PerformBillAnalysis | src/streamlit_app.py:121-182 | a metadata failure or any later exception gives the unexpected-error message; a record without `url` and an empty text each get their own message; a success holds the `-`-joined bill id, the word count and its category, the metadata dictionary, the summary, the ideology score and confidence, the text and its processed sections and chunks, and happens exactly when every call succeeds and the text is non-empty |
| StreamlitApp.EmptyTextRefused | src/streamlit_app.py:137-139 | an empty text is refused with `Failed to retrieve bill text (text is empty).` |
| StreamlitApp.AgreesWithGradio | src/streamlit_app.py:133-157 | when this analysis succeeds, the Gradio analysis succeeds too with the same summary, score, confidence and word count |
| StreamlitApp.FinalAnswer | src/streamlit_app.py:351-362 | the answer that replaces the placeholder is never empty, and is the store's answer whenever that is non-empty and the query did not raise |
| StreamlitApp.Session.constructor | src/streamlit_app.py:190-203 | no results, no sections, an empty history and no current bill |
| StreamlitApp.Session.AnalyzeClicked | src/streamlit_app.py:223-274 | an empty address changes nothing; otherwise results, sections, history and bill are cleared, a successful analysis becomes current and its chunks are stored, and the store's bill-level metadata is left alone |
| StreamlitApp.Session.Query | src/streamlit_app.py:351 | the answer is the store's answer for the current bill |
| StreamlitApp.Session.AskQuestion | src/streamlit_app.py:327-363 | without a current bill or with an empty question the history is unchanged; otherwise exactly one entry is appended with its final answer, and nothing else in the session changes |
| StreamlitApp.Session.Ask | src/streamlit_app.py:338-362 | the placeholder is appended and then answered: the history gains one entry holding the answer for the state before the question, and nothing else changes |
| StreamlitApp.Session.Reply | src/streamlit_app.py:338-362 | the text shown for a question is its error message when it raised one, otherwise the final answer of the store for the current bill |
| StreamlitApp.Session.Record | src/streamlit_app.py:338-362 | appending the placeholder and then replacing it adds exactly one answered entry to the history |
| StreamlitApp.ReplaceLast | src/streamlit_app.py:338-362 | replacing the last entry right after appending a placeholder is appending the answer; earlier entries stay |
| StreamlitApp.Link | src/streamlit_app.py:420-442 | the link fails with `AttributeError` exactly when all three fields are truthy and the type is not a string; with a falsy field there is no link |
| StreamlitApp.LinkLeadParts | src/streamlit_app.py:441 | the link's lead and `th-congress/` are the web address's own parts |
| StreamlitApp.LinkIsAddress | src/streamlit_app.py:441 | the link has the shape of a congress.gov web address with suffix `th` and slug `<type>-bill` |
| StreamlitApp.CodeEnd | src/streamlit_app.py:441 | every API type code ends in `r` or `s` and holds no `/` |
| StreamlitApp.WebSlugEnds | src/streamlit_app.py:441 | a web slug ending in `l` has an `e` six places from its end |
| StreamlitApp.CodeSlugUnknown | src/streamlit_app.py:441 | an API code followed by `-bill` is never one of the eight web slugs |
| StreamlitApp.LinkNotParsed | src/streamlit_app.py:420-442 | the link of a listed bill whose type is an API code is refused by the web address parser with `Unknown bill type` naming `<code>-bill` |
| StreamlitApp.LinkOf | src/streamlit_app.py:420-442 | a bill with three non-empty string fields gets the link built from them |
| StreamlitApp.LinkFixed | src/streamlit_app.py:440-442 | the corrected link fails and is absent exactly where the link as written does |
| StreamlitApp.LinkFixedOf | src/streamlit_app.py:440-442 | a bill with three non-empty string fields and an API-code type gets the link with that code's web slug |
| StreamlitApp.LinkFixedIsAddress | src/streamlit_app.py:441 | the corrected link is a congress.gov web address with suffix `th` |
| StreamlitApp.LinkFixedParsed | src/streamlit_app.py:420-442 | the corrected link of a listed bill with an API-code type parses back to its congress, its lower-case code and its number |
| PyValue.ReprQuote | src/qa_system.py:49-52 | `repr` quotes a string with `"` exactly when it holds a `'` and no `"`, otherwise with `'` |
| PyValue.HexDigit | src/qa_system.py:49-52 | a digit of a `\x` escape is `0`-`9` or a lower-case `a`-`f` |
| PyValue.HexRoundTrip | src/qa_system.py:49-52 | reading a written hex digit back gives its value |
| PyValue.ReprChar | src/qa_system.py:49-52 | a character is written either as itself or as an escape that starts with a backslash: the quote and the backslash escaped, tab and line breaks by name, the other controls, `DEL`, the C1 controls, the no-break space and the soft hyphen as `\xhh` |
| PyValue.ReprBodyLength | src/qa_system.py:49-52 | escaping never shortens the text |
| PyValue.ReprStr | src/qa_system.py:49-52 | `repr` of a string is at least two characters longer than it and starts and ends with the chosen quote |
| PyValue.ReadBackChar | src/qa_system.py:49-52 | each written character reads back as itself, whatever follows |
| PyValue.ReadBackRepr | src/qa_system.py:49-52 | the escaped text of a string reads back as the string |
| PyValue.ReprStrRoundTrip | src/qa_system.py:49-52 | the text between the quotes of `repr(s)` reads back as `s`, so `repr` loses nothing |
| PyValue.PlainBody | src/qa_system.py:49-52 | printable ASCII without `'` or backslash is its own escaped text |
| PyValue.ReprStrPlain | src/qa_system.py:49-52 | printable ASCII without `'` or backslash is shown as itself between single quotes |

## Left out

- HTTP and scraping are not modelled. This covers `requests` sessions, retries, delays, cookies, User-Agent rotation and the BeautifulSoup page extraction (`scrape_bill_metadata`, `get_bill_text_url`, `scrape_bill_text`, the request half of `_make_request`). The API request and the text download are function parameters.
- The completion and embedding calls are not modelled. The question answering completion is a function from the worded prompt (`QaSystem.PromptText`) to the reply's content. The analyzer's completion is a function from a structured prompt (`AiAnalyzer.Prompt`) that keeps just the fields the prompt inserts; the wording of those prompts is not written out. `vectorize_text` and the embeddings step of `process_bill` are left out.
- ChromaDB's client, collection setup and persistence are not modelled. The collection is a sequence of entries and the cosine ranking is a distance parameter. Ties keep insertion order.
- QaSystem.QASystem.StoreBillChunks: an `add` of an id already in the collection is modelled as ignored, which is how the store treats a duplicate id; the library's own code is not part of this model.
- `_chunk_text` in `src/ai_analyzer.py` only wraps `textwrap.wrap` and nothing calls it, so it is not modelled.
- Layout and tooling code is not modelled: the Gradio and Streamlit page layout, the Plotly gauges, logging, environment loading and the `validate_handler_output` decorator. The decorator only logs and returns the handler's result unchanged.
- `on_suggestion_click` has no member of its own. It only passes the suggestion to `on_question_click`, which `GradioApp.App.OnQuestionClick` models.
- Scores and confidences are exact reals parsed from decimal numerals, not IEEE floats.
- `\d` and `\w` are restricted to ASCII, and case folding (`re.IGNORECASE`, `str.lower()`) applies to ASCII letters only. `\s` is the full `str.isspace()` set.
- `str(e)` of a caught exception is modelled as the message carried by the `Err`. The exception class names that Python would show are the fixed strings `ValueError`, `KeyError`, `TypeError` and `AttributeError`.
- BillScraper.ParseCongressUrl and BillScraper.ParseCongressUrlFixed: `urlparse` is modelled up to the path: the removal of leading controls and spaces and of tabs and line breaks, the scheme, the network location with its unpaired-bracket error, the query, the fragment and the `;` parameters. The validation of a bracketed IPv6 host and the NFKC check of a non-ASCII network location are not modelled, so the model accepts such addresses where Python raises `ValueError`.
- PyValue.ReprChar: characters above U+00FF are shown as themselves. Python escapes the non-printable ones among them (separators other than the space, format and private-use characters, unassigned code points) as `\uXXXX` or `\UXXXXXXXX`; the Unicode tables that decide this are not modelled.
- PyValue.Repr: the text `repr` shows for a float is carried by the value (`Float(f, text)`) rather than computed; the shortest round-trip formatting of doubles is not modelled.
- AiAnalyzer.ScorePoliticalIdeology: the `bill_metadata` argument is unused by the source and is dropped.
- The exception paths of `process_bill` and of storing chunks cannot be reached in the model, because the modelled operations are total. The `except` branch of the reply parser is reached only by a reply without content.
- StreamlitApp.PerformBillAnalysis: the `if not summary_analysis` check is left out, because the dictionary it tests always has two entries. The `not bill_metadata_obj` test is always false for a record and only the `url` test remains.
- StreamlitApp.Session.AnalyzeClicked: the guard before storing chunks always holds for a successful analysis, so the `else` warning path is not modelled.
- StreamlitApp.Session.Ask: the query runs before the placeholder is appended rather than after. The query reads only the store, so the resulting history is the same.
- `get_bill_list` is modelled only in its selection logic (`CongressApi.BillList`). The Streamlit list form that calls it is layout.

## Findings

| source | as written | input that shows it | evidently intended | confidence | as-written member | corrected member |
|---|---|---|---|---|---|---|
| src/bill_scraper.py:109-114 | `parse_congress_url` checks and reads segment 0 of the stripped path, which is `bill` for a congress.gov bill address, so such an address is refused | `https://www.congress.gov/bill/118th-congress/house-bill/1234`, the example in its own comment | check and read segment 1, `118th-congress` | high; not executed | BillScraper.DocExampleRejected | BillScraper.ParseCongressUrlFixedOfAddress |
| src/app.py:346-355 | on failure, `analyze_bill` returns a 4-tuple (lines 247-252), which `on_analyze_click` unpacks into five names; the unpacking error replaces the stage's own message | an address that does not parse, such as `https://example.com/` | a 5-tuple error result that shows the stage's message | high; not executed | GradioApp.FailureMessageLost | GradioApp.FixedFailureShown |
| src/streamlit_app.py:441 | the link of a listed bill uses the slug `<type>-bill`, which is not one of congress.gov's eight slugs | a bill with `congress` `118`, `type` `HR` and `number` `1` gives `https://www.congress.gov/bill/118th-congress/hr-bill/1` | use the type's web slug, here `house-bill` | medium; not executed | StreamlitApp.LinkNotParsed | StreamlitApp.LinkFixedParsed |
