/**
 * The research orchestrator: look the question up in the knowledge store, let
 * the model judge whether what was found answers it, and otherwise search the
 * web, browse and summarise the new pages, and turn them into a rendered
 * research report. The only state is the set of addresses already browsed.
 *
 * The knowledge store, the search engine, the browser and the language model
 * are the agent's collaborators; they enter as the functions of a `World`.
 */
module Agent {
  import opened Wrappers
  import opened Strings
  import opened Json
  import opened Schema
  import Llama
  import Prompts
  import WebScrape
  import TextProcessing

  /** The agent's collaborators, as functions of what they are asked. */
  datatype World = World(
    // the "documents" entry of the knowledge store's answer to a question
    documents: string -> seq<seq<string>>,
    // the "href" of each search result for a query, in result order
    search: string -> seq<Option<string>>,
    // the elements of the page the browser loads for an address
    page: string -> seq<WebScrape.Element>,
    // `summarize_text(question, text)`: the article summary, or the error that escapes it
    summarize: (string, string) -> Result<ArticleSummary, CallError>,
    // the model's reply to each of the agent's own calls
    complete: TextProcessing.Prompt -> Llama.Completion,
    // `json.loads`
    parse: string -> Option<Json>,
    // the schema documentation generated for each record
    searchQueriesDoc: string,
    relevanceDoc: string,
    reportDoc: string)

  // ---------------------------------------------------------------------------
  // Structured model calls

  const SearchQueriesSystemFrame: Prompts.Frame := Prompts.Frame(
    "You are an advanced AI research assistant, tasked with creating search queries in JSON format to find information on a given prompt. The following is the expected output:\n\n",
    "")

  function SearchQueriesCall(question: string, numQueries: int, documentation: string): TextProcessing.Prompt
  {
    TextProcessing.Prompt(SearchQueriesSystemFrame.Fill(documentation),
                          Prompts.GenerateSearchQueriesPrompt(question, numQueries))
  }

  /**
   * `generate_search_queries(question, num_queries)`: queries only from a reply
   * that decodes and fits the record; the reply's exception escapes unchanged.
   */
  function GenerateSearchQueries(question: string, numQueries: int, w: World): (r: Result<SearchQueries, CallError>)
    ensures var reply := w.complete(SearchQueriesCall(question, numQueries, w.searchQueriesDoc));
      (r.Success? <==> reply.Completed? && w.parse(reply.content).Some?
                       && ValidateSearchQueries(w.parse(reply.content).value).Some?)
      && (reply.Raised? ==> r == Failure(Exception(reply.message)))
  {
    FromCompletion(w.complete(SearchQueriesCall(question, numQueries, w.searchQueriesDoc)), w.parse,
                   ValidateSearchQueries)
  }

  /** The search-queries call carries the schema documentation, the number of queries and the question. */
  lemma SearchQueriesCallReadsBack(question: string, numQueries: int, documentation: string)
    ensures var call := SearchQueriesCall(question, numQueries, documentation);
      SearchQueriesSystemFrame.Unfill(call.system) == Some(documentation)
      && var u := Prompts.SearchQueriesTemplate.Unfill(call.user);
      u.Some? && ParseInt(u.value.0) == Some(numQueries) && u.value.1 == question
  {
    Prompts.FrameRoundTrip(SearchQueriesSystemFrame, documentation);
    Prompts.GenerateSearchQueriesPromptReadsBack(question, numQueries);
  }

  const RelevanceSystemFrame: Prompts.Frame := Prompts.Frame(
    "You are an advanced AI research assistant, tasked with determining whether the information provided is relevant to the query. The following is the expected output:\n\n",
    "")

  function RelevanceCall(question: string, text: string, documentation: string): TextProcessing.Prompt
  {
    TextProcessing.Prompt(RelevanceSystemFrame.Fill(documentation), Prompts.CheckRelevancePrompt(question, text))
  }

  /** `check_relevance(question, text)`: the model's verdict on whether `text` answers the question. */
  function CheckRelevance(question: string, text: string, w: World): (r: Result<Schema.CheckRelevance, CallError>)
    ensures var reply := w.complete(RelevanceCall(question, text, w.relevanceDoc));
      (r.Success? <==> reply.Completed? && w.parse(reply.content).Some?
                       && ValidateCheckRelevance(w.parse(reply.content).value).Some?)
      && (reply.Completed? && w.parse(reply.content).None? ==> r == Failure(JsonDecodeError))
      && (reply.Raised? ==> r == Failure(Exception(reply.message)))
  {
    FromCompletion(w.complete(RelevanceCall(question, text, w.relevanceDoc)), w.parse, ValidateCheckRelevance)
  }

  function ReportCall(queries: seq<string>, researchInfo: string, documentation: string): TextProcessing.Prompt
  {
    TextProcessing.Prompt(Prompts.GenerateReportPrompt(documentation),
                          Prompts.ResearchReportPrompt(queries, researchInfo))
  }

  /** `generate_report(queries, research_info)`: a report only from a reply that decodes and fits the record. */
  function GenerateReport(queries: seq<string>, researchInfo: string, w: World): (r: Result<ResearchReport, CallError>)
    ensures var reply := w.complete(ReportCall(queries, researchInfo, w.reportDoc));
      (r.Success? <==> reply.Completed? && w.parse(reply.content).Some?
                       && ValidateResearchReport(w.parse(reply.content).value).Some?)
      && (r.Success? ==> r.value == ValidateResearchReport(w.parse(reply.content).value).value)
      && (reply.Raised? ==> r == Failure(Exception(reply.message)))
  {
    FromCompletion(w.complete(ReportCall(queries, researchInfo, w.reportDoc)), w.parse, ValidateResearchReport)
  }

  /** The report call carries the documentation, the rendered query list and the information, all recoverable. */
  lemma ReportCallReadsBack(queries: seq<string>, researchInfo: string, documentation: string)
    ensures var call := ReportCall(queries, researchInfo, documentation);
      Prompts.GenerateReportFrame.Unfill(call.system) == Some(documentation)
      && Prompts.ResearchReportTemplate.Unfill(call.user) == Some((ListRepr(queries), researchInfo))
  {
    Prompts.GenerateReportPromptReadsBack(documentation);
    Prompts.ResearchReportPromptReadsBack(queries, researchInfo);
  }

  // ---------------------------------------------------------------------------
  // query_db and process_db_results

  /** `query_db`: nothing when the store answers `[[]]`, otherwise the JSON text of its documents. */
  function QueryDb(documents: seq<seq<string>>): (r: Option<string>)
    ensures r.None? <==> documents == [[]]
  {
    if documents == [[]] then None else Some(DumpDocuments(documents))
  }

  /** What `query_db` returns is never an empty string, so `if db_results:` holds whenever it returns one. */
  lemma QueryDbTruthy(documents: seq<seq<string>>)
    ensures var r := QueryDb(documents);
      r.Some? ==> |r.value| >= 2 && r.value[0] == '[' && r.value[|r.value| - 1] == ']'
  {
    DumpDocumentsShape(documents);
  }

  /** The two kinds of value the relevance gate compares. */
  datatype PyValue = EnumMember(member: Relevant) | PyStr(s: string)

  /**
   * Python's `==` between them. A plain `Enum` defines no equality of its own,
   * so a member equals only itself and never a string, not even its value.
   */
  function PyEquals(a: PyValue, b: PyValue): (r: bool)
    ensures a.EnumMember? != b.EnumMember? ==> !r
  {
    match (a, b)
    case (EnumMember(x), EnumMember(y)) => x == y
    case (PyStr(x), PyStr(y)) => x == y
    case _ => false
  }

  /** `relevance.relevance == 'yes'`, as the code compares. */
  predicate Gate(c: Schema.CheckRelevance)
  {
    PyEquals(EnumMember(c.relevance), PyStr("yes"))
  }

  /** `relevance.relevance.value == 'yes'`, the comparison the code evidently means. */
  predicate IntendedGate(c: Schema.CheckRelevance)
  {
    PyEquals(PyStr(c.relevance.Value()), PyStr("yes"))
  }

  /** As written the gate never opens, not even on a "yes" verdict, which the intended gate accepts. */
  lemma GateNeverOpens(c: Schema.CheckRelevance)
    ensures !Gate(c)
    ensures !Gate(Schema.CheckRelevance(Yes, c.rationale)) && IntendedGate(Schema.CheckRelevance(Yes, c.rationale))
  {
  }

  /** The intended gate opens exactly on a "yes" verdict. */
  lemma IntendedGateOpens(c: Schema.CheckRelevance)
    ensures IntendedGate(c) <==> c.relevance == Yes
  {
  }

  function AnswerCall(question: string, dbResults: string): TextProcessing.Prompt
  {
    TextProcessing.Prompt(Llama.DefaultSystemPrompt, Prompts.AnswerQuestionPrompt(question, dbResults))
  }

  /** The outcome of the answering call: its content, or the exception it raised. */
  function Answer(reply: Llama.Completion): Result<Option<string>, CallError>
  {
    match reply
    case Completed(content) => Success(Some(content))
    case Raised(message) => Failure(Exception(message))
  }

  /**
   * `process_db_results(question, db_results)` as written: an exception of the
   * relevance check propagates, and otherwise the gate decides whether the
   * model is asked to answer from the store's documents.
   */
  function ProcessDbResults(question: string, dbResults: string, w: World): (r: Result<Option<string>, CallError>)
    ensures r.Failure? <==> CheckRelevance(question, dbResults, w).Failure?
    ensures r.Failure? ==> r.error == CheckRelevance(question, dbResults, w).error
  {
    match CheckRelevance(question, dbResults, w)
    case Failure(e) => Failure(e)
    case Success(c) =>
      if Gate(c) then Answer(w.complete(AnswerCall(question, dbResults))) else Success(None)
  }

  /** As written, `process_db_results` never makes the answering call: it returns `None` or raises. */
  lemma ProcessDbResultsNeverAnswers(question: string, dbResults: string, w: World)
    ensures ProcessDbResults(question, dbResults, w) == Success(None)
         || ProcessDbResults(question, dbResults, w).Failure?
  {
    match CheckRelevance(question, dbResults, w)
    case Failure(e) =>
    case Success(c) => GateNeverOpens(c);
  }

  /** `process_db_results` with the intended comparison. */
  function ProcessDbResultsIntended(question: string, dbResults: string, w: World): Result<Option<string>, CallError>
  {
    match CheckRelevance(question, dbResults, w)
    case Failure(e) => Failure(e)
    case Success(c) =>
      if IntendedGate(c) then Answer(w.complete(AnswerCall(question, dbResults))) else Success(None)
  }

  /**
   * With the intended comparison the store answers exactly when the model
   * judges its documents relevant and the answering call returns.
   */
  lemma ProcessDbResultsIntendedAnswers(question: string, dbResults: string, w: World)
    ensures var v := CheckRelevance(question, dbResults, w);
      var reply := w.complete(AnswerCall(question, dbResults));
      var r := ProcessDbResultsIntended(question, dbResults, w);
      (r.Success? && r.value.Some? <==> v.Success? && v.value.relevance == Yes && reply.Completed?)
      && (r.Success? && r.value.Some? ==> r.value.value == reply.content)
      && (v.Success? && v.value.relevance == No ==> r == Success(None))
  {
    var v := CheckRelevance(question, dbResults, w);
    if v.Success? {
      IntendedGateOpens(v.value);
    }
  }

  /** The store's side of `run_agent` as written: `None` when it has nothing, or what `process_db_results` gave. */
  function DbAnswerAsWritten(question: string, w: World): Result<Option<string>, CallError>
  {
    match QueryDb(w.documents(question))
    case None => Success(None)
    case Some(d) => if d != "" then ProcessDbResults(question, d, w) else Success(None)
  }

  /** As written, the store never short-circuits `run_agent`: it falls through to the web or raises. */
  lemma DbNeverAnswers(question: string, w: World)
    ensures DbAnswerAsWritten(question, w) == Success(None) || DbAnswerAsWritten(question, w).Failure?
  {
    var db := QueryDb(w.documents(question));
    if db.Some? && db.value != "" {
      ProcessDbResultsNeverAnswers(question, db.value, w);
    }
  }

  /** The store's side of `run_agent` with the intended gate. */
  function DbAnswer(question: string, w: World): Result<Option<string>, CallError>
  {
    match QueryDb(w.documents(question))
    case None => Success(None)
    case Some(d) => if d != "" then ProcessDbResultsIntended(question, d, w) else Success(None)
  }

  // ---------------------------------------------------------------------------
  // search_web

  /** `[href for href in hrefs if href not in visited]`; `None` is never an address, so it always stays. */
  function Unvisited(hrefs: seq<Option<string>>, visited: set<string>): seq<Option<string>>
  {
    if |hrefs| == 0 then []
    else (if hrefs[0].None? || hrefs[0].value !in visited then [hrefs[0]] else []) + Unvisited(hrefs[1..], visited)
  }

  /** Python's `xs[:n]`; a negative `n` counts from the end. */
  function PyTake<T>(xs: seq<T>, n: int): (r: seq<T>)
    ensures |r| <= |xs| && r == xs[..|r|]
    ensures n >= 0 ==> |r| == if n <= |xs| then n else |xs|
  {
    if n >= 0 then (if n <= |xs| then xs[..n] else xs)
    else if |xs| + n >= 0 then xs[..|xs| + n] else []
  }

  /** `[url for url in urls if url is not None]` */
  function Present(urls: seq<Option<string>>): seq<string>
  {
    if |urls| == 0 then [] else (if urls[0].Some? then [urls[0].value] else []) + Present(urls[1..])
  }

  /** The addresses `search_web` browses, in order. */
  function LinksToBrowse(hrefs: seq<Option<string>>, visited: set<string>, maxLinks: int): seq<string>
  {
    Present(PyTake(Unvisited(hrefs, visited), maxLinks))
  }

  /**
   * The filter drops every address visited before and keeps every other hit
   * as often as the search returned it: repeats within one batch survive.
   */
  lemma {:induction false} UnvisitedCounts(hrefs: seq<Option<string>>, visited: set<string>)
    ensures forall x: Option<string> ::
      multiset(Unvisited(hrefs, visited))[x] == (if x.Some? && x.value in visited then 0 else multiset(hrefs)[x])
  {
    if |hrefs| > 0 {
      UnvisitedCounts(hrefs[1..], visited);
      assert hrefs == [hrefs[0]] + hrefs[1..];
    }
  }

  /** Every hit the filter keeps is `None` or an address not visited before. */
  lemma {:induction false} UnvisitedFresh(hrefs: seq<Option<string>>, visited: set<string>)
    ensures forall k :: 0 <= k < |Unvisited(hrefs, visited)| ==>
      Unvisited(hrefs, visited)[k].None? || Unvisited(hrefs, visited)[k].value !in visited
  {
    if |hrefs| > 0 {
      UnvisitedFresh(hrefs[1..], visited);
    }
  }

  /** Dropping the `None`s keeps only addresses that were there. */
  lemma {:induction false} PresentFrom(urls: seq<Option<string>>)
    ensures |Present(urls)| <= |urls|
    ensures forall x :: x in Present(urls) ==> Some(x) in urls
  {
    if |urls| > 0 {
      PresentFrom(urls[1..]);
      assert forall x :: Some(x) in urls[1..] ==> Some(x) in urls;
    }
  }

  /** No more than `max_links` pages are browsed, and none visited before. */
  lemma BrowseBound(hrefs: seq<Option<string>>, visited: set<string>, maxLinks: int)
    requires maxLinks >= 0
    ensures |LinksToBrowse(hrefs, visited, maxLinks)| <= maxLinks
    ensures forall x :: x in LinksToBrowse(hrefs, visited, maxLinks) ==> x !in visited
  {
    var unvisited := Unvisited(hrefs, visited);
    var kept := PyTake(unvisited, maxLinks);
    PresentFrom(kept);
    UnvisitedFresh(hrefs, visited);
    assert forall y :: y in kept ==> y in unvisited;
  }

  /** When every hit is fresh, the filter keeps them all. */
  lemma {:induction false} UnvisitedAllFresh(hrefs: seq<Option<string>>, visited: set<string>)
    requires forall k :: 0 <= k < |hrefs| ==> hrefs[k].None? || hrefs[k].value !in visited
    ensures Unvisited(hrefs, visited) == hrefs
  {
    if |hrefs| > 0 {
      UnvisitedAllFresh(hrefs[1..], visited);
      assert hrefs == [hrefs[0]] + hrefs[1..];
    }
  }

  /** When every hit has an address, all the addresses are kept, in order. */
  lemma {:induction false} PresentAll(urls: seq<Option<string>>)
    requires forall k :: 0 <= k < |urls| ==> urls[k].Some?
    ensures |Present(urls)| == |urls|
    ensures forall k :: 0 <= k < |urls| ==> Present(urls)[k] == urls[k].value
  {
    if |urls| > 0 {
      PresentAll(urls[1..]);
      assert forall k :: 1 <= k < |urls| ==> Present(urls)[k] == Present(urls[1..])[k - 1];
    }
  }

  /**
   * Fresh hits with addresses, no more than `max_links` of them, are all
   * browsed in search-result order.
   */
  lemma LinksInResultOrder(hrefs: seq<Option<string>>, visited: set<string>, maxLinks: int)
    requires forall k :: 0 <= k < |hrefs| ==> hrefs[k].Some? && hrefs[k].value !in visited
    requires |hrefs| <= maxLinks
    ensures |LinksToBrowse(hrefs, visited, maxLinks)| == |hrefs|
    ensures forall k :: 0 <= k < |hrefs| ==> LinksToBrowse(hrefs, visited, maxLinks)[k] == hrefs[k].value
  {
    UnvisitedAllFresh(hrefs, visited);
    assert PyTake(Unvisited(hrefs, visited), maxLinks) == hrefs;
    PresentAll(hrefs);
  }

  /** A repeated fresh address is browsed twice. */
  lemma RepeatsBrowsedTwice(url: string, visited: set<string>)
    requires url !in visited
    ensures LinksToBrowse([Some(url), Some(url)], visited, 3) == [url, url]
  {
    var hits := [Some(url), Some(url)];
    assert hits[1..][1..] == [];
    assert hits[1..] == [Some(url)];
    assert Unvisited(hits[1..], visited) == [Some(url)] + Unvisited([], visited);
    assert Unvisited(hits, visited) == hits;
    assert Present(hits[1..]) == [url] + Present([]);
    assert Present(hits) == [url, url];
  }

  /** A hit without an address takes up one of the `max_links` places but is not browsed. */
  lemma NoneTakesAPlace(a: string, b: string)
    ensures LinksToBrowse([None, Some(a), Some(b)], {}, 2) == [a]
  {
    var hits := [None, Some(a), Some(b)];
    assert hits[1..][1..][1..] == [];
    assert hits[1..][1..] == [Some(b)];
    assert hits[1..] == [Some(a), Some(b)];
    assert Unvisited(hits[1..][1..], {}) == [Some(b)] + Unvisited([], {});
    assert Unvisited(hits[1..], {}) == [Some(a)] + Unvisited(hits[1..][1..], {});
    assert Unvisited(hits, {}) == hits;
    var kept := PyTake(hits, 2);
    assert kept == [None, Some(a)];
    assert kept[1..] == [Some(a)];
    assert Present(kept[1..]) == [a] + Present([]);
    assert Present(kept) == [a];
  }

  /**
   * Dropping the `None`s keeps every address exactly as often as it occurs,
   * and each `None` costs exactly one element.
   */
  lemma {:induction false} PresentCounts(urls: seq<Option<string>>)
    ensures forall x :: multiset(Present(urls))[x] == multiset(urls)[Some(x)]
    ensures |Present(urls)| + multiset(urls)[None] == |urls|
  {
    if |urls| > 0 {
      PresentCounts(urls[1..]);
      assert urls == [urls[0]] + urls[1..];
    }
  }

  /** The filter never lengthens the results. */
  lemma {:induction false} UnvisitedShorter(hrefs: seq<Option<string>>, visited: set<string>)
    ensures |Unvisited(hrefs, visited)| <= |hrefs|
  {
    if |hrefs| > 0 {
      UnvisitedShorter(hrefs[1..], visited);
    }
  }

  /**
   * When the results fit within `max_links`, an address not visited before is
   * browsed exactly as often as the search returned it: a repeat is browsed again.
   */
  lemma RepeatsBrowsed(hrefs: seq<Option<string>>, visited: set<string>, maxLinks: int, url: string)
    requires |hrefs| <= maxLinks && url !in visited
    ensures multiset(LinksToBrowse(hrefs, visited, maxLinks))[url] == multiset(hrefs)[Some(url)]
  {
    var unvisited := Unvisited(hrefs, visited);
    UnvisitedShorter(hrefs, visited);
    assert PyTake(unvisited, maxLinks) == unvisited;
    PresentCounts(unvisited);
    UnvisitedCounts(hrefs, visited);
    assert multiset(unvisited)[Some(url)] == multiset(hrefs)[Some(url)];
  }

  /**
   * Each `None` among the first `max_links` fresh results takes one of the
   * places: the pages browsed are the places kept less the `None`s among them.
   */
  lemma NonesTakePlaces(hrefs: seq<Option<string>>, visited: set<string>, maxLinks: int)
    ensures var kept := PyTake(Unvisited(hrefs, visited), maxLinks);
      |LinksToBrowse(hrefs, visited, maxLinks)| + multiset(kept)[None] == |kept|
  {
    PresentCounts(PyTake(Unvisited(hrefs, visited), maxLinks));
  }

  // ---------------------------------------------------------------------------
  // browse_website

  /** `str(x)` of an optional string field: the text, or "None". */
  function PyStrOpt(x: Option<string>): string
  {
    if x.Some? then x.value else "None"
  }

  /** One chunk summary: question, summary and relevance, one per line. */
  function ChunkSummaryText(s: Summary): string
  {
    "Question: " + s.question + "\nSummary: " + s.summary + "\nRelevance: " + s.relevance.Str()
  }

  function ChunkSummaryTexts(ss: seq<Summary>): (r: seq<string>)
    ensures |r| == |ss|
    ensures forall k :: 0 <= k < |ss| ==> r[k] == ChunkSummaryText(ss[k])
  {
    if |ss| == 0 then [] else [ChunkSummaryText(ss[0])] + ChunkSummaryTexts(ss[1..])
  }

  /** `beautify_chunk_summaries` */
  function BeautifyChunkSummaries(ss: seq<Summary>): string
  {
    Join("\n", ChunkSummaryTexts(ss))
  }

  /** The lines a chunk summary should read as. */
  function SummaryLines(ss: seq<Summary>): seq<string>
  {
    if |ss| == 0 then []
    else ["Question: " + ss[0].question, "Summary: " + ss[0].summary, "Relevance: " + ss[0].relevance.Str()]
         + SummaryLines(ss[1..])
  }

  predicate OneLine(s: string) { '\n' !in s }

  /** Three one-line pieces and a rest split into those pieces and the split rest. */
  lemma SplitThree(a: string, b: string, c: string, rest: string)
    requires OneLine(a) && OneLine(b) && OneLine(c)
    ensures Split(a + "\n" + b + "\n" + c + "\n" + rest, '\n') == [a, b, c] + Split(rest, '\n')
  {
    var t2 := c + "\n" + rest;
    var t1 := b + "\n" + t2;
    SplitAfterPiece(c, '\n', rest);
    SplitAfterPiece(b, '\n', t2);
    SplitAfterPiece(a, '\n', t1);
    assert a + "\n" + b + "\n" + c + "\n" + rest == a + "\n" + t1;
  }

  /** Three one-line pieces split into themselves. */
  lemma SplitThreeEnd(a: string, b: string, c: string)
    requires OneLine(a) && OneLine(b) && OneLine(c)
    ensures Split(a + "\n" + b + "\n" + c, '\n') == [a, b, c]
  {
    var t := b + "\n" + c;
    SplitNoSeparator(c, '\n');
    SplitAfterPiece(b, '\n', c);
    SplitAfterPiece(a, '\n', t);
    assert a + "\n" + b + "\n" + c == a + "\n" + t;
  }

  lemma RelevanceOneLine(x: Relevant)
    ensures OneLine("Relevance: " + x.Str())
  {
  }

  /** A chunk summary of one-line fields, followed by more text, splits into its three lines first. */
  lemma ChunkSummaryLines(s: Summary, rest: string)
    requires OneLine(s.question) && OneLine(s.summary)
    ensures Split(ChunkSummaryText(s) + "\n" + rest, '\n') == SummaryLines([s]) + Split(rest, '\n')
  {
    var q := "Question: " + s.question;
    var m := "Summary: " + s.summary;
    var r := "Relevance: " + s.relevance.Str();
    RelevanceOneLine(s.relevance);
    assert ChunkSummaryText(s) + "\n" + rest == q + "\n" + m + "\n" + r + "\n" + rest;
    SplitThree(q, m, r, rest);
    assert SummaryLines([s]) == [q, m, r];
  }

  /** A last chunk summary of one-line fields splits into its three lines. */
  lemma LastChunkSummaryLines(s: Summary)
    requires OneLine(s.question) && OneLine(s.summary)
    ensures Split(ChunkSummaryText(s), '\n') == SummaryLines([s])
  {
    var q := "Question: " + s.question;
    var m := "Summary: " + s.summary;
    var r := "Relevance: " + s.relevance.Str();
    RelevanceOneLine(s.relevance);
    assert ChunkSummaryText(s) == q + "\n" + m + "\n" + r;
    SplitThreeEnd(q, m, r);
    assert SummaryLines([s]) == [q, m, r];
  }

  /**
   * When no question or summary spans lines, the rendering has three lines per
   * summary, in order: its question, its summary and its relevance.
   */
  lemma {:induction false} ChunkSummariesLines(ss: seq<Summary>)
    requires |ss| >= 1
    requires forall k :: 0 <= k < |ss| ==> OneLine(ss[k].question) && OneLine(ss[k].summary)
    ensures Split(BeautifyChunkSummaries(ss), '\n') == SummaryLines(ss)
  {
    if |ss| == 1 {
      LastChunkSummaryLines(ss[0]);
      assert ss == [ss[0]];
    } else {
      var rest := BeautifyChunkSummaries(ss[1..]);
      ChunkSummariesLines(ss[1..]);
      assert ChunkSummaryTexts(ss)[1..] == ChunkSummaryTexts(ss[1..]);
      assert BeautifyChunkSummaries(ss) == ChunkSummaryText(ss[0]) + "\n" + rest;
      ChunkSummaryLines(ss[0], rest);
      assert SummaryLines(ss) == SummaryLines([ss[0]]) + SummaryLines(ss[1..]) by {
        assert [ss[0]][1..] == [];
      }
    }
  }

  /** The lines of the article text `browse_website` returns for one page. */
  function ArticleLines(url: string, s: ArticleSummary): seq<string>
  {
    [ "",
      "    Article Summary:",
      "        Title: " + s.title,
      "        Source: " + url,
      "        Question: " + s.question,
      "        Main Ideas: " + s.mainIdes,
      "        Chunk Summaries: ",
      "        " + BeautifyChunkSummaries(s.chunkSummaries),
      "            ",
      "        Strengths: " + PyStrOpt(s.strengths),
      "        Weaknesses: " + PyStrOpt(s.weaknesses),
      "        Conclusion: " + PyStrOpt(s.conclusion),
      "    ",
      "    " ]
  }

  function RenderArticle(url: string, s: ArticleSummary): string
  {
    Join("\n", ArticleLines(url, s))
  }

  /**
   * The article opens with a blank line and its heading, then one line each
   * for the title, the source address, the question and the main ideas.
   */
  lemma ArticleHeaderLines(url: string, s: ArticleSummary)
    requires OneLine(s.title) && OneLine(url) && OneLine(s.question) && OneLine(s.mainIdes)
    ensures var lines := Split(RenderArticle(url, s), '\n');
      |lines| > 6
      && lines[..6] == ["", "    Article Summary:", "        Title: " + s.title, "        Source: " + url,
                        "        Question: " + s.question, "        Main Ideas: " + s.mainIdes]
  {
    var ps := ArticleLines(url, s);
    assert forall i :: 0 <= i < 6 ==> '\n' !in ps[i];
    SplitJoinPrefix(ps, '\n', 6);
  }

  /** The summary `browse_website` obtains for a page: the summary of the scraped text. */
  function BrowseSummary(url: string, question: string, w: World): Result<ArticleSummary, CallError>
  {
    w.summarize(question, WebScrape.PageText(w.page(url)))
  }

  /** What `browse_website` returns, or the error that escapes it. */
  function BrowseResult(url: string, question: string, w: World): Result<string, CallError>
  {
    match BrowseSummary(url, question, w)
    case Success(s) => Success(RenderArticle(url, s))
    case Failure(e) => Failure(e)
  }

  /** The outcome of browsing each address on its own. */
  function BrowseResults(urls: seq<string>, question: string, w: World): (r: seq<Result<string, CallError>>)
    ensures |r| == |urls|
  {
    seq(|urls|, k requires 0 <= k < |urls| => BrowseResult(urls[k], question, w))
  }

  /** The index of the first failed outcome, `|outs|` when none failed. */
  function FirstFailure<T, E>(outs: seq<Result<T, E>>): (j: nat)
    ensures j <= |outs|
    ensures forall k :: 0 <= k < j ==> outs[k].Success?
    ensures j < |outs| ==> outs[j].Failure?
  {
    if |outs| == 0 || outs[0].Failure? then 0 else 1 + FirstFailure(outs[1..])
  }

  /** All the values in order, or the first error: what a comprehension over calls that may raise gives. */
  function Collect<T, E>(outs: seq<Result<T, E>>): (r: Result<seq<T>, E>)
    ensures r.Success? <==> FirstFailure(outs) == |outs|
    ensures r.Success? ==> |r.value| == |outs| && forall k :: 0 <= k < |outs| ==> outs[k] == Success(r.value[k])
    ensures r.Failure? ==> r.error == outs[FirstFailure(outs)].error
  {
    var j := FirstFailure(outs);
    if j < |outs| then Failure(outs[j].error)
    else Success(seq(|outs|, k requires 0 <= k < |outs| => outs[k].value))
  }

  /** The articles of all the addresses, in order, or the first error. */
  function BrowseAll(urls: seq<string>, question: string, w: World): Result<seq<string>, CallError>
  {
    Collect(BrowseResults(urls, question, w))
  }

  /** The number of addresses browsed successfully before the first error. */
  function Browsed(urls: seq<string>, question: string, w: World): nat
  {
    FirstFailure(BrowseResults(urls, question, w))
  }

  /** The addresses of a list, as a set. */
  function AsSet(xs: seq<string>): (r: set<string>)
    ensures forall x :: x in r <==> x in xs
  {
    if |xs| == 0 then {} else AsSet(xs[..|xs| - 1]) + {xs[|xs| - 1]}
  }

  lemma AsSetSnoc(xs: seq<string>, i: nat)
    requires i < |xs|
    ensures AsSet(xs[..i + 1]) == AsSet(xs[..i]) + {xs[i]}
  {
    assert xs[..i + 1][..i] == xs[..i];
  }

  /** One more successful outcome adds its value to the collection. */
  lemma CollectSnoc<T, E>(outs: seq<Result<T, E>>, i: nat, values: seq<T>)
    requires i < |outs| && outs[i].Success?
    requires Collect(outs[..i]) == Success(values)
    ensures Collect(outs[..i + 1]) == Success(values + [outs[i].value])
  {
    var prefix := outs[..i + 1];
    assert forall k :: 0 <= k < i ==> prefix[k] == outs[..i][k];
    assert FirstFailure(prefix) == |prefix| by {
      assert forall k :: 0 <= k < |prefix| ==> prefix[k].Success?;
    }
    var r := Collect(prefix);
    assert r.value == values + [outs[i].value];
  }

  /**
   * After successful outcomes, a failed one is the first failure: the
   * collection of all the outcomes raises its error, and only the outcomes
   * before it count as done.
   */
  lemma CollectFails<T, E>(outs: seq<Result<T, E>>, i: nat)
    requires i < |outs| && outs[i].Failure?
    requires Collect(outs[..i]).Success?
    ensures FirstFailure(outs) == i && Collect(outs) == Failure(outs[i].error)
  {
    assert forall k :: 0 <= k < i ==> outs[..i][k] == outs[k];
    var j := FirstFailure(outs);
    assert !(j < i) by {
      if j < |outs| {
        assert outs[j].Failure?;
      }
    }
  }

  const WebSearchLinks: int := 3

  /** How `process_web_search` ends once the search is done. */
  function WebSearchReport(question: string, searched: Result<seq<string>, CallError>, w: World)
    : Result<string, CallError>
  {
    match searched
    case Failure(e) => Failure(e)
    case Success(articles) =>
      match GenerateReport([question], Join("\n\n", articles), w)
      case Failure(e) => Failure(e)
      case Success(report) => Success(BeautifyReport(report))
  }

  class ResearchAgent {
    var visitedUrls: set<string>

    constructor()
      ensures visitedUrls == {}
    {
      visitedUrls := {};
    }

    /** `browse_website(url, question)`: the address counts as visited only once its summary is in. */
    method BrowseWebsite(url: string, question: string, w: World) returns (article: Result<string, CallError>)
      modifies this
      ensures article == BrowseResult(url, question, w)
      ensures visitedUrls == if article.Success? then old(visitedUrls) + {url} else old(visitedUrls)
    {
      var text := WebScrape.Scrape(url, w.page);
      var summary := w.summarize(question, text);
      if summary.Failure? {
        article := Failure(summary.error);
        return;
      }
      visitedUrls := visitedUrls + {url};
      article := Success(RenderArticle(url, summary.value));
    }

    /**
     * `search_web(query, max_links)`: browse, in result order, the first
     * `max_links` hits not visited before; an error ends the search, and only
     * the addresses browsed before it count as visited.
     */
    method SearchWeb(query: string, maxLinks: int, w: World) returns (results: Result<seq<string>, CallError>)
      modifies this
      ensures var urls := LinksToBrowse(w.search(query), old(visitedUrls), maxLinks);
        results == BrowseAll(urls, query, w)
        && visitedUrls == old(visitedUrls) + AsSet(urls[..Browsed(urls, query, w)])
    {
      var searchUrls := Unvisited(w.search(query), visitedUrls);
      var newSearchUrls := PyTake(searchUrls, maxLinks);
      results := BrowseEach(Present(newSearchUrls), query, w);
    }

    /** `[self.browse_website(url, query) for url in urls]`: in order, stopping at the first error. */
    method BrowseEach(urls: seq<string>, query: string, w: World) returns (results: Result<seq<string>, CallError>)
      modifies this
      ensures results == BrowseAll(urls, query, w)
      ensures visitedUrls == old(visitedUrls) + AsSet(urls[..Browsed(urls, query, w)])
    {
      ghost var outs := BrowseResults(urls, query, w);
      var articles: seq<string> := [];
      for i := 0 to |urls|
        invariant Collect(outs[..i]) == Success(articles)
        invariant visitedUrls == old(visitedUrls) + AsSet(urls[..i])
      {
        var article := BrowseWebsite(urls[i], query, w);
        assert article == outs[i];
        if article.Failure? {
          CollectFails(outs, i);
          results := Failure(article.error);
          return;
        }
        AsSetSnoc(urls, i);
        CollectSnoc(outs, i, articles);
        articles := articles + [article.value];
      }
      assert outs[..|urls|] == outs;
      assert urls[..|urls|] == urls;
      results := Success(articles);
    }

    /**
     * `process_web_search(question)`: search with three links, join the
     * articles with blank lines, ask for a report on exactly `[question]` and
     * render it.
     */
    method ProcessWebSearch(question: string, w: World) returns (result: Result<string, CallError>)
      modifies this
      ensures var urls := LinksToBrowse(w.search(question), old(visitedUrls), WebSearchLinks);
        result == WebSearchReport(question, BrowseAll(urls, question, w), w)
        && visitedUrls == old(visitedUrls) + AsSet(urls[..Browsed(urls, question, w)])
    {
      var searchResults := SearchWeb(question, WebSearchLinks, w);
      if searchResults.Failure? {
        result := Failure(searchResults.error);
        return;
      }
      var researchInfo := Join("\n\n", searchResults.value);
      var report := GenerateReport([question], researchInfo, w);
      if report.Failure? {
        result := Failure(report.error);
        return;
      }
      result := Success(BeautifyReport(report.value));
    }

    /**
     * `run_agent(question)`, with the intended relevance gate: answer from the
     * knowledge store when it has documents the model judges relevant and the
     * answering call gives a non-empty reply; otherwise (and only otherwise)
     * search the web.
     */
    method RunAgent(question: string, w: World) returns (result: Result<string, CallError>, searched: bool)
      modifies this
      ensures var db := DbAnswer(question, w);
        searched <==> db.Success? && (db.value.None? || db.value.value == "")
      ensures var db := DbAnswer(question, w);
        !searched ==> visitedUrls == old(visitedUrls)
                      && result == if db.Failure? then Failure(db.error) else Success(db.value.value)
      ensures var urls := LinksToBrowse(w.search(question), old(visitedUrls), WebSearchLinks);
        searched ==> result == WebSearchReport(question, BrowseAll(urls, question, w), w)
                     && visitedUrls == old(visitedUrls) + AsSet(urls[..Browsed(urls, question, w)])
    {
      var dbResults := QueryDb(w.documents(question));
      if dbResults.Some? && dbResults.value != "" {
        var answer := ProcessDbResultsIntended(question, dbResults.value, w);
        if answer.Failure? {
          result, searched := Failure(answer.error), false;
          return;
        }
        if answer.value.Some? && answer.value.value != "" {
          result, searched := Success(answer.value.value), false;
          return;
        }
      }
      result := ProcessWebSearch(question, w);
      searched := true;
    }
  }

  // ---------------------------------------------------------------------------
  // beautify_report

  function SectionText(s: Section): string
  {
    s.title + "\n\n" + s.content
  }

  function SectionTexts(ss: seq<Section>): (r: seq<string>)
    ensures |r| == |ss|
    ensures forall k :: 0 <= k < |ss| ==> r[k] == SectionText(ss[k])
  {
    if |ss| == 0 then [] else [SectionText(ss[0])] + SectionTexts(ss[1..])
  }

  function ReferenceText(r: Reference): string
  {
    r.title + "\n" + r.url
  }

  function ReferenceTexts(rs: seq<Reference>): (r: seq<string>)
    ensures |r| == |rs|
    ensures forall k :: 0 <= k < |rs| ==> r[k] == ReferenceText(rs[k])
  {
    if |rs| == 0 then [] else [ReferenceText(rs[0])] + ReferenceTexts(rs[1..])
  }

  /** Everything before the main body. */
  function ReportHead(r: ResearchReport): string
  {
    "Report on '" + r.originalQuestion + "'\n\n"
    + r.title + "\n\n"
    + "Queries: " + Join(", ", r.queries) + "\n\n"
    + r.executiveSummary + "\n\n"
    + r.introduction.title + "\n\n"
    + r.introduction.content + "\n\n"
  }

  /** Everything between the main body and the references. */
  function ReportMiddle(r: ResearchReport): string
  {
    "\n\n" + r.conclusion.title + "\n\n" + r.conclusion.content + "\n\n" + "References:\n\n"
  }

  /** `beautify_report` */
  function BeautifyReport(r: ResearchReport): string
  {
    ReportHead(r) + Join("\n\n", SectionTexts(r.mainBody)) + ReportMiddle(r) + Join("\n\n", ReferenceTexts(r.references))
  }

  /** The rendering opens with the original question. */
  lemma BeautifyReportOpens(r: ResearchReport)
    ensures StartsWith(BeautifyReport(r), "Report on '" + r.originalQuestion + "'\n\n")
  {
    var p := "Report on '" + r.originalQuestion + "'\n\n";
    assert BeautifyReport(r) == p + (BeautifyReport(r)[|p|..]);
  }

  /**
   * Every section of the main body appears in full after the head, each one
   * after the one before it and a blank line.
   */
  lemma BeautifyReportSections(r: ResearchReport, k: nat)
    requires k < |r.mainBody|
    ensures var texts := SectionTexts(r.mainBody);
      OccursAt(BeautifyReport(r), SectionText(r.mainBody[k]), |ReportHead(r)| + JoinOffset("\n\n", texts, k))
      && JoinOffset("\n\n", texts, k + 1) == JoinOffset("\n\n", texts, k) + |texts[k]| + 2
  {
    var texts := SectionTexts(r.mainBody);
    JoinPieceAt("\n\n", texts, k);
    OccursShift(ReportHead(r), Join("\n\n", texts), ReportMiddle(r) + Join("\n\n", ReferenceTexts(r.references)),
                texts[k], JoinOffset("\n\n", texts, k));
  }

  /** Every reference appears in full after the conclusion, each one after the one before it and a blank line. */
  lemma BeautifyReportReferences(r: ResearchReport, k: nat)
    requires k < |r.references|
    ensures var texts := ReferenceTexts(r.references);
      var start := |ReportHead(r)| + |Join("\n\n", SectionTexts(r.mainBody))| + |ReportMiddle(r)|;
      OccursAt(BeautifyReport(r), ReferenceText(r.references[k]), start + JoinOffset("\n\n", texts, k))
      && JoinOffset("\n\n", texts, k + 1) == JoinOffset("\n\n", texts, k) + |texts[k]| + 2
  {
    var texts := ReferenceTexts(r.references);
    JoinPieceAt("\n\n", texts, k);
    var before := ReportHead(r) + Join("\n\n", SectionTexts(r.mainBody)) + ReportMiddle(r);
    OccursShift(before, Join("\n\n", texts), "", texts[k], JoinOffset("\n\n", texts, k));
    assert BeautifyReport(r) == before + Join("\n\n", texts) + "";
  }
}
