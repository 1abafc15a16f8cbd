# research_terminal in Dafny

This project models the core of `research_terminal`, a command-line research assistant. The assistant works as follows:

- It first checks its vector knowledge store for the user's question.
- It asks a local language model whether what the store returned answers the question.
- Otherwise it searches the web, browses the new result pages, summarises each page chunk by chunk with the model, and renders a structured research report.

The model covers six source files, one Dafny module each:

| module | source | form |
|---|---|---|
| `TextProcessing` (`text.dfy`) | `scraping/processing/text.py` | The greedy paragraph packer `split_text` as a method with loop invariants, specified by a fold `Pack`. The summariser `summarize_text` as a method over a chat oracle, specified by the function `Summarize`. The range guard of `scroll_to_percentage`. |
| `Llama` (`llama.dfy`) | `llm/llama_model.py` | The retry loop of `LlamaModel.chat_completion` as a method. The backend's replies are an input sequence. |
| `Agent` (`agent.dfy`) | `research_agent.py` | `ResearchAgent` as a class whose one field, `visitedUrls`, its methods update. The lookups, gates, renderers and the report call are functions. |
| `Schema` (`schema.dfy`) | `llm/grammar/pydantic_models.py` | The records as datatypes. The `Model(**json.loads(reply))` step is a validation function per record, with round trips and required-field lemmas. |
| `Prompts` (`prompts.dfy`) | `llm/prompts.py` | Every prompt builder is a frame or template of fixed text around its slots. Lemmas show each slot reads back out of the prompt. |
| `WebScrape` (`web_scrape.dfy`) | `scraping/web_scrape.py` | The driver-name check, `get_text` and `extract_hyperlinks` as loops over the page's element list, plus `format_hyperlinks` and `scrape_links`. |

Three support modules complete the project:

- `Strings`: Python's `split`, `join`, `strip` and `str(int)`, and `repr` of a list of strings, with its escapes for quotes, backslashes, control characters and the assigned non-printable characters of Unicode 15.0.
- `Json`: a JSON value, and `json.dumps` of the store's documents.
- `Wrappers`: `Option` and `Result`.

## How collaborators are modelled

- **Language model.** Inside `summarize_text`, the model is a function `(call number, prompt) -> reply`, so two calls with the same prompt may answer differently. In the agent, it is a function of the prompt.
- **`json.loads`.** A function `string -> Option<Json>` that is never interpreted. Validation against the records, by contrast, is modelled in full.
- **Knowledge store, search engine and page loader.** Each enters the agent as a function of a `World` value: the store's `documents`, the search's `href`s, and the page's elements.
- **Summariser.** `summarize_text` also enters the agent as a `World` function. The summariser itself is modelled in `TextProcessing`.
- **Schema documentation.** The documentation generated for each record is an uninterpreted string parameter.
- **Exceptions.** An exception escaping a call is a `Failure` carrying a `CallError`: the exception's message, a `json.loads` decoding error, the `TypeError` of `**` applied to a decoded value that is not an object, or a validation error.

## Where the code was followed rather than its description

- **`split_text`:**
  - Empty text yields one empty chunk, not zero. It yields two empty chunks when `max_length <= 0`.
  - A first paragraph that overflows on its own yields a leading empty chunk.
  - The `ValueError` in the docstring is never raised.
- **`summarize_text`:**
  - A chunk is skipped only when `json.loads` rejects its reply.
  - An exception of the chat call, or a reply that does not validate as a `Summary`, ends the whole run.
- **`chat_completion`:**
  - Only a reply with choices but empty content consumes a retry.
  - A reply without choices consumes none, so `max_retries` bounds the loop only when every reply has choices.
- **`search_web`:**
  - A failure while browsing any page ends the search with that failure; no page is skipped.
  - Repeated addresses within one batch of results are browsed once per occurrence.
  - A result without an address takes one of the `max_links` places.

## Model

| member | source | states |
|---|---|---|
| TextProcessing.SplitText | research_terminal/scraping/processing/text.py:13-42 | The chunks yielded are exactly `Chunks(text, max_length)`, the greedy packing of `text.split("\n")` joined group by group. The loop invariants tie the running variables to the fold `Pack`. |
| TextProcessing.PackPartition | research_terminal/scraping/processing/text.py:29-39 | After any prefix of paragraphs, the groups yielded so far followed by the open group are exactly that prefix. The running length is the open group's length plus one per paragraph. After the first paragraph, the open group is never empty. |
| TextProcessing.PackLength | research_terminal/scraping/processing/text.py:33-39 | `current_length` always equals the sum of `len(p) + 1` over the open group. |
| TextProcessing.PackCurrentFits | research_terminal/scraping/processing/text.py:33-39 | The open group holds at most one paragraph or fits within `max_length`. |
| TextProcessing.PackBound | research_terminal/scraping/processing/text.py:33-39 | Every yielded group holds at most one paragraph or fits within `max_length`. |
| TextProcessing.PackShape | research_terminal/scraping/processing/text.py:33-39 | Only the first yielded group can be empty. It is empty exactly when the first paragraph overflows on its own. |
| TextProcessing.PackGreedy | research_terminal/scraping/processing/text.py:33-39 | Each yielded group is followed by a paragraph that would not have fitted into it. |
| TextProcessing.GroupsPartition | research_terminal/scraping/processing/text.py:27-42 | Flattening the paragraph groups of all chunks, in order, gives back exactly `text.split("\n")`. |
| TextProcessing.ChunkBound | research_terminal/scraping/processing/text.py:33-42 | A chunk of two or more paragraphs is at most `max_length - 1` long. A one-paragraph chunk is that paragraph, uncut. An empty group gives `""`. |
| TextProcessing.GroupsShape | research_terminal/scraping/processing/text.py:33-42 | There is at least one group. The first is empty exactly when `len(first paragraph) + 1 > max_length`, and no later group is empty. |
| TextProcessing.LeadingEmptyChunk | research_terminal/scraping/processing/text.py:33-42 | `split_text` always yields a chunk. When the first paragraph overflows, the first chunk is `""` and at least one more follows. |
| TextProcessing.GroupsGreedy | research_terminal/scraping/processing/text.py:33-39 | Every chunk is as large as it could be: the first paragraph of the next chunk would not have fitted into it. |
| TextProcessing.EmptyTextChunks | research_terminal/scraping/processing/text.py:27-42 | Empty text yields exactly `[""]`, or `["", ""]` when `max_length <= 0`. |
| TextProcessing.SplitTextFits | research_terminal/scraping/processing/text.py:32-42 | When `len(text) + 1 <= max_length`, the only chunk is `text` itself. |
| TextProcessing.SplitTextRejoin | research_terminal/scraping/processing/text.py:27-42 | When the first paragraph fits, `"\n".join(chunks) == text`. |
| TextProcessing.ScrollToPercentage | research_terminal/scraping/processing/text.py:122-134 | Raises, with the message "Percentage should be between 0 and 1", exactly when the ratio is below 0 or above 1. Otherwise it scrolls to that very ratio. |
| TextProcessing.ScrollRatioInRange | research_terminal/scraping/processing/text.py:55-83 | The position `i * (1 / len(chunks))` before chunk `i` lies in [0, 1), so the guard never fires. |
| TextProcessing.ScrollPlan | research_terminal/scraping/processing/text.py:81-84 | The positions scrolled to before the first `count` chunks number `count`, and each lies in [0, 1). |
| TextProcessing.SystemMessagesReadBack | research_terminal/scraping/processing/text.py:59-112 | The schema documentation reads back verbatim out of both the per-chunk and the final system message. |
| TextProcessing.ChunkVerdict | research_terminal/scraping/processing/text.py:86-96 | A chunk is skipped exactly when its reply came back and `json.loads` rejects it. It is kept exactly when the decoded reply validates as a `Summary`, and its `summary` field is what is kept. A raised call ends the run with its exception. A reply that decodes to something other than an object ends it with the `TypeError` of `**`, exactly then. A decoded object that does not validate ends it with a validation error. None of these ends is a decoding error. |
| TextProcessing.Fold | research_terminal/scraping/processing/text.py:81-96 | The loop makes at most one call per chunk, and exactly one per chunk when it completes. |
| TextProcessing.FoldSpec | research_terminal/scraping/processing/text.py:81-96 | With no aborting chunk, the loop keeps the summaries of the kept chunks, in chunk order, after one call per chunk. Otherwise it stops with the first abort's error right after that chunk's call. |
| TextProcessing.FoldCharacterised | research_terminal/scraping/processing/text.py:81-96 | The loop's outcome is fixed by the first aborting chunk: either its error after that call, or all kept summaries after every call. |
| TextProcessing.FoldStops | research_terminal/scraping/processing/text.py:87-96 | Once a chunk has ended the run, later chunks change nothing. |
| TextProcessing.Condense | research_terminal/scraping/processing/text.py:99-108 | The second pass sends exactly one call when the joined summaries are longer than `max_length`, and none otherwise. It never recurses. |
| TextProcessing.SummarizeChunks | research_terminal/scraping/processing/text.py:81-96 | The loop's outcome and call count are those of the fold over the chunk verdicts. The prompts sent are the per-chunk prompts, in chunk order, up to the call that ended the loop. With a driver, the scroll positions are the planned ones. |
| TextProcessing.ScrollBeforeChunk | research_terminal/scraping/processing/text.py:82-84 | The position scrolled to before chunk `i` is `i * (1 / len(chunks))`. It lies in [0, 1), so the scroll never raises. |
| TextProcessing.CondenseSummaries | research_terminal/scraping/processing/text.py:99-108 | The second pass agrees with the reference `Condense`. Joined summaries that fit are kept and no call is made. Otherwise one call is made, and its validated `summary`, or the error it ends with, is the result. |
| TextProcessing.FinishSummary | research_terminal/scraping/processing/text.py:97-118 | After the chunk calls, the result and prompts are those of the reference `Finish`: the optional second pass, then the final call over the condensed text. That adds one or two calls to the chunk calls. |
| TextProcessing.SummarizeText | research_terminal/scraping/processing/text.py:45-118 | The result and every prompt sent are those of the reference `Summarize`. There is at least one chunk, and with a driver one scroll precedes each chunk call. |
| TextProcessing.SummarizeAborts | research_terminal/scraping/processing/text.py:87-96 | A chunk that ends the run is the last call made, and its error is the result. |
| TextProcessing.SummarizeShortCombined | research_terminal/scraping/processing/text.py:97-118 | When no chunk aborts and the `"\nsection\n"`-joined summaries fit, the only further call is the final one. That call is made over exactly the joined text. |
| TextProcessing.SummarizeLongCombined | research_terminal/scraping/processing/text.py:99-118 | When the joined summaries are too long, exactly one second pass summarises them. The final call then works on that summary, and the run makes no further call. |
| TextProcessing.SummarizeCallBudget | research_terminal/scraping/processing/text.py:81-118 | A run makes between 1 and `len(chunks) + 2` calls. A decoding error can only come from the second pass or the final call, never from a chunk. |
| Llama.ChatCompletion | research_terminal/llm/llama_model.py:31-63 | The outcome and the number of backend calls are those of the reference `Chat`. Every call sends exactly two messages, system then user, carrying the given prompts. |
| Llama.RunAnswers | research_terminal/llm/llama_model.py:55-61 | The loop returns the content of the first reply with a non-empty first message, when fewer than `max_retries` empty replies came before it. It does so after as many calls as that reply's position, with one retry counted per empty reply. |
| Llama.RunExhausts | research_terminal/llm/llama_model.py:41-63 | With no answer first, the reply that brings the empty replies to `max_retries` ends the loop. The loop then raises "Chat completion failed after N retries". |
| Llama.RunPending | research_terminal/llm/llama_model.py:41-61 | With no answer and too few empty replies, every modelled reply is consumed and the loop is still waiting for another. |
| Llama.ChatOutcomes | research_terminal/llm/llama_model.py:40-63 | The three outcomes of `chat_completion`, each with its call count and final `retry_count`: an answer, the retries-exhausted exception, or still waiting. |
| Llama.ChatWithoutRetries | research_terminal/llm/llama_model.py:40-63 | With `max_retries <= 0`, the loop raises without calling the backend. |
| Llama.NoChoicesNeverEnd | research_terminal/llm/llama_model.py:41-61 | Replies without choices consume no retry: after any number of them, the loop is still calling the backend. |
| Llama.RunBoundedWithChoices | research_terminal/llm/llama_model.py:41-61 | When every reply has choices, each call answers or consumes a retry. The loop makes at most the remaining retries' worth of calls and ends within them. |
| Llama.ChatBoundedWithChoices | research_terminal/llm/llama_model.py:40-63 | When every reply has choices, `chat_completion` makes at most `max_retries` calls. Given that many replies, it ends. |
| Schema.RelevantMembers | research_terminal/llm/grammar/pydantic_models.py:12-15 | `Relevant(value)` succeeds exactly for "yes" and "no", each member is found by its value, and the two values differ. |
| Schema.StrItemsRoundTrip | research_terminal/llm/grammar/pydantic_models.py:8 | A list of strings written as JSON validates back to itself. |
| Schema.SearchQueriesRoundTrip | research_terminal/llm/grammar/pydantic_models.py:6-9 | A `SearchQueries` record written as JSON validates back to itself. |
| Schema.CheckRelevanceRoundTrip | research_terminal/llm/grammar/pydantic_models.py:17-20 | A `CheckRelevance` record written as JSON validates back to itself. |
| Schema.SummaryRoundTrip | research_terminal/llm/grammar/pydantic_models.py:24-28 | A `Summary` written as JSON validates back to itself. |
| Schema.SummariesRoundTrip | research_terminal/llm/grammar/pydantic_models.py:35 | A list of `Summary` written as JSON validates back to itself. |
| Schema.ArticleSummaryRoundTrip | research_terminal/llm/grammar/pydantic_models.py:30-38 | An `ArticleSummary` written as JSON validates back to itself. |
| Schema.SectionsRoundTrip | research_terminal/llm/grammar/pydantic_models.py:47-50 | A list of `Section` written as JSON validates back to itself. |
| Schema.ReferencesRoundTrip | research_terminal/llm/grammar/pydantic_models.py:42-45 | A list of `Reference` written as JSON validates back to itself. |
| Schema.ResearchReportRoundTrip | research_terminal/llm/grammar/pydantic_models.py:52-61 | A `ResearchReport` written as JSON validates back to itself. |
| Schema.ReportFieldsPresent | research_terminal/llm/grammar/pydantic_models.py:52-61 | A report written as JSON has all eight fields, each holding the report's own value. |
| Schema.ValidateReportFromFields | research_terminal/llm/grammar/pydantic_models.py:52-61 | An object whose eight fields each validate yields exactly the report they make up. |
| Schema.SummaryRequiresFields | research_terminal/llm/grammar/pydantic_models.py:24-28 | An object missing any of `question`, `summary` or `relevance` does not validate as a `Summary`. |
| Schema.CheckRelevanceRequiresFields | research_terminal/llm/grammar/pydantic_models.py:17-20 | Without a string `rationale`, or without a `relevance` that is a member value, the object does not validate. |
| Schema.ArticleSummaryRequiresFields | research_terminal/llm/grammar/pydantic_models.py:30-35 | An object that lacks any of `title`, `question`, `main_ides` or `chunk_summaries` does not validate as an `ArticleSummary`. |
| Schema.ArticleSummaryOptionalFields | research_terminal/llm/grammar/pydantic_models.py:36-38 | Leaving out `strengths`, `weaknesses` and `conclusion` still validates, and gives `None` for each of them. |
| Schema.ResearchReportRequiresFields | research_terminal/llm/grammar/pydantic_models.py:52-61 | An object missing any of the eight fields does not validate as a `ResearchReport`. |
| Schema.ReferenceSectionRequireFields | research_terminal/llm/grammar/pydantic_models.py:42-50 | Without a `title`, an object validates neither as a `Reference` nor as a `Section`. |
| Schema.SummaryIgnoresExtraKeys | research_terminal/llm/grammar/pydantic_models.py:24-28 | Keys that are not fields of `Summary` do not change the validation's outcome. |
| Schema.FromCompletion | research_terminal/research_agent.py:38-44 | `Record(**json.loads(reply))` succeeds exactly when the call returned, the reply decodes to an object and that object validates, and then gives the validated record. It fails with a decoding error exactly when decoding fails. It fails with the `TypeError` of `**` exactly when the decoded value is not an object. It fails with a validation error exactly when a decoded object does not validate. The call's own exception passes through unchanged. |
| Json.EscapeStringAscii | research_terminal/research_agent.py:87 | `json.dumps` writes a string in printable ASCII only. |
| Json.DumpDocumentsShape | research_terminal/research_agent.py:87 | The dumped documents are bracketed, at least two characters long, and printable ASCII. |
| Json.DumpEmptyResults | research_terminal/research_agent.py:84-87 | No documents dump as `[]`, and one empty list as `[[]]`. |
| Prompts.FrameRoundTrip | research_terminal/llm/prompts.py:90-118 | The slot of a one-slot prompt reads back out of the prompt. |
| Prompts.FrameUnfillFills | research_terminal/llm/prompts.py:90-118 | Whatever reads out of a one-slot prompt refills to that very prompt. |
| Prompts.TemplateRoundTrip | research_terminal/llm/prompts.py:14-33 | Both slots of a two-slot prompt read back, provided the first does not contain the first character of the fixed text between them. |
| Prompts.TemplateUnfillFills | research_terminal/llm/prompts.py:14-33 | Whatever reads out of a two-slot prompt refills to that very prompt. |
| Prompts.TemplateAmbiguous | research_terminal/llm/prompts.py:14-22 | Without that proviso the prompt is ambiguous: moving the middle text between the two slots gives the same prompt. |
| Prompts.GenerateSearchQueriesPromptReadsBack | research_terminal/llm/prompts.py:5-11 | The number of queries asked for and the quoted question both read back from the prompt. |
| Prompts.CheckRelevancePromptReadsBack | research_terminal/llm/prompts.py:14-22 | A one-line question and any text read back from the relevance prompt. |
| Prompts.AnswerQuestionPromptReadsBack | research_terminal/llm/prompts.py:24-33 | A one-line question and the store's results read back from the answering prompt. |
| Strings.ReprCharVerbatim | research_terminal/llm/prompts.py:44 | In the `{queries}` list, `repr` copies a character as itself exactly when it is not the quote, the backslash, a control character or a character `str.isprintable()` rejects. |
| Strings.ReprEscapesInvisible | research_terminal/llm/prompts.py:44 | A zero-width space is written `\u200b` and the C1 control U+0085 is written `\x85`. |
| Strings.ReprRoundTrip | research_terminal/llm/prompts.py:44 | Every string's `repr` is quoted, and its body reads back to the string, escapes included. |
| Prompts.ResearchReportPromptReadsBack | research_terminal/llm/prompts.py:36-44 | The rendered query list and the research information always read back from the report prompt. |
| Prompts.SummarizeTextPromptReadsBack | research_terminal/llm/prompts.py:46-54 | A one-line question and the chunk read back from the summary prompt. |
| Prompts.FinalSummaryPromptReadsBack | research_terminal/llm/prompts.py:56-81 | A one-line question and the combined summaries read back from the final prompt. |
| Prompts.CreateSummaryPromptReadsBack | research_terminal/llm/prompts.py:83-88 | A one-line question and the chunk read back, the question first. |
| Prompts.GenerateReportPromptReadsBack | research_terminal/llm/prompts.py:90-118 | The documentation reads back verbatim from the report system message. |
| WebScrape.GetDriver | research_terminal/scraping/web_scrape.py:16-31 | Only "chrome" and "firefox" are accepted, each giving its own browser with the four command-line arguments. Any other name raises with exactly the message "<name> is not a supported browser". |
| WebScrape.GetDriverByName | research_terminal/scraping/web_scrape.py:17-31 | Each browser is reachable by its name, and that name selects that very browser. |
| WebScrape.GetText | research_terminal/scraping/web_scrape.py:45-59 | The text is that of the heading and paragraph elements, in document order, each followed by a blank line. |
| WebScrape.PageTextBlocks | research_terminal/scraping/web_scrape.py:55-59 | The page text is the text blocks joined by blank lines plus a final blank line, or `""` when there is none. |
| WebScrape.PageTextShape | research_terminal/scraping/web_scrape.py:55-59 | The text is empty exactly when no element is a heading or paragraph. Otherwise it ends in a blank line. |
| WebScrape.Scrape | research_terminal/scraping/web_scrape.py:33-35 | `scrape(url)` is the text of the page loaded for the address. |
| WebScrape.ExtractHyperlinks | research_terminal/scraping/web_scrape.py:61-76 | The links are those of the anchors with an `href` whose stripped text and joined address are non-empty, in document order. |
| WebScrape.HyperlinksWellFormed | research_terminal/scraping/web_scrape.py:71-75 | Every link kept has non-empty text without surrounding white space and a non-empty address. |
| WebScrape.HyperlinksAppend | research_terminal/scraping/web_scrape.py:70-76 | The links of two consecutive parts of a page are the links of the whole, in order. |
| WebScrape.FormatHyperlinks | research_terminal/scraping/web_scrape.py:78-88 | One displayed line per link, in order, each `text (url)`. |
| WebScrape.FormatLinkRoundTrip | research_terminal/scraping/web_scrape.py:88 | A displayed link reads back to its text and address when the address has no `(`. |
| WebScrape.ScrapeLinks | research_terminal/scraping/web_scrape.py:90-93 | `scrape_links(url)` formats the hyperlinks extracted from the page loaded for the address. |
| Agent.GenerateSearchQueries | research_terminal/research_agent.py:26-44 | Queries come only from a reply that was given, decodes and fits `SearchQueries`. The call's exception escapes unchanged. |
| Agent.SearchQueriesCallReadsBack | research_terminal/research_agent.py:33-41 | The call carries the schema documentation in the system message, and the number of queries and the question in the user prompt. |
| Agent.CheckRelevance | research_terminal/llm/llm_parser.py:10-28 | A verdict comes only from a reply that was given, decodes and fits `CheckRelevance`. An undecodable reply raises a decoding error, and the call's exception escapes. |
| Agent.GenerateReport | research_terminal/research_agent.py:103-114 | A report comes only from a reply that was given, decodes and validates as a `ResearchReport`, and it is that validated report. The call's exception escapes. |
| Agent.ReportCallReadsBack | research_terminal/research_agent.py:105-112 | The documentation, the rendered query list and the research information all read back out of the report call. |
| Agent.QueryDb | research_terminal/research_agent.py:82-87 | `None` exactly when the store's documents are `[[]]`. |
| Agent.QueryDbTruthy | research_terminal/research_agent.py:147-148 | A string `query_db` returns is bracketed and never empty, so `if db_results:` holds for it. |
| Agent.PyEquals | research_terminal/research_agent.py:95 | An enum member never equals a string. |
| Agent.GateNeverOpens | research_terminal/research_agent.py:95 | The comparison as written is false for every verdict, including a "yes" verdict, which the intended comparison accepts. |
| Agent.IntendedGateOpens | research_terminal/research_agent.py:95 | Comparing the member's value opens the gate exactly on a "yes" verdict. |
| Agent.ProcessDbResults | research_terminal/research_agent.py:92-102 | As written, it fails exactly when the relevance check fails, with the same error. |
| Agent.ProcessDbResultsNeverAnswers | research_terminal/research_agent.py:94-102 | As written, `process_db_results` returns `None` or raises, and never makes the answering call. |
| Agent.ProcessDbResultsIntendedAnswers | research_terminal/research_agent.py:94-102 | With the intended gate, an answer comes exactly when the verdict is "yes" and the answering call returns, and that reply is the answer. A "no" verdict gives `None`. |
| Agent.DbNeverAnswers | research_terminal/research_agent.py:147-154 | As written, the store's side of `run_agent` never yields an answer, so `run_agent` always searches the web unless it raises. |
| Agent.PyTake | research_terminal/research_agent.py:52 | `xs[:n]` is a prefix of `xs`, of length `min(n, len(xs))` for `n >= 0`. |
| Agent.UnvisitedCounts | research_terminal/research_agent.py:51 | The filter drops every address visited before and keeps every other result exactly as often as the search returned it. |
| Agent.UnvisitedFresh | research_terminal/research_agent.py:51 | Every result kept is `None` or an address not visited before. |
| Agent.PresentFrom | research_terminal/research_agent.py:53 | Dropping `None`s keeps only addresses that were among the results, and never more of them. |
| Agent.BrowseBound | research_terminal/research_agent.py:51-53 | At most `max_links` pages are browsed, and none that was visited before. |
| Agent.LinksInResultOrder | research_terminal/research_agent.py:51-53 | Fresh results with addresses, no more than `max_links` of them, are all browsed, in search-result order. |
| Agent.PresentCounts | research_terminal/research_agent.py:53 | Dropping `None`s keeps each address exactly as often as it occurs. The list shrinks by exactly the number of `None`s. |
| Agent.UnvisitedShorter | research_terminal/research_agent.py:51 | The visited filter never lengthens the results. |
| Agent.RepeatsBrowsed | research_terminal/research_agent.py:51-53 | When the results fit within `max_links`, an address not visited before is browsed exactly as often as the search returned it. |
| Agent.NonesTakePlaces | research_terminal/research_agent.py:51-53 | The pages browsed number the places kept by `[:max_links]` less the `None`s among them. |
| Agent.RepeatsBrowsedTwice | research_terminal/research_agent.py:51-53 | Example: a fresh address listed twice, with three places, is browsed twice. |
| Agent.NoneTakesAPlace | research_terminal/research_agent.py:51-53 | Example: of `[None, a, b]` with two places, only `a` is browsed. |
| Agent.ChunkSummariesLines | research_terminal/research_agent.py:78-79 | When no question or summary spans lines, the rendering has three lines per summary, in order: question, summary and relevance. |
| Agent.ArticleHeaderLines | research_terminal/research_agent.py:63-76 | The article opens with a blank line and its heading, then one line each for the title, the source address, the question and the main ideas. |
| Agent.Collect | research_terminal/research_agent.py:53 | The comprehension over browse calls gives all the articles, in order, when no call fails, and otherwise the first failure's error. |
| Agent.ResearchAgent.constructor | research_terminal/research_agent.py:18-22 | A new agent has visited no address. |
| Agent.ResearchAgent.BrowseWebsite | research_terminal/research_agent.py:56-76 | The article rendered from the summary of the scraped page, or the summariser's error. The address joins `visitedUrls` only on success. |
| Agent.ResearchAgent.SearchWeb | research_terminal/research_agent.py:47-53 | The articles of the addresses to browse, in order, or the first error. `visitedUrls` gains exactly the addresses browsed before that error. |
| Agent.ResearchAgent.BrowseEach | research_terminal/research_agent.py:53 | The same, for a given list of addresses, with loop invariants over the outcomes so far. |
| Agent.ResearchAgent.ProcessWebSearch | research_terminal/research_agent.py:130-142 | Searches with three links and joins the articles with blank lines. Asks for a report on exactly `[question]` and renders it, or returns the first error. |
| Agent.ResearchAgent.RunAgent | research_terminal/research_agent.py:144-154 | Searches the web exactly when the store side gives `None` or an empty answer. Otherwise it returns the store's answer, or its error, without touching `visitedUrls`. |
| Agent.BeautifyReportOpens | research_terminal/research_agent.py:116-118 | The rendered report begins with `Report on '<original question>'` and a blank line. |
| Agent.BeautifyReportSections | research_terminal/research_agent.py:116-124 | Every main-body section appears in full after the head, each after the one before it and a blank line. |
| Agent.BeautifyReportReferences | research_terminal/research_agent.py:116-127 | Every reference appears in full after the conclusion, each after the one before it and a blank line. |

## Findings

| source | as written | input that shows it | evidently intended | confidence | as-written member | corrected member |
|---|---|---|---|---|---|---|
| research_terminal/research_agent.py:95 | `relevance.relevance == 'yes'` compares a member of the plain `Enum` `Relevant` with a string, which is always false | a relevance verdict `CheckRelevance(relevance=Relevant.YES, ...)` from the model | compare the member's value (`relevance.relevance.value == 'yes'`), so that a relevant store answer is returned without searching | high; not executed | Agent.ProcessDbResultsNeverAnswers | Agent.ProcessDbResultsIntendedAnswers |

`Agent.DbNeverAnswers` carries the as-written consequence up to `run_agent`. `Agent.ResearchAgent.RunAgent` uses the corrected gate.

## Left out

- Logging and `print` are output with no effect on what is returned.
- Agent.ResearchAgent.ProcessWebSearch: `os.makedirs`, `write_to_file` and `db.add_text` after the report is built are assumed not to raise. The store update that a later `run_agent` would see in `query_db` is not modelled.
- The vector store (`ChromaDBClient`) is not modelled; the `documents` its query returns are an input.
- The DuckDuckGo search is not modelled; the `href`s of its results are an input.
- Selenium is not modelled: the browser, `get_soup`, the page wait and `quit`. A page is its list of elements, with tag, text and `href`.
- `urljoin` is a parameter.
- Agent.ResearchAgent.BrowseWebsite: the agent's `World` oracles `complete` and `summarize`, and the `chat` of `TextProcessing.SummarizeText`, are not tied to `Llama.ChatCompletion`'s outcomes. `complete` and `summarize` are functions of their input, so a repeated address gets the same summary, where the sampling model may answer differently.
- Strings.ReprChar: unassigned code points (Unicode category Cn) are written as themselves. Python's `repr` escapes them too; the table of assigned characters is that of Unicode 15.0.
- The scroll JavaScript is not modelled. The model records the ratios scrolled to, and checks them against the range guard.
- BeautifulSoup's parsing is not modelled. `find_all` is taken to list the matching elements in document order, and `element.text` is given.
- Loading the Llama model, its sampling parameters, `max_tokens` and the generated GBNF grammar are not modelled. The model's replies are an input, and the schema documentation is an opaque string.
- `json.loads` is an uninterpreted parameter. Validation of the decoded value against the records is modelled.
- Agent.ResearchAgent.BrowseWebsite: the summariser is a parameter of the agent. `TextProcessing.SummarizeText` models it separately, with its chat calls indexed by call number.
- Llama.ChatCompletion: a message whose `content` is `None` is not representable. The source would return that `None`, since it differs from `""`.
- Llama.ChatCompletion: the backend's replies are a finite sequence. A run that would call the backend again after them ends as pending (`None`), because replies without choices can keep the loop going indefinitely.
- Agent.ResearchAgent.RunAgent: models `run_agent` with the corrected relevance gate (see Findings). `Agent.DbAnswerAsWritten` and `Agent.DbNeverAnswers` keep the as-written behaviour.
- Floating point: the scroll ratio is a real number, not a binary float.
- `generate_search_queries` is never called by the agent; it is modelled on its own.
- The other helpers in `text.py` (`write_to_file`, `read_txt_files`) are file I/O and are not modelled.
- `pdf_scrape.py`, `main.py` and the grammar generator are not modelled.
