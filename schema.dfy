/**
 * The structured-output records of the research pipeline (`Relevant`,
 * `CheckRelevance`, `Summary`, `ArticleSummary`, `Reference`, `Section`,
 * `ResearchReport`, `SearchQueries`) and their construction from a decoded JSON
 * object, `Model(**obj)`: every required field must be present with the right
 * type, optional fields default to `None`, and unknown keys are ignored.
 * `FromCompletion` is the decode-then-validate step every structured model call
 * goes through.
 */
module Schema {
  import opened Wrappers
  import opened Json
  import Llama

  // ---------------------------------------------------------------------------
  // Records

  /** A plain `Enum` with two members; `Value` is the member's value. */
  datatype Relevant = Yes | No {
    function Value(): string { if Yes? then "yes" else "no" }

    /** `str(member)` (and `{member}` in an f-string) of a plain Enum. */
    function Str(): string { if Yes? then "Relevant.YES" else "Relevant.NO" }
  }

  datatype SearchQueries = SearchQueries(queries: seq<string>, chainOfThought: string)

  datatype CheckRelevance = CheckRelevance(relevance: Relevant, rationale: string)

  datatype Summary = Summary(question: string, summary: string, relevance: Relevant)

  /** The field name `main_ides` is the source's own spelling. */
  datatype ArticleSummary = ArticleSummary(
    title: string,
    question: string,
    mainIdes: string,
    chunkSummaries: seq<Summary>,
    strengths: Option<string>,
    weaknesses: Option<string>,
    conclusion: Option<string>)

  datatype Reference = Reference(title: string, url: string)

  datatype Section = Section(title: string, content: string)

  datatype ResearchReport = ResearchReport(
    title: string,
    originalQuestion: string,
    queries: seq<string>,
    executiveSummary: string,
    introduction: Section,
    mainBody: seq<Section>,
    conclusion: Section,
    references: seq<Reference>)

  /** Why a structured model call produced no record. */
  datatype CallError =
    | Exception(message: string)   // the call itself raised
    | JsonDecodeError              // `json.loads` rejected the reply
    | NotAMapping                  // `**` met a decoded value that is not an object (`TypeError`)
    | ValidationError              // the decoded object does not fit the record

  // ---------------------------------------------------------------------------
  // Field validation

  /** `Relevant(value)`: the member whose value is `s`. */
  function RelevantFromValue(s: string): Option<Relevant>
  {
    if s == "yes" then Some(Yes) else if s == "no" then Some(No) else None
  }

  function StrField(fields: map<string, Json>, key: string): Option<string>
  {
    if key in fields && fields[key].JString? then Some(fields[key].s) else None
  }

  /** An `Optional[str]` field with default `None`: absent or null is `None`. */
  function OptStrField(fields: map<string, Json>, key: string): Option<Option<string>>
  {
    if key !in fields || fields[key].JNull? then Some(None)
    else if fields[key].JString? then Some(Some(fields[key].s))
    else None
  }

  function RelevantField(fields: map<string, Json>, key: string): Option<Relevant>
  {
    if key in fields && fields[key].JString? then RelevantFromValue(fields[key].s) else None
  }

  function StrItems(items: seq<Json>): Option<seq<string>>
  {
    if |items| == 0 then Some([])
    else
      var rest := StrItems(items[1..]);
      if items[0].JString? && rest.Some? then Some([items[0].s] + rest.value) else None
  }

  function StrListField(fields: map<string, Json>, key: string): Option<seq<string>>
  {
    if key in fields && fields[key].JArray? then StrItems(fields[key].items) else None
  }

  // ---------------------------------------------------------------------------
  // Record validation, `Model(**obj)`

  function ValidateSearchQueries(j: Json): Option<SearchQueries>
  {
    if !j.JObject? then None
    else
      var q := StrListField(j.fields, "queries");
      var c := StrField(j.fields, "chain_of_thought");
      if q.Some? && c.Some? then Some(SearchQueries(q.value, c.value)) else None
  }

  function ValidateCheckRelevance(j: Json): Option<CheckRelevance>
  {
    if !j.JObject? then None
    else
      var r := RelevantField(j.fields, "relevance");
      var why := StrField(j.fields, "rationale");
      if r.Some? && why.Some? then Some(CheckRelevance(r.value, why.value)) else None
  }

  function ValidateSummary(j: Json): Option<Summary>
  {
    if !j.JObject? then None
    else
      var q := StrField(j.fields, "question");
      var s := StrField(j.fields, "summary");
      var r := RelevantField(j.fields, "relevance");
      if q.Some? && s.Some? && r.Some? then Some(Summary(q.value, s.value, r.value)) else None
  }

  function ValidateSummaries(items: seq<Json>): Option<seq<Summary>>
  {
    if |items| == 0 then Some([])
    else
      var first := ValidateSummary(items[0]);
      var rest := ValidateSummaries(items[1..]);
      if first.Some? && rest.Some? then Some([first.value] + rest.value) else None
  }

  function SummariesField(f: map<string, Json>, key: string): Option<seq<Summary>>
  {
    if key in f && f[key].JArray? then ValidateSummaries(f[key].items) else None
  }

  function ValidateArticleSummary(j: Json): Option<ArticleSummary>
  {
    if !j.JObject? then None
    else
      var f := j.fields;
      var t := StrField(f, "title");
      var q := StrField(f, "question");
      var m := StrField(f, "main_ides");
      var cs := SummariesField(f, "chunk_summaries");
      var s := OptStrField(f, "strengths");
      var w := OptStrField(f, "weaknesses");
      var c := OptStrField(f, "conclusion");
      if t.Some? && q.Some? && m.Some? && cs.Some? && s.Some? && w.Some? && c.Some?
      then Some(ArticleSummary(t.value, q.value, m.value, cs.value, s.value, w.value, c.value))
      else None
  }

  function ValidateReference(j: Json): Option<Reference>
  {
    if !j.JObject? then None
    else
      var t := StrField(j.fields, "title");
      var u := StrField(j.fields, "url");
      if t.Some? && u.Some? then Some(Reference(t.value, u.value)) else None
  }

  function ValidateSection(j: Json): Option<Section>
  {
    if !j.JObject? then None
    else
      var t := StrField(j.fields, "title");
      var c := StrField(j.fields, "content");
      if t.Some? && c.Some? then Some(Section(t.value, c.value)) else None
  }

  function ValidateSections(items: seq<Json>): Option<seq<Section>>
  {
    if |items| == 0 then Some([])
    else
      var first := ValidateSection(items[0]);
      var rest := ValidateSections(items[1..]);
      if first.Some? && rest.Some? then Some([first.value] + rest.value) else None
  }

  function ValidateReferences(items: seq<Json>): Option<seq<Reference>>
  {
    if |items| == 0 then Some([])
    else
      var first := ValidateReference(items[0]);
      var rest := ValidateReferences(items[1..]);
      if first.Some? && rest.Some? then Some([first.value] + rest.value) else None
  }

  function SectionField(f: map<string, Json>, key: string): Option<Section>
  {
    if key in f then ValidateSection(f[key]) else None
  }

  function SectionsField(f: map<string, Json>, key: string): Option<seq<Section>>
  {
    if key in f && f[key].JArray? then ValidateSections(f[key].items) else None
  }

  function ReferencesField(f: map<string, Json>, key: string): Option<seq<Reference>>
  {
    if key in f && f[key].JArray? then ValidateReferences(f[key].items) else None
  }

  function ValidateResearchReport(j: Json): Option<ResearchReport>
  {
    if !j.JObject? then None
    else
      var f := j.fields;
      var t := StrField(f, "title");
      var oq := StrField(f, "original_question");
      var qs := StrListField(f, "queries");
      var es := StrField(f, "executive_summary");
      var intro := SectionField(f, "introduction");
      var body := SectionsField(f, "main_body");
      var concl := SectionField(f, "conclusion");
      var refs := ReferencesField(f, "references");
      if t.Some? && oq.Some? && qs.Some? && es.Some? && intro.Some? && body.Some? && concl.Some? && refs.Some?
      then Some(ResearchReport(t.value, oq.value, qs.value, es.value, intro.value, body.value, concl.value, refs.value))
      else None
  }

  // ---------------------------------------------------------------------------
  // Encoding, the inverse of validation

  function StrItemsJson(xs: seq<string>): (r: seq<Json>)
    ensures |r| == |xs| && forall i :: 0 <= i < |xs| ==> r[i] == JString(xs[i])
  {
    if |xs| == 0 then [] else [JString(xs[0])] + StrItemsJson(xs[1..])
  }

  function OptStrJson(o: Option<string>): Json
  {
    if o.None? then JNull else JString(o.value)
  }

  function SearchQueriesJson(x: SearchQueries): Json
  {
    JObject(map["queries" := JArray(StrItemsJson(x.queries)), "chain_of_thought" := JString(x.chainOfThought)])
  }

  function CheckRelevanceJson(x: CheckRelevance): Json
  {
    JObject(map["relevance" := JString(x.relevance.Value()), "rationale" := JString(x.rationale)])
  }

  function SummaryJson(x: Summary): Json
  {
    JObject(map["question" := JString(x.question), "summary" := JString(x.summary),
                "relevance" := JString(x.relevance.Value())])
  }

  function SummariesJson(xs: seq<Summary>): (r: seq<Json>)
    ensures |r| == |xs| && forall i :: 0 <= i < |xs| ==> r[i] == SummaryJson(xs[i])
  {
    if |xs| == 0 then [] else [SummaryJson(xs[0])] + SummariesJson(xs[1..])
  }

  function ArticleSummaryJson(x: ArticleSummary): Json
  {
    JObject(map["title" := JString(x.title), "question" := JString(x.question),
                "main_ides" := JString(x.mainIdes), "chunk_summaries" := JArray(SummariesJson(x.chunkSummaries)),
                "strengths" := OptStrJson(x.strengths), "weaknesses" := OptStrJson(x.weaknesses),
                "conclusion" := OptStrJson(x.conclusion)])
  }

  function SectionJson(x: Section): Json
  {
    JObject(map["title" := JString(x.title), "content" := JString(x.content)])
  }

  function ReferenceJson(x: Reference): Json
  {
    JObject(map["title" := JString(x.title), "url" := JString(x.url)])
  }

  function SectionsJson(xs: seq<Section>): (r: seq<Json>)
    ensures |r| == |xs| && forall i :: 0 <= i < |xs| ==> r[i] == SectionJson(xs[i])
  {
    if |xs| == 0 then [] else [SectionJson(xs[0])] + SectionsJson(xs[1..])
  }

  function ReferencesJson(xs: seq<Reference>): (r: seq<Json>)
    ensures |r| == |xs| && forall i :: 0 <= i < |xs| ==> r[i] == ReferenceJson(xs[i])
  {
    if |xs| == 0 then [] else [ReferenceJson(xs[0])] + ReferencesJson(xs[1..])
  }

  function ResearchReportJson(x: ResearchReport): Json
  {
    JObject(map["title" := JString(x.title), "original_question" := JString(x.originalQuestion),
                "queries" := JArray(StrItemsJson(x.queries)), "executive_summary" := JString(x.executiveSummary),
                "introduction" := SectionJson(x.introduction), "main_body" := JArray(SectionsJson(x.mainBody)),
                "conclusion" := SectionJson(x.conclusion), "references" := JArray(ReferencesJson(x.references))])
  }

  // ---------------------------------------------------------------------------
  // Properties of the records and their validation

  /** `Relevant` has exactly the two members `YES = "yes"` and `NO = "no"`. */
  lemma RelevantMembers(s: string)
    ensures RelevantFromValue(s).Some? <==> s == "yes" || s == "no"
    ensures forall r: Relevant :: RelevantFromValue(r.Value()) == Some(r)
    ensures Yes.Value() != No.Value()
  {
  }

  lemma {:induction false} StrItemsRoundTrip(xs: seq<string>)
    ensures StrItems(StrItemsJson(xs)) == Some(xs)
  {
    if |xs| > 0 {
      assert xs == [xs[0]] + xs[1..];
      var js := StrItemsJson(xs);
      assert js[1..] == StrItemsJson(xs[1..]);
      StrItemsRoundTrip(xs[1..]);
      assert StrItems(js) == Some([xs[0]] + xs[1..]);
    }
  }


  lemma SearchQueriesRoundTrip(x: SearchQueries)
    ensures ValidateSearchQueries(SearchQueriesJson(x)) == Some(x)
  {
    StrItemsRoundTrip(x.queries);
  }

  lemma CheckRelevanceRoundTrip(x: CheckRelevance)
    ensures ValidateCheckRelevance(CheckRelevanceJson(x)) == Some(x)
  {
  }

  /** A `Summary` written out as JSON validates back to itself. */
  lemma SummaryRoundTrip(x: Summary)
    ensures ValidateSummary(SummaryJson(x)) == Some(x)
  {
  }

  lemma {:induction false} SummariesRoundTrip(xs: seq<Summary>)
    ensures ValidateSummaries(SummariesJson(xs)) == Some(xs)
  {
    if |xs| > 0 {
      assert xs == [xs[0]] + xs[1..];
      var js := SummariesJson(xs);
      assert js[1..] == SummariesJson(xs[1..]);
      SummaryRoundTrip(xs[0]);
      SummariesRoundTrip(xs[1..]);
      assert ValidateSummaries(js) == Some([xs[0]] + xs[1..]);
    }
  }


  /** An `ArticleSummary` written out as JSON validates back to itself. */
  lemma ArticleSummaryRoundTrip(x: ArticleSummary)
    ensures ValidateArticleSummary(ArticleSummaryJson(x)) == Some(x)
  {
    SummariesRoundTrip(x.chunkSummaries);
  }

  lemma {:induction false} SectionsRoundTrip(xs: seq<Section>)
    ensures ValidateSections(SectionsJson(xs)) == Some(xs)
  {
    if |xs| > 0 {
      assert xs == [xs[0]] + xs[1..];
      var js := SectionsJson(xs);
      assert js[1..] == SectionsJson(xs[1..]);
      SectionsRoundTrip(xs[1..]);
      assert ValidateSections(js) == Some([xs[0]] + xs[1..]);
    }
  }


  lemma {:induction false} ReferencesRoundTrip(xs: seq<Reference>)
    ensures ValidateReferences(ReferencesJson(xs)) == Some(xs)
  {
    if |xs| > 0 {
      assert xs == [xs[0]] + xs[1..];
      var js := ReferencesJson(xs);
      assert js[1..] == ReferencesJson(xs[1..]);
      ReferencesRoundTrip(xs[1..]);
      assert ValidateReferences(js) == Some([xs[0]] + xs[1..]);
    }
  }


  /** A `ResearchReport` written out as JSON validates back to itself. */
  lemma ResearchReportRoundTrip(x: ResearchReport)
    ensures ValidateResearchReport(ResearchReportJson(x)) == Some(x)
  {
    var f := ResearchReportJson(x).fields;
    ReportFieldsPresent(x);
    StrItemsRoundTrip(x.queries);
    SectionsRoundTrip(x.mainBody);
    ReferencesRoundTrip(x.references);
    ReportScalarFields(f, x);
    ReportNestedFields(f, x);
    ValidateReportFromFields(f, x);
  }

  lemma ReportScalarFields(f: map<string, Json>, x: ResearchReport)
    requires "title" in f && f["title"] == JString(x.title)
    requires "original_question" in f && f["original_question"] == JString(x.originalQuestion)
    requires "queries" in f && f["queries"] == JArray(StrItemsJson(x.queries))
    requires "executive_summary" in f && f["executive_summary"] == JString(x.executiveSummary)
    requires StrItems(StrItemsJson(x.queries)) == Some(x.queries)
    ensures StrField(f, "title") == Some(x.title)
    ensures StrField(f, "original_question") == Some(x.originalQuestion)
    ensures StrListField(f, "queries") == Some(x.queries)
    ensures StrField(f, "executive_summary") == Some(x.executiveSummary)
  {
  }

  lemma ReportNestedFields(f: map<string, Json>, x: ResearchReport)
    requires "introduction" in f && f["introduction"] == SectionJson(x.introduction)
    requires "main_body" in f && f["main_body"] == JArray(SectionsJson(x.mainBody))
    requires "conclusion" in f && f["conclusion"] == SectionJson(x.conclusion)
    requires "references" in f && f["references"] == JArray(ReferencesJson(x.references))
    requires ValidateSections(SectionsJson(x.mainBody)) == Some(x.mainBody)
    requires ValidateReferences(ReferencesJson(x.references)) == Some(x.references)
    ensures SectionField(f, "introduction") == Some(x.introduction)
    ensures SectionsField(f, "main_body") == Some(x.mainBody)
    ensures SectionField(f, "conclusion") == Some(x.conclusion)
    ensures ReferencesField(f, "references") == Some(x.references)
  {
  }

  lemma ValidateReportFromFields(f: map<string, Json>, x: ResearchReport)
    requires StrField(f, "title") == Some(x.title)
    requires StrField(f, "original_question") == Some(x.originalQuestion)
    requires StrListField(f, "queries") == Some(x.queries)
    requires StrField(f, "executive_summary") == Some(x.executiveSummary)
    requires SectionField(f, "introduction") == Some(x.introduction)
    requires SectionsField(f, "main_body") == Some(x.mainBody)
    requires SectionField(f, "conclusion") == Some(x.conclusion)
    requires ReferencesField(f, "references") == Some(x.references)
    ensures ValidateResearchReport(JObject(f)) == Some(x)
  {
  }

  lemma ReportFieldsPresent(x: ResearchReport)
    ensures var f := ResearchReportJson(x).fields;
      && "title" in f && f["title"] == JString(x.title)
      && "original_question" in f && f["original_question"] == JString(x.originalQuestion)
      && "queries" in f && f["queries"] == JArray(StrItemsJson(x.queries))
      && "executive_summary" in f && f["executive_summary"] == JString(x.executiveSummary)
      && "introduction" in f && f["introduction"] == SectionJson(x.introduction)
      && "main_body" in f && f["main_body"] == JArray(SectionsJson(x.mainBody))
      && "conclusion" in f && f["conclusion"] == SectionJson(x.conclusion)
      && "references" in f && f["references"] == JArray(ReferencesJson(x.references))
  {
  }

  /** `Summary` needs all three of its fields; a missing one fails validation. */
  lemma SummaryRequiresFields(fields: map<string, Json>, key: string)
    requires key in {"question", "summary", "relevance"} && key !in fields
    ensures ValidateSummary(JObject(fields)) == None
  {
  }

  /** `CheckRelevance` needs a `relevance` member value and a string `rationale`. */
  lemma CheckRelevanceRequiresFields(fields: map<string, Json>)
    requires "rationale" !in fields || !fields["rationale"].JString?
      || "relevance" !in fields || fields["relevance"] !in {JString("yes"), JString("no")}
    ensures ValidateCheckRelevance(JObject(fields)) == None
  {
  }

  /** `ArticleSummary` needs `title`, `question`, `main_ides` and `chunk_summaries`. */
  lemma ArticleSummaryRequiresFields(fields: map<string, Json>, key: string)
    requires key in {"title", "question", "main_ides", "chunk_summaries"} && key !in fields
    ensures ValidateArticleSummary(JObject(fields)) == None
  {
  }

  /** `strengths`, `weaknesses` and `conclusion` may be left out, and then are `None`. */
  lemma ArticleSummaryOptionalFields(x: ArticleSummary)
    ensures ValidateArticleSummary(JObject(ArticleSummaryJson(x).fields - {"strengths", "weaknesses", "conclusion"}))
      == Some(x.(strengths := None, weaknesses := None, conclusion := None))
  {
    var f := ArticleSummaryJson(x).fields - {"strengths", "weaknesses", "conclusion"};
    assert StrField(f, "title") == Some(x.title);
    assert StrField(f, "question") == Some(x.question);
    assert StrField(f, "main_ides") == Some(x.mainIdes);
    assert SummariesField(f, "chunk_summaries") == Some(x.chunkSummaries) by {
      assert f["chunk_summaries"] == JArray(SummariesJson(x.chunkSummaries));
      SummariesRoundTrip(x.chunkSummaries);
    }
    assert OptStrField(f, "strengths") == Some(None);
    assert OptStrField(f, "weaknesses") == Some(None);
    assert OptStrField(f, "conclusion") == Some(None);
  }

  /** `ResearchReport` needs all eight of its fields. */
  lemma ResearchReportRequiresFields(fields: map<string, Json>, key: string)
    requires key in {"title", "original_question", "queries", "executive_summary",
                     "introduction", "main_body", "conclusion", "references"}
    requires key !in fields
    ensures ValidateResearchReport(JObject(fields)) == None
  {
  }

  /** `Reference` is `(title, url)` and `Section` is `(title, content)`, both required. */
  lemma ReferenceSectionRequireFields(fields: map<string, Json>)
    requires "title" !in fields
    ensures ValidateReference(JObject(fields)) == None && ValidateSection(JObject(fields)) == None
  {
  }

  /** Keys that are not fields of the record are ignored. */
  lemma SummaryIgnoresExtraKeys(fields: map<string, Json>, key: string, v: Json)
    requires key !in {"question", "summary", "relevance"}
    ensures ValidateSummary(JObject(fields[key := v])) == ValidateSummary(JObject(fields))
  {
    assert StrField(fields[key := v], "question") == StrField(fields, "question");
    assert StrField(fields[key := v], "summary") == StrField(fields, "summary");
    assert RelevantField(fields[key := v], "relevance") == RelevantField(fields, "relevance");
  }

  // ---------------------------------------------------------------------------
  // Decoding a model reply into a record

  /**
   * `Model(**json.loads(reply))` after a model call: a raised call, a reply
   * `json.loads` rejects (`parse` returns `None`), a decoded value that is not
   * an object (so `**` raises `TypeError`) and a decoded object that does not
   * validate are four distinct failures.
   */
  function FromCompletion<T>(reply: Llama.Completion, parse: string -> Option<Json>, validate: Json -> Option<T>)
    : (r: Result<T, CallError>)
    ensures r.Success? <==>
      reply.Completed? && parse(reply.content).Some? && parse(reply.content).value.JObject?
      && validate(parse(reply.content).value).Some?
    ensures r.Success? ==> r.value == validate(parse(reply.content).value).value
    ensures r == Failure(JsonDecodeError) <==> reply.Completed? && parse(reply.content).None?
    ensures r == Failure(NotAMapping) <==>
      reply.Completed? && parse(reply.content).Some? && !parse(reply.content).value.JObject?
    ensures r == Failure(ValidationError) <==>
      reply.Completed? && parse(reply.content).Some? && parse(reply.content).value.JObject?
      && validate(parse(reply.content).value).None?
    ensures reply.Raised? ==> r == Failure(Exception(reply.message))
  {
    match reply
    case Raised(m) => Failure(Exception(m))
    case Completed(text) =>
      match parse(text)
      case None => Failure(JsonDecodeError)
      case Some(j) =>
        if !j.JObject? then Failure(NotAMapping)
        else
          match validate(j)
          case None => Failure(ValidationError)
          case Some(x) => Success(x)
  }
}
