/**
 * The prompt builders of the research pipeline. Every prompt is fixed text with
 * one or two slots filled by plain concatenation; nothing put into a slot is
 * escaped. A `Frame` has one slot, a `Template` two; each comes with a reader
 * that takes a prompt apart again, and the lemmas say when reading back gives
 * exactly what was filled in.
 */
module Prompts {
  import opened Wrappers
  import opened Strings

  /** Fixed text around one slot. */
  datatype Frame = Frame(head: string, tail: string) {
    function Fill(x: string): string
    {
      head + x + tail
    }

    /** The slot of a prompt built from this frame; `None` when the fixed text is missing. */
    function Unfill(p: string): Option<string>
    {
      if |head| + |tail| <= |p| && StartsWith(p, head) && EndsWith(p, tail)
      then Some(p[|head|..|p| - |tail|])
      else None
    }
  }

  /** Fixed text around two slots; the second slot follows `middle`. */
  datatype Template = Template(head: string, middle: string, tail: string) {
    function Fill(a: string, b: string): string
    {
      head + a + middle + b + tail
    }

    /**
     * The two slots of a prompt built from this template: the first slot ends
     * at the first occurrence of the first character of `middle`.
     */
    function Unfill(p: string): Option<(string, string)>
    {
      if |middle| == 0 then None
      else
        match Frame(head, tail).Unfill(p)
        case None => None
        case Some(body) =>
          var i := IndexOf(body, middle[0]);
          if OccursAt(body, middle, i) then Some((body[..i], body[i + |middle|..])) else None
    }
  }

  lemma FrameRoundTrip(f: Frame, x: string)
    ensures f.Unfill(f.Fill(x)) == Some(x)
  {
    var p := f.Fill(x);
    assert p[..|f.head|] == f.head;
    assert p[|p| - |f.tail|..] == f.tail;
    assert p[|f.head|..|p| - |f.tail|] == x;
  }

  /** Whatever a frame reads out of a prompt refills to that very prompt. */
  lemma FrameUnfillFills(f: Frame, p: string)
    requires f.Unfill(p).Some?
    ensures f.Fill(f.Unfill(p).value) == p
  {
    var x := f.Unfill(p).value;
    assert p == p[..|f.head|] + p[|f.head|..|p| - |f.tail|] + p[|p| - |f.tail|..];
  }

  /**
   * A prompt reads back into the slots it was filled with whenever the first
   * slot avoids the first character of `middle`.
   */
  lemma TemplateRoundTrip(t: Template, a: string, b: string)
    requires |t.middle| >= 1 && t.middle[0] !in a
    ensures t.Unfill(t.Fill(a, b)) == Some((a, b))
  {
    var body := a + t.middle + b;
    var p := t.Fill(a, b);
    assert Frame(t.head, t.tail).Unfill(p) == Some(body) by {
      assert p == Frame(t.head, t.tail).Fill(body);
      FrameRoundTrip(Frame(t.head, t.tail), body);
    }
    assert IndexOf(body, t.middle[0]) == |a| by {
      FirstAfter(a, t.middle, b);
    }
    assert OccursAt(body, t.middle, |a|) by {
      assert body[|a|..|a| + |t.middle|] == t.middle;
    }
    TemplateUnfillAt(t, p, body, |a|);
    assert body[..|a|] == a && body[|a| + |t.middle|..] == b;
  }

  /** Once the frame is stripped, the slots split at the first character of `middle`. */
  lemma TemplateUnfillAt(t: Template, p: string, body: string, i: int)
    requires |t.middle| >= 1
    requires Frame(t.head, t.tail).Unfill(p) == Some(body)
    requires IndexOf(body, t.middle[0]) == i && OccursAt(body, t.middle, i)
    ensures t.Unfill(p) == Some((body[..i], body[i + |t.middle|..]))
  {
  }

  lemma FirstAfter(a: string, m: string, b: string)
    requires |m| >= 1 && m[0] !in a
    ensures IndexOf(a + m + b, m[0]) == |a|
  {
    var body := a + m + b;
    var i := IndexOf(body, m[0]);
    assert body[|a|] == m[0];
    assert forall j :: 0 <= j < |a| ==> body[j] == a[j];
  }

  /**
   * The converse: what a template reads out of a prompt refills to that prompt,
   * and its first slot avoids the first character of `middle`.
   */
  lemma TemplateUnfillFills(t: Template, p: string)
    requires t.Unfill(p).Some?
    ensures var u := t.Unfill(p).value;
      t.Fill(u.0, u.1) == p && t.middle[0] !in u.0
  {
    var f := Frame(t.head, t.tail);
    var body := f.Unfill(p).value;
    var i := IndexOf(body, t.middle[0]);
    var a, b := body[..i], body[i + |t.middle|..];
    assert t.Unfill(p).value == (a, b);
    assert f.Fill(body) == p by {
      FrameUnfillFills(f, p);
    }
    assert body == a + t.middle + b by {
      assert OccursAt(body, t.middle, i);
    }
    assert t.Fill(a, b) == f.Fill(a + t.middle + b);
    assert t.middle[0] !in a by {
      forall j | 0 <= j < |a| ensures a[j] != t.middle[0] {
        assert a[j] == body[j];
      }
    }
  }

  /**
   * Slots are not escaped: a first slot that holds `middle` gives the same
   * prompt as a shorter first slot and a longer second one.
   */
  lemma TemplateAmbiguous(t: Template, a1: string, a2: string, b: string)
    ensures t.Fill(a1 + t.middle + a2, b) == t.Fill(a1, a2 + t.middle + b)
  {
    assert t.head + (a1 + t.middle + a2) + t.middle + b + t.tail
        == t.head + a1 + t.middle + (a2 + t.middle + b) + t.tail;
  }

  lemma IntStringNoSpace(n: int)
    ensures ' ' !in IntString(n)
  {
    var d := NatDigits(if n < 0 then -n else n);
    assert forall i :: 0 <= i < |d| ==> d[i] != ' ';
  }

  // ---------------------------------------------------------------------------
  // The prompts

  const DefaultNumQueries: int := 3

  const SearchQueriesTemplate: Template := Template(
    "Write ",
    " " + "separate google search queries to search online that would provide a comprehensive understanding of \"",
    "\" Write your answer as a json array.")

  function GenerateSearchQueriesPrompt(question: string, numQueries: int): string
  {
    SearchQueriesTemplate.Fill(IntString(numQueries), question)
  }

  /** The number of queries asked for and the question both read back from the prompt. */
  lemma GenerateSearchQueriesPromptReadsBack(question: string, numQueries: int)
    ensures var u := SearchQueriesTemplate.Unfill(GenerateSearchQueriesPrompt(question, numQueries));
      u.Some? && ParseInt(u.value.0) == Some(numQueries) && u.value.1 == question
  {
    IntStringNoSpace(numQueries);
    IntStringRoundTrip(numQueries);
    TemplateRoundTrip(SearchQueriesTemplate, IntString(numQueries), question);
  }

  const CheckRelevanceTemplate: Template := Template(
    "You are provided with a query and information extracted from a database. Your task is to simply do a comparison and determine if the information provided provides a relevant and comprehensive answer to the query. Give me your rationale for your decision. \n\n Query: \n",
    "\n\n Database Information: \n",
    "")

  function CheckRelevancePrompt(question: string, text: string): string
  {
    CheckRelevanceTemplate.Fill(question, text)
  }

  lemma CheckRelevancePromptReadsBack(question: string, text: string)
    requires '\n' !in question
    ensures CheckRelevanceTemplate.Unfill(CheckRelevancePrompt(question, text)) == Some((question, text))
  {
    TemplateRoundTrip(CheckRelevanceTemplate, question, text);
  }

  const AnswerQuestionTemplate: Template := Template(
    "Answer the following question based on the information provided. Be as detailed as possible but do not add anything that is not included: \n\n Query: ",
    "\n",
    "")

  function AnswerQuestionPrompt(question: string, dbResults: string): string
  {
    AnswerQuestionTemplate.Fill(question, dbResults)
  }

  lemma AnswerQuestionPromptReadsBack(question: string, dbResults: string)
    requires '\n' !in question
    ensures AnswerQuestionTemplate.Unfill(AnswerQuestionPrompt(question, dbResults)) == Some((question, dbResults))
  {
    TemplateRoundTrip(AnswerQuestionTemplate, question, dbResults);
  }

  const ResearchReportTemplate: Template := Template(
    "Your task is to provide a comprehensive research report based on the following queries and information. Be as detailed as possible and include any factual information such as numbers, stats, quotes, etc.\n\n Queries\n ",
    "\n\nInformation\n",
    "")

  function ResearchReportPrompt(queries: seq<string>, researchInfo: string): string
  {
    ResearchReportTemplate.Fill(ListRepr(queries), researchInfo)
  }

  /**
   * The queries appear as Python's `str` of the list, which is always one line,
   * so the rendered list and the information both read back, whatever they hold.
   */
  lemma ResearchReportPromptReadsBack(queries: seq<string>, researchInfo: string)
    ensures ResearchReportTemplate.Unfill(ResearchReportPrompt(queries, researchInfo))
      == Some((ListRepr(queries), researchInfo))
  {
    ListReprOneLine(queries);
    TemplateRoundTrip(ResearchReportTemplate, ListRepr(queries), researchInfo);
  }

  const SummarizeTextTemplate: Template := Template(
    "Provide a comprehensive explanation of the following query using the information provided. If the question cannot be answered using the text, simply summarize the text itself. Do not include any information that is not in the text and be as detailed as possible. Include any factual information such as numbers, stats, quoter, etc if available\n\n Query: ",
    "\n\nInformation\n",
    "")

  function SummarizeTextPrompt(question: string, text: string): string
  {
    SummarizeTextTemplate.Fill(question, text)
  }

  lemma SummarizeTextPromptReadsBack(question: string, text: string)
    requires '\n' !in question
    ensures SummarizeTextTemplate.Unfill(SummarizeTextPrompt(question, text)) == Some((question, text))
  {
    TemplateRoundTrip(SummarizeTextTemplate, question, text);
  }

  const FinalSummaryTemplate: Template := Template(
    "Your task is to parse and combine multiple summaries on the same topic to one document. The provided text consists of various sections, each potentially containing a summary relevant to the given query. Unless explicitly stated as irrelevant, all sections should be included in the final output without any modifications or removals.\n\nWhen presented with a query and the corresponding summaries, follow these steps:\n\n1. Carefully read and understand the query to identify the topic and key information being requested.\n\n2. Analyze each section of the provided text:\n   - If a section is marked as \"irrelevant,\" exclude it from the final output.\n   - If a section is not marked as irrelevant, consider it as a relevant summary and include it in the final output.\n\n\n3. Do not modify, remove, or add any content to the individual summaries unless explicitly stated as \"irrelevant.\"\n\n\nQuery: ",
    "\n\nInformation:\n",
    "")

  function FinalSummaryPrompt(question: string, text: string): string
  {
    FinalSummaryTemplate.Fill(question, text)
  }

  lemma FinalSummaryPromptReadsBack(question: string, text: string)
    requires '\n' !in question
    ensures FinalSummaryTemplate.Unfill(FinalSummaryPrompt(question, text)) == Some((question, text))
  {
    TemplateRoundTrip(FinalSummaryTemplate, question, text);
  }

  const CreateSummaryTemplate: Template := Template(
    " Summarize the following text based on the task or question: ",
    "\n" + "    If the question cannot be answered using the text, simply summarize the text itself.\n    Do not include any information that is not in the text.\n    ",
    "\n")

  /** The question fills the first slot and the chunk the second. */
  function CreateSummaryPrompt(chunk: string, question: string): string
  {
    CreateSummaryTemplate.Fill(question, chunk)
  }

  lemma CreateSummaryPromptReadsBack(chunk: string, question: string)
    requires '\n' !in question
    ensures CreateSummaryTemplate.Unfill(CreateSummaryPrompt(chunk, question)) == Some((question, chunk))
  {
    TemplateRoundTrip(CreateSummaryTemplate, question, chunk);
  }

  const GenerateReportFrame: Frame := Frame(
    "You are an advanced AI research assistant, specialized in creating comprehensive research reports based on given queries and information extracted from the internet.\n\nYour task is to analyze the provided queries and accompanying information, and generate a well-structured research report that addresses all aspects of the queries.\n\nWhen presented with queries and relevant information, follow these steps:\n\n1. Carefully read and understand each query, identifying the key research areas and objectives.\n\n2. Thoroughly analyze the provided information, extracting and organizing the relevant data, facts, and insights related to each query.\n\n3. Structure the research report in a logical and easy-to-follow format, with clear sections and subheadings corresponding to each query or research area.\n\n4. Within each section, present the relevant information in a concise yet comprehensive manner, ensuring that all aspects of the query are addressed.\n\n5. Use proper academic or professional writing style, with clear and well-structured paragraphs, appropriate citations (if applicable), and a consistent tone throughout the report.\n\n6. Include any relevant references, sources, or citations to support the information presented in the report.\n\n7. Provide a well-rounded conclusion that summarizes the key findings and insights from the research.\n\n8. Ensure that the final research report adheres to the expected output format specified in the following documentation:\n\n",
    "\n\nYour goal is to create a high-quality, comprehensive research report that effectively synthesizes the provided information to address the given queries, serving as a valuable resource for the intended audience.\n\n")

  /** The system message of the report call. */
  function GenerateReportPrompt(documentation: string): string
  {
    GenerateReportFrame.Fill(documentation)
  }

  /** The documentation reads back out of the report system message verbatim. */
  lemma GenerateReportPromptReadsBack(documentation: string)
    ensures GenerateReportFrame.Unfill(GenerateReportPrompt(documentation)) == Some(documentation)
  {
    FrameRoundTrip(GenerateReportFrame, documentation);
  }
}
