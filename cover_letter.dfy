/**
 * The cover-letter agent (agents/cover_letter_generator.py): the request
 * guards of `process`, the résumé details read from the analyzer's
 * report, and the four generated paragraphs combined into one letter.
 * The prompt-model-parser chain is an input: a function from the prompt's
 * variables to how the chain call ends.
 */
module CoverLetter {
  import opened Outcomes
  import Text
  import ResumeAnalyzer

  /** The four paragraphs the output parser yields (CoverLetterContent). */
  datatype Content = Content(opening: string, skills: string, motivation: string, closing: string)

  /** The résumé details `_extract_resume_details` returns. */
  datatype Details = Details(skills: Value, experience: Value, education: Value)

  /** The variables the prompt is filled with. */
  datatype PromptInput = PromptInput(jobDescription: string, skills: Value, experience: Value, education: Value)

  /** What `generate_cover_letter` returns when it returns. */
  datatype Generated =
    | Letter(content: string, paragraphs: map<string, string>)
    | GenerationError(message: string)

  /** What `process` returns. */
  datatype Reply =
    | Success(content: string, details: map<string, string>)
    | Failed(message: string)

  const PARAGRAPH_BREAK := "\n\n"
  const RESUME_REQUIRED := "Resume path is required for cover letter generation"
  const DESCRIPTION_REQUIRED := "Job description is required for cover letter generation"
  const PROCESSING_FAILED := "Failed to generate cover letter: "

  /**
   * `_extract_resume_details`: three top-level entries of the analyzer's
   * dictionary, each "" when absent.
   */
  function ExtractResumeDetails(insights: Value): (r: Call<Details>)
    ensures r.Returned? <==> insights.Obj?
    ensures r.Threw? ==> r.exception.Error? && r.exception.kind == "AttributeError"
    ensures r.Returned? ==>
      r.value.skills == Lookup(insights.fields, "Key Skills", Str(""))
      && r.value.experience == Lookup(insights.fields, "Experience Summary", Str(""))
      && r.value.education == Lookup(insights.fields, "Education Level", Str(""))
  {
    match insights
    case Obj(fields) =>
      Returned(Details(Lookup(fields, "Key Skills", Str("")),
                       Lookup(fields, "Experience Summary", Str("")),
                       Lookup(fields, "Education Level", Str(""))))
    case _ => Threw(NoGet(insights))
  }

  /**
   * The analyzer's report keeps its key skills and experience summary
   * inside "Current_Profile" and has no education entry at the top level,
   * so all three details are always "".
   */
  lemma DetailsFromReportEmpty(report: ResumeAnalyzer.Report)
    ensures ExtractResumeDetails(ResumeAnalyzer.ToValue(report)) == Returned(Details(Str(""), Str(""), Str("")))
  {
    var v := ResumeAnalyzer.ToValue(report);
    ResumeAnalyzer.ToValueKeys(report);
    assert "Key Skills" !in v.fields;
    assert "Experience Summary" !in v.fields;
    assert "Education Level" !in v.fields;
  }

  /** The `paragraphs` dictionary of a successful generation. */
  function Paragraphs(c: Content): map<string, string> {
    map["opening" := c.opening, "skills" := c.skills, "motivation" := c.motivation, "closing" := c.closing]
  }

  /** The letter: the four paragraphs in order, separated by blank lines. */
  function Combine(c: Content): string {
    Text.Join([c.opening, c.skills, c.motivation, c.closing], PARAGRAPH_BREAK)
  }

  /**
   * The letter consists of the four paragraphs in order with a blank line
   * between each two, and the paragraphs dictionary, read in the order
   * opening, skills, motivation, closing, recombines into the letter.
   */
  lemma CombineSpec(c: Content)
    ensures Combine(c) == c.opening + PARAGRAPH_BREAK + c.skills + PARAGRAPH_BREAK + c.motivation + PARAGRAPH_BREAK + c.closing
    ensures Paragraphs(c).Keys == {"opening", "skills", "motivation", "closing"}
    ensures var p := Paragraphs(c);
      Combine(c) == Text.Join([p["opening"], p["skills"], p["motivation"], p["closing"]], PARAGRAPH_BREAK)
    ensures |Combine(c)| == |c.opening| + |c.skills| + |c.motivation| + |c.closing| + 6
  {
    var ps := [c.opening, c.skills, c.motivation, c.closing];
    assert ps[1..][1..][1..] == [c.closing];
    assert Text.Join(ps[1..][1..], PARAGRAPH_BREAK) == c.motivation + PARAGRAPH_BREAK + c.closing;
    assert Text.Join(ps[1..], PARAGRAPH_BREAK) == c.skills + PARAGRAPH_BREAK + (c.motivation + PARAGRAPH_BREAK + c.closing);
  }

  /**
   * `generate_cover_letter`: a failure of the résumé analysis propagates
   * (it happens before the guarded block); the chain's failure becomes the
   * error result with `str(e)`; otherwise the combined letter and its
   * paragraphs.
   */
  function GenerateCoverLetter(jobDescription: string, analysis: Call<Value>, chain: PromptInput -> Call<Content>): (r: Call<Generated>)
    ensures analysis.Threw? ==> r == Threw(analysis.exception)
    ensures r.Returned? && r.value.Letter? ==>
      exists c: Content :: r.value == Letter(Combine(c), Paragraphs(c))
  {
    var insights :- analysis;
    var details :- ExtractResumeDetails(insights);
    var input := PromptInput(jobDescription, details.skills, details.experience, details.education);
    match chain(input)
    case Returned(c) => Returned(Letter(Combine(c), Paragraphs(c)))
    case Threw(e) => Returned(GenerationError(Describe(e)))
  }

  /**
   * `process`: a missing résumé path, then a blank request, are refused
   * before anything else; a raised exception is reported with a prefix; a
   * generation error passes through unchanged.
   */
  function Process(query: string, resumePath: Option<string>, analysis: Call<Value>, chain: PromptInput -> Call<Content>): (r: Reply)
    ensures !Truthy(resumePath) ==> r == Failed(RESUME_REQUIRED)
    ensures Truthy(resumePath) && Text.Strip(query) == "" ==> r == Failed(DESCRIPTION_REQUIRED)
    ensures Truthy(resumePath) && analysis.Threw? ==>
      r == Failed(PROCESSING_FAILED + Describe(analysis.exception)) || r == Failed(DESCRIPTION_REQUIRED)
    ensures r.Success? ==> Truthy(resumePath) && Text.Strip(query) != "" && analysis.Returned?
  {
    if !Truthy(resumePath) then Failed(RESUME_REQUIRED)
    else
      var jobDescription := Text.Strip(query);
      if jobDescription == "" then Failed(DESCRIPTION_REQUIRED)
      else
        match GenerateCoverLetter(jobDescription, analysis, chain)
        case Threw(e) => Failed(PROCESSING_FAILED + Describe(e))
        case Returned(Letter(content, paragraphs)) => Success(content, paragraphs)
        case Returned(GenerationError(message)) => Failed(message)
  }

  /**
   * A request that is empty or all whitespace is refused once a résumé
   * path is given, and the model is never asked when either guard refuses.
   */
  lemma ProcessGuards(query: string, resumePath: Option<string>, analysis: Call<Value>,
                      chain: PromptInput -> Call<Content>, other: PromptInput -> Call<Content>)
    ensures (forall k :: 0 <= k < |query| ==> query[k] in Text.WHITESPACE) && Truthy(resumePath) ==>
      Process(query, resumePath, analysis, chain) == Failed(DESCRIPTION_REQUIRED)
    ensures !Truthy(resumePath) || Text.Strip(query) == "" ==>
      Process(query, resumePath, analysis, chain) == Process(query, resumePath, analysis, other)
  {
    Text.StripCharsEmpty(query, Text.WHITESPACE);
  }

  /**
   * On success the reply's content is the four paragraphs of some chain
   * answer joined by blank lines, and its details are those paragraphs; the
   * chain was asked with the stripped request as the job description.
   */
  lemma ProcessSuccess(query: string, resumePath: Option<string>, analysis: Call<Value>, chain: PromptInput -> Call<Content>)
    ensures var r := Process(query, resumePath, analysis, chain);
      r.Success? ==>
        analysis.Returned? && ExtractResumeDetails(analysis.value).Returned?
        && var d := ExtractResumeDetails(analysis.value).value;
           var c := chain(PromptInput(Text.Strip(query), d.skills, d.experience, d.education));
           c.Returned? && r.content == Combine(c.value) && r.details == Paragraphs(c.value)
  {
  }

  /**
   * With the analyzer's own report, the chain is always asked with empty
   * skills, experience and education: the letter never sees the résumé.
   */
  lemma ChainSeesNoResume(query: string, resumePath: Option<string>, report: ResumeAnalyzer.Report, chain: PromptInput -> Call<Content>)
    requires Truthy(resumePath) && Text.Strip(query) != ""
    ensures var input := PromptInput(Text.Strip(query), Str(""), Str(""), Str(""));
      Process(query, resumePath, Returned(ResumeAnalyzer.ToValue(report)), chain)
      == match chain(input)
         case Returned(c) => Success(Combine(c), Paragraphs(c))
         case Threw(e) => Failed(Describe(e))
  {
    DetailsFromReportEmpty(report);
  }
}
