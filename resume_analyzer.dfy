/**
 * The résumé analyzer (agents/resume_analyzer.py): how the insights record
 * is assembled from the model's structured answer and the named entities,
 * the `process` branch, and the strategy lookup over a stored analysis.
 * The PDF reader, the language-model chain and spaCy are inputs.
 */
module ResumeAnalyzer {
  import opened Outcomes
  import Text

  // ---------------------------------------------------------------------
  // What the language model returns (the EnhancedResumeAnalysis schema)

  datatype JobRecommendation = JobRecommendation(
    title: string,
    matchScore: int,
    requiredSkills: seq<string>,
    missingSkills: seq<string>,
    nextSteps: seq<string>,
    advice: string)

  datatype Analysis = Analysis(
    keySkills: seq<string>,
    experienceSummary: string,
    educationLevel: string,
    careerObjectives: string,
    recommendedJobs: seq<JobRecommendation>,
    skillGaps: map<string, seq<string>>,
    improvementAreas: seq<string>,
    experienceLevel: seq<string>)

  /** A named entity found by the NLP pass. */
  datatype Entity = Entity(text: string, kind: string)

  // ---------------------------------------------------------------------
  // The insights record

  datatype CareerRecommendation = CareerRecommendation(
    jobTitle: string,
    matchScore: int,
    requiredSkills: seq<string>,
    skillsToDevelop: seq<string>,
    actionPlan: seq<string>,
    searchTips: string)

  datatype Profile = Profile(
    keySkills: seq<string>,
    experienceSummary: string,
    educationLevel: string,
    organizations: seq<string>)

  datatype Development = Development(
    improvementAreas: seq<string>,
    skillGaps: map<string, seq<string>>,
    actionItems: seq<string>)

  datatype Context = Context(
    objectives: string,
    industries: seq<string>,
    experienceLevel: seq<string>)

  datatype Metadata = Metadata(lastUpdated: string, version: string, quality: string)

  datatype Insights = Insights(
    recommendations: seq<CareerRecommendation>,
    profile: Profile,
    development: Development,
    context: Context,
    metadata: Metadata)

  /** What `analyze_resume` returns: the insights, or the error record. */
  datatype Report =
    | Record(insights: Insights)
    | Failure(details: string, timestamp: string)

  const VERSION := "2.0"
  const ANALYSIS_ERROR := "Could not fully analyze resume"

  // ---------------------------------------------------------------------
  // Assembly

  function Recommend(job: JobRecommendation): CareerRecommendation {
    CareerRecommendation(job.title, job.matchScore, job.requiredSkills,
                         job.missingSkills, job.nextSteps, job.advice)
  }

  /** One career recommendation per recommended job, in the same order. */
  function Recommendations(jobs: seq<JobRecommendation>): (recs: seq<CareerRecommendation>)
    ensures |recs| == |jobs|
    ensures forall i :: 0 <= i < |jobs| ==> recs[i] == Recommend(jobs[i])
  {
    seq(|jobs|, i requires 0 <= i < |jobs| => Recommend(jobs[i]))
  }

  /** The texts of the ORG entities, in order of appearance. */
  function OrgTexts(ents: seq<Entity>): seq<string>
    decreases |ents|
  {
    if ents == [] then []
    else (if ents[0].kind == "ORG" then [ents[0].text] else []) + OrgTexts(ents[1..])
  }

  lemma {:induction false} OrgTextsMembers(ents: seq<Entity>, x: string)
    ensures x in OrgTexts(ents) <==> exists i :: 0 <= i < |ents| && ents[i] == Entity(x, "ORG")
    decreases |ents|
  {
    if ents != [] {
      OrgTextsMembers(ents[1..], x);
      if exists i :: 0 <= i < |ents| && ents[i] == Entity(x, "ORG") {
        var i :| 0 <= i < |ents| && ents[i] == Entity(x, "ORG");
        if i > 0 {
          assert ents[1..][i - 1] == ents[i];
        }
      }
    }
  }

  /** `list(set(s))`; the order Python's set gives is not modelled, first occurrences are kept. */
  function Dedup(s: seq<string>): seq<string>
    decreases |s|
  {
    if s == [] then []
    else
      var r := Dedup(s[..|s| - 1]);
      if s[|s| - 1] in r then r else r + [s[|s| - 1]]
  }

  predicate Distinct(s: seq<string>) {
    forall i, j :: 0 <= i < j < |s| ==> s[i] != s[j]
  }

  /** Deduplication keeps exactly the same strings, each once. */
  lemma {:induction false} DedupSpec(s: seq<string>)
    ensures Distinct(Dedup(s))
    ensures forall x :: x in Dedup(s) <==> x in s
    decreases |s|
  {
    if s != [] {
      var init := s[..|s| - 1];
      DedupSpec(init);
      assert s == init + [s[|s| - 1]];
    }
  }

  /** The next steps of every recommended job, concatenated in job order. */
  function ActionItems(jobs: seq<JobRecommendation>): seq<string>
    decreases |jobs|
  {
    if jobs == [] then [] else jobs[0].nextSteps + ActionItems(jobs[1..])
  }

  lemma {:induction false} ActionItemsAppend(a: seq<JobRecommendation>, b: seq<JobRecommendation>)
    ensures ActionItems(a + b) == ActionItems(a) + ActionItems(b)
    decreases |a|
  {
    if a != [] {
      ActionItemsAppend(a[1..], b);
      assert (a + b)[0] == a[0] && (a + b)[1..] == a[1..] + b;
    } else {
      assert a + b == b;
    }
  }

  /**
   * The action items of jobs `a` followed by one more job are those of `a`
   * followed by that job's next steps: the list is a flattening in job order.
   */
  lemma ActionItemsSnoc(a: seq<JobRecommendation>, job: JobRecommendation)
    ensures ActionItems(a + [job]) == ActionItems(a) + job.nextSteps
  {
    ActionItemsAppend(a, [job]);
    assert ActionItems([job]) == job.nextSteps + ActionItems([]);
  }

  /** A step is an action item exactly when some recommended job lists it. */
  lemma {:induction false} ActionItemsMembers(jobs: seq<JobRecommendation>, step: string)
    ensures step in ActionItems(jobs) <==> exists i :: 0 <= i < |jobs| && step in jobs[i].nextSteps
    decreases |jobs|
  {
    if jobs != [] {
      ActionItemsMembers(jobs[1..], step);
      if exists i :: 0 <= i < |jobs| && step in jobs[i].nextSteps {
        var i :| 0 <= i < |jobs| && step in jobs[i].nextSteps;
        if i > 0 {
          assert jobs[1..][i - 1] == jobs[i];
        }
      }
    }
  }

  // ---------------------------------------------------------------------
  // The record as a dictionary

  function RecommendationValue(r: CareerRecommendation): Value {
    Obj(map[
      "Job_Title" := Str(r.jobTitle),
      "Match_Score" := Num(r.matchScore),
      "Required_Skills" := Strs(r.requiredSkills),
      "Skills_to_Develop" := Strs(r.skillsToDevelop),
      "Action_Plan" := Strs(r.actionPlan),
      "Search_Tips" := Str(r.searchTips)])
  }

  function ProfileValue(p: Profile): Value {
    Obj(map[
      "Key_Skills" := Strs(p.keySkills),
      "Experience_Summary" := Str(p.experienceSummary),
      "Education_Level" := Str(p.educationLevel),
      "Organizations" := Strs(p.organizations)])
  }

  function GapsValue(gaps: map<string, seq<string>>): Value {
    Obj(map k | k in gaps :: Strs(gaps[k]))
  }

  function DevelopmentValue(d: Development): Value {
    Obj(map[
      "Improvement_Areas" := Strs(d.improvementAreas),
      "Skill_Gaps" := GapsValue(d.skillGaps),
      "Action_Items" := Strs(d.actionItems)])
  }

  function ContextValue(c: Context): Value {
    Obj(map[
      "Objectives" := Str(c.objectives),
      "Industries" := Strs(c.industries),
      "Experience_Level" := Strs(c.experienceLevel)])
  }

  /** The four sections of the record, before the metadata is added. */
  function Sections(recs: seq<CareerRecommendation>, p: Profile, d: Development, c: Context): map<string, Value> {
    map[
      "Career_Recommendations" := Arr(seq(|recs|, i requires 0 <= i < |recs| => RecommendationValue(recs[i]))),
      "Current_Profile" := ProfileValue(p),
      "Development_Areas" := DevelopmentValue(d),
      "Career_Context" := ContextValue(c)]
  }

  predicate NonEmptyAt(sections: map<string, Value>, key: string) {
    key in sections && Len(sections[key]).Some? && Len(sections[key]).value > 0
  }

  /** "complete" when the recommendations, the profile and the development areas are all non-empty. */
  function Quality(sections: map<string, Value>): string {
    if NonEmptyAt(sections, "Career_Recommendations")
       && NonEmptyAt(sections, "Current_Profile")
       && NonEmptyAt(sections, "Development_Areas")
    then "complete" else "partial"
  }

  /** The insights built from the model's answer, the entities and the clock. */
  function Assemble(a: Analysis, ents: seq<Entity>, now: string): Insights {
    var recs := Recommendations(a.recommendedJobs);
    var profile := Profile(a.keySkills, a.experienceSummary, a.educationLevel, Dedup(OrgTexts(ents)));
    var development := Development(a.improvementAreas, a.skillGaps, ActionItems(a.recommendedJobs));
    // JobRecommendation has no `industry` attribute, so Industries is always empty
    var context := Context(a.careerObjectives, [], a.experienceLevel);
    Insights(recs, profile, development, context,
             Metadata(now, VERSION, Quality(Sections(recs, profile, development, context))))
  }

  /** The dictionary `analyze_resume` returns. */
  function ToValue(report: Report): Value {
    match report
    case Record(ins) =>
      var s := Sections(ins.recommendations, ins.profile, ins.development, ins.context);
      Obj(s["metadata" := Obj(map[
        "last_updated" := Str(ins.metadata.lastUpdated),
        "version" := Str(ins.metadata.version),
        "analysis_quality" := Str(ins.metadata.quality)])])
    case Failure(details, timestamp) =>
      Obj(map["error" := Str(ANALYSIS_ERROR), "details" := Str(details), "timestamp" := Str(timestamp)])
  }

  /** The top-level keys of the returned dictionary. */
  lemma ToValueKeys(report: Report)
    ensures ToValue(report).Obj?
    ensures report.Record? ==>
      ToValue(report).fields.Keys
      == {"Career_Recommendations", "Current_Profile", "Development_Areas", "Career_Context", "metadata"}
    ensures report.Failure? ==> ToValue(report).fields.Keys == {"error", "details", "timestamp"}
  {
  }

  // ---------------------------------------------------------------------
  // Properties of the assembled record

  /** Recommendations are a one-to-one, order-preserving copy of the recommended jobs. */
  lemma AssembleRecommendations(a: Analysis, ents: seq<Entity>, now: string)
    ensures var recs := Assemble(a, ents, now).recommendations;
      |recs| == |a.recommendedJobs|
      && forall i :: 0 <= i < |recs| ==>
           recs[i].jobTitle == a.recommendedJobs[i].title
           && recs[i].matchScore == a.recommendedJobs[i].matchScore
           && recs[i].requiredSkills == a.recommendedJobs[i].requiredSkills
           && recs[i].skillsToDevelop == a.recommendedJobs[i].missingSkills
           && recs[i].actionPlan == a.recommendedJobs[i].nextSteps
           && recs[i].searchTips == a.recommendedJobs[i].advice
  {
  }

  /** Organizations holds each ORG entity text exactly once, and nothing else. */
  lemma AssembleOrganizations(a: Analysis, ents: seq<Entity>, now: string)
    ensures var orgs := Assemble(a, ents, now).profile.organizations;
      Distinct(orgs)
      && forall x :: x in orgs <==> exists i :: 0 <= i < |ents| && ents[i] == Entity(x, "ORG")
  {
    DedupSpec(OrgTexts(ents));
    forall x
      ensures x in OrgTexts(ents) <==> exists i :: 0 <= i < |ents| && ents[i] == Entity(x, "ORG")
    {
      OrgTextsMembers(ents, x);
    }
  }

  lemma MapNonEmpty(m: map<string, Value>, k: string)
    requires k in m
    ensures |m.Keys| > 0
  {
    assert m.Keys != {};
  }

  /**
   * The quality flag is "complete" exactly when there is a recommendation:
   * the profile and development sections are dictionaries with fixed keys,
   * so their length is never zero.
   */
  lemma AssembleQuality(a: Analysis, ents: seq<Entity>, now: string)
    ensures var q := Assemble(a, ents, now).metadata.quality;
      (q == "complete" <==> |a.recommendedJobs| > 0)
      && (q == "partial" <==> |a.recommendedJobs| == 0)
  {
    var ins := Assemble(a, ents, now);
    var s := Sections(ins.recommendations, ins.profile, ins.development, ins.context);
    MapNonEmpty(ProfileValue(ins.profile).fields, "Key_Skills");
    MapNonEmpty(DevelopmentValue(ins.development).fields, "Action_Items");
    assert NonEmptyAt(s, "Current_Profile");
    assert NonEmptyAt(s, "Development_Areas");
  }

  // ---------------------------------------------------------------------
  // analyze_resume and process

  /**
   * `analyze_resume`: a failure to read the PDF is re-raised; a failure of
   * the model chain or of the entity pass becomes the error record.
   */
  function AnalyzeResume(pdf: Call<string>, chain: Call<Analysis>, ner: Call<seq<Entity>>, now: string): (r: Call<Report>)
    ensures pdf.Threw? ==> r == Threw(pdf.exception)
    ensures pdf.Returned? ==> r.Returned?
    ensures pdf.Returned? && chain.Threw? ==> r.value == Failure(Describe(chain.exception), now)
    ensures pdf.Returned? && chain.Returned? && ner.Threw? ==> r.value == Failure(Describe(ner.exception), now)
    ensures r.Returned? && r.value.Record? ==>
      chain.Returned? && ner.Returned? && r.value.insights == Assemble(chain.value, ner.value, now)
  {
    match pdf
    case Threw(e) => Threw(e)
    case Returned(_) =>
      match chain
      case Threw(e) => Returned(Failure(Describe(e), now))
      case Returned(a) =>
        match ner
        case Threw(e) => Returned(Failure(Describe(e), now))
        case Returned(ents) => Returned(Record(Assemble(a, ents, now)))
  }

  /** What `process` returns: the analysis dictionary, or the model's answer. */
  datatype Reply = Analyzed(report: Report) | Answer(response: string)

  /**
   * `process`: with a résumé path the analysis is run on that file and the
   * model is not asked, so only a failure to read the PDF escapes; without
   * a path the query goes to the model alone. `chat` is the model's answer
   * to a prompt.
   */
  function Process(query: string, resumePath: Option<string>, pdf: Call<string>, chain: Call<Analysis>,
                   ner: Call<seq<Entity>>, now: string, chat: string -> Call<string>): (r: Call<Reply>)
    ensures Truthy(resumePath) ==> (r.Returned? <==> pdf.Returned?) && (r.Threw? ==> r.exception == pdf.exception)
    ensures Truthy(resumePath) && pdf.Returned? ==> r == Returned(Analyzed(AnalyzeResume(pdf, chain, ner, now).value))
    ensures Truthy(resumePath) && r.Returned? ==>
      r.value.Analyzed? && (r.value.report.Record? <==> chain.Returned? && ner.Returned?)
    ensures !Truthy(resumePath) ==>
      (r.Returned? <==> chat(query).Returned?) && (r.Returned? ==> r.value == Answer(chat(query).value))
  {
    if Truthy(resumePath) then
      var report :- AnalyzeResume(pdf, chain, ner, now);
      Returned(Analyzed(report))
    else
      var content :- chat(query);
      Returned(Answer(content))
  }

  /**
   * With a résumé path neither the query nor the model matters; without
   * one nothing about the analysis does.
   */
  lemma ProcessInputs(query: string, resumePath: Option<string>, pdf: Call<string>, chain: Call<Analysis>,
                      ner: Call<seq<Entity>>, now: string, chat: string -> Call<string>,
                      query': string, pdf': Call<string>, chain': Call<Analysis>, ner': Call<seq<Entity>>,
                      now': string, chat': string -> Call<string>)
    ensures Truthy(resumePath) ==>
      Process(query, resumePath, pdf, chain, ner, now, chat) == Process(query', resumePath, pdf, chain, ner, now, chat')
    ensures !Truthy(resumePath) ==>
      Process(query, resumePath, pdf, chain, ner, now, chat) == Process(query, resumePath, pdf', chain', ner', now', chat)
  {
  }

  // ---------------------------------------------------------------------
  // get_job_search_strategy

  const TITLE_KEY := "Job Title"
  const STRATEGY_ERROR := "Could not generate job search strategy"
  const NOT_FOUND := "Job title not found in recommendations"
  const NOT_FOUND_SUGGESTION := "Please choose from the recommended job titles in the analysis"
  const NETWORKING := [
    "Connect with professionals in target companies",
    "Join relevant professional associations",
    "Attend industry events and conferences",
    "Engage in online communities"]

  datatype Strategy =
    | Plan(jobTitle: string, requiredSkills: Value, skillDevelopment: Value, actionSteps: Value,
           approach: Value, targetCompanies: Value, networking: seq<string>)
    | NotFound(error: string, suggestion: string)
    | Failed(error: string, details: string)

  /** The entry has a string title equal to `title` ignoring case. */
  predicate TitleMatches(item: Value, title: string) {
    item.Obj? && TITLE_KEY in item.fields && item.fields[TITLE_KEY].Str?
    && Text.Lower(item.fields[TITLE_KEY].text) == Text.Lower(title)
  }

  /** The entry has a string title that differs from `title` ignoring case. */
  predicate TitleDiffers(item: Value, title: string) {
    item.Obj? && TITLE_KEY in item.fields && item.fields[TITLE_KEY].Str?
    && Text.Lower(item.fields[TITLE_KEY].text) != Text.Lower(title)
  }

  /** `next((job for job in items if job["Job Title"].lower() == title.lower()), None)`. */
  function FirstMatch(items: seq<Value>, title: string): Call<Option<Value>>
    decreases |items|
  {
    if items == [] then Returned(None)
    else
      var t :- Index(items[0], TITLE_KEY);
      if !t.Str? then Threw(Error("AttributeError", "'" + TypeName(t) + "' object has no attribute 'lower'"))
      else if Text.Lower(t.text) == Text.Lower(title) then Returned(Some(items[0]))
      else FirstMatch(items[1..], title)
  }

  /**
   * The search returns the first entry whose title matches, after entries
   * whose titles all differ; it finds nothing only when every title differs.
   */
  lemma {:induction false} FirstMatchSpec(items: seq<Value>, title: string)
    ensures var r := FirstMatch(items, title);
      r.Returned? && r.value.Some? ==>
        exists i :: 0 <= i < |items| && r.value.value == items[i] && TitleMatches(items[i], title)
          && forall j :: 0 <= j < i ==> TitleDiffers(items[j], title)
    ensures var r := FirstMatch(items, title);
      r.Returned? && r.value.None? <==> forall j :: 0 <= j < |items| ==> TitleDiffers(items[j], title)
    decreases |items|
  {
    if items != [] {
      FirstMatchSpec(items[1..], title);
      var r := FirstMatch(items, title);
      if TitleDiffers(items[0], title) {
        assert r == FirstMatch(items[1..], title);
        if r.Returned? && r.value.Some? {
          var i :| 0 <= i < |items[1..]| && r.value.value == items[1..][i] && TitleMatches(items[1..][i], title)
            && forall j :: 0 <= j < i ==> TitleDiffers(items[1..][j], title);
          assert forall j :: 0 <= j < i + 1 ==> TitleDiffers(items[j], title) by {
            forall j | 0 <= j < i + 1
              ensures TitleDiffers(items[j], title)
            {
              if j > 0 {
                assert items[j] == items[1..][j - 1];
              }
            }
          }
        }
        if forall j :: 0 <= j < |items[1..]| ==> TitleDiffers(items[1..][j], title) {
          forall j | 0 <= j < |items|
            ensures TitleDiffers(items[j], title)
          {
            if j > 0 {
              assert items[j] == items[1..][j - 1];
            }
          }
        }
      } else {
        assert !TitleDiffers(items[0], title);
      }
    }
  }

  /** The entries `for job in v` iterates over, or the error iterating raises. */
  function Entries(v: Value): Call<seq<Value>> {
    match v
    case Arr(items) => Returned(items)
    // iterating a string or a dictionary yields strings, which cannot be indexed by a key
    case Str(t) =>
      if t == "" then Returned([]) else Threw(Error("TypeError", "string indices must be integers, not 'str'"))
    case Obj(m) =>
      if m == map[] then Returned([]) else Threw(Error("TypeError", "string indices must be integers, not 'str'"))
    case _ => Threw(Error("TypeError", "'" + TypeName(v) + "' object is not iterable"))
  }

  function PlanFor(jobTitle: string, rec: Value, analysis: Value): Call<Strategy> {
    var required :- Index(rec, "Required Skills");
    var development :- Index(rec, "Skills to Develop");
    var steps :- Index(rec, "Action Plan");
    var tips :- Index(rec, "Job Search Tips");
    var context :- Index(analysis, "Career Context");
    var companies :- Index(context, "Notable Organizations");
    Returned(Plan(jobTitle, required, development, steps, tips, companies, NETWORKING))
  }

  /**
   * `get_job_search_strategy`: the plan for the first recommendation whose
   * title matches ignoring case, "not found" when none does, and the
   * "could not generate" error when a key is missing.
   */
  function GetJobSearchStrategy(jobTitle: string, analysis: Value): (r: Strategy)
    ensures r.Failed? ==> r.error == STRATEGY_ERROR
    ensures r.NotFound? ==> r == NotFound(NOT_FOUND, NOT_FOUND_SUGGESTION)
    ensures r.Plan? ==> r.jobTitle == jobTitle && r.networking == NETWORKING
  {
    var outcome := (
      var recs :- Index(analysis, "Career Recommendations");
      var items :- Entries(recs);
      var found :- FirstMatch(items, jobTitle);
      match found
      case None => Returned(NotFound(NOT_FOUND, NOT_FOUND_SUGGESTION))
      case Some(rec) => PlanFor(jobTitle, rec, analysis));
    match outcome
    case Returned(s) => s
    case Threw(e) => Failed(STRATEGY_ERROR, Describe(e))
  }

  /**
   * When the analysis holds a list of recommendations, the plan is built
   * from the first entry whose title matches, and every earlier entry has a
   * different title.
   */
  lemma StrategyPicksFirstMatch(jobTitle: string, analysis: Value)
    requires analysis.Obj? && "Career Recommendations" in analysis.fields
    requires analysis.fields["Career Recommendations"].Arr?
    ensures var items := analysis.fields["Career Recommendations"].items;
      var r := GetJobSearchStrategy(jobTitle, analysis);
      r.Plan? ==>
        exists i :: 0 <= i < |items| && TitleMatches(items[i], jobTitle)
          && (forall j :: 0 <= j < i ==> TitleDiffers(items[j], jobTitle))
          && PlanFor(jobTitle, items[i], analysis) == Returned(r)
    ensures var items := analysis.fields["Career Recommendations"].items;
      (forall j :: 0 <= j < |items| ==> TitleDiffers(items[j], jobTitle)) ==>
        GetJobSearchStrategy(jobTitle, analysis) == NotFound(NOT_FOUND, NOT_FOUND_SUGGESTION)
  {
    FirstMatchSpec(analysis.fields["Career Recommendations"].items, jobTitle);
  }

  /** A dictionary without "Career Recommendations" always gives the "could not generate" error. */
  lemma StrategyWithoutRecommendations(jobTitle: string, analysis: Value)
    requires analysis.Obj? && "Career Recommendations" !in analysis.fields
    ensures GetJobSearchStrategy(jobTitle, analysis) == Failed(STRATEGY_ERROR, "'Career Recommendations'")
  {
    assert Index(analysis, "Career Recommendations") == Threw(KeyError("Career Recommendations"));
  }

  /**
   * The analyzer's own record uses "Career_Recommendations", so looking up
   * a strategy in it always ends in the "could not generate" error.
   */
  lemma StrategyOnOwnReport(jobTitle: string, report: Report)
    ensures GetJobSearchStrategy(jobTitle, ToValue(report))
         == Failed(STRATEGY_ERROR, "'Career Recommendations'")
  {
    ToValueKeys(report);
    StrategyWithoutRecommendations(jobTitle, ToValue(report));
  }
}
