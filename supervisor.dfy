/**
 * The supervisor (agents/supervisor.py): keyword intent classification,
 * routing a query to the agent registered for its intent, the text each
 * agent's reply is turned into, and the résumé state the supervisor keeps
 * between queries. The language model, the PDF reader, the entity
 * recogniser and the crawler stay inputs of the agents they serve.
 */
module Supervisor {
  import opened Outcomes
  import Text
  import ResumeAnalyzer
  import JobSearch
  import CoverLetter
  import WebResearcher

  // ---------------------------------------------------------------------
  // _classify_intent

  /** The intents and their keywords, in the order they are tried. */
  const INTENTS: seq<(string, seq<string>)> := [
    ("job_search", ["job", "position", "career", "opportunity", "roles"]),
    ("cover_letter", ["cover letter", "application", "recommendation", "letter"]),
    ("resume", ["resume", "cv", "skill", "experience", "profile"]),
    ("research", ["research", "information", "learn", "find out", "details"])
  ]

  const UNKNOWN := "unknown"

  /** Some keyword of intent `n` occurs in the (lower-cased) query. */
  predicate Mentions(q: string, n: int)
    requires 0 <= n < |INTENTS|
  {
    exists k :: k in INTENTS[n].1 && Text.Contains(q, k)
  }

  /** Every answer the classifier can give. */
  const INTENT_NAMES: set<string> := {"job_search", "cover_letter", "resume", "research", "unknown"}

  /** The first intent, from `n` on, one of whose keywords occurs in `q`. */
  function ClassifyFrom(q: string, n: nat): (r: string)
    requires n <= |INTENTS|
    ensures r in INTENT_NAMES
    decreases |INTENTS| - n
  {
    if n == |INTENTS| then UNKNOWN
    else if Mentions(q, n) then INTENTS[n].0
    else ClassifyFrom(q, n + 1)
  }

  /** The intent of a query: keywords are matched against its lower-cased text. */
  function Classify(query: string): string {
    ClassifyFrom(Text.Lower(query), 0)
  }

  /** `_classify_intent`: try each intent's keywords in order; "unknown" when none occurs. */
  method ClassifyIntent(query: string) returns (intent: string)
    ensures intent == Classify(query)
  {
    var q := Text.Lower(query);
    var n := 0;
    while n < |INTENTS|
      invariant 0 <= n <= |INTENTS|
      invariant ClassifyFrom(q, 0) == ClassifyFrom(q, n)
    {
      var keywords := INTENTS[n].1;
      var j := 0;
      while j < |keywords|
        invariant 0 <= j <= |keywords|
        invariant forall j' :: 0 <= j' < j ==> !Text.Contains(q, keywords[j'])
      {
        if Text.Contains(q, keywords[j]) {
          return INTENTS[n].0;
        }
        j := j + 1;
      }
      n := n + 1;
    }
    return UNKNOWN;
  }

  /** `ClassifyFrom` picks intent `i` exactly when it is the first one from `n` on that the query mentions. */
  lemma {:induction false} ClassifyFromSpec(q: string, n: nat, i: int)
    requires n <= |INTENTS| && 0 <= i < |INTENTS|
    ensures ClassifyFrom(q, n) == INTENTS[i].0 <==> n <= i && Mentions(q, i) && forall m :: n <= m < i ==> !Mentions(q, m)
    ensures ClassifyFrom(q, n) == UNKNOWN <==> forall m :: n <= m < |INTENTS| ==> !Mentions(q, m)
    decreases |INTENTS| - n
  {
    if n < |INTENTS| && !Mentions(q, n) {
      ClassifyFromSpec(q, n + 1, i);
    }
  }

  /**
   * A query has intent `i` exactly when a keyword of intent `i` occurs in
   * its lower-cased text and no keyword of an earlier intent does; it is
   * "unknown" exactly when no keyword occurs at all.
   */
  lemma ClassifySpec(query: string, i: int)
    requires 0 <= i < |INTENTS|
    ensures Classify(query) == INTENTS[i].0 <==>
      Mentions(Text.Lower(query), i) && forall m :: 0 <= m < i ==> !Mentions(Text.Lower(query), m)
    ensures Classify(query) == UNKNOWN <==> forall m :: 0 <= m < |INTENTS| ==> !Mentions(Text.Lower(query), m)
  {
    ClassifyFromSpec(Text.Lower(query), 0, i);
  }

  /** Classification ignores letter case. */
  lemma ClassifyIgnoresCase(query: string)
    ensures Classify(Text.Lower(query)) == Classify(query)
  {
    Text.LowerIdempotent(query);
  }

  /**
   * Job search wins over every other intent: a request for a cover letter
   * that mentions a "job" is routed to the job search.
   */
  lemma JobKeywordWins(query: string)
    requires Text.Contains(Text.Lower(query), "job")
    ensures Classify(query) == "job_search"
  {
    assert "job" in INTENTS[0].1;
  }

  /** A query that mentions a "cover letter" but no job-search keyword goes to the cover-letter agent. */
  lemma CoverLetterRequest(query: string)
    requires Text.Contains(Text.Lower(query), "cover letter") && !Mentions(Text.Lower(query), 0)
    ensures Classify(query) == "cover_letter"
  {
    assert "cover letter" in INTENTS[1].1;
  }

  // ---------------------------------------------------------------------
  // _format_response

  /** What an agent's `process` returned, by agent. */
  datatype AgentReply =
    | JobSearchReply(jobs: JobSearch.Reply)
    | CoverLetterReply(letter: CoverLetter.Reply)

  const NO_LISTINGS := "No job listings found."

  /** The block for one listing; `:.0f` of an integral score is its decimal form. */
  function ListingBlock(job: JobSearch.Listing): string {
    "Position: " + job.title + "\n"
      + "Company: " + job.company + "\n"
      + "Location: " + job.location + "\n"
      + "Match Score: " + Text.IntToString(job.matchScore) + "%\n"
      + "Requirements: " + Text.Join(job.requirements, ", ") + "\n---"
  }

  function ListingBlocks(listings: seq<JobSearch.Listing>): (blocks: seq<string>)
    ensures |blocks| == |listings|
    ensures forall i :: 0 <= i < |listings| ==> blocks[i] == ListingBlock(listings[i])
  {
    seq(|listings|, i requires 0 <= i < |listings| => ListingBlock(listings[i]))
  }

  /**
   * `_format_response`: an error shows its message; job-search listings
   * become blocks separated by blank lines; a letter shows its content.
   */
  function FormatResponse(reply: AgentReply): string {
    match reply
    case JobSearchReply(jobs) =>
      if jobs.Failed? then jobs.message
      else if jobs.listings == [] then NO_LISTINGS
      else Text.Join(ListingBlocks(jobs.listings), "\n\n")
    case CoverLetterReply(letter) =>
      if letter.Failed? then letter.message else letter.content
  }

  /**
   * Listings are shown in the order the agent returned them, one block
   * each, and the text is "No job listings found." only when there are none
   * (no block can equal it: every block starts with "Position: ").
   */
  lemma FormatListings(listings: seq<JobSearch.Listing>, total: nat, criteria: Value)
    ensures var text := FormatResponse(JobSearchReply(JobSearch.Success(listings, total, criteria)));
      (listings == [] <==> text == NO_LISTINGS)
      && (listings != [] ==> text == Text.Join(ListingBlocks(listings), "\n\n"))
    ensures |listings| == 1 ==>
      FormatResponse(JobSearchReply(JobSearch.Success(listings, total, criteria))) == ListingBlock(listings[0])
  {
    if listings != [] {
      var blocks := ListingBlocks(listings);
      Text.JoinHead(blocks, "\n\n");
      var text := Text.Join(blocks, "\n\n");
      assert blocks[0][..2] == "Po";
      assert text[..2] == "Po";
      assert NO_LISTINGS[..2] == "No";
    }
  }

  // ---------------------------------------------------------------------
  // process_query and _process_with_agent

  /** The keys under which `_register_agents` registers the agents. */
  const REGISTRY: set<string> := {"job_search", "resume_analyzer", "cover_letter", "web_researcher"}

  /**
   * What the agents' external calls return for one query: the only inputs
   * the routing depends on. `crawl` is what starting the research crawler
   * does.
   */
  datatype Environment = Environment(
    parseReply: Call<string>,
    letterAnalysis: Call<Value>,
    letterChain: CoverLetter.PromptInput -> Call<CoverLetter.Content>,
    crawl: Call<()>)

  /**
   * `_process_with_agent`: the registry lookup raises `KeyError` for an
   * intent with no agent under that name; the résumé path is passed to the
   * job-search and cover-letter agents only. The job-search agent always
   * answers with an error, so its text is that error's message; the
   * cover-letter text is the letter, or the message when there is none.
   */
  function ProcessWithAgent(intent: string, query: string, resumePath: Option<string>, env: Environment): (r: Call<string>)
    requires intent in {"job_search", "cover_letter", "resume"}
    ensures r.Returned? <==> intent in REGISTRY
    ensures intent !in REGISTRY ==> r == Threw(KeyError(intent))
    ensures intent == "job_search" ==> r == Returned(JobSearch.Process(query, resumePath, env.parseReply).message)
    ensures intent == "cover_letter" ==>
      var reply := CoverLetter.Process(query, resumePath, env.letterAnalysis, env.letterChain);
      r == Returned(if reply.Success? then reply.content else reply.message)
  {
    if intent !in REGISTRY then Threw(KeyError(intent))
    else if intent == "job_search" then
      Returned(FormatResponse(JobSearchReply(JobSearch.Process(query, resumePath, env.parseReply))))
    else
      Returned(FormatResponse(CoverLetterReply(CoverLetter.Process(query, resumePath, env.letterAnalysis, env.letterChain))))
  }

  /** The response of a turn: text, or the research agent's findings. */
  datatype Response = Text(text: string) | Findings(findings: seq<WebResearcher.Finding>)

  /** The dictionary `process_query` returns. */
  datatype Turn = Turn(intent: string, response: Response, agent: Option<string>, error: Option<string>)

  const CLARIFY := "Please clarify your query."
  const NOT_AVAILABLE := "Agent not available."
  const AGENT_MISSING := "Agent missing."
  const FAILED := "An error occurred."
  const RESEARCH_AGENT := "ScrapyWebResearchAgent"

  /** The turn for an exception: a `KeyError` means the agent is missing, any other is reported. */
  function Caught(intent: string, e: Exception): Turn {
    if e.KeyError? then Turn(intent, Text(NOT_AVAILABLE), None, Some(AGENT_MISSING))
    else Turn(intent, Text(FAILED), None, Some(Describe(e)))
  }

  /**
   * `process_query` as a value: research runs a fresh research agent,
   * "unknown" asks for clarification, every other intent goes through the
   * registry; exceptions become turns as `Caught` says.
   */
  function Respond(query: string, resumePath: Option<string>, env: Environment): Turn {
    var intent := Classify(query);
    if intent == "research" then
      match env.crawl
      case Returned(_) => Turn(intent, Findings([]), Some(RESEARCH_AGENT), None)
      case Threw(e) => Caught(intent, e)
    else if intent == UNKNOWN then Turn(UNKNOWN, Text(CLARIFY), None, None)
    else
      match ProcessWithAgent(intent, query, resumePath, env)
      case Returned(text) => Turn(intent, Text(text), Some(Text.Capitalize(intent) + "Agent"), None)
      case Threw(e) => Caught(intent, e)
  }

  /**
   * A research question yields no findings when the crawl finishes (nothing
   * collects them) and the crawler's error otherwise.
   */
  lemma ResearchTurn(query: string, resumePath: Option<string>, env: Environment)
    requires Classify(query) == "research"
    ensures env.crawl.Returned? ==> Respond(query, resumePath, env) == Turn("research", Findings([]), Some(RESEARCH_AGENT), None)
    ensures env.crawl.Threw? && !env.crawl.exception.KeyError? ==>
      Respond(query, resumePath, env) == Turn("research", Text(FAILED), None, Some(Describe(env.crawl.exception)))
    ensures Respond(query, resumePath, env).response.Findings? <==> env.crawl.Returned?
  {
  }

  /**
   * The "resume" intent has no agent registered under that name (the
   * analyzer is registered as "resume_analyzer"), so every résumé question
   * is answered "Agent not available.".
   */
  lemma ResumeIntentUnavailable(query: string, resumePath: Option<string>, env: Environment)
    requires Classify(query) == "resume"
    ensures Respond(query, resumePath, env) == Turn("resume", Text(NOT_AVAILABLE), None, Some(AGENT_MISSING))
  {
  }

  /** A query with no keyword gets the clarification request, whatever the agents would do. */
  lemma UnknownIgnoresAgents(query: string, resumePath: Option<string>, env: Environment, other: Environment)
    requires Classify(query) == UNKNOWN
    ensures Respond(query, resumePath, env) == Respond(query, resumePath, other) == Turn(UNKNOWN, Text(CLARIFY), None, None)
  {
  }

  /** The name `intent.capitalize() + "Agent"` of the job-search agent. */
  lemma JobSearchAgentName()
    ensures Text.Capitalize("job_search") + "Agent" == "Job_searchAgent"
  {
    var s, t := "job_search", "Job_search";
    var r := Text.Capitalize(s);
    assert |r| == |t| && r[0] == t[0];
    forall k | 1 <= k < |s|
      ensures r[k] == t[k]
    {
      assert s[k] == t[k];
      assert r[k] == r[1..][k - 1] == Text.LowerChar(s[1..][k - 1]);
    }
    assert r == t;
  }

  /** The name `intent.capitalize() + "Agent"` of the cover-letter agent. */
  lemma CoverLetterAgentName()
    ensures Text.Capitalize("cover_letter") + "Agent" == "Cover_letterAgent"
  {
    var s, t := "cover_letter", "Cover_letter";
    var r := Text.Capitalize(s);
    assert |r| == |t| && r[0] == t[0];
    forall k | 1 <= k < |s|
      ensures r[k] == t[k]
    {
      assert s[k] == t[k];
      assert r[k] == r[1..][k - 1] == Text.LowerChar(s[1..][k - 1]);
    }
    assert r == t;
  }

  /** A query routed to a registered agent gets that agent's formatted reply. */
  lemma RoutedTurn(query: string, resumePath: Option<string>, env: Environment)
    requires Classify(query) == "job_search" || Classify(query) == "cover_letter"
    ensures var intent := Classify(query);
      var r := ProcessWithAgent(intent, query, resumePath, env);
      r.Returned? && Respond(query, resumePath, env) == Turn(intent, Text(r.value), Some(Text.Capitalize(intent) + "Agent"), None)
  {
  }

  /**
   * A job-search question never shows listings: the reply is the message of
   * the job-search agent's error, from the agent named "Job_searchAgent".
   */
  lemma JobSearchAlwaysError(query: string, resumePath: Option<string>, env: Environment)
    requires Classify(query) == "job_search"
    ensures var turn := Respond(query, resumePath, env);
      turn.agent == Some("Job_searchAgent") && turn.error.None?
      && turn.response == Text(JobSearch.Process(query, resumePath, env.parseReply).message)
    ensures var turn := Respond(query, resumePath, env);
      !Truthy(resumePath) ==> turn.response == Text(JobSearch.RESUME_REQUIRED)
    ensures var turn := Respond(query, resumePath, env);
      Truthy(resumePath) && env.parseReply.Returned? ==> turn.response == Text(JobSearch.SEARCH_JOBS_ARITY)
  {
    JobSearchAgentName();
    RoutedTurn(query, resumePath, env);
  }

  /**
   * A cover-letter question shows the letter on success and the agent's
   * message otherwise, from the agent named "Cover_letterAgent".
   */
  lemma CoverLetterTurn(query: string, resumePath: Option<string>, env: Environment)
    requires Classify(query) == "cover_letter"
    ensures var turn := Respond(query, resumePath, env);
      var reply := CoverLetter.Process(query, resumePath, env.letterAnalysis, env.letterChain);
      turn.agent == Some("Cover_letterAgent") && turn.error.None?
      && turn.response == Text(if reply.Success? then reply.content else reply.message)
  {
    CoverLetterAgentName();
    RoutedTurn(query, resumePath, env);
  }

  // ---------------------------------------------------------------------
  // The supervisor object

  /** The résumé state the supervisor keeps between queries. */
  class JobAssistantSupervisor {
    var resumePath: Option<string>
    var resumeInsights: Option<Value>

    constructor ()
      ensures resumePath == None && resumeInsights == None
    {
      resumePath := None;
      resumeInsights := None;
    }

    /**
     * `set_resume`: refuses a path that does not exist and changes nothing;
     * otherwise records the path first and then the analyzer's report, so a
     * failing analysis leaves the new path with the old insights.
     */
    method SetResume(path: string, pathExists: bool, analysis: Call<ResumeAnalyzer.Report>) returns (r: Call<Value>)
      modifies this
      ensures !pathExists ==>
        r == Threw(Error("FileNotFoundError", "Resume not found at " + path))
        && resumePath == old(resumePath) && resumeInsights == old(resumeInsights)
      ensures pathExists ==> resumePath == Some(path)
      ensures pathExists && analysis.Threw? ==> r == Threw(analysis.exception) && resumeInsights == old(resumeInsights)
      ensures pathExists && analysis.Returned? ==>
        r == Returned(ResumeAnalyzer.ToValue(analysis.value)) && resumeInsights == Some(ResumeAnalyzer.ToValue(analysis.value))
    {
      if !pathExists {
        return Threw(Error("FileNotFoundError", "Resume not found at " + path));
      }
      resumePath := Some(path);
      match analysis
      case Threw(e) =>
        r := Threw(e);
      case Returned(report) =>
        var insights := ResumeAnalyzer.ToValue(report);
        resumeInsights := Some(insights);
        r := Returned(insights);
    }

    /**
     * `process_query`: classifies the query, runs a fresh research agent for
     * research questions, and otherwise routes through the registry with
     * the stored résumé path.
     */
    method ProcessQuery(query: string, env: Environment) returns (turn: Turn)
      ensures turn == Respond(query, resumePath, env)
    {
      var intent := ClassifyIntent(query);
      if intent == "research" {
        var researcher := new WebResearcher.ScrapyWebResearchAgent(query);
        var outcome := researcher.RunResearch(env.crawl);
        if outcome.Threw? {
          return Caught(intent, outcome.exception);
        }
        return Turn(intent, Findings(outcome.value), Some(RESEARCH_AGENT), None);
      }
      if intent == UNKNOWN {
        return Turn(UNKNOWN, Text(CLARIFY), None, None);
      }
      match ProcessWithAgent(intent, query, resumePath, env)
      case Returned(text) =>
        turn := Turn(intent, Text(text), Some(Text.Capitalize(intent) + "Agent"), None);
      case Threw(e) =>
        turn := Caught(intent, e);
    }
  }
}
