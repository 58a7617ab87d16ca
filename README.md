# careerstack agents in Dafny

careerstack is a job-seeker's assistant. A supervisor classifies each chat
query by keywords. It then routes the query to one of four agents:

- a résumé analyzer that turns a PDF résumé into a structured insights record;
- a job-search agent that fetches listings, scores them against the résumé
  with a language model and ranks them;
- a cover-letter generator that asks the model for four paragraphs and
  joins them into a letter;
- a web researcher that configures a crawl of Wikipedia.

This project models those five agent files in Dafny:

| module | file | source |
|---|---|---|
| `Text` | `text.dfy` | the Python string operations the agents use (`lower`, `capitalize`, `in`, `find`, `split`, `join`, `strip`, slicing, `replace`, `int`/`str`) |
| `Outcomes` | `outcomes.dfy` | how a call ends: it returns a value or raises an exception; the JSON-like dictionaries the agents exchange; `d[k]` and `d.get(k, default)` |
| `ResumeAnalyzer` | `resume_analyzer.dfy` | `agents/resume_analyzer.py` |
| `JobSearch` | `job_search.dfy` | `agents/job_search.py` |
| `CoverLetter` | `cover_letter.dfy` | `agents/cover_letter_generator.py` |
| `WebResearcher` | `web_researcher.dfy` | `agents/web_researcher.py` |
| `Supervisor` | `supervisor.dfy` | `agents/supervisor.py` |

## External calls

Every call into code outside the agents is a parameter of the operation
that makes it. This covers the language model, the PDF reader, spaCy, HTTP
requests, `os.path.exists`, `os.getenv`, the clock and the crawler.

Each such parameter is one of two things:

- a `Call<T>`, meaning the call either returned a `T` or raised a named
  exception;
- a function from the call's input to such an outcome, when the call is
  made once per item (for example, scoring one listing).

A model answer parsed by a LangChain output parser arrives already parsed,
as the schema's datatype. A model answer the agents read as text arrives as
the string `str(result)`.

Python exceptions are `Outcomes.Exception`. `Outcomes.Describe` renders
them as `str(e)` does, so a `KeyError` shows its key in quotes.

## What the model shows about the code as written

The agents read each other's dictionaries under different key spellings,
and several calls do not match their callee's signature. The model follows
the code, so these mismatches show up as proved facts:

- The job-search agent's `process` calls `search_jobs` with the résumé path
  alone, leaving out the query it requires (`agents/job_search.py:339`).
  So a job-search query never shows listings. The reply is always an error
  message: "resume required" without a path, the text of the model's
  exception when reading the query fails, and otherwise the `TypeError` of
  that call (`JobSearch.Process`, `Supervisor.JobSearchAlwaysError`).
- `search_jobs` passes the wrong arguments to `_get_search_preferences`, so
  it always fails (`JobSearch.SearchJobs`).
- The analyzer writes "Current_Profile", "Career_Recommendations" and
  "Career_Context". The consumers read "Current Profile", "Career
  Recommendations", "Key Skills" and so on. Four lemmas show the
  consequences on the analyzer's own record:
  - the tail of `search_jobs` fails on the missing key
    (`JobSearch.SearchTailOnOwnReport`);
  - the extracted search parameters are all empty
    (`JobSearch.ExtractOnOwnReport`);
  - the cover letter is written without any résumé details
    (`CoverLetter.ChainSeesNoResume`);
  - a strategy lookup always fails (`ResumeAnalyzer.StrategyOnOwnReport`).
- The "resume" intent has no registered agent, because the analyzer is
  registered as "resume_analyzer" (`Supervisor.ResumeIntentUnavailable`).
- A scoring reply in the format the prompt asks for is read with exactly
  one matching skill and one missing skill. A reply that lists two
  matching skills is rejected, so that listing is dropped
  (`JobSearch.AssessmentSkillsSingleton`,
  `JobSearch.TwoMatchingSkillsDropped`).
- The research pipeline is never registered with the crawler. So a crawl
  that finishes returns an empty list, and a crawl that fails to start
  becomes the supervisor's "An error occurred." turn
  (`WebResearcher.ScrapyWebResearchAgent.RunResearch`,
  `Supervisor.ResearchTurn`).
- The spider builds its item loader with the response as context but no
  selector. So its first `add_css`, for the configured extraction rules,
  raises `RuntimeError`, and no page yields an item (`WebResearcher.Parse`).

The unreachable parts are still modelled and proved on their own terms:

- the tail of `search_jobs` (`JobSearch.SearchTail`);
- matching and ranking;
- the chat text;
- the cover-letter pipeline.

## Model

| member | source | states |
|---|---|---|
| Text.Capitalize | agents/supervisor.py:108 | `str.capitalize` on ASCII letters: the first character upper-cased, the rest lower-cased, the length kept |
| Text.StripCharsSpec | agents/job_search.py:396 | `strip(chars)` removes the longest leading and trailing runs of the given characters and keeps the middle intact |
| Text.JoinSplit | agents/job_search.py:170-173 | splitting on a non-empty separator and joining with it gives back the original text, so the split loses nothing |
| Outcomes.Index | agents/job_search.py:139-140 | `d[k]` returns the entry when `d` is a dictionary holding `k`, raises `KeyError(k)` when the dictionary lacks it, and raises `TypeError` on anything that is not a dictionary |
| Outcomes.Get | agents/cover_letter_generator.py:90-94 | `d.get(k, default)` succeeds exactly on dictionaries and returns the entry or the default |
| ResumeAnalyzer.Recommendations | agents/resume_analyzer.py:138-148 | one career recommendation per recommended job, in the same order |
| ResumeAnalyzer.OrgTextsMembers | agents/resume_analyzer.py:134 | a text is among the organizations exactly when some entity with that text has label ORG |
| ResumeAnalyzer.DedupSpec | agents/resume_analyzer.py:153 | `list(set(...))` keeps each organization exactly once and nothing else |
| ResumeAnalyzer.ActionItemsAppend | agents/resume_analyzer.py:158-161 | the action items of two job lists in sequence are the concatenation of their action items |
| ResumeAnalyzer.ActionItemsSnoc | agents/resume_analyzer.py:158-161 | the action items are the jobs' next steps flattened in job order |
| ResumeAnalyzer.ActionItemsMembers | agents/resume_analyzer.py:158-161 | a step is an action item exactly when some recommended job lists it |
| ResumeAnalyzer.ToValueKeys | agents/resume_analyzer.py:137-187 | the insights dictionary has exactly the four section keys plus "metadata"; the error dictionary has exactly "error", "details" and "timestamp" |
| ResumeAnalyzer.AssembleRecommendations | agents/resume_analyzer.py:138-148 | each recommendation copies title, score, required skills, missing skills, next steps and advice from the job at the same position |
| ResumeAnalyzer.AssembleOrganizations | agents/resume_analyzer.py:131-153 | the organizations are distinct and are exactly the texts of the ORG entities |
| ResumeAnalyzer.AssembleQuality | agents/resume_analyzer.py:170-177 | the quality is "complete" exactly when the model recommended at least one job, because the profile and development sections are never empty; otherwise "partial" |
| ResumeAnalyzer.AnalyzeResume | agents/resume_analyzer.py:87-187 | a PDF failure propagates; a chain or entity failure gives the error record with `str(e)`; a record is returned only when both succeeded, and it is assembled from their answers |
| ResumeAnalyzer.Process | agents/resume_analyzer.py:190-207 | with a résumé path only a PDF failure escapes, and the reply is `analyze_resume`'s report: a record exactly when the chain and the entity extraction succeeded; without a path the reply is the model's answer to the query |
| ResumeAnalyzer.ProcessInputs | agents/resume_analyzer.py:201-207 | with a résumé path the reply depends on neither the query nor the model; without one it does not depend on the analysis inputs |
| ResumeAnalyzer.FirstMatchSpec | agents/resume_analyzer.py:252-256 | `next(...)` returns the first entry whose title equals the wanted one ignoring case, all earlier titles differ, and it returns nothing exactly when every title differs |
| ResumeAnalyzer.GetJobSearchStrategy | agents/resume_analyzer.py:239-288 | the result is a plan for the requested title with the four networking suggestions, the "not found" record, or the "could not generate" error |
| ResumeAnalyzer.StrategyPicksFirstMatch | agents/resume_analyzer.py:252-276 | the plan is built from the first matching recommendation; when every title differs the result is "not found" |
| ResumeAnalyzer.StrategyWithoutRecommendations | agents/resume_analyzer.py:250-256 | any dictionary without a "Career Recommendations" entry gives the "could not generate" error, with the missing key as details |
| ResumeAnalyzer.StrategyOnOwnReport | agents/resume_analyzer.py:250-288 | on the analyzer's own record the lookup always ends in the error, with `str(KeyError('Career Recommendations'))` as details |
| JobSearch.ParseLineSpec | agents/job_search.py:393-396 | a line is read exactly when it contains ':'; it is split at the first ':'; the key is stripped and lower-cased; the value is stripped of blanks and brackets |
| JobSearch.ParamsLastWins | agents/job_search.py:392-396 | a key is present exactly when some line sets it, and its value comes from the last such line |
| JobSearch.ParseQuery | agents/job_search.py:369-401 | the loop over the reply's lines computes the position and location of the parsed map, "" when absent |
| JobSearch.ParseQueryReads | agents/job_search.py:369-401 | position and location are "" when no line sets them, and otherwise the value on the last line that sets them |
| JobSearch.Listings | agents/job_search.py:87-94 | a JSON list of dictionaries gives one listing per entry, in order; anything else gives none |
| JobSearch.SearchGithub | agents/job_search.py:72-98 | no listings on a non-200 status, a failed request or a body that is not a list of dictionaries; otherwise one listing per job, in order, with title, company, location, url, description and `created_at` as the posting date, each `job.get(...)` |
| JobSearch.SearchIndeed | agents/job_search.py:100-133 | no listings without an API key, on a non-200 status, on a failed request, without "results" or when "results" is not a list of dictionaries; otherwise one listing per result, in order, with `jobtitle`, `company`, `formattedLocation`, `url`, `snippet` and `formattedRelativeTime` as its six fields |
| JobSearch.CombineSources | agents/job_search.py:41-70 | the GitHub listings come first, followed by the Indeed listings exactly when the key is set |
| JobSearch.ParseScoreRoundTrip | agents/job_search.py:171 | a score written in decimal is read back as the same score |
| JobSearch.SkillListSingleton | agents/job_search.py:172-173 | a skill field without ", " is read as exactly one skill |
| JobSearch.AssessmentSkillsSingleton | agents/job_search.py:170-173 | every assessment read from a reply has exactly one matching skill and one missing skill, because the reply is split on ", " first |
| JobSearch.TwoSkillReplyParts | agents/job_search.py:159-170 | a reply in the prompt's format with two matching skills splits into four parts, with the second skill as a part of its own |
| JobSearch.TwoMatchingSkillsDropped | agents/job_search.py:159-173 | such a reply cannot be read, so its listing is dropped |
| JobSearch.KeptBounded | agents/job_search.py:143-189 | no more matches than listings; every match is the scoring of some listing |
| JobSearch.KeptComplete | agents/job_search.py:143-189 | every listing that scores is kept; a failed scoring is the only reason a listing is dropped |
| JobSearch.KeptAppend | agents/job_search.py:143-189 | scoring keeps input order: the matches of two listing runs in sequence are the matches of the first followed by those of the second |
| JobSearch.KeptSkillsSingleton | agents/job_search.py:170-189 | every kept match has one matching skill and one missing skill |
| JobSearch.KeptUnreadableProfile | agents/job_search.py:162-167 | when the profile lacks the key skills or the experience summary, every listing fails and nothing is kept |
| JobSearch.InsertPermutes | agents/job_search.py:191 | inserting adds exactly the one match |
| JobSearch.InsertDescending | agents/job_search.py:191 | inserting into a descending list keeps it descending |
| JobSearch.InsertWithScore | agents/job_search.py:191 | the inserted match goes before the matches with an equal score |
| JobSearch.SortByScoreSpec | agents/job_search.py:191 | the ranking is by descending score, it is a permutation of its input, and it is stable: matches with equal scores keep their input order |
| JobSearch.MatchJobs | agents/job_search.py:135-191 | the loop keeps the listings that score, then ranks them; the result is descending, no longer than the input and holds every listing that scores; a missing profile key raises before the loop |
| JobSearch.MatchedSpec | agents/job_search.py:135-191 | the ranking is descending; it holds exactly the scorings of the input listings that score, as a permutation of the kept matches, with matches of equal score in input order |
| JobSearch.Entries | agents/job_search.py:267-276 | one chat entry per listing, for at most the first five |
| JobSearch.FormatChatResponse | agents/job_search.py:257-279 | the loop builds the header, one entry per top listing, and the closing line; the text is the "couldn't find" message exactly when there are no matches |
| JobSearch.ChatTextNotEmpty | agents/job_search.py:259-279 | with at least one match the text is never the "couldn't find" message |
| JobSearch.EntriesShape | agents/job_search.py:267-276 | there are min(n, 5) entries, and entry i is numbered i + 1 and shows listing i |
| JobSearch.TopMatches | agents/job_search.py:230-242 | the top matches are the first five of the ranking, in order |
| JobSearch.SearchTailSpec | agents/job_search.py:204-255 | "no_results" exactly when no listing came back; on success the total is the number of ranked matches and the top matches are the first five of them |
| JobSearch.TopMatchesBest | agents/job_search.py:229-242 | at most five top matches, none scoring below a match that was left out; each preview is a prefix of at most 200 characters of the description followed by "..." |
| JobSearch.SearchTailWithoutProfile | agents/job_search.py:135-139 | once a listing came back, any dictionary without a "Current Profile" entry makes the search fail with that `KeyError`, keeping the analysis and the criteria |
| JobSearch.SearchTailOnOwnReport | agents/job_search.py:139 | on the analyzer's own record with at least one listing, the search fails with `KeyError('Current Profile')` and keeps the analysis and the criteria |
| JobSearch.SearchJobs | agents/job_search.py:193-255 | the call at line 202 passes one argument too many, so the result is always the error reply, with the analysis when it succeeded and no criteria |
| JobSearch.TitlesOf | agents/job_search.py:312 | one title per recommendation, each read with `rec["Job Title"]` |
| JobSearch.ExtractSearchParameters | agents/job_search.py:304-314 | at most three recent titles |
| JobSearch.ExtractDefaults | agents/job_search.py:304-314 | a dictionary without any of the three keys gives empty skills, titles and industry keywords |
| JobSearch.ExtractPassesThrough | agents/job_search.py:306-313 | key skills and industry keywords present in the analysis are passed through unchanged |
| JobSearch.ExtractTitles | agents/job_search.py:308-312 | with a list of recommendations, the titles are those of the first min(n, 3), in order |
| JobSearch.ExtractOnOwnReport | agents/job_search.py:304-314 | on the analyzer's own record every parameter is empty |
| JobSearch.Process | agents/job_search.py:317-367 | always an error: "Resume path is required" without a path; otherwise the model's exception or the `TypeError` of `search_jobs` being called without its query |
| CoverLetter.ExtractResumeDetails | agents/cover_letter_generator.py:73-94 | succeeds exactly on a dictionary; each detail is the top-level entry or "" |
| CoverLetter.DetailsFromReportEmpty | agents/cover_letter_generator.py:85-94 | on the analyzer's own record all three details are "" |
| CoverLetter.CombineSpec | agents/cover_letter_generator.py:154-171 | the letter is the four paragraphs in order, separated by blank lines; the paragraphs dictionary has exactly the four keys and recombines into the letter |
| CoverLetter.GenerateCoverLetter | agents/cover_letter_generator.py:96-178 | an analysis failure propagates because it is raised outside the `try`; a letter is always the combination of some chain answer |
| CoverLetter.Process | agents/cover_letter_generator.py:27-71 | a missing path is refused first and then a blank request; a propagated exception is reported with the "Failed to generate" prefix; success implies a path, a non-blank request and a successful analysis |
| CoverLetter.ProcessGuards | agents/cover_letter_generator.py:38-51 | a whitespace-only request is refused, and the model is not consulted when a guard refuses |
| CoverLetter.ProcessSuccess | agents/cover_letter_generator.py:44-62 | on success the content and details are the combination and paragraphs of the chain's answer for the stripped request and the extracted details |
| CoverLetter.ChainSeesNoResume | agents/cover_letter_generator.py:88-152 | with the analyzer's own record the chain is always asked with empty skills, experience and education |
| WebResearcher.ConfigureResearch | agents/web_researcher.py:66-81 | the two domains; one start URL, which is the Wikipedia prefix followed by the query with every space replaced by an underscore; the two extraction rules |
| WebResearcher.ContentFallback | agents/web_researcher.py:43-53 | the text of the first content selector that finds any, joined by spaces; nothing exactly when every selector finds nothing |
| WebResearcher.Parse | agents/web_researcher.py:31-55 | with any extraction rule (the configuration always has two) the first `add_css` raises `RuntimeError`, since the loader has no selector; without rules the item has the URL, the title when present and at most one content text, the fallback text |
| WebResearcher.ScrapyWebResearchAgent.constructor | agents/web_researcher.py:62-64 | the agent keeps its query and starts with no results |
| WebResearcher.ScrapyWebResearchAgent.Configuration | agents/web_researcher.py:66-81 | the agent's configuration has one start URL and the two domains |
| WebResearcher.ScrapyWebResearchAgent.RunResearch | agents/web_researcher.py:83-113 | the results are reset before the crawl; a crawl that fails to start propagates its exception; one that finishes returns the results, which stay empty because no pipeline is registered; the query is unchanged |
| Supervisor.ClassifyFrom | agents/supervisor.py:164-167 | the classifier only ever answers one of the four intents or "unknown" |
| Supervisor.ClassifyIntent | agents/supervisor.py:147-167 | the nested loop returns the classification of the lower-cased query |
| Supervisor.ClassifyFromSpec | agents/supervisor.py:164-167 | from any point, an intent is chosen exactly when it is the first remaining one whose keyword occurs; "unknown" exactly when none occurs |
| Supervisor.ClassifySpec | agents/supervisor.py:157-167 | a query has intent i exactly when a keyword of i occurs in its lower-cased text and no keyword of an earlier intent does; it is "unknown" exactly when no keyword occurs |
| Supervisor.ClassifyIgnoresCase | agents/supervisor.py:157 | classification does not depend on letter case |
| Supervisor.JobKeywordWins | agents/supervisor.py:158-166 | any query that mentions "job" is a job search, whatever else it asks for |
| Supervisor.CoverLetterRequest | agents/supervisor.py:158-166 | a query mentioning "cover letter" and no job-search keyword goes to the cover-letter agent |
| Supervisor.ListingBlocks | agents/supervisor.py:188-195 | one block per listing, in order |
| Supervisor.FormatListings | agents/supervisor.py:183-195 | listings are shown in the order returned; the text is "No job listings found." exactly when there are none |
| Supervisor.ProcessWithAgent | agents/supervisor.py:118-132 | a reply comes back exactly when the intent has a registered agent, and otherwise the lookup raises `KeyError`; the job-search text is the agent's error message; the cover-letter text is the letter, or the agent's message when there is none |
| Supervisor.ResearchTurn | agents/supervisor.py:100-102 | a research turn shows findings exactly when the crawl finishes, and then none; a crawl failure gives "An error occurred." with the exception's text |
| Supervisor.ResumeIntentUnavailable | agents/supervisor.py:107-112 | a résumé question is always answered "Agent not available." with the error "Agent missing." |
| Supervisor.UnknownIgnoresAgents | agents/supervisor.py:104-105 | a query without any keyword gets the clarification request, whatever the agents would do |
| Supervisor.JobSearchAlwaysError | agents/supervisor.py:107-108 | a job-search turn comes from "Job_searchAgent" and shows the agent's error message: "resume required" without a path, and otherwise the `search_jobs` `TypeError` once the model answered |
| Supervisor.CoverLetterTurn | agents/supervisor.py:107-108 | a cover-letter turn comes from "Cover_letterAgent" and shows the letter on success and the agent's message otherwise |
| Supervisor.JobAssistantSupervisor.constructor | agents/supervisor.py:24-25 | no résumé path and no insights at start |
| Supervisor.JobAssistantSupervisor.SetResume | agents/supervisor.py:62-85 | a missing file raises `FileNotFoundError` and changes nothing; otherwise the path is stored first, so a failing analysis keeps the old insights; a successful analysis is stored and returned |
| Supervisor.JobAssistantSupervisor.ProcessQuery | agents/supervisor.py:87-145 | the turn is `Respond` on the stored résumé path: research runs a fresh research agent and a crawl failure is caught like any agent's exception, "unknown" asks for clarification, and every other intent goes through the registry |

## Left out

- The language model, the PDF reader, spaCy, HTTP requests, `os.path.exists`, `os.getenv`, `datetime.now` and the Scrapy crawler are inputs, not modelled. The prompts they receive are not modelled either, except the scoring reply format.
- The agents' constructors are left out: LLM set-up, the API-key `ValueError`, loggers and `_register_agents`. The registry appears only as its key set. `conversation_history`, logging and the `_setup_logger` helper are also left out.
- `_format_response`'s "resume" branch and its `str(response)` fallback are left out. No registered agent ever reaches them, because the "resume" intent raises `KeyError` before formatting.
- `_get_search_preferences` is left out. It reads the terminal with `input()`, prints to stdout, and is never reached, because its only caller calls it with an extra argument. Only the `_extract_search_parameters` it starts with is modelled.
- `process`'s projection of `top_matches` into listings (`agents/job_search.py:342-360`) is left out. It is never reached, and it reads `top_matches` at the top level, where `search_jobs` never puts it.
- `_create_career_prompt` and `_extract_text_from_pdf` are left out. The first builds a prompt that is never used. The second is the PDF input.
- JobSearch.ParseScore: reads only a run of ASCII decimal digits with surrounding blanks. Python's `float` also accepts signs, fractions, exponents, underscores between digits, non-ASCII decimal digits, "inf" and "nan". Scores are integers throughout the model, and float ordering is not modelled. The chat text writes a score as its integer followed by ".0"; Python's `str` of a float switches to exponent form from 1e16 upward, which is not modelled.
- Text.Lower, Text.Capitalize and Text.Strip cover only ASCII letters and the ten ASCII whitespace characters (blank, tab, line feed, carriage return, vertical tab, form feed and 0x1C to 0x1F). Python also strips non-ASCII whitespace such as U+0085 and U+00A0; that is not modelled.
- ResumeAnalyzer.DedupSpec: `list(set(...))` has an unspecified order. The model keeps first occurrences in order and proves only the members and their distinctness.
- Dictionary key order is not modelled. Dictionaries are maps from strings.
- `Industries` in the career context is always empty, because recommended jobs have no `industry` attribute. The model states this instead of computing it.
- `TypeError` and `AttributeError` messages follow CPython 3.11 wording. Slicing a dictionary, for example, raises "unhashable type: 'slice'" there; CPython 3.12 and later raise `KeyError` with the slice instead. Other versions' wording is not modelled.
- The crawler in `run_research` is an input: whether starting it returns or raises (the reactor cannot be restarted for a second research query in the same process, and signal handlers need the main thread). Following links, robots.txt and download delays are not modelled. No item reaches `self.results` either way, because the pipeline class is never registered.
- WebResearcher.Parse: follows the `itemloaders` library's `ItemLoader`, which keeps a `response` keyword as context only and raises `RuntimeError` from `add_css` when it has no selector. The library is not part of this model. Following links after the item is not modelled.
- The Flask routes, forms, `app/services/chat_agent.py`, `config.py`, `run.py` and the top-level `job_search.py` script are not part of this model.
- `agents/supervisor copy.py` is an older copy of the supervisor and is not part of this model.
