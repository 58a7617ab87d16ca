/**
 * The job-search agent (agents/job_search.py): reading search parameters
 * out of the model's reply, merging the listing sources, scoring each
 * listing from a free-form model reply and ranking the survivors, the chat
 * summary, the `search_jobs` pipeline and the `process` entry point.
 * The model and the HTTP listing sources are inputs.
 */
module JobSearch {
  import opened Outcomes
  import Text
  import ResumeAnalyzer

  // ---------------------------------------------------------------------
  // _parse_query: `key: value` lines of the model's reply

  const BRACKETS: set<char> := {'[', ']'}

  /** The search parameters `_parse_query` returns. */
  datatype SearchQuery = SearchQuery(position: string, location: string)

  /**
   * One line of the reply: split at its first ':', the key trimmed and
   * lower-cased, the value trimmed and then stripped of brackets.
   */
  function ParseLine(line: string): Option<(string, string)> {
    var i := Text.Find(line, ":");
    if i < 0 then None
    else Some((Text.Lower(Text.Strip(line[..i])), Text.StripChars(Text.Strip(line[i + 1..]), BRACKETS)))
  }

  /**
   * A line is read exactly when it holds a ':'; the key is what precedes the
   * first ':', lower-cased, so keys match whatever their case in the reply.
   */
  lemma ParseLineSpec(line: string)
    ensures ParseLine(line).None? <==> ':' !in line
    ensures ParseLine(line).Some? ==>
      exists i :: 0 <= i < |line| && line[i] == ':' && ':' !in line[..i]
        && ParseLine(line).value == (Text.Lower(Text.Strip(line[..i])), Text.StripChars(Text.Strip(line[i + 1..]), BRACKETS))
    ensures ParseLine(line).Some? ==> Text.Lower(ParseLine(line).value.0) == ParseLine(line).value.0
  {
    Text.FindChar(line, ':');
    var i := Text.Find(line, ":");
    assert [':'] == ":";
    if i >= 0 {
      Text.LowerIdempotent(Text.Strip(line[..i]));
    }
  }

  /** The parameters read from the lines, a later line overwriting an earlier one with the same key. */
  function Params(lines: seq<string>): map<string, string>
    decreases |lines|
  {
    if lines == [] then map[]
    else
      var m := Params(lines[..|lines| - 1]);
      match ParseLine(lines[|lines| - 1])
      case None => m
      case Some(kv) => m[kv.0 := kv.1]
  }

  /** Line `j` sets the parameter `k`. */
  predicate Sets(lines: seq<string>, j: int, k: string) {
    0 <= j < |lines| && ParseLine(lines[j]).Some? && ParseLine(lines[j]).value.0 == k
  }

  /** Line `j` is the last line that sets `k`. */
  predicate LastSetter(lines: seq<string>, j: int, k: string) {
    Sets(lines, j, k) && forall j' :: j < j' < |lines| ==> !Sets(lines, j', k)
  }

  /**
   * A key is read exactly when some line sets it, and its value comes from
   * the last line that sets it.
   */
  lemma {:induction false} ParamsLastWins(lines: seq<string>, k: string)
    ensures k in Params(lines) <==> exists j :: Sets(lines, j, k)
    ensures k in Params(lines) ==>
      exists j :: LastSetter(lines, j, k) && Params(lines)[k] == ParseLine(lines[j]).value.1
    decreases |lines|
  {
    if lines != [] {
      var n := |lines| - 1;
      var init := lines[..n];
      ParamsLastWins(init, k);
      forall j | 0 <= j < n
        ensures Sets(init, j, k) == Sets(lines, j, k)
      {
        assert init[j] == lines[j];
      }
      if Sets(lines, n, k) {
        assert LastSetter(lines, n, k);
      } else {
        assert k in Params(lines) <==> k in Params(init);
        if k in Params(init) {
          var j :| LastSetter(init, j, k) && Params(init)[k] == ParseLine(init[j]).value.1;
          assert LastSetter(lines, j, k);
          assert init[j] == lines[j];
        }
        if exists j :: Sets(lines, j, k) {
          var j :| Sets(lines, j, k);
          assert Sets(init, j, k);
        }
      }
    }
  }

  /** At most one line is the last to set a key. */
  lemma LastSetterUnique(lines: seq<string>, j: int, j': int, k: string)
    requires LastSetter(lines, j, k) && LastSetter(lines, j', k)
    ensures j == j'
  {
  }

  function QueryOf(params: map<string, string>): SearchQuery {
    SearchQuery(
      if "position" in params then params["position"] else "",
      if "location" in params then params["location"] else "")
  }

  /** `_parse_query`, given the text of the model's reply. */
  method ParseQuery(reply: string) returns (q: SearchQuery)
    ensures q == QueryOf(Params(Text.Split(reply, "\n")))
  {
    var lines := Text.Split(reply, "\n");
    var params: map<string, string> := map[];
    var i := 0;
    while i < |lines|
      invariant 0 <= i <= |lines|
      invariant params == Params(lines[..i])
    {
      assert lines[..i + 1][..i] == lines[..i];
      var parsed := ParseLine(lines[i]);
      if parsed.Some? {
        params := params[parsed.value.0 := parsed.value.1];
      }
      i := i + 1;
    }
    assert lines[..i] == lines;
    q := QueryOf(params);
  }

  /**
   * The position (or location) is "" when no line of the reply sets it, and
   * otherwise the value on the last line that sets it.
   */
  lemma ParseQueryReads(reply: string, key: string)
    requires key == "position" || key == "location"
    ensures var lines := Text.Split(reply, "\n");
      var q := QueryOf(Params(lines));
      var v := if key == "position" then q.position else q.location;
      ((forall j :: !Sets(lines, j, key)) ==> v == "")
      && forall j :: LastSetter(lines, j, key) ==> v == ParseLine(lines[j]).value.1
  {
    var lines := Text.Split(reply, "\n");
    ParamsLastWins(lines, key);
    forall j | LastSetter(lines, j, key)
      ensures Params(lines)[key] == ParseLine(lines[j]).value.1
    {
      var j0 :| LastSetter(lines, j0, key) && Params(lines)[key] == ParseLine(lines[j0]).value.1;
      LastSetterUnique(lines, j, j0, key);
    }
  }

  // ---------------------------------------------------------------------
  // _search_jobs: the listing sources

  /** A listing as a source returns it; a field the source omitted is None. */
  datatype RawJob = RawJob(
    title: Option<string>,
    company: Option<string>,
    location: Option<string>,
    url: Option<string>,
    description: Option<string>,
    postedDate: Option<string>)

  /**
   * `job.get(key)` where a value that is not a string counts as missing: the
   * record later rejects it, as pydantic v2 validation of an `Optional[str]`
   * field does (it does not turn numbers or lists into strings).
   */
  function TextField(job: map<string, Value>, key: string): Option<string> {
    if key in job && job[key].Str? then Some(job[key].text) else None
  }

  /** One GitHub listing, renamed field by field. */
  function FromGithub(job: map<string, Value>): RawJob {
    RawJob(TextField(job, "title"), TextField(job, "company"), TextField(job, "location"),
           TextField(job, "url"), TextField(job, "description"), TextField(job, "created_at"))
  }

  /** One Indeed listing, renamed field by field. */
  function FromIndeed(job: map<string, Value>): RawJob {
    RawJob(TextField(job, "jobtitle"), TextField(job, "company"), TextField(job, "formattedLocation"),
           TextField(job, "url"), TextField(job, "snippet"), TextField(job, "formattedRelativeTime"))
  }

  predicate AllDicts(items: seq<Value>) {
    forall i :: 0 <= i < |items| ==> items[i].Obj?
  }

  /**
   * The listings of a JSON list of dictionaries; anything else makes the
   * comprehension raise (or iterate nothing), which the source turns into [].
   */
  function Listings(body: Value, rename: map<string, Value> -> RawJob): (jobs: seq<RawJob>)
    ensures body.Arr? && AllDicts(body.items) ==>
      |jobs| == |body.items| && forall i :: 0 <= i < |jobs| ==> jobs[i] == rename(body.items[i].fields)
    ensures !(body.Arr? && AllDicts(body.items)) ==> jobs == []
  {
    if body.Arr? && AllDicts(body.items) then
      seq(|body.items|, i requires 0 <= i < |body.items| => rename(body.items[i].fields))
    else []
  }

  /**
   * `_search_github_jobs`, given the HTTP status and the decoded body (or
   * what decoding raised): listings only on status 200, [] on any failure.
   */
  function SearchGithub(status: int, body: Call<Value>): (jobs: seq<RawJob>)
    ensures status != 200 || body.Threw? ==> jobs == []
    ensures status == 200 && body.Returned? && body.value.Arr? && AllDicts(body.value.items) ==>
      |jobs| == |body.value.items|
      && forall i :: 0 <= i < |jobs| ==>
           var job := body.value.items[i].fields;
           jobs[i].title == TextField(job, "title") && jobs[i].company == TextField(job, "company")
           && jobs[i].location == TextField(job, "location") && jobs[i].url == TextField(job, "url")
           && jobs[i].description == TextField(job, "description")
           && jobs[i].postedDate == TextField(job, "created_at")
    ensures status == 200 && body.Returned? && !(body.value.Arr? && AllDicts(body.value.items)) ==> jobs == []
  {
    if status != 200 || body.Threw? then [] else Listings(body.value, FromGithub)
  }

  /**
   * `_search_indeed_jobs`: nothing without the key; otherwise the listings
   * under "results" of a status-200 body, [] on any failure.
   */
  function SearchIndeed(keySet: bool, status: int, body: Call<Value>): (jobs: seq<RawJob>)
    ensures !keySet || status != 200 || body.Threw? || !body.value.Obj? ==> jobs == []
    ensures keySet && status == 200 && body.Returned? && body.value.Obj? && "results" !in body.value.fields ==> jobs == []
    ensures (keySet && status == 200 && body.Returned? && body.value.Obj? && "results" in body.value.fields
             && body.value.fields["results"].Arr? && AllDicts(body.value.fields["results"].items)) ==>
      var items := body.value.fields["results"].items;
      |jobs| == |items|
      && forall i :: 0 <= i < |jobs| ==>
           var job := items[i].fields;
           jobs[i].title == TextField(job, "jobtitle") && jobs[i].company == TextField(job, "company")
           && jobs[i].location == TextField(job, "formattedLocation") && jobs[i].url == TextField(job, "url")
           && jobs[i].description == TextField(job, "snippet")
           && jobs[i].postedDate == TextField(job, "formattedRelativeTime")
    ensures (keySet && status == 200 && body.Returned? && body.value.Obj? && "results" in body.value.fields
             && !(body.value.fields["results"].Arr? && AllDicts(body.value.fields["results"].items))) ==>
      jobs == []
  {
    if !keySet || status != 200 || body.Threw? || !body.value.Obj? then []
    else Listings(Lookup(body.value.fields, "results", Arr([])), FromIndeed)
  }

  /**
   * `_search_jobs`: the GitHub listings, then the Indeed listings when the
   * Indeed key is set. Each source already yields [] on any failure.
   */
  function CombineSources(github: seq<RawJob>, indeedKeySet: bool, indeed: seq<RawJob>): (all: seq<RawJob>)
    ensures |github| <= |all| && all[..|github|] == github
    ensures indeedKeySet ==> all[|github|..] == indeed
    ensures !indeedKeySet ==> all == github
  {
    if indeedKeySet then github + indeed else github
  }

  // ---------------------------------------------------------------------
  // Reading the model's "Score: X, Matching Skills: [..], Missing Skills: [..]" reply

  /** The score and skill lists read from one reply. */
  datatype Assessment = Assessment(score: int, matching: seq<string>, missing: seq<string>)

  /** `float(t)` restricted to integers: optional surrounding whitespace and decimal digits. */
  function ParseScore(t: string): Option<int> {
    var u := Text.Strip(t);
    if u != [] && forall k :: 0 <= k < |u| ==> Text.IsDigit(u[k]) then Some(Text.DigitsValue(u)) else None
  }

  /** The decimal rendering of a score is read back as that score. */
  lemma ParseScoreRoundTrip(n: nat)
    ensures ParseScore(Text.NatToString(n)) == Some(n)
  {
    var s := Text.NatToString(n);
    Text.StripCharsSpec(s, Text.WHITESPACE);
    var u := Text.Strip(s);
    assert s[0] !in Text.WHITESPACE && s[|s| - 1] !in Text.WHITESPACE;
    assert Text.TrimLeft(s, Text.WHITESPACE) == s;
    assert Text.TrimRight(s, Text.WHITESPACE) == s;
    Text.DigitsValueOfNatToString(n);
  }

  /** `part.split(": ")[1]`: the text after the first ": ", up to any second one. */
  function AfterColon(part: string): Option<string> {
    var pieces := Text.Split(part, ": ");
    if |pieces| < 2 then None else Some(pieces[1])
  }

  /** `part.split(": ")[1].strip("[]").split(", ")`. */
  function SkillList(part: string): Option<seq<string>> {
    var t :- AfterColon(part);
    Some(Text.Split(Text.StripChars(t, BRACKETS), ", "))
  }

  /** The reply split on ", ", read field by field; any step that would raise gives None. */
  function ParseAssessment(reply: string): Option<Assessment> {
    var parts := Text.Split(reply, ", ");
    var scoreText :- AfterColon(parts[0]);
    var score :- ParseScore(scoreText);
    if |parts| < 3 then None
    else
      var matching :- SkillList(parts[1]);
      var missing :- SkillList(parts[2]);
      Some(Assessment(score, matching, missing))
  }

  /** A skill list read from a text without ", " has exactly one entry. */
  lemma SkillListSingleton(part: string)
    requires !Text.Contains(part, ", ")
    ensures SkillList(part).Some? ==> |SkillList(part).value| == 1
  {
    var pieces := Text.Split(part, ": ");
    if |pieces| >= 2 {
      var t := pieces[1];
      var u := Text.StripChars(t, BRACKETS);
      Text.SplitPiecesOccur(part, ": ", 1);
      Text.StripCharsOccurs(t, BRACKETS);
      if Text.Contains(u, ", ") {
        Text.ContainsTrans(t, u, ", ");
        Text.ContainsTrans(part, t, ", ");
      }
      Text.SplitFree(u, ", ");
    }
  }

  /**
   * Because the reply is first split on ", ", the matching and missing
   * skill lists each hold exactly one entry, whatever the reply says.
   */
  lemma AssessmentSkillsSingleton(reply: string)
    ensures var a := ParseAssessment(reply);
      a.Some? ==> |a.value.matching| == 1 && |a.value.missing| == 1
  {
    var parts := Text.Split(reply, ", ");
    Text.SplitPiecesFree(reply, ", ");
    if |parts| >= 3 {
      SkillListSingleton(parts[1]);
      SkillListSingleton(parts[2]);
    }
  }

  /** The reply format the prompt asks for, with the given skills. */
  function PromptFormat(score: string, matching: seq<string>, missing: seq<string>): string {
    var fields := ["Score: " + score,
                   "Matching Skills: [" + Text.Join(matching, ", ") + "]",
                   "Missing Skills: [" + Text.Join(missing, ", ") + "]"];
    Text.Join(fields, ", ")
  }

  /** A text without the first character of a separator does not contain the separator. */
  lemma NoSeparator(s: string, sep: string)
    requires |sep| > 0 && sep[0] !in s
    ensures !Text.Contains(s, sep)
  {
    forall j | 0 <= j <= |s|
      ensures !Text.OccursAt(s, sep, j)
    {
      if j < |s| {
        assert s[j] != sep[0];
      }
    }
  }

  /** A piece without ", " is the first piece of the split of itself, ", " and more. */
  lemma SplitCons(a: string, rest: string)
    requires !Text.Contains(a, ", ")
    ensures Text.Split(a + ", " + rest, ", ") == [a] + Text.Split(rest, ", ")
  {
    var s := a + ", " + rest;
    assert s[|a|..|a| + 2] == ", ";
    assert Text.OccursAt(s, ", ", |a|);
    forall j | 0 <= j < |a|
      ensures !Text.OccursAt(s, ", ", j)
    {
      if j + 2 <= |a| {
        assert s[j..j + 2] == a[j..j + 2];
        assert !Text.OccursAt(a, ", ", j);
      } else {
        assert s[j + 1] == ',';
      }
    }
    assert Text.Find(s, ", ") == |a|;
    assert s[..|a|] == a;
    assert s[|a| + 2..] == rest;
  }

  /** The requested format with two matching skills, as four pieces joined by ", ". */
  lemma TwoSkillReplyPieces(score: string, first: string, second: string, missing: string)
    ensures PromptFormat(score, [first, second], [missing])
      == ("Score: " + score) + ", " + (("Matching Skills: [" + first) + ", " + ((second + "]") + ", " + ("Missing Skills: [" + missing + "]")))
  {
    var a, b, c, d := "Score: " + score, "Matching Skills: [" + first, second + "]", "Missing Skills: [" + missing + "]";
    var j1, j2 := Text.Join([first, second], ", "), Text.Join([missing], ", ");
    assert j1 == first + ", " + second by {
      assert [first, second][1..] == [second];
      assert Text.Join([second], ", ") == second;
      assert Text.Join([first, second], ", ") == first + ", " + Text.Join([second], ", ");
    }
    assert j2 == missing;
    var fields := [a, "Matching Skills: [" + j1 + "]", "Missing Skills: [" + j2 + "]"];
    assert PromptFormat(score, [first, second], [missing]) == Text.Join(fields, ", ");
    var tail := fields[1..];
    assert tail == [fields[1], d];
    assert Text.Join(tail[1..], ", ") == d;
    assert Text.Join(tail, ", ") == fields[1] + ", " + d;
    assert fields[1] == b + ", " + c;
  }

  /** Four pieces without ", " joined by ", " split back into those pieces. */
  lemma SplitFour(a: string, b: string, c: string, d: string)
    requires !Text.Contains(a, ", ") && !Text.Contains(b, ", ") && !Text.Contains(c, ", ") && !Text.Contains(d, ", ")
    ensures Text.Split(a + ", " + (b + ", " + (c + ", " + d)), ", ") == [a, b, c, d]
  {
    SplitCons(a, b + ", " + (c + ", " + d));
    SplitCons(b, c + ", " + d);
    SplitCons(c, d);
    Text.SplitFree(d, ", ");
  }

  /** The ", "-parts of a reply in the requested format with two matching skills and one missing skill. */
  lemma TwoSkillReplyParts(score: string, first: string, second: string, missing: string)
    requires ',' !in score && ',' !in first && ',' !in second && ',' !in missing
    ensures Text.Split(PromptFormat(score, [first, second], [missing]), ", ")
      == ["Score: " + score, "Matching Skills: [" + first, second + "]", "Missing Skills: [" + missing + "]"]
  {
    TwoSkillReplyPieces(score, first, second, missing);
    NoSeparator("Score: " + score, ", ");
    NoSeparator("Matching Skills: [" + first, ", ");
    NoSeparator(second + "]", ", ");
    NoSeparator("Missing Skills: [" + missing + "]", ", ");
    SplitFour("Score: " + score, "Matching Skills: [" + first, second + "]", "Missing Skills: [" + missing + "]");
  }

  /**
   * A reply in exactly the requested format that names two matching skills
   * cannot be read: its third ", "-part is the second skill, which has no
   * ": ", so the listing is dropped.
   */
  lemma TwoMatchingSkillsDropped(score: string, first: string, second: string, missing: string)
    requires ',' !in score && ',' !in first && ',' !in second && ',' !in missing
    requires ':' !in second
    ensures ParseAssessment(PromptFormat(score, [first, second], [missing])) == None
  {
    TwoSkillReplyParts(score, first, second, missing);
    var c := second + "]";
    NoSeparator(c, ": ");
    Text.SplitFree(c, ": ");
    assert SkillList(c) == None;
  }

  // ---------------------------------------------------------------------
  // _match_jobs_to_analysis

  /** A scored listing (the JobSearchResult record). */
  datatype JobMatch = JobMatch(
    title: string,
    company: string,
    location: string,
    matchScore: int,
    url: string,
    description: string,
    postedDate: string,
    skillMatches: seq<string>,
    missingSkills: seq<string>)

  /** The profile fields the prompt reads exist, and the key skills can be joined with ", ". */
  predicate ProfileReadable(profile: Value) {
    Index(profile, "Key Skills").Returned? && Joinable(Index(profile, "Key Skills").value)
    && Index(profile, "Experience Summary").Returned?
  }

  /**
   * One listing scored: None when the profile cannot be read, the model
   * raises, the reply cannot be read, or a field of the listing is missing
   * (the record rejects None).
   */
  function ScoreJob(job: RawJob, profileReadable: bool, reply: Call<string>): Option<JobMatch> {
    if !profileReadable || reply.Threw? then None
    else
      var a :- ParseAssessment(reply.value);
      var title :- job.title;
      var company :- job.company;
      var location :- job.location;
      var url :- job.url;
      var description :- job.description;
      var postedDate :- job.postedDate;
      Some(JobMatch(title, company, location, a.score, url, description, postedDate, a.matching, a.missing))
  }

  /** The listings that survive scoring, in input order. */
  function Kept(jobs: seq<RawJob>, profileReadable: bool, llm: RawJob -> Call<string>): seq<JobMatch>
    decreases |jobs|
  {
    if jobs == [] then []
    else
      var prior := Kept(jobs[..|jobs| - 1], profileReadable, llm);
      match ScoreJob(jobs[|jobs| - 1], profileReadable, llm(jobs[|jobs| - 1]))
      case None => prior
      case Some(m) => prior + [m]
  }

  /** Each surviving listing comes from an input listing, so there are never more of them. */
  lemma {:induction false} KeptBounded(jobs: seq<RawJob>, ok: bool, llm: RawJob -> Call<string>)
    ensures |Kept(jobs, ok, llm)| <= |jobs|
    ensures forall m :: m in Kept(jobs, ok, llm) ==>
      exists i :: 0 <= i < |jobs| && ScoreJob(jobs[i], ok, llm(jobs[i])) == Some(m)
    decreases |jobs|
  {
    if jobs != [] {
      var init := jobs[..|jobs| - 1];
      KeptBounded(init, ok, llm);
      forall m | m in Kept(jobs, ok, llm)
        ensures exists i :: 0 <= i < |jobs| && ScoreJob(jobs[i], ok, llm(jobs[i])) == Some(m)
      {
        if m in Kept(init, ok, llm) {
          var i :| 0 <= i < |init| && ScoreJob(init[i], ok, llm(init[i])) == Some(m);
          assert jobs[i] == init[i];
        } else {
          assert ScoreJob(jobs[|jobs| - 1], ok, llm(jobs[|jobs| - 1])) == Some(m);
        }
      }
    }
  }

  /**
   * Every listing that scores is kept: a failed scoring is the only reason
   * a listing is dropped.
   */
  lemma {:induction false} KeptComplete(jobs: seq<RawJob>, ok: bool, llm: RawJob -> Call<string>)
    ensures forall i :: 0 <= i < |jobs| && ScoreJob(jobs[i], ok, llm(jobs[i])).Some? ==>
      ScoreJob(jobs[i], ok, llm(jobs[i])).value in Kept(jobs, ok, llm)
    decreases |jobs|
  {
    if jobs != [] {
      var init := jobs[..|jobs| - 1];
      KeptComplete(init, ok, llm);
      forall i | 0 <= i < |jobs| && ScoreJob(jobs[i], ok, llm(jobs[i])).Some?
        ensures ScoreJob(jobs[i], ok, llm(jobs[i])).value in Kept(jobs, ok, llm)
      {
        if i < |init| {
          assert jobs[i] == init[i];
          assert Kept(init, ok, llm) <= Kept(jobs, ok, llm);
        }
      }
    }
  }

  /**
   * Scoring keeps input order: the survivors of a concatenation are the
   * survivors of its first part followed by those of its second.
   */
  lemma {:induction false} KeptAppend(a: seq<RawJob>, b: seq<RawJob>, ok: bool, llm: RawJob -> Call<string>)
    ensures Kept(a + b, ok, llm) == Kept(a, ok, llm) + Kept(b, ok, llm)
    decreases |b|
  {
    if b == [] {
      assert a + b == a;
    } else {
      var init := b[..|b| - 1];
      KeptAppend(a, init, ok, llm);
      assert (a + b)[..|a + b| - 1] == a + init;
      assert (a + b)[|a + b| - 1] == b[|b| - 1];
    }
  }

  /** Every kept listing's skill lists have one entry each. */
  lemma {:induction false} KeptSkillsSingleton(jobs: seq<RawJob>, ok: bool, llm: RawJob -> Call<string>)
    ensures forall m :: m in Kept(jobs, ok, llm) ==> |m.skillMatches| == 1 && |m.missingSkills| == 1
    decreases |jobs|
  {
    if jobs != [] {
      var init, last := jobs[..|jobs| - 1], jobs[|jobs| - 1];
      KeptSkillsSingleton(init, ok, llm);
      var scored := ScoreJob(last, ok, llm(last));
      if scored.Some? {
        AssessmentSkillsSingleton(llm(last).value);
        assert Kept(jobs, ok, llm) == Kept(init, ok, llm) + [scored.value];
      } else {
        assert Kept(jobs, ok, llm) == Kept(init, ok, llm);
      }
    }
  }

  /** When the profile cannot be read, every listing is dropped. */
  lemma {:induction false} KeptUnreadableProfile(jobs: seq<RawJob>, llm: RawJob -> Call<string>)
    ensures Kept(jobs, false, llm) == []
    decreases |jobs|
  {
    if jobs != [] {
      KeptUnreadableProfile(jobs[..|jobs| - 1], llm);
    }
  }

  /** Python's `sorted(..., key=match_score, reverse=True)`: descending and stable. */
  function Insert(x: JobMatch, sorted: seq<JobMatch>): seq<JobMatch>
    decreases |sorted|
  {
    if sorted == [] || sorted[0].matchScore <= x.matchScore then [x] + sorted
    else [sorted[0]] + Insert(x, sorted[1..])
  }

  function SortByScore(s: seq<JobMatch>): seq<JobMatch>
    decreases |s|
  {
    if s == [] then [] else Insert(s[0], SortByScore(s[1..]))
  }

  predicate Descending(s: seq<JobMatch>) {
    forall i, j :: 0 <= i < j < |s| ==> s[i].matchScore >= s[j].matchScore
  }

  /** The listings with a given score, in order. */
  function WithScore(s: seq<JobMatch>, score: int): seq<JobMatch>
    decreases |s|
  {
    if s == [] then []
    else (if s[0].matchScore == score then [s[0]] else []) + WithScore(s[1..], score)
  }

  lemma {:induction false} InsertPermutes(x: JobMatch, t: seq<JobMatch>)
    ensures multiset(Insert(x, t)) == multiset(t) + multiset{x}
    decreases |t|
  {
    if t != [] && t[0].matchScore > x.matchScore {
      InsertPermutes(x, t[1..]);
      assert t == [t[0]] + t[1..];
    }
  }

  lemma {:induction false} InsertDescending(x: JobMatch, t: seq<JobMatch>)
    requires Descending(t)
    ensures Descending(Insert(x, t))
    decreases |t|
  {
    if t == [] || t[0].matchScore <= x.matchScore {
      var r := [x] + t;
      forall i, j | 0 <= i < j < |r|
        ensures r[i].matchScore >= r[j].matchScore
      {
        assert r[j] == t[j - 1];
        if i == 0 {
          assert t[0].matchScore >= t[j - 1].matchScore;
        } else {
          assert r[i] == t[i - 1];
        }
      }
    } else {
      var rest := Insert(x, t[1..]);
      InsertDescending(x, t[1..]);
      assert rest[0] == x || rest[0] == t[1];
      var r := [t[0]] + rest;
      forall i, j | 0 <= i < j < |r|
        ensures r[i].matchScore >= r[j].matchScore
      {
        assert r[j] == rest[j - 1];
        if i == 0 {
          assert rest[0].matchScore >= rest[j - 1].matchScore;
        } else {
          assert r[i] == rest[i - 1];
        }
      }
    }
  }

  lemma {:induction false} InsertWithScore(x: JobMatch, t: seq<JobMatch>, score: int)
    ensures WithScore(Insert(x, t), score) == (if x.matchScore == score then [x] else []) + WithScore(t, score)
    decreases |t|
  {
    var own := if x.matchScore == score then [x] else [];
    if t == [] || t[0].matchScore <= x.matchScore {
      assert ([x] + t)[1..] == t;
      assert WithScore([x] + t, score) == own + WithScore(t, score);
    } else {
      var rest := Insert(x, t[1..]);
      var head := if t[0].matchScore == score then [t[0]] else [];
      InsertWithScore(x, t[1..], score);
      assert ([t[0]] + rest)[1..] == rest;
      assert WithScore([t[0]] + rest, score) == head + WithScore(rest, score);
      assert WithScore(t, score) == head + WithScore(t[1..], score);
      if t[0].matchScore == score {
        assert own == [];
      } else {
        assert head == [];
      }
    }
  }

  /**
   * Ranking puts the listings in non-increasing score order, keeps exactly
   * the same listings, and keeps listings of equal score in input order.
   */
  lemma {:induction false} SortByScoreSpec(s: seq<JobMatch>)
    ensures Descending(SortByScore(s))
    ensures multiset(SortByScore(s)) == multiset(s)
    ensures forall score :: WithScore(SortByScore(s), score) == WithScore(s, score)
    decreases |s|
  {
    if s != [] {
      SortByScoreSpec(s[1..]);
      InsertPermutes(s[0], SortByScore(s[1..]));
      InsertDescending(s[0], SortByScore(s[1..]));
      assert s == [s[0]] + s[1..];
      forall score
        ensures WithScore(SortByScore(s), score) == WithScore(s, score)
      {
        InsertWithScore(s[0], SortByScore(s[1..]), score);
        assert WithScore(s, score)
          == (if s[0].matchScore == score then [s[0]] else []) + WithScore(s[1..], score);
      }
    }
  }

  /**
   * `_match_jobs_to_analysis` as a value: the profile and skill-gap lookups
   * before the loop raise out of it; inside the loop each failure drops
   * that listing; the survivors are ranked.
   */
  function Matched(jobs: seq<RawJob>, analysis: Value, llm: RawJob -> Call<string>): Call<seq<JobMatch>> {
    var profile :- Index(analysis, "Current Profile");
    var development :- Index(analysis, "Development Areas");
    var _ :- Index(development, "Skill Gaps");
    Returned(SortByScore(Kept(jobs, ProfileReadable(profile), llm)))
  }

  /** `_match_jobs_to_analysis`: score each listing, skip the ones that fail, rank the rest. */
  method MatchJobs(jobs: seq<RawJob>, analysis: Value, llm: RawJob -> Call<string>) returns (r: Call<seq<JobMatch>>)
    ensures r == Matched(jobs, analysis, llm)
    ensures r.Returned? ==> Descending(r.value) && |r.value| <= |jobs|
    ensures r.Returned? ==>
      forall i :: 0 <= i < |jobs| && ScoreJob(jobs[i], ProfileReadable(analysis.fields["Current Profile"]), llm(jobs[i])).Some? ==>
        ScoreJob(jobs[i], ProfileReadable(analysis.fields["Current Profile"]), llm(jobs[i])).value in r.value
  {
    var profile :- Index(analysis, "Current Profile");
    var development :- Index(analysis, "Development Areas");
    var _ :- Index(development, "Skill Gaps");
    var readable := ProfileReadable(profile);
    var matched: seq<JobMatch> := [];
    var i := 0;
    while i < |jobs|
      invariant 0 <= i <= |jobs|
      invariant matched == Kept(jobs[..i], readable, llm)
    {
      assert jobs[..i + 1][..i] == jobs[..i];
      var scored := ScoreJob(jobs[i], readable, llm(jobs[i]));
      if scored.Some? {
        matched := matched + [scored.value];
      }
      i := i + 1;
    }
    assert jobs[..i] == jobs;
    r := Returned(SortByScore(matched));
    MatchedSpec(jobs, analysis, llm);
  }

  /**
   * When the lookups succeed, the matches are ranked by score; they are
   * exactly the listings that score, each as often as it scores, with
   * matches of equal score in input order; and there are no more of them
   * than listings.
   */
  lemma MatchedSpec(jobs: seq<RawJob>, analysis: Value, llm: RawJob -> Call<string>)
    ensures var r := Matched(jobs, analysis, llm);
      r.Returned? ==>
        var ok := ProfileReadable(analysis.fields["Current Profile"]);
        Descending(r.value) && |r.value| <= |jobs|
        && (forall m :: m in r.value ==>
              exists i :: 0 <= i < |jobs| && ScoreJob(jobs[i], ok, llm(jobs[i])) == Some(m))
        && (forall i :: 0 <= i < |jobs| && ScoreJob(jobs[i], ok, llm(jobs[i])).Some? ==>
              ScoreJob(jobs[i], ok, llm(jobs[i])).value in r.value)
        && multiset(r.value) == multiset(Kept(jobs, ok, llm))
        && forall score :: WithScore(r.value, score) == WithScore(Kept(jobs, ok, llm), score)
  {
    var r := Matched(jobs, analysis, llm);
    if r.Returned? {
      var readable := ProfileReadable(analysis.fields["Current Profile"]);
      var kept := Kept(jobs, readable, llm);
      SortByScoreSpec(kept);
      KeptBounded(jobs, readable, llm);
      KeptComplete(jobs, readable, llm);
      assert |r.value| == |kept| by {
        assert |multiset(r.value)| == |multiset(kept)|;
      }
      forall m | m in r.value
        ensures m in kept
      {
        assert m in multiset(r.value);
      }
      forall m | m in kept
        ensures m in r.value
      {
        assert m in multiset(kept);
      }
    }
  }

  // ---------------------------------------------------------------------
  // _format_chat_response

  /** The search parameters `search_jobs` works with. */
  datatype SearchCriteria = SearchCriteria(position: string, location: string, skills: Value, industryKeywords: Value)

  const NO_MATCHES := "I couldn't find any matching jobs." + " Try adjusting your search criteria."
  const CLOSING := "\nWould you like to refine your search or learn more about any of these positions?"
  const TOP_COUNT := 5
  const SKILLS_SHOWN := 3

  /**
   * `str(score)` of the float score: an integral float prints with ".0".
   * From 1e16 upward Python prints exponent form, which is not modelled.
   */
  function ScoreText(score: int): string {
    Text.IntToString(score) + ".0"
  }

  function Header(count: nat, criteria: SearchCriteria): string {
    "I found " + Text.IntToString(count) + " jobs matching your search for " + criteria.position
      + " in " + (if criteria.location == "" then "any location" else criteria.location)
      + ". Here are the top matches:\n"
  }

  /** The chat entry for the `n`-th listing. */
  function Entry(n: nat, job: JobMatch): string {
    Text.IntToString(n) + ". " + job.title + " at " + job.company + "\n"
      + "\U{1F4CD} " + job.location + "\n"
      + "Match Score: " + ScoreText(job.matchScore) + "%\n"
      + "Posted: " + job.postedDate + "\n"
      + "Matching Skills: " + Text.Join(Text.Take(job.skillMatches, SKILLS_SHOWN), ", ") + "...\n"
      + "Skills to Develop: " + Text.Join(Text.Take(job.missingSkills, SKILLS_SHOWN), ", ") + "...\n"
      + "More Info: " + job.url + "\n"
  }

  /** The entries for the first five listings, numbered from 1. */
  function Entries(jobs: seq<JobMatch>): (es: seq<string>)
    ensures |es| == |Text.Take(jobs, TOP_COUNT)|
  {
    var top := Text.Take(jobs, TOP_COUNT);
    seq(|top|, i requires 0 <= i < |top| => Entry(i + 1, top[i]))
  }

  function ChatText(jobs: seq<JobMatch>, criteria: SearchCriteria): string {
    if jobs == [] then NO_MATCHES
    else Text.Join([Header(|jobs|, criteria)] + Entries(jobs) + [CLOSING], "\n")
  }

  /** `_format_chat_response`: a header, one entry per top listing, a closing line. */
  method FormatChatResponse(jobs: seq<JobMatch>, criteria: SearchCriteria) returns (text: string)
    ensures text == ChatText(jobs, criteria)
    ensures jobs == [] <==> text == NO_MATCHES
  {
    if jobs == [] {
      return NO_MATCHES;
    }
    var parts := [Header(|jobs|, criteria)];
    var top := Text.Take(jobs, TOP_COUNT);
    var i := 0;
    while i < |top|
      invariant 0 <= i <= |top|
      invariant parts == [Header(|jobs|, criteria)] + Entries(jobs)[..i]
    {
      parts := parts + [Entry(i + 1, top[i])];
      i := i + 1;
    }
    assert Entries(jobs)[..i] == Entries(jobs);
    parts := parts + [CLOSING];
    text := Text.Join(parts, "\n");
    ChatTextNotEmpty(jobs, criteria);
  }

  /** The summary of a non-empty result opens with its header, so it is never the "couldn't find" message. */
  lemma ChatTextNotEmpty(jobs: seq<JobMatch>, criteria: SearchCriteria)
    requires jobs != []
    ensures ChatText(jobs, criteria) != NO_MATCHES
  {
    assert NO_MATCHES[2] == 'c';
    var h := Header(|jobs|, criteria);
    Text.JoinHead([h] + Entries(jobs) + [CLOSING], "\n");
    var text := ChatText(jobs, criteria);
    assert text[..|h|] == h;
    assert text[2] == h[2] == 'f';
  }

  /**
   * At most five listings are shown, the first ones in rank order and
   * numbered from 1.
   */
  lemma EntriesShape(jobs: seq<JobMatch>)
    ensures |Entries(jobs)| == if |jobs| < TOP_COUNT then |jobs| else TOP_COUNT
    ensures forall i :: 0 <= i < |Entries(jobs)| ==> Entries(jobs)[i] == Entry(i + 1, jobs[i])
  {
    var top := Text.Take(jobs, TOP_COUNT);
    forall i | 0 <= i < |top|
      ensures Entries(jobs)[i] == Entry(i + 1, jobs[i])
    {
      assert top[i] == jobs[i];
    }
  }

  // ---------------------------------------------------------------------
  // search_jobs

  /** One entry of `top_matches`. */
  datatype TopMatch = TopMatch(
    title: string,
    company: string,
    location: string,
    matchScore: int,
    url: string,
    postedDate: string,
    matchingSkills: seq<string>,
    skillsToDevelop: seq<string>,
    descriptionPreview: string)

  datatype SearchResults = SearchResults(
    skills: Value,
    experience: Value,
    careerObjectives: Value,
    criteria: SearchCriteria,
    totalJobs: nat,
    topMatches: seq<TopMatch>)

  /** What `search_jobs` returns, by status. */
  datatype SearchReply =
    | NoResults(message: string, analysis: Value, criteria: SearchCriteria)
    | Found(message: string, results: SearchResults)
    | SearchFailed(message: string, analysisSoFar: Option<Value>, criteriaSoFar: Option<SearchCriteria>)

  const NO_JOBS := "No jobs found matching your criteria. Try broadening your search or changing location."
  const SEARCH_FAILED := "Job search failed: "
  const PREVIEW_LENGTH := 200
  /** `str(e)` of the TypeError the call at line 202 raises: it passes two arguments to a one-parameter method. */
  const PREFERENCES_ARITY := "JobSearchAgent._get_search_preferences() takes 2 positional arguments but 3 were given"

  function Preview(description: string): string {
    Text.Take(description, PREVIEW_LENGTH) + "..."
  }

  function ToTopMatch(job: JobMatch): TopMatch {
    TopMatch(job.title, job.company, job.location, job.matchScore, job.url, job.postedDate,
             job.skillMatches, job.missingSkills, Preview(job.description))
  }

  /** `top_matches`: the first five matches, each with its description preview. */
  function TopMatches(matched: seq<JobMatch>): (top: seq<TopMatch>)
    ensures |top| == |Text.Take(matched, TOP_COUNT)|
    ensures forall i :: 0 <= i < |top| ==> top[i] == ToTopMatch(matched[i])
  {
    var best := Text.Take(matched, TOP_COUNT);
    seq(|best|, i requires 0 <= i < |best| => ToTopMatch(best[i]))
  }

  /**
   * The "success" reply built from the ranked matches; reading the profile
   * and career context out of the analysis may raise.
   */
  function Summary(matched: seq<JobMatch>, analysis: Value, criteria: SearchCriteria): Call<SearchReply> {
    var profile :- Index(analysis, "Current Profile");
    var skills :- Index(profile, "Key Skills");
    var experience :- Index(profile, "Experience Summary");
    var context :- Index(analysis, "Career Context");
    var objectives :- Index(context, "Objectives");
    Returned(Found(ChatText(matched, criteria),
      SearchResults(skills, experience, objectives, criteria, |matched|, TopMatches(matched))))
  }

  /**
   * The part of `search_jobs` after the search parameters are known: no
   * listings give "no_results"; otherwise the ranked matches are summarised,
   * and any failure (including the profile lookups) gives the error reply.
   */
  function SearchTail(analysis: Value, criteria: SearchCriteria, raw: seq<RawJob>, llm: RawJob -> Call<string>): SearchReply {
    if raw == [] then NoResults(NO_JOBS, analysis, criteria)
    else
      var outcome := (var matched :- Matched(raw, analysis, llm); Summary(matched, analysis, criteria));
      match outcome
      case Returned(reply) => reply
      case Threw(e) => SearchFailed(SEARCH_FAILED + Describe(e), Some(analysis), Some(criteria))
  }

  /**
   * What the tail promises: "no_results" exactly when no listing came back;
   * on success the total is the number of matches, and the top matches are
   * the first five of the ranking, in order, each with a preview of at most
   * 200 characters of its description.
   */
  lemma SearchTailSpec(analysis: Value, criteria: SearchCriteria, raw: seq<RawJob>, llm: RawJob -> Call<string>)
    ensures SearchTail(analysis, criteria, raw, llm).NoResults? <==> raw == []
    ensures var r := SearchTail(analysis, criteria, raw, llm);
      r.Found? ==>
        Matched(raw, analysis, llm).Returned?
        && r.results.totalJobs == |Matched(raw, analysis, llm).value| <= |raw|
        && r.results.topMatches == TopMatches(Matched(raw, analysis, llm).value)
  {
    MatchedSpec(raw, analysis, llm);
  }

  /**
   * No listing left out of the top matches outscores one in them, and each
   * preview is a prefix of at most 200 characters followed by "...".
   */
  lemma TopMatchesBest(matched: seq<JobMatch>)
    requires Descending(matched)
    ensures |TopMatches(matched)| <= TOP_COUNT
    ensures forall i, j :: 0 <= i < |TopMatches(matched)| <= j < |matched| ==>
      TopMatches(matched)[i].matchScore >= matched[j].matchScore
    ensures forall i :: 0 <= i < |TopMatches(matched)| ==>
      var p := TopMatches(matched)[i].descriptionPreview;
      |p| <= PREVIEW_LENGTH + 3 && p == matched[i].description[..|p| - 3] + "..."
  {
  }

  /**
   * The résumé analyzer's own report names its sections "Current_Profile"
   * and so on, so once any listing comes back the tail fails on the very
   * first lookup.
   */
  lemma SearchTailOnOwnReport(report: ResumeAnalyzer.Report, criteria: SearchCriteria, raw: seq<RawJob>, llm: RawJob -> Call<string>)
    requires raw != []
    ensures SearchTail(ResumeAnalyzer.ToValue(report), criteria, raw, llm)
      == SearchFailed(SEARCH_FAILED + "'Current Profile'", Some(ResumeAnalyzer.ToValue(report)), Some(criteria))
  {
    ResumeAnalyzer.ToValueKeys(report);
    SearchTailWithoutProfile(ResumeAnalyzer.ToValue(report), criteria, raw, llm);
  }

  /** Any dictionary without a "Current Profile" entry makes the tail fail on that key once a listing came back. */
  lemma SearchTailWithoutProfile(analysis: Value, criteria: SearchCriteria, raw: seq<RawJob>, llm: RawJob -> Call<string>)
    requires raw != [] && analysis.Obj? && "Current Profile" !in analysis.fields
    ensures SearchTail(analysis, criteria, raw, llm)
      == SearchFailed(SEARCH_FAILED + "'Current Profile'", Some(analysis), Some(criteria))
  {
    assert Index(analysis, "Current Profile") == Threw(KeyError("Current Profile"));
    assert Matched(raw, analysis, llm) == Threw(KeyError("Current Profile"));
  }

  /**
   * `search_jobs` as written: after the résumé analysis, the call to
   * `_get_search_preferences` at line 202 passes one argument too many, so
   * the call always ends in the error reply and the tail is never reached.
   */
  function SearchJobs(resumePath: string, query: string, analysis: Call<Value>): (r: SearchReply)
    ensures r.SearchFailed? && r.criteriaSoFar.None?
    ensures analysis.Returned? ==> r == SearchFailed(SEARCH_FAILED + PREFERENCES_ARITY, Some(analysis.value), None)
    ensures analysis.Threw? ==> r == SearchFailed(SEARCH_FAILED + Describe(analysis.exception), None, None)
  {
    match analysis
    case Threw(e) => SearchFailed(SEARCH_FAILED + Describe(e), None, None)
    case Returned(v) => SearchFailed(SEARCH_FAILED + PREFERENCES_ARITY, Some(v), None)
  }

  // ---------------------------------------------------------------------
  // _extract_search_parameters

  datatype SearchParameters = SearchParameters(skills: Value, recentTitles: seq<Value>, industryKeywords: Value)

  /** `[rec["Job Title"] for rec in recs]`. */
  function TitlesOf(recs: seq<Value>): (r: Call<seq<Value>>)
    ensures r.Returned? ==>
      |r.value| == |recs| && forall i :: 0 <= i < |recs| ==> Index(recs[i], "Job Title") == Returned(r.value[i])
    decreases |recs|
  {
    if recs == [] then Returned([])
    else
      var t :- Index(recs[0], "Job Title");
      var rest :- TitlesOf(recs[1..]);
      assert forall i :: 1 <= i < |recs| ==> recs[i] == recs[1..][i - 1];
      Returned([t] + rest)
  }

  /** The first three recommendations of `recs` (`recs[:3]`), or the error slicing raises. */
  function FirstThree(recs: Value): Call<seq<Value>> {
    match recs
    case Arr(items) => Returned(Text.Take(items, 3))
    // a sliced string iterates as one-character strings, which cannot be indexed by a key
    case Str(t) => if t == "" then Returned([]) else Threw(Error("TypeError", "string indices must be integers, not 'str'"))
    case Obj(_) => Threw(Error("TypeError", "unhashable type: 'slice'"))
    case _ => Threw(Error("TypeError", "'" + TypeName(recs) + "' object is not subscriptable"))
  }

  /**
   * `_extract_search_parameters`: the key skills, the titles of the first
   * three recommendations and the industry keywords, each defaulting to an
   * empty list when its key is missing.
   */
  function ExtractSearchParameters(analysis: Value): (r: Call<SearchParameters>)
    ensures r.Returned? ==> |r.value.recentTitles| <= 3
  {
    match analysis
    case Obj(fields) =>
      var profile := Lookup(fields, "Current Profile", Obj(map[]));
      var context := Lookup(fields, "Career Context", Obj(map[]));
      var recs := Lookup(fields, "Career Recommendations", Arr([]));
      var skills :- Get(profile, "Key Skills", Arr([]));
      var firstThree :- FirstThree(recs);
      var titles :- TitlesOf(firstThree);
      var keywords :- Get(context, "Industry Keywords", Arr([]));
      Returned(SearchParameters(skills, titles, keywords))
    case _ => Threw(NoGet(analysis))
  }

  /** A dictionary without any of the three sections gives every parameter its empty default. */
  lemma ExtractDefaults(analysis: Value)
    requires analysis.Obj?
    requires "Current Profile" !in analysis.fields && "Career Context" !in analysis.fields
    requires "Career Recommendations" !in analysis.fields
    ensures ExtractSearchParameters(analysis) == Returned(SearchParameters(Arr([]), [], Arr([])))
  {
    assert Text.Take<Value>([], 3) == [];
  }

  /**
   * On the résumé analyzer's own report, whose section names differ from
   * the ones looked up here, every parameter takes its empty default.
   */
  lemma ExtractOnOwnReport(report: ResumeAnalyzer.Report)
    ensures ExtractSearchParameters(ResumeAnalyzer.ToValue(report)) == Returned(SearchParameters(Arr([]), [], Arr([])))
  {
    var v := ResumeAnalyzer.ToValue(report);
    ResumeAnalyzer.ToValueKeys(report);
    assert "Current Profile" !in v.fields;
    assert "Career Context" !in v.fields;
    assert "Career Recommendations" !in v.fields;
    ExtractDefaults(v);
  }

  /** Key skills and industry keywords that are present are passed through unchanged. */
  lemma ExtractPassesThrough(analysis: Value)
    requires analysis.Obj?
    ensures var r := ExtractSearchParameters(analysis);
      var profile := Lookup(analysis.fields, "Current Profile", Obj(map[]));
      r.Returned? && profile.Obj? && "Key Skills" in profile.fields ==> r.value.skills == profile.fields["Key Skills"]
    ensures var r := ExtractSearchParameters(analysis);
      var context := Lookup(analysis.fields, "Career Context", Obj(map[]));
      r.Returned? && context.Obj? && "Industry Keywords" in context.fields ==>
        r.value.industryKeywords == context.fields["Industry Keywords"]
  {
  }

  /** With a list of recommendations, the titles are those of the first three, in order. */
  lemma ExtractTitles(analysis: Value)
    requires analysis.Obj? && "Career Recommendations" in analysis.fields
    requires analysis.fields["Career Recommendations"].Arr?
    ensures var r := ExtractSearchParameters(analysis);
      var recs := analysis.fields["Career Recommendations"].items;
      r.Returned? ==>
        |r.value.recentTitles| == (if |recs| < 3 then |recs| else 3)
        && forall i :: 0 <= i < |r.value.recentTitles| ==> Index(recs[i], "Job Title") == Returned(r.value.recentTitles[i])
  {
  }

  // ---------------------------------------------------------------------
  // process

  /** A listing as `process` would report it. */
  datatype Listing = Listing(
    title: string,
    company: string,
    location: string,
    matchScore: int,
    requirements: seq<string>,
    url: string,
    description: string)

  /** What `process` returns: the error envelope, or the listings. */
  datatype Reply =
    | Failed(message: string)
    | Success(listings: seq<Listing>, totalFound: nat, criteria: Value)

  const RESUME_REQUIRED := "Resume path is required for job search"
  /** `str(e)` of the TypeError the call at line 339 raises: `search_jobs` needs a query too. */
  const SEARCH_JOBS_ARITY := "JobSearchAgent.search_jobs() missing 1 required positional argument: 'query'"

  /**
   * `process`: without a résumé path it fails before asking the model; with
   * one, the model is asked for the search parameters (`parseReply` is how
   * that call ends; the parameters are not used afterwards) and then the
   * one-argument call of `search_jobs` raises, so the reply is always an
   * error.
   */
  function Process(query: string, resumePath: Option<string>, parseReply: Call<string>): (r: Reply)
    ensures r.Failed?
    ensures !Truthy(resumePath) ==> r.message == RESUME_REQUIRED
    ensures Truthy(resumePath) && parseReply.Threw? ==> r.message == Describe(parseReply.exception)
    ensures Truthy(resumePath) && parseReply.Returned? ==> r.message == SEARCH_JOBS_ARITY
  {
    if !Truthy(resumePath) then Failed(RESUME_REQUIRED)
    else
      match parseReply
      case Threw(e) => Failed(Describe(e))
      case Returned(_) => Failed(SEARCH_JOBS_ARITY)
  }
}
