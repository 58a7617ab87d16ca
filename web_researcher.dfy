/**
 * The web-research agent (agents/web_researcher.py): the crawl
 * configuration built from the query, the item the spider's `parse`
 * callback loads from a page (with its fallback search for the page text),
 * and the agent object whose `run_research` resets its result list, runs
 * the crawl and returns the list. Pages are given by their CSS selector results.
 */
module WebResearcher {
  import opened Outcomes
  import Text

  /** WebResearchConfig. */
  datatype Config = Config(allowedDomains: seq<string>, startUrls: seq<string>, extractRules: map<string, string>)

  const WIKI_PREFIX := "https://en.wikipedia.org/wiki/"
  const DOMAINS := ["wikipedia.org", "nature.com"]
  const METADATA_SELECTOR := "meta[name=\"description\"]::attr(content)"
  const SECTIONS_SELECTOR := "div.mw-parser-output > p"

  /**
   * `configure_research`: the two allowed domains, one start page (the
   * Wikipedia article named by the query, spaces turned into underscores)
   * and the two extraction rules.
   */
  function ConfigureResearch(query: string): (c: Config)
    ensures c.allowedDomains == DOMAINS
    ensures |c.startUrls| == 1
    ensures var url := c.startUrls[0];
      |url| == |WIKI_PREFIX| + |query| && url[..|WIKI_PREFIX|] == WIKI_PREFIX
      && (forall k :: |WIKI_PREFIX| <= k < |url| ==> url[k] != ' ')
      && (forall k :: 0 <= k < |query| && query[k] == ' ' ==> url[|WIKI_PREFIX| + k] == '_')
      && (forall k :: 0 <= k < |query| && query[k] != ' ' ==> url[|WIKI_PREFIX| + k] == query[k])
    ensures c.extractRules.Keys == {"metadata", "sections"}
    ensures c.extractRules["metadata"] == METADATA_SELECTOR && c.extractRules["sections"] == SECTIONS_SELECTOR
  {
    var url := WIKI_PREFIX + Text.ReplaceChar(query, ' ', '_');
    assert forall k :: |WIKI_PREFIX| <= k < |url| ==> url[k] == Text.ReplaceChar(query, ' ', '_')[k - |WIKI_PREFIX|];
    Config(DOMAINS, [url], map["metadata" := METADATA_SELECTOR, "sections" := SECTIONS_SELECTOR])
  }

  /** The fallback selectors tried, in order, for the page text. */
  const CONTENT_SELECTORS := ["div.content", "article", "main", "div[class*=\"content\"]", "div[id*=\"content\"]"]

  /** The text nodes a selector finds (`response.css(f'{selector}::text').getall()`). */
  function TextNodes(css: string -> seq<string>, selector: string): seq<string> {
    css(selector + "::text")
  }

  /**
   * The fallback search of `parse`: the text of the first selector that
   * finds any, joined with single spaces; nothing when none finds any.
   */
  method ContentFallback(css: string -> seq<string>) returns (content: Option<string>)
    ensures content.None? <==> forall i :: 0 <= i < |CONTENT_SELECTORS| ==> TextNodes(css, CONTENT_SELECTORS[i]) == []
    ensures content.Some? ==>
      exists i :: 0 <= i < |CONTENT_SELECTORS| && TextNodes(css, CONTENT_SELECTORS[i]) != []
        && content.value == Text.Join(TextNodes(css, CONTENT_SELECTORS[i]), " ")
        && forall j :: 0 <= j < i ==> TextNodes(css, CONTENT_SELECTORS[j]) == []
  {
    content := None;
    var i := 0;
    while i < |CONTENT_SELECTORS|
      invariant 0 <= i <= |CONTENT_SELECTORS|
      invariant forall j :: 0 <= j < i ==> TextNodes(css, CONTENT_SELECTORS[j]) == []
    {
      var nodes := TextNodes(css, CONTENT_SELECTORS[i]);
      if nodes != [] {
        content := Some(Text.Join(nodes, " "));
        return;
      }
      i := i + 1;
    }
  }

  /** The item `parse` loads; each field holds the list of values added to it. */
  datatype ResearchItem = ResearchItem(url: seq<string>, title: seq<string>, content: seq<string>)

  /**
   * What `add_css` raises on an item loader built without a selector: the
   * spider passes the response only as loader context, so the loader has
   * no selector to run CSS queries on.
   */
  const NO_SELECTOR := Error("RuntimeError", "To use XPath or CSS selectors, ItemLoader must be instantiated with a selector")

  /**
   * `parse` up to the item it yields, for the extraction rules `rules`: the
   * page URL, the page title when it has one and the fallback text. The
   * first extraction rule already fails, because the loader has no
   * selector; so only a configuration without rules yields an item.
   * Following links is not modelled.
   */
  method Parse(rules: map<string, string>, url: string, title: Option<string>, css: string -> seq<string>) returns (item: Call<ResearchItem>)
    ensures rules != map[] ==> item == Threw(NO_SELECTOR)
    ensures rules == map[] ==>
      item.Returned? && item.value.url == [url]
      && (title.None? ==> item.value.title == []) && (title.Some? ==> item.value.title == [title.value])
      && |item.value.content| <= 1
      && (item.value.content == [] <==> forall i :: 0 <= i < |CONTENT_SELECTORS| ==> TextNodes(css, CONTENT_SELECTORS[i]) == [])
      && (forall c :: c in item.value.content ==>
            exists i :: 0 <= i < |CONTENT_SELECTORS| && c == Text.Join(TextNodes(css, CONTENT_SELECTORS[i]), " "))
  {
    if rules != map[] {
      return Threw(NO_SELECTOR);
    }
    var titles := if title.Some? then [title.value] else [];
    var content := ContentFallback(css);
    var texts := if content.Some? then [content.value] else [];
    item := Returned(ResearchItem([url], titles, texts));
  }

  /** A finding as `run_research` would collect it. */
  datatype Finding = Finding(item: ResearchItem)

  /**
   * The agent: its query and the findings of its last run. The pipeline
   * that would collect findings is declared but never registered with the
   * crawler, so no run ever adds one.
   */
  class ScrapyWebResearchAgent {
    var query: string
    var results: seq<Finding>

    constructor (query: string)
      ensures this.query == query && results == []
    {
      this.query := query;
      results := [];
    }

    /** The configuration this agent's query yields. */
    function Configuration(): (c: Config)
      reads this
      ensures |c.startUrls| == 1 && c.allowedDomains == DOMAINS
    {
      ConfigureResearch(query)
    }

    /**
     * `run_research`: configures the crawl, resets the findings, runs the
     * crawl and returns the findings. `crawl` is what starting the crawler
     * process does: it may raise (the reactor cannot be restarted, or the
     * call is not made from the main thread), and then the findings stay
     * reset. The pipeline that would collect findings is never registered,
     * so a crawl that finishes adds none.
     */
    method RunResearch(crawl: Call<()>) returns (findings: Call<seq<Finding>>)
      modifies this
      ensures results == [] && query == old(query)
      ensures crawl.Threw? ==> findings == Threw(crawl.exception)
      ensures crawl.Returned? ==> findings == Returned([])
    {
      var config := Configuration();
      results := [];
      if crawl.Threw? {
        return Threw(crawl.exception);
      }
      findings := Returned(results);
    }
  }
}
