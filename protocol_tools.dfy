/** The testing-protocol agent's tools (agent/app/testing_protocol_agent/tools.py):
    `tavily_search` turns a search response into one markdown block per result
    that has a URL, `fetch_webpage_content` turns a failed fetch into inline
    text, and `think_tool` echoes a reflection. The search engine, the HTTP
    fetch and markdownify are parameters. */
module ProtocolTools {
  import opened Common

  datatype Topic = General | News | Finance

  /** What `httpx.get(...)` with `raise_for_status()` gave: the page's text,
      or an exception with the given text. */
  datatype Fetch = Fetched(text: string) | FetchFailed(reason: string)

  /** One entry of the response's "results": the optional "url" and "title" keys. */
  datatype SearchHit = SearchHit(url: Option<string>, title: Option<string>)

  /** What `tavily_client.search` did: raised an exception, or returned a
      response with or without a "results" key. */
  datatype SearchResponse = SearchFailed(reason: string) | Searched(results: Option<seq<SearchHit>>)

  const DefaultTimeout: real := 10.0
  const DefaultMaxResults: int := 5
  const NoTitle: string := "No Title"

  // ---------------------------------------------------------------------------
  // fetch_webpage_content

  /** The page at `url` as markdown, or the error text that replaces it. */
  function FetchWebpageContent(web: (string, real) -> Fetch, markdownify: string -> string,
                               url: string, timeout: real := DefaultTimeout): (content: string)
    ensures web(url, timeout).Fetched? ==> content == markdownify(web(url, timeout).text)
    ensures web(url, timeout).FetchFailed? ==>
      content == "Error fetching content from " + url + ": " + web(url, timeout).reason
  {
    match web(url, timeout)
    case Fetched(text) => markdownify(text)
    case FetchFailed(reason) => "Error fetching content from " + url + ": " + reason
  }

  // ---------------------------------------------------------------------------
  // tavily_search

  /** `if url:` — present and not empty. */
  predicate Usable(hit: SearchHit)
  {
    hit.url.Some? && hit.url.value != ""
  }

  function Block(title: string, url: string, content: string): string
  {
    "## " + title + "\n**URL:** " + url + "\n\n" + content + "\n\n---\n"
  }

  function BlockOf(web: (string, real) -> Fetch, markdownify: string -> string, hit: SearchHit): string
    requires Usable(hit)
  {
    Block(hit.title.GetOr(NoTitle), hit.url.value, FetchWebpageContent(web, markdownify, hit.url.value))
  }

  /** The results that have a URL, in search order. */
  function UsableHits(hits: seq<SearchHit>): (us: seq<SearchHit>)
    ensures forall k :: 0 <= k < |us| ==> Usable(us[k])
  {
    if hits == [] then []
    else UsableHits(hits[..|hits| - 1]) + (if Usable(hits[|hits| - 1]) then [hits[|hits| - 1]] else [])
  }

  /** `result_texts` after the loop over `hits`. */
  function Blocks(web: (string, real) -> Fetch, markdownify: string -> string, hits: seq<SearchHit>): seq<string>
  {
    if hits == [] then []
    else Blocks(web, markdownify, hits[..|hits| - 1])
         + (if Usable(hits[|hits| - 1]) then [BlockOf(web, markdownify, hits[|hits| - 1])] else [])
  }

  function NoResults(query: string): string
  {
    "No results found for query: '" + query + "'."
  }

  function FoundHeader(count: nat, query: string): string
  {
    "\U{1F50D} Found " + IntToString(count) + " result(s) for '" + query + "' (External Context):\n\n"
  }

  /** The reply of `tavily_search`. */
  function SearchReply(engine: (string, int, Topic) -> SearchResponse, web: (string, real) -> Fetch,
                       markdownify: string -> string, query: string, maxResults: int, topic: Topic): string
  {
    var response := engine(query, maxResults, topic);
    if response.SearchFailed? then "Error connecting to search engine: " + response.reason
    else
      var blocks := Blocks(web, markdownify, response.results.GetOr([]));
      if blocks == [] then NoResults(query)
      else FoundHeader(|blocks|, query) + Join("\n", blocks)
  }

  lemma BlocksStep(web: (string, real) -> Fetch, markdownify: string -> string, hits: seq<SearchHit>, i: nat)
    requires i < |hits|
    ensures Blocks(web, markdownify, hits[..i + 1])
         == Blocks(web, markdownify, hits[..i]) + (if Usable(hits[i]) then [BlockOf(web, markdownify, hits[i])] else [])
  {
    assert hits[..i + 1][..|hits[..i + 1]| - 1] == hits[..i];
  }

  /** There is one block per result with a URL, in search order, each with that
      result's title (or "No Title"), URL and fetched content, whether the
      fetch succeeded or not. */
  lemma {:induction false} BlocksOfUsableHits(web: (string, real) -> Fetch, markdownify: string -> string,
                                               hits: seq<SearchHit>)
    ensures var blocks := Blocks(web, markdownify, hits);
      var us := UsableHits(hits);
      && |blocks| == |us|
      && forall k :: 0 <= k < |us| ==>
           blocks[k] == Block(us[k].title.GetOr(NoTitle), us[k].url.value,
                              FetchWebpageContent(web, markdownify, us[k].url.value))
  {
    if hits != [] {
      BlocksOfUsableHits(web, markdownify, hits[..|hits| - 1]);
    }
  }

  /** A result is used exactly when it is among the results and has a URL. */
  lemma {:induction false} UsableHitsMembership(hits: seq<SearchHit>, hit: SearchHit)
    ensures hit in UsableHits(hits) <==> hit in hits && Usable(hit)
  {
    if hits != [] {
      var init := hits[..|hits| - 1];
      UsableHitsMembership(init, hit);
      assert hits == init + [hits[|hits| - 1]];
    }
  }

  /** The search reply: an engine failure is reported and nothing is fetched;
      with no result that has a URL it is exactly the "No results" text; and
      otherwise the header counts exactly the results that have a URL and is
      followed by their blocks joined by newlines. */
  lemma SearchReplyCases(engine: (string, int, Topic) -> SearchResponse, web: (string, real) -> Fetch,
                         markdownify: string -> string, query: string, maxResults: int, topic: Topic)
    ensures var response := engine(query, maxResults, topic);
      var reply := SearchReply(engine, web, markdownify, query, maxResults, topic);
      && (response.SearchFailed? ==> reply == "Error connecting to search engine: " + response.reason)
      && (response.Searched? && UsableHits(response.results.GetOr([])) == [] ==>
            reply == "No results found for query: '" + query + "'.")
      && (response.Searched? && UsableHits(response.results.GetOr([])) != [] ==>
            var us := UsableHits(response.results.GetOr([]));
            reply == FoundHeader(|us|, query) + Join("\n", Blocks(web, markdownify, response.results.GetOr([]))))
      && reply != []
  {
    var response := engine(query, maxResults, topic);
    if response.Searched? {
      BlocksOfUsableHits(web, markdownify, response.results.GetOr([]));
    }
  }

  /** `tavily_search(query, max_results, topic)`. */
  method TavilySearch(engine: (string, int, Topic) -> SearchResponse, web: (string, real) -> Fetch,
                      markdownify: string -> string, query: string,
                      maxResults: int := DefaultMaxResults, topic: Topic := General)
    returns (response: string)
    ensures response == SearchReply(engine, web, markdownify, query, maxResults, topic)
  {
    var searchResults := engine(query, maxResults, topic);
    if searchResults.SearchFailed? {
      return "Error connecting to search engine: " + searchResults.reason;
    }
    var resultTexts: seq<string> := [];
    var results := searchResults.results.GetOr([]);
    for i := 0 to |results|
      invariant resultTexts == Blocks(web, markdownify, results[..i])
    {
      var result := results[i];
      var url := result.url;
      var title := result.title.GetOr(NoTitle);
      BlocksStep(web, markdownify, results, i);
      if url.Some? && url.value != "" {
        var content := FetchWebpageContent(web, markdownify, url.value);
        var resultText := "## " + title + "\n**URL:** " + url.value + "\n\n" + content + "\n\n---\n";
        resultTexts := resultTexts + [resultText];
      }
    }
    assert results[..|results|] == results;
    if resultTexts == [] {
      return "No results found for query: '" + query + "'.";
    }
    response := FoundHeader(|resultTexts|, query) + Join("\n", resultTexts);
  }

  // ---------------------------------------------------------------------------
  // think_tool

  const ReflectionPrefix: string := "Reflection recorded for Protocol Agent: "

  /** The reflection, behind a fixed acknowledgement. */
  function ThinkTool(reflection: string): (r: string)
    ensures ReflectionPrefix <= r && r[|ReflectionPrefix|..] == reflection
  {
    ReflectionPrefix + reflection
  }

  /** Different reflections are acknowledged differently. */
  lemma ThinkToolInjective(a: string, b: string)
    requires ThinkTool(a) == ThinkTool(b)
    ensures a == b
  {
    assert a == ThinkTool(a)[|ReflectionPrefix|..];
  }
}
