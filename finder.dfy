/**
 The product finder: asks the web search provider for a few results on the
 retailer's domain and picks the first one that is a product-detail page.
 The search provider itself is outside the model; its answer is an input.
 */
module ProductFinder {
  import opened Wrappers
  import opened PyStr

  /** The qualifier appended to every query to keep results on the retailer's domain. */
  const SiteQualifier: string := " site:amazon.ca"

  /** The number of results requested from the provider. */
  const ResultCount: nat := 3

  /** The language requested from the provider. */
  const ResultLanguage: string := "en"

  /** The retailer's domain, which a product link must contain. */
  const RetailerDomain: string := "amazon.ca"

  /** The path marker of a product-detail page, which a product link must contain. */
  const ProductPath: string := "/dp/"

  /** The call made to the search provider. */
  datatype SearchRequest = SearchRequest(text: string, count: nat, language: string)

  /** What the provider answered: its result URLs in order, or a failure (any exception). */
  datatype SearchOutcome = Results(urls: seq<string>) | SearchFailed

  /** The request for a query: the query followed by the site qualifier, three results, in English. */
  function RequestFor(query: string): (r: SearchRequest)
    ensures |r.text| >= |SiteQualifier| && QueryOf(r) == query
    ensures r.text[|r.text| - |SiteQualifier|..] == SiteQualifier
    ensures r.count == ResultCount && r.language == ResultLanguage
  {
    var r := SearchRequest(query + SiteQualifier, ResultCount, ResultLanguage);
    assert r.text[..|query|] == query;
    r
  }

  /** The query a request was made for: its text without the trailing site qualifier. */
  function QueryOf(r: SearchRequest): string
    requires |r.text| >= |SiteQualifier|
  {
    r.text[..|r.text| - |SiteQualifier|]
  }

  /** The filter of the search loop: the URL names the retailer's domain and a product-detail path. */
  predicate IsProductLink(url: string) {
    Contains(url, RetailerDomain) && Contains(url, ProductPath)
  }

  /** `urls[k]` is a product link and no URL before it is. */
  ghost predicate FirstProductAt(urls: seq<string>, k: int) {
    0 <= k < |urls| && IsProductLink(urls[k])
    && forall j :: 0 <= j < k ==> !IsProductLink(urls[j])
  }

  /**
   The link the finder settles on: the first URL, in result order, that is a
   product link, or none when no URL is.
   */
  function FirstProductLink(urls: seq<string>): (link: Option<string>)
    ensures link.Some? <==> exists k :: 0 <= k < |urls| && IsProductLink(urls[k])
    ensures link.Some? ==> exists k :: FirstProductAt(urls, k) && link.value == urls[k]
  {
    if urls == [] then
      None
    else if IsProductLink(urls[0]) then
      assert FirstProductAt(urls, 0);
      Some(urls[0])
    else
      var link := FirstProductLink(urls[1..]);
      assert link.Some? ==> exists k :: FirstProductAt(urls, k) && link.value == urls[k] by {
        if link.Some? {
          var k :| FirstProductAt(urls[1..], k) && link.value == urls[1..][k];
          assert FirstProductAt(urls, k + 1);
        }
      }
      assert (exists k :: 0 <= k < |urls| && IsProductLink(urls[k])) ==> link.Some? by {
        if exists k :: 0 <= k < |urls| && IsProductLink(urls[k]) {
          var k :| 0 <= k < |urls| && IsProductLink(urls[k]);
          assert urls[1..][k - 1] == urls[k];
        }
      }
      link
  }

  /**
   The loop of `search_amazon` over the provider's results, with its early
   return: it answers the first product link, or none.
   */
  method FindProductLink(urls: seq<string>) returns (link: Option<string>)
    ensures link == FirstProductLink(urls)
  {
    var i := 0;
    while i < |urls|
      invariant 0 <= i <= |urls|
      invariant FirstProductLink(urls) == FirstProductLink(urls[i..])
    {
      if IsProductLink(urls[i]) {
        return Some(urls[i]);
      }
      assert urls[i..][1..] == urls[i + 1..];
      i := i + 1;
    }
    return None;
  }

  /**
   `search_amazon(query)`: the request sent to the provider, and the link
   answered, which is none when the provider failed.
   */
  method SearchAmazon(query: string, outcome: SearchOutcome) returns (request: SearchRequest, link: Option<string>)
    ensures request == RequestFor(query)
    ensures link == if outcome.Results? then FirstProductLink(outcome.urls) else None
  {
    request := RequestFor(query);
    if outcome.SearchFailed? {
      return request, None;
    }
    link := FindProductLink(outcome.urls);
  }

  /** A product link is never the empty string, so the caller's truthiness test on it holds exactly when a link was found. */
  lemma ProductLinkNonEmpty(urls: seq<string>)
    ensures FirstProductLink(urls).Some? ==> FirstProductLink(urls).value != ""
  {
    var link := FirstProductLink(urls);
    if link.Some? {
      var i :| OccursAt(link.value, RetailerDomain, i);
    }
  }

  /** A product-detail URL ahead of an off-site one is the one chosen. */
  lemma ExampleFirstResultChosen(urls: seq<string>)
    requires urls == ["https://amazon.ca/dp/B000123", "https://other.com/x"]
    ensures FirstProductLink(urls) == Some("https://amazon.ca/dp/B000123")
  {
    var u := urls[0];
    assert OccursAt(u, RetailerDomain, 8) by { assert u[8..17] == RetailerDomain; }
    assert OccursAt(u, ProductPath, 17) by { assert u[17..21] == ProductPath; }
  }

  /** A search-results page of the retailer is not a product-detail page, so nothing is chosen. */
  lemma ExampleSearchPageRejected(urls: seq<string>)
    requires urls == ["https://amazon.ca/s?k=foo"]
    ensures FirstProductLink(urls) == None
  {
    MissingCharacter(urls[0], ProductPath, 'd');
  }
}
