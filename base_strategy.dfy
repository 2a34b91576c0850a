/**
 * The crawling strategy base class (src/strategy/base_strategy.py): the URL
 * check and the single- and multi-URL crawls that delegate to the crawler
 * service.
 *
 * The crawler service is outside this model: a crawl returns the request
 * handed to it. The methods a subclass overrides, `validate_url` and
 * `get_model_class`, are parameters.
 */
module BaseStrategy {

  import opened Wrappers
  import opened Text

  /** A call into the crawler service. */
  datatype CrawlRequest<M> =
    | CrawlSingle(url: string, modelClass: M)
    | CrawlMultiple(urls: seq<string>, modelClass: M)

  /** The ValueErrors the strategies raise, by what their message names. */
  datatype StrategyError =
    | InvalidUrl(url: string)
    | InvalidUrls(urls: seq<string>)
    | UnsupportedModelType(modelType: string)

  /** `BaseStrategy.validate_url(url)` */
  predicate ValidateUrl(url: string)
    ensures ValidateUrl(url) ==> |url| >= 7 && StartsWith(url, "http")
  {
    StartsWith(url, "http://") || StartsWith(url, "https://")
  }

  /** `[url for url in urls if not self.validate_url(url)]` */
  function InvalidUrlsOf(urls: seq<string>, valid: string -> bool): (r: seq<string>)
    ensures |r| <= |urls|
    ensures forall u :: u in r <==> u in urls && !valid(u)
  {
    if urls == [] then []
    else
      var rest := InvalidUrlsOf(urls[1..], valid);
      assert forall u :: u in urls <==> u == urls[0] || u in urls[1..];
      if valid(urls[0]) then rest else [urls[0]] + rest
  }

  /** The invalid URLs are listed in input order: the list of a concatenation is the concatenation of the lists. */
  lemma {:induction false} InvalidUrlsInOrder(a: seq<string>, b: seq<string>, valid: string -> bool)
    ensures InvalidUrlsOf(a + b, valid) == InvalidUrlsOf(a, valid) + InvalidUrlsOf(b, valid)
  {
    if a == [] {
      assert a + b == b;
    } else {
      assert (a + b)[1..] == a[1..] + b;
      InvalidUrlsInOrder(a[1..], b, valid);
    }
  }

  /**
   * `crawl_single_url(url)`: an invalid URL is refused before the model
   * class is asked for, so its error wins over the model class's.
   */
  function CrawlSingleUrl<M>(url: string, valid: string -> bool, modelClass: Result<M, StrategyError>)
    : (r: Result<CrawlRequest<M>, StrategyError>)
    ensures !valid(url) ==> r == Err(InvalidUrl(url))
    ensures r.Ok? <==> valid(url) && modelClass.Ok?
    ensures r.Ok? ==> r.value == CrawlSingle(url, modelClass.value)
  {
    if !valid(url) then Err(InvalidUrl(url))
    else
      match modelClass
      case Ok(m) => Ok(CrawlSingle(url, m))
      case Err(e) => Err(e)
  }

  /**
   * `crawl_multiple_urls(urls)`: one invalid URL refuses the whole batch and
   * nothing is crawled; otherwise the list goes to the crawler as it is.
   */
  function CrawlMultipleUrls<M>(urls: seq<string>, valid: string -> bool, modelClass: Result<M, StrategyError>)
    : (r: Result<CrawlRequest<M>, StrategyError>)
    ensures (exists u :: u in urls && !valid(u)) ==> r == Err(InvalidUrls(InvalidUrlsOf(urls, valid)))
    ensures r.Ok? <==> (forall u :: u in urls ==> valid(u)) && modelClass.Ok?
    ensures r.Ok? ==> r.value == CrawlMultiple(urls, modelClass.value)
  {
    var invalid := InvalidUrlsOf(urls, valid);
    assert invalid != [] ==> invalid[0] in invalid;
    if invalid != [] then Err(InvalidUrls(invalid))
    else
      match modelClass
      case Ok(m) => Ok(CrawlMultiple(urls, m))
      case Err(e) => Err(e)
  }

  /** With a model class available, a refusal names every invalid URL and only those. */
  lemma RefusalNamesEveryInvalidUrl<M>(urls: seq<string>, valid: string -> bool, modelClass: Result<M, StrategyError>, u: string)
    requires modelClass.Ok? && CrawlMultipleUrls(urls, valid, modelClass).Err?
    ensures CrawlMultipleUrls(urls, valid, modelClass).error.InvalidUrls?
    ensures u in CrawlMultipleUrls(urls, valid, modelClass).error.urls <==> u in urls && !valid(u)
  {
  }
}
