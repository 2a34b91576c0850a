/**
 * The GitHub crawling strategy (src/strategy/github_strategy.py): a strategy
 * object whose `model_type` field chooses the business model, and whose
 * `crawl_*` helpers set that field before crawling a github.com page.
 */
module GitHubStrategies {

  import opened Wrappers
  import opened Text
  import opened SchemaMapping
  import opened BaseStrategy

  /** `_model_map` */
  const ModelMap: map<string, BusinessModel> :=
    map["activity" := ActivityModel, "repository" := RepositoryModel, "user" := UserProfileModel]

  /** `GitHubStrategy.validate_url(url)`: the base check, and "github.com" anywhere in the URL. */
  predicate GitHubValidateUrl(url: string)
    ensures GitHubValidateUrl(url) ==> ValidateUrl(url) && |url| >= |"github.com"|
  {
    ValidateUrl(url) && Contains(url, "github.com")
  }

  /** Every "https://github.com/..." URL the helpers build passes the check. */
  lemma GitHubPageUrlIsValid(path: string)
    ensures GitHubValidateUrl("https://github.com/" + path)
  {
    var url := "https://github.com/" + path;
    assert url[..8] == "https://";
    assert OccursAt(url, "github.com", 8) by {
      assert url[8..18] == "github.com";
    }
  }

  /** A URL with the right scheme but another host is refused, however it looks. */
  lemma OtherHostsRefused(url: string)
    requires !Contains(url, "github.com")
    ensures !GitHubValidateUrl(url)
  {
  }

  /** The model class for a model type, or the error `get_model_class` raises. */
  function ModelClassOf(modelType: string): (r: Result<BusinessModel, StrategyError>)
    ensures r.Ok? <==> modelType in {"activity", "repository", "user"}
    ensures r.Err? ==> r.error == UnsupportedModelType(modelType)
  {
    if modelType !in ModelMap then Err(UnsupportedModelType(modelType)) else Ok(ModelMap[modelType])
  }

  function PageUrl(username: string): string {
    "https://github.com/" + username
  }

  class GitHubStrategy {
    var modelType: string

    /** `GitHubStrategy(crawler_service, model_type)` */
    constructor (modelType: string)
      ensures this.modelType == modelType
    {
      this.modelType := modelType;
    }

    /** `GitHubStrategy(crawler_service)`: the model type defaults to "activity". */
    constructor Default()
      ensures modelType == "activity"
    {
      modelType := "activity";
    }

    /** `get_model_class()` */
    function GetModelClass(): (r: Result<BusinessModel, StrategyError>)
      reads this
      ensures r == ModelClassOf(modelType)
    {
      ModelClassOf(modelType)
    }

    /** `execute(url)`, which is `crawl_single_url(url)` with this class's URL check and model class. */
    method Execute(url: string) returns (r: Result<CrawlRequest<BusinessModel>, StrategyError>)
      ensures r == CrawlSingleUrl(url, GitHubValidateUrl, ModelClassOf(modelType))
    {
      r := CrawlSingleUrl(url, GitHubValidateUrl, GetModelClass());
    }

    /** `crawl_user_repositories(username)`; the new model type stays set after the call. */
    method CrawlUserRepositories(username: string) returns (r: Result<CrawlRequest<BusinessModel>, StrategyError>)
      modifies this
      ensures modelType == "repository"
      ensures r == Ok(CrawlSingle(PageUrl(username) + "?tab=repositories", RepositoryModel))
    {
      var url := PageUrl(username) + "?tab=repositories";
      assert url == "https://github.com/" + (username + "?tab=repositories");
      GitHubPageUrlIsValid(username + "?tab=repositories");
      modelType := "repository";
      r := Execute(url);
    }

    /** `crawl_user_activity(username)` */
    method CrawlUserActivity(username: string) returns (r: Result<CrawlRequest<BusinessModel>, StrategyError>)
      modifies this
      ensures modelType == "activity"
      ensures r == Ok(CrawlSingle(PageUrl(username), ActivityModel))
    {
      GitHubPageUrlIsValid(username);
      modelType := "activity";
      r := Execute(PageUrl(username));
    }

    /** `crawl_user_profile(username)`: the same page as the activity crawl, read as a profile. */
    method CrawlUserProfile(username: string) returns (r: Result<CrawlRequest<BusinessModel>, StrategyError>)
      modifies this
      ensures modelType == "user"
      ensures r == Ok(CrawlSingle(PageUrl(username), UserProfileModel))
    {
      GitHubPageUrlIsValid(username);
      modelType := "user";
      r := Execute(PageUrl(username));
    }

    /** `crawl_repository_info(owner, repo)` */
    method CrawlRepositoryInfo(owner: string, repo: string) returns (r: Result<CrawlRequest<BusinessModel>, StrategyError>)
      modifies this
      ensures modelType == "repository"
      ensures r == Ok(CrawlSingle(PageUrl(owner + "/" + repo), RepositoryModel))
    {
      GitHubPageUrlIsValid(owner + "/" + repo);
      modelType := "repository";
      r := Execute(PageUrl(owner + "/" + repo));
    }
  }
}
