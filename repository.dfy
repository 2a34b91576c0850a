/**
 * GitHub repositories (src/model/github/repository.py): the language
 * validator, the popularity score and activity level, the topic lookup, the
 * language percentages, and `Repository.from_api_response` with its fork
 * "parent enhancement".
 *
 * Scores are exact `real`s; Python computes them in floating point.
 */
module Repositories {

  import opened Wrappers
  import opened Text
  import opened Values
  import opened Enums

  // ---------------------------------------------------------------------------
  // Language
  // ---------------------------------------------------------------------------

  /** What the `language` validator hands on to pydantic. */
  datatype LanguageField =
    | NoLanguage                        // a blank string becomes None
    | Lang(language: RepositoryLanguage)
    | Unchanged(raw: Value)             // a non-string is passed through as it is

  /** The first member of `langs` whose upper-cased value equals `upper`, in the order given. */
  function FindLanguage(langs: seq<RepositoryLanguage>, upper: string): (r: Option<RepositoryLanguage>)
    ensures r.Some? ==> r.value in langs && Upper(r.value.Value()) == upper
    ensures r.None? ==> forall l :: l in langs ==> Upper(l.Value()) != upper
  {
    if langs == [] then None
    else if Upper(langs[0].Value()) == upper then Some(langs[0])
    else FindLanguage(langs[1..], upper)
  }

  /** `Repository.validate_language(v)` */
  function ValidateLanguage(v: Value): (r: LanguageField)
    ensures r.Unchanged? <==> !v.Str?
    ensures r.Unchanged? ==> r.raw == v
    ensures r.NoLanguage? <==> v.Str? && Strip(v.s) == ""
    ensures r.Lang? ==> r.language == Other || Lower(v.s) == r.language.Value()
  {
    if v.Str? then
      if v.s == "" || Strip(v.s) == "" then
        assert Strip(v.s) == "" by { StripEmptyIffBlank(v.s); }
        NoLanguage
      else match FindLanguage(AllLanguages, Upper(v.s))
        case Some(l) => UpperMatchIffLowerMatch(v.s, l); Lang(l)
        case None => Lang(Other)
    else Unchanged(v)
  }

  /** Every language value is already lower case. */
  lemma LanguageValueIsLower(l: RepositoryLanguage)
    ensures Lower(l.Value()) == l.Value()
  {
    LowerByChars(l.Value(), l.Value());
  }

  /** Comparing upper-cased texts with a member value is comparing the lower-cased text with it. */
  lemma UpperMatchIffLowerMatch(s: string, l: RepositoryLanguage)
    ensures Upper(l.Value()) == Upper(s) <==> Lower(s) == l.Value()
  {
    UpperEqIffLowerEq(l.Value(), s);
    LanguageValueIsLower(l);
  }

  /** A blank language (empty or whitespace only) becomes None. */
  lemma {:induction false} BlankIsNoLanguage(s: string)
    requires forall i :: 0 <= i < |s| ==> IsSpace(s[i])
    ensures ValidateLanguage(Str(s)) == NoLanguage
  {
    StripEmptyIffBlank(s);
  }

  /** Any spelling of a member value, in any mix of cases, selects that member. */
  lemma {:induction false} AnyCaseSelectsMember(s: string, l: RepositoryLanguage)
    requires Lower(s) == l.Value()
    ensures ValidateLanguage(Str(s)) == Lang(l)
  {
    assert !IsSpace(s[0]) by {
      assert LowerChar(s[0]) == l.Value()[0];
    }
    StripEmptyIffBlank(s);
    AllMembersListed(Activity, Push, l);
    UpperMatchIffLowerMatch(s, l);
    var f := FindLanguage(AllLanguages, Upper(s));
    assert f.Some?;
    UpperMatchIffLowerMatch(s, f.value);
    LanguageValuesDistinct(f.value, l);
  }

  /** A non-blank text that is no member value, in any case, becomes OTHER. */
  lemma {:induction false} UnknownIsOther(s: string)
    requires Strip(s) != ""
    requires forall l: RepositoryLanguage :: Lower(s) != l.Value()
    ensures ValidateLanguage(Str(s)) == Lang(Other)
  {
    forall l: RepositoryLanguage ensures Upper(l.Value()) != Upper(s) {
      UpperMatchIffLowerMatch(s, l);
    }
  }

  lemma SymbolsAreNoValue(l: RepositoryLanguage)
    ensures l.Value() != "c++" && l.Value() != "c#"
  {
    match l
    case Cpp => assert l.Value() == "cpp";
    case CSharp => assert l.Value() == "csharp";
    case _ =>
  }

  /** Matching is on the member values, so "C++" and "C#" are OTHER. */
  lemma SymbolNamesAreOther(s: string)
    requires s in {"C++", "C#"}
    ensures ValidateLanguage(Str(s)) == Lang(Other)
  {
    if s == "C++" {
      LowerByChars("C++", "c++");
      SymbolIsOther("C++", "c++");
    } else {
      LowerByChars("C#", "c#");
      SymbolIsOther("C#", "c#");
    }
  }

  lemma SymbolIsOther(s: string, low: string)
    requires low in {"c++", "c#"} && Lower(s) == low
    requires !IsSpace(s[0]) && !IsSpace(s[|s| - 1])
    ensures ValidateLanguage(Str(s)) == Lang(Other)
  {
    forall l: RepositoryLanguage ensures Lower(s) != l.Value() {
      SymbolsAreNoValue(l);
    }
    StripUnchanged(s);
    UnknownIsOther(s);
  }

  // ---------------------------------------------------------------------------
  // Stats, popularity and activity level
  // ---------------------------------------------------------------------------

  datatype RepositoryStats = RepositoryStats(
    stars: int, forks: int, watchers: int, openIssues: int, openPullRequests: int,
    contributors: int, commits: int, branches: int, releases: int)

  /** `RepositoryStats.popularity_score()` */
  function PopularityScore(s: RepositoryStats): (r: real)
    ensures s.stars >= 0 && s.forks >= 0 && s.watchers >= 0 && s.contributors >= 0 ==> r >= s.stars as real >= 0.0
  {
    s.stars as real * 1.0 + s.forks as real * 0.8 + s.watchers as real * 0.6 + s.contributors as real * 0.5
  }

  /** `get_activity_level()` as a function of the score. */
  function ActivityLevel(score: real): (r: string)
    ensures r in {"Very High", "High", "Medium", "Low", "Inactive"}
    ensures r == "Very High" <==> score >= 1000.0
    ensures r == "High" <==> 100.0 <= score < 1000.0
    ensures r == "Medium" <==> 10.0 <= score < 100.0
    ensures r == "Low" <==> 0.0 < score < 10.0
    ensures r == "Inactive" <==> score <= 0.0
  {
    if score >= 1000.0 then "Very High"
    else if score >= 100.0 then "High"
    else if score >= 10.0 then "Medium"
    else if score > 0.0 then "Low"
    else "Inactive"
  }

  /** The levels from lowest to highest. */
  function LevelRank(level: string): int {
    if level == "Very High" then 4
    else if level == "High" then 3
    else if level == "Medium" then 2
    else if level == "Low" then 1
    else 0
  }

  /** A higher score never gives a lower level. */
  lemma ActivityLevelMonotone(a: real, b: real)
    requires a <= b
    ensures LevelRank(ActivityLevel(a)) <= LevelRank(ActivityLevel(b))
  {
  }

  /** More stars never lower the popularity score, and each star adds exactly one point. */
  lemma PopularityGrowsWithStars(s: RepositoryStats, extra: nat)
    ensures PopularityScore(s.(stars := s.stars + extra)) == PopularityScore(s) + extra as real
  {
  }

  /** A repository with 1000 stars and no negative counts is "Very High"; all-zero stats are "Inactive". */
  lemma ActivityLevelExamples(s: RepositoryStats)
    requires s.stars >= 1000 && s.forks >= 0 && s.watchers >= 0 && s.contributors >= 0
    ensures ActivityLevel(PopularityScore(s)) == "Very High"
    ensures ActivityLevel(PopularityScore(RepositoryStats(0, 0, 0, 0, 0, 0, 0, 0, 0))) == "Inactive"
  {
  }

  /**
   * `is_active(days)` with the clock as the parameter `now`; times are whole
   * seconds since the epoch. A repository never pushed to is not active.
   */
  predicate IsActive(pushedAt: Option<int>, now: int, days: int)
    ensures IsActive(pushedAt, now, days) ==> pushedAt.Some?
    ensures pushedAt == Some(now) ==> (IsActive(pushedAt, now, days) <==> days >= 0)
  {
    pushedAt.Some? && (now - pushedAt.value) / 86400 <= days
  }

  /** Active means pushed less than `days + 1` whole days before `now`. */
  lemma IsActiveIffRecentPush(pushedAt: Option<int>, now: int, days: int)
    ensures IsActive(pushedAt, now, days) <==> pushedAt.Some? && now - pushedAt.value < (days + 1) * 86400
  {
    if pushedAt.Some? {
      var d := (now - pushedAt.value) / 86400;
      assert d * 86400 <= now - pushedAt.value < (d + 1) * 86400;
      if d <= days {
        assert (d + 1) * 86400 <= (days + 1) * 86400;
      } else {
        assert (days + 1) * 86400 <= d * 86400;
      }
    }
  }

  // ---------------------------------------------------------------------------
  // Topics
  // ---------------------------------------------------------------------------

  /** `RepositoryTopics.has_topic(topic)`: `topic.lower() in [t.lower() for t in topics]`. */
  function HasTopic(topics: seq<string>, topic: string): (r: bool)
    ensures r <==> exists i :: 0 <= i < |topics| && Lower(topics[i]) == Lower(topic)
  {
    InIgnoringCase(topics, topic)
  }

  /** The lookup ignores case on both sides. */
  lemma HasTopicIgnoresCase(topics: seq<string>, topic: string)
    ensures HasTopic(topics, topic) == HasTopic(topics, Upper(topic))
  {
    assert Lower(Upper(topic)) == Lower(topic);
  }

  // ---------------------------------------------------------------------------
  // Language percentages
  // ---------------------------------------------------------------------------

  /** `sum(m.values())` */
  ghost function SumBytes(m: map<string, int>): int
    decreases |m|
  {
    if m == map[] then 0
    else
      var k :| k in m;
      m[k] + SumBytes(m - {k})
  }

  ghost function SumShares(m: map<string, real>): real
    decreases |m|
  {
    if m == map[] then 0.0
    else
      var k :| k in m;
      m[k] + SumShares(m - {k})
  }

  /** The sum does not depend on which key is taken first. */
  lemma {:induction false} SumBytesRemove(m: map<string, int>, k: string)
    requires k in m
    ensures SumBytes(m) == m[k] + SumBytes(m - {k})
    decreases |m|
  {
    var j :| j in m && SumBytes(m) == m[j] + SumBytes(m - {j});
    if j != k {
      SumBytesRemove(m - {j}, k);
      SumBytesRemove(m - {k}, j);
      assert (m - {j}) - {k} == (m - {k}) - {j};
    }
  }

  lemma {:induction false} SumSharesRemove(m: map<string, real>, k: string)
    requires k in m
    ensures SumShares(m) == m[k] + SumShares(m - {k})
    decreases |m|
  {
    var j :| j in m && SumShares(m) == m[j] + SumShares(m - {j});
    if j != k {
      SumSharesRemove(m - {j}, k);
      SumSharesRemove(m - {k}, j);
      assert (m - {j}) - {k} == (m - {k}) - {j};
    }
  }

  /** `value / total * 100` */
  function Percent(part: int, total: int): real
    requires total != 0
  {
    (part as real / total as real) * 100.0
  }

  function Shares(languages: map<string, int>, total: int): (r: map<string, real>)
    requires total != 0
    ensures r.Keys == languages.Keys
  {
    map k | k in languages :: Percent(languages[k], total)
  }

  /** `Repository.get_language_percentage()` */
  ghost function LanguagePercentage(languages: map<string, int>): (r: map<string, real>)
    ensures languages == map[] || SumBytes(languages) == 0 ==> r == map[]
    ensures languages != map[] && SumBytes(languages) != 0 ==> r.Keys == languages.Keys
    ensures languages != map[] && SumBytes(languages) != 0 ==>
      forall k :: k in r ==> r[k] == Percent(languages[k], SumBytes(languages))
  {
    if languages == map[] then map[]
    else
      var total := SumBytes(languages);
      if total == 0 then map[] else Shares(languages, total)
  }

  lemma ShareAdd(a: int, b: int, t: int)
    requires t != 0
    ensures Percent(a, t) + Percent(b, t) == Percent(a + b, t)
  {
  }

  lemma SelfShare(t: int)
    requires t != 0
    ensures Percent(t, t) == 100.0
  {
    assert t as real / t as real == 1.0;
  }

  /** Scaling every value scales the sum. */
  lemma {:induction false} SharesSum(languages: map<string, int>, total: int)
    requires total != 0
    ensures SumShares(Shares(languages, total)) == Percent(SumBytes(languages), total)
    decreases |languages|
  {
    if languages == map[] {
      NoShares(total);
    } else {
      var k :| k in languages;
      SharesSum(languages - {k}, total);
      SharesSumStep(languages, total, k);
    }
  }

  lemma NoShares(total: int)
    requires total != 0
    ensures SumShares(Shares(map[], total)) == Percent(SumBytes(map[]), total)
  {
    assert Shares(map[], total) == map[];
    assert Percent(0, total) == 0.0;
  }

  /** The sum over all languages from the sum over all but one. */
  lemma SharesSumStep(languages: map<string, int>, total: int, k: string)
    requires total != 0 && k in languages
    requires SumShares(Shares(languages - {k}, total)) == Percent(SumBytes(languages - {k}), total)
    ensures SumShares(Shares(languages, total)) == Percent(SumBytes(languages), total)
  {
    var a, b := languages[k], SumBytes(languages - {k});
    SharesStep(languages, total, k);
    ShareAdd(a, b, total);
  }

  /** Taking one language out of both sums. */
  lemma SharesStep(languages: map<string, int>, total: int, k: string)
    requires total != 0 && k in languages
    ensures SumShares(Shares(languages, total)) == Percent(languages[k], total) + SumShares(Shares(languages - {k}, total))
    ensures SumBytes(languages) == languages[k] + SumBytes(languages - {k})
  {
    var sh := Shares(languages, total);
    SumBytesRemove(languages, k);
    SumSharesRemove(sh, k);
    assert sh - {k} == Shares(languages - {k}, total);
  }

  /** When there is anything to share out, the percentages add up to exactly 100 (in exact arithmetic). */
  lemma PercentagesSumTo100(languages: map<string, int>)
    requires SumBytes(languages) != 0
    ensures SumShares(LanguagePercentage(languages)) == 100.0
  {
    var t := SumBytes(languages);
    assert languages != map[];
    assert LanguagePercentage(languages) == Shares(languages, t);
    SharesSum(languages, t);
    SelfShare(t);
  }

  // ---------------------------------------------------------------------------
  // from_api_response
  // ---------------------------------------------------------------------------

  datatype Owner = Owner(username: string, avatarUrl: Value, ownerType: Value, profileUrl: Value)

  datatype License = License(key: Value, name: Value, spdxId: Value, url: Value)

  datatype Repository = Repository(
    id: string, name: Value, fullName: Value, description: Value, url: Value,
    cloneUrl: Value, sshUrl: Value, homepage: Value, owner: Owner,
    private: Value, fork: Value, archived: Value, disabled: Value, template: Value,
    language: LanguageField, languages: map<string, int>, size: Value, defaultBranch: Value,
    license: Option<License>, topics: seq<string>, stats: RepositoryStats,
    isForkEnhanced: bool, parentFullName: Value,
    createdAt: Value, updatedAt: Value, pushedAt: Value)

  /** A count read with `d.get(k, 0)`; anything but an integer fails validation. */
  function CountOf(d: Record, k: string): (r: Result<int, PyError>)
    ensures k !in d ==> r == Ok(0)
    ensures r.Ok? <==> k !in d || d[k].Int?
    ensures k in d && d[k].Int? ==> r == Ok(d[k].i)
  {
    match Get(d, k, Int(0))
    case Int(i) => Ok(i)
    case _ => Err(ValidationError(k))
  }

  /** `RepositoryStats(**stats_data)` for the four counts `from_api_response` copies; the rest stay 0. */
  function StatsOf(d: Record): (r: Result<RepositoryStats, PyError>)
    ensures r.Ok? ==> CountOf(d, "stargazers_count").Ok? && r.value.stars == CountOf(d, "stargazers_count").value
    ensures r.Ok? ==> CountOf(d, "forks_count").Ok? && r.value.forks == CountOf(d, "forks_count").value
    ensures r.Ok? ==> CountOf(d, "watchers_count").Ok? && r.value.watchers == CountOf(d, "watchers_count").value
    ensures r.Ok? ==> CountOf(d, "open_issues_count").Ok? && r.value.openIssues == CountOf(d, "open_issues_count").value
    ensures r.Ok? ==> r.value.(stars := 0, forks := 0, watchers := 0, openIssues := 0) == RepositoryStats(0, 0, 0, 0, 0, 0, 0, 0, 0)
  {
    var stars :- CountOf(d, "stargazers_count");
    var forks :- CountOf(d, "forks_count");
    var watchers :- CountOf(d, "watchers_count");
    var openIssues :- CountOf(d, "open_issues_count");
    Ok(RepositoryStats(stars, forks, watchers, openIssues, 0, 0, 0, 0, 0))
  }

  /** `d.get(k)` on a value that must be a dict: `.get` on anything else raises AttributeError. */
  function DictOf(v: Value): (r: Result<Record, PyError>)
    ensures r.Ok? <==> v.Dict?
    ensures r.Ok? ==> r.value == v.fields
  {
    if v.Dict? then Ok(v.fields) else Err(AttributeError("get"))
  }

  function OwnerOf(data: Record): Result<Owner, PyError> {
    var od :- DictOf(Get(data, "owner", Dict(map[])));
    var login := Get(od, "login", Str(""));
    if !login.Str? then Err(ValidationError("username"))
    else Ok(Owner(login.s, Get(od, "avatar_url", Null), Get(od, "type", Str("User")), Get(od, "html_url", Null)))
  }

  function LicenseOf(data: Record): (r: Result<Option<License>, PyError>)
    ensures !Truthy(Get(data, "license", Null)) ==> r == Ok(None)
  {
    var ld := Get(data, "license", Null);
    if !Truthy(ld) then Ok(None)
    else
      var m :- DictOf(ld);
      Ok(Some(License(Get(m, "key", Str("")), Get(m, "name", Str("")), Get(m, "spdx_id", Null), Get(m, "url", Null))))
  }

  /** A list of strings, as the `topics` field requires. */
  function StringsOf(v: Value): (r: Result<seq<string>, PyError>)
    ensures r.Ok? ==> v.List? && |r.value| == |v.items| && forall i :: 0 <= i < |v.items| ==> v.items[i] == Str(r.value[i])
  {
    if v.List? then StringItems(v.items) else Err(ValidationError("topics"))
  }

  function StringItems(items: seq<Value>): (r: Result<seq<string>, PyError>)
    ensures r.Ok? ==> |r.value| == |items| && forall i :: 0 <= i < |items| ==> items[i] == Str(r.value[i])
  {
    if items == [] then Ok([])
    else if !items[0].Str? then Err(ValidationError("topics"))
    else
      var rest :- StringItems(items[1..]);
      Ok([items[0].s] + rest)
  }

  /** A `languages` dict of byte counts. */
  function ByteCountsOf(v: Value): (r: Result<map<string, int>, PyError>)
    ensures r.Ok? ==> v.Dict? && r.value.Keys == v.fields.Keys && forall k :: k in r.value ==> v.fields[k] == Int(r.value[k])
  {
    if v.Dict? && forall k :: k in v.fields ==> v.fields[k].Int? then
      Ok(map k | k in v.fields :: v.fields[k].i)
    else Err(ValidationError("languages"))
  }

  /** The fork is enhanced from its parent: `fork` is truthy and `parent` is present and truthy. */
  predicate Enhances(data: Record) {
    Truthy(Get(data, "fork", Bool(false))) && "parent" in data && Truthy(data["parent"])
  }

  /** The topics the repository ends up with, before validation. */
  function ChosenTopics(data: Record, parent: Record): Value {
    var own := Get(data, "topics", List([]));
    if Enhances(data) && !Truthy(own) && Truthy(Get(parent, "topics", Null)) then Get(parent, "topics", List([]))
    else own
  }

  /** The description the repository ends up with. */
  function ChosenDescription(data: Record, parent: Record): Value {
    var own := Get(data, "description", Null);
    if Enhances(data) && !Truthy(own) && Truthy(Get(parent, "description", Null)) then Get(parent, "description", Null)
    else own
  }

  /** The parent record (empty when there is no enhancement; only read when there is). */
  function ParentOf(data: Record): Result<Record, PyError> {
    if Enhances(data) then DictOf(data["parent"]) else Ok(map[])
  }

  /** `Repository.from_api_response(data)` */
  function FromApiResponse(data: Record): (r: Result<Repository, PyError>)
    ensures r.Ok? ==> r.value.isForkEnhanced == Enhances(data)
    ensures r.Ok? ==> r.value.id == Display(Get(data, "id", Str("")))
    ensures r.Ok? && !Enhances(data) ==> r.value.parentFullName == Null
    ensures r.Ok? && Enhances(data) ==> data["parent"].Dict? && r.value.parentFullName == Get(data["parent"].fields, "full_name", Null)
    ensures r.Ok? && !Enhances(data) ==> Ok(r.value.stats) == StatsOf(data)
    ensures r.Ok? && Enhances(data) ==> data["parent"].Dict? && Ok(r.value.stats) == StatsOf(data["parent"].fields)
    ensures r.Ok? ==> r.value.description == ChosenDescription(data, ParentOf(data).value)
    ensures r.Ok? ==> StringsOf(ChosenTopics(data, ParentOf(data).value)) == Ok(r.value.topics)
    ensures r.Ok? ==> r.value.language == ValidateLanguage(Get(data, "language", Null))
    ensures r.Ok? ==> Get(data, "owner", Dict(map[])).Dict?
                      && Get(Get(data, "owner", Dict(map[])).fields, "login", Str("")) == Str(r.value.owner.username)
  {
    var owner :- OwnerOf(data);
    var license :- LicenseOf(data);
    var parent :- ParentOf(data);
    var stats :- if Enhances(data) then StatsOf(parent) else StatsOf(data);
    var topics :- StringsOf(ChosenTopics(data, parent));
    var languages :- ByteCountsOf(Get(data, "languages", Dict(map[])));
    Ok(Repository.Repository(
      Display(Get(data, "id", Str(""))),
      Get(data, "name", Str("")),
      Get(data, "full_name", Str("")),
      ChosenDescription(data, parent),
      Get(data, "html_url", Str("")),
      Get(data, "clone_url", Null),
      Get(data, "ssh_url", Null),
      Get(data, "homepage", Null),
      owner,
      Get(data, "private", Bool(false)),
      Get(data, "fork", Bool(false)),
      Get(data, "archived", Bool(false)),
      Get(data, "disabled", Bool(false)),
      Get(data, "is_template", Bool(false)),
      ValidateLanguage(Get(data, "language", Null)),
      languages,
      Get(data, "size", Int(0)),
      Get(data, "default_branch", Str("main")),
      license,
      topics,
      stats,
      Enhances(data),
      if Enhances(data) then Get(parent, "full_name", Null) else Null,
      Get(data, "created_at", Str("")),
      Get(data, "updated_at", Str("")),
      Get(data, "pushed_at", Null)))
  }

  /**
   * Under enhancement the parent fills in only what the fork lacks: its topics
   * replace empty fork topics, its description replaces a falsy fork
   * description; a fork that has its own keeps them.
   */
  lemma {:induction false} EnhancementKeepsOwnValues(data: Record)
    requires FromApiResponse(data).Ok?
    requires "description" in data && Truthy(data["description"])
    requires "topics" in data && Truthy(data["topics"])
    ensures FromApiResponse(data).value.description == data["description"]
    ensures StringsOf(data["topics"]) == Ok(FromApiResponse(data).value.topics)
  {
  }

  /** A fork without a parent record (or a parent that is not a fork) keeps its own counts, each 0 when missing. */
  lemma {:induction false} UnenhancedStatsDefaultToZero(data: Record)
    requires FromApiResponse(data).Ok?
    requires !Enhances(data)
    requires forall k :: k in {"stargazers_count", "forks_count", "watchers_count", "open_issues_count"} ==> k !in data
    ensures FromApiResponse(data).value.stats == RepositoryStats(0, 0, 0, 0, 0, 0, 0, 0, 0)
  {
    assert "stargazers_count" !in data && "forks_count" !in data;
    assert "watchers_count" !in data && "open_issues_count" !in data;
  }
}
