/**
 * The converters from LLM-extracted records to the record shapes the domain
 * models are built from (src/model/github/converters.py): the user-profile
 * converter, the event converter, the dispatch on the model type, and the batch
 * converter that drops every record whose conversion raises.
 *
 * `datetime.now()` is the parameter `now` (one instant for a whole call, so
 * the two `datetime.now()` calls of the profile converter agree), and
 * Python's per-process salted `hash()` is the parameter `hash`: within one run
 * it is a fixed function, which is all the model relies on.
 */
module Converters {

  import opened Wrappers
  import opened Text
  import opened Values
  import opened Enums
  import Events

  // ---------------------------------------------------------------------------
  // UserProfileConverter
  // ---------------------------------------------------------------------------

  /**
   * `data.get('username', '')`, and when that is falsy
   * `data.get('login', data.get('name', 'unknown'))`.
   */
  function Username(data: Record): (r: Value)
    ensures Truthy(Get(data, "username", Str(""))) ==> r == data["username"]
    ensures !Truthy(Get(data, "username", Str(""))) && "login" in data ==> r == data["login"]
    ensures !Truthy(Get(data, "username", Str(""))) && "login" !in data && "name" in data ==> r == data["name"]
    ensures !Truthy(Get(data, "username", Str(""))) && "login" !in data && "name" !in data ==> r == Str("unknown")
  {
    var u := Get(data, "username", Str(""));
    if Truthy(u) then u else Get(data, "login", Get(data, "name", Str("unknown")))
  }

  /** The four counters the converter reads with `int(data.get(k, '0') or '0')`, in the order it reads them. */
  const StatKeys: seq<string> := ["followers", "following", "public_repos", "public_gists"]

  /** Every one of the four counters parses. */
  predicate StatsReadable(data: Record) {
    && CountField(data, "followers").Ok?
    && CountField(data, "following").Ok?
    && CountField(data, "public_repos").Ok?
    && CountField(data, "public_gists").Ok?
  }

  /** The four counters are named by `StatKeys`, so `StatsReadable` asks that every one of them parses. */
  lemma StatsReadableIsEveryKey(data: Record)
    ensures StatsReadable(data) <==> forall k :: k in StatKeys ==> CountField(data, k).Ok?
  {
    EveryStatKey(k => CountField(data, k).Ok?);
  }

  /** Asking something of every key in `StatKeys` is asking it of the four names. */
  lemma EveryStatKey(p: string -> bool)
    ensures (p("followers") && p("following") && p("public_repos") && p("public_gists"))
      <==> forall k :: k in StatKeys ==> p(k)
  {
    assert StatKeys[0] == "followers" && StatKeys[1] == "following";
    assert StatKeys[2] == "public_repos" && StatKeys[3] == "public_gists";
  }

  /** The `stats` entry of a converted profile. */
  datatype ProfileStats = ProfileStats(followers: int, following: int, publicRepos: int,
                                       publicGists: int, collaborators: int)

  /** The `social_links` entry: the three fields as extracted, None when absent. */
  datatype SocialLinks = SocialLinks(website: Value, twitter: Value, email: Value)

  /** The dictionary `UserProfileConverter.convert` returns, one field per key. */
  datatype ConvertedProfile = ConvertedProfile(
    id: Value, username: Value, name: Value, bio: Value, avatarUrl: Value,
    gravatarId: string, location: Value, company: Value, hireable: bool,
    createdAt: Value, updatedAt: Value, accountType: Value, siteAdmin: bool,
    socialLinks: SocialLinks, stats: ProfileStats, htmlUrl: string, organizations: seq<Value>)

  /** The four counters, read in the order the dictionary literal reads them. */
  function ProfileStatsOf(data: Record): (r: Result<ProfileStats, PyError>)
    ensures r.Ok? <==> StatsReadable(data)
    ensures r.Ok? ==> r.value.followers == CountField(data, "followers").value
    ensures r.Ok? ==> r.value.following == CountField(data, "following").value
    ensures r.Ok? ==> r.value.publicRepos == CountField(data, "public_repos").value
    ensures r.Ok? ==> r.value.publicGists == CountField(data, "public_gists").value
    ensures r.Ok? ==> r.value.collaborators == 0
  {
    var followers :- CountField(data, "followers");
    var following :- CountField(data, "following");
    var publicRepos :- CountField(data, "public_repos");
    var publicGists :- CountField(data, "public_gists");
    Ok(ProfileStats(followers, following, publicRepos, publicGists, 0))
  }

  /** `UserProfileConverter.convert(data)`; `now` is what `datetime.now()` returns. */
  function ConvertUserProfile(data: Record, now: Value): (r: Result<ConvertedProfile, PyError>)
    ensures r.Ok? <==> StatsReadable(data)
    ensures r.Ok? ==> r.value.id == Username(data) && r.value.username == Username(data)
    ensures r.Ok? ==> r.value.htmlUrl == "https://github.com/" + Display(Username(data))
    ensures r.Ok? ==> r.value.stats == ProfileStatsOf(data).value
  {
    var stats :- ProfileStatsOf(data);
    var username := Username(data);
    Ok(ConvertedProfile(
      username, username,
      Get(data, "display_name", Str("")),
      Get(data, "bio", Str("")),
      Or(Get(data, "avatar_url", Null), Null),
      "",
      Get(data, "location", Str("")),
      Get(data, "company", Str("")),
      true, now, now,
      Get(data, "account_type", Str("User")),
      false,
      SocialLinks(Get(data, "website", Null), Get(data, "twitter", Null), Get(data, "email", Null)),
      stats,
      "https://github.com/" + Display(username),
      []))
  }

  /**
   * The username fallback chain: a truthy `username` wins; otherwise a present
   * `login` is taken as it is, even when it is empty, and only a missing `login`
   * falls through to `name` and then to "unknown".
   */
  lemma EmptyLoginIsKept(data: Record, now: Value)
    requires Get(data, "username", Str("")) in {Null, Str("")}
    requires "login" in data && data["login"] == Str("")
    requires ConvertUserProfile(data, now).Ok?
    ensures ConvertUserProfile(data, now).value.username == Str("")
    ensures ConvertUserProfile(data, now).value.htmlUrl == "https://github.com/"
  {
  }

  /** The fields the converter fixes whatever the input says. */
  lemma ProfileConstants(data: Record, now: Value)
    requires ConvertUserProfile(data, now).Ok?
    ensures var p := ConvertUserProfile(data, now).value;
      && p.hireable && !p.siteAdmin && p.gravatarId == "" && p.organizations == []
      && p.stats.collaborators == 0 && p.createdAt == now && p.updatedAt == now
      && p.avatarUrl == (if Truthy(Get(data, "avatar_url", Null)) then data["avatar_url"] else Null)
  {
  }

  lemma BlankCountIsZero(data: Record, k: string)
    requires Get(data, k, Null) in {Null, Str("")}
    ensures CountField(data, k) == Ok(0)
  {
    if k !in data {
      CountFieldOfNumber(data[k := Str("0")], k, 0);
      assert CountField(data, k) == CountField(data[k := Str("0")], k);
    }
  }

  /** A counter that is missing, empty or None is 0. */
  lemma {:induction false} MissingStatsAreZero(data: Record, now: Value)
    requires Get(data, "followers", Null) in {Null, Str("")}
    requires Get(data, "following", Null) in {Null, Str("")}
    requires Get(data, "public_repos", Null) in {Null, Str("")}
    requires Get(data, "public_gists", Null) in {Null, Str("")}
    ensures ConvertUserProfile(data, now).Ok?
    ensures ConvertUserProfile(data, now).value.stats == ProfileStats(0, 0, 0, 0, 0)
  {
    BlankCountIsZero(data, "followers");
    BlankCountIsZero(data, "following");
    BlankCountIsZero(data, "public_repos");
    BlankCountIsZero(data, "public_gists");
  }

  /** A counter written with a thousands separator makes the whole conversion raise. */
  lemma {:induction false} SeparatorRejectsProfile(data: Record, now: Value)
    requires "followers" in data && data["followers"] == Str("1,024")
    ensures ConvertUserProfile(data, now).Err?
  {
    CountFieldRejectsSeparator(data, "followers");
  }

  // ---------------------------------------------------------------------------
  // EventConverter
  // ---------------------------------------------------------------------------

  /** The text `hash()` is applied to for the event id: `f"{type}_{timestamp}"`. */
  function EventKey(data: Record): string {
    Display(Get(data, "type", Str("unknown"))) + "_" + Display(Get(data, "timestamp", Str("")))
  }

  /** `hash(v)`: a TypeError for an unhashable value. */
  function HashOf(v: Value, hash: Value -> int): (r: Result<int, PyError>)
    ensures r.Ok? <==> Hashable(v)
    ensures r.Ok? ==> r.value == hash(v)
  {
    if Hashable(v) then Ok(hash(v)) else Err(TypeError("unhashable type"))
  }

  /** The `actor` entry of a converted event. */
  function ActorRecord(id: int, login: Value, avatarUrl: Value, url: string): (r: Record)
    ensures r.Keys == {"id", "login", "avatar_url", "url"}
    ensures r["id"] == Int(id) && r["login"] == login && r["avatar_url"] == avatarUrl && r["url"] == Str(url)
  {
    map["id" := Int(id), "login" := login, "avatar_url" := avatarUrl, "url" := Str(url)]
  }

  /** The `repo` entry of a converted event. */
  function RepoRecord(id: int, name: Value, url: Value): (r: Record)
    ensures r.Keys == {"id", "name", "url"}
    ensures r["id"] == Int(id) && r["name"] == name && r["url"] == url
  {
    map["id" := Int(id), "name" := name, "url" := url]
  }

  /** The `payload` entry of a converted event. */
  function PayloadRecord(action: Value, size: int, ref: Value): (r: Record)
    ensures r.Keys == {"action", "size", "ref"}
    ensures r["action"] == action && r["size"] == Int(size) && r["ref"] == ref
  {
    map["action" := action, "size" := Int(size), "ref" := ref]
  }

  /** The keys of a converted event; there is no `org`. */
  const EventRecordKeys: set<string> := {"id", "type", "actor", "repo", "payload", "public", "created_at"}

  /** The converted event: `public` is always True. */
  function EventRecord(id: string, eventType: string, actor: Record, repo: Record,
                       payload: Record, createdAt: Value): (r: Record)
    ensures r.Keys == EventRecordKeys
    ensures r["id"] == Str(id) && r["type"] == Str(eventType) && r["public"] == Bool(true)
    ensures r["actor"] == Dict(actor) && r["repo"] == Dict(repo) && r["payload"] == Dict(payload)
    ensures r["created_at"] == createdAt
  {
    map["id" := Str(id), "type" := Str(eventType), "actor" := Dict(actor), "repo" := Dict(repo),
        "payload" := Dict(payload), "public" := Bool(true), "created_at" := createdAt]
  }

  /**
   * `EventConverter.convert(data)`: a record in the shape of a GitHub API event.
   * `now` is the text `datetime.now().isoformat()` returns.
   */
  function ConvertEvent(data: Record, hash: Value -> int, now: string): (r: Result<Record, PyError>)
    ensures r.Ok? <==> Hashable(Get(data, "actor_username", Str("unknown")))
                       && Hashable(Get(data, "repository_name", Str("unknown")))
                       && CountField(data, "commit_count").Ok?
    ensures r.Ok? ==> r.value.Keys == EventRecordKeys
    ensures r.Ok? ==> r.value["id"] == Str(IntToString(hash(Str(EventKey(data)))))
    ensures r.Ok? ==> r.value["type"] == Str(Display(Get(data, "type", Str("Unknown"))) + "Event")
    ensures r.Ok? ==> r.value["public"] == Bool(true)
    ensures r.Ok? ==> r.value["created_at"] == Get(data, "timestamp", Str(now))
    ensures r.Ok? ==> r.value["actor"] == Dict(ActorRecord(HashOf(Get(data, "actor_username", Str("unknown")), hash).value,
                                                            Get(data, "actor_username", Str("")),
                                                            Get(data, "actor_avatar", Str("")),
                                                            "https://github.com/" + Display(Get(data, "actor_username", Str("")))))
    ensures r.Ok? ==> r.value["repo"] == Dict(RepoRecord(HashOf(Get(data, "repository_name", Str("unknown")), hash).value,
                                                          Get(data, "repository_name", Str("")),
                                                          Get(data, "repository_url", Str(""))))
    ensures r.Ok? ==> r.value["payload"] == Dict(PayloadRecord(Get(data, "action_description", Str("")),
                                                                CountField(data, "commit_count").value,
                                                                Get(data, "branch_name", Str(""))))
  {
    var actorId :- HashOf(Get(data, "actor_username", Str("unknown")), hash);
    var repoId :- HashOf(Get(data, "repository_name", Str("unknown")), hash);
    var size :- CountField(data, "commit_count");
    var login := Get(data, "actor_username", Str(""));
    Ok(EventRecord(
      IntToString(hash(Str(EventKey(data)))),
      Display(Get(data, "type", Str("Unknown"))) + "Event",
      ActorRecord(actorId, login, Get(data, "actor_avatar", Str("")), "https://github.com/" + Display(login)),
      RepoRecord(repoId, Get(data, "repository_name", Str("")), Get(data, "repository_url", Str(""))),
      PayloadRecord(Get(data, "action_description", Str("")), size, Get(data, "branch_name", Str(""))),
      Get(data, "timestamp", Str(now))))
  }

  /**
   * The event id depends on the type and the timestamp alone: two records that
   * agree on those get the same id within one run, whatever else they hold.
   */
  lemma EventIdDependsOnKeyOnly(d1: Record, d2: Record, hash: Value -> int, now: string)
    requires Get(d1, "type", Str("unknown")) == Get(d2, "type", Str("unknown"))
    requires Get(d1, "timestamp", Str("")) == Get(d2, "timestamp", Str(""))
    requires ConvertEvent(d1, hash, now).Ok? && ConvertEvent(d2, hash, now).Ok?
    ensures ConvertEvent(d1, hash, now).value["id"] == ConvertEvent(d2, hash, now).value["id"]
  {
  }

  /** The record fields the event converter copies into string-typed event fields. */
  const EventTextKeys: set<string> :=
    {"type", "actor_username", "actor_avatar", "repository_name", "repository_url",
     "action_description", "branch_name"}

  predicate TextOrAbsent(data: Record, k: string) {
    k in data ==> data[k].Str?
  }

  /**
   * What the event converter builds is an event `Event.from_api_response`
   * accepts, when the copied fields are strings and the timestamp parses; its
   * type is the extracted type with "Event" appended.
   */
  lemma {:induction false} ConvertedEventParses(data: Record, hash: Value -> int, now: string,
                                                parseIso: string -> Option<int>)
    requires forall k :: k in EventTextKeys ==> TextOrAbsent(data, k)
    requires "timestamp" in data && data["timestamp"].Str?
    requires parseIso(Events.IsoText(data["timestamp"].s)).Some?
    requires CountField(data, "commit_count").Ok?
    ensures ConvertEvent(data, hash, now).Ok?
    ensures var e := Events.FromApiResponse(ConvertEvent(data, hash, now).value, parseIso);
      && e.Ok?
      && e.value.eventType == Display(Get(data, "type", Str("Unknown"))) + "Event"
      && e.value.public
      && e.value.org.None?
  {
    ConvertedEventShape(data, hash, now);
    var rec := ConvertEvent(data, hash, now).value;
    assert Events.CreatedAt(rec["created_at"], parseIso).Ok?;
    ShapedRecordParses(rec, parseIso);
  }

  /** A record of the converted shape whose timestamp parses is accepted by `Event.from_api_response`. */
  lemma ShapedRecordParses(rec: Record, parseIso: string -> Option<int>)
    requires ConvertedShape(rec) && Events.CreatedAt(rec["created_at"], parseIso).Ok?
    ensures var e := Events.FromApiResponse(rec, parseIso);
      e.Ok? && Str(e.value.eventType) == rec["type"] && e.value.public && e.value.org.None?
  {
    ConvertedPayloadDispatches(rec["type"], rec["payload"].fields);
    ConvertedActorAndRepoParse(rec["actor"].fields, rec["repo"].fields);
    Events.WellFormedRecordParses(rec, parseIso);
  }

  /** The shape of what the event converter builds from string fields. */
  predicate ConvertedShape(rec: Record) {
    && rec.Keys == EventRecordKeys
    && rec["type"].Str? && rec["id"].Str? && rec["public"] == Bool(true)
    && rec["actor"].Dict? && rec["repo"].Dict? && rec["payload"].Dict?
    && rec["actor"].fields.Keys == {"id", "login", "avatar_url", "url"}
    && rec["actor"].fields["id"].Int? && rec["actor"].fields["login"].Str?
    && rec["actor"].fields["avatar_url"].Str? && rec["actor"].fields["url"].Str?
    && rec["repo"].fields.Keys == {"id", "name", "url"}
    && rec["repo"].fields["id"].Int? && rec["repo"].fields["name"].Str? && rec["repo"].fields["url"].Str?
    && rec["payload"].fields.Keys == {"action", "size", "ref"}
    && rec["payload"].fields["action"].Str? && rec["payload"].fields["size"].Int?
    && rec["payload"].fields["ref"].Str?
  }

  /** The shape of a converted event whose copied fields are strings. */
  lemma ConvertedEventShape(data: Record, hash: Value -> int, now: string)
    requires forall k :: k in EventTextKeys ==> TextOrAbsent(data, k)
    requires CountField(data, "commit_count").Ok?
    ensures ConvertEvent(data, hash, now).Ok?
    ensures ConvertedShape(ConvertEvent(data, hash, now).value)
    ensures ConvertEvent(data, hash, now).value["created_at"] == Get(data, "timestamp", Str(now))
  {
    assert TextOrAbsent(data, "type") && TextOrAbsent(data, "actor_username") && TextOrAbsent(data, "actor_avatar");
    assert TextOrAbsent(data, "repository_name") && TextOrAbsent(data, "repository_url");
    assert TextOrAbsent(data, "action_description") && TextOrAbsent(data, "branch_name");
  }

  /** The converted actor and repo entries construct `EventActor` and `EventRepo` when their texts are strings. */
  lemma ConvertedActorAndRepoParse(actor: Record, repo: Record)
    requires actor.Keys == {"id", "login", "avatar_url", "url"}
    requires actor["id"].Int? && actor["login"].Str? && actor["avatar_url"].Str? && actor["url"].Str?
    requires repo.Keys == {"id", "name", "url"}
    requires repo["id"].Int? && repo["name"].Str? && repo["url"].Str?
    ensures Events.ActorFrom(Dict(actor)).Ok? && Events.RepoFrom(Dict(repo)).Ok?
  {
    assert "display_login" !in actor && "gravatar_id" !in actor;
  }

  /** The converted payload (a string action, an integer size, a string ref) constructs under every tag. */
  lemma {:induction false} ConvertedPayloadDispatches(tag: Value, p: Record)
    requires p.Keys == {"action", "size", "ref"}
    requires p["action"].Str? && p["size"].Int? && p["ref"].Str?
    ensures Events.Dispatch(tag, Dict(p)).Ok?
  {
    assert Events.OptStr(p, "action").Ok? && Events.OptStr(p, "ref").Ok? && Events.OptInt(p, "size").Ok?;
    assert Events.WatchActionField(p).Ok?;
    match Events.VariantOf(tag)
    case PushVariant =>
      assert "push_id" !in p && "distinct_size" !in p && "head" !in p && "before" !in p && "commits" !in p;
    case CreateVariant =>
      assert "ref_type" !in p && "master_branch" !in p && "description" !in p && "pusher_type" !in p;
    case ForkVariant => assert "forkee" !in p;
    case IssuesVariant => assert "issue" !in p;
    case PullRequestVariant => assert "number" !in p && "pull_request" !in p;
    case _ =>
  }

  // ---------------------------------------------------------------------------
  // DataConverter and SchemaToModelConverter
  // ---------------------------------------------------------------------------

  /**
   * `DataConverter.convert_extraction_to_domain(data, model_type)`. `ModelType`
   * has no `EVENT` member, so for every type other than USER_PROFILE the `elif`
   * comparison itself raises AttributeError: neither the event converter nor the
   * pass-through `else` branch is ever reached.
   */
  function ConvertExtractionToDomain(data: Record, modelType: ModelType, now: Value): (r: Result<ConvertedProfile, PyError>)
    ensures modelType == UserProfile ==> r == ConvertUserProfile(data, now)
    ensures modelType != UserProfile ==> r == Err(AttributeError("EVENT"))
  {
    if modelType == UserProfile then ConvertUserProfile(data, now)
    else Err(AttributeError("EVENT"))
  }

  /** The results of `f` over `xs` that are not errors, in input order. */
  function Kept<T, U>(xs: seq<T>, f: T -> Result<U, PyError>): (r: seq<U>)
    ensures |r| <= |xs|
  {
    if xs == [] then []
    else
      var init := Kept(xs[..|xs| - 1], f);
      match f(xs[|xs| - 1])
      case Ok(c) => init + [c]
      case Err(_) => init
  }

  lemma {:induction false} KeptIsOrderedSubsequence<T, U>(xs: seq<T>, f: T -> Result<U, PyError>)
    returns (idx: seq<nat>)
    ensures OrderedSources(xs, f, Kept(xs, f), idx)
  {
    if xs == [] {
      idx := [];
    } else {
      var prev := KeptIsOrderedSubsequence(xs[..|xs| - 1], f);
      idx := KeptStep(xs, f, prev);
    }
  }

  /**
   * `out` is exactly the successful results of `f` over `xs`, in order:
   * output i is the result of `f` on input `idx[i]`, the indices strictly
   * increase, and every input on which `f` succeeds is one of them.
   */
  ghost predicate OrderedSources<T, U>(xs: seq<T>, f: T -> Result<U, PyError>, out: seq<U>, idx: seq<nat>) {
    SoundSources(xs, f, out, idx) && CompleteSources(xs, f, idx)
  }

  /** Output i is the result of `f` on input `idx[i]`, with the indices strictly increasing. */
  ghost predicate SoundSources<T, U>(xs: seq<T>, f: T -> Result<U, PyError>, out: seq<U>, idx: seq<nat>) {
    && |idx| == |out|
    && (forall i :: 0 <= i < |idx| ==> idx[i] < |xs|)
    && (forall i, j :: 0 <= i < j < |idx| ==> idx[i] < idx[j])
    && (forall i :: 0 <= i < |idx| ==> idx[i] < |xs| && f(xs[idx[i]]) == Ok(out[i]))
  }

  /** Every input on which `f` succeeds is listed in `idx`. */
  ghost predicate CompleteSources<T, U>(xs: seq<T>, f: T -> Result<U, PyError>, idx: seq<nat>) {
    forall k :: 0 <= k < |xs| && f(xs[k]).Ok? ==> k in idx
  }

  lemma KeptStep<T, U>(xs: seq<T>, f: T -> Result<U, PyError>, prev: seq<nat>) returns (idx: seq<nat>)
    requires xs != []
    requires OrderedSources(xs[..|xs| - 1], f, Kept(xs[..|xs| - 1], f), prev)
    ensures OrderedSources(xs, f, Kept(xs, f), idx)
    ensures f(xs[|xs| - 1]).Ok? ==> idx == prev + [|xs| - 1]
    ensures f(xs[|xs| - 1]).Err? ==> idx == prev
  {
    idx := if f(xs[|xs| - 1]).Ok? then prev + [|xs| - 1] else prev;
    SoundStep(xs, f, prev, idx);
    CompleteStep(xs, f, prev, idx);
  }

  /** The soundness half of `KeptStep`. */
  lemma SoundStep<T, U>(xs: seq<T>, f: T -> Result<U, PyError>, prev: seq<nat>, idx: seq<nat>)
    requires xs != []
    requires SoundSources(xs[..|xs| - 1], f, Kept(xs[..|xs| - 1], f), prev)
    requires idx == if f(xs[|xs| - 1]).Ok? then prev + [|xs| - 1] else prev
    ensures SoundSources(xs, f, Kept(xs, f), idx)
  {
    var n := |xs| - 1;
    var outInit := Kept(xs[..n], f);
    SoundWiden(xs, f, outInit, prev);
    match f(xs[n])
    case Ok(c) =>
      assert Kept(xs, f) == outInit + [c];
      SoundAppend(xs, f, outInit, prev, c);
    case Err(_) =>
      assert Kept(xs, f) == outInit;
  }

  /** Sources found in a prefix of the input are still sources in the whole input. */
  lemma SoundWiden<T, U>(xs: seq<T>, f: T -> Result<U, PyError>, out: seq<U>, idx: seq<nat>)
    requires xs != []
    requires SoundSources(xs[..|xs| - 1], f, out, idx)
    ensures SoundSources(xs, f, out, idx)
    ensures forall i :: 0 <= i < |idx| ==> idx[i] < |xs| - 1
  {
    forall i | 0 <= i < |idx| ensures f(xs[idx[i]]) == Ok(out[i]) {
      assert xs[idx[i]] == xs[..|xs| - 1][idx[i]];
    }
  }

  /** The last input, when it succeeds, extends the sources by one. */
  lemma SoundAppend<T, U>(xs: seq<T>, f: T -> Result<U, PyError>, out: seq<U>, idx: seq<nat>, c: U)
    requires xs != [] && f(xs[|xs| - 1]) == Ok(c)
    requires SoundSources(xs, f, out, idx)
    requires forall i :: 0 <= i < |idx| ==> idx[i] < |xs| - 1
    ensures SoundSources(xs, f, out + [c], idx + [|xs| - 1])
  {
    var idx', out' := idx + [|xs| - 1], out + [c];
    forall i | 0 <= i < |idx'| ensures idx'[i] < |xs| && f(xs[idx'[i]]) == Ok(out'[i]) {
      if i < |idx| {
        assert idx'[i] == idx[i] && out'[i] == out[i];
      }
    }
    forall i, j | 0 <= i < j < |idx'| ensures idx'[i] < idx'[j] {
      assert idx'[i] == idx[i];
      if j < |idx| {
        assert idx'[j] == idx[j];
      }
    }
  }

  /** The completeness half of `KeptStep`. */
  lemma CompleteStep<T, U>(xs: seq<T>, f: T -> Result<U, PyError>, prev: seq<nat>, idx: seq<nat>)
    requires xs != []
    requires CompleteSources(xs[..|xs| - 1], f, prev)
    requires idx == if f(xs[|xs| - 1]).Ok? then prev + [|xs| - 1] else prev
    ensures CompleteSources(xs, f, idx)
  {
    var n := |xs| - 1;
    forall k | 0 <= k < |xs| && f(xs[k]).Ok? ensures k in idx {
      if k < n {
        assert xs[..n][k] == xs[k];
        assert k in prev;
      } else {
        assert idx[|prev|] == k;
      }
    }
  }

  lemma {:induction false} KeptAllOk<T, U>(xs: seq<T>, f: T -> Result<U, PyError>)
    requires forall i :: 0 <= i < |xs| ==> f(xs[i]).Ok?
    ensures |Kept(xs, f)| == |xs|
  {
    if xs != [] {
      KeptAllOk(xs[..|xs| - 1], f);
    }
  }

  lemma {:induction false} KeptAllErr<T, U>(xs: seq<T>, f: T -> Result<U, PyError>)
    requires forall i :: 0 <= i < |xs| ==> f(xs[i]).Err?
    ensures Kept(xs, f) == []
  {
    if xs != [] {
      KeptAllErr(xs[..|xs| - 1], f);
    }
  }

  /** `convert_extraction_to_domain` with the model type fixed, as `convert_batch` calls it. */
  function ConverterFor(modelType: ModelType, now: Value): Record -> Result<ConvertedProfile, PyError> {
    (d: Record) => ConvertExtractionToDomain(d, modelType, now)
  }

  /** What `convert_batch` returns: the records that converted, in input order; never more than the input. */
  function BatchResult(records: seq<Record>, modelType: ModelType, now: Value): (r: seq<ConvertedProfile>)
    ensures |r| <= |records|
  {
    Kept(records, ConverterFor(modelType, now))
  }

  /**
   * The output is exactly the records that convert, in input order: output i
   * is the conversion of input `idx[i]`, the indices strictly increase, and
   * every record that converts is among them.
   */
  lemma BatchIsOrderedSubsequence(records: seq<Record>, modelType: ModelType, now: Value)
    returns (idx: seq<nat>)
    ensures var out := BatchResult(records, modelType, now);
      && |idx| == |out|
      && (forall i :: 0 <= i < |idx| ==> idx[i] < |records|)
      && (forall i, j :: 0 <= i < j < |idx| ==> idx[i] < idx[j])
      && (forall i :: 0 <= i < |idx| ==> ConvertExtractionToDomain(records[idx[i]], modelType, now) == Ok(out[i]))
    ensures forall k :: 0 <= k < |records| && ConvertExtractionToDomain(records[k], modelType, now).Ok? ==> k in idx
  {
    idx := KeptIsOrderedSubsequence(records, ConverterFor(modelType, now));
    forall i | 0 <= i < |idx|
      ensures ConvertExtractionToDomain(records[idx[i]], modelType, now) == Ok(BatchResult(records, modelType, now)[i])
    {
      assert ConverterFor(modelType, now)(records[idx[i]]) == ConvertExtractionToDomain(records[idx[i]], modelType, now);
    }
    forall k | 0 <= k < |records| && ConvertExtractionToDomain(records[k], modelType, now).Ok?
      ensures k in idx
    {
      assert ConverterFor(modelType, now)(records[k]) == ConvertExtractionToDomain(records[k], modelType, now);
    }
  }

  /** A batch whose records all convert comes back whole. */
  lemma BatchKeepsConvertible(records: seq<Record>, modelType: ModelType, now: Value)
    requires forall i :: 0 <= i < |records| ==> ConvertExtractionToDomain(records[i], modelType, now).Ok?
    ensures |BatchResult(records, modelType, now)| == |records|
  {
    KeptAllOk(records, ConverterFor(modelType, now));
  }

  /** A converter for any model type but USER_PROFILE drops every record. */
  lemma BatchOfOtherTypeIsEmpty(records: seq<Record>, modelType: ModelType, now: Value)
    requires modelType != UserProfile
    ensures BatchResult(records, modelType, now) == []
  {
    KeptAllErr(records, ConverterFor(modelType, now));
  }

  /** `SchemaToModelConverter`: a converter bound to one model type. */
  class SchemaToModelConverter {
    var modelType: ModelType

    constructor (modelType: ModelType)
      ensures this.modelType == modelType
    {
      this.modelType := modelType;
    }

    /**
     * `convert_batch(extracted_data)`: convert each record in turn, append what
     * converts, skip what raises. Nothing escapes the loop.
     */
    method ConvertBatch(extracted: seq<Record>, now: Value) returns (converted: seq<ConvertedProfile>)
      ensures converted == BatchResult(extracted, modelType, now)
    {
      converted := [];
      for i := 0 to |extracted|
        invariant converted == BatchResult(extracted[..i], modelType, now)
      {
        assert extracted[..i + 1][..i] == extracted[..i];
        var r := ConvertExtractionToDomain(extracted[i], modelType, now);
        if r.Ok? {
          converted := converted + [r.value];
        }
      }
      assert extracted[..|extracted|] == extracted;
    }
  }
}
