/**
 * The GitHub REST API client (src/service/github_api.py): the request
 * headers, the event endpoints and their paging parameters, turning a
 * response into events, and gathering the events of several users.
 *
 * The HTTP exchange is outside this model: a fetch is given the response
 * the server sent (or that the request raised), and the requests it would
 * have sent are returned for inspection. ISO times are read by the
 * parameter `parseIso`.
 */
module GitHubApi {

  import opened Wrappers
  import opened Text
  import opened Values
  import Events

  const BaseUrl := "https://api.github.com"

  /** The headers every request carries. */
  const BaseHeaders: map<string, string> :=
    map["Accept" := "application/vnd.github+json",
        "X-GitHub-Api-Version" := "2022-11-28",
        "User-Agent" := "ETrace-GitHub-Crawler/1.0"]

  /** The headers `__init__` leaves in `self.headers` for a configured token (None when unset). */
  function HeadersFor(token: Option<string>): (r: map<string, string>)
    ensures "Authorization" in r <==> token.Some? && token.value != ""
    ensures "Authorization" in r ==> r["Authorization"] == "token " + token.value
    ensures forall k :: k in BaseHeaders ==> k in r && r[k] == BaseHeaders[k]
    ensures forall k :: k in r ==> k in BaseHeaders || k == "Authorization"
  {
    if token.Some? && token.value != "" then BaseHeaders["Authorization" := "token " + token.value]
    else BaseHeaders
  }

  /** The event lists the service can ask for. */
  datatype Endpoint =
    | PublicEvents
    | UserEvents(username: string)
    | UserPublicEvents(username: string)
    | UserReceivedEvents(username: string)
    | UserReceivedPublicEvents(username: string)
    | RepositoryEvents(owner: string, repo: string)
    | OrganizationEvents(org: string)

  /** The path each `get_*_events` method appends to the base URL. */
  function Path(e: Endpoint): (r: string)
    ensures StartsWith(r, "/")
    ensures EndsWith(r, "/events") || EndsWith(r, "_events") || EndsWith(r, "/public")
  {
    match e
    case PublicEvents => "/events"
    case UserEvents(u) => "/users/" + u + "/events"
    case UserPublicEvents(u) => "/users/" + u + "/events/public"
    case UserReceivedEvents(u) => "/users/" + u + "/received_events"
    case UserReceivedPublicEvents(u) =>
      var p := "/users/" + u + "/received_events/public";
      assert p[|p| - 7..] == "/public";
      p
    case RepositoryEvents(o, r) => "/repos/" + o + "/" + r + "/events"
    case OrganizationEvents(org) => "/orgs/" + org + "/events"
  }

  /** The per-user endpoints sit under "/users/{username}/". */
  lemma UserPathsNameTheUser(e: Endpoint)
    requires e.UserEvents? || e.UserPublicEvents? || e.UserReceivedEvents? || e.UserReceivedPublicEvents?
    ensures StartsWith(Path(e), "/users/" + e.username + "/")
  {
    var p := "/users/" + e.username + "/";
    assert Path(e)[..|p|] == p;
  }

  /** What one request sends: URL, headers and the two query parameters. */
  datatype Request = Request(url: string, headers: map<string, string>, perPage: int, page: int)

  /** A response, or the exception the request or its JSON decoding raised. */
  datatype Response =
    | Response(status: int, body: Value)
    | Raised

  // ---------------------------------------------------------------------------
  // From a response to events
  // ---------------------------------------------------------------------------

  /** The items of a list body that `Event.from_api_response` accepts, in order; the others are skipped. */
  function ParseEvents(items: seq<Value>, parseIso: string -> Option<int>): (r: seq<Events.Event>)
    ensures |r| <= |items|
  {
    if items == [] then []
    else
      var last := items[|items| - 1];
      var parsed := if last.Dict? then Events.FromApiResponse(last.fields, parseIso) else Err(TypeError("not a dict"));
      ParseEvents(items[..|items| - 1], parseIso) + (if parsed.Ok? then [parsed.value] else [])
  }

  /**
   * What `_fetch_events` returns for a response. A body that is a dict or a
   * string iterates over keys or characters, each of which fails to parse;
   * a body `len` refuses raises, and the handler turns that into None.
   */
  function FetchOutcome(response: Response, parseIso: string -> Option<int>): (r: Option<seq<Events.Event>>)
    ensures r.Some? ==> response.Response? && response.status == 200
    ensures r.Some? && response.body.List? ==> |r.value| <= |response.body.items|
    ensures r.Some? && !response.body.List? ==> r.value == []
  {
    if response.Raised? || response.status != 200 then None
    else
      match response.body
      case List(items) => Some(ParseEvents(items, parseIso))
      case Dict(_) => Some([])
      case Str(_) => Some([])
      case _ => None
  }

  /** A status-200 list body always gives events; never an exception. */
  lemma OnlyStatus200HasEvents(response: Response, parseIso: string -> Option<int>)
    ensures response.Response? && response.status == 200 && response.body.List? ==> FetchOutcome(response, parseIso).Some?
  {
  }

  /** The events come out in the order of the items they were read from. */
  lemma {:induction false} ParseEventsInOrder(a: seq<Value>, b: seq<Value>, parseIso: string -> Option<int>)
    ensures ParseEvents(a + b, parseIso) == ParseEvents(a, parseIso) + ParseEvents(b, parseIso)
    decreases |b|
  {
    if b == [] {
      assert a + b == a;
    } else {
      var b' := b[..|b| - 1];
      assert (a + b)[..|a + b| - 1] == a + b';
      assert (a + b)[|a + b| - 1] == b[|b| - 1];
      ParseEventsInOrder(a, b', parseIso);
    }
  }

  /** Exactly one event per item when every item parses. */
  lemma {:induction false} ParseEventsCount(items: seq<Value>, parseIso: string -> Option<int>)
    ensures (forall i :: 0 <= i < |items| ==> items[i].Dict? && Events.FromApiResponse(items[i].fields, parseIso).Ok?) ==>
      |ParseEvents(items, parseIso)| == |items|
  {
    if items != [] {
      ParseEventsCount(items[..|items| - 1], parseIso);
    }
  }

  /** Every event returned was parsed from one of the items. */
  lemma {:induction false} ParsedEventsComeFromItems(items: seq<Value>, parseIso: string -> Option<int>, e: Events.Event)
    requires e in ParseEvents(items, parseIso)
    ensures exists i :: 0 <= i < |items| && items[i].Dict? && Events.FromApiResponse(items[i].fields, parseIso) == Ok(e)
  {
    var prefix := items[..|items| - 1];
    var last := items[|items| - 1];
    if e in ParseEvents(prefix, parseIso) {
      ParsedEventsComeFromItems(prefix, parseIso, e);
      var i :| 0 <= i < |prefix| && prefix[i].Dict? && Events.FromApiResponse(prefix[i].fields, parseIso) == Ok(e);
      assert items[i] == prefix[i];
    } else {
      assert items[|items| - 1] == last;
    }
  }

  /** `get_multiple_user_events`: which endpoint each `event_type` selects; any other value means public events. */
  function TaskEndpoint(eventType: string, username: string): (e: Endpoint)
    ensures eventType !in {"all", "received", "received_public"} ==> e == UserPublicEvents(username)
    ensures (e.UserEvents? || e.UserPublicEvents? || e.UserReceivedEvents? || e.UserReceivedPublicEvents?) && e.username == username
  {
    if eventType == "public" then UserPublicEvents(username)
    else if eventType == "all" then UserEvents(username)
    else if eventType == "received" then UserReceivedEvents(username)
    else if eventType == "received_public" then UserReceivedPublicEvents(username)
    else UserPublicEvents(username)
  }

  class GitHubApiService {
    var headers: map<string, string>

    /** `GitHubAPIService(settings)`: the fixed headers, plus Authorization when a token is configured. */
    constructor (githubToken: Option<string>)
      ensures headers == HeadersFor(githubToken)
    {
      headers := BaseHeaders;
      new;
      if githubToken.Some? && githubToken.value != "" {
        headers := headers["Authorization" := "token " + githubToken.value];
      }
    }

    /** The request each `get_*_events(..., per_page, page)` sends. */
    function RequestFor(e: Endpoint, perPage: int, page: int): (r: Request)
      reads this
      ensures r.url == BaseUrl + Path(e) && r.headers == headers && r.page == page
      ensures r.perPage <= 100 && (perPage <= 100 ==> r.perPage == perPage)
    {
      Request(BaseUrl + Path(e), headers, if perPage <= 100 then perPage else 100, page)
    }

    /** `_fetch_events(url, params)` given the response; items that fail to parse are dropped. */
    method FetchEvents(response: Response, parseIso: string -> Option<int>) returns (r: Option<seq<Events.Event>>)
      ensures r == FetchOutcome(response, parseIso)
    {
      if response.Raised? || response.status != 200 {
        return None;
      }
      if !response.body.List? {
        r := if response.body.Dict? || response.body.Str? then Some([]) else None;
        return;
      }
      var items := response.body.items;
      var events: seq<Events.Event> := [];
      for i := 0 to |items|
        invariant events == ParseEvents(items[..i], parseIso)
      {
        assert items[..i + 1][..i] == items[..i];
        if items[i].Dict? {
          var parsed := Events.FromApiResponse(items[i].fields, parseIso);
          if parsed.Ok? {
            events := events + [parsed.value];
          }
        }
      }
      assert items[..|items|] == items;
      r := Some(events);
    }

    /**
     * `get_multiple_user_events(usernames, event_type, per_page)`, with the
     * tasks run one after another: `responses[i]` answers the request of
     * task i. Each username maps to the outcome of its last task.
     */
    method GetMultipleUserEvents(usernames: seq<string>, eventType: string, perPage: int,
                                 responses: seq<Response>, parseIso: string -> Option<int>)
      returns (requests: seq<Request>, userEvents: map<string, Option<seq<Events.Event>>>)
      requires |responses| == |usernames|
      ensures |requests| == |usernames|
      ensures forall i :: 0 <= i < |usernames| ==> requests[i] == RequestFor(TaskEndpoint(eventType, usernames[i]), perPage, 1)
      ensures forall u :: u in userEvents <==> u in usernames
      ensures forall i :: 0 <= i < |usernames| && LastOccurrence(usernames, i) ==>
        userEvents[usernames[i]] == FetchOutcome(responses[i], parseIso)
    {
      requests := seq(|usernames|, i requires 0 <= i < |usernames| reads this =>
        RequestFor(TaskEndpoint(eventType, usernames[i]), perPage, 1));
      userEvents := map[];
      for i := 0 to |usernames|
        invariant Gathered(userEvents, usernames[..i], responses, parseIso)
      {
        var events := FetchEvents(responses[i], parseIso);
        GatheredStep(userEvents, usernames, responses, parseIso, i);
        userEvents := userEvents[usernames[i] := events];
      }
      assert usernames[..|usernames|] == usernames;
    }
  }

  /**
   * `m` maps exactly the names of `names`, each to the outcome of the
   * response of its last occurrence.
   */
  ghost predicate Gathered(m: map<string, Option<seq<Events.Event>>>, names: seq<string>,
                     responses: seq<Response>, parseIso: string -> Option<int>)
    requires |names| <= |responses|
  {
    && (forall u :: u in m <==> u in names)
    && (forall k :: 0 <= k < |names| && LastOccurrence(names, k) ==>
          m[names[k]] == FetchOutcome(responses[k], parseIso))
  }

  /** Storing task i's outcome under its username extends the gathered prefix by one. */
  lemma GatheredStep(m: map<string, Option<seq<Events.Event>>>, names: seq<string>,
                     responses: seq<Response>, parseIso: string -> Option<int>, i: int)
    requires 0 <= i < |names| <= |responses|
    requires Gathered(m, names[..i], responses, parseIso)
    ensures Gathered(m[names[i] := FetchOutcome(responses[i], parseIso)], names[..i + 1], responses, parseIso)
  {
    var m' := m[names[i] := FetchOutcome(responses[i], parseIso)];
    assert names[..i + 1] == names[..i] + [names[i]];
    forall k | 0 <= k < i + 1 && LastOccurrence(names[..i + 1], k)
      ensures m'[names[k]] == FetchOutcome(responses[k], parseIso)
    {
      if k < i {
        LastOccurrenceOfPrefix(names, i, k);
      }
    }
  }

  /** The last occurrence in a longer prefix is the last in the shorter one, and differs from the added entry. */
  lemma LastOccurrenceOfPrefix(xs: seq<string>, i: int, k: int)
    requires 0 <= k < i < |xs| && LastOccurrence(xs[..i + 1], k)
    ensures LastOccurrence(xs[..i], k) && xs[k] != xs[i]
  {
    assert xs[..i + 1][i] == xs[i];
  }

  /** No later entry of `xs` repeats `xs[i]`. */
  predicate LastOccurrence(xs: seq<string>, i: int)
    requires 0 <= i < |xs|
  {
    forall j :: i < j < |xs| ==> xs[j] != xs[i]
  }
}
