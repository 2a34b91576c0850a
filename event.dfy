/**
 * GitHub timeline events as the REST API returns them (src/model/github/event.py):
 * the payload variants, the dispatch from the event's `type` string to a
 * variant, the construction of an Event from an API record, and the one-line
 * summary of an event.
 */
module Events {

  import opened Wrappers
  import opened Text
  import opened Values

  // ---------------------------------------------------------------------------
  // Payload variants
  // ---------------------------------------------------------------------------

  datatype Variant =
    | PushVariant | WatchVariant | CreateVariant | ForkVariant
    | IssuesVariant | PullRequestVariant | GenericVariant

  /** The event types that have a payload class of their own; every other type gets the generic payload. */
  const EventTypeTable: map<string, Variant> := map[
    "PushEvent" := PushVariant,
    "WatchEvent" := WatchVariant,
    "CreateEvent" := CreateVariant,
    "ForkEvent" := ForkVariant,
    "IssuesEvent" := IssuesVariant,
    "PullRequestEvent" := PullRequestVariant
  ]

  /**
   * The if/elif chain of `from_api_response`: an exact, case-sensitive string
   * comparison; a tag that is not one of the six strings (or not a string at all)
   * selects the generic payload.
   */
  function VariantOf(tag: Value): (r: Variant)
    ensures tag.Str? && tag.s in EventTypeTable ==> r == EventTypeTable[tag.s]
    ensures !(tag.Str? && tag.s in EventTypeTable) ==> r == GenericVariant
  {
    if tag == Str("PushEvent") then PushVariant
    else if tag == Str("WatchEvent") then WatchVariant
    else if tag == Str("CreateEvent") then CreateVariant
    else if tag == Str("ForkEvent") then ForkVariant
    else if tag == Str("IssuesEvent") then IssuesVariant
    else if tag == Str("PullRequestEvent") then PullRequestVariant
    else GenericVariant
  }

  /** The fields each payload class declares (`action` comes from the base class). */
  function DeclaredFields(v: Variant): set<string> {
    match v
    case PushVariant => {"action", "push_id", "size", "distinct_size", "ref", "head", "before", "commits"}
    case WatchVariant => {"action"}
    case CreateVariant => {"action", "ref", "ref_type", "master_branch", "description", "pusher_type"}
    case ForkVariant => {"action", "forkee"}
    case IssuesVariant => {"action", "issue"}
    case PullRequestVariant => {"action", "number", "pull_request"}
    case GenericVariant => {"action"}
  }

  /**
   * A payload. Every class allows extra fields (`extra = "allow"` on the base
   * class is inherited), so each variant keeps the undeclared input fields in `extra`.
   */
  datatype Payload =
    | PushPayload(action: Option<string>, pushId: Option<int>, size: Option<int>,
                  distinctSize: Option<int>, ref: Option<string>, head: Option<string>,
                  before: Option<string>, commits: Option<seq<Value>>, extra: Record)
    | WatchPayload(watchAction: string, extra: Record)
    | CreatePayload(action: Option<string>, ref: Option<string>, refType: Option<string>,
                    masterBranch: Option<string>, description: Option<string>,
                    pusherType: Option<string>, extra: Record)
    | ForkPayload(action: Option<string>, forkee: Option<Record>, extra: Record)
    | IssuesPayload(action: Option<string>, issue: Option<Record>, extra: Record)
    | PullRequestPayload(action: Option<string>, number: Option<int>,
                         pullRequest: Option<Record>, extra: Record)
    | GenericPayload(action: Option<string>, extra: Record)
  {
    function Variant(): Variant {
      match this
      case PushPayload(_, _, _, _, _, _, _, _, _) => PushVariant
      case WatchPayload(_, _) => WatchVariant
      case CreatePayload(_, _, _, _, _, _, _) => CreateVariant
      case ForkPayload(_, _, _) => ForkVariant
      case IssuesPayload(_, _, _) => IssuesVariant
      case PullRequestPayload(_, _, _, _) => PullRequestVariant
      case GenericPayload(_, _) => GenericVariant
    }

    /** `payload.action`; every variant has the attribute. */
    function Action(): Option<string> {
      if WatchPayload? then Some(watchAction) else action
    }
  }

  // Reading one declared field; a value of the wrong JSON type is a validation error.

  function OptStr(p: Record, k: string): Result<Option<string>, PyError> {
    if k !in p then Ok(None)
    else match p[k]
      case Null => Ok(None)
      case Str(s) => Ok(Some(s))
      case _ => Err(ValidationError(k))
  }

  function OptInt(p: Record, k: string): Result<Option<int>, PyError> {
    if k !in p then Ok(None)
    else match p[k]
      case Null => Ok(None)
      case Int(i) => Ok(Some(i))
      case _ => Err(ValidationError(k))
  }

  function OptDict(p: Record, k: string): Result<Option<Record>, PyError> {
    if k !in p then Ok(None)
    else match p[k]
      case Null => Ok(None)
      case Dict(m) => Ok(Some(m))
      case _ => Err(ValidationError(k))
  }

  /** `commits: Optional[list] = Field(default_factory=list)` */
  function CommitsField(p: Record): Result<Option<seq<Value>>, PyError> {
    if "commits" !in p then Ok(Some([]))
    else match p["commits"]
      case Null => Ok(None)
      case List(xs) => Ok(Some(xs))
      case _ => Err(ValidationError("commits"))
  }

  /** `action: str = "started"` on the watch payload. */
  function WatchActionField(p: Record): Result<string, PyError> {
    if "action" !in p then Ok("started")
    else match p["action"]
      case Str(s) => Ok(s)
      case _ => Err(ValidationError("action"))
  }

  /** The input fields a variant does not declare. */
  function Extra(p: Record, v: Variant): (r: Record)
    ensures r.Keys == p.Keys - DeclaredFields(v)
  {
    map k | k in p && k !in DeclaredFields(v) :: p[k]
  }

  function PushFrom(p: Record): (r: Result<Payload, PyError>)
    ensures r.Ok? ==> r.value.PushPayload? && r.value.extra == Extra(p, PushVariant)
  {
    var action :- OptStr(p, "action");
    var pushId :- OptInt(p, "push_id");
    var size :- OptInt(p, "size");
    var distinctSize :- OptInt(p, "distinct_size");
    var ref :- OptStr(p, "ref");
    var head :- OptStr(p, "head");
    var before :- OptStr(p, "before");
    var commits :- CommitsField(p);
    Ok(PushPayload(action, pushId, size, distinctSize, ref, head, before, commits, Extra(p, PushVariant)))
  }

  function WatchFrom(p: Record): (r: Result<Payload, PyError>)
    ensures r.Ok? ==> r.value.WatchPayload? && r.value.extra == Extra(p, WatchVariant)
  {
    var action :- WatchActionField(p);
    Ok(WatchPayload(action, Extra(p, WatchVariant)))
  }

  function CreateFrom(p: Record): (r: Result<Payload, PyError>)
    ensures r.Ok? ==> r.value.CreatePayload? && r.value.extra == Extra(p, CreateVariant)
  {
    var action :- OptStr(p, "action");
    var ref :- OptStr(p, "ref");
    var refType :- OptStr(p, "ref_type");
    var masterBranch :- OptStr(p, "master_branch");
    var description :- OptStr(p, "description");
    var pusherType :- OptStr(p, "pusher_type");
    Ok(CreatePayload(action, ref, refType, masterBranch, description, pusherType, Extra(p, CreateVariant)))
  }

  function ForkFrom(p: Record): (r: Result<Payload, PyError>)
    ensures r.Ok? ==> r.value.ForkPayload? && r.value.extra == Extra(p, ForkVariant)
  {
    var action :- OptStr(p, "action");
    var forkee :- OptDict(p, "forkee");
    Ok(ForkPayload(action, forkee, Extra(p, ForkVariant)))
  }

  function IssuesFrom(p: Record): (r: Result<Payload, PyError>)
    ensures r.Ok? ==> r.value.IssuesPayload? && r.value.extra == Extra(p, IssuesVariant)
  {
    var action :- OptStr(p, "action");
    var issue :- OptDict(p, "issue");
    Ok(IssuesPayload(action, issue, Extra(p, IssuesVariant)))
  }

  function PullRequestFrom(p: Record): (r: Result<Payload, PyError>)
    ensures r.Ok? ==> r.value.PullRequestPayload? && r.value.extra == Extra(p, PullRequestVariant)
  {
    var action :- OptStr(p, "action");
    var number :- OptInt(p, "number");
    var pullRequest :- OptDict(p, "pull_request");
    Ok(PullRequestPayload(action, number, pullRequest, Extra(p, PullRequestVariant)))
  }

  function GenericFrom(p: Record): (r: Result<Payload, PyError>)
    ensures r.Ok? ==> r.value.GenericPayload? && r.value.extra == Extra(p, GenericVariant)
  {
    var action :- OptStr(p, "action");
    Ok(GenericPayload(action, Extra(p, GenericVariant)))
  }

  /** Constructing the payload class selected by `tag` from `payloadData` (`PayloadClass(**payload_data)`). */
  function Dispatch(tag: Value, payloadData: Value): (r: Result<Payload, PyError>)
    ensures !payloadData.Dict? ==> r.Err?
    ensures r.Ok? ==> r.value.Variant() == VariantOf(tag)
    ensures r.Ok? ==> r.value.extra == Extra(payloadData.fields, VariantOf(tag))
  {
    if !payloadData.Dict? then Err(TypeError("argument after ** must be a mapping"))
    else
      var p := payloadData.fields;
      match VariantOf(tag)
      case PushVariant => PushFrom(p)
      case WatchVariant => WatchFrom(p)
      case CreateVariant => CreateFrom(p)
      case ForkVariant => ForkFrom(p)
      case IssuesVariant => IssuesFrom(p)
      case PullRequestVariant => PullRequestFrom(p)
      case GenericVariant => GenericFrom(p)
  }

  // ---------------------------------------------------------------------------
  // The fields a payload holds: what `model_dump()` gives back
  // ---------------------------------------------------------------------------

  function OptStrValue(o: Option<string>): Value {
    match o case Some(s) => Str(s) case None => Null
  }

  function OptIntValue(o: Option<int>): Value {
    match o case Some(i) => Int(i) case None => Null
  }

  function OptDictValue(o: Option<Record>): Value {
    match o case Some(m) => Dict(m) case None => Null
  }

  function OptListValue(o: Option<seq<Value>>): Value {
    match o case Some(xs) => List(xs) case None => Null
  }

  /** The payload's fields: its declared fields with their values, and the extra ones. */
  function Dump(p: Payload): Record {
    match p
    case PushPayload(action, pushId, size, distinctSize, ref, head, before, commits, extra) =>
      extra + map["action" := OptStrValue(action), "push_id" := OptIntValue(pushId),
                  "size" := OptIntValue(size), "distinct_size" := OptIntValue(distinctSize),
                  "ref" := OptStrValue(ref), "head" := OptStrValue(head),
                  "before" := OptStrValue(before), "commits" := OptListValue(commits)]
    case WatchPayload(action, extra) => extra["action" := Str(action)]
    case CreatePayload(action, ref, refType, masterBranch, description, pusherType, extra) =>
      extra + map["action" := OptStrValue(action), "ref" := OptStrValue(ref),
                  "ref_type" := OptStrValue(refType), "master_branch" := OptStrValue(masterBranch),
                  "description" := OptStrValue(description), "pusher_type" := OptStrValue(pusherType)]
    case ForkPayload(action, forkee, extra) =>
      extra + map["action" := OptStrValue(action), "forkee" := OptDictValue(forkee)]
    case IssuesPayload(action, issue, extra) =>
      extra + map["action" := OptStrValue(action), "issue" := OptDictValue(issue)]
    case PullRequestPayload(action, number, pullRequest, extra) =>
      extra + map["action" := OptStrValue(action), "number" := OptIntValue(number),
                  "pull_request" := OptDictValue(pullRequest)]
    case GenericPayload(action, extra) => extra["action" := OptStrValue(action)]
  }

  /** The class defaults: `commits` is `[]`, a watch `action` is "started", every other declared field None. */
  function DefaultFields(v: Variant): (r: Record)
    ensures r.Keys == DeclaredFields(v)
  {
    map k | k in DeclaredFields(v) ::
      if v == PushVariant && k == "commits" then List([])
      else if v == WatchVariant && k == "action" then Str("started")
      else Null
  }

  /** A declared field read back: the input value, or None when the input lacks it. */
  lemma FieldReadBack(p: Record, k: string)
    ensures OptStr(p, k).Ok? ==> OptStrValue(OptStr(p, k).value) == Get(p, k, Null)
    ensures OptInt(p, k).Ok? ==> OptIntValue(OptInt(p, k).value) == Get(p, k, Null)
    ensures OptDict(p, k).Ok? ==> OptDictValue(OptDict(p, k).value) == Get(p, k, Null)
  {
  }

  lemma {:induction false} DumpEquals(p: Record, v: Variant, d: Record)
    requires d.Keys == p.Keys + DeclaredFields(v)
    requires forall k :: k in p && k !in DeclaredFields(v) ==> d[k] == p[k]
    requires forall k :: k in DeclaredFields(v) ==> d[k] == Get(p, k, DefaultFields(v)[k])
    ensures d == DefaultFields(v) + p
  {
    var e := DefaultFields(v) + p;
    forall k | k in d ensures d[k] == e[k] {
    }
  }

  /** What `PushFrom` stores in each declared field, one fact per field. */
  lemma {:induction false} PushFromFields(p: Record)
    requires PushFrom(p).Ok?
    ensures var r := PushFrom(p).value;
      && OptStrValue(r.action) == Get(p, "action", Null)
      && OptIntValue(r.pushId) == Get(p, "push_id", Null)
      && OptIntValue(r.size) == Get(p, "size", Null)
      && OptIntValue(r.distinctSize) == Get(p, "distinct_size", Null)
      && OptStrValue(r.ref) == Get(p, "ref", Null)
      && OptStrValue(r.head) == Get(p, "head", Null)
      && OptStrValue(r.before) == Get(p, "before", Null)
      && OptListValue(r.commits) == Get(p, "commits", List([]))
  {
    FieldReadBack(p, "action"); FieldReadBack(p, "push_id"); FieldReadBack(p, "size");
    FieldReadBack(p, "distinct_size"); FieldReadBack(p, "ref"); FieldReadBack(p, "head");
    FieldReadBack(p, "before");
  }

  /** Each declared field of a dumped push payload is the input value, or the class default when the input lacks it. */
  lemma {:induction false} PushDeclaredFields(p: Record)
    requires PushFrom(p).Ok?
    ensures forall k :: k in DeclaredFields(PushVariant) ==>
      k in Dump(PushFrom(p).value) && Dump(PushFrom(p).value)[k] == Get(p, k, DefaultFields(PushVariant)[k])
  {
    var d := Dump(PushFrom(p).value);
    PushFromFields(p);
    PushDumpFields(PushFrom(p).value);
    forall k | k in DeclaredFields(PushVariant)
      ensures k in d && d[k] == Get(p, k, DefaultFields(PushVariant)[k])
    {
      PushDefault(k);
      if k == "commits" {
      } else if k in {"action", "ref", "head", "before"} {
      } else {
        assert k in {"push_id", "size", "distinct_size"};
      }
    }
  }

  /** The push class defaults: `commits` is `[]`, every other declared field None. */
  lemma PushDefault(k: string)
    requires k in DeclaredFields(PushVariant)
    ensures DefaultFields(PushVariant)[k] == if k == "commits" then List([]) else Null
  {
  }

  /** Dumping a push payload writes each declared field from its attribute. */
  lemma PushDumpFields(r: Payload)
    requires r.PushPayload?
    ensures var d := Dump(r);
      && d.Keys >= DeclaredFields(PushVariant)
      && d["action"] == OptStrValue(r.action) && d["push_id"] == OptIntValue(r.pushId)
      && d["size"] == OptIntValue(r.size) && d["distinct_size"] == OptIntValue(r.distinctSize)
      && d["ref"] == OptStrValue(r.ref) && d["head"] == OptStrValue(r.head)
      && d["before"] == OptStrValue(r.before) && d["commits"] == OptListValue(r.commits)
  {
  }

  lemma {:induction false} PushKeepsFields(p: Record)
    requires PushFrom(p).Ok?
    ensures Dump(PushFrom(p).value) == DefaultFields(PushVariant) + p
  {
    PushDeclaredFields(p);
    DumpEquals(p, PushVariant, Dump(PushFrom(p).value));
  }

  lemma {:induction false} WatchKeepsFields(p: Record)
    requires WatchFrom(p).Ok?
    ensures Dump(WatchFrom(p).value) == DefaultFields(WatchVariant) + p
  {
    DumpEquals(p, WatchVariant, Dump(WatchFrom(p).value));
  }

  /** Each declared field of a dumped create payload is the input value, or None when the input lacks it. */
  lemma {:induction false} CreateDeclaredFields(p: Record)
    requires CreateFrom(p).Ok?
    ensures forall k :: k in DeclaredFields(CreateVariant) ==>
      k in Dump(CreateFrom(p).value) && Dump(CreateFrom(p).value)[k] == Get(p, k, DefaultFields(CreateVariant)[k])
  {
    var d := Dump(CreateFrom(p).value);
    FieldReadBack(p, "action"); FieldReadBack(p, "ref"); FieldReadBack(p, "ref_type");
    FieldReadBack(p, "master_branch"); FieldReadBack(p, "description"); FieldReadBack(p, "pusher_type");
    assert d["action"] == Get(p, "action", Null);
    assert d["ref"] == Get(p, "ref", Null);
    assert d["ref_type"] == Get(p, "ref_type", Null);
    assert d["master_branch"] == Get(p, "master_branch", Null);
    assert d["description"] == Get(p, "description", Null);
    assert d["pusher_type"] == Get(p, "pusher_type", Null);
    forall k | k in DeclaredFields(CreateVariant)
      ensures k in d && d[k] == Get(p, k, DefaultFields(CreateVariant)[k])
    {
      CreateDefault(k);
    }
  }

  /** Every declared field of a create payload defaults to None. */
  lemma CreateDefault(k: string)
    requires k in DeclaredFields(CreateVariant)
    ensures DefaultFields(CreateVariant)[k] == Null
  {
  }

  lemma {:induction false} CreateKeepsFields(p: Record)
    requires CreateFrom(p).Ok?
    ensures Dump(CreateFrom(p).value) == DefaultFields(CreateVariant) + p
  {
    CreateDeclaredFields(p);
    DumpEquals(p, CreateVariant, Dump(CreateFrom(p).value));
  }

  lemma {:induction false} ForkKeepsFields(p: Record)
    requires ForkFrom(p).Ok?
    ensures Dump(ForkFrom(p).value) == DefaultFields(ForkVariant) + p
  {
    FieldReadBack(p, "action"); FieldReadBack(p, "forkee");
    DumpEquals(p, ForkVariant, Dump(ForkFrom(p).value));
  }

  lemma {:induction false} IssuesKeepsFields(p: Record)
    requires IssuesFrom(p).Ok?
    ensures Dump(IssuesFrom(p).value) == DefaultFields(IssuesVariant) + p
  {
    FieldReadBack(p, "action"); FieldReadBack(p, "issue");
    DumpEquals(p, IssuesVariant, Dump(IssuesFrom(p).value));
  }

  lemma {:induction false} PullRequestKeepsFields(p: Record)
    requires PullRequestFrom(p).Ok?
    ensures Dump(PullRequestFrom(p).value) == DefaultFields(PullRequestVariant) + p
  {
    FieldReadBack(p, "action"); FieldReadBack(p, "number"); FieldReadBack(p, "pull_request");
    DumpEquals(p, PullRequestVariant, Dump(PullRequestFrom(p).value));
  }

  lemma {:induction false} GenericKeepsFields(p: Record)
    requires GenericFrom(p).Ok?
    ensures Dump(GenericFrom(p).value) == DefaultFields(GenericVariant) + p
  {
    FieldReadBack(p, "action");
    DumpEquals(p, GenericVariant, Dump(GenericFrom(p).value));
  }

  /**
   * A dispatched payload loses nothing and invents nothing: its fields are the
   * input fields, plus the class default for each declared field the input lacks.
   */
  lemma {:induction false} DispatchKeepsFields(tag: Value, p: Record)
    requires Dispatch(tag, Dict(p)).Ok?
    ensures Dump(Dispatch(tag, Dict(p)).value) == DefaultFields(VariantOf(tag)) + p
  {
    match VariantOf(tag)
    case PushVariant => PushKeepsFields(p);
    case WatchVariant => WatchKeepsFields(p);
    case CreateVariant => CreateKeepsFields(p);
    case ForkVariant => ForkKeepsFields(p);
    case IssuesVariant => IssuesKeepsFields(p);
    case PullRequestVariant => PullRequestKeepsFields(p);
    case GenericVariant => GenericKeepsFields(p);
  }

  /** Every input field the variant does not declare is kept unchanged. */
  lemma ExtraFieldsPreserved(tag: Value, p: Record, k: string)
    requires Dispatch(tag, Dict(p)).Ok?
    requires k in p && k !in DeclaredFields(VariantOf(tag))
    ensures k in Dispatch(tag, Dict(p)).value.extra
    ensures Dispatch(tag, Dict(p)).value.extra[k] == p[k]
  {
  }

  /** Dispatch never fails on an unknown tag: only an ill-typed `action` can make the generic payload fail. */
  lemma {:induction false} UnknownTagNeverFails(tag: Value, p: Record)
    requires VariantOf(tag) == GenericVariant
    requires "action" in p ==> p["action"].Null? || p["action"].Str?
    ensures Dispatch(tag, Dict(p)).Ok?
    ensures Dispatch(tag, Dict(p)).value == GenericPayload(OptStr(p, "action").value, Extra(p, GenericVariant))
  {
  }

  /** The tag comparison is case-sensitive: "pushEvent" selects the generic payload. */
  lemma DispatchIsCaseSensitive()
    ensures VariantOf(Str("pushEvent")) == GenericVariant
    ensures VariantOf(Str("PushEvent")) == PushVariant
    ensures VariantOf(Str("")) == GenericVariant
  {
  }

  /** A watch payload without `action` says "started"; a push payload without `commits` has none. */
  lemma PayloadDefaults(p: Record)
    requires "action" !in p && "commits" !in p
    ensures Dispatch(Str("WatchEvent"), Dict(p)) == Ok(WatchPayload("started", Extra(p, WatchVariant)))
    ensures Dispatch(Str("PushEvent"), Dict(p)).Ok? ==> Dispatch(Str("PushEvent"), Dict(p)).value.commits == Some([])
  {
  }

  // ---------------------------------------------------------------------------
  // Events
  // ---------------------------------------------------------------------------

  datatype Actor = Actor(id: int, login: string, displayLogin: Option<string>,
                         gravatarId: Option<string>, url: string, avatarUrl: string)

  datatype Repo = Repo(id: int, name: string, url: string)

  /** `createdAt` is the instant the abstract ISO-8601 parser gives. */
  datatype Event = Event(id: string, eventType: string, actor: Actor, repo: Repo,
                         payload: Payload, public: bool, createdAt: int, org: Option<Record>)

  function ReqStr(p: Record, k: string): Result<string, PyError> {
    if k in p && p[k].Str? then Ok(p[k].s) else Err(ValidationError(k))
  }

  function ReqInt(p: Record, k: string): Result<int, PyError> {
    if k in p && p[k].Int? then Ok(p[k].i) else Err(ValidationError(k))
  }

  /** `EventActor(**data["actor"])`; undeclared keys are ignored. */
  function ActorFrom(v: Value): Result<Actor, PyError> {
    if !v.Dict? then Err(TypeError("argument after ** must be a mapping"))
    else
      var m := v.fields;
      var id :- ReqInt(m, "id");
      var login :- ReqStr(m, "login");
      var displayLogin :- OptStr(m, "display_login");
      var gravatarId :- OptStr(m, "gravatar_id");
      var url :- ReqStr(m, "url");
      var avatarUrl :- ReqStr(m, "avatar_url");
      Ok(Actor(id, login, displayLogin, gravatarId, url, avatarUrl))
  }

  /** `EventRepo(**data["repo"])` */
  function RepoFrom(v: Value): Result<Repo, PyError> {
    if !v.Dict? then Err(TypeError("argument after ** must be a mapping"))
    else
      var id :- ReqInt(v.fields, "id");
      var name :- ReqStr(v.fields, "name");
      var url :- ReqStr(v.fields, "url");
      Ok(Repo(id, name, url))
  }

  /** The text handed to the ISO parser: every "Z" becomes "+00:00". */
  function IsoText(s: string): (r: string)
    ensures 'Z' !in r
    ensures 'Z' !in s ==> r == s
  {
    ReplaceChar(s, 'Z', "+00:00")
  }

  /** `datetime.fromisoformat(data["created_at"].replace("Z", "+00:00"))`, with no fallback. */
  function CreatedAt(v: Value, parseIso: string -> Option<int>): (r: Result<int, PyError>)
    ensures r.Ok? <==> v.Str? && parseIso(IsoText(v.s)).Some?
    ensures r.Ok? ==> r.value == parseIso(IsoText(v.s)).value
  {
    if !v.Str? then Err(AttributeError("replace"))
    else match parseIso(IsoText(v.s))
      case Some(t) => Ok(t)
      case None => Err(ValueError("Invalid isoformat string"))
  }

  /** The keys read with `data[...]`. */
  const RequiredKeys: set<string> := {"id", "type", "actor", "repo", "public", "created_at"}

  /** `Event.from_api_response(data)` */
  function FromApiResponse(data: Record, parseIso: string -> Option<int>): (r: Result<Event, PyError>)
    ensures (exists k :: k in RequiredKeys && k !in data) ==> r.Err?
    ensures r.Ok? ==> r.value.payload.Variant() == VariantOf(Str(r.value.eventType))
    ensures r.Ok? ==> Str(r.value.id) == data["id"] && Str(r.value.eventType) == data["type"]
    ensures r.Ok? ==> Bool(r.value.public) == data["public"]
    ensures r.Ok? ==> CreatedAt(data["created_at"], parseIso) == Ok(r.value.createdAt)
    ensures r.Ok? ==> r.value.org == (if "org" in data && data["org"].Dict? then Some(data["org"].fields) else None)
  {
    var payload :- Dispatch(Get(data, "type", Str("")), Get(data, "payload", Dict(map[])));
    if "id" !in data then Err(KeyError("id"))
    else if "type" !in data then Err(KeyError("type"))
    else if "actor" !in data then Err(KeyError("actor"))
    else
      var actor :- ActorFrom(data["actor"]);
      if "repo" !in data then Err(KeyError("repo"))
      else
        var repo :- RepoFrom(data["repo"]);
        if "public" !in data then Err(KeyError("public"))
        else if "created_at" !in data then Err(KeyError("created_at"))
        else
          var createdAt :- CreatedAt(data["created_at"], parseIso);
          var org := Get(data, "org", Null);
          if !data["id"].Str? then Err(ValidationError("id"))
          else if !data["type"].Str? then Err(ValidationError("type"))
          else if !data["public"].Bool? then Err(ValidationError("public"))
          else if !(org.Null? || org.Dict?) then Err(ValidationError("org"))
          else
            Ok(Event(data["id"].s, data["type"].s, actor, repo, payload, data["public"].b,
                     createdAt, if org.Dict? then Some(org.fields) else None))
  }

  /**
   * The converse direction: a record with every required key, whose parts each
   * construct and whose top-level fields have their declared types, is accepted.
   */
  lemma WellFormedRecordParses(data: Record, parseIso: string -> Option<int>)
    requires RequiredKeys <= data.Keys
    requires Dispatch(data["type"], Get(data, "payload", Dict(map[]))).Ok?
    requires ActorFrom(data["actor"]).Ok? && RepoFrom(data["repo"]).Ok?
    requires CreatedAt(data["created_at"], parseIso).Ok?
    requires data["id"].Str? && data["type"].Str? && data["public"].Bool?
    requires "org" !in data
    ensures FromApiResponse(data, parseIso).Ok?
    ensures FromApiResponse(data, parseIso).value.eventType == data["type"].s
    ensures FromApiResponse(data, parseIso).value.public == data["public"].b
    ensures FromApiResponse(data, parseIso).value.org.None?
  {
  }

  /** A record without `payload` is read as one whose payload is `{}`. */
  lemma MissingPayloadIsEmpty(data: Record, parseIso: string -> Option<int>)
    requires "payload" !in data
    ensures FromApiResponse(data, parseIso) == FromApiResponse(data["payload" := Dict(map[])], parseIso)
  {
    var data' := data["payload" := Dict(map[])];
    SameEventFields(data, data', parseIso);
  }

  /** The parse reads the payload only through `data.get("payload", {})`. */
  lemma SameEventFields(d1: Record, d2: Record, parseIso: string -> Option<int>)
    requires Get(d1, "payload", Dict(map[])) == Get(d2, "payload", Dict(map[]))
    requires forall k :: k in RequiredKeys + {"org"} ==> (k in d1 <==> k in d2) && (k in d1 ==> d1[k] == d2[k])
    ensures FromApiResponse(d1, parseIso) == FromApiResponse(d2, parseIso)
  {
    assert Get(d1, "type", Str("")) == Get(d2, "type", Str(""));
    assert Get(d1, "org", Null) == Get(d2, "org", Null);
  }

  // ---------------------------------------------------------------------------
  // Summary
  // ---------------------------------------------------------------------------

  /** `len(payload.commits) if hasattr(payload, 'commits') and payload.commits else 0` */
  function CommitCount(p: Payload): nat {
    if p.PushPayload? && p.commits.Some? then |p.commits.value| else 0
  }

  /** `getattr(payload, 'ref_type', 'repository')` */
  function RefTypeText(p: Payload): string {
    if p.CreatePayload? then OptStrText(p.refType) else "repository"
  }

  /** How an optional string appears in an f-string: None is written "None". */
  function OptStrText(o: Option<string>): string {
    match o case Some(s) => s case None => "None"
  }

  /**
   * The words of a summary between the actor and the repository, with the
   * spaces that separate them. The commit count, action and `ref_type` are
   * read from the payload variant; the source's `hasattr`/`getattr` reads
   * whatever attributes the payload object has. The two differ only for an
   * event built by hand whose payload class does not match its type (say, a
   * generic payload with an extra `commits`), which `from_api_response`
   * never builds.
   */
  function SummaryMiddle(e: Event): (m: string)
    ensures |m| >= 2 && m[0] == ' ' && m[|m| - 1] == ' '
  {
    if e.eventType == "PushEvent" then
      " pushed " + NatToString(CommitCount(e.payload)) + " commit(s) to "
    else if e.eventType == "WatchEvent" then
      " starred "
    else if e.eventType == "CreateEvent" then
      " created " + RefTypeText(e.payload) + " in "
    else if e.eventType == "ForkEvent" then
      " forked "
    else if e.eventType == "IssuesEvent" then
      " " + OptStrText(e.payload.Action()) + " an issue in "
    else if e.eventType == "PullRequestEvent" then
      " " + OptStrText(e.payload.Action()) + " a pull request in "
    else
      " performed " + e.eventType + " in "
  }

  /** `Event.get_event_summary()` */
  function Summary(e: Event): (r: string)
    ensures StartsWith(r, e.actor.login + " ")
    ensures EndsWith(r, " " + e.repo.name)
  {
    var m := SummaryMiddle(e);
    var r := e.actor.login + m + e.repo.name;
    assert r[..|e.actor.login| + 1] == e.actor.login + " ";
    assert r[|r| - |e.repo.name| - 1..] == " " + e.repo.name;
    r
  }

  /** The number of commits a raw push payload lists: none when `commits` is missing, None or empty. */
  function RawCommitCount(data: Record): nat {
    var p := Get(data, "payload", Dict(map[]));
    if p.Dict? && "commits" in p.fields && p.fields["commits"].List? then |p.fields["commits"].items| else 0
  }

  /** The action text of a raw payload: "None" when it has no `action`. */
  function RawActionText(data: Record): string {
    var p := Get(data, "payload", Dict(map[]));
    if p.Dict? && "action" in p.fields && p.fields["action"].Str? then p.fields["action"].s else "None"
  }

  /** The `ref_type` text of a raw payload: "None" when it has none. */
  function RawRefTypeText(data: Record): string {
    var p := Get(data, "payload", Dict(map[]));
    if p.Dict? && "ref_type" in p.fields && p.fields["ref_type"].Str? then p.fields["ref_type"].s else "None"
  }

  /**
   * The summary of an event built from an API record, stated in terms of the
   * record: a push reports how many commits the record lists, a create event
   * its `ref_type` and an issue or pull request event its action ("None" when
   * absent), watch and fork events fixed words, and any type without a
   * payload class of its own "performed {type}".
   */
  lemma {:induction false} SummaryOfParsedEvent(data: Record, parseIso: string -> Option<int>)
    requires FromApiResponse(data, parseIso).Ok?
    ensures var e := FromApiResponse(data, parseIso).value;
      var who := e.actor.login;
      var repo := e.repo.name;
      && (e.eventType == "PushEvent" ==>
            Summary(e) == who + " pushed " + NatToString(RawCommitCount(data)) + " commit(s) to " + repo)
      && (e.eventType == "WatchEvent" ==> Summary(e) == who + " starred " + repo)
      && (e.eventType == "CreateEvent" ==>
            Summary(e) == who + " created " + RawRefTypeText(data) + " in " + repo)
      && (e.eventType == "ForkEvent" ==> Summary(e) == who + " forked " + repo)
      && (e.eventType == "IssuesEvent" ==>
            Summary(e) == who + " " + RawActionText(data) + " an issue in " + repo)
      && (e.eventType == "PullRequestEvent" ==>
            Summary(e) == who + " " + RawActionText(data) + " a pull request in " + repo)
      && (e.eventType !in EventTypeTable ==>
            Summary(e) == who + " performed " + e.eventType + " in " + repo)
  {
    ParsedPayload(data, parseIso);
    var e := FromApiResponse(data, parseIso).value;
    SummaryOfPayload(e, data);
  }

  /** `SummaryOfParsedEvent` for any event whose payload was dispatched from the record's payload dict. */
  lemma SummaryOfPayload(e: Event, data: Record)
    requires Get(data, "payload", Dict(map[])).Dict?
    requires Dispatch(Str(e.eventType), Get(data, "payload", Dict(map[]))) == Ok(e.payload)
    ensures e.eventType == "PushEvent" ==>
      Summary(e) == e.actor.login + " pushed " + NatToString(RawCommitCount(data)) + " commit(s) to " + e.repo.name
    ensures e.eventType == "WatchEvent" ==> Summary(e) == e.actor.login + " starred " + e.repo.name
    ensures e.eventType == "CreateEvent" ==>
      Summary(e) == e.actor.login + " created " + RawRefTypeText(data) + " in " + e.repo.name
    ensures e.eventType == "ForkEvent" ==> Summary(e) == e.actor.login + " forked " + e.repo.name
    ensures e.eventType == "IssuesEvent" ==>
      Summary(e) == e.actor.login + " " + RawActionText(data) + " an issue in " + e.repo.name
    ensures e.eventType == "PullRequestEvent" ==>
      Summary(e) == e.actor.login + " " + RawActionText(data) + " a pull request in " + e.repo.name
    ensures e.eventType !in EventTypeTable ==>
      Summary(e) == e.actor.login + " performed " + e.eventType + " in " + e.repo.name
  {
    var p := Get(data, "payload", Dict(map[])).fields;
    var t := e.eventType;
    if t == "CreateEvent" {
      CreateSummaryOfDispatched(e, p);
    } else if t == "PushEvent" || t == "IssuesEvent" || t == "PullRequestEvent" {
      SummaryOfDispatched(e, p);
    } else {
      FixedSummary(e);
    }
  }

  /** The summaries that do not read the payload. */
  lemma FixedSummary(e: Event)
    ensures e.eventType == "WatchEvent" ==> Summary(e) == e.actor.login + " starred " + e.repo.name
    ensures e.eventType == "ForkEvent" ==> Summary(e) == e.actor.login + " forked " + e.repo.name
    ensures e.eventType !in EventTypeTable ==>
      Summary(e) == e.actor.login + " performed " + e.eventType + " in " + e.repo.name
  {
    SummaryAssociates(e.actor.login, " performed ", e.eventType, " in ", e.repo.name);
  }

  /** The summary of a create event whose payload was built from the dict `p`: its `ref_type`, "None" when absent. */
  lemma CreateSummaryOfDispatched(e: Event, p: Record)
    requires e.eventType == "CreateEvent"
    requires Dispatch(Str(e.eventType), Dict(p)) == Ok(e.payload)
    ensures Summary(e) == e.actor.login + " created "
      + (if "ref_type" in p && p["ref_type"].Str? then p["ref_type"].s else "None") + " in " + e.repo.name
  {
    CreateRefTypeRead(p);
    SummaryAssociates(e.actor.login, " created ", RefTypeText(e.payload), " in ", e.repo.name);
  }

  /** The `ref_type` of a create payload as an f-string shows it: "None" when the input has no text there. */
  lemma CreateRefTypeRead(f: Record)
    requires CreateFrom(f).Ok?
    ensures OptStrText(CreateFrom(f).value.refType) ==
      if "ref_type" in f && f["ref_type"].Str? then f["ref_type"].s else "None"
  {
    FieldReadBack(f, "ref_type");
  }

  /** The summary of an event whose payload was built from the dict `p`, for the types whose summary reads the payload. */
  lemma SummaryOfDispatched(e: Event, p: Record)
    requires Dispatch(Str(e.eventType), Dict(p)) == Ok(e.payload)
    ensures e.eventType == "PushEvent" ==>
      Summary(e) == e.actor.login + " pushed "
        + NatToString(if "commits" in p && p["commits"].List? then |p["commits"].items| else 0)
        + " commit(s) to " + e.repo.name
    ensures e.eventType == "IssuesEvent" ==>
      Summary(e) == e.actor.login + " " + (if "action" in p && p["action"].Str? then p["action"].s else "None")
        + " an issue in " + e.repo.name
    ensures e.eventType == "PullRequestEvent" ==>
      Summary(e) == e.actor.login + " " + (if "action" in p && p["action"].Str? then p["action"].s else "None")
        + " a pull request in " + e.repo.name
  {
    if e.eventType == "PushEvent" {
      PushCommitsRead(p);
      SummaryAssociates(e.actor.login, " pushed ", NatToString(CommitCount(e.payload)), " commit(s) to ", e.repo.name);
    } else if e.eventType == "IssuesEvent" {
      IssuesActionRead(p);
      SummaryAssociates(e.actor.login, " ", OptStrText(e.payload.Action()), " an issue in ", e.repo.name);
    } else if e.eventType == "PullRequestEvent" {
      PullRequestActionRead(p);
      SummaryAssociates(e.actor.login, " ", OptStrText(e.payload.Action()), " a pull request in ", e.repo.name);
    }
  }

  /** Regrouping a summary around its middle words. */
  lemma SummaryAssociates(who: string, a: string, x: string, b: string, repo: string)
    ensures who + (a + x + b) + repo == who + a + x + b + repo
  {
  }


  /** The commit count of a push payload is the length of the `commits` list it was built from, 0 without one. */
  lemma PushCommitsRead(f: Record)
    requires PushFrom(f).Ok?
    ensures CommitCount(PushFrom(f).value) ==
      if "commits" in f && f["commits"].List? then |f["commits"].items| else 0
  {
    PushFromFields(f);
  }

  /** The action of an issues payload as an f-string shows it: "None" when the input has no text there. */
  lemma IssuesActionRead(f: Record)
    requires IssuesFrom(f).Ok?
    ensures OptStrText(IssuesFrom(f).value.Action()) ==
      if "action" in f && f["action"].Str? then f["action"].s else "None"
  {
    FieldReadBack(f, "action");
  }

  /** The action of a pull-request payload as an f-string shows it: "None" when the input has no text there. */
  lemma PullRequestActionRead(f: Record)
    requires PullRequestFrom(f).Ok?
    ensures OptStrText(PullRequestFrom(f).value.Action()) ==
      if "action" in f && f["action"].Str? then f["action"].s else "None"
  {
    FieldReadBack(f, "action");
  }

  lemma ParsedPayload(data: Record, parseIso: string -> Option<int>)
    requires FromApiResponse(data, parseIso).Ok?
    ensures var e := FromApiResponse(data, parseIso).value;
      && Get(data, "payload", Dict(map[])).Dict?
      && Dispatch(Str(e.eventType), Get(data, "payload", Dict(map[]))) == Ok(e.payload)
  {
  }
}
