/**
 * The LLM extraction schemas (src/model/github/extraction.py): which fields
 * each schema declares and their defaults, how a record is read into a
 * schema, each schema's instruction, the extraction configuration, and the
 * lookup of a schema by key.
 */
module Extraction {

  import opened Wrappers
  import opened Values

  /** The schema classes: the abstract base and its four subclasses. */
  datatype Schema =
    | BaseExtraction
    | ActivityExtraction
    | RepositoryExtraction
    | UserProfileExtraction
    | SimpleActivity

  /** The declared field names, in declaration order. */
  function FieldNames(s: Schema): (r: seq<string>)
    ensures r == [] <==> s == BaseExtraction
  {
    match s
    case BaseExtraction => []
    case ActivityExtraction =>
      ["type", "timestamp", "actor_username", "actor_avatar", "repository_name",
       "repository_url", "repository_description", "action_description", "commit_count", "branch_name"]
    case RepositoryExtraction =>
      ["name", "full_name", "description", "url", "owner_username", "owner_type", "language", "topics",
       "stars", "forks", "watchers", "open_issues", "created_at", "updated_at", "pushed_at",
       "private", "fork", "archived"]
    case UserProfileExtraction =>
      ["username", "display_name", "bio", "avatar_url", "location", "company", "website", "twitter",
       "email", "followers", "following", "public_repos", "public_gists", "account_type", "created_at",
       "organizations"]
    case SimpleActivity => ["repositories", "date", "activity_type", "description"]
  }

  /** A field's default: None for a required field (declared with `...`). */
  function Default(s: Schema, k: string): (r: Option<Value>)
    ensures r.Some? ==> k in FieldNames(s)
  {
    match s
    case BaseExtraction => None
    case ActivityExtraction =>
      if k in {"actor_avatar", "repository_description", "commit_count", "branch_name"} then Some(Null)
      else None
    case RepositoryExtraction =>
      if k in {"stars", "forks", "watchers", "open_issues"} then Some(Str("0"))
      else if k in {"private", "fork", "archived"} then Some(Str("false"))
      else if k == "owner_type" then Some(Str("User"))
      else if k == "topics" then Some(List([]))
      else if k in {"description", "language", "pushed_at"} then Some(Null)
      else None
    case UserProfileExtraction =>
      if k in {"followers", "following", "public_repos", "public_gists"} then Some(Str("0"))
      else if k == "account_type" then Some(Str("User"))
      else if k == "organizations" then Some(List([]))
      else if k in {"display_name", "bio", "avatar_url", "location", "company", "website", "twitter", "email"} then Some(Null)
      else None
    case SimpleActivity => None
  }

  /** The first required field, in declaration order, that `data` lacks. */
  function FirstMissing(names: seq<string>, s: Schema, data: Record): (r: Option<string>)
    ensures r.None? <==> forall i :: 0 <= i < |names| && Default(s, names[i]).None? ==> names[i] in data
    ensures r.Some? ==> r.value in names && Default(s, r.value).None? && r.value !in data
  {
    if names == [] then None
    else if Default(s, names[0]).None? && names[0] !in data then Some(names[0])
    else
      var rest := FirstMissing(names[1..], s, data);
      assert forall i :: 1 <= i < |names| ==> names[i] == names[1..][i - 1];
      rest
  }

  /**
   * `Schema(**data)`: every declared field takes its value from `data` or
   * its default, keys the schema does not declare are dropped, and a
   * missing required field is a validation error. Field types are not
   * checked.
   */
  function Instantiate(s: Schema, data: Record): (r: Result<Record, PyError>)
    ensures r.Ok? <==> forall k :: k in FieldNames(s) && Default(s, k).None? ==> k in data
    ensures r.Ok? ==> r.value.Keys == set k | k in FieldNames(s)
    ensures r.Ok? ==> forall k :: k in FieldNames(s) && k in data ==> r.value[k] == data[k]
    ensures r.Ok? ==> forall k :: k in FieldNames(s) && k !in data ==> Default(s, k).Some? && r.value[k] == Default(s, k).value
    ensures r.Err? ==> r.error.ValidationError? && r.error.field in FieldNames(s) && r.error.field !in data
  {
    match FirstMissing(FieldNames(s), s, data)
    case Some(k) => Err(ValidationError(k))
    case None =>
      Ok(map k | k in FieldNames(s) :: if k in data then data[k] else Default(s, k).value)
  }

  /** A repository count or flag the extraction left out is the text "0" or "false", not a number or a boolean. */
  lemma RepositoryTextDefaults(data: Record, k: string)
    requires Instantiate(RepositoryExtraction, data).Ok? && k !in data
    requires k in {"stars", "forks", "watchers", "open_issues", "private", "fork", "archived"}
    ensures Instantiate(RepositoryExtraction, data).value[k] ==
      if k in {"private", "fork", "archived"} then Str("false") else Str("0")
  {
    assert k in FieldNames(RepositoryExtraction);
  }

  /** A user count the extraction left out is the text "0". */
  lemma UserProfileCountDefaults(data: Record, k: string)
    requires Instantiate(UserProfileExtraction, data).Ok? && k !in data
    requires k in {"followers", "following", "public_repos", "public_gists"}
    ensures Instantiate(UserProfileExtraction, data).value[k] == Str("0")
  {
    assert k in FieldNames(UserProfileExtraction);
  }

  /** Every field of the simple activity schema is required. */
  lemma SimpleActivityNeedsAllFields(data: Record)
    ensures Instantiate(SimpleActivity, data).Ok? <==>
      "repositories" in data && "date" in data && "activity_type" in data && "description" in data
  {
  }

  // ---------------------------------------------------------------------------
  // Instructions and the extraction configuration
  // ---------------------------------------------------------------------------

  /** The instruction text a schema class declares; the text itself is not reproduced. */
  datatype Instruction = Instruction(writtenBy: Schema)

  /** `get_extraction_instruction()`: the base class raises, every subclass has its own. */
  function InstructionOf(s: Schema): (r: Result<Instruction, PyError>)
    ensures r.Err? <==> s == BaseExtraction
    ensures r.Err? ==> r.error.NotImplementedError?
    ensures r.Ok? ==> r.value.writtenBy == s
  {
    if s == BaseExtraction then Err(NotImplementedError("get_extraction_instruction"))
    else Ok(Instruction(s))
  }

  /** The dict `create_extraction_config()` returns, one field per key. */
  datatype ExtractionConfig = ExtractionConfig(schema: Value, instruction: Instruction, extractionType: string)

  /**
   * `create_extraction_config()`. The JSON schema pydantic generates is the
   * parameter `jsonSchema`.
   */
  function CreateExtractionConfig(s: Schema, jsonSchema: Schema -> Value): (r: Result<ExtractionConfig, PyError>)
    ensures r.Ok? <==> InstructionOf(s).Ok?
    ensures r.Ok? ==> r.value.schema == jsonSchema(s) && r.value.instruction == InstructionOf(s).value
    ensures r.Ok? ==> r.value.extractionType == "schema"
  {
    var instruction :- InstructionOf(s);
    Ok(ExtractionConfig(jsonSchema(s), instruction, "schema"))
  }

  // ---------------------------------------------------------------------------
  // EXTRACTION_SCHEMAS and get_extraction_schema
  // ---------------------------------------------------------------------------

  /** `EXTRACTION_SCHEMAS.get(model_type, SimpleActivitySchema)` */
  function SchemaForKey(key: string): (r: Schema)
    ensures key !in {"activity", "repository", "user_profile"} ==> r == SimpleActivity
    ensures r != BaseExtraction
  {
    if key == "activity" then ActivityExtraction
    else if key == "repository" then RepositoryExtraction
    else if key == "user_profile" then UserProfileExtraction
    else if key == "simple_activity" then SimpleActivity
    else SimpleActivity
  }

  /** Every schema the lookup can return has an instruction, so its configuration can be built. */
  lemma LookedUpSchemaHasConfig(key: string, jsonSchema: Schema -> Value)
    ensures CreateExtractionConfig(SchemaForKey(key), jsonSchema).Ok?
  {
  }
}
