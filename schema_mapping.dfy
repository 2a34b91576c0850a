/**
 * From model types to business models and extraction schemas
 * (src/model/github/schema_mapping.py).
 */
module SchemaMapping {

  import opened Wrappers
  import opened Values
  import opened Enums
  import opened Extraction

  /** The business model classes. */
  datatype BusinessModel = ActivityModel | RepositoryModel | UserProfileModel

  /** `BUSINESS_MODEL_MAP` */
  const BusinessModelMap: map<ModelType, BusinessModel> :=
    map[Activity := ActivityModel, Repository := RepositoryModel, UserProfile := UserProfileModel]

  /** `EXTRACTION_SCHEMA_MAP` */
  const ExtractionSchemaMap: map<ModelType, Schema> :=
    map[Activity := ActivityExtraction, Repository := RepositoryExtraction, UserProfile := UserProfileExtraction]

  /** `SIMPLE_EXTRACTION_MAP` */
  const SimpleExtractionMap: map<ModelType, Schema> :=
    map[Activity := SimpleActivity, Repository := RepositoryExtraction, UserProfile := UserProfileExtraction]

  /** `get_business_model(model_type)`; the ValueError branch is kept although every member is mapped. */
  function GetBusinessModel(t: ModelType): (r: Result<BusinessModel, PyError>)
    ensures r.Ok?
    ensures t == Activity ==> r.value == ActivityModel
    ensures t == Repository ==> r.value == RepositoryModel
    ensures t == UserProfile ==> r.value == UserProfileModel
  {
    assert t in BusinessModelMap by {
      assert t == Activity || t == Repository || t == UserProfile;
    }
    if t !in BusinessModelMap then Err(ValueError("unsupported model type")) else Ok(BusinessModelMap[t])
  }

  /** `get_extraction_schema(model_type, simple)` */
  function GetExtractionSchema(t: ModelType, simple: bool): (r: Result<Schema, PyError>)
    ensures r.Ok? && r.value != BaseExtraction
    ensures t != Activity ==> r.value == if t == Repository then RepositoryExtraction else UserProfileExtraction
    ensures t == Activity ==> r.value == if simple then SimpleActivity else ActivityExtraction
  {
    var schemaMap := if simple then SimpleExtractionMap else ExtractionSchemaMap;
    assert t in schemaMap by {
      assert t == Activity || t == Repository || t == UserProfile;
    }
    if t !in schemaMap then Err(ValueError("unsupported model type")) else Ok(schemaMap[t])
  }

  /** The simple and the standard maps disagree only at ACTIVITY. */
  lemma SimpleDiffersOnlyAtActivity(t: ModelType)
    ensures GetExtractionSchema(t, true) == GetExtractionSchema(t, false) <==> t != Activity
  {
  }

  /** `get_extraction_instruction(model_type, simple)` */
  function GetExtractionInstruction(t: ModelType, simple: bool): (r: Result<Instruction, PyError>)
    ensures r.Ok? && r.value.writtenBy == GetExtractionSchema(t, simple).value
  {
    match GetExtractionSchema(t, simple)
    case Ok(schema) => InstructionOf(schema)
    case Err(e) => Err(e)
  }

  /**
   * The standard map agrees with the string-keyed lookup in the extraction
   * module when the key is the model type's value.
   */
  lemma StandardMapAgreesWithKeyLookup(t: ModelType)
    ensures GetExtractionSchema(t, false) == Ok(SchemaForKey(t.Value()))
  {
  }

  /** `convert_extraction_to_business`: the data is passed through untouched. */
  function ConvertExtractionToBusiness(data: Record, t: ModelType): (r: Record)
    ensures r == data
  {
    data
  }
}
