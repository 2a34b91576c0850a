/**
 * The loosely typed data the crawler passes around: JSON records from the
 * GitHub REST API or from LLM extraction, plus the few Python objects that
 * reach the serializer (datetimes, dates, pydantic models, plain objects).
 * Python truthiness, `dict.get`, `str()` and `int()` over these values.
 */
module Values {

  import opened Wrappers
  import opened Text

  datatype Value =
    | Null
    | Bool(b: bool)
    | Int(i: int)
    | Str(s: string)
    | List(items: seq<Value>)
    | Dict(fields: map<string, Value>)
    /** a `datetime`; `iso` is what its `isoformat()` returns */
    | DateTime(iso: string)
    /** a `date`; `iso` is what its `isoformat()` returns */
    | Date(iso: string)
    /** a pydantic model; `dump` is what its `model_dump()` returns */
    | Model(dump: Value)
    /** any other object, by its `__dict__` */
    | Instance(attrs: map<string, Value>)

  /** The exceptions the modelled code can raise. */
  datatype PyError =
    | KeyError(key: string)
    | TypeError(what: string)
    | ValueError(what: string)
    | AttributeError(name: string)
    /** pydantic rejected the value of a field, or a required field is missing */
    | ValidationError(field: string)
    | NotImplementedError(what: string)

  type Record = map<string, Value>

  /** Python's `bool(v)`. Objects without `__len__` or `__bool__` are true. */
  predicate Truthy(v: Value) {
    match v
    case Null => false
    case Bool(b) => b
    case Int(i) => i != 0
    case Str(s) => s != ""
    case List(xs) => xs != []
    case Dict(m) => m != map[]
    case _ => true
  }

  /** `d.get(k, default)` */
  function Get(d: Record, k: string, default: Value): (r: Value)
    ensures k in d ==> r == d[k]
    ensures k !in d ==> r == default
  {
    if k in d then d[k] else default
  }

  /** Python's `a or b`. */
  function Or(a: Value, b: Value): (r: Value)
    ensures Truthy(a) ==> r == a
    ensures !Truthy(a) ==> r == b
  {
    if Truthy(a) then a else b
  }

  /**
   * `str(v)`, which is also what an f-string inserts. Lists, dicts, models and
   * objects are written as a fixed placeholder (their `repr` is not modelled).
   */
  function Display(v: Value): string {
    match v
    case Null => "None"
    case Bool(b) => if b then "True" else "False"
    case Int(i) => IntToString(i)
    case Str(s) => s
    case DateTime(iso) => ReplaceChar(iso, 'T', " ")
    case Date(iso) => iso
    case _ => "<object>"
  }

  /** `int(v)`: ValueError for a string that is not a decimal literal, TypeError for None and containers. */
  function PyInt(v: Value): (r: Result<int, PyError>)
    ensures v.Int? ==> r == Ok(v.i)
    ensures v.Str? ==> (r.Ok? <==> ParseInt(v.s).Some?)
    ensures v.Str? && r.Ok? ==> r.value == ParseInt(v.s).value
    ensures (v.Null? || v.List? || v.Dict?) ==> r.Err?
  {
    match v
    case Bool(b) => Ok(if b then 1 else 0)
    case Int(i) => Ok(i)
    case Str(s) =>
      (match ParseInt(s)
       case Some(n) => Ok(n)
       case None => Err(ValueError("invalid literal for int() with base 10")))
    case _ => Err(TypeError("int() argument must be a string or a number"))
  }

  /** The count idiom `int(d.get(k, '0') or '0')`. */
  function CountField(d: Record, k: string): (r: Result<int, PyError>)
    ensures !Truthy(Get(d, k, Str("0"))) ==> r == Ok(0)
    ensures k in d && d[k].Str? && d[k].s != "" ==> r == PyInt(d[k])
  {
    var v := Or(Get(d, k, Str("0")), Str("0"));
    assert !Truthy(Get(d, k, Str("0"))) ==> PyInt(v) == Ok(0) by {
      ParseIntOfZero();
    }
    PyInt(v)
  }

  /** A missing, empty or None count is 0 and a written-out number is read back. */
  lemma {:induction false} CountFieldOfNumber(d: Record, k: string, n: int)
    requires k in d && d[k] == Str(IntToString(n))
    ensures CountField(d, k) == Ok(n)
  {
    ParseIntOfIntToString(n);
  }

  /** A thousands separator is not understood: `int("1,024")` raises. */
  lemma CountFieldRejectsSeparator(d: Record, k: string)
    requires k in d && d[k] == Str("1,024")
    ensures CountField(d, k).Err?
  {
    ThousandsSeparatorRejected();
  }

  /** Values `hash()` accepts: lists, dicts and pydantic models are unhashable. */
  predicate Hashable(v: Value) {
    !(v.List? || v.Dict? || v.Model?)
  }
}
