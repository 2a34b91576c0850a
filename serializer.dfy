/**
 * `DataSerializer` (src/util/serializer.py): turning model objects, dates and
 * plain objects into JSON-compatible values, the model-list conversion, and
 * the truncation used when a list is formatted for display.
 */
module Serializer {

  import opened Wrappers
  import opened Text
  import opened Values

  /** `serialize_for_json(data)` */
  function SerializeForJson(v: Value): (r: Value)
    ensures v.List? ==> (r.List? && |r.items| == |v.items| &&
      forall i :: 0 <= i < |v.items| ==> r.items[i] == SerializeForJson(v.items[i]))
    ensures v.Dict? ==> (r.Dict? && r.fields.Keys == v.fields.Keys &&
      forall k :: k in v.fields ==> r.fields[k] == SerializeForJson(v.fields[k]))
    ensures v.Instance? ==> (r.Dict? && r.fields.Keys == v.attrs.Keys &&
      forall k :: k in v.attrs ==> r.fields[k] == SerializeForJson(v.attrs[k]))
    ensures v.Model? ==> r == v.dump
    ensures v.DateTime? || v.Date? ==> r == Str(v.iso)
    ensures Scalar(v) ==> r == v
    decreases v
  {
    match v
    case Model(dump) => dump
    case List(xs) => List(seq(|xs|, i requires 0 <= i < |xs| => SerializeForJson(xs[i])))
    case Dict(m) => Dict(map k | k in m :: SerializeForJson(m[k]))
    case DateTime(iso) => Str(iso)
    case Date(iso) => Str(iso)
    case Instance(attrs) => Dict(map k | k in attrs :: SerializeForJson(attrs[k]))
    case _ => v
  }

  /** None, booleans, integers and strings: what the final `else` branch returns unchanged. */
  predicate Scalar(v: Value) {
    v.Null? || v.Bool? || v.Int? || v.Str?
  }

  /** Values made only of scalars, lists and dicts: what `json.dumps` accepts without `default=str`. */
  predicate JsonCompatible(v: Value)
    decreases v
  {
    match v
    case List(xs) => forall i :: 0 <= i < |xs| ==> JsonCompatible(xs[i])
    case Dict(m) => forall k :: k in m ==> JsonCompatible(m[k])
    case _ => Scalar(v)
  }

  /** Values with no pydantic model anywhere inside. */
  predicate ModelFree(v: Value)
    decreases v
  {
    match v
    case Model(_) => false
    case List(xs) => forall i :: 0 <= i < |xs| ==> ModelFree(xs[i])
    case Dict(m) => forall k :: k in m ==> ModelFree(m[k])
    case Instance(attrs) => forall k :: k in attrs ==> ModelFree(attrs[k])
    case _ => true
  }

  /** Without models inside, one pass leaves nothing JSON cannot hold. */
  lemma {:induction false} SerializeModelFreeIsJson(v: Value)
    requires ModelFree(v)
    ensures JsonCompatible(SerializeForJson(v))
    decreases v
  {
    match v {
      case List(xs) =>
        forall i | 0 <= i < |xs| ensures JsonCompatible(SerializeForJson(v).items[i]) {
          SerializeModelFreeIsJson(xs[i]);
        }
      case Dict(m) =>
        forall k | k in m ensures JsonCompatible(SerializeForJson(v).fields[k]) {
          SerializeModelFreeIsJson(m[k]);
        }
      case Instance(attrs) =>
        forall k | k in attrs ensures JsonCompatible(SerializeForJson(v).fields[k]) {
          SerializeModelFreeIsJson(attrs[k]);
        }
      case _ =>
    }
  }

  /** A JSON-compatible value is a fixed point. */
  lemma {:induction false} SerializeKeepsJson(v: Value)
    requires JsonCompatible(v)
    ensures SerializeForJson(v) == v
    decreases v
  {
    match v {
      case List(xs) =>
        forall i | 0 <= i < |xs| ensures SerializeForJson(v).items[i] == xs[i] {
          SerializeKeepsJson(xs[i]);
        }
      case Dict(m) =>
        forall k | k in m ensures SerializeForJson(v).fields[k] == m[k] {
          SerializeKeepsJson(m[k]);
        }
      case _ =>
    }
  }

  /** Serializing twice is serializing once, for inputs without models. */
  lemma SerializeIdempotentWithoutModels(v: Value)
    requires ModelFree(v)
    ensures SerializeForJson(SerializeForJson(v)) == SerializeForJson(v)
  {
    SerializeModelFreeIsJson(v);
    SerializeKeepsJson(SerializeForJson(v));
  }

  /**
   * A model's dump is returned as it is, so a datetime inside it survives the
   * first pass and only a second pass turns it into text: the function is
   * not idempotent in general.
   */
  lemma SerializeNotIdempotent(iso: string)
    ensures SerializeForJson(Model(DateTime(iso))) == DateTime(iso)
    ensures SerializeForJson(SerializeForJson(Model(DateTime(iso)))) == Str(iso)
  {
  }

  // ---------------------------------------------------------------------------
  // convert_pydantic_list_to_dict_list
  // ---------------------------------------------------------------------------

  /** `[model.model_dump() for model in models]`; anything without `model_dump` raises AttributeError. */
  function ConvertModelList(models: seq<Value>): (r: Result<seq<Value>, PyError>)
    ensures r.Ok? <==> forall i :: 0 <= i < |models| ==> models[i].Model?
    ensures r.Ok? ==> |r.value| == |models| && forall i :: 0 <= i < |models| ==> r.value[i] == models[i].dump
  {
    if models == [] then Ok([])
    else if !models[0].Model? then Err(AttributeError("model_dump"))
    else
      match ConvertModelList(models[1..])
      case Ok(rest) => Ok([models[0].dump] + rest)
      case Err(e) => Err(e)
  }

  /** On a list of models the conversion agrees with `serialize_for_json`. */
  lemma ModelListAgreesWithSerializer(models: seq<Value>)
    requires forall i :: 0 <= i < |models| ==> models[i].Model?
    ensures ConvertModelList(models) == Ok(SerializeForJson(List(models)).items)
  {
    var r := ConvertModelList(models);
    var items := SerializeForJson(List(models)).items;
    assert r.Ok?;
    assert |r.value| == |items|;
    forall i | 0 <= i < |models| ensures r.value[i] == items[i] {
      assert items[i] == SerializeForJson(models[i]);
    }
    assert r.value == items;
    assert r == Ok(r.value);
  }

  // ---------------------------------------------------------------------------
  // format_data_for_display
  // ---------------------------------------------------------------------------

  /** Python's `xs[:n]`: a negative `n` counts from the end. */
  function Take<T>(xs: seq<T>, n: int): (r: seq<T>)
    ensures r <= xs
    ensures 0 <= n <= |xs| ==> |r| == n
    ensures n >= |xs| ==> r == xs
    ensures -|xs| <= n < 0 ==> |r| == |xs| + n
    ensures n <= -|xs| ==> r == []
  {
    if n >= 0 then xs[..if n <= |xs| then n else |xs|]
    else xs[..if |xs| + n >= 0 then |xs| + n else 0]
  }

  /** The note appended after a cut list. */
  function TruncationNote(maxItems: int, total: nat): string {
    "\n... (显示前 " + IntToString(maxItems) + " 项，共 " + NatToString(total) + " 项)"
  }

  /** What gets dumped, and what is appended after the dump. */
  datatype DisplayParts = DisplayParts(shown: Value, suffix: string)

  function DisplayPartsOf(data: Value, maxItems: int): DisplayParts {
    if data.List? && |data.items| > maxItems then
      DisplayParts(SerializeForJson(List(Take(data.items, maxItems))), TruncationNote(maxItems, |data.items|))
    else
      DisplayParts(SerializeForJson(data), "")
  }

  /**
   * `format_data_for_display(data, max_items)`. `json.dumps(..., indent=2,
   * ensure_ascii=False, default=str)` is the parameter `dumps`.
   */
  function FormatDataForDisplay(data: Value, maxItems: int, dumps: Value -> string): (r: string)
    ensures data.List? && |data.items| > maxItems ==>
      r == dumps(SerializeForJson(List(Take(data.items, maxItems)))) + TruncationNote(maxItems, |data.items|)
    ensures !data.List? || |data.items| <= maxItems ==> r == dumps(SerializeForJson(data))
  {
    var parts := DisplayPartsOf(data, maxItems);
    dumps(parts.shown) + parts.suffix
  }

  /** A list longer than the limit shows its first `maxItems` elements and names both numbers. */
  lemma LongListIsCut(xs: seq<Value>, maxItems: nat)
    requires |xs| > maxItems
    ensures DisplayPartsOf(List(xs), maxItems).shown == SerializeForJson(List(xs[..maxItems]))
    ensures |DisplayPartsOf(List(xs), maxItems).shown.items| == maxItems
    ensures DisplayPartsOf(List(xs), maxItems).suffix == TruncationNote(maxItems, |xs|)
  {
  }

  /** A list within the limit, and anything that is not a list, is shown whole with no note. */
  lemma ShortListIsWhole(data: Value, maxItems: int)
    requires !data.List? || |data.items| <= maxItems
    ensures DisplayPartsOf(data, maxItems) == DisplayParts(SerializeForJson(data), "")
  {
  }

  /** A negative limit drops that many elements from the end, as slicing does. */
  lemma NegativeLimitDropsFromEnd(xs: seq<Value>, k: nat)
    requires 0 < k <= |xs|
    ensures DisplayPartsOf(List(xs), -(k as int)).shown == SerializeForJson(List(xs[..|xs| - k]))
  {
  }
}
