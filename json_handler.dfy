/**
 * The JSON handler of the file analyzer: the full document for small files,
 * the schema of the document for large ones, and the generic-text sniff for
 * files that are not valid JSON.
 */
module JsonHandler {
  import opened Wrappers
  import opened Utf8
  import opened Text
  import opened JsonValue
  import opened Analysis
  import opened TextHandlers

  /** The depth past which `get_json_schema` stops descending. */
  const MaxSchemaDepth := 5

  /**
   * `get_json_schema(data, depth)`: "..." below depth 5; a dict maps to a
   * dict with the same keys; a non-empty list to the one-element list of its
   * first item's schema; an empty list to "list[]"; anything else to its
   * type name.
   */
  function GetJsonSchema(j: Json, depth: nat): Json
    decreases MaxSchemaDepth + 1 - depth
  {
    if depth > MaxSchemaDepth then JStr("...")
    else
      match j
      case JObj(fields) => JObj(map k | k in fields :: GetJsonSchema(fields[k], depth + 1))
      case JArr(items) => if |items| > 0 then JArr([GetJsonSchema(items[0], depth + 1)]) else JStr("list[]")
      case _ => JStr(TypeName(j))
  }

  /**
   * A schema of height at most `h`: its leaves are strings, every list in it
   * has exactly one element, and it nests at most `h` lists and dicts.
   */
  predicate SchemaShaped(s: Json, h: nat)
    decreases h
  {
    match s
    case JStr(_) => true
    case JArr(items) => h > 0 && |items| == 1 && SchemaShaped(items[0], h - 1)
    case JObj(fields) => h > 0 && forall k :: k in fields ==> SchemaShaped(fields[k], h - 1)
    case _ => false
  }

  /**
   * Whatever the document, its schema from depth `d` is a tree of strings,
   * one-element lists and dicts of height at most `6 - d`.
   */
  lemma {:induction false} SchemaIsShaped(j: Json, depth: nat)
    requires depth <= MaxSchemaDepth + 1
    ensures SchemaShaped(GetJsonSchema(j, depth), MaxSchemaDepth + 1 - depth)
    decreases MaxSchemaDepth + 1 - depth
  {
    if depth <= MaxSchemaDepth {
      match j
      case JObj(fields) =>
        var r := GetJsonSchema(j, depth);
        forall k | k in r.fields
          ensures SchemaShaped(r.fields[k], MaxSchemaDepth - depth)
        {
          SchemaIsShaped(fields[k], depth + 1);
        }
      case JArr(items) =>
        if |items| > 0 {
          SchemaIsShaped(items[0], depth + 1);
        }
      case _ =>
    }
  }

  /** A dict's schema is a dict with exactly its keys, each mapped to the schema of its value one level down. */
  lemma {:induction false} SchemaOfObject(fields: map<string, Json>, depth: nat)
    requires depth <= MaxSchemaDepth
    ensures var r := GetJsonSchema(JObj(fields), depth);
      r.JObj? && r.fields.Keys == fields.Keys
      && forall k :: k in fields ==> r.fields[k] == GetJsonSchema(fields[k], depth + 1)
  {
  }

  /** A list's schema describes only its first item; a scalar's is its type name; deep values are elided. */
  lemma {:induction false} SchemaOfOthers(j: Json, depth: nat)
    ensures depth > MaxSchemaDepth ==> GetJsonSchema(j, depth) == JStr("...")
    ensures depth <= MaxSchemaDepth && j.JArr? && |j.items| > 0 ==>
      GetJsonSchema(j, depth) == JArr([GetJsonSchema(j.items[0], depth + 1)])
    ensures depth <= MaxSchemaDepth && j.JArr? && |j.items| == 0 ==> GetJsonSchema(j, depth) == JStr("list[]")
    ensures depth <= MaxSchemaDepth && !j.JArr? && !j.JObj? ==> GetJsonSchema(j, depth) == JStr(TypeName(j))
  {
  }

  /** Lists that agree on their first item have the same schema. */
  lemma {:induction false} SchemaIgnoresTail(x: Json, rest1: seq<Json>, rest2: seq<Json>, depth: nat)
    ensures GetJsonSchema(JArr([x] + rest1), depth) == GetJsonSchema(JArr([x] + rest2), depth)
  {
  }

  /**
   * `summarize_json`. The file is read as strict UTF-8 text; a decoding
   * error or a document `json.load` rejects falls back to the generic-text
   * sniff, and any other failure (the file cannot be opened) gives an error
   * summary.
   */
  function SummarizeJson(a: Analyzer, codec: Codec): (r: Result<Summary>)
  {
    match a.file.readError
    case Some(e) => Ok(Failure("Could not parse JSON: " + e))
    case None =>
      match Decode(a.file.bytes)
      case Err(_) => AnalyzeGenericText(a)
      case Ok(text) =>
        match codec.loads(UniversalNewlines(text))
        case Err(_) => AnalyzeGenericText(a)
        case Ok(j) =>
          if a.size <= MaxJsonPreviewSize then Ok(FullContent(j))
          else Ok(JsonSchema(GetJsonSchema(j, 0)))
  }

  /** The document as `json.load` reads it from the file, if it is valid UTF-8 and valid JSON. */
  function Document(a: Analyzer, codec: Codec): Option<Json> {
    match Decode(a.file.bytes)
    case Err(_) => None
    case Ok(text) =>
      match codec.loads(UniversalNewlines(text))
      case Err(_) => None
      case Ok(j) => Some(j)
  }

  /**
   * A readable JSON file gives its document in full up to 5 KiB and its
   * schema beyond; a file that is not JSON gets exactly the generic-text
   * result; the handler raises only where the generic sniff does, which
   * needs the file readable, so it never raises.
   */
  lemma {:induction false} JsonOutcomes(a: Analyzer, codec: Codec)
    ensures a.file.readError.Some? ==> SummarizeJson(a, codec) == Ok(Failure("Could not parse JSON: " + a.file.readError.value))
    ensures a.file.readError.None? && Document(a, codec).Some? && a.size <= MaxJsonPreviewSize ==>
      SummarizeJson(a, codec) == Ok(FullContent(Document(a, codec).value))
    ensures a.file.readError.None? && Document(a, codec).Some? && a.size > MaxJsonPreviewSize ==>
      SummarizeJson(a, codec) == Ok(JsonSchema(GetJsonSchema(Document(a, codec).value, 0)))
    ensures a.file.readError.None? && Document(a, codec).None? ==> SummarizeJson(a, codec) == AnalyzeGenericText(a)
    ensures SummarizeJson(a, codec).Ok?
  {
    GenericTextOutcomes(a);
  }

  /** A large document's summary is a well-shaped schema of height at most 6. */
  lemma {:induction false} LargeJsonSchemaShaped(a: Analyzer, codec: Codec)
    requires a.file.readError.None? && Document(a, codec).Some? && a.size > MaxJsonPreviewSize
    ensures SummarizeJson(a, codec).value.JsonSchema?
    ensures SchemaShaped(SummarizeJson(a, codec).value.schema, MaxSchemaDepth + 1)
  {
    SchemaIsShaped(Document(a, codec).value, 0);
  }
}
