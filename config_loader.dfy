/** Validation of the parsed configuration file (src/config/index.ts),
    over a JSON value as `JSON.parse` produces it. */
module ConfigLoader {
  import opened Wrappers

  /** A JSON value. Numbers are integers in this model. */
  datatype Json =
    | JNull
    | JBool(b: bool)
    | JNumber(n: int)
    | JString(s: string)
    | JArray(elements: seq<Json>)
    | JObject(fields: map<string, Json>)

  /** Property access on a value that is not null: the field of an object,
      otherwise `undefined` (None). */
  function Get(v: Json, key: string): Option<Json> {
    if v.JObject? && key in v.fields then Some(v.fields[key]) else None
  }

  /** JavaScript truthiness of a possibly undefined value. */
  predicate Truthy(v: Option<Json>) {
    match v
    case None => false
    case Some(JNull) => false
    case Some(JBool(b)) => b
    case Some(JNumber(n)) => n != 0
    case Some(JString(s)) => s != ""
    case Some(_) => true
  }

  predicate IsArray(v: Option<Json>) {
    v.Some? && v.value.JArray?
  }

  /** `(!field || <type test>)`: a falsy value passes unchecked. */
  predicate FalsyOr(v: Option<Json>, typeTest: bool) {
    !Truthy(v) || typeTest
  }

  /** The test `every` applies to one source that is not null. */
  predicate SourceShapeOk(source: Json) {
    var kind := Get(source, "type");
    var url := Get(source, "url");
    var keywords := Get(source, "keywords");
    var name := Get(source, "name");
    var weight := Get(source, "weight");
    var useGlobal := Get(source, "useGlobalKeywords");
    && kind == Some(JString("rss"))
    && url.Some? && url.value.JString?
    && FalsyOr(keywords, IsArray(keywords))
    && FalsyOr(name, name.Some? && name.value.JString?)
    && FalsyOr(weight, weight.Some? && weight.value.JNumber?)
    && FalsyOr(useGlobal, useGlobal.Some? && useGlobal.value.JBool?)
  }

  /** `validateConfig` either answers or throws: reading `source.type` of a
      null source raises a TypeError. */
  datatype Verdict = Valid | Invalid | ThrowsTypeError

  /** `sources.every(...)`, which stops at the first source that fails. */
  function EverySource(sources: seq<Json>): Verdict
    decreases |sources|
  {
    if sources == [] then Valid
    else if sources[0] == JNull then ThrowsTypeError
    else if !SourceShapeOk(sources[0]) then Invalid
    else EverySource(sources[1..])
  }

  /** `validateConfig(config)`. */
  function ValidateConfig(config: Json): Verdict {
    if !Truthy(Some(config)) then Invalid
    else if !IsArray(Get(config, "keywords")) then Invalid
    else if !IsArray(Get(config, "sources")) then Invalid
    else EverySource(Get(config, "sources").value.elements)
  }

  /** The whole-list reading of `every`: valid exactly when no source is
      null and every source passes the test. */
  lemma {:induction false} EverySourceValid(sources: seq<Json>)
    ensures EverySource(sources) == Valid <==>
              forall i :: 0 <= i < |sources| ==> sources[i] != JNull && SourceShapeOk(sources[i])
    decreases |sources|
  {
    if sources != [] {
      EverySourceValid(sources[1..]);
      assert forall i :: 1 <= i < |sources| ==> sources[i] == sources[1..][i - 1];
    }
  }

  /** A valid configuration is an object with array `keywords` and
      `sources`, each source has type "rss" and a string url, and the
      optional fields are of their types when truthy. */
  lemma ValidConfigShape(config: Json)
    requires ValidateConfig(config) == Valid
    ensures config.JObject?
    ensures IsArray(Get(config, "keywords")) && IsArray(Get(config, "sources"))
    ensures var sources := Get(config, "sources").value.elements;
            forall i :: 0 <= i < |sources| ==>
              && sources[i] != JNull && SourceShapeOk(sources[i])
              && Get(sources[i], "type") == Some(JString("rss"))
              && Get(sources[i], "url").Some? && Get(sources[i], "url").value.JString?
  {
    EverySourceValid(Get(config, "sources").value.elements);
  }

  /** An object with array `keywords` and an empty `sources` array is valid. */
  lemma EmptySourcesValid(keywords: seq<Json>, fields: map<string, Json>)
    requires "keywords" in fields && fields["keywords"] == JArray(keywords)
    requires "sources" in fields && fields["sources"] == JArray([])
    ensures ValidateConfig(JObject(fields)) == Valid
  {
  }

  /** Falsy optional fields pass: a source whose `keywords`, `name`,
      `weight` and `useGlobalKeywords` are all JSON-falsy is accepted
      whatever their types. */
  lemma FalsyOptionalFieldsPass(source: map<string, Json>, url: string, keywords: Json, name: Json, weight: Json, useGlobal: Json)
    requires source == map["type" := JString("rss"), "url" := JString(url),
                            "keywords" := keywords, "name" := name,
                            "weight" := weight, "useGlobalKeywords" := useGlobal]
    requires !Truthy(Some(keywords)) && !Truthy(Some(name)) && !Truthy(Some(weight)) && !Truthy(Some(useGlobal))
    ensures SourceShapeOk(JObject(source))
  {
  }

  /** Why `loadConfig` throws. */
  datatype LoadError = ReadOrParseFailed | InvalidFormat | ValidationThrew

  /** `loadConfig`: the parsed file (or the reading/parsing failure) in,
      the configuration or the thrown error out. */
  function LoadConfig(parsed: Result<Json, string>): (r: Result<Json, LoadError>)
    ensures r.Ok? <==> parsed.Ok? && ValidateConfig(parsed.value) == Valid
    ensures r.Ok? ==> r.value == parsed.value
    ensures parsed.Ok? && ValidateConfig(parsed.value) == ThrowsTypeError ==> r == Err(ValidationThrew)
  {
    match parsed
    case Err(_) => Err(ReadOrParseFailed)
    case Ok(config) =>
      match ValidateConfig(config)
      case Valid => Ok(config)
      case Invalid => Err(InvalidFormat)
      case ThrowsTypeError => Err(ValidationThrew)
  }
}
