/** The whitelists that error details pass on their way out: the server's exception handlers, then the CLI. */
module ErrorDetails {
  import opened Prelude
  import opened JsonValues

  /** The keys the server's exception handlers let through. */
  const SERVER_KEYS := {
    "accepted_media_types", "allowed", "backend", "code", "driver", "error_type", "errors", "field", "input_type",
    "job_id", "max_upload_bytes", "message", "minimum", "operation", "path", "pipeline_type", "size_bytes", "status",
    "supported_values", "type"
  }

  /** The keys the CLI lets through. */
  const CLI_KEYS := {
    "accepted_media_types", "allowed", "backend", "code", "driver", "error_type", "errors", "field", "input_type",
    "job_id", "max_upload_bytes", "message", "minimum", "operation", "path", "pipeline_type", "size_bytes", "status",
    "supported_values", "type"
  }

  /**
   The server's filter of one value. Sequences become lists; what is neither scalar, mapping nor sequence is dropped.
   */
  function SanitizeValue(keys: set<string>, v: Value): Value {
    match v
    case Obj(fields) => Obj(map k | k in fields && k in keys :: SanitizeValue(keys, fields[k]))
    case List(items) => List(seq(|items|, i requires 0 <= i < |items| => SanitizeValue(keys, items[i])))
    case Tuple(items) => List(seq(|items|, i requires 0 <= i < |items| => SanitizeValue(keys, items[i])))
    case _ => if Scalar(v) then v else Null
  }

  /** The server's filter of the details of an error. */
  function SanitizeDetails(keys: set<string>, v: Value): Value {
    if v.Obj? then SanitizeValue(keys, v) else Obj(map[])
  }

  /** The CLI's filter of one value of a decoded response. It knows no tuples. */
  function CliValue(keys: set<string>, v: Value): Value {
    match v
    case Obj(fields) => Obj(map k | k in fields && k in keys :: CliValue(keys, fields[k]))
    case List(items) => List(seq(|items|, i requires 0 <= i < |items| => CliValue(keys, items[i])))
    case _ => if Scalar(v) then v else Null
  }

  function CliDetails(keys: set<string>, v: Value): Value {
    if v.Obj? then CliValue(keys, v) else Obj(map[])
  }

  /** JSON in which every key, at every depth, is one of `keys`. */
  predicate Public(keys: set<string>, v: Value) {
    match v
    case Obj(fields) => forall k :: k in fields ==> k in keys && Public(keys, fields[k])
    case List(items) => forall i :: 0 <= i < |items| ==> Public(keys, items[i])
    case _ => Scalar(v)
  }

  lemma KeysAgree()
    ensures SERVER_KEYS == CLI_KEYS
  {
  }

  /** The server's filter lets out public values only. */
  lemma {:induction false} SanitizedIsPublic(keys: set<string>, v: Value)
    ensures Public(keys, SanitizeValue(keys, v))
  {
    match v
    case Obj(fields) =>
      forall k | k in fields && k in keys ensures Public(keys, SanitizeValue(keys, fields[k])) {
        SanitizedIsPublic(keys, fields[k]);
      }
    case List(items) =>
      forall i | 0 <= i < |items| ensures Public(keys, SanitizeValue(keys, items[i])) {
        SanitizedIsPublic(keys, items[i]);
      }
    case Tuple(items) =>
      forall i | 0 <= i < |items| ensures Public(keys, SanitizeValue(keys, items[i])) {
        SanitizedIsPublic(keys, items[i]);
      }
    case _ =>
  }

  /** The CLI's filter keeps a value exactly when it is public already. */
  lemma {:induction false} CliKeepsExactlyPublic(keys: set<string>, v: Value)
    ensures CliValue(keys, v) == v <==> Public(keys, v)
  {
    match v
    case Obj(fields) =>
      forall k | k in fields && k in keys ensures CliValue(keys, fields[k]) == fields[k] <==> Public(keys, fields[k]) {
        CliKeepsExactlyPublic(keys, fields[k]);
      }
      var kept := CliValue(keys, v).fields;
      assert forall k :: k in kept ==> kept[k] == CliValue(keys, fields[k]);
      if Public(keys, v) {
        assert kept == fields;
      } else {
        var k :| k in fields && !(k in keys && Public(keys, fields[k]));
        assert kept != fields by { assert k in kept ==> kept[k] != fields[k]; }
      }
    case List(items) =>
      forall i | 0 <= i < |items| ensures CliValue(keys, items[i]) == items[i] <==> Public(keys, items[i]) {
        CliKeepsExactlyPublic(keys, items[i]);
      }
      var kept := CliValue(keys, v).items;
      assert forall i :: 0 <= i < |items| ==> kept[i] == CliValue(keys, items[i]);
      if Public(keys, v) {
        assert kept == items;
      }
    case _ =>
  }

  /** The CLI shows the error details the server sent, unchanged at any depth, and never an unlisted key. */
  lemma CliShowsServerDetails(v: Value)
    ensures var sent := SanitizeDetails(SERVER_KEYS, v);
      && Public(SERVER_KEYS, sent)
      && CliDetails(CLI_KEYS, sent) == sent
  {
    KeysAgree();
    SanitizedIsPublic(SERVER_KEYS, v);
    CliKeepsExactlyPublic(CLI_KEYS, SanitizeDetails(SERVER_KEYS, v));
  }

  /** A list of names that leads from the details to one value. */
  function At(v: Value, path: seq<string>): Option<Value>
    decreases |path|
  {
    if path == [] then Some(v)
    else if v.Obj? && path[0] in v.fields then At(v.fields[path[0]], path[1..])
    else None
  }

  /** Filtering loses nothing that is listed: along listed keys, the filtered details hold the filtered values. */
  lemma {:induction false} ListedPathsSurvive(keys: set<string>, v: Value, path: seq<string>)
    requires forall i :: 0 <= i < |path| ==> path[i] in keys
    ensures At(v, path).Some? ==> At(SanitizeValue(keys, v), path) == Some(SanitizeValue(keys, At(v, path).value))
    ensures At(v, path).None? ==> At(SanitizeValue(keys, v), path).None?
    decreases |path|
  {
    if path != [] && v.Obj? && path[0] in v.fields {
      ListedPathsSurvive(keys, v.fields[path[0]], path[1..]);
    }
  }

  /** `_sanitize_details` fills a dictionary in a loop; the server calls it with its own keys. */
  method FillDetails(keys: set<string>, v: Value) returns (sanitized: map<string, Value>)
    ensures Obj(sanitized) == SanitizeDetails(keys, v)
  {
    sanitized := map[];
    if v.Obj? {
      var left := v.fields.Keys;
      while left != {}
        invariant left <= v.fields.Keys
        invariant sanitized == map k | k in v.fields && k in keys && k !in left :: SanitizeValue(keys, v.fields[k])
        decreases |left|
      {
        var key :| key in left;
        left := left - {key};
        if key in keys {
          sanitized := sanitized[key := SanitizeValue(keys, v.fields[key])];
        }
      }
      assert sanitized == SanitizeValue(keys, v).fields;
    }
  }
}
