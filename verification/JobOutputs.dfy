/**
 The output of a job on its way to the user: what the worker persists, what the API makes public of it, and what the CLI
 shows of that. `py` are Python's `str` on values that are not text, and its `float` on texts.
 */
module JobOutputs {
  import opened Prelude
  import opened JsonValues

  type Fields = map<string, Value>

  datatype Python = Python(str: Value -> string, float: string -> Option<real>)

  datatype Pipeline = CopyAnalysis | CopyAdaptation

  /** A workflow's answer: the wrapper with its token usage, a bare mapping or model, or something unsupported. */
  datatype WorkflowResult = Wrapped(output: Value, usage: Value) | Bare(payload: Value) | Unsupported

  const SCRIPT_DIAGNOSTICS := {"validation_errors", "validation_passed", "validation_warnings", "missing_proofs"}

  const PUBLIC_SCRIPT_FIELDS := {
    "script", "sections", "hooks", "cta", "estimated_duration_seconds", "word_count", "voice_ready_text",
    "adaptation_notes"
  }

  /** The whitelist of the CLI. */
  const CLI_SCRIPT_FIELDS := {
    "script", "sections", "hooks", "cta", "estimated_duration_seconds", "word_count", "voice_ready_text",
    "adaptation_notes"
  }

  function Get(fields: Fields, key: string): Value {
    if key in fields then fields[key] else Null
  }

  function FirstPresent(fields: Fields, keys: seq<string>): Value
    decreases |keys|
  {
    if keys == [] then Null
    else if keys[0] in fields then fields[keys[0]]
    else FirstPresent(fields, keys[1..])
  }

  function Select(fields: Fields, keys: set<string>): Fields {
    map k | k in fields && k in keys :: fields[k]
  }

  // ---------------------------------------------------------------- what the worker persists

  function TokenUsage(payload: Fields): Fields {
    if Get(payload, "token_usage").Obj? then
      JsonSafe(payload["token_usage"]).fields
    else
      var topLevel := Select(payload, {"input_tokens", "output_tokens", "total_tokens"});
      map k | k in topLevel && topLevel[k] != Null :: JsonSafe(topLevel[k])
  }

  /** The payload and the token usage of a result; `None` is a WorkflowResultError. */
  function Normalize(result: WorkflowResult): Option<(Fields, Fields)> {
    match result
    case Wrapped(output, usage) =>
      if !JsonSafe(output).Obj? then None
      else Some((JsonSafe(output).fields, if JsonSafe(usage).Obj? then JsonSafe(usage).fields else map[]))
    case Bare(payload) =>
      if !(payload.Obj? || payload.Model?) || !JsonSafe(payload).Obj? then None
      else Some((JsonSafe(payload).fields, TokenUsage(JsonSafe(payload).fields)))
    case Unsupported => None
  }

  const ANALYSIS_KEYS := ["copy_analysis", "analysis"]
  const SCRIPT_KEYS := ["adapted_script", "script"]
  const TRANSCRIPTION_KEYS := ["transcription", "transcriber", "transcriber_result", "result"]

  function PublicTranscription(payload: Fields): Option<Value> {
    var transcription := FirstPresent(payload, TRANSCRIPTION_KEYS);
    if transcription.Null? then Some(Null)
    else if !JsonSafe(transcription).Obj? then None
    else Some(Obj(Select(JsonSafe(transcription).fields, {"language", "text"})))
  }

  function AdaptedScriptContent(script: Value): Option<Value> {
    if script.Null? then Some(Null)
    else if !JsonSafe(script).Obj? then None
    else
      var fields := JsonSafe(script).fields;
      Some(Obj(map k | k in fields && k !in SCRIPT_DIAGNOSTICS :: fields[k]))
  }

  function MissingProofs(payload: Fields, script: Value): Value {
    if Get(payload, "missing_proofs").List? then payload["missing_proofs"]
    else if script.Obj? && Get(script.fields, "missing_proofs").List? then script.fields["missing_proofs"]
    else List([])
  }

  function AnalysisOutput(payload: Fields, usage: Fields, seconds: real): Option<Fields> {
    var transcription := PublicTranscription(payload);
    if transcription.None? then None
    else Some(map["transcription" := transcription.value,
                  "copy_analysis" := FirstPresent(payload, ANALYSIS_KEYS),
                  "token_usage" := Obj(usage),
                  "execution_time_seconds" := Num(seconds)])
  }

  function AdaptationOutput(payload: Fields, usage: Fields, seconds: real): Option<Fields> {
    var script := FirstPresent(payload, SCRIPT_KEYS);
    var common := AnalysisOutput(payload, usage, seconds);
    var content := AdaptedScriptContent(script);
    if common.None? || content.None? then None
    else Some(common.value["adapted_script" := content.value]
                          ["validation" := Get(payload, "validation")]
                          ["missing_proofs" := MissingProofs(payload, script)])
  }

  /** The output of one pipeline. */
  function Assembled(pipeline: Pipeline, payload: Fields, usage: Fields, seconds: real): Option<Fields> {
    if pipeline.CopyAnalysis? then AnalysisOutput(payload, usage, seconds)
    else AdaptationOutput(payload, usage, seconds)
  }

  /** `ensure_json_serializable`. */
  function EnsureJson(output: Fields): Option<Fields> {
    if IsJson(JsonSafe(Obj(output))) then Some(JsonSafe(Obj(output)).fields) else None
  }

  /** `build_completed_output`: the payload `mark_completed` persists. */
  function CompletedOutput(pipeline: Pipeline, result: WorkflowResult, seconds: real): Option<Fields> {
    var normalized := Normalize(result);
    if normalized.None? then None
    else
      var output := Assembled(pipeline, normalized.value.0, normalized.value.1, seconds);
      if output.None? then None else EnsureJson(output.value)
  }

  // ---------------------------------------------------------------- what the API publishes

  function OptionalText(v: Value, py: Python): Value {
    if v.Null? then Null
    else
      var text := Strip(if v.Str? then v.s else py.str(v));
      if text == "" then Null else Str(text)
  }

  /** `_optional_float`; `None` is a ValueError. */
  function OptionalFloat(v: Value, py: Python): Option<Value> {
    match v
    case Null => Some(Null)
    case Num(_) => Some(v)
    case Str(text) => if py.float(text).Some? then Some(Num(py.float(text).value)) else None
    case _ => None
  }

  datatype Kind = MappingOnly | MappingOrNone | ListOnly

  /** `_copy_optional_public_field`; `None` is a ValueError. */
  function CopyOptionalField(source: Fields, destination: Fields, field: string, kind: Kind): Option<Fields> {
    if field !in source then Some(destination)
    else
      var value := source[field];
      if value.Null? && kind.MappingOrNone? then Some(destination[field := Null])
      else if kind.ListOnly? && value.List? then Some(destination[field := value])
      else if !kind.ListOnly? && value.Obj? then Some(destination[field := value])
      else None
  }

  function PublicOfTranscription(v: Value, py: Python): Option<Value> {
    if !v.Obj? || !Get(v.fields, "text").Str? then None
    else Some(Obj(map["language" := OptionalText(Get(v.fields, "language"), py), "text" := v.fields["text"]]))
  }

  /** The analysis and the transcription. */
  function PublicTexts(persisted: Fields, py: Python): Option<Fields> {
    if !Get(persisted, "copy_analysis").Obj? then None
    else
      var p := map["copy_analysis" := persisted["copy_analysis"]];
      var transcription := Get(persisted, "transcription");
      if transcription.Null? then Some(p)
      else if PublicOfTranscription(transcription, py).None? then None
      else Some(p["transcription" := PublicOfTranscription(transcription, py).value])
  }

  /** Token usage and execution time. */
  function PublicMeasures(persisted: Fields, p: Fields, py: Python): Option<Fields> {
    var p' := CopyOptionalField(persisted, p, "token_usage", MappingOnly);
    var seconds := OptionalFloat(Get(persisted, "execution_time_seconds"), py);
    if p'.None? || seconds.None? then None
    else Some(if seconds.value.Null? then p'.value else p'.value["execution_time_seconds" := seconds.value])
  }

  /** The fields of an adaptation. */
  function PublicAdaptation(persisted: Fields, p: Fields): Option<Fields> {
    var script := Get(persisted, "adapted_script");
    if !script.Null? && !script.Obj? then None
    else
      var p' := if script.Null? then p else p["adapted_script" := Obj(Select(script.fields, PUBLIC_SCRIPT_FIELDS))];
      var p'' := CopyOptionalField(persisted, p', "validation", MappingOrNone);
      if p''.None? then None else CopyOptionalField(persisted, p''.value, "missing_proofs", ListOnly)
  }

  /** `_build_public_job_output`; `None` is a ValueError. */
  function PublicOutput(persisted: Fields, pipeline: Pipeline, py: Python): Option<Fields> {
    var texts := PublicTexts(persisted, py);
    var measured := if texts.None? then None else PublicMeasures(persisted, texts.value, py);
    if measured.None? || pipeline.CopyAnalysis? then measured else PublicAdaptation(persisted, measured.value)
  }

  // ---------------------------------------------------------------- what the CLI shows

  /** `_public_result_output`; `None` is a CliApiError. */
  function CliOutput(output: Fields): Option<Fields> {
    var transcription, script := Get(output, "transcription"), Get(output, "adapted_script");
    if !Get(output, "copy_analysis").Obj? then None
    else if !transcription.Null? && !(transcription.Obj? && Get(transcription.fields, "text").Str?) then None
    else if !script.Null? && !script.Obj? then None
    else
      var p0 := map["copy_analysis" := output["copy_analysis"]];
      var p1 := if transcription.Null? then p0
                else p0["transcription" := Obj(Select(transcription.fields, {"language", "text"}))];
      var p2 := if script.Null? then p1
                else p1["adapted_script" := Obj(Select(script.fields, CLI_SCRIPT_FIELDS))];
      Some(p2 + Select(output, {"validation", "missing_proofs", "token_usage", "execution_time_seconds"}))
  }

  // ---------------------------------------------------------------- nothing is lost on the way

  /** A transcription the API can publish. */
  predicate HasText(v: Value) {
    v.Obj? && Get(v.fields, "text").Str?
  }

  lemma {:induction false} FirstIsJson(fields: Fields, keys: seq<string>)
    requires IsJson(Obj(fields))
    ensures IsJson(FirstPresent(fields, keys))
    decreases |keys|
  {
    if keys != [] {
      FirstIsJson(fields, keys[1..]);
    }
  }

  lemma FieldIsJson(fields: Fields, key: string)
    requires IsJson(Obj(fields))
    ensures IsJson(Get(fields, key))
  {
  }

  /** Of a JSON payload, the transcription is refused only when it is neither absent nor an object. */
  lemma TranscriptionOfJson(payload: Fields)
    requires IsJson(Obj(payload))
    ensures var t := FirstPresent(payload, TRANSCRIPTION_KEYS);
      PublicTranscription(payload) ==
      if t.Null? then Some(Null)
      else if t.Obj? then Some(Obj(Select(t.fields, {"language", "text"})))
      else None
  {
    FirstIsJson(payload, TRANSCRIPTION_KEYS);
    JsonIsUnchanged(FirstPresent(payload, TRANSCRIPTION_KEYS));
  }

  lemma ScriptOfJson(script: Value)
    requires IsJson(script)
    ensures AdaptedScriptContent(script) ==
      if script.Null? then Some(Null)
      else if script.Obj? then Some(Obj(map k | k in script.fields && k !in SCRIPT_DIAGNOSTICS :: script.fields[k]))
      else None
    ensures AdaptedScriptContent(script).Some? ==> IsJson(AdaptedScriptContent(script).value)
  {
    JsonIsUnchanged(script);
  }
}
