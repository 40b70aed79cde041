/** What a job's output keeps on its way from the worker to the CLI. */
module JobOutputTheorems {
  import opened Prelude
  import opened JsonValues
  import opened JobOutputs

  // ---------------------------------------------------------------- from the API to the CLI

  /** The keys and shapes of every public output. */
  predicate PublicShape(p: Fields) {
    && "copy_analysis" in p && p["copy_analysis"].Obj?
    && ("transcription" in p ==> HasText(p["transcription"]) && p["transcription"].fields.Keys == {"language", "text"})
    && ("adapted_script" in p ==> p["adapted_script"].Obj? && p["adapted_script"].fields.Keys <= PUBLIC_SCRIPT_FIELDS)
    && p.Keys <= {"copy_analysis", "transcription", "adapted_script", "token_usage", "execution_time_seconds",
                  "validation", "missing_proofs"}
  }

  const MEASURES := {"validation", "missing_proofs", "token_usage", "execution_time_seconds"}

  /** The names of the output are different names. */
  lemma NamesDiffer()
    ensures "copy_analysis" != "transcription" && "adapted_script" != "copy_analysis"
    ensures "adapted_script" != "transcription"
    ensures "copy_analysis" !in MEASURES && "transcription" !in MEASURES && "adapted_script" !in MEASURES
  {
  }

  lemma TextsHaveShape(persisted: Fields, py: Python)
    requires PublicTexts(persisted, py).Some?
    ensures PublicShape(PublicTexts(persisted, py).value)
  {
  }

  lemma MeasuresHaveShape(persisted: Fields, p: Fields, py: Python)
    requires PublicShape(p) && PublicMeasures(persisted, p, py).Some?
    ensures PublicShape(PublicMeasures(persisted, p, py).value)
  {
  }

  lemma AdaptationHasShape(persisted: Fields, p: Fields)
    requires PublicShape(p) && PublicAdaptation(persisted, p).Some?
    ensures PublicShape(PublicAdaptation(persisted, p).value)
  {
    NamesDiffer();
  }

  lemma PublicOutputHasShape(persisted: Fields, pipeline: Pipeline, py: Python)
    requires PublicOutput(persisted, pipeline, py).Some?
    ensures PublicShape(PublicOutput(persisted, pipeline, py).value)
  {
    TextsHaveShape(persisted, py);
    var texts := PublicTexts(persisted, py).value;
    MeasuresHaveShape(persisted, texts, py);
    if pipeline.CopyAdaptation? {
      AdaptationHasShape(persisted, PublicMeasures(persisted, texts, py).value);
    }
  }

  lemma SelectAll(fields: Fields, keys: set<string>)
    requires fields.Keys <= keys
    ensures Select(fields, keys) == fields
  {
  }

  lemma CliKeepsPublicShape(p: Fields)
    requires PublicShape(p)
    ensures CliOutput(p) == Some(p)
  {
    NamesDiffer();
    if "transcription" in p { SelectAll(p["transcription"].fields, {"language", "text"}); }
    if "adapted_script" in p { SelectAll(p["adapted_script"].fields, CLI_SCRIPT_FIELDS); }
    var shown := CliOutput(p).value;
    assert forall k :: k in shown ==> k in p && shown[k] == p[k];
    assert forall k :: k in p ==> k in shown;
    assert shown == p;
  }

  /** Whatever was persisted, the CLI shows the public output of the API unchanged. */
  lemma CliShowsPublicOutput(persisted: Fields, pipeline: Pipeline, py: Python)
    requires PublicOutput(persisted, pipeline, py).Some?
    ensures var p := PublicOutput(persisted, pipeline, py).value;
      CliOutput(p) == Some(p)
  {
    PublicOutputHasShape(persisted, pipeline, py);
    CliKeepsPublicShape(PublicOutput(persisted, pipeline, py).value);
  }

  // ---------------------------------------------------------------- from the workflow to the API

  lemma MeasuresDiffer()
    ensures "validation" != "missing_proofs" && "validation" != "token_usage"
    ensures "validation" != "execution_time_seconds"
    ensures "missing_proofs" != "token_usage" && "missing_proofs" != "execution_time_seconds"
    ensures "token_usage" != "execution_time_seconds"
  {
  }

  /** The persisted transcription and script are neither text nor list. */
  predicate Persistable(pipeline: Pipeline, payload: Fields) {
    var t, script := FirstPresent(payload, TRANSCRIPTION_KEYS), FirstPresent(payload, SCRIPT_KEYS);
    (t.Null? || t.Obj?) && (pipeline.CopyAdaptation? ==> script.Null? || script.Obj?)
  }

  /** What the API needs of a payload besides. */
  predicate Publishable(pipeline: Pipeline, payload: Fields) {
    var t := FirstPresent(payload, TRANSCRIPTION_KEYS);
    && FirstPresent(payload, ANALYSIS_KEYS).Obj?
    && (t.Null? || HasText(t))
    && (pipeline.CopyAdaptation? ==> Get(payload, "validation").Null? || Get(payload, "validation").Obj?)
  }

  /** The transcription that is persisted of a JSON payload. */
  function Persisted(t: Value): Value {
    if t.Obj? then Obj(Select(t.fields, {"language", "text"})) else Null
  }

  lemma FourFields(a: Value, b: Value, c: Value, d: Value)
    requires IsJson(a) && IsJson(b) && IsJson(c) && IsJson(d)
    ensures var m := map["transcription" := a, "copy_analysis" := b, "token_usage" := c, "execution_time_seconds" := d];
      && IsJson(Obj(m)) && m.Keys == ANALYSIS_NAMES
      && m["transcription"] == a && m["copy_analysis"] == b && m["token_usage"] == c && m["execution_time_seconds"] == d
  {
    NamesDiffer();
    MeasuresDiffer();
  }

  lemma AnalysisOutputOfJson(payload: Fields, usage: Fields, seconds: real)
    requires IsJson(Obj(payload)) && IsJson(Obj(usage))
    requires Persistable(CopyAnalysis, payload)
    ensures var output := AnalysisOutput(payload, usage, seconds);
      && output.Some? && IsJson(Obj(output.value))
      && output.value.Keys == ANALYSIS_NAMES
      && output.value["copy_analysis"] == FirstPresent(payload, ANALYSIS_KEYS)
      && output.value["token_usage"] == Obj(usage)
      && output.value["execution_time_seconds"] == Num(seconds)
      && output.value["transcription"] == Persisted(FirstPresent(payload, TRANSCRIPTION_KEYS))
  {
    TranscriptionOfJson(payload);
    FirstIsJson(payload, TRANSCRIPTION_KEYS);
    FirstIsJson(payload, ANALYSIS_KEYS);
    FourFields(Persisted(FirstPresent(payload, TRANSCRIPTION_KEYS)), FirstPresent(payload, ANALYSIS_KEYS), Obj(usage),
               Num(seconds));
  }

  lemma AddThree(m: Fields, a: string, b: string, c: string, x: Value, y: Value, z: Value)
    requires a != b && a != c && b != c && a !in m && b !in m && c !in m
    requires IsJson(Obj(m)) && IsJson(x) && IsJson(y) && IsJson(z)
    ensures var r := m[a := x][b := y][c := z];
      && IsJson(Obj(r)) && r.Keys == m.Keys + {a, b, c}
      && r[a] == x && r[b] == y && r[c] == z && forall k :: k in m ==> r[k] == m[k]
  {
  }

  lemma MissingProofsOfJson(payload: Fields, script: Value)
    requires IsJson(Obj(payload)) && IsJson(script)
    ensures MissingProofs(payload, script).List? && IsJson(MissingProofs(payload, script))
  {
  }

  const ANALYSIS_NAMES := {"transcription", "copy_analysis", "token_usage", "execution_time_seconds"}

  lemma AdaptationNamesAreNew()
    ensures "adapted_script" !in ANALYSIS_NAMES && "validation" !in ANALYSIS_NAMES
    ensures "missing_proofs" !in ANALYSIS_NAMES
    ensures "adapted_script" != "validation" && "adapted_script" != "missing_proofs" && "validation" != "missing_proofs"
  {
  }

  lemma AdaptationOutputIs(payload: Fields, usage: Fields, seconds: real, content: Value)
    requires AnalysisOutput(payload, usage, seconds).Some?
    requires AdaptedScriptContent(FirstPresent(payload, SCRIPT_KEYS)) == Some(content)
    ensures AdaptationOutput(payload, usage, seconds) ==
            Some(AnalysisOutput(payload, usage, seconds).value
                   ["adapted_script" := content]
                   ["validation" := Get(payload, "validation")]
                   ["missing_proofs" := MissingProofs(payload, FirstPresent(payload, SCRIPT_KEYS))])
  {
  }

  /** An adaptation's output is the analysis output with three more fields. */
  predicate Extends(output: Fields, common: Fields, content: Value, validation: Value, proofs: Value) {
    && IsJson(Obj(output))
    && output.Keys == common.Keys + {"adapted_script", "validation", "missing_proofs"}
    && (forall k :: k in common ==> output[k] == common[k])
    && output["adapted_script"] == content
    && output["validation"] == validation
    && output["missing_proofs"] == proofs && proofs.List?
  }

  lemma ExtendsWhenAdded(common: Fields, content: Value, validation: Value, proofs: Value)
    requires IsJson(Obj(common)) && common.Keys == ANALYSIS_NAMES
    requires IsJson(content) && IsJson(validation) && IsJson(proofs) && proofs.List?
    ensures Extends(common["adapted_script" := content]["validation" := validation]["missing_proofs" := proofs],
                    common, content, validation, proofs)
  {
    AdaptationNamesAreNew();
    AddThree(common, "adapted_script", "validation", "missing_proofs", content, validation, proofs);
  }

  lemma AdaptationOutputOfJson(payload: Fields, usage: Fields, seconds: real, content: Value)
    requires IsJson(Obj(payload)) && IsJson(Obj(usage)) && Persistable(CopyAnalysis, payload)
    requires AdaptedScriptContent(FirstPresent(payload, SCRIPT_KEYS)) == Some(content) && IsJson(content)
    ensures AdaptationOutput(payload, usage, seconds).Some? && AnalysisOutput(payload, usage, seconds).Some?
    ensures Extends(AdaptationOutput(payload, usage, seconds).value, AnalysisOutput(payload, usage, seconds).value,
                    content, Get(payload, "validation"), MissingProofs(payload, FirstPresent(payload, SCRIPT_KEYS)))
  {
    AnalysisOutputOfJson(payload, usage, seconds);
    FirstIsJson(payload, SCRIPT_KEYS);
    MissingProofsOfJson(payload, FirstPresent(payload, SCRIPT_KEYS));
    FieldIsJson(payload, "validation");
    AdaptationOutputIs(payload, usage, seconds, content);
    ExtendsWhenAdded(AnalysisOutput(payload, usage, seconds).value, content, Get(payload, "validation"),
                     MissingProofs(payload, FirstPresent(payload, SCRIPT_KEYS)));
  }

  lemma NormalizedJson(payload: Fields, usage: Fields)
    requires IsJson(Obj(payload)) && IsJson(Obj(usage))
    ensures Normalize(Wrapped(Obj(payload), Obj(usage))) == Some((payload, usage))
  {
    JsonIsUnchanged(Obj(payload));
    JsonIsUnchanged(Obj(usage));
  }

  lemma AdaptationAssembledExactly(payload: Fields, usage: Fields, seconds: real)
    requires IsJson(Obj(payload)) && IsJson(Obj(usage)) && Persistable(CopyAnalysis, payload)
    ensures AdaptationOutput(payload, usage, seconds).Some? <==> Persistable(CopyAdaptation, payload)
    ensures AdaptationOutput(payload, usage, seconds).Some? ==>
      IsJson(Obj(AdaptationOutput(payload, usage, seconds).value))
  {
    var script := FirstPresent(payload, SCRIPT_KEYS);
    FirstIsJson(payload, SCRIPT_KEYS);
    ScriptOfJson(script);
    if script.Null? || script.Obj? {
      AdaptationOutputOfJson(payload, usage, seconds, AdaptedScriptContent(script).value);
    }
  }

  lemma AssembledExactly(pipeline: Pipeline, payload: Fields, usage: Fields, seconds: real)
    requires IsJson(Obj(payload)) && IsJson(Obj(usage))
    ensures var output := Assembled(pipeline, payload, usage, seconds);
      (output.Some? <==> Persistable(pipeline, payload)) && (output.Some? ==> IsJson(Obj(output.value)))
  {
    TranscriptionOfJson(payload);
    if Persistable(CopyAnalysis, payload) {
      if pipeline.CopyAnalysis? {
        AnalysisOutputOfJson(payload, usage, seconds);
      } else {
        AdaptationAssembledExactly(payload, usage, seconds);
      }
    }
  }

  lemma JsonIsPersisted(output: Fields)
    requires IsJson(Obj(output))
    ensures EnsureJson(output) == Some(output)
  {
    JsonIsUnchanged(Obj(output));
  }

  /** What the worker persists of a JSON result: nothing, exactly when the transcription or the script has no fields. */
  lemma CompletedOutputOfJson(pipeline: Pipeline, result: WorkflowResult, payload: Fields, usage: Fields, seconds: real)
    requires Normalize(result) == Some((payload, usage)) && IsJson(Obj(payload)) && IsJson(Obj(usage))
    ensures var output := CompletedOutput(pipeline, result, seconds);
      (output.Some? <==> Persistable(pipeline, payload)) && output == Assembled(pipeline, payload, usage, seconds)
  {
    AssembledExactly(pipeline, payload, usage, seconds);
    var output := Assembled(pipeline, payload, usage, seconds);
    if output.Some? {
      JsonIsPersisted(output.value);
    }
  }

  /** Results that one pass of normalisation turns into JSON. */
  predicate ConvertibleResult(result: WorkflowResult) {
    match result
    case Wrapped(output, usage) => Convertible(output) && Convertible(usage)
    case Bare(payload) => Convertible(payload)
    case Unsupported => true
  }

  lemma {:induction false} SelectedIsJson(payload: Fields, keys: set<string>)
    requires IsJson(Obj(payload))
    ensures var kept := Select(payload, keys);
      IsJson(Obj(map k | k in kept && kept[k] != Null :: JsonSafe(kept[k])))
  {
    forall k | k in payload ensures IsJson(JsonSafe(payload[k])) {
      JsonIsUnchanged(payload[k]);
    }
  }

  lemma UsageIsJson(payload: Fields)
    requires IsJson(Obj(payload))
    ensures IsJson(Obj(TokenUsage(payload)))
  {
    FieldIsJson(payload, "token_usage");
    JsonIsUnchanged(Get(payload, "token_usage"));
    SelectedIsJson(payload, {"input_tokens", "output_tokens", "total_tokens"});
  }

  /** Payload and usage of a convertible result are JSON. */
  lemma NormalizedIsJson(result: WorkflowResult)
    requires ConvertibleResult(result) && Normalize(result).Some?
    ensures IsJson(Obj(Normalize(result).value.0)) && IsJson(Obj(Normalize(result).value.1))
  {
    match result
    case Wrapped(output, usage) =>
      JsonSafeExactly(output);
      JsonSafeExactly(usage);
    case Bare(payload) =>
      JsonSafeExactly(payload);
      UsageIsJson(JsonSafe(payload).fields);
  }

  lemma TextsExactly(persisted: Fields, t: Value, py: Python)
    requires (t.Null? || t.Obj?) && Get(persisted, "transcription") == Persisted(t)
    ensures PublicTexts(persisted, py).Some? <==> Get(persisted, "copy_analysis").Obj? && (t.Null? || HasText(t))
  {
  }

  lemma MeasuresExactly(persisted: Fields, p: Fields, py: Python)
    requires Get(persisted, "token_usage").Obj? && Get(persisted, "execution_time_seconds").Num?
    ensures PublicMeasures(persisted, p, py).Some?
  {
  }

  lemma AdaptationExactly(persisted: Fields, p: Fields)
    requires "adapted_script" in persisted && (persisted["adapted_script"].Null? || persisted["adapted_script"].Obj?)
    requires "validation" in persisted && "missing_proofs" in persisted && persisted["missing_proofs"].List?
    ensures PublicAdaptation(persisted, p).Some? <==> persisted["validation"].Null? || persisted["validation"].Obj?
    ensures PublicAdaptation(persisted, p).Some? && persisted["adapted_script"].Obj? ==>
              Get(PublicAdaptation(persisted, p).value, "adapted_script") ==
              Obj(Select(persisted["adapted_script"].fields, PUBLIC_SCRIPT_FIELDS))
  {
  }

  lemma AnalysisPublishedExactly(payload: Fields, usage: Fields, seconds: real, py: Python)
    requires IsJson(Obj(payload)) && IsJson(Obj(usage)) && Persistable(CopyAnalysis, payload)
    requires AnalysisOutput(payload, usage, seconds).Some?
    ensures PublicOutput(AnalysisOutput(payload, usage, seconds).value, CopyAnalysis, py).Some? <==>
            Publishable(CopyAnalysis, payload)
  {
    AnalysisOutputOfJson(payload, usage, seconds);
    var persisted := AnalysisOutput(payload, usage, seconds).value;
    TextsExactly(persisted, FirstPresent(payload, TRANSCRIPTION_KEYS), py);
    if PublicTexts(persisted, py).Some? {
      MeasuresExactly(persisted, PublicTexts(persisted, py).value, py);
    }
  }

  /** An adaptation's script, as the API publishes it from what was persisted. */
  predicate ScriptPublished(public: Fields, content: Value) {
    content.Obj? ==> Get(public, "adapted_script") == Obj(Select(content.fields, PUBLIC_SCRIPT_FIELDS))
  }

  lemma PublicAdaptationExactly(persisted: Fields, t: Value, content: Value, py: Python)
    requires (t.Null? || t.Obj?) && Get(persisted, "transcription") == Persisted(t)
    requires Get(persisted, "token_usage").Obj? && Get(persisted, "execution_time_seconds").Num?
    requires "adapted_script" in persisted && persisted["adapted_script"] == content && (content.Null? || content.Obj?)
    requires "validation" in persisted && "missing_proofs" in persisted && persisted["missing_proofs"].List?
    ensures var public := PublicOutput(persisted, CopyAdaptation, py);
      && (public.Some? <==> Get(persisted, "copy_analysis").Obj? && (t.Null? || HasText(t)) &&
                            (persisted["validation"].Null? || persisted["validation"].Obj?))
      && (public.Some? ==> ScriptPublished(public.value, content))
  {
    TextsExactly(persisted, t, py);
    if PublicTexts(persisted, py).Some? {
      var texts := PublicTexts(persisted, py).value;
      MeasuresExactly(persisted, texts, py);
      AdaptationExactly(persisted, PublicMeasures(persisted, texts, py).value);
    }
  }

  lemma ExtendsKeepsNames(persisted: Fields, common: Fields, content: Value, validation: Value, proofs: Value)
    requires Extends(persisted, common, content, validation, proofs) && common.Keys == ANALYSIS_NAMES
    ensures Get(persisted, "transcription") == common["transcription"]
    ensures Get(persisted, "copy_analysis") == common["copy_analysis"]
    ensures Get(persisted, "token_usage") == common["token_usage"]
    ensures Get(persisted, "execution_time_seconds") == common["execution_time_seconds"]
  {
  }

  lemma AdaptationPublishedExactly(payload: Fields, usage: Fields, seconds: real, py: Python,
                                   persisted: Fields, common: Fields, content: Value)
    requires IsJson(Obj(payload)) && IsJson(Obj(usage)) && Persistable(CopyAnalysis, payload)
    requires AnalysisOutput(payload, usage, seconds) == Some(common)
    requires Extends(persisted, common, content, Get(payload, "validation"),
                     MissingProofs(payload, FirstPresent(payload, SCRIPT_KEYS)))
    requires content.Null? || content.Obj?
    ensures PublicOutput(persisted, CopyAdaptation, py).Some? <==> Publishable(CopyAdaptation, payload)
    ensures PublicOutput(persisted, CopyAdaptation, py).Some? ==>
              ScriptPublished(PublicOutput(persisted, CopyAdaptation, py).value, content)
  {
    AnalysisOutputOfJson(payload, usage, seconds);
    ExtendsKeepsNames(persisted, common, content, Get(payload, "validation"),
                      MissingProofs(payload, FirstPresent(payload, SCRIPT_KEYS)));
    PublicAdaptationExactly(persisted, FirstPresent(payload, TRANSCRIPTION_KEYS), content, py);
  }

  lemma AssembledPublishedExactly(pipeline: Pipeline, payload: Fields, usage: Fields, seconds: real, py: Python)
    requires IsJson(Obj(payload)) && IsJson(Obj(usage)) && Persistable(pipeline, payload)
    ensures var persisted := Assembled(pipeline, payload, usage, seconds);
      persisted.Some? && (PublicOutput(persisted.value, pipeline, py).Some? <==> Publishable(pipeline, payload))
  {
    AnalysisOutputOfJson(payload, usage, seconds);
    if pipeline.CopyAnalysis? {
      AnalysisPublishedExactly(payload, usage, seconds, py);
    } else {
      var script := FirstPresent(payload, SCRIPT_KEYS);
      FirstIsJson(payload, SCRIPT_KEYS);
      ScriptOfJson(script);
      var content := AdaptedScriptContent(script).value;
      AdaptationOutputOfJson(payload, usage, seconds, content);
      AdaptationPublishedExactly(payload, usage, seconds, py, AdaptationOutput(payload, usage, seconds).value,
                                 AnalysisOutput(payload, usage, seconds).value, content);
    }
  }

  // ---------------------------------------------------------------- any result at all

  /** What the API asks of the fields before they are normalised the second time. */
  predicate PublishableParts(pipeline: Pipeline, output: Fields) {
    var t, validation := JsonSafe(Get(output, "transcription")), JsonSafe(Get(output, "validation"));
    && JsonSafe(Get(output, "copy_analysis")).Obj?
    && (t.Null? || HasText(t))
    && (pipeline.CopyAdaptation? ==> validation.Null? || validation.Obj?)
  }

  lemma AnyTextsExactly(persisted: Fields, py: Python)
    ensures var t := Get(persisted, "transcription");
      PublicTexts(persisted, py).Some? <==> Get(persisted, "copy_analysis").Obj? && (t.Null? || HasText(t))
  {
  }

  /** The fields whose shape the worker sees to. */
  predicate WellShaped(pipeline: Pipeline, persisted: Fields) {
    && Get(persisted, "token_usage").Obj? && Get(persisted, "execution_time_seconds").Num?
    && (pipeline.CopyAdaptation? ==>
          && "adapted_script" in persisted && (persisted["adapted_script"].Null? || persisted["adapted_script"].Obj?)
          && "validation" in persisted && "missing_proofs" in persisted && persisted["missing_proofs"].List?)
  }

  lemma WellShapedIsPublished(pipeline: Pipeline, persisted: Fields, py: Python)
    requires WellShaped(pipeline, persisted)
    ensures var t, validation := Get(persisted, "transcription"), Get(persisted, "validation");
      PublicOutput(persisted, pipeline, py).Some? <==>
      Get(persisted, "copy_analysis").Obj? && (t.Null? || HasText(t)) &&
      (pipeline.CopyAdaptation? ==> validation.Null? || validation.Obj?)
  {
    AnyTextsExactly(persisted, py);
    if PublicTexts(persisted, py).Some? {
      var texts := PublicTexts(persisted, py).value;
      MeasuresExactly(persisted, texts, py);
      if pipeline.CopyAdaptation? {
        AdaptationExactly(persisted, PublicMeasures(persisted, texts, py).value);
      }
    }
  }

  lemma {:induction false} NormalizedField(output: Fields, key: string)
    ensures Get(JsonSafe(Obj(output)).fields, key) == JsonSafe(Get(output, key))
    ensures key in output <==> key in JsonSafe(Obj(output)).fields
  {
  }

  lemma {:induction false} AssembledNames(pipeline: Pipeline, payload: Fields, usage: Fields, seconds: real)
    requires Assembled(pipeline, payload, usage, seconds).Some?
    ensures var output := Assembled(pipeline, payload, usage, seconds).value;
      && Get(output, "token_usage") == Obj(usage) && Get(output, "execution_time_seconds") == Num(seconds)
      && (pipeline.CopyAdaptation? ==>
            && "adapted_script" in output && (output["adapted_script"].Null? || output["adapted_script"].Obj?)
            && "validation" in output && "missing_proofs" in output && output["missing_proofs"].List?)
  {
    NamesDiffer();
    MeasuresDiffer();
    AdaptationNamesAreNew();
  }

  lemma {:induction false} AssembledShape(pipeline: Pipeline, payload: Fields, usage: Fields, seconds: real)
    requires Assembled(pipeline, payload, usage, seconds).Some?
    ensures WellShaped(pipeline, JsonSafe(Obj(Assembled(pipeline, payload, usage, seconds).value)).fields)
  {
    var output := Assembled(pipeline, payload, usage, seconds).value;
    AssembledNames(pipeline, payload, usage, seconds);
    NormalizedField(output, "token_usage");
    NormalizedField(output, "execution_time_seconds");
    NormalizedField(output, "adapted_script");
    NormalizedField(output, "validation");
    NormalizedField(output, "missing_proofs");
  }

  lemma {:induction false} OutputExactly(pipeline: Pipeline, output: Fields, py: Python)
    requires WellShaped(pipeline, JsonSafe(Obj(output)).fields)
    ensures var persisted := EnsureJson(output);
      && (persisted.Some? <==> Convertible(Obj(output)))
      && (persisted.Some? ==>
            && IsJson(Obj(persisted.value))
            && (PublicOutput(persisted.value, pipeline, py).Some? <==> PublishableParts(pipeline, output)))
  {
    JsonSafeExactly(Obj(output));
    WellShapedIsPublished(pipeline, JsonSafe(Obj(output)).fields, py);
    NormalizedField(output, "copy_analysis");
    NormalizedField(output, "transcription");
    NormalizedField(output, "validation");
  }

  /** Of a convertible result, all this can be read off the payload. */
  lemma {:induction false} ConvertiblePublishedExactly(
    pipeline: Pipeline, result: WorkflowResult, seconds: real, py: Python)
    requires ConvertibleResult(result)
    ensures var normalized, persisted := Normalize(result), CompletedOutput(pipeline, result, seconds);
      && (persisted.Some? <==> normalized.Some? && Persistable(pipeline, normalized.value.0))
      && (persisted.Some? ==>
            (PublicOutput(persisted.value, pipeline, py).Some? <==> Publishable(pipeline, normalized.value.0)))
  {
    if Normalize(result).Some? {
      var (payload, usage) := Normalize(result).value;
      NormalizedIsJson(result);
      CompletedOutputOfJson(pipeline, result, payload, usage, seconds);
      if Persistable(pipeline, payload) {
        AssembledPublishedExactly(pipeline, payload, usage, seconds, py);
      }
    }
  }

  /** What is assembled of a result, before it is normalised once more. */
  function AssembledOf(pipeline: Pipeline, result: WorkflowResult, seconds: real): Option<Fields> {
    var normalized := Normalize(result);
    if normalized.None? then None else Assembled(pipeline, normalized.value.0, normalized.value.1, seconds)
  }

  /**
   Whatever the result, it is persisted exactly when it can be assembled and one more pass of normalisation makes that
   JSON; and what is persisted can be made public exactly when its parts then have the right shape. Of a convertible
   result, wrapped or bare, this means that the transcription and script of its payload are objects or absent, and that
   the payload is publishable.
   */
  lemma {:induction false} PublishedExactly(pipeline: Pipeline, result: WorkflowResult, seconds: real, py: Python)
    ensures var output, persisted := AssembledOf(pipeline, result, seconds), CompletedOutput(pipeline, result, seconds);
      && (persisted.Some? <==> output.Some? && Convertible(Obj(output.value)))
      && (persisted.Some? ==>
            && IsJson(Obj(persisted.value))
            && (PublicOutput(persisted.value, pipeline, py).Some? <==> PublishableParts(pipeline, output.value)))
    ensures var normalized, persisted := Normalize(result), CompletedOutput(pipeline, result, seconds);
      ConvertibleResult(result) ==>
      && (persisted.Some? <==> normalized.Some? && Persistable(pipeline, normalized.value.0))
      && (persisted.Some? ==>
            (PublicOutput(persisted.value, pipeline, py).Some? <==> Publishable(pipeline, normalized.value.0)))
  {
    var output := AssembledOf(pipeline, result, seconds);
    if output.Some? {
      AssembledShape(pipeline, Normalize(result).value.0, Normalize(result).value.1, seconds);
      OutputExactly(pipeline, output.value, py);
    }
    if ConvertibleResult(result) {
      ConvertiblePublishedExactly(pipeline, result, seconds, py);
    }
  }

  /** What the workflow executor answers: a transcription with text, an analysis, and for adaptations the three more. */
  predicate FromExecutor(pipeline: Pipeline, payload: Fields, usage: Fields) {
    && IsJson(Obj(payload)) && IsJson(Obj(usage))
    && "transcription" in payload && HasText(payload["transcription"])
    && "copy_analysis" in payload && payload["copy_analysis"].Obj?
    && (pipeline.CopyAdaptation? ==>
          && "adapted_script" in payload && payload["adapted_script"].Obj?
          && "validation" in payload && payload["validation"].Obj?
          && "missing_proofs" in payload && payload["missing_proofs"].List?)
  }

  /** Every result of the executor is persisted, published and shown by the CLI, each time without an error. */
  lemma ExecutorResultsReachTheUser(pipeline: Pipeline, payload: Fields, usage: Fields, seconds: real, py: Python)
    requires FromExecutor(pipeline, payload, usage)
    ensures var persisted := CompletedOutput(pipeline, Wrapped(Obj(payload), Obj(usage)), seconds);
      && persisted.Some?
      && var public := PublicOutput(persisted.value, pipeline, py);
      && public.Some? && CliOutput(public.value) == public
  {
    assert TRANSCRIPTION_KEYS[0] == "transcription" && ANALYSIS_KEYS[0] == "copy_analysis";
    assert SCRIPT_KEYS[0] == "adapted_script";
    NormalizedJson(payload, usage);
    CompletedOutputOfJson(pipeline, Wrapped(Obj(payload), Obj(usage)), payload, usage, seconds);
    AssembledPublishedExactly(pipeline, payload, usage, seconds, py);
    var persisted := CompletedOutput(pipeline, Wrapped(Obj(payload), Obj(usage)), seconds).value;
    CliShowsPublicOutput(persisted, pipeline, py);
  }

  lemma KeptField(fields: Fields, field: string)
    ensures Get(Select(WithoutDiagnostics(fields), PUBLIC_SCRIPT_FIELDS), field) ==
            if field in PUBLIC_SCRIPT_FIELDS then Get(fields, field) else Null
  {
  }

  function WithoutDiagnostics(fields: Fields): Fields {
    map k | k in fields && k !in SCRIPT_DIAGNOSTICS :: fields[k]
  }

  lemma ScriptOfExecutor(payload: Fields, usage: Fields)
    requires FromExecutor(CopyAdaptation, payload, usage)
    ensures Persistable(CopyAnalysis, payload)
    ensures AdaptedScriptContent(FirstPresent(payload, SCRIPT_KEYS)) ==
      Some(Obj(WithoutDiagnostics(payload["adapted_script"].fields)))
    ensures IsJson(Obj(WithoutDiagnostics(payload["adapted_script"].fields)))
  {
    assert TRANSCRIPTION_KEYS[0] == "transcription" && SCRIPT_KEYS[0] == "adapted_script";
    FieldIsJson(payload, "adapted_script");
    ScriptOfJson(payload["adapted_script"]);
  }

  lemma ScriptIsPublished(payload: Fields, usage: Fields, seconds: real, py: Python, persisted: Fields, public: Fields)
    requires FromExecutor(CopyAdaptation, payload, usage)
    requires CompletedOutput(CopyAdaptation, Wrapped(Obj(payload), Obj(usage)), seconds) == Some(persisted)
    requires PublicOutput(persisted, CopyAdaptation, py) == Some(public)
    ensures Get(public, "adapted_script") ==
            Obj(Select(WithoutDiagnostics(payload["adapted_script"].fields), PUBLIC_SCRIPT_FIELDS))
  {
    NormalizedJson(payload, usage);
    CompletedOutputOfJson(CopyAdaptation, Wrapped(Obj(payload), Obj(usage)), payload, usage, seconds);
    ScriptOfExecutor(payload, usage);
    var content := Obj(WithoutDiagnostics(payload["adapted_script"].fields));
    AdaptationOutputOfJson(payload, usage, seconds, content);
    var common := AnalysisOutput(payload, usage, seconds).value;
    AdaptationPublishedExactly(payload, usage, seconds, py, persisted, common, content);
  }

  /** No field of the script that is public is lost, changed or joined by a diagnostic one. */
  lemma PublicScriptIsKept(payload: Fields, usage: Fields, seconds: real, py: Python,
                           persisted: Fields, public: Fields, field: string)
    requires FromExecutor(CopyAdaptation, payload, usage)
    requires CompletedOutput(CopyAdaptation, Wrapped(Obj(payload), Obj(usage)), seconds) == Some(persisted)
    requires PublicOutput(persisted, CopyAdaptation, py) == Some(public)
    ensures var script := Get(public, "adapted_script");
      && script.Obj?
      && Get(script.fields, field) ==
         (if field in PUBLIC_SCRIPT_FIELDS then Get(payload["adapted_script"].fields, field) else Null)
  {
    ScriptIsPublished(payload, usage, seconds, py, persisted, public);
    KeptField(payload["adapted_script"].fields, field);
  }

  // ---------------------------------------------------------------- every other public field

  lemma TextsAreKept(persisted: Fields, py: Python)
    requires PublicTexts(persisted, py).Some? && HasText(Get(persisted, "transcription"))
    ensures Get(PublicTexts(persisted, py).value, "copy_analysis") == Get(persisted, "copy_analysis")
    ensures Get(PublicTexts(persisted, py).value, "transcription") ==
            PublicOfTranscription(persisted["transcription"], py).value
  {
    NamesDiffer();
  }

  lemma MeasuresAreKept(persisted: Fields, p: Fields, py: Python)
    requires PublicMeasures(persisted, p, py).Some?
    requires Get(persisted, "token_usage").Obj? && Get(persisted, "execution_time_seconds").Num?
    ensures var p' := PublicMeasures(persisted, p, py).value;
      && Get(p', "token_usage") == persisted["token_usage"]
      && Get(p', "execution_time_seconds") == persisted["execution_time_seconds"]
      && Get(p', "copy_analysis") == Get(p, "copy_analysis") && Get(p', "transcription") == Get(p, "transcription")
  {
    NamesDiffer();
    MeasuresDiffer();
  }

  lemma AdaptationIsKept(persisted: Fields, p: Fields)
    requires PublicAdaptation(persisted, p).Some? && "validation" in persisted && "missing_proofs" in persisted
    ensures var p' := PublicAdaptation(persisted, p).value;
      && Get(p', "validation") == persisted["validation"] && Get(p', "missing_proofs") == persisted["missing_proofs"]
      && (forall k :: k in ANALYSIS_NAMES ==> Get(p', k) == Get(p, k))
  {
    AdaptationNamesAreNew();
  }

  /** The published transcription: the text as it was, the language stripped, and absent when blank. */
  predicate TranscriptionIsKept(was: Value, now: Value, py: Python)
    requires was.Obj?
  {
    && now.Obj? && now.fields.Keys == {"language", "text"}
    && now.fields["text"] == Get(was.fields, "text")
    && var language := Get(was.fields, "language");
       var text := if language.Str? then language.s else py.str(language);
       now.fields["language"] == if language.Null? || Blank(text) then Null else Str(Strip(text))
  }

  /** What the analysis part of a public output says, in terms of what the executor answered. */
  predicate AnalysisIsKept(payload: Fields, usage: Fields, seconds: real, py: Python, public: Fields)
    requires HasText(Get(payload, "transcription"))
  {
    && Get(public, "copy_analysis") == Get(payload, "copy_analysis")
    && TranscriptionIsKept(payload["transcription"], Get(public, "transcription"), py)
    && Get(public, "token_usage") == Obj(usage)
    && Get(public, "execution_time_seconds") == Num(seconds)
  }

  lemma PersistedTranscription(t: Value, py: Python)
    requires HasText(t)
    ensures HasText(Persisted(t)) && PublicOfTranscription(Persisted(t), py).Some?
    ensures TranscriptionIsKept(t, PublicOfTranscription(Persisted(t), py).value, py)
  {
    assert Get(Persisted(t).fields, "text") == Get(t.fields, "text");
    assert Get(Persisted(t).fields, "language") == Get(t.fields, "language");
  }

  lemma MeasuredIsKept(payload: Fields, usage: Fields, seconds: real, py: Python, persisted: Fields)
    requires HasText(Get(payload, "transcription")) && Get(payload, "copy_analysis").Obj?
    requires Get(persisted, "transcription") == Persisted(payload["transcription"])
    requires Get(persisted, "copy_analysis") == payload["copy_analysis"]
    requires Get(persisted, "token_usage") == Obj(usage) && Get(persisted, "execution_time_seconds") == Num(seconds)
    ensures PublicTexts(persisted, py).Some? && PublicMeasures(persisted, PublicTexts(persisted, py).value, py).Some?
    ensures AnalysisIsKept(payload, usage, seconds, py,
                           PublicMeasures(persisted, PublicTexts(persisted, py).value, py).value)
  {
    PersistedTranscription(payload["transcription"], py);
    TextsExactly(persisted, payload["transcription"], py);
    TextsAreKept(persisted, py);
    MeasuresExactly(persisted, PublicTexts(persisted, py).value, py);
    MeasuresAreKept(persisted, PublicTexts(persisted, py).value, py);
  }

  lemma FirstKeys(payload: Fields)
    ensures "transcription" in payload ==> FirstPresent(payload, TRANSCRIPTION_KEYS) == payload["transcription"]
    ensures "copy_analysis" in payload ==> FirstPresent(payload, ANALYSIS_KEYS) == payload["copy_analysis"]
    ensures "adapted_script" in payload ==> FirstPresent(payload, SCRIPT_KEYS) == payload["adapted_script"]
  {
    assert TRANSCRIPTION_KEYS[0] == "transcription" && ANALYSIS_KEYS[0] == "copy_analysis";
    assert SCRIPT_KEYS[0] == "adapted_script";
  }

  /** Analysis, transcription, validation, missing proofs, token usage and time arrive as the executor answered them. */
  lemma PublicFieldsAreKept(pipeline: Pipeline, payload: Fields, usage: Fields, seconds: real, py: Python,
                            persisted: Fields, public: Fields)
    requires FromExecutor(pipeline, payload, usage)
    requires CompletedOutput(pipeline, Wrapped(Obj(payload), Obj(usage)), seconds) == Some(persisted)
    requires PublicOutput(persisted, pipeline, py) == Some(public)
    ensures AnalysisIsKept(payload, usage, seconds, py, public)
    ensures pipeline.CopyAdaptation? ==>
      && Get(public, "validation") == payload["validation"]
      && Get(public, "missing_proofs") == payload["missing_proofs"]
  {
    FirstKeys(payload);
    NormalizedJson(payload, usage);
    CompletedOutputOfJson(pipeline, Wrapped(Obj(payload), Obj(usage)), payload, usage, seconds);
    AnalysisOutputOfJson(payload, usage, seconds);
    var common := AnalysisOutput(payload, usage, seconds).value;
    if pipeline.CopyAnalysis? {
      MeasuredIsKept(payload, usage, seconds, py, persisted);
    } else {
      ScriptOfExecutor(payload, usage);
      var content := Obj(WithoutDiagnostics(payload["adapted_script"].fields));
      AdaptationOutputOfJson(payload, usage, seconds, content);
      ExtendsKeepsNames(persisted, common, content, payload["validation"], payload["missing_proofs"]);
      MeasuredIsKept(payload, usage, seconds, py, persisted);
      AdaptationIsKept(persisted, PublicMeasures(persisted, PublicTexts(persisted, py).value, py).value);
    }
  }

  // ---------------------------------------------------------------- where the fields are looked for

  /** Each part of a payload is taken from the first of its names that is there. */
  lemma FirstNameCounts(payload: Fields)
    ensures FirstPresent(payload, ANALYSIS_KEYS) ==
      if "copy_analysis" in payload then payload["copy_analysis"] else Get(payload, "analysis")
    ensures FirstPresent(payload, SCRIPT_KEYS) ==
      if "adapted_script" in payload then payload["adapted_script"] else Get(payload, "script")
    ensures FirstPresent(payload, TRANSCRIPTION_KEYS) ==
      if "transcription" in payload then payload["transcription"]
      else if "transcriber" in payload then payload["transcriber"]
      else if "transcriber_result" in payload then payload["transcriber_result"]
      else Get(payload, "result")
  {
    assert ANALYSIS_KEYS[1..] == ["analysis"] && SCRIPT_KEYS[1..] == ["script"];
    assert TRANSCRIPTION_KEYS[1..] == ["transcriber", "transcriber_result", "result"];
    assert TRANSCRIPTION_KEYS[1..][1..] == ["transcriber_result", "result"];
    assert TRANSCRIPTION_KEYS[1..][1..][1..] == ["result"];
  }

  /** The token usage of a bare JSON payload: its own object, or else the counters that are there and not null. */
  lemma UsageOfBare(payload: Fields, key: string)
    requires IsJson(Obj(payload))
    ensures Get(payload, "token_usage").Obj? ==> TokenUsage(payload) == payload["token_usage"].fields
    ensures !Get(payload, "token_usage").Obj? ==>
      Get(TokenUsage(payload), key) ==
      if key in {"input_tokens", "output_tokens", "total_tokens"} then Get(payload, key) else Null
  {
    FieldIsJson(payload, "token_usage");
    JsonIsUnchanged(Get(payload, "token_usage"));
    FieldIsJson(payload, key);
    JsonIsUnchanged(Get(payload, key));
  }

  /** Missing proofs are the payload's list, or else the script's, or else none. */
  lemma ProofsOf(payload: Fields, script: Value)
    ensures Get(payload, "missing_proofs").List? ==> MissingProofs(payload, script) == payload["missing_proofs"]
    ensures !Get(payload, "missing_proofs").List? ==>
      MissingProofs(payload, script) ==
      if script.Obj? && "missing_proofs" in script.fields && script.fields["missing_proofs"].List?
      then script.fields["missing_proofs"] else List([])
  {
  }
}
