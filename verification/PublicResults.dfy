/** The public output as the API builds it: a dictionary that is filled in place. */
module PublicResults {
  import opened Prelude
  import opened JsonValues
  import opened JobOutputs

  class Dictionary {
    var fields: Fields

    constructor ()
      ensures fields == map[]
    {
      fields := map[];
    }

    method Set(key: string, value: Value)
      modifies this
      ensures fields == old(fields)[key := value]
    {
      fields := fields[key := value];
    }
  }

  /** `_copy_optional_public_field`; false is a ValueError. */
  method CopyOptionalPublicField(source: Fields, destination: Dictionary, field: string, kind: Kind) returns (ok: bool)
    modifies destination
    ensures ok <==> CopyOptionalField(source, old(destination.fields), field, kind).Some?
    ensures destination.fields ==
            if ok then CopyOptionalField(source, old(destination.fields), field, kind).value
            else old(destination.fields)
  {
    if field !in source {
      return true;
    }
    var value := source[field];
    if value.Null? && kind.MappingOrNone? {
      destination.Set(field, Null);
      return true;
    }
    ok := if kind.ListOnly? then value.List? else value.Obj?;
    if ok {
      destination.Set(field, value);
    }
  }

  /** `_build_public_job_output`; `None` is a ValueError. */
  method BuildPublicJobOutput(persisted: Fields, pipeline: Pipeline, py: Python) returns (r: Option<Fields>)
    ensures r == PublicOutput(persisted, pipeline, py)
  {
    var analysis := Get(persisted, "copy_analysis");
    if !analysis.Obj? {
      return None;
    }
    var output := new Dictionary();
    output.Set("copy_analysis", analysis);
    var transcription := Get(persisted, "transcription");
    if !transcription.Null? {
      var published := PublicOfTranscription(transcription, py);
      if published.None? {
        return None;
      }
      output.Set("transcription", published.value);
    }
    var ok := CopyOptionalPublicField(persisted, output, "token_usage", MappingOnly);
    var seconds := OptionalFloat(Get(persisted, "execution_time_seconds"), py);
    if !ok || seconds.None? {
      return None;
    }
    if !seconds.value.Null? {
      output.Set("execution_time_seconds", seconds.value);
    }
    if pipeline.CopyAdaptation? {
      ok := AddAdaptation(persisted, output);
      if !ok {
        return None;
      }
    }
    return Some(output.fields);
  }

  method AddAdaptation(persisted: Fields, output: Dictionary) returns (ok: bool)
    modifies output
    ensures ok <==> PublicAdaptation(persisted, old(output.fields)).Some?
    ensures ok ==> output.fields == PublicAdaptation(persisted, old(output.fields)).value
  {
    var script := Get(persisted, "adapted_script");
    if !script.Null? {
      if !script.Obj? {
        return false;
      }
      output.Set("adapted_script", Obj(Select(script.fields, PUBLIC_SCRIPT_FIELDS)));
    }
    ok := CopyOptionalPublicField(persisted, output, "validation", MappingOrNone);
    if ok {
      ok := CopyOptionalPublicField(persisted, output, "missing_proofs", ListOnly);
    }
  }
}
