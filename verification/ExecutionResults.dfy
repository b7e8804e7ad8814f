/**
 Execution results as durable bytes: what a runner stores when a poll succeeds is exactly what any
 runner reads back after a crash. The content rules of a result and the size limits of the encoder
 are parameters.
 */
module ExecutionResults {
  import opened Texts
  import opened JsonValue
  import opened CanonicalJson
  import Plan = CanonicalPlan

  /** `ExecutionResult`; structured values are JSON. */
  datatype ExecutionResult = ExecutionResult(
    content: string, titles: seq<string>, descriptions: seq<string>, keywordQa: Json, textMetrics: Json,
    sources: seq<Json>, warnings: seq<string>, modelUsage: Json, stageTimings: Json, promptVersions: Json)

  /** `valid` is what `ExecutionResult.__post_init__` checks beyond the types of its fields, and
      `fits` whether a value is within the limits of `canonical_json`. */
  datatype Rules = Rules(valid: ExecutionResult -> bool, fits: Json -> bool)

  datatype ResultField =
    | ContentMarkdown | Titles | Descriptions | KeywordQa | TextMetrics | Sources | Warnings | ModelUsage | StageTimings
    | PromptVersions

  function FieldName(f: ResultField): string {
    match f
    case ContentMarkdown => "content_markdown"
    case Titles => "titles"
    case Descriptions => "descriptions"
    case KeywordQa => "keyword_qa"
    case TextMetrics => "text_metrics"
    case Sources => "sources"
    case Warnings => "warnings"
    case ModelUsage => "model_usage"
    case StageTimings => "stage_timings"
    case PromptVersions => "prompt_versions"
  }

  lemma FieldNamesDiffer(f: ResultField, g: ResultField)
    requires FieldName(f) == FieldName(g)
    ensures f == g
  {
    assert FieldName(f)[0] == FieldName(g)[0] && FieldName(f)[1] == FieldName(g)[1] && |FieldName(f)| == |FieldName(g)|;
  }

  function FieldValue(r: ExecutionResult, f: ResultField): Json {
    match f
    case ContentMarkdown => Str(r.content)
    case Titles => Plan.StringArray(r.titles)
    case Descriptions => Plan.StringArray(r.descriptions)
    case KeywordQa => r.keywordQa
    case TextMetrics => r.textMetrics
    case Sources => Arr(r.sources)
    case Warnings => Plan.StringArray(r.warnings)
    case ModelUsage => r.modelUsage
    case StageTimings => r.stageTimings
    case PromptVersions => r.promptVersions
  }

  function ResultMapping(r: ExecutionResult): (v: Json)
    ensures v.Obj?
  {
    Obj(map[FieldName(ContentMarkdown) := FieldValue(r, ContentMarkdown), FieldName(Titles) := FieldValue(r, Titles),
            FieldName(Descriptions) := FieldValue(r, Descriptions), FieldName(KeywordQa) := FieldValue(r, KeywordQa),
            FieldName(TextMetrics) := FieldValue(r, TextMetrics), FieldName(Sources) := FieldValue(r, Sources),
            FieldName(Warnings) := FieldValue(r, Warnings), FieldName(ModelUsage) := FieldValue(r, ModelUsage),
            FieldName(StageTimings) := FieldValue(r, StageTimings),
            FieldName(PromptVersions) := FieldValue(r, PromptVersions)])
  }

  /** `execution_result_bytes`; `None` where it raises. */
  ghost function ResultBytes(rules: Rules, r: ExecutionResult): Option<string> {
    if rules.valid(r) && rules.fits(ResultMapping(r)) then Some(Print(ResultMapping(r))) else None
  }

  const RESULT_FIELDS: set<string> := {
    FieldName(ContentMarkdown), FieldName(Titles), FieldName(Descriptions), FieldName(KeywordQa),
    FieldName(TextMetrics),
    FieldName(Sources), FieldName(Warnings), FieldName(ModelUsage), FieldName(StageTimings), FieldName(PromptVersions)}

  /** `execution_result_from_bytes`: exactly the frozen fields, each of its own type, a valid result,
      and the canonical encoding of that result. */
  ghost function ResultFromBytes(rules: Rules, text: string): Option<ExecutionResult> {
    var v :- Loads(text);
    if !v.Obj? || v.fields.Keys != RESULT_FIELDS then None
    else
      var m := v.fields;
      if !m[FieldName(ContentMarkdown)].Str? || !m[FieldName(Sources)].Arr? then None
      else
        var titles :- Plan.StringTuple(m[FieldName(Titles)]);
        var descriptions :- Plan.StringTuple(m[FieldName(Descriptions)]);
        var warnings :- Plan.StringTuple(m[FieldName(Warnings)]);
        var r := ExecutionResult(
          m[FieldName(ContentMarkdown)].s, titles, descriptions, m[FieldName(KeywordQa)], m[FieldName(TextMetrics)],
          m[FieldName(Sources)].items, warnings, m[FieldName(ModelUsage)], m[FieldName(StageTimings)],
          m[FieldName(PromptVersions)]);
        if ResultBytes(rules, r) == Some(text) then Some(r) else None
  }

  lemma MappingKeys(r: ExecutionResult)
    ensures ResultMapping(r).fields.Keys == RESULT_FIELDS
  {
    hide FieldName, FieldValue;
  }

  lemma MappingValue(r: ExecutionResult, f: ResultField)
    ensures FieldName(f) in ResultMapping(r).fields && ResultMapping(r).fields[FieldName(f)] == FieldValue(r, f)
  {
    hide FieldName, FieldValue;
    forall g | FieldName(f) == FieldName(g) ensures f == g {
      FieldNamesDiffer(f, g);
    }
  }

  /** The fields of a result, as they are named in its bytes. */
  lemma ResultFields(r: ExecutionResult)
    ensures ResultMapping(r) == Obj(map[
      "content_markdown" := Str(r.content), "titles" := Plan.StringArray(r.titles),
      "descriptions" := Plan.StringArray(r.descriptions), "keyword_qa" := r.keywordQa,
      "text_metrics" := r.textMetrics, "sources" := Arr(r.sources), "warnings" := Plan.StringArray(r.warnings),
      "model_usage" := r.modelUsage, "stage_timings" := r.stageTimings, "prompt_versions" := r.promptVersions])
  {
  }

  /** Reading and writing are inverse on both sides: a text is accepted, as a certain result, exactly
      when it is the encoding of that result. Every result that can be written is read back as itself,
      and every accepted text is the one text of its result. */
  lemma ResultRoundTrip(rules: Rules, r: ExecutionResult, text: string)
    ensures ResultFromBytes(rules, text) == Some(r) <==> ResultBytes(rules, r) == Some(text)
  {
    hide FieldName, Print, Loads, RESULT_FIELDS, ResultMapping, Plan.StringTuple, Plan.StringArray;
    if ResultBytes(rules, r) == Some(text) {
      LoadsPrint(ResultMapping(r));
      MappingKeys(r);
      MappingValue(r, ContentMarkdown); MappingValue(r, Titles); MappingValue(r, Descriptions);
      MappingValue(r, KeywordQa);
      MappingValue(r, TextMetrics); MappingValue(r, Sources); MappingValue(r, Warnings); MappingValue(r, ModelUsage);
      MappingValue(r, StageTimings); MappingValue(r, PromptVersions);
      Plan.TupleReads(r.titles);
      Plan.TupleReads(r.descriptions);
      Plan.TupleReads(r.warnings);
    }
  }

  /** Two results have the same bytes only if they are equal. */
  lemma ResultBytesInjective(rules: Rules, r: ExecutionResult, s: ExecutionResult)
    requires ResultBytes(rules, r).Some?
    ensures ResultBytes(rules, r) == ResultBytes(rules, s) <==> r == s
  {
    hide ResultBytes, ResultFromBytes;
    var text := ResultBytes(rules, r).value;
    ResultRoundTrip(rules, r, text);
    ResultRoundTrip(rules, s, text);
  }
}
