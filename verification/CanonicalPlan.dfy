/**
 Execution plans as canonical JSON, and the whole canonical encoder over object graphs: texts
 determine what they encode.
 */
module CanonicalPlan {
  import opened Texts
  import opened JsonValue
  import opened CanonicalJson
  import Grammar = CanonicalText
  import ObjectGraph

  // ---- The encoder on object graphs ---------------------------------------------------------------------------------

  function TextWidth(c: char): nat {
    ObjectGraph.Width(c as int)
  }

  function TextBytes(s: string): nat {
    if s == "" then 0 else TextWidth(s[0]) + TextBytes(s[1..])
  }

  /** `canonical_json`: the text of the unfolding, when it and its text are within the limits. */
  ghost function CanonicalText(v: ObjectGraph.Value, graph: set<ObjectGraph.Node>): Option<string>
    reads graph
  {
    var t :- ObjectGraph.Unfold(v, 0, graph);
    if t.nodes <= ObjectGraph.MAX_NODES && t.bytes <= ObjectGraph.MAX_BYTES
      && TextBytes(Print(t.value)) <= ObjectGraph.MAX_BYTES
    then Some(Print(t.value)) else None
  }

  /** Two objects that can be encoded have the same text exactly when they unfold to the same JSON
      value: neither sharing nor dictionary order shows. */
  lemma SameTextSameTree(a: ObjectGraph.Value, b: ObjectGraph.Value, graph: set<ObjectGraph.Node>)
    requires CanonicalText(a, graph).Some? && CanonicalText(b, graph).Some?
    ensures CanonicalText(a, graph) == CanonicalText(b, graph) <==>
            ObjectGraph.Unfold(a, 0, graph).value.value == ObjectGraph.Unfold(b, 0, graph).value.value
    ensures Loads(CanonicalText(a, graph).value) == Some(ObjectGraph.Unfold(a, 0, graph).value.value)
  {
    hide Print, Loads, ObjectGraph.Unfold;
    var x, y := ObjectGraph.Unfold(a, 0, graph).value.value, ObjectGraph.Unfold(b, 0, graph).value.value;
    PrintInjective(x, y);
    LoadsPrint(x);
  }

  /** The UTF-8 bytes of a text. */
  function Encoded(s: string): seq<int> {
    if s == "" then [] else ObjectGraph.Utf8(s[0] as int) + Encoded(s[1..])
  }

  lemma {:induction false} BytesEncoded(s: string)
    ensures TextBytes(s) == |Encoded(s)|
    decreases |s|
  {
    if s != "" {
      ObjectGraph.WidthIsEncoded(s[0] as int);
      BytesEncoded(s[1..]);
    }
  }

  /** What the encoder accepts and writes: an object that unfolds, within 10 000 nodes and 1 048 576 bytes
      of strings, to the one canonical text that reads as its unfolding, if that text has no more than
      1 048 576 bytes itself. */
  lemma CanonicalDecided(v: ObjectGraph.Value, graph: set<ObjectGraph.Node>, text: string)
    ensures CanonicalText(v, graph) == Some(text) <==>
            && var t := ObjectGraph.Unfold(v, 0, graph);
               && t.Some? && t.value.nodes <= 10_000 && t.value.bytes <= 1_048_576
               && Grammar.ValueText(text) && Loads(text) == Some(t.value.value) && |Encoded(text)| <= 1_048_576
  {
    hide Print, Loads, ObjectGraph.Unfold, Grammar.ValueText, TextBytes, Encoded;
    var t := ObjectGraph.Unfold(v, 0, graph);
    BytesEncoded(text);
    if t.Some? {
      Grammar.OneCanonicalText(t.value.value, text);
    }
  }

  // ---- Execution plans ----------------------------------------------------------------------------------------------

  datatype ExecutionPlan = ExecutionPlan(
    pipelineVersion: string, executorName: string, modelIds: seq<string>, providerIds: seq<string>, maximumRetries: nat,
    costCurrency: Option<string>, costMin: Option<string>, costMax: Option<string>, unknownCostReasons: seq<string>,
    resultDestination: string)

  datatype PlanField =
    | PipelineVersion | ExecutorName | ModelIds | ProviderIds | MaximumRetries | CostCurrency | CostMin | CostMax
    | UnknownCostReasons | ResultDestination

  function FieldName(f: PlanField): string {
    match f
    case PipelineVersion => "pipeline_version"
    case ExecutorName => "executor_name"
    case ModelIds => "model_ids"
    case ProviderIds => "provider_ids"
    case MaximumRetries => "maximum_retries"
    case CostCurrency => "cost_currency"
    case CostMin => "cost_min_decimal"
    case CostMax => "cost_max_decimal"
    case UnknownCostReasons => "unknown_cost_reasons"
    case ResultDestination => "result_destination"
  }

  lemma FieldNamesDiffer(f: PlanField, g: PlanField)
    requires FieldName(f) == FieldName(g)
    ensures f == g
  {
    assert FieldName(f)[0] == FieldName(g)[0];
    assert |FieldName(f)| >= 9 && FieldName(f)[5] == FieldName(g)[5] && FieldName(f)[6] == FieldName(g)[6];
  }

  function StringArray(items: seq<string>): Json {
    Arr(seq(|items|, i requires 0 <= i < |items| => Str(items[i])))
  }

  function OptionalText(s: Option<string>): Json {
    if s.Some? then Str(s.value) else Null
  }

  /** The value stored under each field. */
  function FieldValue(p: ExecutionPlan, f: PlanField): Json {
    match f
    case PipelineVersion => Str(p.pipelineVersion)
    case ExecutorName => Str(p.executorName)
    case ModelIds => StringArray(p.modelIds)
    case ProviderIds => StringArray(p.providerIds)
    case MaximumRetries => Int(p.maximumRetries)
    case CostCurrency => OptionalText(p.costCurrency)
    case CostMin => OptionalText(p.costMin)
    case CostMax => OptionalText(p.costMax)
    case UnknownCostReasons => StringArray(p.unknownCostReasons)
    case ResultDestination => Str(p.resultDestination)
  }

  /** `plan_mapping`. */
  function PlanMapping(p: ExecutionPlan): (r: Json)
    ensures r.Obj?
  {
    Obj(map[FieldName(PipelineVersion) := FieldValue(p, PipelineVersion),
            FieldName(ExecutorName) := FieldValue(p, ExecutorName),
            FieldName(ModelIds) := FieldValue(p, ModelIds), FieldName(ProviderIds) := FieldValue(p, ProviderIds),
            FieldName(MaximumRetries) := FieldValue(p, MaximumRetries),
            FieldName(CostCurrency) := FieldValue(p, CostCurrency),
            FieldName(CostMin) := FieldValue(p, CostMin), FieldName(CostMax) := FieldValue(p, CostMax),
            FieldName(UnknownCostReasons) := FieldValue(p, UnknownCostReasons),
            FieldName(ResultDestination) := FieldValue(p, ResultDestination)])
  }

  function StringTuple(v: Json): Option<seq<string>> {
    if v.Arr? && forall i :: 0 <= i < |v.items| ==> v.items[i].Str?
    then Some(seq(|v.items|, i requires 0 <= i < |v.items| => v.items[i].s)) else None
  }

  function RequiredString(v: Json): Option<string> {
    if v.Str? then Some(v.s) else None
  }

  function OptionalString(v: Json): Option<Option<string>> {
    if v.Str? then Some(Some(v.s)) else if v.Null? then Some(None) else None
  }

  const PLAN_FIELDS: set<string> := {
    FieldName(PipelineVersion), FieldName(ExecutorName), FieldName(ModelIds), FieldName(ProviderIds),
    FieldName(MaximumRetries),
    FieldName(CostCurrency), FieldName(CostMin), FieldName(CostMax), FieldName(UnknownCostReasons),
    FieldName(ResultDestination)}

  /** `deserialize_plan`: exactly the frozen fields, each of its own type. */
  function DeserializePlan(text: string): Option<ExecutionPlan> {
    var v :- Loads(text);
    if !v.Obj? || v.fields.Keys != PLAN_FIELDS then None
    else
      var m := v.fields;
      var retries := m[FieldName(MaximumRetries)];
      if !retries.Int? || retries.i < 0 then None
      else
        var pipeline :- RequiredString(m[FieldName(PipelineVersion)]);
        var executor :- RequiredString(m[FieldName(ExecutorName)]);
        var models :- StringTuple(m[FieldName(ModelIds)]);
        var providers :- StringTuple(m[FieldName(ProviderIds)]);
        var currency :- OptionalString(m[FieldName(CostCurrency)]);
        var low :- OptionalString(m[FieldName(CostMin)]);
        var high :- OptionalString(m[FieldName(CostMax)]);
        var reasons :- StringTuple(m[FieldName(UnknownCostReasons)]);
        var destination :- RequiredString(m[FieldName(ResultDestination)]);
        Some(ExecutionPlan(pipeline, executor, models, providers, retries.i, currency, low, high, reasons, destination))
  }

  ghost function PlanText(p: ExecutionPlan): string {
    Print(PlanMapping(p))
  }

  lemma MappingKeys(p: ExecutionPlan, f: PlanField)
    ensures PlanMapping(p).fields.Keys == PLAN_FIELDS && FieldName(f) in PLAN_FIELDS
  {
    hide FieldName, FieldValue;
  }

  lemma MappingValue(p: ExecutionPlan, f: PlanField)
    ensures FieldName(f) in PlanMapping(p).fields && PlanMapping(p).fields[FieldName(f)] == FieldValue(p, f)
  {
    hide FieldName, FieldValue;
    forall g | FieldName(f) == FieldName(g) ensures f == g {
      FieldNamesDiffer(f, g);
    }
  }

  lemma TupleReads(items: seq<string>)
    ensures StringTuple(StringArray(items)) == Some(items)
  {
    assert StringTuple(StringArray(items)).value == items;
  }

  /** The fields of a plan, as they are named in its bytes. */
  lemma PlanFields(p: ExecutionPlan)
    ensures PlanMapping(p) == Obj(map[
      "pipeline_version" := Str(p.pipelineVersion), "executor_name" := Str(p.executorName),
      "model_ids" := StringArray(p.modelIds), "provider_ids" := StringArray(p.providerIds),
      "maximum_retries" := Int(p.maximumRetries),
      "cost_currency" := if p.costCurrency.None? then Null else Str(p.costCurrency.value),
      "cost_min_decimal" := if p.costMin.None? then Null else Str(p.costMin.value),
      "cost_max_decimal" := if p.costMax.None? then Null else Str(p.costMax.value),
      "unknown_cost_reasons" := StringArray(p.unknownCostReasons), "result_destination" := Str(p.resultDestination)])
    ensures forall items: seq<string> ::
      |StringArray(items).items| == |items| && forall i :: 0 <= i < |items| ==>
        StringArray(items).items[i] == Str(items[i])
  {
  }

  /** A plan is read back from its canonical bytes, so plans with equal bytes are equal. */
  lemma PlanRoundTrip(p: ExecutionPlan)
    ensures DeserializePlan(PlanText(p)) == Some(p)
  {
    hide FieldName, Print, Loads, PLAN_FIELDS, PlanMapping, StringTuple, StringArray;
    LoadsPrint(PlanMapping(p));
    MappingKeys(p, MaximumRetries);
    MappingValue(p, PipelineVersion); MappingValue(p, ExecutorName); MappingValue(p, ModelIds);
    MappingValue(p, ProviderIds);
    MappingValue(p, MaximumRetries); MappingValue(p, CostCurrency); MappingValue(p, CostMin); MappingValue(p, CostMax);
    MappingValue(p, UnknownCostReasons); MappingValue(p, ResultDestination);
    TupleReads(p.modelIds);
    TupleReads(p.providerIds);
    TupleReads(p.unknownCostReasons);
  }

  /** A text is accepted, as a certain plan, exactly if it reads as the fields of that plan: each of the
      ten and no other, each of its own type. */
  lemma PlanAccepted(p: ExecutionPlan, text: string)
    ensures DeserializePlan(text) == Some(p) <==> Loads(text) == Some(PlanMapping(p))
  {
    hide FieldName, Print, Loads, StringTuple, StringArray, PlanMapping;
    PlanRoundTrip(p);
    LoadsPrint(PlanMapping(p));
    if DeserializePlan(text) == Some(p) {
      var m := Loads(text).value.fields;
      forall f: PlanField ensures FieldName(f) in m {
        MappingKeys(p, f);
      }
      TupleWrites(m[FieldName(ModelIds)]);
      TupleWrites(m[FieldName(ProviderIds)]);
      TupleWrites(m[FieldName(UnknownCostReasons)]);
      forall f: PlanField ensures m[FieldName(f)] == FieldValue(p, f) {
      }
      MappingIs(p, m);
    }
  }

  lemma TupleWrites(v: Json)
    ensures StringTuple(v).Some? ==> StringArray(StringTuple(v).value) == v
  {
    if StringTuple(v).Some? {
      assert StringArray(StringTuple(v).value).items == v.items;
    }
  }

  lemma MappingIs(p: ExecutionPlan, m: map<string, Json>)
    requires m.Keys == PLAN_FIELDS && forall f: PlanField :: FieldName(f) in m && m[FieldName(f)] == FieldValue(p, f)
    ensures m == PlanMapping(p).fields
  {
    hide FieldName, FieldValue;
    forall f: PlanField ensures FieldName(f) in m && PlanMapping(p).fields[FieldName(f)] == m[FieldName(f)] {
      MappingValue(p, f);
    }
    MappingKeys(p, ModelIds);
    forall k | k in m ensures PlanMapping(p).fields[k] == m[k] {
      var f := FieldOf(k);
      MappingValue(p, f);
    }
  }

  lemma FieldOf(k: string) returns (f: PlanField)
    requires k in PLAN_FIELDS
    ensures FieldName(f) == k
  {
    hide FieldName;
    f := if k == FieldName(PipelineVersion) then PipelineVersion
         else if k == FieldName(ExecutorName) then ExecutorName else if k == FieldName(ModelIds) then ModelIds
         else if k == FieldName(ProviderIds) then ProviderIds else if k == FieldName(MaximumRetries) then MaximumRetries
         else if k == FieldName(CostCurrency) then CostCurrency else if k == FieldName(CostMin) then CostMin
         else if k == FieldName(CostMax) then CostMax
         else if k == FieldName(UnknownCostReasons) then UnknownCostReasons else ResultDestination;
  }

  lemma PlanTextInjective(p: ExecutionPlan, q: ExecutionPlan)
    ensures PlanText(p) == PlanText(q) <==> p == q
  {
    PlanRoundTrip(p);
    PlanRoundTrip(q);
  }
}
