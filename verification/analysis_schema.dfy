/** The analysis record the dashboard renders, and the response schema the
    client sends with every request. The schema is only a request to the
    model endpoint: nothing on the client checks a reply against it, so
    `Conforms` and `FromJson` describe what a well-formed reply looks like,
    not what the client enforces. */
module AnalysisSchema {
  import opened Wrappers
  import opened Json

  /** The `AnalysisResult` interface: three labels and two ordered lists. */
  datatype AnalysisResult = AnalysisResult(
    title: string,
    predictedViews: string,
    ctr: string,
    insights: seq<string>,
    recommendations: seq<string>)

  /** The two primitive shapes the schema uses for a property. */
  datatype FieldType = StringField | StringArrayField

  /** An object schema: typed properties plus the list of required keys. */
  datatype ObjectSchema = ObjectSchema(properties: seq<(string, FieldType)>, required: seq<string>)

  /** The field names of `AnalysisResult`, in declaration order. */
  const ResultFields: seq<string> := ["title", "predictedViews", "ctr", "insights", "recommendations"]

  /** The `responseSchema` passed with each request. */
  const ResponseSchema: ObjectSchema := ObjectSchema(
    [ ("title", StringField),
      ("predictedViews", StringField),
      ("ctr", StringField),
      ("insights", StringArrayField),
      ("recommendations", StringArrayField) ],
    ["title", "predictedViews", "ctr", "insights", "recommendations"])

  function PropertyNames(schema: ObjectSchema): (ns: seq<string>)
    ensures |ns| == |schema.properties|
    ensures forall i :: 0 <= i < |ns| ==> ns[i] == schema.properties[i].0
  {
    seq(|schema.properties|, i requires 0 <= i < |schema.properties| => schema.properties[i].0)
  }

  predicate AllStrings(items: seq<Json>)
  {
    forall i :: 0 <= i < |items| ==> items[i].JString?
  }

  predicate FieldConforms(v: Json, t: FieldType)
  {
    match t
    case StringField => v.JString?
    case StringArrayField => v.JArray? && AllStrings(v.items)
  }

  /** A JSON value satisfies an object schema: it is an object, every
      required key is present, and every present property has its type.
      Keys the schema does not mention are allowed. */
  predicate Conforms(j: Json, schema: ObjectSchema)
  {
    && j.JObject?
    && (forall k :: k in schema.required ==> HasKey(j.fields, k))
    && (forall i :: 0 <= i < |schema.properties| ==>
          var v := Lookup(j.fields, schema.properties[i].0);
          v.Some? ==> FieldConforms(v.value, schema.properties[i].1))
  }

  function StringsOf(items: seq<Json>): (ss: seq<string>)
    requires AllStrings(items)
    ensures |ss| == |items|
    ensures forall i :: 0 <= i < |items| ==> items[i] == JString(ss[i])
  {
    seq(|items|, i requires 0 <= i < |items| => items[i].s)
  }

  function JsonStrings(ss: seq<string>): (items: seq<Json>)
    ensures |items| == |ss|
    ensures forall i :: 0 <= i < |ss| ==> items[i] == JString(ss[i])
  {
    seq(|ss|, i requires 0 <= i < |ss| => JString(ss[i]))
  }

  /** The JSON object the endpoint is asked to produce for a result. */
  function ToJson(r: AnalysisResult): (j: Json)
    ensures j.JObject? && Keys(j.fields) == ResultFields
  {
    var j := JObject([
      ("title", JString(r.title)),
      ("predictedViews", JString(r.predictedViews)),
      ("ctr", JString(r.ctr)),
      ("insights", JArray(JsonStrings(r.insights))),
      ("recommendations", JArray(JsonStrings(r.recommendations)))]);
    assert Keys(j.fields) == ResultFields;
    j
  }

  /** Reads a typed result out of a parsed reply, when the reply has every
      field at its declared type. */
  function FromJson(j: Json): (r: Option<AnalysisResult>)
  {
    if !j.JObject? then None
    else
      var title := Lookup(j.fields, "title");
      var views := Lookup(j.fields, "predictedViews");
      var ctr := Lookup(j.fields, "ctr");
      var insights := Lookup(j.fields, "insights");
      var recs := Lookup(j.fields, "recommendations");
      if && title.Some? && title.value.JString?
         && views.Some? && views.value.JString?
         && ctr.Some? && ctr.value.JString?
         && insights.Some? && insights.value.JArray? && AllStrings(insights.value.items)
         && recs.Some? && recs.value.JArray? && AllStrings(recs.value.items)
      then
        Some(AnalysisResult(title.value.s, views.value.s, ctr.value.s,
                            StringsOf(insights.value.items), StringsOf(recs.value.items)))
      else None
  }

  /** The schema declares exactly the five `AnalysisResult` fields, all of
      them required, with strings for the labels and string arrays for
      the lists. */
  lemma SchemaMatchesResult()
    ensures PropertyNames(ResponseSchema) == ResultFields
    ensures ResponseSchema.required == ResultFields
    ensures forall i :: 0 <= i < 3 ==> ResponseSchema.properties[i].1 == StringField
    ensures forall i :: 3 <= i < 5 ==> ResponseSchema.properties[i].1 == StringArrayField
  {
  }

  /** Encoding a result and reading it back gives the same result. */
  lemma FromToJson(r: AnalysisResult)
    ensures FromJson(ToJson(r)) == Some(r)
  {
    var fs := ToJson(r).fields;
    LookupLast(fs, "title", 0);
    LookupLast(fs, "predictedViews", 1);
    LookupLast(fs, "ctr", 2);
    LookupLast(fs, "insights", 3);
    LookupLast(fs, "recommendations", 4);
    assert StringsOf(JsonStrings(r.insights)) == r.insights;
    assert StringsOf(JsonStrings(r.recommendations)) == r.recommendations;
  }

  /** A parsed reply yields a typed result exactly when it conforms to the
      response schema. */
  lemma FromJsonIffConforms(j: Json)
    ensures FromJson(j).Some? <==> Conforms(j, ResponseSchema)
  {
    if j.JObject? {
      var s := ResponseSchema;
      if Conforms(j, s) {
        assert "title" in s.required;
        assert "predictedViews" in s.required;
        assert "ctr" in s.required;
        assert "insights" in s.required;
        assert "recommendations" in s.required;
        assert s.properties[0] == ("title", StringField);
        assert s.properties[1] == ("predictedViews", StringField);
        assert s.properties[2] == ("ctr", StringField);
        assert s.properties[3] == ("insights", StringArrayField);
        assert s.properties[4] == ("recommendations", StringArrayField);
      }
      if FromJson(j).Some? {
        forall k | k in s.required
          ensures HasKey(j.fields, k)
        {
        }
        forall i | 0 <= i < |s.properties|
          ensures var v := Lookup(j.fields, s.properties[i].0);
                  v.Some? ==> FieldConforms(v.value, s.properties[i].1)
        {
          assert i == 0 || i == 1 || i == 2 || i == 3 || i == 4;
        }
      }
    }
  }

  /** The encoding of any result satisfies the response schema. */
  lemma ToJsonConforms(r: AnalysisResult)
    ensures Conforms(ToJson(r), ResponseSchema)
  {
    FromToJson(r);
    FromJsonIffConforms(ToJson(r));
  }

  /** A reply that is an object but lacks a required key does not conform:
      the empty object in particular. */
  lemma EmptyObjectDoesNotConform()
    ensures !Conforms(JObject([]), ResponseSchema)
    ensures FromJson(JObject([])) == None
  {
    assert "title" in ResponseSchema.required;
    assert !HasKey([], "title");
  }
}
