/** The request and response shapes of app/models.py, and the JSON values the
    handler passes around: the model's parsed reply and the mapping
    `SymptomResponse.dict()` produces for the store. */
module Models {

  import opened Options

  /** `SymptomInput`: the request body. */
  datatype SymptomInput = SymptomInput(
    symptoms: string,
    age: Option<int>,
    sex: Option<string>,
    duration: Option<string>)

  /** `Condition`: one ranked candidate diagnosis. */
  datatype Condition = Condition(
    name: string,
    rank: int,
    confidence: string,
    rationale: Option<string>)

  /** `SymptomResponse`: the structured answer. */
  datatype SymptomResponse = SymptomResponse(
    conditions: seq<Condition>,
    recommendations: seq<string>,
    triage: string,
    disclaimer: string,
    notes: Option<string>)

  /** A parsed JSON value; an object keeps its members in order. */
  datatype Json =
    | JNull
    | JBool(b: bool)
    | JNumber(n: int)
    | JString(s: string)
    | JArray(items: seq<Json>)
    // Members are kept in order and may repeat a key, which `json.loads`
    // never produces; the parser is abstract, so nothing relies on that.
    | JObject(members: seq<(string, Json)>)

  // ---------------------------------------------------------------------
  // `.dict()`: a model instance as a mapping, fields in declaration order
  // ---------------------------------------------------------------------

  function OptionalStringToJson(o: Option<string>): (j: Json) {
    match o
    case None => JNull
    case Some(s) => JString(s)
  }

  function ConditionToJson(c: Condition): (j: Json) {
    JObject([
      ("name", JString(c.name)),
      ("rank", JNumber(c.rank)),
      ("confidence", JString(c.confidence)),
      ("rationale", OptionalStringToJson(c.rationale))])
  }

  function ConditionsToJson(cs: seq<Condition>): (r: seq<Json>)
    decreases |cs|
  {
    if cs == [] then [] else [ConditionToJson(cs[0])] + ConditionsToJson(cs[1..])
  }

  function StringsToJson(ss: seq<string>): (r: seq<Json>)
    decreases |ss|
  {
    if ss == [] then [] else [JString(ss[0])] + StringsToJson(ss[1..])
  }

  /** `response.dict()`. */
  function ResponseToJson(r: SymptomResponse): (j: Json) {
    JObject([
      ("conditions", JArray(ConditionsToJson(r.conditions))),
      ("recommendations", JArray(StringsToJson(r.recommendations))),
      ("triage", JString(r.triage)),
      ("disclaimer", JString(r.disclaimer)),
      ("notes", OptionalStringToJson(r.notes))])
  }

  // ---------------------------------------------------------------------
  // Reading a mapping back as a `SymptomResponse`
  // ---------------------------------------------------------------------

  function OptionalStringFromJson(j: Json): (r: Option<Option<string>>) {
    match j
    case JNull => Some(None)
    case JString(s) => Some(Some(s))
    case _ => None
  }

  function ConditionFromJson(j: Json): (r: Option<Condition>) {
    if j.JObject? && |j.members| == 4
      && j.members[0].0 == "name" && j.members[0].1.JString?
      && j.members[1].0 == "rank" && j.members[1].1.JNumber?
      && j.members[2].0 == "confidence" && j.members[2].1.JString?
      && j.members[3].0 == "rationale" && OptionalStringFromJson(j.members[3].1).Some?
    then
      Some(Condition(j.members[0].1.s, j.members[1].1.n, j.members[2].1.s,
                     OptionalStringFromJson(j.members[3].1).value))
    else None
  }

  function ConditionsFromJson(js: seq<Json>): (r: Option<seq<Condition>>)
    decreases |js|
  {
    if js == [] then Some([])
    else match (ConditionFromJson(js[0]), ConditionsFromJson(js[1..]))
      case (Some(c), Some(cs)) => Some([c] + cs)
      case _ => None
  }

  function StringsFromJson(js: seq<Json>): (r: Option<seq<string>>)
    decreases |js|
  {
    if js == [] then Some([])
    else match (js[0], StringsFromJson(js[1..]))
      case (JString(s), Some(ss)) => Some([s] + ss)
      case _ => None
  }

  /** Reads a mapping of exactly the shape `.dict()` produces. */
  function ResponseFromJson(j: Json): (r: Option<SymptomResponse>) {
    if j.JObject? && |j.members| == 5
      && j.members[0].0 == "conditions" && j.members[0].1.JArray?
      && j.members[1].0 == "recommendations" && j.members[1].1.JArray?
      && j.members[2].0 == "triage" && j.members[2].1.JString?
      && j.members[3].0 == "disclaimer" && j.members[3].1.JString?
      && j.members[4].0 == "notes"
    then
      match (ConditionsFromJson(j.members[0].1.items), StringsFromJson(j.members[1].1.items),
             OptionalStringFromJson(j.members[4].1))
      case (Some(cs), Some(rs), Some(notes)) =>
        Some(SymptomResponse(cs, rs, j.members[2].1.s, j.members[3].1.s, notes))
      case _ => None
    else None
  }

  lemma {:induction false} ConditionsRoundTrip(cs: seq<Condition>)
    ensures ConditionsFromJson(ConditionsToJson(cs)) == Some(cs)
    decreases |cs|
  {
    if cs != [] {
      ConditionsRoundTrip(cs[1..]);
      assert ConditionsToJson(cs)[1..] == ConditionsToJson(cs[1..]);
      assert [cs[0]] + cs[1..] == cs;
    }
  }

  lemma {:induction false} StringsRoundTrip(ss: seq<string>)
    ensures StringsFromJson(StringsToJson(ss)) == Some(ss)
    decreases |ss|
  {
    if ss != [] {
      StringsRoundTrip(ss[1..]);
      assert StringsToJson(ss)[1..] == StringsToJson(ss[1..]);
      assert [ss[0]] + ss[1..] == ss;
    }
  }

  /** `.dict()` loses nothing: the mapping reads back as the same response. */
  lemma ResponseRoundTrip(r: SymptomResponse)
    ensures ResponseFromJson(ResponseToJson(r)) == Some(r)
  {
    ConditionsRoundTrip(r.conditions);
    StringsRoundTrip(r.recommendations);
  }

  /** Hence distinct responses are stored as distinct mappings. */
  lemma ResponseToJsonInjective(r1: SymptomResponse, r2: SymptomResponse)
    requires ResponseToJson(r1) == ResponseToJson(r2)
    ensures r1 == r2
  {
    ResponseRoundTrip(r1);
    ResponseRoundTrip(r2);
  }
}
