/** The candidate endpoint: fetch candidate records, derive their position,
    classify them, and return one result per record. */
module CandidateEndpoint {
  import opened Outcomes
  import opened Wire
  import opened Python
  import opened Sky
  import opened Inference

  /** Identifier fields never given to the model. */
  const Identifiers: set<string> := {"kepid", "kepoi_name", "ra_str", "dec_str"}

  /** The features passed to the model: the record minus its identifier fields. */
  function ModelFeatures(planet: Object): (features: Object)
    ensures features.Keys == planet.Keys - Identifiers
    ensures forall k :: k in features ==> features[k] == planet[k]
  {
    map k | k in planet && k !in Identifiers :: planet[k]
  }

  /** An identifier column of the schema reaches the model as None; every
      other schema column carries the record's own value. */
  lemma IdentifiersNeverReachModel(planet: Object, required: seq<string>)
    ensures var row := ProjectRow(ModelFeatures(planet), required);
      forall i :: 0 <= i < |row| ==>
        row[i].1 == (if row[i].0 in Identifiers then Null else Get(planet, row[i].0))
  {
  }

  /** What numpy accepts as a number: numbers, and booleans as 0 and 1. */
  function NumericValue(v: Json): Option<real>
  {
    match v
    case Num(n) => Some(n)
    case Bool(b) => Some(if b then 1.0 else 0.0)
    case _ => None
  }

  /** The position of a record: None when `ra` or `dec` is None, a TypeError
      when either is present but not numeric, the cartesian point otherwise. */
  function Position(t: Trig, ra: Json, dec: Json): (r: Result<Option<Xyz>, Fault>)
    ensures r.Ok? && r.value.None? <==> ra == Null || dec == Null
    ensures r.Ok? && r.value.Some? <==>
      NumericValue(ra).Some? && NumericValue(dec).Some?
    ensures r.Ok? && r.value.Some? ==>
      r.value.value == Cartesian(t, NumericValue(ra).value, NumericValue(dec).value)
  {
    if ra != Null && dec != Null then
      match (NumericValue(ra), NumericValue(dec))
      case (Some(a), Some(d)) => Ok(Some(Cartesian(t, a, d)))
      case _ => Err(TypeError)
    else Ok(None)
  }

  /** One entry of the response. */
  datatype Candidate = Candidate(kepid: Json, kepoiName: Json, position: Option<Xyz>, ml: Prediction)

  /** The record is a dict whose position can be computed: the loop body
      reaches the prediction call. */
  predicate Shapeable(t: Trig, planet: Json)
  {
    planet.Obj? && Position(t, Get(planet.fields, "ra"), Get(planet.fields, "dec")).Ok?
  }

  /** The model behaves as a fitted classifier on every record the loop
      reaches the prediction call for, i.e. every record up to the first one
      that raises. */
  predicate Classifiable(a: Artifacts, t: Trig, planets: seq<Json>)
  {
    forall i :: 0 <= i < |planets| && (forall j :: 0 <= j <= i ==> Shapeable(t, planets[j])) ==>
      Fitted(a, ModelFeatures(planets[i].fields))
  }

  /** One iteration of the loop body. */
  function ShapeOne(a: Artifacts, t: Trig, planet: Json): (r: Result<Candidate, Fault>)
    requires Shapeable(t, planet) ==> Fitted(a, ModelFeatures(planet.fields))
    ensures r.Ok? <==> Shapeable(t, planet)
    ensures r.Ok? ==>
      && r.value.kepid == Get(planet.fields, "kepid")
      && r.value.kepoiName == Get(planet.fields, "kepoi_name")
      && (r.value.position.None? <==> Get(planet.fields, "ra") == Null || Get(planet.fields, "dec") == Null)
      && (r.value.position.Some? ==>
            r.value.position.value == Cartesian(t, NumericValue(Get(planet.fields, "ra")).value,
                                                   NumericValue(Get(planet.fields, "dec")).value))
      && r.value.ml == PredictWithPipeline(a, ModelFeatures(planet.fields))
  {
    if !planet.Obj? then Err(AttributeError)
    else
      var get := k => Get(planet.fields, k);
      match Position(t, get("ra"), get("dec"))
      case Err(e) => Err(e)
      case Ok(position) =>
        Ok(Candidate(get("kepid"), get("kepoi_name"), position,
                     PredictWithPipeline(a, ModelFeatures(planet.fields))))
  }

  /** The loop over the sliced records: the first exception ends the request. */
  function ShapeAll(a: Artifacts, t: Trig, planets: seq<Json>): (r: Result<seq<Candidate>, Fault>)
    requires Classifiable(a, t, planets)
    ensures r.Ok? <==> forall i :: 0 <= i < |planets| ==> Shapeable(t, planets[i])
    ensures r.Ok? ==> |r.value| == |planets|
    ensures r.Ok? ==> forall i :: 0 <= i < |planets| ==> r.value[i] == ShapeOne(a, t, planets[i]).value
  {
    if planets == [] then Ok([])
    else
      assert Shapeable(t, planets[0]) ==> Fitted(a, ModelFeatures(planets[0].fields));
      match ShapeOne(a, t, planets[0])
      case Err(e) => Err(e)
      case Ok(c) =>
        assert forall i :: 0 <= i < |planets| - 1 ==> planets[1..][i] == planets[i + 1];
        match ShapeAll(a, t, planets[1..])
        case Err(e) => Err(e)
        case Ok(rest) => Ok([c] + rest)
  }

  /** `get_exoplanet_candidates_ml`: a failed fetch answers []; otherwise
      the decoded body is sliced to `limit` and shaped record by record.
      Slicing a scalar raises TypeError and slicing a dict raises (TypeError
      before Python 3.12, KeyError from it on); a string slices into
      characters, which have no `get`. */
  function GetCandidatesMl(fetched: Fetched<Json>, limit: int, a: Artifacts, t: Trig): (r: Result<seq<Candidate>, Fault>)
    requires fetched.Ok? && fetched.value.Arr? ==> Classifiable(a, t, Head(fetched.value.items, limit))
    ensures fetched.Err? ==> r == Ok([])
    ensures fetched.Ok? && fetched.value.Arr? ==>
      var planets := Head(fetched.value.items, limit);
      && (r.Ok? <==> forall i :: 0 <= i < |planets| ==> Shapeable(t, planets[i]))
      && (r.Ok? ==> |r.value| == |planets|)
      && (r.Ok? ==> forall i :: 0 <= i < |planets| ==>
            && r.value[i].kepid == Get(planets[i].fields, "kepid")
            && r.value[i].kepoiName == Get(planets[i].fields, "kepoi_name")
            && (r.value[i].position.None? <==>
                  Get(planets[i].fields, "ra") == Null || Get(planets[i].fields, "dec") == Null)
            && (r.value[i].position.Some? ==>
                  r.value[i].position.value == Cartesian(t, NumericValue(Get(planets[i].fields, "ra")).value,
                                                            NumericValue(Get(planets[i].fields, "dec")).value))
            && r.value[i].ml == PredictWithPipeline(a, ModelFeatures(planets[i].fields)))
    ensures fetched.Ok? && (fetched.value.Null? || fetched.value.Bool? || fetched.value.Num?) ==>
      r == Err(TypeError)
    ensures fetched.Ok? && fetched.value.Obj? ==> r.Err?
    ensures fetched.Ok? && fetched.value.Str? ==> (r.Ok? <==> |Head(fetched.value.s, limit)| == 0)
  {
    match fetched
    case Err(_) => Ok([])
    case Ok(data) =>
      match data
      case Arr(items) => ShapeAll(a, t, Head(items, limit))
      case Str(s) => if Head(s, limit) == [] then Ok([]) else Err(AttributeError)
      case _ => Err(TypeError)
  }

  /** The slice bounds at work: a zero limit answers no records, and a limit
      past the end answers one result per record. */
  lemma CandidateSliceEdges(fetched: Fetched<Json>, limit: int, a: Artifacts, t: Trig)
    requires fetched.Ok? && fetched.value.Arr?
    requires Classifiable(a, t, Head(fetched.value.items, limit))
    ensures limit == 0 ==> GetCandidatesMl(fetched, limit, a, t) == Ok([])
    ensures limit >= |fetched.value.items| && GetCandidatesMl(fetched, limit, a, t).Ok? ==>
      |GetCandidatesMl(fetched, limit, a, t).value| == |fetched.value.items|
  {
  }

  /** The probability as it appears in the response: a number or null. */
  function ProbabilityJson(p: Option<real>): Json
  {
    match p
    case None => Null
    case Some(v) => Num(v)
  }

  /** The `ml_result` object of one response entry. */
  function PredictionJson(p: Prediction): Json
  {
    Obj(map["prediction" := Str(p.prediction), "probability" := ProbabilityJson(p.probability)])
  }

  /** One response entry as serialised: X, Y and Z are all null together, and
      only when the record had no position. */
  function CandidateJson(c: Candidate): (j: Json)
    ensures j.Obj? && j.fields.Keys == {"kepid", "kepoi_name", "X", "Y", "Z", "ml_result"}
    ensures j.fields["kepid"] == c.kepid && j.fields["kepoi_name"] == c.kepoiName
    ensures j.fields["ml_result"] == PredictionJson(c.ml)
    ensures c.position.None? <==> j.fields["X"] == Null
    ensures c.position.None? <==> j.fields["Y"] == Null
    ensures c.position.None? <==> j.fields["Z"] == Null
    ensures c.position.Some? ==>
      j.fields["X"] == Num(c.position.value.x) && j.fields["Y"] == Num(c.position.value.y)
      && j.fields["Z"] == Num(c.position.value.z)
  {
    var (x, y, z) := match c.position
      case None => (Null, Null, Null)
      case Some(p) => (Num(p.x), Num(p.y), Num(p.z));
    Obj(map["kepid" := c.kepid, "kepoi_name" := c.kepoiName, "X" := x, "Y" := y, "Z" := z,
            "ml_result" := PredictionJson(c.ml)])
  }
}
