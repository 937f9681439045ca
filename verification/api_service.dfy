/** The client's mapping of API answers into the records its views display.
    Every error thrown while fetching or mapping is caught and answers []. */
module ApiService {
  import opened Outcomes
  import opened Wire
  import opened JavaScript
  import opened ViewHelpers

  /** The `coordinates` sub-object: `X`, `Y`, `Z` copied as read. */
  datatype Coordinates = Coordinates(x: Option<Json>, y: Option<Json>, z: Option<Json>)

  /** The view record of a confirmed planet. `None` in `baseDirection` or
      `baseElevation` is a value the model does not follow (NaN, or a
      coerced string, array or object). */
  datatype ConfirmedView = ConfirmedView(
    name: Option<Json>, ra: Option<Json>, dec: Option<Json>, coordinates: Coordinates,
    habitability: int, baseDirection: Option<real>, baseElevation: Option<real>)

  /** A property read that is known not to throw. */
  function Field(record: Json, key: string): Option<Json>
    requires record != Null
  {
    Prop(Some(record), key).value
  }

  /** A confirmed record can be mapped: it is not null and its `kepoi_name`
      is a string (the habitability hash splits it). */
  predicate ConfirmedMappable(record: Json)
  {
    record != Null && Field(record, "kepoi_name").Some? && Field(record, "kepoi_name").value.Str?
  }

  /** The arrow function given to `data.map` in `getConfirmedExoplanets`. */
  function ConfirmedViewOf(record: Json): (r: Result<ConfirmedView, JsError>)
    ensures r.Ok? <==> ConfirmedMappable(record)
    ensures r.Ok? ==>
      && r.value.name == Field(record, "kepoi_name")
      && r.value.ra == Field(record, "ra") && r.value.dec == Field(record, "dec")
      && r.value.coordinates == Coordinates(Field(record, "X"), Field(record, "Y"), Field(record, "Z"))
      && r.value.habitability == HabitabilityScore(Field(record, "kepoi_name").value.s)
      && (r.value.baseDirection.Some? <==> ToNumber(Field(record, "ra")).Some?)
      && (r.value.baseElevation.Some? <==> ToNumber(Field(record, "dec")).Some?)
      && (r.value.baseDirection.Some? ==>
            r.value.baseDirection.value == RaToAzimuth(ToNumber(Field(record, "ra")).value))
      && (r.value.baseElevation.Some? ==>
            r.value.baseElevation.value == DecToElevation(ToNumber(Field(record, "dec")).value))
  {
    if record == Null then Err(TypeError)
    else
      match HabitabilityOf(Field(record, "kepoi_name"))
      case Err(e) => Err(e)
      case Ok(habitability) =>
        var ra, dec := ToNumber(Field(record, "ra")), ToNumber(Field(record, "dec"));
        Ok(ConfirmedView(
          Field(record, "kepoi_name"), Field(record, "ra"), Field(record, "dec"),
          Coordinates(Field(record, "X"), Field(record, "Y"), Field(record, "Z")),
          habitability,
          if ra.Some? then Some(RaToAzimuth(ra.value)) else None,
          if dec.Some? then Some(DecToElevation(dec.value)) else None))
  }

  /** `getConfirmedExoplanets`: one view record per API record, in order, or
      [] when the fetch fails, the body is not an array, or any record cannot
      be mapped. */
  function GetConfirmedExoplanets(fetched: Fetched<Json>): (views: seq<ConfirmedView>)
    ensures !(fetched.Ok? && fetched.value.Arr?) ==> views == []
    ensures fetched.Ok? && fetched.value.Arr? ==>
      var items := fetched.value.items;
      && ((forall i :: 0 <= i < |items| ==> ConfirmedMappable(items[i])) ==>
            && |views| == |items|
            && forall i :: 0 <= i < |items| ==>
                 && views[i] == ConfirmedViewOf(items[i]).value
                 && views[i].name == Field(items[i], "kepoi_name")
                 && views[i].ra == Field(items[i], "ra")
                 && views[i].dec == Field(items[i], "dec")
                 && views[i].coordinates == Coordinates(Field(items[i], "X"), Field(items[i], "Y"), Field(items[i], "Z"))
                 && views[i].habitability == HabitabilityScore(Field(items[i], "kepoi_name").value.s)
                 && 40 <= views[i].habitability <= 80
                 && (views[i].baseElevation.Some? ==> 5.0 <= views[i].baseElevation.value <= 85.0))
      && (!(forall i :: 0 <= i < |items| ==> ConfirmedMappable(items[i])) ==> views == [])
  {
    match fetched
    case Ok(Arr(items)) =>
      if forall i :: 0 <= i < |items| ==> ConfirmedMappable(items[i]) then
        seq(|items|, i requires 0 <= i < |items| => ConfirmedViewOf(items[i]).value)
      else []
    case _ => []
  }

  /** The view record of an ML candidate. `None` in `habitability` is a score
      the model does not follow. */
  datatype CandidateView = CandidateView(
    name: Option<Json>, kepid: Option<Json>, coordinates: Coordinates, mlPrediction: Option<Json>,
    habitability: Option<int>, baseDirection: real, baseElevation: real)

  /** A candidate record can be mapped: it is not null and its `ml_result`
      is neither null nor missing. */
  predicate CandidateMappable(record: Json)
  {
    record != Null && Field(record, "ml_result") != None && Field(record, "ml_result") != Some(Null)
  }

  /** The arrow function given to `data.map` in `getCandidatesWithML`, with
      this record's random draws. */
  function CandidateViewOf(record: Json, draws: Draws): (r: Result<CandidateView, JsError>)
    ensures r.Ok? <==> CandidateMappable(record)
    ensures r.Ok? ==>
      && r.value.name == Field(record, "kepoi_name") && r.value.kepid == Field(record, "kepid")
      && r.value.coordinates == Coordinates(Field(record, "X"), Field(record, "Y"), Field(record, "Z"))
      && r.value.mlPrediction == Field(record, "ml_result")
      && r.value.habitability == MlPredictionToHabitability(Field(record, "ml_result"), draws.habitability).value
      && (UnitDraws(draws) ==> 0.0 <= r.value.baseDirection < 360.0 && 0.0 <= r.value.baseElevation < 90.0)
  {
    if record == Null then Err(TypeError)
    else
      var ml := Field(record, "ml_result");
      match MlPredictionToHabitability(ml, draws.habitability)
      case Err(e) => Err(e)
      case Ok(habitability) =>
        Ok(CandidateView(
          Field(record, "kepoi_name"), Field(record, "kepid"),
          Coordinates(Field(record, "X"), Field(record, "Y"), Field(record, "Z")),
          ml, habitability, draws.direction * 360.0, draws.elevation * 90.0))
  }

  /** `getCandidatesWithML`: one view record per candidate, in order, or []
      when the fetch fails, the body is not an array, or any record cannot be
      mapped. `draws(i)` are the random draws of the i-th record. */
  function GetCandidatesWithMl(fetched: Fetched<Json>, draws: nat -> Draws): (views: seq<CandidateView>)
    ensures !(fetched.Ok? && fetched.value.Arr?) ==> views == []
    ensures fetched.Ok? && fetched.value.Arr? ==>
      var items := fetched.value.items;
      && ((forall i :: 0 <= i < |items| ==> CandidateMappable(items[i])) ==>
            && |views| == |items|
            && forall i :: 0 <= i < |items| ==>
                 && views[i] == CandidateViewOf(items[i], draws(i)).value
                 && views[i].name == Field(items[i], "kepoi_name")
                 && views[i].kepid == Field(items[i], "kepid")
                 && views[i].coordinates == Coordinates(Field(items[i], "X"), Field(items[i], "Y"), Field(items[i], "Z"))
                 && views[i].mlPrediction == Field(items[i], "ml_result")
                 && (UnitDraws(draws(i)) ==>
                       0.0 <= views[i].baseDirection < 360.0 && 0.0 <= views[i].baseElevation < 90.0))
      && (!(forall i :: 0 <= i < |items| ==> CandidateMappable(items[i])) ==> views == [])
  {
    match fetched
    case Ok(Arr(items)) =>
      if forall i :: 0 <= i < |items| ==> CandidateMappable(items[i]) then
        var views := seq(|items|, i requires 0 <= i < |items| => CandidateViewOf(items[i], draws(i)).value);
        assert forall i :: 0 <= i < |items| ==> views[i] == CandidateViewOf(items[i], draws(i)).value;
        views
      else []
    case _ => []
  }
}
