/** The client's small numeric helpers that turn API fields into display values. */
module ViewHelpers {
  import opened Outcomes
  import opened Wire
  import opened JavaScript

  /** A JavaScript string is a sequence of UTF-16 code units: a character
      outside the Basic Multilingual Plane becomes a surrogate pair. */
  function Utf16(s: string): (units: seq<nat>)
    ensures |s| <= |units| <= 2 * |s|
    ensures forall u :: u in units ==> u < 0x1_0000
    ensures (forall i :: 0 <= i < |s| ==> s[i] as int < 0x1_0000) ==>
      units == seq(|s|, i requires 0 <= i < |s| => s[i] as int)
  {
    if s == [] then []
    else
      var c := s[0] as int;
      var head := if c < 0x1_0000 then [c]
        else [0xD800 + (c - 0x1_0000) / 0x400, 0xDC00 + (c - 0x1_0000) % 0x400];
      head + Utf16(s[1..])
  }

  /** The encoding of a concatenation is the concatenation of the encodings. */
  lemma {:induction false} Utf16Concat(a: string, b: string)
    ensures Utf16(a + b) == Utf16(a) + Utf16(b)
  {
    if a == [] {
      assert a + b == b;
    } else {
      assert (a + b)[0] == a[0];
      assert (a + b)[1..] == a[1..] + b;
      Utf16Concat(a[1..], b);
    }
  }

  /** The sum of a sequence of numbers. */
  function Sum(xs: seq<nat>): nat
  {
    if xs == [] then 0 else xs[0] + Sum(xs[1..])
  }

  /** Sums add up across a concatenation. */
  lemma {:induction false} SumConcat(a: seq<nat>, b: seq<nat>)
    ensures Sum(a + b) == Sum(a) + Sum(b)
  {
    if a == [] {
      assert a + b == b;
    } else {
      assert (a + b)[0] == a[0];
      assert (a + b)[1..] == a[1..] + b;
      SumConcat(a[1..], b);
    }
  }

  /** `name.split('').reduce((a, b) => a + b.charCodeAt(0), 0)`: the sum of
      the name's UTF-16 code units. */
  function NameHash(name: string): nat
  {
    Sum(Utf16(name))
  }

  /** The hash of a concatenated name is the sum of the parts' hashes. */
  lemma NameHashConcat(a: string, b: string)
    ensures NameHash(a + b) == NameHash(a) + NameHash(b)
  {
    Utf16Concat(a, b);
    SumConcat(Utf16(a), Utf16(b));
  }

  /** `calculateHabitabilityScore`: an integer between 40 and 80 derived from
      the name alone; the empty name scores 40. */
  function HabitabilityScore(name: string): (score: int)
    ensures 40 <= score <= 80
    ensures name == [] ==> score == 40
  {
    Round((NameHash(name) % 100) as real * 0.4 + 40.0)
  }

  /** The score ignores the order of the name's parts: swapping two halves
      leaves it unchanged. */
  lemma HabitabilityScoreSwap(a: string, b: string)
    ensures HabitabilityScore(a + b) == HabitabilityScore(b + a)
  {
    NameHashConcat(a, b);
    NameHashConcat(b, a);
  }

  /** The score of a property value: `split` exists only on strings, so any
      other value (undefined included) throws. */
  function HabitabilityOf(name: Option<Json>): (r: Result<int, JsError>)
    ensures r.Ok? <==> name.Some? && name.value.Str?
    ensures r.Ok? ==> r.value == HabitabilityScore(name.value.s)
  {
    match name
    case Some(Str(s)) => Ok(HabitabilityScore(s))
    case _ => Err(TypeError)
  }

  /** `raToAzimuth`: `ra % 360`. A non-negative angle lands in [0, 360), a
      negative one in (-360, 0], and the result differs from `ra` by a whole
      number of turns. */
  function RaToAzimuth(ra: real): (az: real)
    ensures ra >= 0.0 ==> 0.0 <= az < 360.0
    ensures ra < 0.0 ==> -360.0 < az <= 0.0
    ensures ((ra - az) / 360.0).Floor as real == (ra - az) / 360.0
  {
    var q := ra / 360.0;
    var k := Trunc(q);
    assert q.Floor as real <= q < q.Floor as real + 1.0;
    assert (-q).Floor as real <= -q < (-q).Floor as real + 1.0;
    assert Rem(ra, 360.0) == ra - 360.0 * k as real;
    assert (ra - (ra - 360.0 * k as real)) / 360.0 == k as real;
    Rem(ra, 360.0)
  }

  /** Applying the conversion twice is applying it once. */
  lemma AzimuthIdempotent(ra: real)
    ensures RaToAzimuth(RaToAzimuth(ra)) == RaToAzimuth(ra)
  {
    var az := RaToAzimuth(ra);
    assert Trunc(az / 360.0) == 0;
  }

  /** `decToElevation`: `dec + 45` clamped to [5, 85]. */
  function DecToElevation(dec: real): (el: real)
    ensures 5.0 <= el <= 85.0
    ensures 5.0 <= dec + 45.0 <= 85.0 ==> el == dec + 45.0
    ensures dec + 45.0 < 5.0 ==> el == 5.0
    ensures dec + 45.0 > 85.0 ==> el == 85.0
  {
    var inner := if 85.0 < dec + 45.0 then 85.0 else dec + 45.0;
    if 5.0 > inner then 5.0 else inner
  }

  /** The elevation never decreases as the declination grows. */
  lemma ElevationMonotone(a: real, b: real)
    requires a <= b
    ensures DecToElevation(a) <= DecToElevation(b)
  {
  }

  /** The random draws one candidate's view consumes: the habitability draw
      (used only for a prediction other than "Candidate"), the direction and
      the elevation. */
  datatype Draws = Draws(habitability: real, direction: real, elevation: real)

  /** Every draw lies in [0, 1), as `Math.random` promises. */
  predicate UnitDraws(d: Draws)
  {
    0.0 <= d.habitability < 1.0 && 0.0 <= d.direction < 1.0 && 0.0 <= d.elevation < 1.0
  }

  /** `mlPredictionToHabitability`. Reading `prediction` off null or
      undefined throws. For "Candidate" the score is `(probability || 0.5)`
      as a percentage, so a missing or zero probability gives 50; any other
      prediction draws a score between 20 and 50. `None` is a score the model
      does not follow (a coerced string, array or object probability). */
  function MlPredictionToHabitability(ml: Option<Json>, draw: real): (r: Result<Option<int>, JsError>)
    ensures r.Err? <==> ml == None || ml == Some(Null)
    ensures r.Ok? ==> var prediction := Prop(ml, "prediction").value; var p := Prop(ml, "probability").value;
      && (prediction == Some(Str("Candidate")) && p.Some? && p.value.Num? && p.value.n != 0.0 ==>
            r.value == Some(Round(p.value.n * 100.0)))
      && (prediction == Some(Str("Candidate")) && p.Some? && p.value.Num? && 0.0 <= p.value.n <= 1.0 ==>
            r.value.Some? && 0 <= r.value.value <= 100)
      && (prediction == Some(Str("Candidate")) && (p == None || p == Some(Null) || p == Some(Num(0.0))) ==>
            r.value == Some(50))
      && (prediction != Some(Str("Candidate")) && 0.0 <= draw < 1.0 ==>
            r.value.Some? && 20 <= r.value.value <= 50)
  {
    match Prop(ml, "prediction")
    case Err(e) => Err(e)
    case Ok(prediction) =>
      if prediction == Some(Str("Candidate")) then
        var p := Prop(ml, "probability").value;
        var factor := if Truthy(p) then ToNumber(p) else Some(0.5);
        Ok(if factor.Some? then Some(Round(factor.value * 100.0)) else None)
      else
        Ok(Some(Round(20.0 + draw * 30.0)))
  }
}
