/** The vertex buffer of star particles: scaled coordinates of the records
    that pass the type and range checks, or a random fallback buffer. */
module StarField {
  import opened Outcomes
  import opened Wire
  import opened JavaScript
  import Sky

  /** Multiplier from unit-sphere coordinates to scene units. */
  const ScaleFactor: real := 100.0

  /** A scaled coordinate must be smaller than this in magnitude. */
  const Limit: real := 2000.0

  /** Number of particles in the fallback buffer. */
  const StarCount: nat := 800

  /** Strictly inside the accepted range. */
  predicate InRange(v: real)
  {
    -Limit < v < Limit
  }

  /** The record is an object whose `X`, `Y` and `Z` are all numbers. */
  predicate NumericXyz(record: Json)
  {
    && record.Obj? && "X" in record.fields && "Y" in record.fields && "Z" in record.fields
    && record.fields["X"].Num? && record.fields["Y"].Num? && record.fields["Z"].Num?
  }

  /** The scaled point of a record: present exactly when its `X`, `Y` and
      `Z` are all numbers and 100 times each is in range, and then it is
      100 times the record's coordinates. */
  function Scaled(record: Json): (p: Option<Sky.Xyz>)
    ensures p.Some? <==>
      && NumericXyz(record)
      && InRange(record.fields["X"].n * ScaleFactor)
      && InRange(record.fields["Y"].n * ScaleFactor)
      && InRange(record.fields["Z"].n * ScaleFactor)
    ensures p.Some? ==> p.value == Sky.Xyz(record.fields["X"].n * ScaleFactor,
                                           record.fields["Y"].n * ScaleFactor,
                                           record.fields["Z"].n * ScaleFactor)
    ensures p.Some? ==> InRange(p.value.x) && InRange(p.value.y) && InRange(p.value.z)
  {
    if NumericXyz(record) then
      var p := Sky.Xyz(record.fields["X"].n * ScaleFactor, record.fields["Y"].n * ScaleFactor,
                       record.fields["Z"].n * ScaleFactor);
      if InRange(p.x) && InRange(p.y) && InRange(p.z) then Some(p) else None
    else None
  }

  /** The accepted points, in input order: the reference the buffer is built against. */
  function Accepted(records: seq<Json>): seq<Sky.Xyz>
  {
    if records == [] then []
    else
      var rest := Accepted(records[1..]);
      match Scaled(records[0])
      case Some(p) => [p] + rest
      case None => rest
  }

  /** Points laid end to end as x, y, z triples. */
  function Flatten(points: seq<Sky.Xyz>): (vs: seq<real>)
    ensures |vs| == 3 * |points|
    ensures forall k :: 0 <= k < |points| ==>
      vs[3 * k] == points[k].x && vs[3 * k + 1] == points[k].y && vs[3 * k + 2] == points[k].z
  {
    if points == [] then []
    else [points[0].x, points[0].y, points[0].z] + Flatten(points[1..])
  }

  /** Accepting distributes over concatenation, so accepted points keep input order. */
  lemma {:induction false} AcceptedConcat(a: seq<Json>, b: seq<Json>)
    ensures Accepted(a + b) == Accepted(a) + Accepted(b)
  {
    if a == [] {
      assert a + b == b;
    } else {
      assert (a + b)[0] == a[0];
      assert (a + b)[1..] == a[1..] + b;
      AcceptedConcat(a[1..], b);
    }
  }

  /** A point is accepted exactly when some record scales to it: records that
      fail the type or range check contribute nothing. */
  lemma {:induction false} AcceptedExactly(records: seq<Json>)
    ensures forall p :: p in Accepted(records) <==> exists r :: r in records && Scaled(r) == Some(p)
  {
    if records != [] {
      AcceptedExactly(records[1..]);
      assert records == [records[0]] + records[1..];
      forall p | p in Accepted(records)
        ensures exists r :: r in records && Scaled(r) == Some(p)
      {
        if Scaled(records[0]) != Some(p) {
          assert p in Accepted(records[1..]);
          var r :| r in records[1..] && Scaled(r) == Some(p);
          assert r in records;
        }
      }
      forall p, r | r in records && Scaled(r) == Some(p)
        ensures p in Accepted(records)
      {
        if r != records[0] {
          assert r in records[1..];
        }
      }
    }
  }

  /** Every accepted point is in range, so every buffer entry is. */
  lemma {:induction false} AcceptedInRange(records: seq<Json>)
    ensures forall p :: p in Accepted(records) ==> InRange(p.x) && InRange(p.y) && InRange(p.z)
  {
    if records != [] {
      AcceptedInRange(records[1..]);
    }
  }

  /** The buffer of a list of points: a whole number of triples, each entry in range. */
  lemma FlattenShape(points: seq<Sky.Xyz>)
    requires forall p :: p in points ==> InRange(p.x) && InRange(p.y) && InRange(p.z)
    ensures |Flatten(points)| % 3 == 0
    ensures forall i :: 0 <= i < |Flatten(points)| ==> InRange(Flatten(points)[i])
  {
    var vs := Flatten(points);
    forall i | 0 <= i < |vs| ensures InRange(vs[i]) {
      var k := i / 3;
      assert points[k] in points;
      assert i == 3 * k || i == 3 * k + 1 || i == 3 * k + 2;
    }
  }

  /** The `forEach` over the records. Reading `X` off a null record throws;
      otherwise each record that passes both checks appends its triple. */
  method BuildVertices(records: seq<Json>) returns (r: Result<seq<real>, JsError>)
    ensures r.Ok? <==> forall i :: 0 <= i < |records| ==> records[i] != Null
    ensures r.Ok? ==> r.value == Flatten(Accepted(records))
  {
    var vertices: seq<real> := [];
    var i := 0;
    while i < |records|
      invariant 0 <= i <= |records|
      invariant forall j :: 0 <= j < i ==> records[j] != Null
      invariant vertices == Flatten(Accepted(records[..i]))
    {
      if records[i] == Null {
        return Err(TypeError);
      }
      AcceptedConcat(records[..i], [records[i]]);
      assert records[..i + 1] == records[..i] + [records[i]];
      match Scaled(records[i]) {
        case Some(p) =>
          assert [records[i]][1..] == [];
          assert Accepted([records[i]]) == [p];
          FlattenConcat(Accepted(records[..i]), [p]);
          assert Flatten([p]) == [p.x, p.y, p.z];
          vertices := vertices + [p.x, p.y, p.z];
        case None =>
          assert [records[i]][1..] == [];
          assert Accepted([records[i]]) == [];
          assert Accepted(records[..i + 1]) == Accepted(records[..i]);
      }
      i := i + 1;
    }
    assert records[..i] == records;
    return Ok(vertices);
  }

  /** Flattening distributes over concatenation. */
  lemma {:induction false} FlattenConcat(a: seq<Sky.Xyz>, b: seq<Sky.Xyz>)
    ensures Flatten(a + b) == Flatten(a) + Flatten(b)
  {
    if a == [] {
      assert a + b == b;
    } else {
      assert (a + b)[0] == a[0];
      assert (a + b)[1..] == a[1..] + b;
      FlattenConcat(a[1..], b);
    }
  }

  /** The fallback buffer built from `rand`, the successive `Math.random` results. */
  predicate IsFallback(vs: seq<real>, rand: nat -> real)
  {
    |vs| == 3 * StarCount && forall i :: 0 <= i < |vs| ==> vs[i] == 2000.0 * rand(i) - 1000.0
  }

  /** `generateFallbackStarCoordinates`: 800 particles, each coordinate
      `2000 * Math.random() - 1000`, drawn x, y, z in turn. With draws in
      [0, 1) every value lies in [-1000, 1000). */
  method GenerateFallback(rand: nat -> real) returns (vs: seq<real>)
    ensures IsFallback(vs, rand)
    ensures (forall i :: 0.0 <= rand(i) < 1.0) ==> forall i :: 0 <= i < |vs| ==> -1000.0 <= vs[i] < 1000.0
  {
    vs := [];
    var star := 0;
    while star < StarCount
      invariant 0 <= star <= StarCount
      invariant |vs| == 3 * star
      invariant forall i :: 0 <= i < |vs| ==> vs[i] == 2000.0 * rand(i) - 1000.0
    {
      var x := 2000.0 * rand(3 * star) - 1000.0;
      var y := 2000.0 * rand(3 * star + 1) - 1000.0;
      var z := 2000.0 * rand(3 * star + 2) - 1000.0;
      vs := vs + [x, y, z];
      star := star + 1;
    }
  }

  /** The API answer can be used: the fetch succeeded with a non-empty
      array and no record is null. */
  predicate ApiUsable(fetched: Fetched<Json>)
  {
    && fetched.Ok? && fetched.value.Arr? && |fetched.value.items| > 0
    && forall i :: 0 <= i < |fetched.value.items| ==> fetched.value.items[i] != Null
  }

  /** `getStarParticleCoordinates`: the buffer of the API's records, or the
      fallback after a failed fetch, a payload that is not a non-empty array,
      or a thrown error. A usable answer whose records all fail the checks
      gives an empty buffer, not the fallback. */
  method GetStarParticleCoordinates(fetched: Fetched<Json>, rand: nat -> real) returns (vs: seq<real>)
    ensures ApiUsable(fetched) ==> vs == Flatten(Accepted(fetched.value.items))
    ensures ApiUsable(fetched) ==> |vs| % 3 == 0 && forall i :: 0 <= i < |vs| ==> InRange(vs[i])
    ensures !ApiUsable(fetched) ==> IsFallback(vs, rand)
  {
    if fetched.Err? || !fetched.value.Arr? || |fetched.value.items| == 0 {
      vs := GenerateFallback(rand);
      return;
    }
    var built := BuildVertices(fetched.value.items);
    match built
    case Err(_) =>
      vs := GenerateFallback(rand);
    case Ok(v) =>
      AcceptedInRange(fetched.value.items);
      FlattenShape(Accepted(fetched.value.items));
      vs := v;
  }
}
