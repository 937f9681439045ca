/** Spherical sky position (right ascension, declination in degrees) to
    cartesian coordinates on the sphere of radius one. */
module Sky {

  /** numpy's `deg2rad`, `cos` and `sin`, left uninterpreted. */
  datatype Trig = Trig(deg2rad: real -> real, cos: real -> real, sin: real -> real)

  /** A cartesian point. */
  datatype Xyz = Xyz(x: real, y: real, z: real)

  /** The fixed radius `r = 1.0` both coordinate computations use. */
  const Radius: real := 1.0

  /** X = r cos(dec) cos(ra), Y = r cos(dec) sin(ra), Z = r sin(dec), angles converted to radians first. */
  function Cartesian(t: Trig, ra: real, dec: real): Xyz
  {
    var raRad := t.deg2rad(ra);
    var decRad := t.deg2rad(dec);
    Xyz(Radius * t.cos(decRad) * t.cos(raRad),
        Radius * t.cos(decRad) * t.sin(raRad),
        Radius * t.sin(decRad))
  }

  /** The one fact about cosine and sine the properties below rely on. */
  ghost predicate Pythagorean(t: Trig)
  {
    forall a :: t.cos(a) * t.cos(a) + t.sin(a) * t.sin(a) == 1.0
  }

  /** cos² + sin² = 1 bounds both functions by one in absolute value. */
  lemma UnitFactors(c: real, s: real)
    requires c * c + s * s == 1.0
    ensures -1.0 <= c <= 1.0 && -1.0 <= s <= 1.0
  {
    assert c * c <= 1.0 && s * s <= 1.0;
  }

  /** A product of two factors in [-1, 1] stays in [-1, 1]. */
  lemma UnitProduct(a: real, b: real)
    requires -1.0 <= a <= 1.0 && -1.0 <= b <= 1.0
    ensures -1.0 <= a * b <= 1.0
  {
    if a >= 0.0 {
      if b >= 0.0 { assert a * b <= a * 1.0; } else { assert a * b >= a * -1.0; }
    } else {
      if b >= 0.0 { assert a * b >= -1.0 * b; } else { assert a * b <= -1.0 * b; }
    }
  }

  /** The identity at one angle. */
  lemma PythagoreanAt(t: Trig, a: real)
    requires Pythagorean(t)
    ensures t.cos(a) * t.cos(a) + t.sin(a) * t.sin(a) == 1.0
  {
  }

  /** Every computed point lies on the unit sphere. */
  lemma UnitSphere(t: Trig, ra: real, dec: real)
    requires Pythagorean(t)
    ensures var p := Cartesian(t, ra, dec); p.x * p.x + p.y * p.y + p.z * p.z == 1.0
  {
    var cr, sr := t.cos(t.deg2rad(ra)), t.sin(t.deg2rad(ra));
    var cd, sd := t.cos(t.deg2rad(dec)), t.sin(t.deg2rad(dec));
    PythagoreanAt(t, t.deg2rad(ra));
    PythagoreanAt(t, t.deg2rad(dec));
    var p := Cartesian(t, ra, dec);
    assert p.x * p.x + p.y * p.y == (cd * cd) * (cr * cr + sr * sr);
  }

  /** Every coordinate of a computed point lies in [-1, 1]. */
  lemma UnitBounds(t: Trig, ra: real, dec: real)
    requires Pythagorean(t)
    ensures var p := Cartesian(t, ra, dec);
      && -1.0 <= p.x <= 1.0 && -1.0 <= p.y <= 1.0 && -1.0 <= p.z <= 1.0
  {
    var cr, sr := t.cos(t.deg2rad(ra)), t.sin(t.deg2rad(ra));
    var cd, sd := t.cos(t.deg2rad(dec)), t.sin(t.deg2rad(dec));
    PythagoreanAt(t, t.deg2rad(ra));
    PythagoreanAt(t, t.deg2rad(dec));
    UnitFactors(cr, sr);
    UnitFactors(cd, sd);
    UnitProduct(cd, cr);
    UnitProduct(cd, sr);
  }
}
