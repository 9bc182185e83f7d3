/**
 * randomInlandNearCity: one random point near a city centre, pulled toward
 * the country centre, jittered and clamped into the box.
 *
 * The five calls to the random source become the five fields of `Draws`, in
 * the order the source makes them; each lies in [0, 1). The generator is then
 * a total, deterministic function of its draws.
 */
module Generator {
  import opened Geo

  /** A value the random source can return. */
  predicate Unit(r: real) {
    0.0 <= r < 1.0
  }

  /** The five random draws of one call, in call order. */
  datatype Draws = Draws(city: real, pull: real, scale: real, jitterLat: real, jitterLng: real)
  {
    predicate Valid() {
      Unit(city) && Unit(pull) && Unit(scale) && Unit(jitterLat) && Unit(jitterLng)
    }
  }

  /** `Math.floor(r * CITY_CENTERS.length)`: always a real index of the table. */
  function CityIndex(r: real): (i: nat)
    requires Unit(r)
    ensures i < |CityCenters|
  {
    (r * |CityCenters| as real).Floor
  }

  /** City `i` is chosen exactly for the draws in [i/n, (i+1)/n): every city has an equal share. */
  lemma CityIndexSelectsInterval(r: real, i: nat)
    requires Unit(r) && i < |CityCenters|
    ensures CityIndex(r) == i <==>
      (i as real) / (|CityCenters| as real) <= r < (i + 1) as real / (|CityCenters| as real)
  {
    var n := |CityCenters| as real;
    var k := CityIndex(r);
    assert k as real <= r * n < k as real + 1.0;
    if k == i {
      assert (i as real) / n <= r;
      assert r < (i + 1) as real / n;
    } else if k < i {
      assert r * n < i as real;
      assert r < (i as real) / n;
    } else {
      assert (i + 1) as real <= r * n;
      assert (i + 1) as real / n <= r;
    }
  }

  /** The inward pull factor `0.15 + r * 0.20`: in [0.15, 0.35). */
  function PullFactor(r: real): (pull: real)
    requires Unit(r)
    ensures 0.15 <= pull < 0.35
  {
    0.15 + r * 0.20
  }

  /** The jitter scale `0.05 + r * 0.20`: in [0.05, 0.25). */
  function JitterScale(r: real): (scale: real)
    requires Unit(r)
    ensures 0.05 <= scale < 0.25
  {
    0.05 + r * 0.20
  }

  /** One axis of jitter, `(r - 0.5) * scale`: in [-scale/2, scale/2). */
  function JitterOffset(r: real, scale: real): (j: real)
    requires Unit(r) && 0.0 < scale
    ensures -scale / 2.0 <= j < scale / 2.0
  {
    (r - 0.5) * scale
  }

  /**
   * `base + pull * (center - base)` on each axis: the remaining distance to
   * `center` is `1 - pull` times the original one.
   */
  function PullToward(base: LatLng, center: LatLng, pull: real): (p: LatLng)
    ensures p.latitude - center.latitude == (1.0 - pull) * (base.latitude - center.latitude)
    ensures p.longitude - center.longitude == (1.0 - pull) * (base.longitude - center.longitude)
  {
    var toCenter := LatLng(center.latitude - base.latitude, center.longitude - base.longitude);
    var inward := LatLng(toCenter.latitude * pull, toCenter.longitude * pull);
    LatLng(base.latitude + inward.latitude, base.longitude + inward.longitude)
  }

  /** `x` lies on the closed segment between `a` and `b`. */
  predicate Between(x: real, a: real, b: real) {
    (a <= x <= b) || (b <= x <= a)
  }

  /** Scaling `t` by a factor in [0, 1] gives a value `y` between 0 and `t`. */
  lemma ScaleBetweenZero(k: real, t: real, y: real)
    requires 0.0 <= k <= 1.0 && y == k * t
    ensures 0.0 <= t ==> 0.0 <= y <= t
    ensures t < 0.0 ==> t <= y <= 0.0
  {
    if t >= 0.0 {
      assert 0.0 <= k * t;
      assert t - k * t == (1.0 - k) * t;
    } else {
      assert k * t <= 0.0;
      assert k * t - t == (1.0 - k) * (-t);
    }
  }

  lemma MulNonNegative(a: real, b: real)
    requires 0.0 <= a && 0.0 <= b
    ensures 0.0 <= a * b
  {
  }

  /**
   * One axis of the pull: the pulled value `x` lies between the base `b` and
   * the centre `c`, and its distance to `c` is `1 - pull` times that of `b`,
   * so at most 0.85 times it once the pull is at least 0.15.
   */
  lemma AxisPull(b: real, c: real, pull: real, x: real)
    requires 0.0 <= pull <= 1.0
    requires x - c == (1.0 - pull) * (b - c)
    ensures Between(x, b, c)
    ensures Abs(x - c) == (1.0 - pull) * Abs(b - c)
    ensures 0.15 <= pull ==> Abs(x - c) <= 0.85 * Abs(b - c)
  {
    var k, t := 1.0 - pull, b - c;
    ScaleBetweenZero(k, t, x - c);
    if t < 0.0 {
      assert k * t == -(k * (-t));
      assert 0.0 <= k * (-t);
    } else {
      assert 0.0 <= k * t;
    }
    if 0.15 <= pull {
      var m := Abs(t);
      assert 0.0 <= 0.85 - k && 0.0 <= m;
      MulNonNegative(0.85 - k, m);
      assert 0.85 * m - k * m == (0.85 - k) * m;
    }
  }

  /**
   * With a pull in [0, 1] the pulled point lies between the base and the
   * centre on each axis, and its distance to the centre is `1 - pull` times
   * the base's, so at most 0.85 times it once the pull is at least 0.15.
   */
  lemma PullTowardShrinks(base: LatLng, center: LatLng, pull: real)
    requires 0.0 <= pull <= 1.0
    ensures Between(PullToward(base, center, pull).latitude, base.latitude, center.latitude)
    ensures Between(PullToward(base, center, pull).longitude, base.longitude, center.longitude)
    ensures Abs(PullToward(base, center, pull).latitude - center.latitude)
         == (1.0 - pull) * Abs(base.latitude - center.latitude)
    ensures Abs(PullToward(base, center, pull).longitude - center.longitude)
         == (1.0 - pull) * Abs(base.longitude - center.longitude)
    ensures 0.15 <= pull ==>
      Abs(PullToward(base, center, pull).latitude - center.latitude) <= 0.85 * Abs(base.latitude - center.latitude)
    ensures 0.15 <= pull ==>
      Abs(PullToward(base, center, pull).longitude - center.longitude) <= 0.85 * Abs(base.longitude - center.longitude)
  {
    var p := PullToward(base, center, pull);
    AxisPull(base.latitude, center.latitude, pull, p.latitude);
    AxisPull(base.longitude, center.longitude, pull, p.longitude);
  }

  /** A point between two points of the box, axis by axis, lies in the box. */
  lemma BetweenInBounds(p: LatLng, a: LatLng, b: LatLng)
    requires InBounds(a) && InBounds(b)
    requires Between(p.latitude, a.latitude, b.latitude)
    requires Between(p.longitude, a.longitude, b.longitude)
    ensures InBounds(p)
  {
  }

  /** The city centre picked by the first draw. */
  function Base(d: Draws): LatLng
    requires d.Valid()
  {
    CityCenters[CityIndex(d.city)]
  }

  /** The city centre after the inward pull, before jitter. */
  function Pulled(d: Draws): LatLng
    requires d.Valid()
  {
    PullToward(Base(d), CountryCenter, PullFactor(d.pull))
  }

  /** The unclamped candidate point: pulled city centre plus jitter. */
  function Candidate(d: Draws): LatLng
    requires d.Valid()
  {
    var scale := JitterScale(d.scale);
    var p := Pulled(d);
    LatLng(p.latitude + JitterOffset(d.jitterLat, scale), p.longitude + JitterOffset(d.jitterLng, scale))
  }

  /** The chosen city centre lies in the box. */
  lemma BaseInBounds(d: Draws)
    requires d.Valid()
    ensures InBounds(Base(d))
  {
    CityCentersInBounds();
  }

  /**
   * The pulled point lies between the chosen city and the country centre on
   * each axis, at most 0.85 times the city's distance from the centre, and
   * therefore in the box.
   */
  lemma PulledShrinksDistance(d: Draws)
    requires d.Valid()
    ensures Between(Pulled(d).latitude, Base(d).latitude, CountryCenter.latitude)
    ensures Between(Pulled(d).longitude, Base(d).longitude, CountryCenter.longitude)
    ensures Abs(Pulled(d).latitude - CountryCenter.latitude)
         <= 0.85 * Abs(Base(d).latitude - CountryCenter.latitude)
    ensures Abs(Pulled(d).longitude - CountryCenter.longitude)
         <= 0.85 * Abs(Base(d).longitude - CountryCenter.longitude)
    ensures InBounds(Pulled(d))
  {
    PullTowardShrinks(Base(d), CountryCenter, PullFactor(d.pull));
    BaseInBounds(d);
    CountryCenterInBounds();
    BetweenInBounds(Pulled(d), Base(d), CountryCenter);
  }

  /** The jitter moves the candidate less than 0.125 away from the pulled point on each axis. */
  lemma CandidateNearPulled(d: Draws)
    requires d.Valid()
    ensures Abs(Candidate(d).latitude - Pulled(d).latitude) < 0.125
    ensures Abs(Candidate(d).longitude - Pulled(d).longitude) < 0.125
  {
  }

  /**
   * randomInlandNearCity: the result lies in the box, and less than 0.125
   * away on each axis from the city centre pulled toward the country centre.
   */
  function RandomInlandNearCity(d: Draws): (p: LatLng)
    requires d.Valid()
    ensures InBounds(p)
    ensures Abs(p.latitude - Pulled(d).latitude) < 0.125
    ensures Abs(p.longitude - Pulled(d).longitude) < 0.125
  {
    PulledShrinksDistance(d);
    CandidateNearPulled(d);
    ClampToBoundsTowardInside(Candidate(d), Pulled(d));
    ClampToBounds(Candidate(d))
  }

  /** Whenever the candidate already lies in the box, it is the result: no clamping happens. */
  lemma UnclampedWhenInside(d: Draws)
    requires d.Valid() && InBounds(Candidate(d))
    ensures RandomInlandNearCity(d) == Candidate(d)
  {
  }

  /** The generated point is nearer the country centre than the city, up to the jitter. */
  lemma ResultPulledInland(d: Draws)
    requires d.Valid()
    ensures Abs(RandomInlandNearCity(d).latitude - CountryCenter.latitude)
          < 0.85 * Abs(Base(d).latitude - CountryCenter.latitude) + 0.125
    ensures Abs(RandomInlandNearCity(d).longitude - CountryCenter.longitude)
          < 0.85 * Abs(Base(d).longitude - CountryCenter.longitude) + 0.125
  {
    PulledShrinksDistance(d);
  }

  /**
   * With every draw at 0: Ankara (first entry), pull 0.15, jitter scale 0.05
   * and jitter -0.025 on both axes.
   */
  lemma AllZeroDraws()
    ensures RandomInlandNearCity(Draws(0.0, 0.0, 0.0, 0.0, 0.0)) == LatLng(39.75768, 33.150985)
  {
    var d := Draws(0.0, 0.0, 0.0, 0.0, 0.0);
    assert CityIndex(d.city) == 0;
    assert Candidate(d) == LatLng(39.75768, 33.150985);
  }
}
