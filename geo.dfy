/**
 * Coordinates, the fixed bounding box of Türkiye, the country's reference
 * centre and the table of city centres, together with the clamp that keeps a
 * point inside the box.
 *
 * Coordinates are exact reals: the rounding of IEEE-754 doubles is not modelled.
 */
module Geo {

  /** A point given by its latitude and longitude in degrees. */
  datatype LatLng = LatLng(latitude: real, longitude: real)

  /** A rectangle given by its south-west and north-east corners. */
  datatype Bounds = Bounds(southWest: LatLng, northEast: LatLng)

  /** The approximate bounding box of Türkiye. */
  const TurkeyBounds: Bounds := Bounds(LatLng(35.8, 25.5), LatLng(42.5, 45.0))

  /** The point toward which generated points are pulled inland. */
  const CountryCenter: LatLng := LatLng(39.0, 35.0)

  /** Provincial centres, in table order; Ankara appears twice, so it takes 2/39 of the city draws. */
  const CityCenters: seq<LatLng> := [
    LatLng(39.9208, 32.8541), // Ankara
    LatLng(41.0151, 28.9795), // Istanbul
    LatLng(38.4237, 27.1428), // Izmir
    LatLng(37.0000, 35.3213), // Adana
    LatLng(36.8969, 30.7133), // Antalya
    LatLng(37.8713, 32.4846), // Konya
    LatLng(38.7312, 35.4787), // Kayseri
    LatLng(39.7506, 37.0150), // Sivas
    LatLng(39.9043, 41.2679), // Erzurum
    LatLng(37.9144, 40.2306), // Diyarbakir
    LatLng(37.0662, 37.3833), // Gaziantep
    LatLng(37.7742, 38.2763), // Adiyaman
    LatLng(37.1674, 38.7955), // Sanliurfa
    LatLng(38.3552, 38.3095), // Malatya
    LatLng(40.1950, 29.0600), // Bursa
    LatLng(39.9208, 32.8541), // Ankara (again)
    LatLng(40.8438, 31.1565), // Duzce
    LatLng(40.9833, 27.5167), // Tekirdag
    LatLng(40.6083, 43.1000), // Kars
    LatLng(40.6000, 43.4167), // Ardahan
    LatLng(40.1467, 26.4086), // Canakkale
    LatLng(39.6472, 27.8861), // Balikesir
    LatLng(40.5833, 36.5667), // Tokat
    LatLng(41.2867, 36.33),   // Samsun
    LatLng(40.6500, 35.8333), // Amasya
    LatLng(38.6743, 34.8556), // Nevsehir
    LatLng(39.5481, 34.9533), // Kirikkale
    LatLng(37.7648, 29.0884), // Denizli
    LatLng(38.4622, 27.2176), // Manisa
    LatLng(37.2153, 28.3636), // Mugla
    LatLng(40.1569, 26.4142), // Gelibolu
    LatLng(40.65, 29.27),     // Yalova
    LatLng(38.7348, 41.4893), // Mus
    LatLng(39.1167, 39.5333), // Tunceli
    LatLng(39.7191, 43.0503), // Igdir
    LatLng(41.0053, 39.7269), // Trabzon
    LatLng(36.8000, 34.6333), // Mersin
    LatLng(38.3552, 31.4167), // Isparta
    LatLng(37.8667, 32.4833)  // Karaman
  ]

  function Abs(x: real): real {
    if x < 0.0 then -x else x
  }

  /** Math.max and Math.min on reals (no NaN here). */
  function Max(a: real, b: real): real {
    if a < b then b else a
  }

  function Min(a: real, b: real): real {
    if a < b then a else b
  }

  /** `x` lies in the closed interval [lo, hi]. */
  predicate Within(x: real, lo: real, hi: real) {
    lo <= x <= hi
  }

  /** `p` lies in the closed box TurkeyBounds. */
  predicate InBounds(p: LatLng) {
    && Within(p.latitude, TurkeyBounds.southWest.latitude, TurkeyBounds.northEast.latitude)
    && Within(p.longitude, TurkeyBounds.southWest.longitude, TurkeyBounds.northEast.longitude)
  }

  /** `Math.max(lo, Math.min(x, hi))`: one axis of the clamp. */
  function Clamp(x: real, lo: real, hi: real): (r: real)
    ensures lo <= hi ==> Within(r, lo, hi)
    ensures Within(x, lo, hi) ==> r == x
  {
    Max(lo, Min(x, hi))
  }

  /** Whenever the interval is not empty, the clamp picks its point nearest to `x`. */
  lemma ClampIsNearest(x: real, lo: real, hi: real, y: real)
    requires Within(y, lo, hi)
    ensures Abs(Clamp(x, lo, hi) - x) <= Abs(y - x)
  {
  }

  /** Clamping two values into the same interval never moves them apart. */
  lemma ClampNonExpansive(x: real, y: real, lo: real, hi: real)
    requires lo <= hi
    ensures Abs(Clamp(x, lo, hi) - Clamp(y, lo, hi)) <= Abs(x - y)
  {
  }

  /** The box is well formed: its south-west corner lies below and left of its north-east corner. */
  lemma BoundsWellFormed()
    ensures TurkeyBounds.southWest.latitude <= TurkeyBounds.northEast.latitude
    ensures TurkeyBounds.southWest.longitude <= TurkeyBounds.northEast.longitude
  {
  }

  /** The country centre lies in the box. */
  lemma CountryCenterInBounds()
    ensures InBounds(CountryCenter)
  {
  }

  /** Every entry of the city table lies in the box. */
  lemma CityCentersInBounds()
    ensures forall i :: 0 <= i < |CityCenters| ==> InBounds(CityCenters[i])
  {
  }

  /**
   * clampToBounds: each coordinate is clamped independently into the box.
   * The result always lies in the box, and a point already in the box is
   * returned unchanged.
   */
  function ClampToBounds(p: LatLng): (r: LatLng)
    ensures InBounds(r)
    ensures InBounds(p) ==> r == p
  {
    LatLng(
      Clamp(p.latitude, TurkeyBounds.southWest.latitude, TurkeyBounds.northEast.latitude),
      Clamp(p.longitude, TurkeyBounds.southWest.longitude, TurkeyBounds.northEast.longitude))
  }

  /** Clamping an already clamped point changes nothing. */
  lemma ClampToBoundsIdempotent(p: LatLng)
    ensures ClampToBounds(ClampToBounds(p)) == ClampToBounds(p)
  {
  }

  /** On each axis the clamped point is at least as close to `p` as any point of the box. */
  lemma ClampToBoundsIsNearest(p: LatLng, q: LatLng)
    requires InBounds(q)
    ensures Abs(ClampToBounds(p).latitude - p.latitude) <= Abs(q.latitude - p.latitude)
    ensures Abs(ClampToBounds(p).longitude - p.longitude) <= Abs(q.longitude - p.longitude)
  {
    ClampIsNearest(p.latitude, TurkeyBounds.southWest.latitude, TurkeyBounds.northEast.latitude, q.latitude);
    ClampIsNearest(p.longitude, TurkeyBounds.southWest.longitude, TurkeyBounds.northEast.longitude, q.longitude);
  }

  /**
   * Clamping never moves a point away from a point of the box, axis by axis:
   * the clamped point is at least as close to `q` as `p` was.
   */
  lemma ClampToBoundsTowardInside(p: LatLng, q: LatLng)
    requires InBounds(q)
    ensures Abs(ClampToBounds(p).latitude - q.latitude) <= Abs(p.latitude - q.latitude)
    ensures Abs(ClampToBounds(p).longitude - q.longitude) <= Abs(p.longitude - q.longitude)
  {
    ClampNonExpansive(p.latitude, q.latitude, TurkeyBounds.southWest.latitude, TurkeyBounds.northEast.latitude);
    ClampNonExpansive(p.longitude, q.longitude, TurkeyBounds.southWest.longitude, TurkeyBounds.northEast.longitude);
  }
}
