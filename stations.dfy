/**
 * useRandomStations: `count` station records built by `Array.from`, record
 * `i` having the identifier `st-<i>-<suffix>` and a coordinate from the
 * generator.
 *
 * The random source is lifted into parameters: per station, the draw behind
 * the suffix comes first (the `id` property is evaluated before `coord`),
 * then the five draws of the generator. The suffix itself, which the source
 * takes from a foreign number-to-text conversion, is an arbitrary string.
 */
module Stations {
  import opened Geo
  import opened Generator
  import opened StationIds

  /** A generated marker: an identifier and a coordinate. */
  datatype Station = Station(id: string, coord: LatLng)

  /** The random inputs behind one station, in call order. */
  datatype StationDraws = StationDraws(suffix: string, point: Draws)

  /** What `Array.from` yields: the records, or the RangeError of an over-long array. */
  datatype Generated = Generated(stations: seq<Station>) | RangeError

  /** The largest length an array can have: 2^32 - 1. */
  const MaxArrayLength: nat := 0xFFFF_FFFF

  /** The length `Array.from` takes from `{ length: count }`: a negative count gives 0. */
  function ArrayLength(count: int): nat {
    if count < 0 then 0 else count
  }

  /** There are draws for the first `n` stations, and their generator draws lie in [0, 1). */
  predicate DrawsCover(draws: seq<StationDraws>, n: nat) {
    n <= |draws| && forall k :: 0 <= k < n ==> draws[k].point.Valid()
  }

  /**
   * useRandomStations (without the caching on `count`): a count of zero or
   * less gives the empty list, any other count up to the largest array
   * length gives exactly `count` stations, and a larger count raises a
   * RangeError. The `k`-th station's identifier is `st-<k>-<suffix>` with its
   * own suffix, from which index and suffix can be read back, and its
   * coordinate is the generator's point for its draws, which lies in the box.
   */
  function RandomStations(count: int, draws: seq<StationDraws>): (r: Generated)
    requires ArrayLength(count) <= MaxArrayLength ==> DrawsCover(draws, ArrayLength(count))
    ensures r.RangeError? <==> count > MaxArrayLength
    ensures count <= 0 ==> r == Generated([])
    ensures 0 <= count <= MaxArrayLength ==> r.Generated? && |r.stations| == count
    ensures r.Generated? ==> forall k :: 0 <= k < |r.stations| ==>
      && r.stations[k].id == StationId(k, draws[k].suffix)
      && ParseStationId(r.stations[k].id) == Some((k, draws[k].suffix))
      && r.stations[k].coord == RandomInlandNearCity(draws[k].point)
      && InBounds(r.stations[k].coord)
  {
    if count > MaxArrayLength then RangeError
    else
      var n := ArrayLength(count);
      assert forall k :: 0 <= k < n ==> ParseStationId(StationId(k, draws[k].suffix)) == Some((k, draws[k].suffix)) by {
        forall k | 0 <= k < n {
          ParseStationIdRoundTrip(k, draws[k].suffix);
        }
      }
      Generated(seq(n, k requires 0 <= k < n =>
        Station(StationId(k, draws[k].suffix), RandomInlandNearCity(draws[k].point))))
  }

  /** No two stations of one generation share an identifier. */
  lemma StationIdsDistinct(count: int, draws: seq<StationDraws>)
    requires ArrayLength(count) <= MaxArrayLength ==> DrawsCover(draws, ArrayLength(count))
    ensures RandomStations(count, draws).Generated? ==>
      var s := RandomStations(count, draws).stations;
      forall j, k :: 0 <= j < k < |s| ==> s[j].id != s[k].id
  {
    var r := RandomStations(count, draws);
    if r.Generated? {
      var s := r.stations;
      forall j, k | 0 <= j < k < |s| ensures s[j].id != s[k].id {
        assert ParseStationId(s[j].id) != ParseStationId(s[k].id);
      }
    }
  }
}
