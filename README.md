# RandomRoute station generator, modelled in Dafny

This project models the coordinate generator behind the RandomRoute map screen (`map.tsx`). The screen scatters random station markers over Türkiye. Each marker starts at one entry of a fixed table of provincial centres. It is pulled part of the way toward a fixed country centre and moved by a small random jitter. Then it is clamped into the country's approximate bounding box. A list routine builds `count` such stations, each with an identifier `st-<index>-<suffix>`.

Modules, one per part of the file:

- `Geo` (`geo.dfy`): the `LatLng` point and the box. It holds the constants `TurkeyBounds`, `CountryCenter` and `CityCenters`, and `ClampToBounds`.
- `Generator` (`generator.dfy`): `RandomInlandNearCity`. Each of the five calls to `Math.random()` becomes a field of `Draws`, in call order. Each field is a real in [0, 1).
- `StationIds` (`station_ids.dfy`): the identifier `st-<i>-<suffix>`, with the decimal rendering of `i`. It also has a parser that recovers the index and the suffix.
- `Stations` (`stations.dfy`): `RandomStations`, the list built by `Array.from` in `useRandomStations`.

Coordinates are exact `real`s. Everything is a pure function: the source has no loops and no mutation.

Two comments in the source disagree with the code. The model follows the code.

- `map.tsx:92` says the pull ranges over 0.0–0.35. Line 93 computes `0.15 + r * 0.20`, so the pull is in [0.15, 0.35) (`PullFactor`).
- `map.tsx:96` says the jitter is ±(0.05–0.25) degrees. Lines 97-101 multiply a value in [-0.5, 0.5) by a scale in [0.05, 0.25). So the jitter on each axis is less than 0.125 in absolute value (`JitterOffset`, `CandidateNearPulled`).

## Model

| member | source | states |
|---|---|---|
| `Geo.Clamp` | map.tsx:72-75 | `Math.max(lo, Math.min(x, hi))` lies in [lo, hi] whenever lo ≤ hi, and returns x unchanged when x is already in [lo, hi] |
| `Geo.ClampIsNearest` | map.tsx:72-75 | the clamped value is at least as close to x as any value of [lo, hi] |
| `Geo.ClampNonExpansive` | map.tsx:72-75 | clamping two values into the same interval never moves them further apart |
| `Geo.BoundsWellFormed` | map.tsx:7-10 | the box's south-west corner is at or below and left of its north-east corner on both axes |
| `Geo.CountryCenterInBounds` | map.tsx:12 | the country centre lies inside the box |
| `Geo.CityCentersInBounds` | map.tsx:27-67 | every entry of the city table lies inside the box |
| `Geo.ClampToBounds` | map.tsx:70-77 | the result always lies in the box; a point already in the box is returned unchanged |
| `Geo.ClampToBoundsIdempotent` | map.tsx:70-77 | clamping an already clamped point changes nothing |
| `Geo.ClampToBoundsIsNearest` | map.tsx:70-77 | on each axis the clamped point is at least as close to the input as any point of the box |
| `Geo.ClampToBoundsTowardInside` | map.tsx:70-77 | on each axis the clamped point is no farther from any given point of the box than the input was |
| `Generator.CityIndex` | map.tsx:84 | `Math.floor(r * CITY_CENTERS.length)` with r in [0, 1) is a valid index of the table |
| `Generator.CityIndexSelectsInterval` | map.tsx:84 | city i is chosen exactly when r lies in [i/n, (i+1)/n), so every entry has an equal share of the draws (both directions) |
| `Generator.PullFactor` | map.tsx:93 | the pull lies in [0.15, 0.35) |
| `Generator.JitterScale` | map.tsx:97 | the jitter scale lies in [0.05, 0.25) |
| `Generator.JitterOffset` | map.tsx:98-101 | the jitter on one axis lies in [-scale/2, scale/2) |
| `Generator.PullToward` | map.tsx:87-94 | after the pull, the remaining offset to the centre on each axis is `1 - pull` times the base's offset |
| `Generator.PullTowardShrinks` | map.tsx:87-94 | For a pull in [0, 1], the pulled point lies on each axis between the base and the centre at `1 - pull` times the base's distance from the centre, which is at most 0.85 times that distance when the pull is at least 0.15. |
| `Generator.BaseInBounds` | map.tsx:84 | the city picked by the first draw lies in the box |
| `Generator.PulledShrinksDistance` | map.tsx:84-94 | the pulled city centre lies between the city and the country centre on each axis, at most 0.85 times as far from the centre, and inside the box |
| `Generator.CandidateNearPulled` | map.tsx:96-106 | the unclamped candidate is less than 0.125 away from the pulled point on each axis |
| `Generator.RandomInlandNearCity` | map.tsx:83-109 | the generated point lies in the box and is less than 0.125 away on each axis from the chosen city pulled toward the centre |
| `Generator.UnclampedWhenInside` | map.tsx:103-108 | when the candidate already lies in the box, it is returned as is |
| `Generator.ResultPulledInland` | map.tsx:83-109 | on each axis the generated point's distance to the country centre is less than 0.85 times the city's plus 0.125 |
| `Generator.AllZeroDraws` | map.tsx:83-109 | with every draw at 0 the result is Ankara pulled by 0.15 and jittered by -0.025 on both axes: (39.75768, 33.150985) |
| `StationIds.NatToString` | map.tsx:116 | the rendering of the index is a non-empty string of decimal digits, so it holds no `-` |
| `StationIds.ParseNatToString` | map.tsx:116 | parsing the rendering of n as a decimal number gives back n |
| `StationIds.NatToStringInjective` | map.tsx:116 | different indices render to different strings |
| `StationIds.StationId` | map.tsx:116 | the identifier is `st-`, then the index's digits, then `-`, then the suffix, at those positions |
| `StationIds.ParseStationIdRoundTrip` | map.tsx:116 | the index and the suffix can be recovered from every identifier, whatever the suffix contains |
| `StationIds.StationIdsDiffer` | map.tsx:116 | identifiers built for different indices differ, whatever their suffixes |
| `Stations.RandomStations` | map.tsx:112-121 | a count of zero or less gives the empty list, a count up to 2^32 - 1 gives exactly `count` stations, and a larger count raises RangeError; station k's identifier is `st-<k>-<suffix>` with its own suffix and parses back to (k, suffix), and its coordinate is the generator's point for its draws and lies in the box |
| `Stations.StationIdsDistinct` | map.tsx:115-118 | no two stations of one generation share an identifier |

## Left out

- The screen itself: `MapScreen`, `MapView`, `Marker`, the style sheet and the initial camera region `INITIAL_REGION` (map.tsx:15-20, map.tsx:123-146). These are configuration of a foreign map widget, not logic.
- The caching of the list on `count` by React's `useMemo` (map.tsx:113, map.tsx:119). It is re-render behaviour of the framework. `RandomStations` models one evaluation of the cached callback.
- `Math.random()` itself. Its results are parameters constrained to [0, 1) (`Draws`, `StationDraws`).
- `Math.random().toString(36).slice(2, 8)`, the suffix of an identifier. This is a foreign number-to-text conversion. The suffix is an arbitrary string in the model. Every property about identifiers holds for any suffix, including one that contains `-`.
- IEEE-754 doubles. Coordinates and draws are exact reals, so rounding, NaN and infinities are not modelled.
- Non-integer counts: `count` is an integer in the model. In the source a fractional count is truncated toward zero, NaN and -Infinity give an empty list, and +Infinity raises RangeError; none of these is modelled. The 2^53 - 1 cap of the length conversion is not modelled either: any count above 2^32 - 1 already raises RangeError.
- Whether a generated point lies on land rather than at sea. The source neither checks nor promises it.
