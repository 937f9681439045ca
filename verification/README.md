# Exoplanet coordinate API and web client — a Dafny model

This project models the data-shaping core of a small exoplanet service and its
web client.

The backend (`Api/main.py`) does two jobs. It downloads the Kepler Objects of
Interest (KOI) table once, drops rows without a sky position, derives cartesian
coordinates and serves the first `limit` rows. It also fetches candidate
records, derives their coordinates, projects each record onto the trained
model's column schema and classifies it.

The client service (`src/services/ExoplanetAPIService.js`) maps the API's
answers into view records. It builds a vertex buffer of star particles, with
a random fallback buffer, and computes a few display values: a name-derived
habitability score, an azimuth, a clamped elevation and an ML-based
habitability.

Everything is modelled as pure functions over immutable values. JSON values
are `Wire.Json`; JSON null doubles as Python's None and as a missing table
cell. Numbers are reals. Network outcomes, numpy's trigonometry, the sklearn
artifacts and `Math.random` are parameters:

- a fetch is a `Result` of the decoded body or a `FetchError`;
- `Sky.Trig` bundles `deg2rad`, `cos` and `sin`;
- `Inference.Model` bundles `preprocessor.transform`, `model.predict` and the
  optional `model.predict_proba`;
- random draws are a `nat -> real` stream (fallback buffer) or one
  `ViewHelpers.Draws` record per candidate.

An exception that escapes an endpoint, which the web framework turns into a
server error, is an `Err(Python.Fault)`. An error thrown in the client is an
`Err(JavaScript.JsError)`, which each client operation catches.

Modules follow the program: `Python` and `JavaScript` hold the language
semantics the code leans on (`dict.get`, slicing, property reads, truthiness,
`%`, `Math.round`). `Sky`, `Inference`, `CandidateEndpoint` and
`KoiCoordinates` are the backend. `ViewHelpers`, `StarField` and
`ApiService` are the client. `EndToEnd` relates the backend's answers to what
the client does with them.

## Behaviour worth knowing

- A negative `limit` is a Python slice bound, so it drops records from the end.
- The artifacts are loaded at import; there is no "unloaded model" state.
- The coordinate cache is `lru_cache(maxsize=1)` on a zero-argument function.
  It remembers the first normal return, including the empty frame of a failed
  download. It does not remember a raised exception, offers no invalidation and
  never falls back to an earlier entry.
- An unknown raw label raises `KeyError`; no fallback label exists.
- A malformed candidate payload (a dict, a scalar, a non-dict record, a
  non-numeric position) raises, which the web framework answers with a server
  error. The one coercion is numpy's: a boolean `ra` or `dec` is taken as 0 or 1.

## Model

| member | source | states |
|---|---|---|
| `Python.Head` | Api/main.py:124 | `data[:limit]` (and `head(limit)`) is a prefix of the input: `limit` elements, or all when `limit` is larger, or all but the last `-limit` for a negative limit |
| `Seqs.Filter` | Api/main.py:50 | the filtered rows are exactly the input rows satisfying the predicate, never more than the input |
| `Seqs.FilterConcat` | Api/main.py:50 | filtering distributes over concatenation, so surviving rows keep their relative order |
| `Sky.UnitSphere` | Api/main.py:52-58 | given cos² + sin² = 1, every derived point satisfies X² + Y² + Z² = 1 |
| `Sky.UnitBounds` | Api/main.py:132-137 | given cos² + sin² = 1, each of X, Y, Z lies in [-1, 1] |
| `Inference.ProjectRow` | Api/main.py:91 | the prediction row's keys are exactly the schema's columns, in schema order when they are distinct, with no duplicates; each value is `features.get(col)` (None when absent) |
| `Inference.ProjectIgnoresExtraKeys` | Api/main.py:91 | two feature records that agree on the schema columns give the same row: keys outside the schema are ignored |
| `Inference.Max` | Api/main.py:102 | the reported maximum is one of the class probabilities and no probability exceeds it |
| `Inference.PredictWithPipeline` | Api/main.py:89-107 | the label is "Candidate" exactly for raw class 0 and "False Positive" exactly for raw class 1; the probability is None exactly when the model lacks `predict_proba`, otherwise the largest class probability |
| `CandidateEndpoint.ModelFeatures` | Api/main.py:142-143 | the model's features are the record's keys minus exactly `kepid`, `kepoi_name`, `ra_str`, `dec_str`, each remaining value unchanged |
| `CandidateEndpoint.IdentifiersNeverReachModel` | Api/main.py:142-146 | a schema column that is an identifier reaches the model as None; every other column carries the record's own value |
| `CandidateEndpoint.Position` | Api/main.py:127-139 | the position is absent exactly when `ra` or `dec` is None; it is the derived point exactly when both are numeric; otherwise numpy raises |
| `CandidateEndpoint.ShapeOne` | Api/main.py:125-155 | one loop iteration succeeds exactly when the record is a dict with a computable position; it then copies `kepid` and `kepoi_name`, has no position exactly when `ra` or `dec` is None, otherwise the point derived from them, and the pipeline's prediction for the record without its identifiers |
| `CandidateEndpoint.ShapeAll` | Api/main.py:124-155 | the loop answers one result per record, in order, exactly when no record raises |
| `CandidateEndpoint.GetCandidatesMl` | Api/main.py:113-157 | a failed fetch, status or decode answers [] whatever the model; otherwise one result per element of `data[:limit]`, in order, copying `kepid` and `kepoi_name`, with no position exactly when `ra` or `dec` is None and otherwise the point derived from them; a null, boolean or numeric body raises TypeError, a dict body raises, and a string body answers [] exactly when its slice is empty |
| `CandidateEndpoint.CandidateSliceEdges` | Api/main.py:124 | limit 0 answers []; a limit past the end answers one result per record |
| `CandidateEndpoint.CandidateJson` | Api/main.py:148-155 | each response entry has exactly six keys; X, Y and Z are null together, exactly when the record had no position |
| `KoiCoordinates.ResultRow` | Api/main.py:56-60 | a result row has exactly the columns kepoi_name, ra, dec, X, Y, Z, a numeric position, and the point derived from it |
| `KoiCoordinates.CalculateKoiCoordinates` | Api/main.py:44-62 | a failed download gives the empty frame; the call succeeds exactly when `ra`, `dec`, `kepoi_name` are columns and every surviving position is numeric; the result has the six columns and only rows with a numeric `ra` and `dec` |
| `KoiCoordinates.CoordinateRowsExact` | Api/main.py:50-60 | every downloaded row with a position appears in the result, every result row comes from such a row, and the result is never longer than the download |
| `KoiCoordinates.CoordinateRowsKeepOrder` | Api/main.py:50-60 | the result for a table split in two is the result for the first part followed by that for the second |
| `KoiCoordinates.CachedCoordinates` | Api/main.py:39-48 | a remembered frame is answered without downloading; a normal return, the empty frame included, is remembered; a raised exception leaves the cache empty |
| `KoiCoordinates.TableRowsDerived` | Api/main.py:52-60 | every row of the computed table has the six columns and X, Y, Z derived from its own `ra` and `dec` |
| `KoiCoordinates.MemoStaysValid` | Api/main.py:39-62 | if the cache holds only derived rows it keeps doing so after any call, and every table a call answers, cached or freshly computed, holds only derived rows |
| `KoiCoordinates.RememberedIsFinal` | Api/main.py:39-40 | once a frame is remembered every later call answers it, whatever the network returns |
| `KoiCoordinates.FirstReturnIsFinal` | Api/main.py:39-62 | the first call that returns normally fixes the answer of every later call |
| `KoiCoordinates.FailedDownloadIsRemembered` | Api/main.py:44-48 | a failed first download makes every call answer the empty frame |
| `KoiCoordinates.GetKoiCoordinates` | Api/main.py:68-72 | an empty frame answers []; otherwise the answer is a prefix of the table's rows of the slice's length; an exception in the computation propagates |
| `JavaScript.Prop` | src/services/ExoplanetAPIService.js:17-31 | a property read throws exactly on null or undefined, and yields the field of an object or undefined |
| `JavaScript.Round` | src/services/ExoplanetAPIService.js:154 | `Math.round` (here and for both habitability values at lines 170 and 172) answers the unique integer n with n - 0.5 <= x < n + 0.5, so halves round up |
| `ViewHelpers.Utf16` | src/services/ExoplanetAPIService.js:153 | `split('')` yields UTF-16 code units, each below 0x10000, between one and two per character, and exactly the characters' codes when all lie in the Basic Multilingual Plane |
| `ViewHelpers.HabitabilityScore` | src/services/ExoplanetAPIService.js:151-155 | the score is an integer in [40, 80]; the empty name scores 40 |
| `ViewHelpers.HabitabilityOf` | src/services/ExoplanetAPIService.js:153 | the score is defined exactly for string names; any other value throws |
| `ViewHelpers.NameHashConcat` | src/services/ExoplanetAPIService.js:153 | the character-code hash of a concatenated name is the sum of the parts' hashes |
| `ViewHelpers.HabitabilityScoreSwap` | src/services/ExoplanetAPIService.js:151-155 | swapping two halves of a name leaves its score unchanged |
| `ViewHelpers.RaToAzimuth` | src/services/ExoplanetAPIService.js:157-160 | for `ra >= 0` the azimuth lies in [0, 360), for negative `ra` in (-360, 0], and it differs from `ra` by a whole number of turns |
| `ViewHelpers.AzimuthIdempotent` | src/services/ExoplanetAPIService.js:157-160 | applying the conversion twice equals applying it once |
| `ViewHelpers.DecToElevation` | src/services/ExoplanetAPIService.js:162-165 | the elevation lies in [5, 85], equals `dec + 45` whenever that is in range, and is 5 or 85 beyond it |
| `ViewHelpers.ElevationMonotone` | src/services/ExoplanetAPIService.js:162-165 | the elevation is non-decreasing in `dec` |
| `ViewHelpers.MlPredictionToHabitability` | src/services/ExoplanetAPIService.js:167-173 | throws exactly on a null or undefined result; for "Candidate" it is `round(p * 100)` for a non-zero numeric `p`, within [0, 100] for `p` in [0, 1], and 50 for a missing or zero probability; otherwise, with a draw in [0, 1), within [20, 50] |
| `StarField.Scaled` | src/services/ExoplanetAPIService.js:62-74 | a record contributes a point exactly when its X, Y and Z are all numbers and 100 times each lies in (-2000, 2000), and the point is then 100 × (X, Y, Z) |
| `StarField.AcceptedExactly` | src/services/ExoplanetAPIService.js:62-74 | a point is in the buffer exactly when some record scales to it, so records failing either check contribute nothing |
| `StarField.AcceptedConcat` | src/services/ExoplanetAPIService.js:62-76 | accepted points distribute over concatenation, so they keep input order |
| `StarField.FlattenShape` | src/services/ExoplanetAPIService.js:59-79 | the buffer is a whole number of triples and every entry has absolute value below 2000 |
| `StarField.BuildVertices` | src/services/ExoplanetAPIService.js:59-76 | the loop throws exactly when some record is null; otherwise it yields, in order, 100 × (X, Y, Z) of each record whose coordinates are all numbers and in range, and nothing for the others |
| `StarField.GenerateFallback` | src/services/ExoplanetAPIService.js:91-106 | the fallback has exactly 2400 values, the i-th being `2000 * draw(i) - 1000`, hence in [-1000, 1000) for draws in [0, 1) |
| `StarField.GetStarParticleCoordinates` | src/services/ExoplanetAPIService.js:44-85 | a failed fetch, a non-array or empty payload, or a null record gives the fallback; otherwise the buffer of the records, a whole number of in-range triples, even when empty |
| `ApiService.ConfirmedViewOf` | src/services/ExoplanetAPIService.js:17-31 | a record maps exactly when it is not null and its `kepoi_name` is a string; name, ra, dec and coordinates are copied verbatim; the direction is `raToAzimuth(ra)` and the elevation `decToElevation(dec)` whenever `ra` and `dec` are numbers |
| `ApiService.GetConfirmedExoplanets` | src/services/ExoplanetAPIService.js:6-37 | one view per API record, in order, each the record's own mapping (so it carries that mapping's direction and elevation), with `name = kepoi_name`, coordinates copied from X/Y/Z and a score in [40, 80]; [] on any fetch or mapping error |
| `ApiService.CandidateViewOf` | src/services/ExoplanetAPIService.js:123-137 | a candidate maps exactly when it is not null and has a non-null `ml_result`; identifiers, coordinates and `ml_result` are copied verbatim; the random direction and elevation lie in [0, 360) and [0, 90) |
| `ApiService.GetCandidatesWithMl` | src/services/ExoplanetAPIService.js:113-142 | one view per candidate, in order, each the record's own mapping with its own draws, copying `kepid`, coordinates and `ml_result`; [] on any fetch or mapping error |
| `EndToEnd.TableRowsOnUnitSphere` | Api/main.py:52-60 | given cos² + sin² = 1, every row of the coordinate table has X, Y, Z in [-1, 1] |
| `EndToEnd.ServedRowsOnUnitSphere` | Api/main.py:39-72 | given cos² + sin² = 1, every row `get_koi_coordinates` serves, from a fresh download or from the cache, has X, Y, Z in [-1, 1] |
| `EndToEnd.StarBufferKeepsEveryRow` | src/services/ExoplanetAPIService.js:62-74 | unit-sphere rows all pass the client's type and range checks, so k served rows give 3k buffer entries, and a non-empty answer of such rows is used instead of the fallback |
| `EndToEnd.ServedRowsWellShaped` | Api/main.py:39-72 | every row `get_koi_coordinates` serves, from a fresh download or from the cache, has the six columns and a numeric position |
| `EndToEnd.ConfirmedViewsOfRows` | src/services/ExoplanetAPIService.js:17-31 | served rows with string names all map, each with its name and a defined direction and elevation |
| `EndToEnd.CandidatesReachClient` | src/services/ExoplanetAPIService.js:123-137 | the client shows one record per candidate the API returned, identifiers and prediction unchanged, and a "Candidate" with probability in [0, 1] displays a habitability in [0, 100] |

## Left out

- HTTP, FastAPI routing, `requests.get`, `pd.read_csv`, `fetch` and `response.json()` are not modelled. Each is an input: the decoded body, or the `FetchError` saying why there is none.
- `joblib.load` and the sklearn preprocessor and classifier are uninterpreted functions. An exception raised inside them is not modelled.
- numpy's `deg2rad`, `cos` and `sin` are uninterpreted. Unit-sphere facts are proved from cos² + sin² = 1 as a hypothesis, over reals rather than floats.
- Floating point is not modelled: numbers are reals, with no NaN, infinity or rounding error. `dropna` also drops NaN; the model's "missing" is null only.
- `HabitabilityScore` computes `(hash % 100) * 0.4 + 40` over reals. Floating-point error cannot change the rounding there, because the fractional parts are multiples of 0.2.
- `CandidateEndpoint.NumericValue`: numpy also broadcasts over lists. The model treats a list-valued `ra` or `dec` as raising.
- `CandidateEndpoint.GetCandidatesMl`: for a dict body the contract states only that the call raises. Slicing a dict raises TypeError before Python 3.12 and KeyError from 3.12 on, and either becomes the same server error; the body picks TypeError.
- `KoiCoordinates.CalculateKoiCoordinates`: pandas dtype inference is not modelled. Only a non-numeric position in a surviving row raises, not one in a dropped row.
- `Inference.PredictWithPipeline` requires the raw class to be 0 or 1, where the source raises `KeyError` on any other class. It also requires the probability vector to be non-empty.
- `CandidateEndpoint.Classifiable` requires the above only for the records the loop actually sends to the model.
- `lru_cache` gives no single-flight guarantee under concurrent requests. The cache is modelled as sequential state only.
- `calculateSimulatedDistance` and the `distance` field of both view records are left out. They involve a square root, a division by a possibly zero magnitude, and a random draw.
- `ApiService.ConfirmedViewOf`: JavaScript coercion of a string, array or object `ra`/`dec` (string concatenation, number parsing) is not followed. Such a direction or elevation is `None`, as is an undefined one (NaN).
- `ViewHelpers.MlPredictionToHabitability`: a truthy probability that is a string, array or object is coerced by JavaScript. The model answers `None` for it.
- `console.log`, `console.warn`, `console.error` and `print` are left out, including the unreachable log after the `return` in `getConfirmedExoplanets`.
- `src/router/index.js` is a static route table and `src/components/exoplanet/index.js` holds only re-exports. Neither has logic to model.
