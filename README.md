# biomarkers — a Dafny model of its data-handling core

The biomarkers project is a personal-health dashboard. An iOS app reads a week
of per-day health statistics from HealthKit and publishes them to a SwiftUI
grid of marker cards. A small FastAPI backend reads the same kind of data from
the Google Fit REST API. Most of the repository is UI layout and API glue. This
model covers the parts that compute something:

- **Fit client** (`fit.dfy`, module `Fit`, from `services/fit.py`).
  - `parse_data` flattens an aggregate response, nested as bucket → dataset →
    point → value, into one `MetricRes` per value entry. A list key that is
    absent counts as an empty list. The method raises on an unsupported dtype
    and on a missing scalar key.
  - `get_data` builds the body of an aggregate request.
  - The response is a nested datatype. `ParseData` keeps the source's four
    nested loops, proved equal to the functional specification `Parse`.
- **HealthKit manager** (`health_kit.dfy`, module `HealthKit`, from
  `biomarkers/biomarkers/biomarkersApp.swift`).
  - A fixed policy table says, for each metric, whether a day's figure is an
    average or a sum.
  - One statistics query is issued per table entry.
  - A class holds the six published arrays. Each query's callback replaces
    one of them wholesale with the week's per-day values, using 0 for days
    with no data.
- **Dashboard view** (`content_view.dfy`, module `ContentView`, from
  `biomarkers/biomarkers/ContentView.swift`).
  - `Color(hex:alpha:)` decodes a packed `0xRRGGBB` value with shifts and
    masks. The model uses 64-bit bit-vectors, like Swift's `UInt`.
  - The activity grid has five parallel constant arrays and an odd/even
    padding rule.
- `wrappers.dfy` (module `Wrappers`) holds the shared `Option` and `Result`.

The Python exceptions (`KeyError`) become `Result.Failure` values. Absent
dictionary keys and nil HealthKit results become `Option.None`.

A weekly series is sometimes described as exactly seven values, Monday to
Sunday. The code
enumerates day buckets from the start of the week up to now. So a series has
one value per day elapsed, up to seven. The model follows the code: a series
has one value per enumerated day.

## Model

| member | source | states |
|---|---|---|
| `Fit.ParseData` | services/fit.py:40-60 | The four nested loops return exactly what `Parse` specifies: the records of all value entries in nesting order, or the first `KeyError` met. `dtype` defaults to INT. |
| `Fit.ParseBucket` | services/fit.py:45-59 | The dataset loop continues from the records produced so far. It yields those records followed by the bucket's records, or the bucket's first error. |
| `Fit.ParseDataset` | services/fit.py:46-59 | The point and value loops continue from the records produced so far. They yield those records followed by the dataset's records, or the dataset's first error. |
| `Fit.ReadValue` | services/fit.py:48-58 | The loop body checks the dtype, then reads `intVal`, `startTimeNanos` and `endTimeNanos` in that order. Each absent key raises `KeyError`; otherwise it builds the record. |
| `Fit.ValueItems` | services/fit.py:47 | A point's value entries are visited once each, in list order. |
| `Fit.CollectAll` | services/fit.py:43-60 | Parsing succeeds iff every visited entry converts. On success there is one record per entry, the k-th built from the k-th entry. |
| `Fit.CollectFirstError` | services/fit.py:47-58 | The first entry that fails decides the exception raised. |
| `Fit.ResponseCount` | services/fit.py:44-47 | The flattening visits as many entries as the response holds. This is counted level by level, with absent keys counting as zero. |
| `Fit.ParseRecords` | services/fit.py:43-59 | A successful parse gives exactly one record per value entry, in bucket, dataset, point, value order. The value is `intVal` for INT and FLOAT alike. Start and end are the point's nanoseconds floor-divided by 10^9, so records of one point share their window. |
| `Fit.ParseSucceeds` | services/fit.py:47-58 | `parse_data` succeeds iff there are no value entries, or the dtype is INT or FLOAT and every entry has `intVal` and its point has both timestamps. |
| `Fit.ParseUnsupported` | services/fit.py:47-55 | An unsupported dtype raises `KeyError` iff at least one value entry is reached. With no entries the result is `[]`. |
| `Fit.ParseEmptyResponse` | services/fit.py:43-47 | An empty dictionary parses to `[]` whatever the dtype. |
| `Fit.ParseSkipsEmptyBucket` | services/fit.py:44-47 | A bucket with no value entries changes nothing, wherever it stands. Such a bucket may lack `dataset`, or its datasets may lack `point`, or its points may lack `value`. |
| `Fit.ParseConcat` | services/fit.py:44-59 | Buckets are processed in order. Parsing two bucket lists back to back parses the first, then continues with the second; the first list's records come first. |
| `Fit.RequestBodyRoundTrip` | services/fit.py:24-37 | The request body decodes back to its arguments, and a body that decodes is rebuilt exactly from what it decodes to. It holds a one-element `aggregateBy` with the mode URI and start/end as seconds × 1000. `bucketByTime` is present iff `bucket_by` was given, and then holds `bucket_by` × 86 400 000 ms. |
| `HealthKit.QueryPolicy` | biomarkers/biomarkers/biomarkersApp.swift:46-89 | The table has seven entries. Heart rate, VO2max, HRV SDNN and resting heart rate use `discreteAverage`. Active energy, distance and step count use `cumulativeSum`. |
| `HealthKit.DailyValuesAt` | biomarkers/biomarkers/biomarkersApp.swift:150-156 | There is one value per enumerated day, in day order. It is the day's average or sum as the policy says, with 0.0 where the quantity is nil. |
| `HealthKit.SourceOf` | biomarkers/biomarkers/biomarkersApp.swift:161-173 | Every published array is fed by a metric of the policy table. |
| `HealthKit.SeriesOfSourceOf` | biomarkers/biomarkers/biomarkersApp.swift:161-176 | Each published array is fed by exactly one identifier. |
| `HealthKit.RouteReplacesOne` | biomarkers/biomarkers/biomarkersApp.swift:161-176 | The switch replaces the identifier's array wholesale and leaves the other five untouched. Distance and unlisted identifiers change nothing. |
| `HealthKit.RouteOrder` | biomarkers/biomarkers/biomarkersApp.swift:160-177 | A later result for a metric overrides an earlier one. Results for two different metrics commute, so callback order does not matter. |
| `HealthKit.DeliverAllPerSeries` | biomarkers/biomarkers/biomarkersApp.swift:118-177 | After the callbacks of any sequence of queries, each array holds its metric's values if that query ran and returned results. Otherwise it keeps its old contents. |
| `HealthKit.HealthKitManager.constructor` | biomarkers/biomarkers/biomarkersApp.swift:91-102 | All six published arrays start empty. The store exists iff health data is available. |
| `HealthKit.HealthKitManager.RequestAuthorization` | biomarkers/biomarkers/biomarkersApp.swift:104-116 | With no store, or when authorization fails, no query runs and no array changes. On success all table queries run. Each array then holds its metric's per-day values if that query returned results, and keeps its old contents if it failed. |
| `HealthKit.HealthKitManager.ExecuteQueriesForAllDataTypes` | biomarkers/biomarkers/biomarkersApp.swift:118-123 | Exactly one query is issued per table entry: seven in all, none repeated. Each array ends holding its metric's per-day values when that query returned results, and its old contents otherwise. |
| `HealthKit.HealthKitManager.ExecuteHealthDataQuery` | biomarkers/biomarkers/biomarkersApp.swift:125-148 | Results are processed. A failed query (nil results) leaves every array unchanged. |
| `HealthKit.HealthKitManager.ProcessStatisticsCollection` | biomarkers/biomarkers/biomarkersApp.swift:150-178 | The published arrays become the old ones with the identifier's array replaced by the per-day values. |
| `ContentView.ColorFromHex` | biomarkers/biomarkers/ContentView.swift:11-18 | `alpha` passes through unchanged as the opacity and defaults to 1. |
| `ContentView.ChannelsAreBytes` | biomarkers/biomarkers/ContentView.swift:14-16 | Each extracted channel is an integer in [0, 255] before scaling. |
| `ContentView.PackRoundTrip` | biomarkers/biomarkers/ContentView.swift:14-16 | Red is bits 16–23, green bits 8–15 and blue bits 0–7. Re-packing the channels gives `hex & 0xffffff`, and decoding a packed literal gives its bytes back. |
| `ContentView.HighBitsIgnored` | biomarkers/biomarkers/ContentView.swift:14-16 | `hex` and `hex + k·2^24` decode to the same colour. |
| `ContentView.MarkerCards` | biomarkers/biomarkers/ContentView.swift:76-92 | There is one card per activity type, in order. Every index of `activityTypes` is in bounds for the four other arrays. |
| `ContentView.ActivityArraysParallel` | biomarkers/biomarkers/ContentView.swift:76-80 | The five parallel arrays all have six entries. |
| `ContentView.CardPaddingByColumn` | biomarkers/biomarkers/ContentView.swift:72-95 | Every card is padded on its leading and bottom edges. Only odd indices, the right-hand column of the two-column grid, also get trailing padding (`.horizontal`). The rule alternates from card to card. |

## Left out

- Google API plumbing is not modelled: `FitClient.__init__`, `get_all_datasources` and `_aggregate`, which use OAuth credentials, environment variables and the network. `get_data` is modelled up to the body it passes to `_aggregate`.
- `Mode.get_mode_uri` and `strftime('%s')` are not modelled: the mode URI and the epoch seconds of the two datetimes are parameters. `datetime.fromtimestamp` is not modelled either: a record's start and end are epoch seconds, not local datetimes.
- Fit.ReadValue: `int(nanos) // 1e9` is a float floor division in Python. It is modelled as exact integer floor division, so float rounding of very large nanosecond values is not captured. The `int()` parse of the nanosecond strings is also not modelled; the timestamps arrive as integers.
- `Mode`, `MetricRes` and `DTypes` are not defined in the shown `models/fit.py`. DType is modelled as INT, FLOAT or any other named member; the `KeyError` message text is reduced to the dtype it names.
- Fit.ParseData: the source's single function is split into `ParseData`, `ParseBucket`, `ParseDataset` and `ReadValue`, one per loop level. This keeps each proof small; the loops and their order are unchanged.
- controllers/fit.py, controllers/strugglebus.py, services/strugglebus.py and main.py are not modelled. They are HTTP routing, a random draw and server start-up, and the controller calls client methods that are not part of the shown `FitClient`.
- HealthKit itself is not modelled.
  - Authorization is a success flag. A query's results are the per-day statistics its collection enumerates, passed in per identifier.
  - The quantity-type set passed to authorization is not modelled.
  - `HKUnit` conversion is not modelled: a day's average and sum arrive already in the metric's unit.
- `getStartOfWeek` and `createCurrentWeekPredicate` are not modelled: the week window depends on the calendar, the time zone and the clock. The number of enumerated days is whatever the results contain.
- The `DispatchQueue.main.async` hand-offs and the asynchronous callbacks are not modelled. Callbacks are applied in issue order. `RouteOrder` and `DeliverAllPerSeries` show that the final arrays do not depend on that order.
- HealthKit.HealthKitManager.RequestAuthorization and ExecuteQueriesForAllDataTypes return the identifiers queried, in issue order. The Swift functions return nothing; the return value exists so the contract can state that one query is issued per table entry.
- The `print` diagnostics, and the `guard` on `quantityType(forIdentifier:)`, are not modelled. The guard never fails for the seven listed identifiers.
- SwiftUI layout and styling are not modelled, nor is the `/ 255` floating-point scaling of the channels. `String(activityValues[index])` formatting and the segment picker are not modelled either.
- ContentView.HighBitsIgnored: the addition is 64-bit wrap-around, whereas Swift traps on `UInt` overflow. The lemma therefore also covers sums Swift would reject.
