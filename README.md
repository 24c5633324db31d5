# Google Fit aggregate normaliser

This project models the health-dashboard backend of a doctor-appointment
booking application, in Dafny. The server exposes `/fit/*` routes that read
a user's Google Fit data. The model covers three parts of `backend/server.js`:

- The `/fit/aggregate` handler and its normaliser. The handler asks Google
  Fit for seven days of data in daily buckets. The normaliser reshapes each
  bucket's heterogeneous datasets into one flat daily record with `date`,
  `step_count`, `glucose_level`, `blood_pressure`, `heart_rate`, `weight`,
  `height_in_cms`, `sleep_hours`, `body_fat_in_percent` and
  `menstrual_cycle_start`.
- The seven-day query window and the `datasetId` text that the
  single-dataset routes build from it.
- The `access_token` guard at the top of every `/fit/*` route.

Modules:

- `Wrappers` (`wrappers.dfy`): `Option` (whose `None` is JavaScript's
  `undefined`) and `Result`.
- `FitData` (`fit_data.dfy`): the reply's buckets, datasets, points and
  value entries; the daily record and its defaults; the nine case labels of
  the switch on `dataSourceId`.
- `ValueScan` (`value_scan.dfy`): what a case computes from the `value`
  list of a dataset's first point. The glucose, heart-rate and
  blood-pressure cases loop over that list; they are methods with loops,
  proved against specification functions.
- `Normaliser` (`normaliser.dfy`): the switch as a function, the dataset and
  bucket loops as functions, and the same loops as methods (`FormatBucket`,
  `FormatBuckets`) proved equal to those functions. It also holds the
  lemmas about which dataset decides which field.
- `Decimal` (`decimal.dfy`): `${n}` for integers below 10^21 in magnitude,
  and its inverse.
- `FitRoutes` (`fit_routes.dfy`): the token guard, the window, `datasetId`,
  the upstream request of each route, and the `/fit/aggregate` handler.
  JavaScript computes `startTimeMillis * 1000000` as a double. Below 10^21
  it prints the shortest digits that read back as that double, and for a
  multiple of 10^6 these are exactly the digits of the integer product.
  The model's exact integers therefore lose nothing there.

JavaScript semantics are written out. Truthiness is explicit: `undefined`
and 0 are falsy, so `x || 0` and `if (data.fpVal)` treat them alike. A
missing `fpVal` on `value[0]` gives body fat `undefined` (`None`).
`sleep_hours` receives the whole `value` list. `menstrual_cycle_start`
defaults to `""` (`CycleUnset`) and is set to a number.

The code throws a TypeError in four cases when `point[0].value` is
undefined: the step-count, weight, height and menstruation cases. Each of
them indexes `value[0]` (line 382 through `point[0]?.value[0]`, where the
optional chain does not guard `.value`). A missing `bucket` or `dataset`
list throws at its `.map`. The handler answers any of these with 500. The
model returns a `Failure` for each.

`fpVal` is a `real` and `intVal` an `int`. `Date.now()` is the parameter
`now`. `new Date(...).toDateString()` is the parameter `dateString`. The
aggregate call is the parameter `fetch`.

## Model

| member | source | states |
|---|---|---|
| FitData.SourceField | backend/server.js:312-386 | a recognised `dataSourceId` selects the field whose case label it is; anything else falls to the default case |
| FitData.DefaultRecord | backend/server.js:294-305 | a fresh record carries the bucket's date, and every slot holds the empty value of its type (0, `[]`, sleep 0, body fat 0, menstruation `""`) |
| FitData.SourceFieldInverse | backend/server.js:313-380 | each of the nine case labels selects its own field, so no two cases share a label |
| ValueScan.LastSelected | backend/server.js:321-343 | the reading a walking case keeps is the last one that passes its test, and there is none exactly when no reading passes |
| ValueScan.LastSelectedIsLastMatch | backend/server.js:321-343 | the last reading that passes a walking case's test is the one that case keeps |
| ValueScan.GlucoseOf | backend/server.js:316-328 | `glucose_level` from a list is 0 exactly when no `fpVal` in it is truthy |
| ValueScan.HeartRateOf | backend/server.js:348-360 | `heart_rate` from a list is 0 exactly when no `fpVal` in it is truthy |
| ValueScan.BloodPressureOf | backend/server.js:330-347 | `blood_pressure` has two slots; slot 0 is 0 or above 100, slot 1 is 0 or below 100 |
| ValueScan.GlucoseIsTenTimesLastReading | backend/server.js:316-360 | `glucose_level` is 10 × the last truthy `fpVal` and `heart_rate` is that `fpVal` itself |
| ValueScan.ScanGlucose | backend/server.js:317-325 | the glucose loop yields the glucose specification; it is 0 exactly when no `fpVal` is truthy |
| ValueScan.ScanHeartRate | backend/server.js:349-357 | the heart-rate loop yields the heart-rate specification; it is 0 exactly when no `fpVal` is truthy |
| ValueScan.ScanBloodPressure | backend/server.js:331-345 | the loop over the two-slot array `finalData` yields the blood-pressure specification |
| ValueScan.BloodPressureSlots | backend/server.js:331-346 | the list has two slots; the last truthy reading above 100 is in slot 0 and the last one below 100 in slot 1, and a non-zero slot holds such a reading; readings of exactly 100 or falsy ones never land; a slot with no such reading stays 0 |
| ValueScan.FirstIntOrZero | backend/server.js:314 | step count (the first `intVal`, falling back to 0) is non-zero exactly when the first entry's `intVal` is truthy, and then equals it |
| ValueScan.FirstFpOrZero | backend/server.js:363 | weight (the first `fpVal`, falling back to 0) is non-zero exactly when the first entry's `fpVal` is truthy, and then equals it |
| ValueScan.HeightOf | backend/server.js:366 | height is 100 × the first `fpVal`, and 0 when the list is empty or that `fpVal` is missing or zero (the product is then NaN or 0, both falsy) |
| ValueScan.BodyFatOf | backend/server.js:372-378 | body fat is the first entry's `fpVal`, possibly `undefined`, when the list is non-empty, and 0 otherwise |
| Normaliser.ApplyDataset | backend/server.js:308-388 | one dataset throws exactly when it fires a case that indexes an undefined `value`, and the error names that case; a dataset with no points or an unknown source changes nothing; a firing case changes only its own field and never the date |
| Normaliser.ApplyDatasets | backend/server.js:307-388 | a bucket's dataset loop succeeds exactly when no dataset throws, and keeps the date |
| Normaliser.BucketRecord | backend/server.js:290-389 | a bucket yields a record exactly when its dataset list exists and no dataset throws; the record's date is the formatted `startTimeMillis` |
| Normaliser.Normalised | backend/server.js:287-390 | success exactly when every bucket succeeds, and then one record per bucket, in bucket order, each being that bucket's record |
| Normaliser.SilentDatasetChangesNothing | backend/server.js:309-385 | a dataset that fires no case (missing or empty `point`, or an unrecognised `dataSourceId`) leaves the record unchanged |
| Normaliser.AssignmentIgnoresEntry | backend/server.js:313-383 | the value a case writes depends on the dataset only, not on the record before it |
| Normaliser.OnlyFirstPointMatters | backend/server.js:309-383 | datasets with the same source and the same `point[0]` have the same effect, whatever points follow |
| Normaliser.LaterSameSourceWins | backend/server.js:307-388 | of two datasets with one source, the earlier leaves no trace once the later fires |
| Normaliser.DatasetLoopFailsAtFirstThrow | backend/server.js:308-388 | when dataset `k` is the first that throws, the bucket's dataset loop fails with that dataset's error, whatever follows |
| Normaliser.DatasetFailureStays | backend/server.js:308-388 | once the dataset loop has thrown, the remaining datasets do not matter |
| Normaliser.UnfiredSlotKeepsValue | backend/server.js:294-388 | a field that no dataset fires keeps its starting value |
| Normaliser.LastFiringDatasetWins | backend/server.js:307-388 | the last dataset that fires a field decides that field, whatever datasets come before or after it |
| Normaliser.QuietBucketGivesDefaults | backend/server.js:294-305 | a bucket whose datasets fire nothing yields the defaults: 0, `[]`, sleep 0, body fat 0, menstruation `""`, dated by its start |
| Normaliser.BucketLoopFailsAtFirstBadBucket | backend/server.js:290-390 | when bucket `i` is the first that fails, the whole normalisation fails with that bucket's error, whatever follows |
| Normaliser.BucketFailureStays | backend/server.js:290-390 | once a bucket has thrown, the remaining buckets do not matter |
| Normaliser.RecordDates | backend/server.js:290-292 | record `i`'s date is the formatted start of bucket `i` and of nothing else |
| Normaliser.FormatBucket | backend/server.js:290-389 | the dataset loop with its in-place switch yields the bucket's specified record or error |
| Normaliser.FormatBuckets | backend/server.js:287-390 | the loop that pushes onto `formattedData` yields exactly the specified result: one record per bucket in bucket order, or the first bucket's error |
| Decimal.NatToDecimal | backend/server.js:101 | the decimal text of a natural number is non-empty, all digits, and starts with a non-zero digit unless the number is 0 |
| Decimal.IntToDecimal | backend/server.js:101 | `${n}` (for `n` of magnitude below 10^21) starts with a minus sign exactly when `n` is negative, is digits after that, and has no leading zero; 0 prints as `0` |
| Decimal.NatToDecimalRoundTrip | backend/server.js:101 | reading back the digits of `n` gives `n` |
| Decimal.IntToDecimalRoundTrip | backend/server.js:101 | parsing `${n}` gives `n` |
| Decimal.IntToDecimalInjective | backend/server.js:101 | distinct integers print differently |
| FitRoutes.LastSevenDays | backend/server.js:243-244 | the window ends at `now` and spans exactly 604800000 ms (7·24·60·60·1000) |
| FitRoutes.DatasetId | backend/server.js:101 | a `datasetId` reads back as start × 10⁶ and end × 10⁶, the window in nanoseconds |
| FitRoutes.DashJoinRoundTrip | backend/server.js:101 | two integers printed and joined by a dash split back into the same two, whatever their signs |
| FitRoutes.AggregateRequestAt | backend/server.js:243-285 | the aggregate request covers the seven days ending at `now`, in daily buckets of 86400000 ms, for the nine data types |
| FitRoutes.Plan | backend/server.js:73-285 | every `/fit/*` route answers 400 without calling Google Fit exactly when `access_token` is absent or empty |
| FitRoutes.WindowedRoutesAskForLastWeek | backend/server.js:93-284 | every route that computes a window asks for the seven days ending at `now`: the aggregate request in ms with daily buckets and nine data types, the others through the nanosecond `datasetId` |
| FitRoutes.AggregateReply | backend/server.js:287-395 | the answer is 200 or 500; it is 200 exactly when the call succeeded, `bucket` exists and every bucket normalises, and then it carries one record per bucket, each being that bucket's record; a 500 carries the error text: the failed call's message, or V8's TypeError message for the missing `bucket` list or for the first bucket's error |
| FitRoutes.HandleAggregate | backend/server.js:238-396 | without a token the answer is 400 whatever Google Fit would return; with one, it is the answer to what the call returns for the seven-day daily-bucket request |

## Left out

- The OAuth2 consent URL and the code-for-token exchange (`backend/server.js:28-69`). They are calls into the `googleapis` library.
- `oAuth2Client.setCredentials`: it stores the token on one client shared by all requests. The model keeps no client state.
- What the single-dataset and session routes return (`backend/server.js:73-235`). They forward Google Fit's reply or answer 500. The model covers only their token guard, window and upstream request (`FitRoutes.Plan`).
- Express, CORS, MongoDB, Cloudinary, the routers and `listen` (`backend/server.js:1-27`, `398-407`). This is server plumbing.
- `new Date(...).toDateString()`: it depends on time zone and locale. It is the parameter `dateString`.
- `parseInt(data.startTimeMillis)`: the bucket start is taken as an integer. A non-numeric start (NaN, "Invalid Date") is not modelled.
- FitRoutes.DatasetId: JavaScript prints a number of magnitude 10^21 or more in exponent form (`1e+21`), which `Decimal.IntToDecimal` does not model. So the `datasetId` of FitRoutes.WindowedRoutesAskForLastWeek differs from the server's once the magnitude of `now` reaches 10^15 ms (about 31,700 years after 1970).
- `fpVal` arithmetic: it is a real number. NaN, infinities and double rounding of `* 10` and `* 100` are not modelled.
- Value kinds other than `intVal` and `fpVal`, and `null` where an object or a list is expected.
- An `access_token` that the query parser turns into a list or an object. Only absent and string values are modelled.
- JSON serialisation: `res.json` drops a key whose value is `undefined`, so a `None` body fat leaves the key out. The model keeps `None`.
- The error messages of the TypeErrors use V8's wording. The model does not check any other engine's wording.
- All frontend files: UI over mock data, with floating-point display arithmetic.
