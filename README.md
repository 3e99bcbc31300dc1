# Base-station positioning service: a Dafny model

This project models the decision logic of a Go web service that estimates a
device's position from the cell towers it can hear. A request lists radio
signals. Each signal names a base station by mobile network code, location
area code and cell id, and gives its received strength in dBm. The service:

- validates the request;
- builds a station id `mnc-lac-cid` for every signal, keeping the last signal per id;
- asks the station directory for those stations;
- works out which signals matched no known station;
- pairs each found station with its signal's strength;
- drops stations that lie far from the rest (the outlier filter);
- hands the survivors to a triangulator.

Errors become API errors with an HTTP status.

The model is split into one module per part of the program:

- `Errors` (errors.dfy): the `APIError` value and its constructors, plus `Fault`, the kinds of Go `error` value the code tells apart.
- `Models` (models.dfy): the `Station` record.
- `Apis` (apis.dfy): `Signal`, the ozzo-validation rules as field-error maps, and the `PositionRequest` slice. The slice is a class, because `append` updates its receiver in place.
- `App` (app.dfy): configuration validation and `convertError`.
- `Server` (server.dfy): the closed-connection test.
- `Triangulation` (triangulation.dfy): the outlier filter and `doComputePosition`. The stations sit in an `array`, like the slice's backing array. The filter averages and scans in loops and removes a station by shifting the rest left in place. The outer loop of `FindClosestStations` is proved against the spec function `ClosestStations`; `MeanPoint` against `MeanLat` and `MeanLng`, `FarthestScan` against `FirstFarthest` and `SumSqDist`, and `RemoveInPlace` against `Sequences.RemoveAt`.
- `Position` (position.dfy): the position service. It deduplicates signals, computes the unknown signals, pairs stations with strengths, and chains these steps in `ComputePosition`. `ComputePosition` is proved against the spec function `PositionFor`.
- `Sequences` (sequences.dfy): the subsequence relation and removal at an index.
- `Wrappers` (wrappers.dfy): `Option` and `Result`.

Coordinates and strengths are `real`. The filter's test `sqrt(sum/n) < 0.03`
becomes `sum/n < 0.03 * 0.03`. `SqrtTest` proves the two equivalent for the
non-negative root of a non-negative `sum/n`; `SqDist` and `SumSqDist` prove the
sum of squares is never negative.

The station directory and the triangulator are parameters: `Directory` is the
`FindStations` function and `Triangulator` is `triangulate`.

`ComputePosition` also returns the unknown signals it would pass to the
recorder: `Some(list)` when it would start the recorder, `None` otherwise.

Two behaviours of the code worth noting:

- The recorder starts whenever the number of stations found differs from the number of distinct ids (`!=`, source line 45). It also starts when the directory returns more stations than were asked for, not only fewer.
- A request whose signal slice is nil passes validation. The `NilOrNotEmpty` rule rejects only an empty non-nil slice. An empty request that reaches the service gets the filter's "no suitable stations" error (`EmptyRequestNoSuitableStations`), not "no stations matched".

## Model

| member | source | states |
|---|---|---|
| Errors.APIError.Error | src/xungewang.cn/bsp/errors/api_error.go:14-16 | returns the stored message; the value is not changed |
| Errors.APIError.StatusCode | src/xungewang.cn/bsp/errors/api_error.go:19-21 | returns the stored status; the value is not changed |
| Errors.NewAPIError | src/xungewang.cn/bsp/errors/api_error.go:24-30 | status, code and message are stored exactly as given and read back by the accessors |
| Errors.InternalServerError | src/xungewang.cn/bsp/errors/errors.go:14-16 | 500, "INTERNAL_SERVER_ERROR", message = the cause's `Error()` text |
| Errors.NotFound | src/xungewang.cn/bsp/errors/errors.go:19-21 | 404, "NOT_FOUND", the given message |
| Errors.InvalidData | src/xungewang.cn/bsp/errors/errors.go:24-26 | 400, "INVALID_DATA", message = the validation errors' text |
| Errors.SimpleInvalidData | src/xungewang.cn/bsp/errors/errors.go:29-31 | 400, "INVALID_DATA", the given message |
| Apis.StrengthRule | src/xungewang.cn/bsp/apis/position.go:86-89 | strength passes iff -150 <= s <= 0 (both ends inclusive); below breaks Min, above breaks Max |
| Apis.ValidateSignal | src/xungewang.cn/bsp/apis/position.go:81-90 | no error iff mnc, lac, cid are non-empty and the strength is in range; each failing field (and only those) is reported, with the rule it broke |
| Apis.FirstSignalErrorIsFirst | src/xungewang.cn/bsp/apis/position.go:50-57 | the in-order scan fails iff some signal is invalid, and then with the errors of the first invalid signal |
| Apis.RequestVerdictAccepts | src/xungewang.cn/bsp/apis/position.go:45-58 | a request is accepted iff it is nil, or non-empty with every signal valid |
| Apis.PositionRequest.Append | src/xungewang.cn/bsp/apis/position.go:61-63 | the signal is added at the end: length + 1, earlier elements unchanged, never nil afterwards |
| Apis.PositionRequest.Validate | src/xungewang.cn/bsp/apis/position.go:45-58 | an empty non-nil request breaks NilOrNotEmpty; otherwise the loop returns the first failing signal's errors; succeeds iff nil or all signals valid |
| App.LogLevelRule | src/xungewang.cn/bsp/app/config.go:30-31 | the log level passes iff it is one of debug/info/warn/warning/fatal/panic |
| App.ValidateConfig | src/xungewang.cn/bsp/app/config.go:27-34 | passes iff the server address and DSN are non-empty and the log level is admitted; each failing field is reported; an empty address or DSN under Required, an empty level under Required, an unknown one under In |
| App.PoolSettingsUnconstrained | src/xungewang.cn/bsp/app/config.go:22-24 | the three pool settings never change the verdict, whatever their values (negatives included) |
| App.LogLevelExamples | src/xungewang.cn/bsp/app/config.go:15-31 | "warning" passes although the field comment omits it; "error" fails with In on LogLevel only |
| App.ConvertError | src/xungewang.cn/bsp/app/init.go:40-55 | an API error passes through; validation errors give 400 INVALID_DATA; HTTP 404 gives NOT_FOUND; any other HTTP status and every other error give 500 |
| App.ConvertErrorKeepsMessage | src/xungewang.cn/bsp/app/init.go:40-55 | whatever the kind, the converted error carries the original error's message |
| App.ConvertErrorIdempotent | src/xungewang.cn/bsp/app/init.go:42-43 | the result is always an API error, so converting it again returns it unchanged |
| App.ConvertErrorStatuses | src/xungewang.cn/bsp/app/init.go:44-54 | an error that is not already an API error always ends as 400, 404 or 500 |
| Server.ContainsIffOccurs | src/xungewang.cn/bsp/main.go:114-117 | the substring test holds iff the text occurs at some position (both directions) |
| Server.IsClosedConnError | src/xungewang.cn/bsp/main.go:106-137 | nil gives false; otherwise true iff the message contains "use of closed network connection"; nothing else is consulted |
| Server.ClosedConnAnywhere | src/xungewang.cn/bsp/main.go:114-117 | the text is found at any position of the message, for any kind of error |
| Server.ClosedConnCaseSensitive | src/xungewang.cn/bsp/main.go:115-117 | the match is case-sensitive: "Use of ..." is not a closed-connection error |
| Sequences.RemoveAt | src/xungewang.cn/bsp/services/triangulation.go:61 | removing index i: one element fewer, those before i in place, those after shifted left by one |
| Triangulation.SqDist | src/xungewang.cn/bsp/services/triangulation.go:47 | a squared distance is never negative |
| Triangulation.SqrtTest | src/xungewang.cn/bsp/services/triangulation.go:56 | for the non-negative square root of sum/n, root < 0.03 iff sum/n < 0.03², so the model's test without sqrt decides the same |
| Triangulation.SumSqDist | src/xungewang.cn/bsp/services/triangulation.go:53 | the sum of squared distances is never negative |
| Triangulation.FirstFarthest | src/xungewang.cn/bsp/services/triangulation.go:45-52 | the chosen index has the largest distance, and every earlier index a strictly smaller one |
| Triangulation.ClosestStations | src/xungewang.cn/bsp/services/triangulation.go:29-65 | never longer than the input; a non-empty input keeps at least one station; inputs of length 0 or 1 come back unchanged |
| Triangulation.ClosestIsSubsequence | src/xungewang.cn/bsp/services/triangulation.go:61 | the survivors are the input with zero or more stations removed, order preserved |
| Triangulation.ClosestIsCoherent | src/xungewang.cn/bsp/services/triangulation.go:33-58 | more than one survivor means their rms distance to their mean point is below 0.03 |
| Triangulation.ClosestIdempotent | src/xungewang.cn/bsp/services/triangulation.go:30-58 | filtering the survivors again returns them unchanged |
| Triangulation.MeanPoint | src/xungewang.cn/bsp/services/triangulation.go:33-39 | the loop yields the plain mean latitude and longitude of the live stations |
| Triangulation.FarthestScan | src/xungewang.cn/bsp/services/triangulation.go:45-54 | the loop yields the sum of squared distances and the first index of the strictly largest one |
| Triangulation.RemoveInPlace | src/xungewang.cn/bsp/services/triangulation.go:61 | the live prefix becomes the old one with index i removed; the slots from the old last one on keep their values |
| Triangulation.FindClosestStations | src/xungewang.cn/bsp/services/triangulation.go:29-65 | the returned length n and the array's first n slots are exactly ClosestStations of the input |
| Triangulation.PositionFrom | src/xungewang.cn/bsp/services/triangulation.go:10-18 | NotFound("no suitable stations") exactly when the input is empty; otherwise the triangulation of the filtered stations |
| Triangulation.DoComputePosition | src/xungewang.cn/bsp/services/triangulation.go:10-18 | filters in place and answers what PositionFrom gives for the input |
| Triangulation.FourStationsDropsFarOne | src/xungewang.cn/bsp/services/triangulation_test.go:32-52 | in the test's four stations, 0-32838-36861 (about 1 degree east) is the only one removed |
| Position.BuildStationId | src/xungewang.cn/bsp/services/position.go:85-87 | the id is the three codes plus two separators long |
| Position.StationIdRoundTrip | src/xungewang.cn/bsp/services/position.go:85-87 | splitting the id at its first two "-" gives back mnc, lac and cid when mnc and lac hold no "-" |
| Position.StationIdInjective | src/xungewang.cn/bsp/services/position.go:85-87 | with dash-free codes, equal ids mean equal codes |
| Position.StationIdCollision | src/xungewang.cn/bsp/services/position.go:85-87 | codes containing "-" can give two different stations the same id |
| Position.Dedup | src/xungewang.cn/bsp/services/position.go:34-37 | one entry per distinct id of the request, each entry a signal with that id |
| Position.DedupLastWins | src/xungewang.cn/bsp/services/position.go:34-37 | the entry for an id is the last signal with that id; later signals overwrite earlier ones |
| Position.DedupSize | src/xungewang.cn/bsp/services/position.go:34-37 | the map has exactly as many entries as distinct ids, at least one for a non-empty request |
| Position.IndexSignals | src/xungewang.cn/bsp/services/position.go:34-37 | the loop builds exactly the deduplicated map |
| Position.UnknownSignals | src/xungewang.cn/bsp/services/position.go:63-78 | the list holds, once each, the signal of every requested id that no found station carries, and nothing else, in unspecified order |
| Position.PairTakesLastStrength | src/xungewang.cn/bsp/services/position.go:54-58 | a found station gets the strength of the last request signal naming it |
| Position.Pair | src/xungewang.cn/bsp/services/position.go:54-58 | one signal-aware station per found station, in the directory's order, carrying the strength of the signal with its id, or Go's zero value 0.0 when no signal has that id |
| Position.PairWithSignals | src/xungewang.cn/bsp/services/position.go:54-58 | the by-index loop fills a new array with exactly Pair's stations and strengths |
| Position.ComputePosition | src/xungewang.cn/bsp/services/position.go:31-61 | the answer is PositionFor of the request; unknowns are produced iff the directory answered with a count different from the number of ids, and then list exactly the unmatched signals |
| Position.DirectoryErrorReturned | src/xungewang.cn/bsp/services/position.go:39-42 | a directory error is returned unchanged and no unknowns are recorded |
| Position.NothingMatched | src/xungewang.cn/bsp/services/position.go:45-51 | a non-empty request with no station found gives NOT_FOUND "no stations matched", and every signal is unknown |
| Position.EmptyRequestNoSuitableStations | src/xungewang.cn/bsp/services/position.go:45-60 | an empty request with no stations found records nothing and fails with "no suitable stations" |
| Position.MatchedNeverFails | src/xungewang.cn/bsp/services/position.go:53-60 | once a station matched, the answer is the triangulation of the non-empty filtered, paired stations |
| Position.CountTestMatchesUnknowns | src/xungewang.cn/bsp/services/position.go:45-51 | for a directory returning only requested stations, each once, the counts differ iff some id is unmatched, and the unknowns number ids minus stations |
| Position.TwoSignalsOneKnown | src/xungewang.cn/bsp/services/position_test.go:24-53 | the test's two signals: the answer is triangulated from station 60122 alone with strength -78, and cid 60123 is the only unknown |

## Left out

- `triangulate` (the spherical weighted average) and the distance weight `10^(3.5 + s/20)` are floating-point trigonometry and powers. The triangulator is a parameter of the model, so no property of its result (for example that one station yields its own coordinates) is proved.
- IEEE-754 rounding, NaN and infinities: coordinates and strengths are exact reals.
- The goroutine that records unknown signals, and the repository's SQL lookup and insert. The directory is a function parameter. The model states which signals would be recorded, not when or whether the recording succeeds.
- Logging calls (`log.Debug`, `log.Errorf` in `convertError`) and `convertError`'s request context, which only feeds the log.
- HTTP routing, content negotiation, JSON and form extraction, the `String()` methods, `Init`, `recovery`, `writeError`, `GetRequestScope`, the request scope and DB-aware middleware, `LoadConfig`, and the server setup in main.go. All of these are I/O and library plumbing.
- The texts of ozzo-validation errors: a field error records the rule that failed, not its message, and a `Validation` fault carries the rendered text as given.
- `Station.Validate` is not called by the modelled code.
- Position.BuildStationId: its own contract states only the id's length. The content is stated by `StationIdRoundTrip` for dash-free codes, because codes containing "-" make the join ambiguous (`StationIdCollision`).
- Triangulation.FindClosestStations: the elements are values, not pointers to shared `signalAwareStation` objects, so aliasing between the slice and other holders of those pointers is not modelled.
- Triangulation.FindClosestStations: the contract says nothing about the array slots past the returned length. `RemoveInPlace` states what one removal leaves there.
- The Windows errno branch of `isClosedConnError` is commented out in the source and is not modelled.
