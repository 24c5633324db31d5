/** The fit request handlers (the routes under `/fit/`), reduced to what they decide before and
    after the Google Fit call: the `access_token` guard, the seven-day query
    window, the `datasetId` text, the request each route sends upstream, and
    the `/fit/aggregate` handler around the normaliser. The current time and
    the upstream call are parameters. */
module FitRoutes {
  import opened Wrappers
  import opened Decimal
  import FitData
  import Normaliser

  /** Seven days in milliseconds: the span of every windowed query. */
  const WeekMillis: int := 7 * 24 * 60 * 60 * 1000

  /** The aggregate call's bucket width: one day in milliseconds. */
  const DayMillis: int := 86400000

  datatype Body =
    | Text(text: string)             // `res.send(...)`
    | ErrorJson(message: string)     // `res.json({ error: err.message })`
    | Records(records: seq<FitData.DailyRecord>)

  datatype Response = Response(status: int, body: Body)

  /** The answer of every route under `/fit/` to a request without a token. */
  const MissingToken := Response(400, Text("Missing access_token"))

  /** The guard `if (!access_token)`: an absent or empty query parameter is
      falsy. */
  predicate TokenPresent(accessToken: Option<string>)
    ensures TokenPresent(accessToken) <==> accessToken.Some? && |accessToken.value| > 0
  {
    accessToken.Some? && accessToken.value != ""
  }

  // The query window and its `datasetId`.

  datatype Window = Window(startTimeMillis: int, endTimeMillis: int)

  /** `endTimeMillis = Date.now()` and the start seven days earlier. */
  function LastSevenDays(now: int): (w: Window)
    ensures w.endTimeMillis == now
    ensures w.endTimeMillis - w.startTimeMillis == 604800000
  {
    Window(now - WeekMillis, now)
  }

  /** `${startTimeMillis * 1000000}-${endTimeMillis * 1000000}`: the window
      in nanoseconds, start and end joined by a dash. The text names exactly
      that window: it reads back as start and end times 10^6. */
  function DatasetId(w: Window): (id: string)
    ensures ParseDatasetId(id) == Some((w.startTimeMillis * 1000000, w.endTimeMillis * 1000000))
  {
    DashJoinRoundTrip(w.startTimeMillis * 1000000, w.endTimeMillis * 1000000);
    IntToDecimal(w.startTimeMillis * 1000000) + "-" + IntToDecimal(w.endTimeMillis * 1000000)
  }

  /** The first dash at or after position `i`, or `|s|` if there is none. */
  function DashFrom(s: string, i: nat): (k: nat)
    requires i <= |s|
    ensures i <= k <= |s|
    ensures k < |s| ==> s[k] == '-'
    ensures forall j :: i <= j < k ==> s[j] != '-'
    decreases |s| - i
  {
    if i == |s| then |s| else if s[i] == '-' then i else DashFrom(s, i + 1)
  }

  /** Splits a `datasetId` at the first dash after a possible leading minus
      sign and reads both halves as integers. */
  function ParseDatasetId(id: string): Option<(int, int)> {
    if |id| == 0 then None
    else
      var k := DashFrom(id, 1);
      if k == |id| then None
      else
        match (ParseInt(id[..k]), ParseInt(id[k + 1..]))
        case (Some(a), Some(b)) => Some((a, b))
        case _ => None
  }

  /** Two integers joined by a dash split back into the same two integers,
      whatever their signs. */
  lemma DashJoinRoundTrip(x: int, y: int)
    ensures ParseDatasetId(IntToDecimal(x) + "-" + IntToDecimal(y)) == Some((x, y))
  {
    var a := IntToDecimal(x);
    var b := IntToDecimal(y);
    var id := a + "-" + b;
    assert forall j :: 1 <= j < |a| ==> id[j] == a[1..][j - 1];
    assert id[|a|] == '-';
    var k := DashFrom(id, 1);
    assert k == |a|;
    assert id[..k] == a;
    assert id[k + 1..] == b;
    IntToDecimalRoundTrip(x);
    IntToDecimalRoundTrip(y);
  }

  // What each route asks of Google Fit.

  datatype FitRoute =
    | Sessions | Steps | HeartRateRoute | BloodPressureRoute | BodyFatRoute
    | BodyTemperature | TestRoute | AggregateRoute

  /** The body of `users.dataset.aggregate`. */
  datatype AggregateRequest = AggregateRequest(
    dataTypeNames: seq<string>, bucketDurationMillis: int, startTimeMillis: int, endTimeMillis: int)

  /** The upstream calls a route makes once its token is accepted. */
  datatype Upstream =
    | ListSessions
    | GetDataset(dataSourceId: string, datasetId: string)
    | ListSessionsThenGetDataset(dataSourceId: string, datasetId: string)
    | Aggregate(request: AggregateRequest)

  const AggregatedTypes: seq<string> := [
    "com.google.step_count.delta", "com.google.blood_glucose", "com.google.blood_pressure",
    "com.google.heart_rate.bpm", "com.google.weight", "com.google.height",
    "com.google.sleep.segment", "com.google.body.fat.percentage", "com.google.menstruation"]

  /** The aggregate request `/fit/aggregate` sends at time `now`. */
  function AggregateRequestAt(now: int): (q: AggregateRequest)
    ensures q.endTimeMillis == now && q.endTimeMillis - q.startTimeMillis == 604800000
    ensures q.bucketDurationMillis == 86400000
    ensures q.dataTypeNames == AggregatedTypes
  {
    var w := LastSevenDays(now);
    AggregateRequest(AggregatedTypes, DayMillis, w.startTimeMillis, w.endTimeMillis)
  }

  /** The data source a single-dataset route reads. */
  function RouteSource(route: FitRoute): string
    requires route != Sessions && route != AggregateRoute
  {
    match route
    case Steps => FitData.StepSource
    case HeartRateRoute => "derived:com.google.heart_rate.bpm:com.google.android.gms:aggregated"
    case BloodPressureRoute => FitData.BloodPressureSource
    case BodyFatRoute => "derived:com.google.body.fat.percentage:com.google.android.gms:aggregated"
    case BodyTemperature => "derived:com.google.body.temperature:com.google.android.gms:aggregated"
    case TestRoute => FitData.StepSource
  }

  /** What a route under `/fit/` does with its token at time `now`: answer 400
      straight away, or make its upstream call. */
  function Plan(route: FitRoute, accessToken: Option<string>, now: int): (r: Result<Upstream, Response>)
    ensures r.Failure? <==> !TokenPresent(accessToken)
    ensures r.Failure? ==> r.error.status == 400
  {
    if !TokenPresent(accessToken) then Failure(MissingToken)
    else
      match route
      case Sessions => Success(ListSessions)
      case AggregateRoute => Success(Aggregate(AggregateRequestAt(now)))
      case TestRoute =>
        Success(ListSessionsThenGetDataset(RouteSource(route), DatasetId(LastSevenDays(now))))
      case _ => Success(GetDataset(RouteSource(route), DatasetId(LastSevenDays(now))))
  }

  /** Every route that computes a window asks for exactly the seven days
      that end at `now`: the aggregate request carries it in milliseconds
      with daily buckets, the others in the nanosecond `datasetId`. */
  lemma WindowedRoutesAskForLastWeek(route: FitRoute, accessToken: Option<string>, now: int)
    requires TokenPresent(accessToken) && route != Sessions
    ensures Plan(route, accessToken, now).Success?
    ensures route == AggregateRoute ==>
      var q := Plan(route, accessToken, now).value.request;
      q.endTimeMillis == now && q.endTimeMillis - q.startTimeMillis == 604800000
        && q.bucketDurationMillis == 86400000 && |q.dataTypeNames| == 9
    ensures route != AggregateRoute ==>
      var u := Plan(route, accessToken, now).value;
      (u.GetDataset? || u.ListSessionsThenGetDataset?)
        && ParseDatasetId(u.datasetId) == Some(((now - 604800000) * 1000000, now * 1000000))
  {
  }

  // The `/fit/aggregate` handler.

  type ApiReply = Result<FitData.AggregateData, string>

  /** V8's message for reading property `p` of `undefined`. */
  function ReadOfUndefined(p: string): string {
    "Cannot read properties of undefined (reading '" + p + "')"
  }

  /** `err.message` of the TypeError each throw raises: indexing an undefined
      `value` reads property "0", a missing list reads "map". */
  function ErrorMessage(e: Normaliser.NormaliseError): (m: string)
    ensures e.ValueUndefined? ==> m == ReadOfUndefined("0")
    ensures !e.ValueUndefined? ==> m == ReadOfUndefined("map")
  {
    match e
    case ValueUndefined(_) => ReadOfUndefined("0")
    case _ => ReadOfUndefined("map")
  }

  /** The answer to an accepted request, given what the aggregate call
      returned: 200 with one record per bucket, or 500 with the message. */
  function AggregateReply(reply: ApiReply, dateString: int -> string): (resp: Response)
    ensures resp.status == 200 || resp.status == 500
    ensures resp.status == 200 <==>
      reply.Success? && reply.value.bucket.Some?
        && forall i :: 0 <= i < |reply.value.bucket.value| ==>
             Normaliser.BucketRecord(reply.value.bucket.value[i], dateString).Success?
    ensures resp.status == 200 ==>
      resp.body.Records? && |resp.body.records| == |reply.value.bucket.value|
        && forall i :: 0 <= i < |resp.body.records| ==>
             Normaliser.BucketRecord(reply.value.bucket.value[i], dateString) == Success(resp.body.records[i])
    ensures reply.Failure? ==> resp == Response(500, ErrorJson(reply.error))
    ensures reply.Success? && reply.value.bucket.None? ==>
      resp == Response(500, ErrorJson(ReadOfUndefined("map")))
    ensures resp.status == 500 && reply.Success? && reply.value.bucket.Some? ==>
      resp.body == ErrorJson(ErrorMessage(Normaliser.Normalised(reply.value.bucket.value, dateString).error))
  {
    match reply
    case Failure(message) => Response(500, ErrorJson(message))
    case Success(data) =>
      match data.bucket
      case None => Response(500, ErrorJson(ErrorMessage(Normaliser.BucketListUndefined)))
      case Some(fitnessData) =>
        match Normaliser.Normalised(fitnessData, dateString)
        case Success(formattedData) => Response(200, Records(formattedData))
        case Failure(e) => Response(500, ErrorJson(ErrorMessage(e)))
  }

  /** `GET /fit/aggregate`: check the token, ask for the last seven days in
      daily buckets, reshape the buckets, answer. */
  method HandleAggregate(accessToken: Option<string>, now: int,
                         fetch: AggregateRequest -> ApiReply, dateString: int -> string)
    returns (resp: Response)
    ensures !TokenPresent(accessToken) ==> resp == MissingToken
    ensures TokenPresent(accessToken) ==> resp == AggregateReply(fetch(AggregateRequestAt(now)), dateString)
  {
    if !TokenPresent(accessToken) {
      return MissingToken;
    }
    var w := LastSevenDays(now);
    var response := fetch(AggregateRequest(AggregatedTypes, DayMillis, w.startTimeMillis, w.endTimeMillis));
    if response.Failure? {
      return Response(500, ErrorJson(response.error));
    }
    if response.value.bucket.None? {
      return Response(500, ErrorJson(ErrorMessage(Normaliser.BucketListUndefined)));
    }
    var formattedData := Normaliser.FormatBuckets(response.value.bucket.value, dateString);
    if formattedData.Failure? {
      return Response(500, ErrorJson(ErrorMessage(formattedData.error)));
    }
    resp := Response(200, Records(formattedData.value));
  }
}
