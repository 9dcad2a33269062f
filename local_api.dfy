/**
 * `LocalApiServer`: the local HTTP endpoint that answers `GET /api/usage?date=…`
 * with the stored usage of that day. Requests and responses are records; the
 * JSON object is a `UsageJson` body with the same three fields.
 */
module LocalApi {
  import opened Wrappers
  import opened Text
  import opened Collections
  import opened UsageStore

  datatype HttpMethod = Get | Post | Put | Delete | Head | Options | Patch | OtherMethod(name: string)

  /** The parts of an `IHTTPSession` the server looks at; each parameter may carry several values. */
  datatype Request = Request(httpMethod: HttpMethod, uri: string, parameters: map<string, seq<string>>)

  datatype Status = Ok | BadRequest | NotFound | MethodNotAllowed

  function StatusCode(s: Status): int {
    match s
    case Ok => 200
    case BadRequest => 400
    case NotFound => 404
    case MethodNotAllowed => 405
  }

  /** One element of the `apps` array. */
  datatype AppJson = AppJson(name: string, packageName: string, minutes: int)

  datatype Body =
    | PlainText(text: string)
    | UsageJson(date: string, totalMinutes: int, apps: seq<AppJson>)

  datatype Response = Response(status: Status, mimeType: string, body: Body)

  /** NanoHTTPD's `MIME_PLAINTEXT`. */
  const MimePlaintext: string := "text/plain"
  const MimeJson: string := "application/json"
  const UsagePath: string := "/api/usage"
  const MsPerMinute: int := 60000

  /** `parameters["date"]?.firstOrNull()`. */
  function DateParam(parameters: map<string, seq<string>>): (r: Option<string>)
    ensures r.Some? <==> "date" in parameters && parameters["date"] != []
    ensures r.Some? ==> r.value == parameters["date"][0]
  {
    if "date" in parameters && parameters["date"] != [] then Some(parameters["date"][0]) else None
  }

  /** The JSON object for one stored row: its whole minutes, truncated as `Long` division does. */
  function AppEntry(u: AppUsageEntity): AppJson {
    AppJson(u.appName, u.packageName, Quot(u.usageTimeMs, MsPerMinute))
  }

  function AppMinutes(a: AppJson): int {
    a.minutes
  }

  function RowMinutes(u: AppUsageEntity): int {
    Quot(u.usageTimeMs, MsPerMinute)
  }

  /** The body of a successful `handleUsage` for the rows the query returned. */
  function UsageBody(date: string, usages: seq<AppUsageEntity>): Body {
    UsageJson(date, Quot(RowsTotal(usages), MsPerMinute), MapSeq(usages, AppEntry))
  }

  /** `handleUsage`: 400 without a date; otherwise the day's rows, largest first, as JSON. */
  function UsageResponse(parameters: map<string, seq<string>>, rows: seq<AppUsageEntity>): Response {
    match DateParam(parameters)
    case None => Response(BadRequest, MimePlaintext, PlainText("date parameter required"))
    case Some(date) => Response(Ok, MimeJson, UsageBody(date, UsageByDate(rows, date)))
  }

  /** `serve`: 405 for anything but GET, 404 for any path but /api/usage. */
  function ServeResponse(req: Request, rows: seq<AppUsageEntity>): Response {
    if req.httpMethod != Get then Response(MethodNotAllowed, MimePlaintext, PlainText("GET only"))
    else if req.uri == UsagePath then UsageResponse(req.parameters, rows)
    else Response(NotFound, MimePlaintext, PlainText("Not found"))
  }

  // ---------------------------------------------------------------------------
  // Properties of the responses

  /** Which status a request gets, each condition in both directions; the errors are plain text. */
  lemma ServeStatus(req: Request, rows: seq<AppUsageEntity>)
    ensures var r := ServeResponse(req, rows);
      && (r.status == MethodNotAllowed <==> req.httpMethod != Get)
      && (r.status == NotFound <==> req.httpMethod == Get && req.uri != UsagePath)
      && (r.status == BadRequest <==> req.httpMethod == Get && req.uri == UsagePath && DateParam(req.parameters).None?)
      && (r.status == Ok <==> req.httpMethod == Get && req.uri == UsagePath && DateParam(req.parameters).Some?)
      && (r.status != Ok <==> r.mimeType == MimePlaintext && r.body.PlainText?)
      && (r.status == Ok <==> r.mimeType == MimeJson && r.body.UsageJson?)
  {
  }

  /**
   * The `apps` array for a date has one entry per stored row of that date, in
   * the order the query returns them (largest usage first), each with the
   * row's name, package and whole minutes; every stored row of the day is
   * listed, and the minutes never increase along the array.
   */
  lemma AppsListStoredRows(rows: seq<AppUsageEntity>, date: string)
    ensures var usages := UsageByDate(rows, date);
      var apps := MapSeq(usages, AppEntry);
      && |apps| == |DatedOn(rows, date)| == |usages|
      && (forall k :: 0 <= k < |apps| ==> apps[k] == AppEntry(usages[k]) && usages[k] in rows && usages[k].date == date)
      && (forall x :: x in rows && x.date == date ==> AppEntry(x) in apps)
      && (forall i, j :: 0 <= i < j < |apps| ==> apps[i].minutes >= apps[j].minutes)
  {
    var usages := UsageByDate(rows, date);
    UsageByDateMembers(rows, date);
    AppsCoverRows(usages);
    AppsDescending(usages);
  }

  lemma AppsCoverRows(usages: seq<AppUsageEntity>)
    ensures forall x :: x in usages ==> AppEntry(x) in MapSeq(usages, AppEntry)
  {
    var apps := MapSeq(usages, AppEntry);
    forall x | x in usages ensures AppEntry(x) in apps {
      var k :| 0 <= k < |usages| && usages[k] == x;
      assert apps[k] == AppEntry(x);
    }
  }

  lemma AppsDescending(usages: seq<AppUsageEntity>)
    requires SortedDesc(usages, UsageOf)
    ensures var apps := MapSeq(usages, AppEntry);
      forall i, j :: 0 <= i < j < |apps| ==> apps[i].minutes >= apps[j].minutes
  {
    var apps := MapSeq(usages, AppEntry);
    forall i, j | 0 <= i < j < |apps| ensures apps[i].minutes >= apps[j].minutes {
      MinutesMonotone(usages[j].usageTimeMs, usages[i].usageTimeMs);
    }
  }

  /** A successful response's body is the `apps` array above, for the requested date. */
  lemma OkListsStoredRows(req: Request, rows: seq<AppUsageEntity>)
    requires ServeResponse(req, rows).status == Ok
    ensures "date" in req.parameters && req.parameters["date"] != []
    ensures var date := req.parameters["date"][0];
      var b := ServeResponse(req, rows).body;
      && b.date == date
      && b.apps == MapSeq(UsageByDate(rows, date), AppEntry)
      && b.totalMinutes == Quot(RowsTotal(DatedOn(rows, date)), MsPerMinute)
  {
    var date := req.parameters["date"][0];
    SortDescSum(DatedOn(rows, date), UsageOf, UsageOf);
  }

  /** Truncated minutes never decrease as the duration grows, on either side of zero. */
  lemma MinutesMonotone(a: int, b: int)
    requires a <= b
    ensures Quot(a, MsPerMinute) <= Quot(b, MsPerMinute)
  {
  }

  /**
   * For durations that are not negative, as the stored ones are, the whole
   * minutes of the sum lie between the sum of the per-row minutes and that sum
   * plus one less than the number of rows.
   */
  lemma {:induction false} MinutesOfSum(us: seq<AppUsageEntity>)
    requires forall x :: x in us ==> x.usageTimeMs >= 0
    ensures MsPerMinute * SumBy(us, RowMinutes) <= RowsTotal(us)
    ensures us != [] ==> RowsTotal(us) < MsPerMinute * (SumBy(us, RowMinutes) + |us|)
  {
    if us != [] {
      var init := us[..|us| - 1];
      assert forall x :: x in init ==> x in us;
      MinutesOfSum(init);
      var last := us[|us| - 1];
      assert 0 <= last.usageTimeMs - MsPerMinute * RowMinutes(last) < MsPerMinute;
    }
  }

  /** The minutes between `lo` and `hi` milliseconds, truncated: bounded by the bounds' minutes. */
  lemma QuotBetween(total: int, s: int, n: nat)
    requires MsPerMinute * s <= total
    requires n > 0 ==> total < MsPerMinute * (s + n)
    requires n == 0 ==> total == MsPerMinute * s
    requires total >= 0
    ensures s <= Quot(total, MsPerMinute)
    ensures n > 0 ==> Quot(total, MsPerMinute) <= s + n - 1
    ensures n == 0 ==> Quot(total, MsPerMinute) == s
  {
  }

  /**
   * In a successful response over rows with non-negative durations,
   * `totalMinutes` is at least the sum of the listed minutes and exceeds it by
   * less than the number of entries.
   */
  lemma TotalMinutesBounds(req: Request, rows: seq<AppUsageEntity>)
    requires ServeResponse(req, rows).status == Ok
    requires forall x :: x in rows ==> x.usageTimeMs >= 0
    ensures var b := ServeResponse(req, rows).body;
      && SumBy(b.apps, AppMinutes) <= b.totalMinutes
      && (b.apps != [] ==> b.totalMinutes <= SumBy(b.apps, AppMinutes) + |b.apps| - 1)
      && (b.apps == [] ==> b.totalMinutes == 0)
  {
    var date := req.parameters["date"][0];
    var usages := UsageByDate(rows, date);
    assert forall x :: x in usages ==> x.usageTimeMs >= 0 by {
      UsageByDateMembers(rows, date);
    }
    MinutesOfSum(usages);
    SumByMapSeq(usages, AppEntry, AppMinutes, RowMinutes);
    SumByNonNegative(usages, UsageOf);
    QuotBetween(RowsTotal(usages), SumBy(usages, RowMinutes), |usages|);
  }

  // ---------------------------------------------------------------------------
  // The server

  class LocalApiServer {
    const dao: AppUsageDao

    constructor (dao: AppUsageDao)
      ensures this.dao == dao
    {
      this.dao := dao;
    }

    method Serve(req: Request) returns (r: Response)
      ensures r == ServeResponse(req, dao.rows)
    {
      if req.httpMethod != Get {
        return Response(MethodNotAllowed, MimePlaintext, PlainText("GET only"));
      }
      if req.uri == UsagePath {
        r := HandleUsage(req);
      } else {
        r := Response(NotFound, MimePlaintext, PlainText("Not found"));
      }
    }

    /** The `for (usage in usages)` loop: one JSON object per row, in the rows' order. */
    method AppsArray(usages: seq<AppUsageEntity>) returns (apps: seq<AppJson>)
      ensures apps == MapSeq(usages, AppEntry)
    {
      apps := [];
      for j := 0 to |usages|
        invariant |apps| == j
        invariant forall k :: 0 <= k < j ==> apps[k] == AppEntry(usages[k])
      {
        apps := apps + [AppJson(usages[j].appName, usages[j].packageName, Quot(usages[j].usageTimeMs, MsPerMinute))];
      }
    }

    /** `handleUsage`: the date parameter, the query, the total and the `apps` array. */
    method HandleUsage(req: Request) returns (r: Response)
      ensures r == UsageResponse(req.parameters, dao.rows)
    {
      var date := DateParam(req.parameters);
      if date.None? {
        return Response(BadRequest, MimePlaintext, PlainText("date parameter required"));
      }
      var usages := dao.GetUsageByDate(date.value);
      var totalMinutes := Quot(RowsTotal(usages), MsPerMinute);
      var apps := AppsArray(usages);
      r := Response(Ok, MimeJson, UsageJson(date.value, totalMinutes, apps));
    }
  }
}
