/**
 * The collector (`cost-explorer.py`): from the wall-clock reading `now`,
 * the half-open range `[first of this month, first of next month)` it asks
 * Cost Explorer for, the envelope it stores, and the object key it stores
 * it under, and the handler's response. The clock reading and the
 * outcomes of the STS, Cost Explorer and S3 calls are parameters.
 */
module Collector {
  import opened Wrappers
  import opened Calendar
  import opened CostReport

  /** Folder of the bucket that holds the monthly reports. */
  const ReportFolder: string := "cost-reports/monthly/"

  /** `now.replace(day=1)`: the inclusive start of the range. */
  function MonthStart(now: DateTime): Date {
    Date(now.year, now.month, 1)
  }

  /**
   * The exclusive end of the range: January 1 of the next year for
   * December, otherwise the first of the next month. `datetime.replace`
   * raises for the year after 9999.
   */
  function NextMonthStart(now: DateTime): (r: Result<Date, string>)
    requires ValidDateTime(now)
    ensures r.Err? <==> now.year == MaxYear && now.month == 12
    ensures r.Ok? ==> && ValidDate(r.value) && r.value.day == 1
                      && 1 <= r.value.month <= 12
                      && Before(MonthStart(now), r.value)
  {
    if now.month == 12 then
      if now.year + 1 > MaxYear then Err("year 10000 is out of range")
      else Ok(Date(now.year + 1, 1, 1))
    else
      Ok(Date(now.year, now.month + 1, 1))
  }

  /** The range contains exactly the valid dates of the month of `now`. */
  lemma RangeCoversTheMonth(now: DateTime, x: Date)
    requires ValidDateTime(now) && NextMonthStart(now).Ok? && ValidDate(x)
    ensures (!Before(x, MonthStart(now)) && Before(x, NextMonthStart(now).value))
            <==> (x.year == now.year && x.month == now.month)
  {
  }

  /** `strftime('%Y-%m-%d')`, the form the range is sent in. */
  function FormatDate(d: Date): string
    requires ValidDate(d)
  {
    Pad4(d.year) + "-" + Pad2(d.month) + "-" + Pad2(d.day)
  }

  /** `strftime('%Y-%m')`, the `month` field of the stored envelope. */
  function MonthLabel(now: DateTime): string
    requires ValidDateTime(now)
  {
    Pad4(now.year) + "-" + Pad2(now.month)
  }

  /** `cost-reports/monthly/{account_id}_{%Y%m%d_%H%M%S}.json`. */
  function ObjectKey(accountId: string, now: DateTime): string
    requires ValidDateTime(now)
  {
    ReportFolder + accountId + "_" + Timestamp(now) + ".json"
  }

  /** The envelope label is the aggregator's `%Y%m` month with a dash after the year. */
  lemma MonthLabelIsDashedYearMonth(now: DateTime)
    requires ValidDateTime(now)
    ensures |MonthLabel(now)| == 7 && MonthLabel(now)[4] == '-'
    ensures MonthLabel(now)[..4] + MonthLabel(now)[5..] == YearMonth(now)
  {
    assert MonthLabel(now)[..4] == Pad4(now.year);
    assert MonthLabel(now)[5..] == Pad2(now.month);
  }

  /** The first-of-month start date is sent as `YYYY-MM-01`. */
  lemma StartDateIsFirstOfMonth(now: DateTime)
    requires ValidDateTime(now)
    ensures FormatDate(MonthStart(now)) == MonthLabel(now) + "-01"
  {
  }

  /**
   * Two runs for the same account share a key only when they read the
   * same second on the clock: keys never collide across distinct readings.
   */
  lemma {:induction false} ObjectKeysDistinct(accountId: string, a: DateTime, b: DateTime)
    requires ValidDateTime(a) && ValidDateTime(b)
    ensures ObjectKey(accountId, a) == ObjectKey(accountId, b) <==> a == b
  {
    if ObjectKey(accountId, a) == ObjectKey(accountId, b) {
      var lo := |ReportFolder + accountId + "_"|;
      assert ObjectKey(accountId, a)[lo..lo + 15] == Timestamp(a);
      assert ObjectKey(accountId, b)[lo..lo + 15] == Timestamp(b);
      TimestampRoundTrip(a);
      TimestampRoundTrip(b);
    }
  }

  /** The object body: `{account_id, generated_at, month, monthly_costs}`. */
  datatype CostData = CostData(accountId: string, generatedAt: DateTime, month: string, monthlyCosts: MonthlyCosts)

  /** What one successful run stored: the queried range, the key and timestamp, and the object. */
  datatype Upload = Upload(startDate: string, endDate: string, key: string, timestamp: string, document: CostData)

  /**
   * One collector run, its steps in the handler's order. `caller` is the
   * account id `get_caller_identity` returns, `query` Cost Explorer's
   * answer for the range and `stored` the outcome of `put_object`; each
   * is the text of the exception when that call raised. The first step
   * that raises ends the run with its text; otherwise the response is
   * stored verbatim under the timestamped key.
   */
  function Collect(caller: Result<string, string>, now: DateTime, query: Result<MonthlyCosts, string>,
                   stored: Result<(), string>): (r: Result<Upload, string>)
    requires ValidDateTime(now)
    ensures r.Err? <==> (caller.Err? || NextMonthStart(now).Err? || query.Err? || stored.Err?)
    ensures caller.Err? ==> r == Err(caller.error)
    ensures caller.Ok? && NextMonthStart(now).Err? ==> r == Err(NextMonthStart(now).error)
    ensures caller.Ok? && NextMonthStart(now).Ok? && query.Err? ==> r == Err(query.error)
    ensures caller.Ok? && NextMonthStart(now).Ok? && query.Ok? && stored.Err? ==> r == Err(stored.error)
    ensures r.Ok? ==>
      && r.value.key == ObjectKey(caller.value, now)
      && r.value.timestamp == Timestamp(now)
      && r.value.startDate == MonthLabel(now) + "-01"
      && r.value.endDate == FormatDate(NextMonthStart(now).value)
      && r.value.document == CostData(caller.value, now, MonthLabel(now), query.value)
  {
    match caller
    case Err(e) => Err(e)
    case Ok(accountId) =>
      match NextMonthStart(now)
      case Err(e) => Err(e)
      case Ok(next) =>
        match query
        case Err(e) => Err(e)
        case Ok(costs) =>
          match stored
          case Err(e) => Err(e)
          case Ok(_) =>
            StartDateIsFirstOfMonth(now);
            Ok(Upload(FormatDate(MonthStart(now)), FormatDate(next), ObjectKey(accountId, now), Timestamp(now),
                      CostData(accountId, now, MonthLabel(now), costs)))
  }

  /** The body of the handler's response. */
  datatype ResponseBody =
    | Collected(accountId: string, month: string, fileCreated: string, timestamp: string)
    | CollectionFailed(error: string)

  datatype Response = Response(statusCode: int, body: ResponseBody)

  /** The handler's return value: 200 with what was stored, or 500 with the exception text. */
  function Respond(r: Result<Upload, string>): (resp: Response)
    ensures resp.statusCode == 200 || resp.statusCode == 500
    ensures resp.statusCode == 200 <==> r.Ok?
    ensures r.Err? ==> resp.body == CollectionFailed(r.error)
    ensures r.Ok? ==> resp.body == Collected(r.value.document.accountId, r.value.document.month, r.value.key, r.value.timestamp)
  {
    match r
    case Err(e) => Response(500, CollectionFailed(e))
    case Ok(u) => Response(200, Collected(u.document.accountId, u.document.month, u.key, u.timestamp))
  }

  /**
   * One run of the collector's handler. It answers 200 exactly when no
   * step raised; the body then names the key the report was stored under,
   * the `YYYY-MM` month, and a timestamp that reads back as the clock
   * reading the key was built from. Otherwise it answers 500 with the
   * text of the first exception.
   */
  function LambdaHandler(caller: Result<string, string>, now: DateTime, query: Result<MonthlyCosts, string>,
                         stored: Result<(), string>): (resp: Response)
    requires ValidDateTime(now)
    ensures resp.statusCode == 200 <==> caller.Ok? && NextMonthStart(now).Ok? && query.Ok? && stored.Ok?
    ensures resp.statusCode == 200 ==>
      && resp.body.Collected?
      && resp.body.accountId == caller.value
      && resp.body.fileCreated == ObjectKey(caller.value, now)
      && resp.body.month == MonthLabel(now)
      && ParseTimestamp(resp.body.timestamp) == Some(now)
    ensures resp.statusCode != 200 ==>
      resp.statusCode == 500 && resp.body.CollectionFailed? && resp.body.error == Collect(caller, now, query, stored).error
  {
    TimestampRoundTrip(now);
    Respond(Collect(caller, now, query, stored))
  }
}
