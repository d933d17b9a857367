/** src/actions/statistics.ts: the per-user usage chart of the dashboard. The rows the database
    returns (one per user and time bucket) are pivoted into one chart item per bucket, carrying
    a `user-<id>_cost` and a `user-<id>_calls` value for every user with a row in that bucket. */
module StatisticsActions {
  import opened Wrappers
  import opened Strings
  import opened Auth
  import opened ActionTypes

  /** The chart's bucket size. */
  datatype Resolution = Hour | Day

  /** One entry of `TIME_RANGE_OPTIONS`. */
  datatype TimeRangeConfig = TimeRangeConfig(key: string, resolution: Resolution)

  const TimeRangeOptions: seq<TimeRangeConfig> :=
    [TimeRangeConfig("today", Hour), TimeRangeConfig("7days", Day), TimeRangeConfig("30days", Day)]

  const DefaultTimeRange := "today"
  const OverflowMarker := "numeric field overflow"
  const OverflowMessage := "数据金额过大，请检查数据库中的费用记录"
  const FailurePrefix := "获取统计数据失败："

  /** `DatabaseStatRow`: a user's calls and spend in one bucket; a null count or sum is absent. */
  datatype StatRow = StatRow(userId: int, userName: string, date: string,
                             apiCalls: Option<int>, totalCost: Option<real>)

  /** `DatabaseUser`: a user with a name that may be null or empty. */
  datatype DbUser = DbUser(id: int, name: Option<string>)

  /** One point of the chart: its bucket and the numeric fields set on it, in insertion order. */
  datatype ChartItem = ChartItem(date: string, values: seq<(string, real)>)

  /** `StatisticsUser`: a chart series. */
  datatype StatisticsUser = StatisticsUser(id: int, name: string, dataKey: string)

  /** `UserStatisticsData` */
  datatype StatisticsData = StatisticsData(chartData: seq<ChartItem>, users: seq<StatisticsUser>,
                                           timeRange: string, resolution: Resolution)

  /** `TIME_RANGE_OPTIONS.find(option => option.key === key)` */
  function FindRange(options: seq<TimeRangeConfig>, key: string): (r: Option<TimeRangeConfig>)
    ensures r.Some? ==> r.value in options && r.value.key == key
    ensures r.None? <==> forall i :: 0 <= i < |options| ==> options[i].key != key
  {
    if options == [] then None
    else if options[0].key == key then Some(options[0])
    else FindRange(options[1..], key)
  }

  /** Exactly the three ranges are known: today by hour, the last 7 and 30 days by day. */
  lemma KnownRanges(key: string)
    ensures FindRange(TimeRangeOptions, key).Some? <==> key == "today" || key == "7days" || key == "30days"
    ensures key == "today" ==> FindRange(TimeRangeOptions, key).value.resolution == Hour
    ensures key == "7days" || key == "30days" ==> FindRange(TimeRangeOptions, key).value.resolution == Day
  {
  }

  /** `user-${id}`: the key of a user's series. */
  function UserDataKey(userId: int): string {
    "user-" + IntToDecimal(userId)
  }

  function CostKey(userId: int): string {
    UserDataKey(userId) + "_cost"
  }

  function CallsKey(userId: int): string {
    UserDataKey(userId) + "_calls"
  }

  /** Distinct ids have distinct decimal strings, negative ones included. */
  lemma IntToDecimalInjective(a: int, b: int)
    requires IntToDecimal(a) == IntToDecimal(b)
    ensures a == b
  {
    SignOfDecimal(a);
    SignOfDecimal(b);
    if a < 0 {
      assert NatToDecimal(-a) == IntToDecimal(a)[1..];
      assert NatToDecimal(-b) == IntToDecimal(b)[1..];
      DecimalInjective(-a, -b);
    } else {
      DecimalInjective(a, b);
    }
  }

  /** A decimal numeral starts with a minus sign exactly when its number is negative. */
  lemma SignOfDecimal(n: int)
    ensures IntToDecimal(n) != [] && (IntToDecimal(n)[0] == '-' <==> n < 0)
  {
  }

  /** Equal strings with a common suffix agree before it. */
  lemma SuffixCancels(x: string, y: string, suffix: string)
    requires x + suffix == y + suffix
    ensures x == y
  {
    assert x == (x + suffix)[..|x|];
    assert y == (y + suffix)[..|y|];
  }

  /** The field names of two series never collide: a cost field is never a calls field, and
      two users share a field name only when they are the same user. */
  lemma FieldNamesAreDistinct(a: int, b: int)
    ensures CostKey(a) != CallsKey(b)
    ensures CostKey(a) == CostKey(b) <==> a == b
    ensures CallsKey(a) == CallsKey(b) <==> a == b
  {
    var ka, kb := UserDataKey(a), UserDataKey(b);
    assert CostKey(a)[|CostKey(a)| - 1] == 't';
    assert CallsKey(b)[|CallsKey(b)| - 1] == 's';
    if CostKey(a) == CostKey(b) {
      SuffixCancels(ka, kb, "_cost");
    }
    if CallsKey(a) == CallsKey(b) {
      SuffixCancels(ka, kb, "_calls");
    }
    if ka == kb {
      assert IntToDecimal(a) == ka[5..] && IntToDecimal(b) == kb[5..];
      IntToDecimalInjective(a, b);
    }
  }

  /** The bucket of a row: the full ISO timestamp by hour, its date by day. `isoOf` renders the
      database's date as `new Date(date).toISOString()` does. */
  function Bucket(row: StatRow, resolution: Resolution, isoOf: string -> string): string {
    match resolution
    case Hour => isoOf(row.date)
    case Day => DatePart(isoOf(row.date))
  }

  /** `total_cost ? parseFloat(total_cost) : 0` */
  function RowCost(row: StatRow): real {
    if row.totalCost.Some? && row.totalCost.value != 0.0 then row.totalCost.value else 0.0
  }

  /** `api_calls || 0` */
  function RowCalls(row: StatRow): real {
    if row.apiCalls.Some? && row.apiCalls.value != 0 then row.apiCalls.value as real else 0.0
  }

  /** The value of the first field with that name. */
  function ValueOf(props: seq<(string, real)>, key: string): Option<real> {
    if props == [] then None
    else if props[0].0 == key then Some(props[0].1)
    else ValueOf(props[1..], key)
  }

  /** `item[key] = v`: the field is overwritten in place, or added at the end. */
  function SetField(props: seq<(string, real)>, key: string, v: real): (r: seq<(string, real)>)
    ensures ValueOf(r, key) == Some(v)
    ensures forall k :: k != key ==> ValueOf(r, k) == ValueOf(props, k)
  {
    if props == [] then [(key, v)]
    else if props[0].0 == key then [(key, v)] + props[1..]
    else [props[0]] + SetField(props[1..], key, v)
  }

  /** The two fields one database row sets on its bucket's item. */
  function SetRowFields(props: seq<(string, real)>, row: StatRow): seq<(string, real)> {
    SetField(SetField(props, CostKey(row.userId), RowCost(row)), CallsKey(row.userId), RowCalls(row))
  }

  /** Setting a row's fields changes that row's user's two fields and no other user's. */
  lemma RowFieldsOf(props: seq<(string, real)>, row: StatRow, u: int)
    ensures ValueOf(SetRowFields(props, row), CostKey(u))
            == if u == row.userId then Some(RowCost(row)) else ValueOf(props, CostKey(u))
    ensures ValueOf(SetRowFields(props, row), CallsKey(u))
            == if u == row.userId then Some(RowCalls(row)) else ValueOf(props, CallsKey(u))
  {
    FieldNamesAreDistinct(u, row.userId);
    FieldNamesAreDistinct(row.userId, u);
  }

  /** `dataByDate.get(date)`: the position of the bucket's item, if there is one. */
  function IndexOfDate(chart: seq<ChartItem>, date: string): (r: Option<nat>)
    ensures r.Some? ==> r.value < |chart| && chart[r.value].date == date
    ensures r.None? <==> forall i :: 0 <= i < |chart| ==> chart[i].date != date
  {
    if chart == [] then None
    else if chart[|chart| - 1].date == date && IndexOfDate(chart[..|chart| - 1], date).None? then Some(|chart| - 1)
    else IndexOfDate(chart[..|chart| - 1], date)
  }

  /** One step of the pivot: the row's fields go on its bucket's item, created on first sight. */
  function AddRow(chart: seq<ChartItem>, row: StatRow, date: string): seq<ChartItem> {
    match IndexOfDate(chart, date)
    case None => chart + [ChartItem(date, SetRowFields([], row))]
    case Some(i) => chart[i := chart[i].(values := SetRowFields(chart[i].values, row))]
  }

  /** `Array.from(dataByDate.values())` after every row has been applied in order. */
  function Pivot(rows: seq<StatRow>, resolution: Resolution, isoOf: string -> string): seq<ChartItem> {
    if rows == [] then []
    else
      var last := rows[|rows| - 1];
      AddRow(Pivot(rows[..|rows| - 1], resolution, isoOf), last, Bucket(last, resolution, isoOf))
  }

  /** The buckets of the rows, in row order, repeats included. */
  function Buckets(rows: seq<StatRow>, resolution: Resolution, isoOf: string -> string): (r: seq<string>)
    ensures |r| == |rows|
    ensures forall i :: 0 <= i < |rows| ==> r[i] == Bucket(rows[i], resolution, isoOf)
  {
    if rows == [] then []
    else
      var last := rows[|rows| - 1];
      Buckets(rows[..|rows| - 1], resolution, isoOf) + [Bucket(last, resolution, isoOf)]
  }

  /** The distinct elements of `s`, each where it first occurs. */
  function FirstOccurrences(s: seq<string>): seq<string> {
    if s == [] then []
    else
      var d := FirstOccurrences(s[..|s| - 1]);
      if s[|s| - 1] in d then d else d + [s[|s| - 1]]
  }

  /** `FirstOccurrences` keeps every element once and adds none. */
  lemma {:induction false} FirstOccurrencesSound(s: seq<string>)
    ensures forall x :: x in FirstOccurrences(s) <==> x in s
    ensures forall i, j :: 0 <= i < j < |FirstOccurrences(s)| ==> FirstOccurrences(s)[i] != FirstOccurrences(s)[j]
  {
    if s != [] {
      FirstOccurrencesSound(s[..|s| - 1]);
      assert s == s[..|s| - 1] + [s[|s| - 1]];
    }
  }

  /** The dates of the chart's items, in order. */
  function Dates(chart: seq<ChartItem>): (r: seq<string>)
    ensures |r| == |chart| && forall i :: 0 <= i < |chart| ==> r[i] == chart[i].date
  {
    seq(|chart|, i requires 0 <= i < |chart| => chart[i].date)
  }

  /** A row adds its bucket to the chart's dates when it is new there, and otherwise keeps them. */
  lemma DatesAfterRow(chart: seq<ChartItem>, row: StatRow, date: string)
    ensures Dates(AddRow(chart, row, date)) == if date in Dates(chart) then Dates(chart) else Dates(chart) + [date]
  {
    match IndexOfDate(chart, date)
    case None =>
      assert date !in Dates(chart);
      assert Dates(AddRow(chart, row, date)) == Dates(chart) + [date];
    case Some(i) =>
      assert Dates(chart)[i] == date;
      assert Dates(AddRow(chart, row, date)) == Dates(chart);
  }

  /** The chart has one item per distinct bucket, in the order the buckets first occur. */
  lemma {:induction false} OneItemPerBucket(rows: seq<StatRow>, resolution: Resolution, isoOf: string -> string)
    ensures Dates(Pivot(rows, resolution, isoOf)) == FirstOccurrences(Buckets(rows, resolution, isoOf))
  {
    if rows != [] {
      var init, last := rows[..|rows| - 1], rows[|rows| - 1];
      var buckets := Buckets(rows, resolution, isoOf);
      OneItemPerBucket(init, resolution, isoOf);
      assert buckets[..|buckets| - 1] == Buckets(init, resolution, isoOf);
      DatesAfterRow(Pivot(init, resolution, isoOf), last, Bucket(last, resolution, isoOf));
    }
  }

  /** No two items of the chart share a bucket. */
  lemma DatesAreDistinct(rows: seq<StatRow>, resolution: Resolution, isoOf: string -> string, i: nat, j: nat)
    requires i < j < |Pivot(rows, resolution, isoOf)|
    ensures Pivot(rows, resolution, isoOf)[i].date != Pivot(rows, resolution, isoOf)[j].date
  {
    OneItemPerBucket(rows, resolution, isoOf);
    FirstOccurrencesSound(Buckets(rows, resolution, isoOf));
    assert Dates(Pivot(rows, resolution, isoOf))[i] == Pivot(rows, resolution, isoOf)[i].date;
    assert Dates(Pivot(rows, resolution, isoOf))[j] == Pivot(rows, resolution, isoOf)[j].date;
  }

  /** The cost the last row of user `u` in bucket `date` reports, if the user has a row there. */
  function LastCost(rows: seq<StatRow>, resolution: Resolution, isoOf: string -> string, date: string, u: int)
    : Option<real>
  {
    if rows == [] then None
    else
      var last := rows[|rows| - 1];
      if Bucket(last, resolution, isoOf) == date && last.userId == u then Some(RowCost(last))
      else LastCost(rows[..|rows| - 1], resolution, isoOf, date, u)
  }

  /** The call count the last row of user `u` in bucket `date` reports, if there is one. */
  function LastCalls(rows: seq<StatRow>, resolution: Resolution, isoOf: string -> string, date: string, u: int)
    : Option<real>
  {
    if rows == [] then None
    else
      var last := rows[|rows| - 1];
      if Bucket(last, resolution, isoOf) == date && last.userId == u then Some(RowCalls(last))
      else LastCalls(rows[..|rows| - 1], resolution, isoOf, date, u)
  }

  /** A user with a row in a bucket has a row among the rows' buckets. */
  lemma {:induction false} LastRowHasBucket(rows: seq<StatRow>, resolution: Resolution, isoOf: string -> string,
                                            date: string, u: int)
    ensures LastCost(rows, resolution, isoOf, date, u).Some? ==> date in Buckets(rows, resolution, isoOf)
    ensures LastCalls(rows, resolution, isoOf, date, u).Some? ==> date in Buckets(rows, resolution, isoOf)
  {
    if rows != [] {
      LastRowHasBucket(rows[..|rows| - 1], resolution, isoOf, date, u);
      assert Buckets(rows, resolution, isoOf)[..|rows| - 1] == Buckets(rows[..|rows| - 1], resolution, isoOf);
    }
  }

  /** Every item carries, for every user, exactly the cost and call count of that user's last
      row in its bucket, and no field at all for a user without a row there. */
  lemma {:induction false} LastRowWins(rows: seq<StatRow>, resolution: Resolution, isoOf: string -> string,
                                       k: nat, u: int)
    requires k < |Pivot(rows, resolution, isoOf)|
    ensures var item := Pivot(rows, resolution, isoOf)[k];
      && ValueOf(item.values, CostKey(u)) == LastCost(rows, resolution, isoOf, item.date, u)
      && ValueOf(item.values, CallsKey(u)) == LastCalls(rows, resolution, isoOf, item.date, u)
  {
    var init, last := rows[..|rows| - 1], rows[|rows| - 1];
    var chart := Pivot(init, resolution, isoOf);
    var date := Bucket(last, resolution, isoOf);
    var item := Pivot(rows, resolution, isoOf)[k];
    match IndexOfDate(chart, date)
    case None =>
      if k < |chart| {
        assert item == chart[k];
        LastRowWins(init, resolution, isoOf, k, u);
      } else {
        RowFieldsOf([], last, u);
        OneItemPerBucket(init, resolution, isoOf);
        FirstOccurrencesSound(Buckets(init, resolution, isoOf));
        LastRowHasBucket(init, resolution, isoOf, date, u);
        assert date !in Dates(chart);
      }
    case Some(i) =>
      if k == i {
        RowFieldsOf(chart[i].values, last, u);
        LastRowWins(init, resolution, isoOf, i, u);
      } else {
        assert item == chart[k];
        if k < i {
          DatesAreDistinct(init, resolution, isoOf, k, i);
        } else {
          DatesAreDistinct(init, resolution, isoOf, i, k);
        }
        LastRowWins(init, resolution, isoOf, k, u);
      }
  }

  /** The `forEach` over the database rows that fills `dataByDate`. */
  method PivotRows(rows: seq<StatRow>, resolution: Resolution, isoOf: string -> string)
    returns (chart: seq<ChartItem>)
    ensures chart == Pivot(rows, resolution, isoOf)
  {
    chart := [];
    for n := 0 to |rows|
      invariant chart == Pivot(rows[..n], resolution, isoOf)
    {
      assert rows[..n + 1][..n] == rows[..n];
      chart := ApplyRow(chart, rows[n], Bucket(rows[n], resolution, isoOf));
    }
    assert rows[..|rows|] == rows;
  }

  /** One iteration: `dataByDate.get(date)`, created when missing, then the row's two fields. */
  method ApplyRow(chart: seq<ChartItem>, row: StatRow, date: string) returns (chart': seq<ChartItem>)
    ensures chart' == AddRow(chart, row, date)
  {
    chart' := chart;
    var existing := IndexOfDate(chart', date);
    if existing.None? {
      chart' := chart' + [ChartItem(date, [])];
      existing := Some(|chart'| - 1);
    }
    var i := existing.value;
    var item := chart'[i];
    var values := SetField(item.values, CostKey(row.userId), RowCost(row));
    values := SetField(values, CallsKey(row.userId), RowCalls(row));
    chart' := chart'[i := item.(values := values)];
  }

  /** The series of a user: named `User<id>` when the name is null or empty. */
  function SeriesOf(u: DbUser): (s: StatisticsUser)
    ensures s.id == u.id && s.dataKey == UserDataKey(u.id)
    ensures s.name == if u.name.Some? && u.name.value != "" then u.name.value else "User" + IntToDecimal(u.id)
  {
    var name := if u.name.Some? && u.name.value != "" then u.name.value else "User" + IntToDecimal(u.id);
    StatisticsUser(u.id, name, UserDataKey(u.id))
  }

  /** The message of a failed request: a numeric overflow in the database gets its own text,
      any other failure is prefixed. */
  function ErrorMessage(message: string): string {
    if Contains(message, OverflowMarker) then OverflowMessage else FailurePrefix + message
  }

  /** What the database returned: the stat rows and the users, or the message of its error. */
  datatype Fetched = Fetched(rows: seq<StatRow>, users: seq<DbUser>)

  /** `getUserStatistics(timeRange)`: an omitted range is `DefaultTimeRange`. Refused without a
      session; an unknown range fails as an error would; a database failure is reported through
      `ErrorMessage`; otherwise the pivoted chart, one series per user, and the range and
      resolution used. */
  method GetUserStatistics(session: Option<AuthSession>, timeRange: Option<string>, fetched: Result<Fetched, string>,
                           isoOf: string -> string) returns (r: ActionResult<StatisticsData>)
    ensures session.None? ==> r == Failure(NotLoggedIn)
    ensures session.Some? && FindRange(TimeRangeOptions, timeRange.GetOr(DefaultTimeRange)).None? ==>
              r == Failure(ErrorMessage("Invalid time range: " + timeRange.GetOr(DefaultTimeRange)))
    ensures session.Some? && FindRange(TimeRangeOptions, timeRange.GetOr(DefaultTimeRange)).Some? && fetched.Err? ==>
              r == Failure(ErrorMessage(fetched.error))
    ensures session.Some? && FindRange(TimeRangeOptions, timeRange.GetOr(DefaultTimeRange)).Some? && fetched.Ok? ==>
              var resolution := FindRange(TimeRangeOptions, timeRange.GetOr(DefaultTimeRange)).value.resolution;
              var users := fetched.value.users;
              r.Success? && r.data.timeRange == timeRange.GetOr(DefaultTimeRange) && r.data.resolution == resolution
              && r.data.chartData == Pivot(fetched.value.rows, resolution, isoOf)
              && |r.data.users| == |users|
              && forall i :: 0 <= i < |users| ==> r.data.users[i] == SeriesOf(users[i])
    ensures session.Some? && timeRange.None? && fetched.Ok? ==>
              r.Success? && r.data.timeRange == "today" && r.data.resolution == Hour
  {
    if session.None? {
      return Failure(NotLoggedIn);
    }
    var range := timeRange.GetOr(DefaultTimeRange);
    var config := FindRange(TimeRangeOptions, range);
    if config.None? {
      return Failure(ErrorMessage("Invalid time range: " + range));
    }
    if fetched.Err? {
      return Failure(ErrorMessage(fetched.error));
    }
    var chart := PivotRows(fetched.value.rows, config.value.resolution, isoOf);
    var users := fetched.value.users;
    var series := seq(|users|, i requires 0 <= i < |users| => SeriesOf(users[i]));
    return Success(StatisticsData(chart, series, range, config.value.resolution));
  }

  /** The chart's field names are the series' data keys: for every series and every item, the
      item's `<dataKey>_cost` and `<dataKey>_calls` are that user's last row in the bucket. */
  lemma SeriesReadTheirFields(fetched: Fetched, resolution: Resolution, isoOf: string -> string, k: nat, i: nat)
    requires k < |Pivot(fetched.rows, resolution, isoOf)| && i < |fetched.users|
    ensures var item := Pivot(fetched.rows, resolution, isoOf)[k];
            var s := SeriesOf(fetched.users[i]);
      && ValueOf(item.values, s.dataKey + "_cost") == LastCost(fetched.rows, resolution, isoOf, item.date, s.id)
      && ValueOf(item.values, s.dataKey + "_calls") == LastCalls(fetched.rows, resolution, isoOf, item.date, s.id)
  {
    LastRowWins(fetched.rows, resolution, isoOf, k, fetched.users[i].id);
  }
}
