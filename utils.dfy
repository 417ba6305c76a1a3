/**
 * utils.py: the map link built from a customer's coordinates, currency text, the reporting
 * windows selected by a period keyword, and the reshaping of statistics rows into chart arrays.
 * The clock (ist_now) is the parameter `now`; number and datetime rendering are parameters.
 */
module Utils {
  import opened Wrappers
  import opened Calendar
  import opened Text
  import Config

  // ----- generate_map_link -----

  const MapsPrefix := "https://www.google.com/maps?q="

  /** A coordinate read from the database: its numeric value and its str() rendering. */
  datatype Coordinate = Coordinate(value: real, text: string)

  /** Python truthiness of a coordinate: None and zero are false. */
  predicate Truthy(c: Option<Coordinate>) {
    c.Some? && c.value.value != 0.0
  }

  /**
   * utils.py lines 8-12: a link is produced only when both coordinates are truthy, so a
   * coordinate equal to 0 gives None.
   */
  function GenerateMapLink(latitude: Option<Coordinate>, longitude: Option<Coordinate>): (r: Option<string>)
    ensures r.Some? <==> Truthy(latitude) && Truthy(longitude)
    ensures r.Some? ==> MapsPrefix <= r.value && r.value[|MapsPrefix|..] == latitude.value.text + "," + longitude.value.text
  {
    if Truthy(latitude) && Truthy(longitude) then
      Some(MapsPrefix + latitude.value.text + "," + longitude.value.text)
    else
      None
  }

  /** Splits s at its first comma (the whole of s and "" when there is none). */
  function SplitAtFirstComma(s: string): (string, string) {
    if s == [] then ([], [])
    else if s[0] == ',' then ([], s[1..])
    else
      var (a, b) := SplitAtFirstComma(s[1..]);
      ([s[0]] + a, b)
  }

  lemma {:induction false} SplitJoined(a: string, b: string)
    requires ',' !in a
    ensures SplitAtFirstComma(a + "," + b) == (a, b)
  {
    if a == [] {
      assert a + "," + b == [','] + b;
    } else {
      var s := a + "," + b;
      assert s[0] == a[0] && a[0] != ',';
      assert s[1..] == a[1..] + "," + b;
      SplitJoined(a[1..], b);
      assert [s[0]] + a[1..] == a;
    }
  }

  /**
   * The query part of a map link splits back into the two coordinate texts whenever the
   * latitude's rendering has no comma (decimal numbers never do).
   */
  lemma MapLinkRecoversCoordinates(latitude: Option<Coordinate>, longitude: Option<Coordinate>)
    requires Truthy(latitude) && Truthy(longitude) && ',' !in latitude.value.text
    ensures SplitAtFirstComma(GenerateMapLink(latitude, longitude).value[|MapsPrefix|..])
            == (latitude.value.text, longitude.value.text)
  {
    SplitJoined(latitude.value.text, longitude.value.text);
  }

  // ----- format_currency -----

  /** The argument of format_currency: None, a number, or a value float() cannot convert. */
  datatype Amount = Missing | Numeric(value: real) | Unconvertible(text: string)

  const ZeroRupees := "\U{20B9}0.00"

  /**
   * utils.py lines 14-19: the rupee sign followed by the amount rendered with thousands
   * separators and two decimals (the parameter render); when float() raises (None or an
   * unconvertible value) the text for zero rupees.
   */
  function FormatCurrency(amount: Amount, render: real -> string): (r: string)
    ensures !amount.Numeric? ==> r == ZeroRupees
    ensures amount.Numeric? ==> r == "\U{20B9}" + render(amount.value)
  {
    match amount
    case Numeric(v) => "\U{20B9}" + render(v)
    case _ => ZeroRupees
  }

  /** Every formatted amount starts with the rupee sign and the rendering follows it. */
  lemma CurrencyHasRupeePrefix(amount: Amount, render: real -> string)
    ensures |FormatCurrency(amount, render)| >= 1 && FormatCurrency(amount, render)[0] == '\U{20B9}'
    ensures amount.Numeric? ==> FormatCurrency(amount, render)[1..] == render(amount.value)
  {
  }

  // ----- get_time_period_dates -----

  /**
   * A reporting window.  Both ends carry the tzinfo of `now` (replace() and timedelta keep it,
   * and the all-time start is given now's tzinfo), so they are compared as wall clocks.
   */
  datatype Window = Window(start: DateTime, end: DateTime)

  /** Both ends are datetimes and the start does not come after the end. */
  predicate Ordered(w: Window) {
    w.start.Valid() && w.end.Valid() && Instant(w.start) <= Instant(w.end)
  }

  function FirstOfMonth(d: Date): Date {
    Date(d.year, d.month, 1)
  }

  /** 'today': from midnight of now's date up to now. */
  function TodayWindow(now: DateTime): (w: Window)
    requires now.Valid()
    ensures Ordered(w) && w.end == now
    ensures w.start.date == now.date && w.start.micro == 0
  {
    Window(Midnight(now.date), now)
  }

  /** 'week': from now minus seven days up to now; None where that subtraction overflows. */
  function WeekWindow(now: DateTime): (r: Option<Window>)
    requires now.Valid()
    ensures r.Some? <==> Ordinal(now.date) > 7
    ensures r.Some? ==> Ordered(r.value) && r.value.end == now
    ensures r.Some? ==> Instant(r.value.start) == Instant(now) - 7 * DayMicros
  {
    match MinusDays(now, 7)
    case None => None
    case Some(s) =>
      InstantOfNeighbourDay(now, s.date, -7);
      InstantCompare(s, now);
      Some(Window(s, now))
  }

  /** 'month': from midnight of the first day of now's month up to now. */
  function MonthWindow(now: DateTime): (w: Window)
    requires now.Valid()
    ensures Ordered(w) && w.end == now
    ensures w.start.date.year == now.date.year && w.start.date.month == now.date.month
    ensures w.start.date.day == 1 && w.start.micro == 0
  {
    DateOrder(FirstOfMonth(now.date), now.date);
    InstantCompare(Midnight(FirstOfMonth(now.date)), now);
    Window(Midnight(FirstOfMonth(now.date)), now)
  }

  /** Any other keyword: from datetime.min up to now. */
  function AllTimeWindow(now: DateTime): (w: Window)
    requires now.Valid()
    ensures Ordered(w) && w.end == now && w.start == MinDateTime
  {
    ValidIsRepresentable(now);
    Window(MinDateTime, now)
  }

  /**
   * 'yesterday': the whole of the day before now's date, 00:00:00.000000 to 23:59:59.999999;
   * None where subtracting a day overflows.
   */
  function YesterdayWindow(now: DateTime): (r: Option<Window>)
    requires now.Valid()
    ensures r.Some? <==> now.date != MinDate
    ensures r.Some? ==> Ordered(r.value) && Instant(r.value.end) < Instant(now)
    ensures r.Some? ==> r.value.start.date == r.value.end.date && Ordinal(r.value.start.date) == Ordinal(now.date) - 1
    ensures r.Some? ==> r.value.start.micro == 0 && r.value.end.micro == LastMicro
  {
    match PrevDay(now.date)
    case None => None
    case Some(p) =>
      InstantCompare(EndOfDay(p), now);
      Some(Window(Midnight(p), EndOfDay(p)))
  }

  /**
   * 'last_month': the whole of the previous calendar month, from midnight of its first day to
   * the last microsecond of its last day, which is the day before the first of now's month;
   * None in January of year 1, where that subtraction overflows.
   */
  function LastMonthWindow(now: DateTime): (r: Option<Window>)
    requires now.Valid()
    ensures r.Some? <==> !(now.date.year == MinYear && now.date.month == 1)
    ensures r.Some? ==> Ordered(r.value) && Instant(r.value.end) < Instant(now)
    ensures r.Some? ==> var s := r.value.start.date; var e := r.value.end.date;
              s.day == 1 && e.year == s.year && e.month == s.month && e.day == DaysInMonth(e.year, e.month)
              && Ordinal(e) + 1 == Ordinal(FirstOfMonth(now.date))
              && (if now.date.month == 1 then s.year == now.date.year - 1 && s.month == 12
                  else s.year == now.date.year && s.month == now.date.month - 1)
    ensures r.Some? ==> r.value.start.micro == 0 && r.value.end.micro == LastMicro
  {
    var first := FirstOfMonth(now.date);
    match PrevDay(first)
    case None => None
    case Some(last) =>
      DateOrder(FirstOfMonth(last), last);
      DateOrder(first, now.date);
      InstantCompare(Midnight(FirstOfMonth(last)), EndOfDay(last));
      InstantCompare(EndOfDay(last), now);
      Some(Window(Midnight(FirstOfMonth(last)), EndOfDay(last)))
  }

  /**
   * utils.py lines 41-66, get_time_period_dates: the window for a period keyword, with an
   * unknown keyword read as all time.  None stands for the OverflowError Python raises when
   * the window would start before datetime.min.
   */
  function TimePeriodDates(period: string, now: DateTime): (r: Option<Window>)
    requires now.Valid()
    ensures r.None? <==> ((period == "yesterday" && now.date == MinDate)
                          || (period == "week" && Ordinal(now.date) <= 7)
                          || (period == "last_month" && now.date.year == MinYear && now.date.month == 1))
    ensures r.Some? ==> Ordered(r.value) && Instant(r.value.end) <= Instant(now)
    ensures r.Some? && period != "yesterday" && period != "last_month" ==> r.value.end == now
    ensures period == "today" ==> r == Some(TodayWindow(now))
    ensures period == "yesterday" ==> r == YesterdayWindow(now)
    ensures period == "week" ==> r == WeekWindow(now)
    ensures period == "month" ==> r == Some(MonthWindow(now))
    ensures period == "last_month" ==> r == LastMonthWindow(now)
    ensures period !in {"today", "yesterday", "week", "month", "last_month"} ==> r == Some(AllTimeWindow(now))
  {
    if period == "today" then Some(TodayWindow(now))
    else if period == "yesterday" then YesterdayWindow(now)
    else if period == "week" then WeekWindow(now)
    else if period == "month" then Some(MonthWindow(now))
    else if period == "last_month" then LastMonthWindow(now)
    else Some(AllTimeWindow(now))
  }

  // ----- prepare_chart_data -----

  /** The period column of a timeline row: a datetime, or any other value with its str(). */
  datatype Period = At(stamp: Config.Stamp) | Other(text: string)

  datatype TimelineRow = TimelineRow(period: Period, orderCount: int, totalRevenue: Option<real>) {
    predicate Valid() {
      period.At? ==> period.stamp.Valid()
    }
  }

  /** A top-items row; item_name and status are nullable columns, None standing for NULL. */
  datatype TopItemRow = TopItemRow(itemName: Option<string>, totalQuantity: int, totalRevenue: Option<real>)

  datatype StatusRow = StatusRow(status: Option<string>, count: int)

  datatype TimelineChart = TimelineChart(labels: seq<string>, orders: seq<int>, revenue: seq<real>)
  datatype ItemsChart = ItemsChart(labels: seq<string>, quantities: seq<int>, revenues: seq<real>)
  datatype StatusChart = StatusChart(labels: seq<string>, values: seq<int>, colors: seq<string>)
  datatype ChartData = ChartData(timeline: TimelineChart, items: ItemsChart, status: StatusChart)

  /** The format string the timeline labels use. */
  const TimelineFormat := "%d %b %I:%M %p"

  /** float(x or 0): a NULL sum counts as zero. */
  function RevenueValue(x: Option<real>): (r: real)
    ensures x.None? ==> r == 0.0
    ensures x.Some? ==> r == x.value
  {
    x.GetOr(0.0)
  }

  /** A datetime period is shown through format_ist_datetime (render is strftime with TimelineFormat). */
  function TimelineLabel(row: TimelineRow, render: Config.Stamp -> string): (r: string)
    requires row.Valid()
    ensures row.period.At? ==> r == render(Config.ToIst(Some(row.period.stamp)).value)
    ensures row.period.Other? ==> r == row.period.text
  {
    match row.period
    case At(s) => Config.FormatIstDatetime(Some(s), render)
    case Other(t) => t
  }

  /** utils.py line 98: an item name cut to 20 characters, with "..." only when it was longer. */
  function ItemLabel(name: string): (r: string)
    ensures |name| <= 20 ==> r == name
    ensures |name| > 20 ==> |r| == 23 && r[..20] == name[..20] && r[20..] == "..."
    ensures |r| <= 23
  {
    (if |name| <= 20 then name else name[..20]) + (if |name| > 20 then "..." else "")
  }

  const FallbackColor := "#6c757d"

  /** utils.py lines 111-118. */
  const StatusColors: map<string, string> := map[
    "pending" := "#ffc107",
    "confirmed" := "#17a2b8",
    "processing" := "#007bff",
    "shipped" := "#6f42c1",
    "delivered" := "#28a745",
    "cancelled" := "#dc3545"
  ]

  /** dict.get(key, FallbackColor) on the colour table. */
  function StatusColor(key: string): (r: string)
    ensures key in StatusColors ==> r == StatusColors[key]
    ensures key !in StatusColors ==> r == FallbackColor
  {
    if key in StatusColors then StatusColors[key] else FallbackColor
  }

  /** The timeline arrays are parallel to the rows, in their order, one entry per row. */
  predicate TimelineMatches(c: TimelineChart, rows: seq<TimelineRow>, render: Config.Stamp -> string)
    requires forall i :: 0 <= i < |rows| ==> rows[i].Valid()
  {
    && |c.labels| == |rows| && |c.orders| == |rows| && |c.revenue| == |rows|
    && forall i :: 0 <= i < |rows| ==>
         && c.labels[i] == TimelineLabel(rows[i], render)
         && c.orders[i] == rows[i].orderCount
         && c.revenue[i] == RevenueValue(rows[i].totalRevenue)
  }

  /**
   * Slicing a NULL item_name (utils.py line 98) raises TypeError, and calling title() on a NULL
   * status (line 121) raises AttributeError; prepare_chart_data catches neither.
   */
  predicate HasNullText(topItems: seq<TopItemRow>, statusData: seq<StatusRow>) {
    || (exists i :: 0 <= i < |topItems| && topItems[i].itemName.None?)
    || (exists i :: 0 <= i < |statusData| && statusData[i].status.None?)
  }

  predicate ItemsMatch(c: ItemsChart, rows: seq<TopItemRow>) {
    && |c.labels| == |rows| && |c.quantities| == |rows| && |c.revenues| == |rows|
    && forall i :: 0 <= i < |rows| ==>
         && rows[i].itemName.Some?
         && c.labels[i] == ItemLabel(rows[i].itemName.value)
         && c.quantities[i] == rows[i].totalQuantity
         && c.revenues[i] == RevenueValue(rows[i].totalRevenue)
  }

  /** The status labels are title-cased and each colour is looked up by the lower-cased status. */
  predicate StatusMatches(c: StatusChart, rows: seq<StatusRow>) {
    && |c.labels| == |rows| && |c.values| == |rows| && |c.colors| == |rows|
    && forall i :: 0 <= i < |rows| ==>
         && rows[i].status.Some?
         && c.labels[i] == Title(rows[i].status.value)
         && c.values[i] == rows[i].count
         && c.colors[i] == StatusColor(Lower(rows[i].status.value))
  }

  /**
   * utils.py lines 68-134, prepare_chart_data: three loops append to parallel lists and a
   * comprehension maps every status label, lower-cased, to its colour.  Nothing is dropped,
   * capped or reordered.  A NULL item name or status raises out of the function (None here).
   */
  method PrepareChartData(ordersData: seq<TimelineRow>, topItems: seq<TopItemRow>, statusData: seq<StatusRow>,
                          render: Config.Stamp -> string)
    returns (chart: Option<ChartData>)
    requires forall i :: 0 <= i < |ordersData| ==> ordersData[i].Valid()
    ensures chart.None? <==> HasNullText(topItems, statusData)
    ensures chart.Some? ==> TimelineMatches(chart.value.timeline, ordersData, render)
    ensures chart.Some? ==> ItemsMatch(chart.value.items, topItems)
    ensures chart.Some? ==> StatusMatches(chart.value.status, statusData)
  {
    var timelineLabels: seq<string> := [];
    var timelineValues: seq<int> := [];
    var revenueValues: seq<real> := [];
    for i := 0 to |ordersData|
      invariant |timelineLabels| == i && |timelineValues| == i && |revenueValues| == i
      invariant forall j :: 0 <= j < i ==>
                  && timelineLabels[j] == TimelineLabel(ordersData[j], render)
                  && timelineValues[j] == ordersData[j].orderCount
                  && revenueValues[j] == RevenueValue(ordersData[j].totalRevenue)
    {
      var item := ordersData[i];
      match item.period {
        case At(s) =>
          timelineLabels := timelineLabels + [Config.FormatIstDatetime(Some(s), render)];
        case Other(t) =>
          timelineLabels := timelineLabels + [t];
      }
      timelineValues := timelineValues + [item.orderCount];
      revenueValues := revenueValues + [item.totalRevenue.GetOr(0.0)];
    }

    var itemLabels: seq<string> := [];
    var itemQuantities: seq<int> := [];
    var itemRevenues: seq<real> := [];
    for i := 0 to |topItems|
      invariant |itemLabels| == i && |itemQuantities| == i && |itemRevenues| == i
      invariant forall j :: 0 <= j < i ==>
                  && topItems[j].itemName.Some?
                  && itemLabels[j] == ItemLabel(topItems[j].itemName.value)
                  && itemQuantities[j] == topItems[j].totalQuantity
                  && itemRevenues[j] == RevenueValue(topItems[j].totalRevenue)
    {
      var item := topItems[i];
      if item.itemName.None? {
        return None;
      }
      var name := item.itemName.value;
      var cut := if |name| <= 20 then name else name[..20];
      itemLabels := itemLabels + [cut + (if |name| > 20 then "..." else "")];
      itemQuantities := itemQuantities + [item.totalQuantity];
      itemRevenues := itemRevenues + [item.totalRevenue.GetOr(0.0)];
    }

    var statusLabels: seq<string> := [];
    var statusValues: seq<int> := [];
    for i := 0 to |statusData|
      invariant |statusLabels| == i && |statusValues| == i
      invariant forall j :: 0 <= j < i ==>
                  statusData[j].status.Some? && statusLabels[j] == Title(statusData[j].status.value) && statusValues[j] == statusData[j].count
    {
      if statusData[i].status.None? {
        return None;
      }
      statusLabels := statusLabels + [Title(statusData[i].status.value)];
      statusValues := statusValues + [statusData[i].count];
    }

    var colors: seq<string> := [];
    for i := 0 to |statusLabels|
      invariant |colors| == i
      invariant forall j :: 0 <= j < i ==> colors[j] == StatusColor(Lower(statusData[j].status.value))
    {
      var shown := statusLabels[i];
      var key := Lower(shown);
      LowerOfTitle(statusData[i].status.value);
      colors := colors + [if key in StatusColors then StatusColors[key] else FallbackColor];
    }

    chart := Some(ChartData(
      TimelineChart(timelineLabels, timelineValues, revenueValues),
      ItemsChart(itemLabels, itemQuantities, itemRevenues),
      StatusChart(statusLabels, statusValues, colors)));
  }

  /**
   * Looking colours up by the title-cased label, as the comprehension does, gives the colour of
   * the status in any letter case; a status outside the table, such as "refunded", gets the
   * fallback colour.
   */
  lemma StatusColorIgnoresCase(status: string)
    ensures StatusColor(Lower(Title(status))) == StatusColor(Lower(status))
    ensures Lower(status) !in StatusColors ==> StatusColor(Lower(Title(status))) == FallbackColor
  {
    LowerOfTitle(status);
  }

  lemma RefundedFallsBack()
    ensures StatusColor(Lower(Title("refunded"))) == FallbackColor
  {
    var refunded := "refunded";
    assert Lower(refunded) == refunded;
    assert refunded !in StatusColors;
    StatusColorIgnoresCase(refunded);
  }
}
