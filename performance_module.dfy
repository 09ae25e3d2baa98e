/** The dashboard's performance panel: cleaning the portfolio history into chart points, the table of
    day-to-day changes, the time axis settings, the summary statistics and the chart/table switch.
    Chart drawing and number formatting are not modelled. */
module PerformanceModule {
  import opened Wrappers
  import opened Sorting

  /** One entry of a JSON number array: `null`, NaN, or a number. */
  datatype Sample = Null | NaN | Num(x: real)

  /** One chart point: `x` is the time in milliseconds, `y` the equity. */
  datatype Point = Point(x: real, y: real)

  // ---------------------------------------------------------------- cleaning the history

  /** `ts && equity !== null && !isNaN(equity)`: the timestamp is a non-zero number and the equity a
      number. */
  predicate Keep(ts: Sample, equity: Sample) {
    ts.Num? && ts.x != 0.0 && equity.Num?
  }

  /** The points the `reduce` of `loadPerformanceData` collects, in the history's order. */
  function ValidPoints(timestamps: seq<Sample>, equity: seq<Sample>): (r: seq<Point>)
    requires |timestamps| == |equity|
    ensures |r| <= |timestamps|
  {
    if timestamps == [] then []
    else
      var n := |timestamps| - 1;
      ValidPoints(timestamps[..n], equity[..n])
      + (if Keep(timestamps[n], equity[n]) then [Point(timestamps[n].x * 1000.0, equity[n].x)] else [])
  }

  /** A point is kept exactly when its timestamp and its equity pass the test; the point is the
      timestamp in milliseconds and the equity. */
  lemma {:induction false} ValidPointsMembers(timestamps: seq<Sample>, equity: seq<Sample>, p: Point)
    requires |timestamps| == |equity|
    ensures p in ValidPoints(timestamps, equity) <==>
      exists i :: 0 <= i < |timestamps| && Keep(timestamps[i], equity[i])
        && p == Point(timestamps[i].x * 1000.0, equity[i].x)
  {
    if timestamps != [] {
      var n := |timestamps| - 1;
      ValidPointsMembers(timestamps[..n], equity[..n], p);
      if p in ValidPoints(timestamps[..n], equity[..n]) {
        var i :| 0 <= i < n && Keep(timestamps[..n][i], equity[..n][i])
          && p == Point(timestamps[..n][i].x * 1000.0, equity[..n][i].x);
        assert timestamps[i] == timestamps[..n][i] && equity[i] == equity[..n][i];
      }
      if exists i :: 0 <= i < |timestamps| && Keep(timestamps[i], equity[i])
          && p == Point(timestamps[i].x * 1000.0, equity[i].x) {
        var i :| 0 <= i < |timestamps| && Keep(timestamps[i], equity[i])
          && p == Point(timestamps[i].x * 1000.0, equity[i].x);
        if i < n {
          assert timestamps[..n][i] == timestamps[i] && equity[..n][i] == equity[i];
        }
      }
    }
  }

  /** The `reduce` loop, pushing each kept point onto the accumulator. */
  method CollectPoints(timestamps: seq<Sample>, equity: seq<Sample>) returns (acc: seq<Point>)
    requires |timestamps| == |equity|
    ensures acc == ValidPoints(timestamps, equity)
  {
    acc := [];
    for index := 0 to |timestamps|
      invariant acc == ValidPoints(timestamps[..index], equity[..index])
    {
      var ts := timestamps[index];
      var e := equity[index];
      assert timestamps[..index + 1][..index] == timestamps[..index];
      assert equity[..index + 1][..index] == equity[..index];
      if Keep(ts, e) {
        acc := acc + [Point(ts.x * 1000.0, e.x)];
      }
    }
    assert timestamps[..|timestamps|] == timestamps && equity[..|equity|] == equity;
  }

  function Time(p: Point): real { p.x }
  function NegTime(p: Point): real { -p.x }

  /** The cleaned history, or `None` (nothing drawn) when either array is missing or their lengths
      differ; otherwise the kept points sorted by ascending time. */
  method CleanHistory(timestamps: Option<seq<Sample>>, equity: Option<seq<Sample>>) returns (r: Option<seq<Point>>)
    ensures r.None? <==> timestamps.None? || equity.None? || |timestamps.value| != |equity.value|
    ensures r.Some? ==>
      SortedBy(r.value, Time)
      && multiset(r.value) == multiset(ValidPoints(timestamps.value, equity.value))
  {
    if timestamps.None? || equity.None? || |timestamps.value| != |equity.value| {
      return None;
    }
    var points := CollectPoints(timestamps.value, equity.value);
    return Some(SortBy(points, Time));
  }

  // ---------------------------------------------------------------- the table

  /** The change column: empty for the oldest row, otherwise the percentage change from the next
      (older) row, which JavaScript makes non-finite when the older equity is zero. */
  datatype Change = Blank | Pct(value: real) | NonFinite

  /** One table row: date (milliseconds), equity and change. */
  datatype Row = Row(x: real, y: real, change: Change)

  /** The table's order: the points sorted by time, newest first. */
  function NewestFirst(points: seq<Point>): (r: seq<Point>)
    ensures multiset(r) == multiset(points) && |r| == |points|
    ensures forall i, j :: 0 <= i < j < |r| ==> r[i].x >= r[j].x
  {
    var r := SortBy(points, NegTime);
    assert forall i, j :: 0 <= i < j < |r| ==> NegTime(r[i]) <= NegTime(r[j]);
    r
  }

  /** The change shown in row `i` of the rows sorted newest first. */
  function ChangeAt(sorted: seq<Point>, i: nat): (c: Change)
    requires i < |sorted|
    ensures c.Blank? <==> i == |sorted| - 1
    ensures c.NonFinite? <==> i < |sorted| - 1 && sorted[i + 1].y == 0.0
  {
    if i == |sorted| - 1 then Blank
    else
      var next := sorted[i + 1].y;
      if next == 0.0 then NonFinite else Pct((sorted[i].y - next) / next * 100.0)
  }

  /** Against a positive older equity the change is 'positive' exactly when the equity did not fall. */
  lemma ChangeSign(sorted: seq<Point>, i: nat)
    requires i < |sorted| - 1 && sorted[i + 1].y > 0.0
    ensures ChangeAt(sorted, i).Pct?
    ensures ChangeAt(sorted, i).value >= 0.0 <==> sorted[i].y >= sorted[i + 1].y
  {
    var next := sorted[i + 1].y;
    var d := sorted[i].y - next;
    if d >= 0.0 {
      assert d / next >= 0.0;
    } else {
      assert d / next < 0.0;
    }
  }

  /** The change times the older equity is the difference in equity, times 100. */
  lemma ChangeScales(sorted: seq<Point>, i: nat)
    requires i < |sorted| - 1 && sorted[i + 1].y != 0.0
    ensures ChangeAt(sorted, i).value * sorted[i + 1].y == (sorted[i].y - sorted[i + 1].y) * 100.0
  {
    var next := sorted[i + 1].y;
    var d := sorted[i].y - next;
    assert d / next * next == d;
  }

  // ---------------------------------------------------------------- time axis

  /** `getTimeUnit`. */
  function TimeUnit(timeframe: string): (u: string)
    ensures u == "hour" <==> timeframe !in {"1W", "1M", "3M", "1Y", "ALL"}
    ensures u == "day" <==> timeframe in {"1W", "1M", "3M"}
    ensures u == "month" <==> timeframe in {"1Y", "ALL"}
  {
    match timeframe
    case "1D" => "hour"
    case "1W" => "day"
    case "1M" => "day"
    case "3M" => "day"
    case "1Y" => "month"
    case "ALL" => "month"
    case _ => "hour"
  }

  /** `getTooltipFormat`. */
  function TooltipFormat(timeframe: string): (f: string)
    ensures f == "MMM d, yyyy" || f == "MMM d, HH:mm"
  {
    match timeframe
    case "1D" => "MMM d, HH:mm"
    case "1W" => "MMM d, HH:mm"
    case "1M" => "MMM d, HH:mm"
    case "3M" => "MMM d, HH:mm"
    case "1Y" => "MMM d, yyyy"
    case "ALL" => "MMM d, yyyy"
    case _ => "MMM d, HH:mm"
  }

  /** The tooltip shows the year exactly when the axis counts months, and the time of day otherwise. */
  lemma TooltipMatchesUnit(timeframe: string)
    ensures TooltipFormat(timeframe) == "MMM d, yyyy" <==> TimeUnit(timeframe) == "month"
  {
  }

  // ---------------------------------------------------------------- statistics

  /** The equity values that are numbers (`filter(val => val !== null && !isNaN(val))`). */
  function Numbers(samples: seq<Sample>): (r: seq<real>)
    ensures |r| <= |samples|
    ensures forall v :: v in r <==> Num(v) in samples
  {
    if samples == [] then []
    else
      var last := samples[|samples| - 1];
      Numbers(samples[..|samples| - 1]) + (if last.Num? then [last.x] else [])
  }

  /** Every number in the history is among the filtered values, and there are some exactly when the
      history has a number. */
  lemma NumbersCover(samples: seq<Sample>)
    ensures forall i :: 0 <= i < |samples| && samples[i].Num? ==> samples[i].x in Numbers(samples)
    ensures Numbers(samples) == [] <==> forall i :: 0 <= i < |samples| ==> !samples[i].Num?
  {
    var values := Numbers(samples);
    forall i | 0 <= i < |samples| && samples[i].Num?
      ensures samples[i].x in values
    {
      assert Num(samples[i].x) in samples;
    }
    if values != [] {
      assert Num(values[0]) in samples;
    }
  }

  /** `Math.max(...values)`; `None` is the -Infinity of an empty list. */
  function MaxOf(values: seq<real>): (r: Option<real>)
    ensures r.None? <==> values == []
    ensures r.Some? ==> r.value in values && forall v :: v in values ==> v <= r.value
  {
    if values == [] then None
    else
      var init, last := values[..|values| - 1], values[|values| - 1];
      assert values == init + [last];
      match MaxOf(init)
      case None => Some(last)
      case Some(m) => Some(if last > m then last else m)
  }

  /** `Math.min(...values)`; `None` is the +Infinity of an empty list. */
  function MinOf(values: seq<real>): (r: Option<real>)
    ensures r.None? <==> values == []
    ensures r.Some? ==> r.value in values && forall v :: v in values ==> r.value <= v
  {
    if values == [] then None
    else
      var init, last := values[..|values| - 1], values[|values| - 1];
      assert values == init + [last];
      match MinOf(init)
      case None => Some(last)
      case Some(m) => Some(if last < m then last else m)
  }

  /** `profit_loss_pct[length - 1] * 100`: `None` when the array is missing (the access throws and the
      statistics are not updated); NaN for an empty array or a NaN entry; `null` counts as 0. */
  function TotalReturn(profitLossPct: Option<seq<Sample>>): (r: Option<Sample>)
    ensures r.None? <==> profitLossPct.None?
    ensures r.Some? ==> !r.value.Null?
    ensures profitLossPct.Some? && profitLossPct.value == [] ==> r == Some(NaN)
    ensures profitLossPct.Some? && profitLossPct.value != [] ==>
      var last := profitLossPct.value[|profitLossPct.value| - 1];
      && (last.Num? ==> r == Some(Num(last.x * 100.0)))
      && (last.Null? ==> r == Some(Num(0.0)))
      && (last.NaN? ==> r == Some(NaN))
  {
    if profitLossPct.None? then None
    else
      var pct := profitLossPct.value;
      if pct == [] then Some(NaN)
      else
        match pct[|pct| - 1]
        case Null => Some(Num(0.0))
        case NaN => Some(NaN)
        case Num(p) => Some(Num(p * 100.0))
  }

  /** The figures `updateStats` shows; `positive` is the return's style. */
  datatype Stats = Stats(totalReturn: Sample, positive: bool, high: Option<real>, low: Option<real>)

  /** `returnValue >= 0` (false for NaN). */
  predicate NonNegative(s: Sample) { s.Num? && s.x >= 0.0 }

  /** `updateStats` applied to the return and the number-valued equity. */
  function StatsOf(totalReturn: Sample, equity: seq<Sample>): (s: Stats)
    ensures s.totalReturn == totalReturn
    ensures s.high == MaxOf(Numbers(equity)) && s.low == MinOf(Numbers(equity))
    ensures s.positive <==> totalReturn.Num? && totalReturn.x >= 0.0
    ensures s.high.None? <==> s.low.None?
    ensures s.high.None? <==> forall i :: 0 <= i < |equity| ==> !equity[i].Num?
    ensures s.high.Some? ==> s.low.value <= s.high.value
    ensures forall i :: 0 <= i < |equity| && equity[i].Num? ==>
      s.low.value <= equity[i].x <= s.high.value
  {
    var values := Numbers(equity);
    NumbersCover(equity);
    Stats(totalReturn, NonNegative(totalReturn), MaxOf(values), MinOf(values))
  }

  // ---------------------------------------------------------------- the panel

  datatype View = ChartView | TableView

  /** `toggleView`'s rule: from the chart to the table, and from anything else to the chart. */
  function NextView(v: View): (w: View)
    ensures w != v
  {
    if v == ChartView then TableView else ChartView
  }

  /** Two toggles restore the view. */
  lemma ToggleTwice(v: View)
    ensures NextView(NextView(v)) == v
  {
  }

  /** The table of a list of points: one row per point, newest first, each with its change from the next
      (older) row. */
  function TableRows(points: seq<Point>): (rows: seq<Row>)
    ensures |rows| == |points|
  {
    var sorted := NewestFirst(points);
    seq(|sorted|, i requires 0 <= i < |sorted| => Row(sorted[i].x, sorted[i].y, ChangeAt(sorted, i)))
  }

  /** The reply of the history endpoint; a missing array is `None`. */
  datatype History = History(
    error: bool, timestamp: Option<seq<Sample>>, equity: Option<seq<Sample>>,
    profitLossPct: Option<seq<Sample>>)

  /** Both arrays are present and of the same length. */
  predicate WellFormed(reply: History) {
    reply.timestamp.Some? && reply.equity.Some? && |reply.timestamp.value| == |reply.equity.value|
  }

  class PerformancePanel {
    /** Whether the chart canvas and the table exist. */
    const hasCanvas: bool
    const hasTable: bool
    var currentView: View
    var chartShown: bool
    var tableShown: bool
    /** What the chart draws, and its time unit. */
    var chartPoints: seq<Point>
    var chartUnit: string
    var rows: seq<Row>
    var stats: Option<Stats>

    constructor(hasCanvas: bool, hasTable: bool)
      ensures this.hasCanvas == hasCanvas && this.hasTable == hasTable
      ensures currentView == ChartView && chartPoints == [] && rows == [] && stats.None?
    {
      this.hasCanvas := hasCanvas;
      this.hasTable := hasTable;
      currentView := ChartView;
      chartShown := true;
      tableShown := false;
      chartPoints := [];
      chartUnit := "hour";
      rows := [];
      stats := None;
    }

    /** `toggleView`: switches the view and shows exactly its container. */
    method ToggleView()
      modifies this
      ensures currentView == NextView(old(currentView))
      ensures chartShown <==> currentView == ChartView
      ensures tableShown <==> currentView == TableView
      ensures chartPoints == old(chartPoints) && rows == old(rows) && stats == old(stats)
    {
      if currentView == ChartView {
        currentView := TableView;
        chartShown := false;
        tableShown := true;
      } else {
        currentView := ChartView;
        chartShown := true;
        tableShown := false;
      }
    }

    /** `updateTable`: one row per point, newest first, each with its change from the next row. */
    method UpdateTable(points: seq<Point>)
      modifies this
      ensures !hasTable ==> rows == old(rows)
      ensures hasTable ==> rows == TableRows(points)
      ensures chartPoints == old(chartPoints) && chartUnit == old(chartUnit)
      ensures stats == old(stats) && currentView == old(currentView)
    {
      if !hasTable {
        return;
      }
      var sortedData := NewestFirst(points);
      rows := [];
      for index := 0 to |sortedData|
        invariant |rows| == index
        invariant chartPoints == old(chartPoints) && chartUnit == old(chartUnit)
        invariant stats == old(stats) && currentView == old(currentView)
        invariant forall i :: 0 <= i < index ==> rows[i] == Row(sortedData[i].x, sortedData[i].y, ChangeAt(sortedData, i))
      {
        rows := rows + [Row(sortedData[index].x, sortedData[index].y, ChangeAt(sortedData, index))];
      }
      assert rows == TableRows(points);
    }

    /** `loadPerformanceData` for a reply: an error reply or a malformed history changes nothing;
        otherwise the chart (when the canvas exists) draws the cleaned points and the table lists them,
        and the statistics are updated unless the percentage array is missing. */
    method LoadPerformanceData(timeframe: string, reply: History)
      modifies this
      ensures reply.error ==> chartPoints == old(chartPoints) && rows == old(rows) && stats == old(stats)
      ensures currentView == old(currentView)
      ensures (reply.error || !WellFormed(reply) || !hasCanvas) ==>
        chartPoints == old(chartPoints) && chartUnit == old(chartUnit) && rows == old(rows)
      ensures (!reply.error && WellFormed(reply) && hasCanvas) ==>
        SortedBy(chartPoints, Time)
        && multiset(chartPoints) == multiset(ValidPoints(reply.timestamp.value, reply.equity.value))
        && chartUnit == TimeUnit(timeframe)
        && rows == (if hasTable then TableRows(chartPoints) else old(rows))
      ensures (!reply.error && WellFormed(reply) && reply.profitLossPct.Some?) ==>
        stats == Some(StatsOf(TotalReturn(reply.profitLossPct).value, reply.equity.value))
      ensures (reply.error || !WellFormed(reply) || reply.profitLossPct.None?) ==> stats == old(stats)
    {
      if reply.error {
        return;
      }
      var cleaned := CleanHistory(reply.timestamp, reply.equity);
      if cleaned.None? {
        return;
      }
      UpdateChart(cleaned.value, timeframe);
      UpdateStats(TotalReturn(reply.profitLossPct), reply.equity.value);
    }

    /** `updateChart`: without the canvas nothing is drawn; otherwise the points are drawn on the time unit
        of the timeframe and the table is rebuilt from them. */
    method UpdateChart(points: seq<Point>, timeframe: string)
      modifies this
      ensures !hasCanvas ==> chartPoints == old(chartPoints) && chartUnit == old(chartUnit) && rows == old(rows)
      ensures hasCanvas ==>
        chartPoints == points && chartUnit == TimeUnit(timeframe)
        && rows == (if hasTable then TableRows(points) else old(rows))
      ensures stats == old(stats) && currentView == old(currentView)
    {
      if !hasCanvas {
        return;
      }
      chartPoints := points;
      chartUnit := TimeUnit(timeframe);
      UpdateTable(points);
    }

    /** `updateStats`, reached only when the return could be computed (a missing percentage array throws
        before the call). */
    method UpdateStats(totalReturn: Option<Sample>, equity: seq<Sample>)
      modifies this
      ensures totalReturn.None? ==> stats == old(stats)
      ensures totalReturn.Some? ==> stats == Some(StatsOf(totalReturn.value, equity))
      ensures chartPoints == old(chartPoints) && chartUnit == old(chartUnit) && rows == old(rows)
      ensures currentView == old(currentView)
    {
      if totalReturn.None? {
        return;
      }
      stats := Some(StatsOf(totalReturn.value, equity));
    }
  }
}
