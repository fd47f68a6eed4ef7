/**
 * The registration trend chart (app/components/voter-stats/
 * FloridaRegistrationTrendChart.tsx): which series it plots, the data it
 * plots in each view mode and range, the y-axis domain, and the raw counts
 * and percentages its tooltip reports.
 */
module TrendChart {
  import opened Wrappers
  import opened JsArray
  import opened FloridaTrend

  // ---------------------------------------------------------------------
  // Reading a point
  // ---------------------------------------------------------------------

  /** getSeriesValue: the plotted value, 0 for a series the point lacks. */
  function SeriesValue(point: ChartPoint, key: SeriesKey): (v: real)
    ensures HasSeries(point, key) ==> Some(v) == ReadSeriesValue(point, key)
    ensures !HasSeries(point, key) ==> v == 0.0
  {
    match key
    case Republican => point.republican
    case Democratic => point.democratic
    case Npa => point.npa.GetOr(0.0)
    case Minor => point.minor.GetOr(0.0)
    case Other => point.other.GetOr(0.0)
  }

  /** getRawValue: the raw count behind a series; `other` falls back to NPA
      plus minor when the point has no raw `other`. */
  function RawValue(point: ChartPoint, key: SeriesKey): (v: real)
    ensures key == Republican ==> v == point.rawRepublican
    ensures key == Democratic ==> v == point.rawDemocratic
    ensures key == Npa ==> v == point.rawNpa
    ensures key == Minor ==> v == point.rawMinor
    ensures key == Other && point.rawOther.Some? ==> v == point.rawOther.value
    ensures key == Other && point.rawOther.None? ==> v == point.rawNpa + point.rawMinor
  {
    match key
    case Republican => point.rawRepublican
    case Democratic => point.rawDemocratic
    case Npa => point.rawNpa
    case Minor => point.rawMinor
    case Other => point.rawOther.GetOr(point.rawNpa + point.rawMinor)
  }

  /** Under either mapping the raw `other` count is NPA plus minor. */
  lemma RawOtherIsNpaPlusMinor(points: seq<TrendPointWithTotal>, i: nat)
    requires i < |points|
    ensures RawValue(MapFloridaTrendTwoParty(points)[i], Other) == (points[i].npa + points[i].minor) as real
    ensures RawValue(MapFloridaTrendFullComposition(points)[i], Other) == (points[i].npa + points[i].minor) as real
  {
  }

  /** The raw counts depend only on the frame of a point, so indexing and
      shares leave them as they were. */
  lemma RawValueOfFrame(q: ChartPoint, p: ChartPoint, key: SeriesKey)
    requires SameFrame(q, p)
    ensures RawValue(q, key) == RawValue(p, key)
  {
  }

  // ---------------------------------------------------------------------
  // The series
  // ---------------------------------------------------------------------

  /** A plotted series: its key and its legend name. */
  datatype TrendSeries = TrendSeries(key: SeriesKey, name: string)

  /** The series of a view. */
  function ChartSeries(twoPartyView: bool): seq<TrendSeries> {
    if twoPartyView then
      [TrendSeries(Republican, "Republican"), TrendSeries(Democratic, "Democratic"),
       TrendSeries(Other, "Other (NPA + Minor)")]
    else
      [TrendSeries(Republican, "Republican"), TrendSeries(Democratic, "Democratic"),
       TrendSeries(Npa, "No Party Affiliation"), TrendSeries(Minor, "Minor Parties")]
  }

  /** `series.map((item) => item.key)`. */
  function SeriesKeys(twoPartyView: bool): (keys: seq<SeriesKey>)
    ensures |keys| == |ChartSeries(twoPartyView)|
    ensures forall i | 0 <= i < |keys| :: keys[i] == ChartSeries(twoPartyView)[i].key
  {
    Map(ChartSeries(twoPartyView), (s: TrendSeries) => s.key)
  }

  /** The keys of a view, listed out: republican, democratic and other in
      the two-party view, republican, democratic, npa and minor otherwise. */
  lemma SeriesKeysOfView(twoPartyView: bool)
    ensures twoPartyView ==> SeriesKeys(twoPartyView) == [Republican, Democratic, Other]
    ensures !twoPartyView ==> SeriesKeys(twoPartyView) == [Republican, Democratic, Npa, Minor]
  {
  }

  /** The data of the matching mapping has exactly the series the chart
      plots in that view. */
  lemma SeriesMatchMapping(points: seq<TrendPointWithTotal>, i: nat, key: SeriesKey)
    requires i < |points|
    ensures HasSeries(MapFloridaTrendTwoParty(points)[i], key) <==> key in SeriesKeys(true)
    ensures HasSeries(MapFloridaTrendFullComposition(points)[i], key) <==> key in SeriesKeys(false)
  {
    SeriesKeysOfView(true);
    SeriesKeysOfView(false);
  }

  // ---------------------------------------------------------------------
  // The plotted data
  // ---------------------------------------------------------------------

  /** transformedData: indexed against the default base month, shares of
      the total, or the data as it is. */
  function Transformed(data: seq<ChartPoint>, viewMode: ViewMode): (r: seq<ChartPoint>)
    ensures |r| == |data|
    ensures viewMode == Absolute ==> r == data
  {
    match viewMode
    case IndexedMode => IndexedSeries(data, DEFAULT_BASE_KEY)
    case ShareMode => ShareSeries(data)
    case Absolute => data
  }

  /** Every mode keeps each point's frame and which series it has, so the
      tooltip's raw counts and totals are those of the data. */
  lemma TransformedKeepsFrame(data: seq<ChartPoint>, viewMode: ViewMode, i: nat, key: SeriesKey)
    requires i < |data|
    ensures SameFrame(Transformed(data, viewMode)[i], data[i])
    ensures HasSeries(Transformed(data, viewMode)[i], key) <==> HasSeries(data[i], key)
    ensures RawValue(Transformed(data, viewMode)[i], key) == RawValue(data[i], key)
  {
    match viewMode
    case IndexedMode => IndexedKeepsFrame(data, DEFAULT_BASE_KEY);
    case ShareMode => ShareValue(data, i, key);
    case Absolute =>
  }

  datatype TrendRange = Range12m | Range24m | RangeAll

  /** sliceCount for the two bounded ranges. */
  function SliceCount(range: TrendRange): nat {
    if range == Range12m then 12 else 24
  }

  /** slicedData: everything unless the mode is absolute and the range is
      bounded; then the last min(12 or 24, length) points. */
  function Sliced(transformed: seq<ChartPoint>, viewMode: ViewMode, range: TrendRange): (r: seq<ChartPoint>)
    ensures |r| <= |transformed| && r == transformed[|transformed| - |r|..]
    ensures viewMode != Absolute || range == RangeAll ==> r == transformed
    ensures viewMode == Absolute && range != RangeAll ==>
              |r| == if |transformed| < SliceCount(range) then |transformed| else SliceCount(range)
  {
    if viewMode != Absolute || range == RangeAll then transformed
    else
      var sliceCount := SliceCount(range);
      var count := if sliceCount < |transformed| then sliceCount else |transformed|;
      transformed[|transformed| - count..]
  }

  /** Narrowing the range never shows more points: 12 months is a suffix of
      24 months, which is a suffix of everything. */
  lemma SlicedNested(transformed: seq<ChartPoint>)
    ensures var s12 := Sliced(transformed, Absolute, Range12m);
            var s24 := Sliced(transformed, Absolute, Range24m);
            |s12| <= |s24| && s12 == s24[|s24| - |s12|..]
  {
  }

  /** The y-axis domain: [0, 1] for the stacked share view; otherwise the
      padded domain of the plotted values, padded by 8% when indexed and 6%
      when absolute. */
  function YDomain(sliced: seq<ChartPoint>, keys: seq<SeriesKey>, viewMode: ViewMode): (real, real) {
    if viewMode == ShareMode then (0.0, 1.0)
    else Domain(PresentValues(sliced, keys), if viewMode == IndexedMode then 0.08 else 0.06)
  }

  /** The memo, computed with getDomain's loops. */
  method ComputeYDomain(sliced: seq<ChartPoint>, keys: seq<SeriesKey>, viewMode: ViewMode) returns (domain: (real, real))
    ensures domain == YDomain(sliced, keys, viewMode)
    ensures viewMode == ShareMode ==> domain == (0.0, 1.0)
  {
    if viewMode == ShareMode {
      return (0.0, 1.0);
    }
    domain := GetDomain(sliced, keys, if viewMode == IndexedMode then 0.08 else 0.06);
  }

  /** A present value of a listed key at some point is among the collected
      values. */
  lemma {:induction false} PresentValuesHas(points: seq<ChartPoint>, keys: seq<SeriesKey>, i: nat, j: nat)
    requires i < |points| && j < |keys| && HasSeries(points[i], keys[j])
    ensures ReadSeriesValue(points[i], keys[j]).value in PresentValues(points, keys)
    decreases |points|
  {
    var n := |points| - 1;
    var v := ReadSeriesValue(points[i], keys[j]).value;
    if i == n {
      PointValuesMembers(points[n], keys, v);
    } else {
      assert points[..n][i] == points[i];
      PresentValuesHas(points[..n], keys, i, j);
    }
  }

  /** Outside the share view, every plotted value of every plotted series
      lies inside the y-axis domain. */
  lemma PlottedInsideDomain(sliced: seq<ChartPoint>, keys: seq<SeriesKey>, viewMode: ViewMode, i: nat, j: nat)
    requires viewMode != ShareMode
    requires i < |sliced| && j < |keys| && HasSeries(sliced[i], keys[j])
    ensures var domain := YDomain(sliced, keys, viewMode);
            domain.0 <= SeriesValue(sliced[i], keys[j]) <= domain.1
  {
    PresentValuesHas(sliced, keys, i, j);
    DomainContains(PresentValues(sliced, keys), if viewMode == IndexedMode then 0.08 else 0.06,
                   ReadSeriesValue(sliced[i], keys[j]).value);
  }

  // ---------------------------------------------------------------------
  // The tooltip
  // ---------------------------------------------------------------------

  /** The data key of a series. */
  function KeyName(key: SeriesKey): string {
    match key
    case Republican => "republican"
    case Democratic => "democratic"
    case Npa => "npa"
    case Minor => "minor"
    case Other => "other"
  }

  /** The series a data key names, if any; other keys fall to the switches'
      `default`. */
  function SeriesKeyOf(dataKey: string): (key: Option<SeriesKey>)
    ensures key.Some? ==> KeyName(key.value) == dataKey
    ensures forall k :: KeyName(k) == dataKey ==> key == Some(k)
  {
    if dataKey == "republican" then Some(Republican)
    else if dataKey == "democratic" then Some(Democratic)
    else if dataKey == "npa" then Some(Npa)
    else if dataKey == "minor" then Some(Minor)
    else if dataKey == "other" then Some(Other)
    else None
  }

  /** `total > 0 ? (rawValue / total) * 100 : 0`. */
  function TooltipPercent(rawValue: real, total: real): (percent: real)
    ensures total > 0.0 ==> percent * total == rawValue * 100.0
    ensures total <= 0.0 ==> percent == 0.0
  {
    if total > 0.0 then rawValue / total * 100.0 else 0.0
  }

  /** One tooltip payload entry. */
  datatype PayloadEntry = PayloadEntry(value: Option<real>, name: Option<string>, dataKey: Option<string>, point: Option<ChartPoint>)

  /** One tooltip line: the entry's name, its raw count, the displayed value
      and the share of the total. */
  datatype TooltipRow = TooltipRow(name: Option<string>, rawValue: real, displayedValue: real, percent: real)

  datatype TooltipView = TooltipView(heading: string, rows: seq<TooltipRow>)

  predicate NotTotal(entry: PayloadEntry) {
    entry.dataKey != Some("total")
  }

  /** `point ? getRawValue(point, dataKey) : 0`. */
  function RowRaw(entry: PayloadEntry, point: Option<ChartPoint>): real {
    match point
    case None => 0.0
    case Some(p) =>
      match SeriesKeyOf(entry.dataKey.GetOr(""))
      case None => 0.0
      case Some(k) => RawValue(p, k)
  }

  /** `point ? getSeriesValue(point, dataKey) : Number(entry.value ?? 0)`. */
  function RowDisplayed(entry: PayloadEntry, point: Option<ChartPoint>): real {
    match point
    case None => entry.value.GetOr(0.0)
    case Some(p) =>
      match SeriesKeyOf(entry.dataKey.GetOr(""))
      case None => 0.0
      case Some(k) => SeriesValue(p, k)
  }

  /** The line of one entry, against the hovered point and its total. */
  function Row(entry: PayloadEntry, point: Option<ChartPoint>, total: real): (row: TooltipRow)
    ensures row.name == entry.name
    ensures total > 0.0 ==> row.percent * total == row.rawValue * 100.0
    ensures total <= 0.0 ==> row.percent == 0.0
    ensures point.None? ==> row.rawValue == 0.0 && row.displayedValue == entry.value.GetOr(0.0)
  {
    var rawValue := RowRaw(entry, point);
    TooltipRow(entry.name, rawValue, RowDisplayed(entry, point), TooltipPercent(rawValue, total))
  }

  /** TrendTooltip: nothing when inactive, without payload or without a
      label; otherwise one line per entry other than the total, against the
      first entry's point (a total of 0 without one). */
  function Tooltip(active: Option<bool>, payload: Option<seq<PayloadEntry>>, labelText: Option<string>)
    : (view: Option<TooltipView>)
    ensures view.None? <==> active != Some(true) || payload.None? || payload.value == [] || labelText.None? || labelText.value == ""
    ensures view.Some? ==> view.value.heading == labelText.value
    ensures view.Some? ==>
              var point := payload.value[0].point;
              var kept := Filter(payload.value, NotTotal);
              |view.value.rows| == |kept| <= |payload.value|
              && forall i | 0 <= i < |kept| ::
                   view.value.rows[i] == Row(kept[i], point, if point.Some? then point.value.total else 0.0)
  {
    if active != Some(true) || payload.None? || payload.value == [] || labelText.None? || labelText.value == "" then None
    else
      var point := payload.value[0].point;
      var total := if point.Some? then point.value.total else 0.0;
      Some(TooltipView(labelText.value, Map(Filter(payload.value, NotTotal), (e: PayloadEntry) => Row(e, point, total))))
  }

  /** The total's own entry never gets a line: every line belongs to a
      series entry of the payload. */
  lemma TooltipDropsTotal(active: Option<bool>, payload: Option<seq<PayloadEntry>>, labelText: Option<string>, i: nat)
    requires Tooltip(active, payload, labelText).Some? && i < |Tooltip(active, payload, labelText).value.rows|
    ensures exists e | e in payload.value :: NotTotal(e) && e.name == Tooltip(active, payload, labelText).value.rows[i].name
  {
    var kept := Filter(payload.value, NotTotal);
    assert kept[i] in kept;
  }

  /** The line of a series entry reports the point's raw count of that
      series and its share of the point's total. */
  lemma RowOfSeries(entry: PayloadEntry, point: ChartPoint, key: SeriesKey)
    requires entry.dataKey == Some(KeyName(key))
    ensures var row := Row(entry, Some(point), point.total);
            row.rawValue == RawValue(point, key) && row.displayedValue == SeriesValue(point, key)
            && row.percent == TooltipPercent(RawValue(point, key), point.total)
  {
  }

  /** The tooltip percentages of the listed series at a point, added up. */
  function PercentSum(point: ChartPoint, keys: seq<SeriesKey>): real
    decreases |keys|
  {
    if keys == [] then 0.0
    else PercentSum(point, keys[..|keys| - 1]) + TooltipPercent(RawValue(point, keys[|keys| - 1]), point.total)
  }

  /** At a point whose raw counts make up its positive total, the
      percentages of the plotted series add up to 100 in either view. */
  lemma PercentsSumToHundred(point: ChartPoint, twoPartyView: bool)
    requires point.total > 0.0
    requires point.rawRepublican + point.rawDemocratic + point.rawNpa + point.rawMinor == point.total
    requires twoPartyView ==> point.rawOther.None? || point.rawOther == Some(point.rawNpa + point.rawMinor)
    ensures PercentSum(point, SeriesKeys(twoPartyView)) == 100.0
  {
    SeriesKeysOfView(twoPartyView);
    var t := point.total;
    var r, d, n, m := point.rawRepublican, point.rawDemocratic, point.rawNpa, point.rawMinor;
    PercentOfTotal(t);
    if twoPartyView {
      PercentSumThree(point, Republican, Democratic, Other);
      assert RawValue(point, Other) == n + m;
      PercentsAdd(r, d, t);
      PercentsAdd(r + d, n + m, t);
      assert r + d + (n + m) == t;
    } else {
      PercentSumFour(point, Republican, Democratic, Npa, Minor);
      PercentsAdd(r, d, t);
      PercentsAdd(r + d, n, t);
      PercentsAdd(r + d + n, m, t);
      assert r + d + n + m == t;
    }
  }

  /** The whole total is 100 percent. */
  lemma PercentOfTotal(total: real)
    requires total > 0.0
    ensures TooltipPercent(total, total) == 100.0
  {
    assert total / total == 1.0;
  }

  /** Percentages of one total add like the counts. */
  lemma PercentsAdd(x: real, y: real, total: real)
    requires total > 0.0
    ensures TooltipPercent(x, total) + TooltipPercent(y, total) == TooltipPercent(x + y, total)
  {
    assert x / total + y / total == (x + y) / total;
  }

  lemma PercentSumThree(point: ChartPoint, a: SeriesKey, b: SeriesKey, c: SeriesKey)
    ensures PercentSum(point, [a, b, c])
            == TooltipPercent(RawValue(point, a), point.total) + TooltipPercent(RawValue(point, b), point.total)
               + TooltipPercent(RawValue(point, c), point.total)
  {
    assert [a, b, c][..2] == [a, b] && [a, b][..1] == [a] && [a][..0] == [];
    assert PercentSum(point, [a]) == TooltipPercent(RawValue(point, a), point.total);
    assert PercentSum(point, [a, b]) == PercentSum(point, [a]) + TooltipPercent(RawValue(point, b), point.total);
  }

  lemma PercentSumFour(point: ChartPoint, a: SeriesKey, b: SeriesKey, c: SeriesKey, e: SeriesKey)
    ensures PercentSum(point, [a, b, c, e])
            == TooltipPercent(RawValue(point, a), point.total) + TooltipPercent(RawValue(point, b), point.total)
               + TooltipPercent(RawValue(point, c), point.total) + TooltipPercent(RawValue(point, e), point.total)
  {
    assert [a, b, c, e][..3] == [a, b, c];
    PercentSumThree(point, a, b, c);
  }

  /** A point of either mapping, in any view mode, meets the conditions of
      PercentsSumToHundred once its total is the sum of its four counts and
      positive. */
  lemma MappedPointSums(points: seq<TrendPointWithTotal>, twoPartyView: bool, viewMode: ViewMode, i: nat)
    requires i < |points| && points[i].total > 0
    requires points[i].republican + points[i].democratic + points[i].npa + points[i].minor == points[i].total
    ensures var mapped := if twoPartyView then MapFloridaTrendTwoParty(points) else MapFloridaTrendFullComposition(points);
            PercentSum(Transformed(mapped, viewMode)[i], SeriesKeys(twoPartyView)) == 100.0
  {
    var mapped := if twoPartyView then MapFloridaTrendTwoParty(points) else MapFloridaTrendFullComposition(points);
    var p := Transformed(mapped, viewMode)[i];
    TransformedKeepsFrame(mapped, viewMode, i, Republican);
    assert SameFrame(p, mapped[i]);
    PercentsSumToHundred(p, twoPartyView);
  }

  // ---------------------------------------------------------------------
  // The component
  // ---------------------------------------------------------------------

  /** The chart's own state, the range, over its props. */
  class Chart {
    const data: seq<ChartPoint>
    const twoPartyView: bool
    var range: TrendRange

    constructor(data: seq<ChartPoint>, twoPartyView: bool)
      ensures this.data == data && this.twoPartyView == twoPartyView && range == RangeAll
    {
      this.data, this.twoPartyView := data, twoPartyView;
      range := RangeAll;
    }

    /** slicedData for the `viewMode` prop. */
    function Plotted(viewMode: ViewMode): seq<ChartPoint>
      reads this
    {
      Sliced(Transformed(data, viewMode), viewMode, range)
    }

    /** A range button (shown in the absolute view only). */
    method SelectRange(option: TrendRange)
      modifies this
      ensures range == option
      ensures option == RangeAll ==> forall mode :: Plotted(mode) == Transformed(data, mode)
    {
      range := option;
    }
  }
}
