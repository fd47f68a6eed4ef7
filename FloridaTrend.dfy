/**
 * The registration trend series (app/data/voter-stats/florida-trend.ts): the
 * seeded monthly series, per-point totals, the two-party and full-composition
 * chart points, indexing against a base month, shares of the total, the
 * padded axis domain and the first-to-last delta chips. Numbers are exact
 * reals; the counts of the seeded series are integers.
 */
module FloridaTrend {
  import opened Wrappers
  import opened JsString
  import opened JsArray

  /** A seeded monthly point. */
  datatype TrendPoint = TrendPoint(date: string, republican: int, democratic: int, npa: int, minor: int)

  /** A point with its total. */
  datatype TrendPointWithTotal = TrendPointWithTotal(
    date: string, republican: int, democratic: int, npa: int, minor: int, total: int)

  /** A chart point: the five plotted series (npa, minor and other optional)
      and the raw counts the tooltip reports. */
  datatype ChartPoint = ChartPoint(
    date: string,
    republican: real,
    democratic: real,
    npa: Option<real>,
    minor: Option<real>,
    other: Option<real>,
    total: real,
    rawRepublican: real,
    rawDemocratic: real,
    rawNpa: real,
    rawMinor: real,
    rawOther: Option<real>)

  datatype ViewMode = Absolute | IndexedMode | ShareMode

  datatype SeriesKey = Republican | Democratic | Npa | Minor | Other

  /** floridaTrendSeriesKeys, in the order the transforms visit them. */
  const SERIES_KEYS: seq<SeriesKey> := [Republican, Democratic, Npa, Minor, Other]

  /** The position of a key in SERIES_KEYS. */
  function KeyIndex(key: SeriesKey): (i: nat)
    ensures i < |SERIES_KEYS| && SERIES_KEYS[i] == key
  {
    match key
    case Republican => 0
    case Democratic => 1
    case Npa => 2
    case Minor => 3
    case Other => 4
  }

  // ---------------------------------------------------------------------
  // The seeded series
  // ---------------------------------------------------------------------

  const MONTH_WAVE: seq<int> := [0, 320, 650, 280, 740, 180, 520, 0, 460, 250, 600, 120]

  const START_REP: int := 5300000
  const START_DEM: int := 4500000
  const START_NPA: int := 3550000
  const START_MINOR: int := 380000

  /** The number of seeded months: 2023 to 2025, twelve each. */
  const SEED_MONTHS: nat := 36

  /** `Math.round`: the nearest integer, halves rounded up. */
  function Round(x: real): (n: int)
    ensures n as real - 0.5 <= x < n as real + 0.5
  {
    (x + 0.5).Floor
  }

  /** The point at running index `index`; `monthEnd(year, month)` is the ISO
      date of the month's last day. */
  function SeedPoint(index: nat, monthEnd: (int, int) -> string): TrendPoint {
    var wave := MONTH_WAVE;
    TrendPoint(
      monthEnd(2023 + index / 12, index % 12 + 1),
      Round((START_REP + index * 5981 + wave[index % 12]) as real),
      Round((START_DEM - index * 4846) as real + wave[(index + 3) % 12] as real * 0.65),
      Round((START_NPA + index * 8499) as real + wave[(index + 6) % 12] as real * 0.8),
      Round((START_MINOR + index * 679) as real + wave[(index + 9) % 12] as real * 0.25))
  }

  /** buildSeededSeries: one point per month of 2023-2025, the running index
      counting up from 0. */
  method BuildSeededSeries(monthEnd: (int, int) -> string) returns (points: seq<TrendPoint>)
    ensures |points| == SEED_MONTHS
    ensures forall i | 0 <= i < |points| :: points[i] == SeedPoint(i, monthEnd)
  {
    points := [];
    var index := 0;
    var year := 2023;
    while year <= 2025
      invariant 2023 <= year <= 2026
      invariant index == (year - 2023) * 12 && |points| == index
      invariant forall i | 0 <= i < index :: points[i] == SeedPoint(i, monthEnd)
    {
      var month := 1;
      while month <= 12
        invariant 1 <= month <= 13
        invariant index == (year - 2023) * 12 + month - 1 && |points| == index
        invariant forall i | 0 <= i < index :: points[i] == SeedPoint(i, monthEnd)
      {
        var rep := Round((START_REP + index * 5981 + MONTH_WAVE[index % 12]) as real);
        var dem := Round((START_DEM - index * 4846) as real + MONTH_WAVE[(index + 3) % 12] as real * 0.65);
        var npa := Round((START_NPA + index * 8499) as real + MONTH_WAVE[(index + 6) % 12] as real * 0.8);
        var minor := Round((START_MINOR + index * 679) as real + MONTH_WAVE[(index + 9) % 12] as real * 0.25);
        SeedPointAt(index, year, month, monthEnd);
        points := points + [TrendPoint(monthEnd(year, month), rep, dem, npa, minor)];
        index := index + 1;
        month := month + 1;
      }
      year := year + 1;
    }
  }

  /** The running index names its year and month. */
  lemma MonthOfIndex(q: nat, r: nat)
    requires r < 12
    ensures (q * 12 + r) / 12 == q && (q * 12 + r) % 12 == r
  {
  }

  /** The point the loop builds in `month` of `year` is the seed point of
      its running index. */
  lemma SeedPointAt(index: nat, year: int, month: int, monthEnd: (int, int) -> string)
    requires 2023 <= year && 1 <= month <= 12
    requires index == (year - 2023) * 12 + month - 1
    ensures SeedPoint(index, monthEnd).date == monthEnd(year, month)
  {
    MonthOfIndex(year - 2023, month - 1);
  }

  /** Rounding an integer changes nothing. */
  lemma RoundOfInt(n: int)
    ensures Round(n as real) == n
  {
  }

  /** The republican count at index i is 5,300,000 + 5,981 i plus the month's
      wave, the wave repeating every twelve months. */
  lemma SeedRepublican(index: nat, monthEnd: (int, int) -> string)
    ensures SeedPoint(index, monthEnd).republican == 5300000 + 5981 * index + MONTH_WAVE[index % 12]
  {
    RoundOfInt(START_REP + index * 5981 + MONTH_WAVE[index % 12]);
  }

  /** The seeded republican series rises every month: the monthly step
      outweighs any drop of the wave. */
  lemma SeedRepublicanRises(index: nat, monthEnd: (int, int) -> string)
    ensures SeedPoint(index + 1, monthEnd).republican > SeedPoint(index, monthEnd).republican
  {
    SeedRepublican(index, monthEnd);
    SeedRepublican(index + 1, monthEnd);
    WaveBounds(index % 12);
    WaveBounds((index + 1) % 12);
  }

  lemma WaveBounds(i: nat)
    requires i < 12
    ensures 0 <= MONTH_WAVE[i] <= 740
  {
  }

  /** The seeded democratic series falls every month: the monthly step down
      outweighs any rise of the damped wave. */
  lemma SeedDemocraticFalls(index: nat, monthEnd: (int, int) -> string)
    ensures SeedPoint(index + 1, monthEnd).democratic < SeedPoint(index, monthEnd).democratic
  {
    WaveBounds((index + 3) % 12);
    WaveBounds((index + 4) % 12);
  }

  // ---------------------------------------------------------------------
  // Totals and the two chart mappings
  // ---------------------------------------------------------------------

  function WithTotal(point: TrendPoint): TrendPointWithTotal {
    TrendPointWithTotal(point.date, point.republican, point.democratic, point.npa, point.minor,
                        point.republican + point.democratic + point.npa + point.minor)
  }

  /** withFloridaTrendTotals: every point, in order, with its four counts
      summed into a total. */
  function WithFloridaTrendTotals(points: seq<TrendPoint>): (r: seq<TrendPointWithTotal>)
    ensures |r| == |points|
    ensures forall i | 0 <= i < |r| ::
              r[i].date == points[i].date && r[i].republican == points[i].republican
              && r[i].democratic == points[i].democratic && r[i].npa == points[i].npa
              && r[i].minor == points[i].minor
              && r[i].total == points[i].republican + points[i].democratic + points[i].npa + points[i].minor
  {
    Map(points, WithTotal)
  }

  /** The raw counts of a chart point, as plain numbers. */
  function TwoPartyPoint(point: TrendPointWithTotal): ChartPoint {
    var other := (point.npa + point.minor) as real;
    ChartPoint(point.date, point.republican as real, point.democratic as real, None, None, Some(other),
               point.total as real, point.republican as real, point.democratic as real,
               point.npa as real, point.minor as real, Some(other))
  }

  function FullCompositionPoint(point: TrendPointWithTotal): ChartPoint {
    ChartPoint(point.date, point.republican as real, point.democratic as real,
               Some(point.npa as real), Some(point.minor as real), None,
               point.total as real, point.republican as real, point.democratic as real,
               point.npa as real, point.minor as real, None)
  }

  /** The raw fields copy the counts verbatim. */
  predicate RawOf(c: ChartPoint, point: TrendPointWithTotal) {
    c.date == point.date && c.total == point.total as real
    && c.rawRepublican == point.republican as real && c.rawDemocratic == point.democratic as real
    && c.rawNpa == point.npa as real && c.rawMinor == point.minor as real
  }

  /** mapFloridaTrendTwoParty: NPA and minor merged into `other` (also its raw
      value); the npa and minor series are absent. */
  function MapFloridaTrendTwoParty(points: seq<TrendPointWithTotal>): (r: seq<ChartPoint>)
    ensures |r| == |points|
    ensures forall i | 0 <= i < |r| ::
              RawOf(r[i], points[i]) && r[i].npa.None? && r[i].minor.None?
              && r[i].other == r[i].rawOther == Some((points[i].npa + points[i].minor) as real)
              && r[i].republican == r[i].rawRepublican && r[i].democratic == r[i].rawDemocratic
  {
    Map(points, TwoPartyPoint)
  }

  /** mapFloridaTrendFullComposition: the npa and minor series kept, `other`
      and its raw value absent. */
  function MapFloridaTrendFullComposition(points: seq<TrendPointWithTotal>): (r: seq<ChartPoint>)
    ensures |r| == |points|
    ensures forall i | 0 <= i < |r| ::
              RawOf(r[i], points[i]) && r[i].other.None? && r[i].rawOther.None?
              && r[i].npa == Some(r[i].rawNpa) && r[i].minor == Some(r[i].rawMinor)
              && r[i].republican == r[i].rawRepublican && r[i].democratic == r[i].rawDemocratic
  {
    Map(points, FullCompositionPoint)
  }

  /** The two views plot the same parties: two-party `other` is the sum of the
      full view's npa and minor, point by point. */
  lemma TwoPartyMergesFull(points: seq<TrendPointWithTotal>)
    ensures var two := MapFloridaTrendTwoParty(points);
            var full := MapFloridaTrendFullComposition(points);
            forall i | 0 <= i < |points| ::
              two[i].other.value == full[i].npa.value + full[i].minor.value
              && two[i].republican == full[i].republican && two[i].total == full[i].total
  {
  }

  // ---------------------------------------------------------------------
  // Reading and writing one series
  // ---------------------------------------------------------------------

  /** readSeriesValue; `None` is `undefined`. */
  function ReadSeriesValue(point: ChartPoint, key: SeriesKey): Option<real> {
    match key
    case Republican => Some(point.republican)
    case Democratic => Some(point.democratic)
    case Npa => point.npa
    case Minor => point.minor
    case Other => point.other
  }

  /** hasSeries. */
  predicate HasSeries(point: ChartPoint, key: SeriesKey) {
    ReadSeriesValue(point, key).Some?
  }

  /** Everything but the five series agrees. */
  predicate SameFrame(q: ChartPoint, p: ChartPoint) {
    q.date == p.date && q.total == p.total && q.rawRepublican == p.rawRepublican
    && q.rawDemocratic == p.rawDemocratic && q.rawNpa == p.rawNpa && q.rawMinor == p.rawMinor
    && q.rawOther == p.rawOther
  }

  /** writeSeriesValue on a copy: the written series reads back the value
      and nothing else changes. */
  function WriteSeriesValue(point: ChartPoint, key: SeriesKey, value: real): (q: ChartPoint)
    ensures ReadSeriesValue(q, key) == Some(value)
    ensures forall k | k != key :: ReadSeriesValue(q, k) == ReadSeriesValue(point, k)
    ensures SameFrame(q, point)
  {
    match key
    case Republican => point.(republican := value)
    case Democratic => point.(democratic := value)
    case Npa => point.(npa := Some(value))
    case Minor => point.(minor := Some(value))
    case Other => point.(other := Some(value))
  }

  /** A chart point is fixed by its frame and its five series. */
  lemma PointExtensionality(q: ChartPoint, p: ChartPoint)
    requires SameFrame(q, p)
    requires forall k :: ReadSeriesValue(q, k) == ReadSeriesValue(p, k)
    ensures q == p
  {
    assert ReadSeriesValue(q, Republican) == ReadSeriesValue(p, Republican);
    assert ReadSeriesValue(q, Democratic) == ReadSeriesValue(p, Democratic);
    assert ReadSeriesValue(q, Npa) == ReadSeriesValue(p, Npa);
    assert ReadSeriesValue(q, Minor) == ReadSeriesValue(p, Minor);
    assert ReadSeriesValue(q, Other) == ReadSeriesValue(p, Other);
  }

  /** Every present series `v` under key `k` replaced by `f(k, v)`. */
  function Transform(point: ChartPoint, f: (SeriesKey, real) -> real): (q: ChartPoint)
    ensures SameFrame(q, point)
    ensures forall k :: ReadSeriesValue(q, k) == TransformRead(point, f, k)
  {
    point.(
      republican := f(Republican, point.republican),
      democratic := f(Democratic, point.democratic),
      npa := if point.npa.Some? then Some(f(Npa, point.npa.value)) else None,
      minor := if point.minor.Some? then Some(f(Minor, point.minor.value)) else None,
      other := if point.other.Some? then Some(f(Other, point.other.value)) else None)
  }

  function TransformRead(point: ChartPoint, f: (SeriesKey, real) -> real, k: SeriesKey): Option<real> {
    match ReadSeriesValue(point, k)
    case None => None
    case Some(v) => Some(f(k, v))
  }

  /** Series of keys before `j` transformed, the rest as in `point`. */
  predicate TransformedBefore(q: ChartPoint, point: ChartPoint, f: (SeriesKey, real) -> real, j: nat) {
    SameFrame(q, point)
    && (forall k | KeyIndex(k) < j :: ReadSeriesValue(q, k) == TransformRead(point, f, k))
    && (forall k | KeyIndex(k) >= j :: ReadSeriesValue(q, k) == ReadSeriesValue(point, k))
  }

  /** One step of the loop over SERIES_KEYS. */
  lemma TransformStep(q: ChartPoint, point: ChartPoint, f: (SeriesKey, real) -> real, j: nat)
    requires j < |SERIES_KEYS| && TransformedBefore(q, point, f, j)
    ensures var key := SERIES_KEYS[j];
            var q' := if HasSeries(point, key) then WriteSeriesValue(q, key, f(key, ReadSeriesValue(point, key).value)) else q;
            TransformedBefore(q', point, f, j + 1)
  {
    var key := SERIES_KEYS[j];
    assert KeyIndex(key) == j;
    forall k ensures KeyIndex(k) == j ==> k == key {
      assert SERIES_KEYS[KeyIndex(k)] == k;
    }
  }

  /** After the whole loop the point is the transform. */
  lemma TransformDone(q: ChartPoint, point: ChartPoint, f: (SeriesKey, real) -> real)
    requires TransformedBefore(q, point, f, |SERIES_KEYS|)
    ensures q == Transform(point, f)
  {
    PointExtensionality(q, Transform(point, f));
  }

  // ---------------------------------------------------------------------
  // Indexed and share views
  // ---------------------------------------------------------------------

  /** `base > 0 ? current / base * 100 : 100`. */
  function IndexValue(current: real, base: real): real {
    if base > 0.0 then current / base * 100.0 else 100.0
  }

  /** The indexing of one series against the base point. */
  function IndexAgainst(basePoint: ChartPoint): (SeriesKey, real) -> real {
    (k: SeriesKey, v: real) => IndexValue(v, ReadSeriesValue(basePoint, k).GetOr(0.0))
  }

  /** The index of the base point: the first whose date starts with
      `baseKey`, else the first point. */
  function BaseIndex(points: seq<ChartPoint>, baseKey: string): (b: nat)
    requires points != []
    ensures b < |points|
    ensures b > 0 ==> StartsWith(points[b].date, baseKey)
    ensures forall i | 0 <= i < b :: !StartsWith(points[i].date, baseKey)
  {
    match FindIndex(points, (p: ChartPoint) => StartsWith(p.date, baseKey))
    case Some(i) => i
    case None => 0
  }

  /** One point indexed against the base point: the frame kept, and every
      series it has over the base's value of that series, times 100. */
  function IndexedPoint(point: ChartPoint, basePoint: ChartPoint): (q: ChartPoint)
    ensures SameFrame(q, point)
    ensures forall k :: ReadSeriesValue(q, k) ==
              match ReadSeriesValue(point, k)
              case None => None
              case Some(v) => Some(IndexValue(v, ReadSeriesValue(basePoint, k).GetOr(0.0)))
  {
    var f := IndexAgainst(basePoint);
    var q := Transform(point, f);
    assert forall k :: ReadSeriesValue(q, k) == TransformRead(point, f, k);
    q
  }

  /** The result of toIndexed. */
  function IndexedSeries(points: seq<ChartPoint>, baseKey: string): (r: seq<ChartPoint>)
    ensures |r| == |points|
    ensures points != [] ==>
              forall i | 0 <= i < |points| :: r[i] == IndexedPoint(points[i], points[BaseIndex(points, baseKey)])
  {
    if points == [] then []
    else Map(points, (p: ChartPoint) => IndexedPoint(p, points[BaseIndex(points, baseKey)]))
  }

  /** toIndexed: the base point is found, then each point is copied and every
      series it has is rewritten against the base. */
  method ToIndexed(points: seq<ChartPoint>, baseKey: string) returns (result: seq<ChartPoint>)
    ensures result == IndexedSeries(points, baseKey)
  {
    if |points| == 0 {
      return [];
    }
    var found := Find(points, (p: ChartPoint) => StartsWith(p.date, baseKey));
    var basePoint := if found.Some? then found.value else points[0];
    BaseIndexFinds(points, baseKey);
    result := [];
    for i := 0 to |points|
      invariant |result| == i
      invariant forall n | 0 <= n < i :: result[n] == IndexedPoint(points[n], basePoint)
    {
      var indexedPoint := IndexPoint(points[i], basePoint);
      result := result + [indexedPoint];
    }
  }

  /** The inner loop of toIndexed: every series the point has, over the
      base's value of that series, times 100. */
  method IndexPoint(point: ChartPoint, basePoint: ChartPoint) returns (indexedPoint: ChartPoint)
    ensures indexedPoint == IndexedPoint(point, basePoint)
  {
    ghost var f := IndexAgainst(basePoint);
    indexedPoint := point;
    for j := 0 to |SERIES_KEYS|
      invariant TransformedBefore(indexedPoint, point, f, j)
    {
      var key := SERIES_KEYS[j];
      TransformStep(indexedPoint, point, f, j);
      if HasSeries(point, key) {
        var currentValue := ReadSeriesValue(point, key).GetOr(0.0);
        var baseValue := ReadSeriesValue(basePoint, key).GetOr(0.0);
        var indexedValue := if baseValue > 0.0 then currentValue / baseValue * 100.0 else 100.0;
        indexedPoint := WriteSeriesValue(indexedPoint, key, indexedValue);
      }
    }
    TransformDone(indexedPoint, point, f);
  }

  /** `find(...) ?? points[0]` is the point at BaseIndex. */
  lemma BaseIndexFinds(points: seq<ChartPoint>, baseKey: string)
    requires points != []
    ensures var found := Find(points, (p: ChartPoint) => StartsWith(p.date, baseKey));
            (if found.Some? then found.value else points[0]) == points[BaseIndex(points, baseKey)]
  {
  }

  /** Every series the base point has reads exactly 100 there. */
  lemma IndexedBaseIsHundred(points: seq<ChartPoint>, baseKey: string, k: SeriesKey)
    requires points != []
    requires HasSeries(points[BaseIndex(points, baseKey)], k)
    ensures var b := BaseIndex(points, baseKey);
            ReadSeriesValue(IndexedSeries(points, baseKey)[b], k) == Some(100.0)
  {
    var b := BaseIndex(points, baseKey);
    var v := ReadSeriesValue(points[b], k).value;
    assert ReadSeriesValue(IndexedSeries(points, baseKey)[b], k) == Some(IndexValue(v, v));
    SelfIndexIsHundred(v);
  }

  lemma SelfIndexIsHundred(v: real)
    ensures IndexValue(v, v) == 100.0
  {
    if v > 0.0 {
      assert v / v == 1.0;
    }
  }

  /** Indexing keeps the length, the dates, totals and raw counts of every
      point, and which series are present. */
  lemma IndexedKeepsFrame(points: seq<ChartPoint>, baseKey: string)
    ensures var r := IndexedSeries(points, baseKey);
            |r| == |points|
            && forall i, k | 0 <= i < |r| ::
                 SameFrame(r[i], points[i]) && (HasSeries(r[i], k) <==> HasSeries(points[i], k))
  {
  }

  /** A present series at any point is its value over the base's value,
      times 100, when the base's value is positive. */
  lemma IndexedValue(points: seq<ChartPoint>, baseKey: string, i: nat, k: SeriesKey)
    requires i < |points| && HasSeries(points[i], k)
    requires HasSeries(points[BaseIndex(points, baseKey)], k)
    requires ReadSeriesValue(points[BaseIndex(points, baseKey)], k).value > 0.0
    ensures var base := ReadSeriesValue(points[BaseIndex(points, baseKey)], k).value;
            ReadSeriesValue(IndexedSeries(points, baseKey)[i], k)
            == Some(ReadSeriesValue(points[i], k).value / base * 100.0)
  {
    var base := ReadSeriesValue(points[BaseIndex(points, baseKey)], k).value;
    var v := ReadSeriesValue(points[i], k).value;
    assert ReadSeriesValue(IndexedSeries(points, baseKey)[i], k) == Some(IndexValue(v, base));
  }

  /** `point.total > 0 ? point.total : 1`. */
  function ShareDenominator(point: ChartPoint): real {
    if point.total > 0.0 then point.total else 1.0
  }

  function ShareOf(total: real): (SeriesKey, real) -> real
    requires total != 0.0
  {
    (k: SeriesKey, v: real) => v / total * 100.0
  }

  function SharePoint(point: ChartPoint): ChartPoint {
    Transform(point, ShareOf(ShareDenominator(point)))
  }

  /** The result of toShare. */
  function ShareSeries(points: seq<ChartPoint>): (r: seq<ChartPoint>)
    ensures |r| == |points|
  {
    Map(points, SharePoint)
  }

  /** toShare: every series a point has becomes a percentage of its total. */
  method ToShare(points: seq<ChartPoint>) returns (result: seq<ChartPoint>)
    ensures result == ShareSeries(points)
  {
    result := [];
    for i := 0 to |points|
      invariant |result| == i
      invariant forall n | 0 <= n < i :: result[n] == SharePoint(points[n])
    {
      var sharePoint := SharePointOf(points[i]);
      result := result + [sharePoint];
    }
  }

  /** The inner loop of toShare, on one point. */
  method SharePointOf(point: ChartPoint) returns (sharePoint: ChartPoint)
    ensures sharePoint == SharePoint(point)
  {
    sharePoint := point;
    var total := if point.total > 0.0 then point.total else 1.0;
    ghost var f := ShareOf(total);
    for j := 0 to |SERIES_KEYS|
      invariant TransformedBefore(sharePoint, point, f, j)
    {
      var key := SERIES_KEYS[j];
      TransformStep(sharePoint, point, f, j);
      if HasSeries(point, key) {
        var value := ReadSeriesValue(point, key).GetOr(0.0);
        sharePoint := WriteSeriesValue(sharePoint, key, value / total * 100.0);
      }
    }
    TransformDone(sharePoint, point, f);
  }

  /** Shares keep the frame and the present series; a present series is its
      value over the total (or over 1 when the total is not positive), times
      100. */
  lemma ShareValue(points: seq<ChartPoint>, i: nat, k: SeriesKey)
    requires i < |points|
    ensures var r := ShareSeries(points);
            SameFrame(r[i], points[i]) && (HasSeries(r[i], k) <==> HasSeries(points[i], k))
            && (HasSeries(points[i], k) ==>
                  ReadSeriesValue(r[i], k).value * ShareDenominator(points[i]) == ReadSeriesValue(points[i], k).value * 100.0)
  {
    var p := points[i];
    var t := ShareDenominator(p);
    if HasSeries(p, k) {
      var v := ReadSeriesValue(p, k).value;
      assert ReadSeriesValue(ShareSeries(points)[i], k).value == v / t * 100.0;
      assert v / t * 100.0 * t == v * 100.0;
    }
  }

  /** When the four parties make up a positive total, the shares of the full
      composition add up to 100. */
  lemma FullSharesSumToHundred(point: TrendPointWithTotal)
    requires point.total > 0
    requires point.republican + point.democratic + point.npa + point.minor == point.total
    ensures var s := SharePoint(FullCompositionPoint(point));
            s.republican + s.democratic + s.npa.value + s.minor.value == 100.0
  {
    var t := point.total as real;
    var s := SharePoint(FullCompositionPoint(point));
    var r, d, n, m := point.republican as real, point.democratic as real, point.npa as real, point.minor as real;
    assert s.republican == r / t * 100.0 && s.democratic == d / t * 100.0;
    assert s.npa.value == n / t * 100.0 && s.minor.value == m / t * 100.0;
    assert r + d + n + m == t;
    assert (r / t + d / t + n / t + m / t) * t == r + d + n + m;
    assert r / t * 100.0 + d / t * 100.0 + n / t * 100.0 + m / t * 100.0 == (r / t + d / t + n / t + m / t) * 100.0;
  }

  // ---------------------------------------------------------------------
  // The axis domain
  // ---------------------------------------------------------------------

  /** The values of `keys` a point has, in key order. */
  function PointValues(point: ChartPoint, keys: seq<SeriesKey>): seq<real> {
    if keys == [] then []
    else
      PointValues(point, keys[..|keys| - 1])
      + (match ReadSeriesValue(point, keys[|keys| - 1]) case None => [] case Some(v) => [v])
  }

  /** The values getDomain collects, point by point. */
  function PresentValues(points: seq<ChartPoint>, keys: seq<SeriesKey>): seq<real> {
    if points == [] then []
    else PresentValues(points[..|points| - 1], keys) + PointValues(points[|points| - 1], keys)
  }

  /** A collected value is the value of a listed key at some point. */
  lemma {:induction false} PointValuesMembers(point: ChartPoint, keys: seq<SeriesKey>, v: real)
    ensures v in PointValues(point, keys) <==> exists j | 0 <= j < |keys| :: ReadSeriesValue(point, keys[j]) == Some(v)
  {
    if keys != [] {
      var init := keys[..|keys| - 1];
      PointValuesMembers(point, init, v);
      if exists j | 0 <= j < |init| :: ReadSeriesValue(point, init[j]) == Some(v) {
        var j :| 0 <= j < |init| && ReadSeriesValue(point, init[j]) == Some(v);
        assert keys[j] == init[j];
      }
      if exists j | 0 <= j < |keys| :: ReadSeriesValue(point, keys[j]) == Some(v) {
        var j :| 0 <= j < |keys| && ReadSeriesValue(point, keys[j]) == Some(v);
        if j < |init| {
          assert init[j] == keys[j];
        }
      }
    }
  }

  /** Math.min(...values). */
  function SeqMin(values: seq<real>): (m: real)
    requires values != []
    ensures m in values && forall v | v in values :: m <= v
  {
    if |values| == 1 then values[0]
    else
      var rest := SeqMin(values[1..]);
      assert values == [values[0]] + values[1..];
      if values[0] <= rest then values[0] else rest
  }

  /** Math.max(...values). */
  function SeqMax(values: seq<real>): (m: real)
    requires values != []
    ensures m in values && forall v | v in values :: v <= m
  {
    if |values| == 1 then values[0]
    else
      var rest := SeqMax(values[1..]);
      assert values == [values[0]] + values[1..];
      if values[0] >= rest then values[0] else rest
  }

  function Abs(x: real): real {
    if x < 0.0 then -x else x
  }

  /** The padded domain of the collected values: [0, 1] with none; a flat
      line padded by max(|min| pct, 1); otherwise the span times pct on each
      side. */
  function Domain(values: seq<real>, paddingPct: real): (real, real) {
    if values == [] then (0.0, 1.0)
    else
      var min := SeqMin(values);
      var max := SeqMax(values);
      if min == max then
        var flat := if Abs(min) * paddingPct > 1.0 then Abs(min) * paddingPct else 1.0;
        (min - flat, max + flat)
      else
        var padding := (max - min) * paddingPct;
        (min - padding, max + padding)
  }

  /** getDomain: the loops collect every present value of the listed keys,
      then the extremes are padded. */
  method GetDomain(points: seq<ChartPoint>, keys: seq<SeriesKey>, paddingPct: real) returns (domain: (real, real))
    ensures domain == Domain(PresentValues(points, keys), paddingPct)
  {
    var values: seq<real> := [];
    for i := 0 to |points|
      invariant values == PresentValues(points[..i], keys)
    {
      var point := points[i];
      for j := 0 to |keys|
        invariant values == PresentValues(points[..i], keys) + PointValues(point, keys[..j])
      {
        var value := ReadSeriesValue(point, keys[j]);
        assert keys[..j + 1][..j] == keys[..j];
        if value.Some? {
          values := values + [value.value];
        }
      }
      assert keys[..|keys|] == keys;
      assert points[..i + 1][..i] == points[..i];
    }
    assert points[..|points|] == points;
    domain := Domain(values, paddingPct);
  }

  /** With a non-negative padding every collected value lies inside the
      domain. */
  lemma DomainContains(values: seq<real>, paddingPct: real, v: real)
    requires paddingPct >= 0.0 && v in values
    ensures Domain(values, paddingPct).0 <= v <= Domain(values, paddingPct).1
  {
    var min := SeqMin(values);
    var max := SeqMax(values);
    assert min <= v <= max;
    assert values != [];
    var d := Domain(values, paddingPct);
    if min == max {
      var flat := if Abs(min) * paddingPct > 1.0 then Abs(min) * paddingPct else 1.0;
      assert flat >= 1.0;
      assert d.0 == min - flat && d.1 == max + flat;
      Widened(min, max, v, flat);
    } else {
      var padding := (max - min) * paddingPct;
      NonNegativeProduct(max - min, paddingPct);
      assert d.0 == min - padding && d.1 == max + padding;
      Widened(min, max, v, padding);
    }
  }

  lemma Widened(lo: real, hi: real, v: real, pad: real)
    requires lo <= v <= hi && pad >= 0.0
    ensures lo - pad <= v <= hi + pad
  {
  }

  lemma NonNegativeProduct(a: real, b: real)
    requires a >= 0.0 && b >= 0.0
    ensures a * b >= 0.0
  {
  }

  /** A flat line gets a domain at least 2 wide, centred on its value. */
  lemma DomainFlatWidth(values: seq<real>, paddingPct: real)
    requires values != [] && SeqMin(values) == SeqMax(values)
    ensures Domain(values, paddingPct).1 - Domain(values, paddingPct).0 >= 2.0
    ensures Domain(values, paddingPct).0 + Domain(values, paddingPct).1 == 2.0 * values[0]
  {
    assert values[0] in values;
  }

  /** No values, the unit domain. */
  lemma DomainOfNothing(points: seq<ChartPoint>, keys: seq<SeriesKey>, paddingPct: real)
    requires forall i, j | 0 <= i < |points| && 0 <= j < |keys| :: !HasSeries(points[i], keys[j])
    ensures Domain(PresentValues(points, keys), paddingPct) == (0.0, 1.0)
  {
    NothingPresent(points, keys);
  }

  lemma {:induction false} NothingPresent(points: seq<ChartPoint>, keys: seq<SeriesKey>)
    requires forall i, j | 0 <= i < |points| && 0 <= j < |keys| :: !HasSeries(points[i], keys[j])
    ensures PresentValues(points, keys) == []
  {
    if points != [] {
      var last := points[|points| - 1];
      NothingPresent(points[..|points| - 1], keys);
      if PointValues(last, keys) != [] {
        var v := PointValues(last, keys)[0];
        PointValuesMembers(last, keys, v);
      }
    }
  }

  // ---------------------------------------------------------------------
  // Delta chips
  // ---------------------------------------------------------------------

  datatype DeltaChip = DeltaChip(
    key: SeriesKey,
    chipLabel: string,
    startValue: real,
    endValue: real,
    delta: real,
    percentChange: real)

  /** The optional argument of getFloridaTrendDeltaChips. */
  datatype DeltaOptions = DeltaOptions(mode: Option<ViewMode>, twoPartyView: Option<bool>, baseKey: Option<string>)

  const DEFAULT_BASE_KEY: string := "2023-01"

  /** buildDelta. */
  function BuildDelta(key: SeriesKey, chipLabel: string, firstValue: real, lastValue: real): (c: DeltaChip)
    ensures c.startValue + c.delta == c.endValue
    ensures firstValue == 0.0 ==> c.percentChange == 0.0
    ensures firstValue != 0.0 ==> c.percentChange * firstValue == c.delta * 100.0
  {
    var delta := lastValue - firstValue;
    DeltaChip(key, chipLabel, firstValue, lastValue, delta, if firstValue == 0.0 then 0.0 else delta / firstValue * 100.0)
  }

  /** The series the chips are built from. */
  function ChipSeries(points: seq<TrendPointWithTotal>, mode: ViewMode, twoPartyView: bool, baseKey: string): (r: seq<ChartPoint>)
    ensures |r| == |points|
  {
    var mapped := if twoPartyView then MapFloridaTrendTwoParty(points) else MapFloridaTrendFullComposition(points);
    match mode
    case IndexedMode => IndexedSeries(mapped, baseKey)
    case ShareMode => ShareSeries(mapped)
    case Absolute => mapped
  }

  /** The three chips from the first and the last transformed point. */
  function ChipsBetween(first: ChartPoint, last: ChartPoint, twoPartyView: bool): (r: seq<DeltaChip>)
    ensures |r| == 3
  {
    var descriptors := if twoPartyView then [(Republican, "Rep"), (Democratic, "Dem"), (Other, "Other")]
                       else [(Republican, "Rep"), (Democratic, "Dem"), (Npa, "NPA")];
    Map(descriptors, (d: (SeriesKey, string)) =>
      BuildDelta(d.0, d.1, ReadSeriesValue(first, d.0).GetOr(0.0), ReadSeriesValue(last, d.0).GetOr(0.0)))
  }

  /** getFloridaTrendDeltaChips. */
  function GetFloridaTrendDeltaChips(points: seq<TrendPointWithTotal>, options: DeltaOptions): (r: seq<DeltaChip>)
    ensures |points| < 2 <==> r == []
    ensures |points| >= 2 ==> |r| == 3
  {
    if |points| < 2 then []
    else
      var twoPartyView := options.twoPartyView.GetOr(false);
      var transformed := ChipSeries(points, options.mode.GetOr(Absolute), twoPartyView, options.baseKey.GetOr(DEFAULT_BASE_KEY));
      ChipsBetween(transformed[0], transformed[|transformed| - 1], twoPartyView)
  }

  /** The chips name Rep, Dem and Other in the two-party view, Rep, Dem and
      NPA otherwise; each runs from the first point's value of its series to
      the last point's (0 for a series the point lacks). */
  lemma ChipsBetweenKeys(first: ChartPoint, last: ChartPoint, twoPartyView: bool)
    ensures var r := ChipsBetween(first, last, twoPartyView);
            r[0].key == Republican && r[1].key == Democratic
            && r[2].key == (if twoPartyView then Other else Npa)
            && r[0].chipLabel == "Rep" && r[1].chipLabel == "Dem"
            && r[2].chipLabel == (if twoPartyView then "Other" else "NPA")
            && forall i | 0 <= i < 3 ::
                 r[i].startValue == ReadSeriesValue(first, r[i].key).GetOr(0.0)
                 && r[i].endValue == ReadSeriesValue(last, r[i].key).GetOr(0.0)
  {
  }

  /** The chips' keys and labels do not depend on the mode. */
  lemma DeltaChipKeys(points: seq<TrendPointWithTotal>, options: DeltaOptions)
    requires |points| >= 2
    ensures var r := GetFloridaTrendDeltaChips(points, options);
            r[0].key == Republican && r[1].key == Democratic
            && r[2].key == (if options.twoPartyView == Some(true) then Other else Npa)
  {
    var twoPartyView := options.twoPartyView.GetOr(false);
    var transformed := ChipSeries(points, options.mode.GetOr(Absolute), twoPartyView, options.baseKey.GetOr(DEFAULT_BASE_KEY));
    ChipsBetweenKeys(transformed[0], transformed[|transformed| - 1], twoPartyView);
  }

  /** In absolute mode each chip runs from the first point's count to the
      last point's, "Other" being NPA plus minor parties. */
  lemma DeltaChipsAbsolute(points: seq<TrendPointWithTotal>, options: DeltaOptions)
    requires |points| >= 2 && options.mode.GetOr(Absolute) == Absolute
    ensures var r := GetFloridaTrendDeltaChips(points, options);
            var first := points[0];
            var last := points[|points| - 1];
            r[0].startValue == first.republican as real && r[0].endValue == last.republican as real
            && r[1].startValue == first.democratic as real && r[1].endValue == last.democratic as real
            && (options.twoPartyView == Some(true) ==>
                  r[2].startValue == (first.npa + first.minor) as real && r[2].endValue == (last.npa + last.minor) as real)
            && (options.twoPartyView != Some(true) ==>
                  r[2].startValue == first.npa as real && r[2].endValue == last.npa as real)
  {
    var twoPartyView := options.twoPartyView.GetOr(false);
    var mapped := ChipSeries(points, Absolute, twoPartyView, options.baseKey.GetOr(DEFAULT_BASE_KEY));
    ChipsBetweenKeys(mapped[0], mapped[|mapped| - 1], twoPartyView);
  }
}
