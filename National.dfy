/**
 * The national party-identification snapshot (app/data/voter-stats/national.ts):
 * the curated Pew rows, the bundled snapshot, the snapshot builder that
 * re-stamps it with a check time and appends diagnostics to its notes, the
 * dimension selector and the chart rows.
 */
module National {
  import opened Wrappers
  import opened VoterTypes

  function Row(group: string, democratic: int, republican: int, independent: int): NationalDemographicRow {
    NationalDemographicRow(group, democratic, republican, independent, 100)
  }

  const PEW_GENDER_SNAPSHOT: seq<NationalDemographicRow> := [
    Row("Men", 46, 52, 2),
    Row("Women", 51, 44, 5)
  ]

  const PEW_AGE_SNAPSHOT: seq<NationalDemographicRow> := [
    Row("18-29", 65, 33, 2),
    Row("30-49", 53, 45, 2),
    Row("50-64", 45, 52, 3),
    Row("65+", 43, 54, 3)
  ]

  /** A curated row's three shares make up its total of 100 percent. */
  predicate AddsUp(row: NationalDemographicRow) {
    row.democratic + row.republican + row.independent == row.total == 100
  }

  /** Every curated Pew row adds up to 100. */
  lemma CuratedRowsAddUp()
    ensures forall row | row in PEW_GENDER_SNAPSHOT :: AddsUp(row)
    ensures forall row | row in PEW_AGE_SNAPSHOT :: AddsUp(row)
  {
    assert PEW_GENDER_SNAPSHOT == [Row("Men", 46, 52, 2), Row("Women", 51, 44, 5)];
  }

  /** The time the bundled snapshot was checked. */
  const NATIONAL_SNAPSHOT_CHECKED: string := "2026-02-08T00:00:00.000Z"

  const SURVEY_NOTE: string :=
    "National values are survey percentages and should not be interpreted as official voter registration counts."

  const SOURCES_NOTE: string :=
    "Pew values are identify/lean snapshots for registered voters; Gallup tracks self-identification trends among U.S. adults."

  const INDEPENDENT_NOTE: string :=
    "Independent percentages represent respondents who do not identify or lean to either major party in this curated snapshot."

  const NATIONAL_METHOD_NOTES: seq<string> := [SURVEY_NOTE, SOURCES_NOTE, INDEPENDENT_NOTE, VOTER_STATS_METHOD_NOTE]

  /** NATIONAL_SOURCE_BASELINES. */
  const NATIONAL_SOURCE_BASELINES: NationalSourceMeta :=
    NationalSourceMeta(PEW_FACT_SHEET_BASELINE, PEW_GENDER_BASELINE, GALLUP_BASELINE)

  /** The three entries of `meta`, each with its lastChecked replaced. */
  function Restamped(meta: NationalSourceMeta, lastChecked: string): NationalSourceMeta {
    NationalSourceMeta(
      meta.pewFactSheet.(lastChecked := lastChecked),
      meta.pewGender.(lastChecked := lastChecked),
      meta.gallupPartyId.(lastChecked := lastChecked))
  }

  /** nationalFallbackPartyId. */
  const NATIONAL_FALLBACK: NationalPartyId := NationalPartyId(
    sourceMeta := Restamped(NATIONAL_SOURCE_BASELINES, NATIONAL_SNAPSHOT_CHECKED),
    byGender := PEW_GENDER_SNAPSHOT,
    byAge := PEW_AGE_SNAPSHOT,
    methodNotes := NATIONAL_METHOD_NOTES,
    lastRefreshed := NATIONAL_SNAPSHOT_CHECKED,
    usedFallback := true)

  /** The optional argument of buildNationalSnapshot; `None` is an absent
      property. */
  datatype NationalOptions = NationalOptions(
    lastChecked: Option<string>,
    diagnostics: Option<seq<string>>,
    usedFallback: Option<bool>)

  /** Every source entry of `meta` is its baseline checked at `lastChecked`. */
  predicate CheckedAt(meta: NationalSourceMeta, lastChecked: string) {
    meta.pewFactSheet == PEW_FACT_SHEET_BASELINE.(lastChecked := lastChecked)
    && meta.pewGender == PEW_GENDER_BASELINE.(lastChecked := lastChecked)
    && meta.gallupPartyId == GALLUP_BASELINE.(lastChecked := lastChecked)
  }

  /** buildNationalSnapshot: the bundled snapshot, its three sources and
      lastRefreshed stamped with the given check time or else `now` (the
      current time); the diagnostics follow the bundled notes; usedFallback
      is true unless stated. The curated rows are served unchanged. */
  function BuildNationalSnapshot(options: NationalOptions, now: string): (r: NationalPartyId)
    ensures var checked := if options.lastChecked.Some? then options.lastChecked.value else now;
            CheckedAt(r.sourceMeta, checked) && r.lastRefreshed == checked
    ensures var diagnostics := if options.diagnostics.Some? then options.diagnostics.value else [];
            |r.methodNotes| == |NATIONAL_METHOD_NOTES| + |diagnostics|
            && r.methodNotes[..|NATIONAL_METHOD_NOTES|] == NATIONAL_METHOD_NOTES
            && r.methodNotes[|NATIONAL_METHOD_NOTES|..] == diagnostics
    ensures r.usedFallback <==> options.usedFallback != Some(false)
    ensures r.byGender == PEW_GENDER_SNAPSHOT && r.byAge == PEW_AGE_SNAPSHOT
  {
    var lastChecked := options.lastChecked.GetOr(now);
    NATIONAL_FALLBACK.(
      sourceMeta := Restamped(NATIONAL_FALLBACK.sourceMeta, lastChecked),
      methodNotes := NATIONAL_FALLBACK.methodNotes + options.diagnostics.GetOr([]),
      lastRefreshed := lastChecked,
      usedFallback := options.usedFallback.GetOr(true))
  }

  /** Building at the bundled check time with no diagnostics gives back the
      bundled snapshot. */
  lemma SnapshotOfFallback(now: string)
    ensures BuildNationalSnapshot(NationalOptions(Some(NATIONAL_SNAPSHOT_CHECKED), None, None), now) == NATIONAL_FALLBACK
  {
    assert NATIONAL_METHOD_NOTES + [] == NATIONAL_METHOD_NOTES;
  }

  /** getNationalRows. */
  function GetNationalRows(national: NationalPartyId, dimension: NationalDemographicDimension)
    : (rows: seq<NationalDemographicRow>)
    ensures dimension == Age ==> rows == national.byAge
    ensures dimension == Gender ==> rows == national.byGender
  {
    if dimension == Age then national.byAge else national.byGender
  }

  /** A chart row; `independent` is present only when asked for. */
  datatype NationalChartDatum = NationalChartDatum(
    group: string,
    democratic: int,
    republican: int,
    independent: Option<int>)

  function ChartDatum(row: NationalDemographicRow, includeIndependent: bool): NationalChartDatum {
    NationalChartDatum(row.group, row.democratic, row.republican,
                       if includeIndependent then Some(row.independent) else None)
  }

  /** buildNationalChartData: one chart row per input row, in order, with the
      group and the two party shares, and the independent share exactly when
      `includeIndependent`. */
  function BuildNationalChartData(rows: seq<NationalDemographicRow>, includeIndependent: bool)
    : (r: seq<NationalChartDatum>)
    ensures |r| == |rows|
    ensures forall i | 0 <= i < |r| ::
              r[i].group == rows[i].group && r[i].democratic == rows[i].democratic
              && r[i].republican == rows[i].republican
              && (r[i].independent.Some? <==> includeIndependent)
              && (includeIndependent ==> r[i].independent.value == rows[i].independent)
  {
    seq(|rows|, i requires 0 <= i < |rows| => ChartDatum(rows[i], includeIndependent))
  }

  /** The chart rows of a dimension of the curated snapshot sum to 100 when the
      independent share is shown. */
  lemma ChartRowsAddUp(national: NationalPartyId, dimension: NationalDemographicDimension)
    requires national.byGender == PEW_GENDER_SNAPSHOT && national.byAge == PEW_AGE_SNAPSHOT
    ensures var r := BuildNationalChartData(GetNationalRows(national, dimension), true);
            forall i | 0 <= i < |r| :: r[i].democratic + r[i].republican + r[i].independent.value == 100
  {
    CuratedRowsAddUp();
    var rows := GetNationalRows(national, dimension);
    forall i | 0 <= i < |rows| ensures AddsUp(rows[i]) {
      assert rows[i] in rows;
    }
  }
}
