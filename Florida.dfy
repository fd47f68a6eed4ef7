/**
 * Assembly of the Florida snapshot (app/data/voter-stats/florida.ts): the
 * parsed payload, the source metadata, the registration record and its
 * bundled fallback, the composition rows of the party chart and the county
 * ranking of the county explorer.
 */
module Florida {
  import opened Wrappers
  import opened JsString
  import opened JsArray
  import opened Sorting
  import opened VoterTypes
  import opened FloridaText
  import opened FloridaParser

  // ---------------------------------------------------------------------
  // Payload and registration
  // ---------------------------------------------------------------------

  datatype ParsedPayload = ParsedPayload(
    totals: FloridaPartyTotals,
    counties: seq<FloridaCountyRegistration>,
    asOfDate: string)

  /** parseFloridaPayload: nothing without statewide totals or without a
      county row; the party page's date wins unless it is "Unknown". */
  function ParseFloridaPayload(partyContent: string, countyContent: string,
                               dateOf: string -> Option<CalendarDate>): (r: Option<ParsedPayload>)
    ensures r.None? <==> ParsePartyTotals(partyContent).None? || CountyRows(countyContent) == []
    ensures r.Some? ==> r.value.totals == ParsePartyTotals(partyContent).value
    ensures r.Some? ==> r.value.counties == CountyRows(countyContent)
  {
    var totals := ParsePartyTotals(partyContent);
    var counties := CountyRows(countyContent);
    if totals.None? || |counties| == 0 then None
    else
      var partyAsOf := ExtractAsOfDate(partyContent, dateOf);
      var countyAsOf := ExtractAsOfDate(countyContent, dateOf);
      Some(ParsedPayload(totals.value, counties, if partyAsOf != UNKNOWN_DATE then partyAsOf else countyAsOf))
  }

  /** The date of the payload is that of the party page when that page names
      one, that of the county page otherwise; it is "Unknown" only when
      neither page matches a date pattern. */
  lemma PayloadAsOfDate(partyContent: string, countyContent: string, dateOf: string -> Option<CalendarDate>)
    requires ParseFloridaPayload(partyContent, countyContent, dateOf).Some?
    ensures var d := ParseFloridaPayload(partyContent, countyContent, dateOf).value.asOfDate;
            var partyAsOf := ExtractAsOfDate(partyContent, dateOf);
            (partyAsOf != UNKNOWN_DATE ==> d == partyAsOf)
            && (partyAsOf == UNKNOWN_DATE ==> d == ExtractAsOfDate(countyContent, dateOf))
    ensures var d := ParseFloridaPayload(partyContent, countyContent, dateOf).value.asOfDate;
            var party := FlattenHtmlToText(partyContent);
            var county := FlattenHtmlToText(countyContent);
            var unknown := FirstMatch(party, MonthDateAt).None? && FirstMatch(party, NumericDateAt).None?
                           && FirstMatch(county, MonthDateAt).None? && FirstMatch(county, NumericDateAt).None?;
            d == UNKNOWN_DATE <==> unknown
  {
    ExtractAsOfDateUnknown(partyContent, dateOf);
    ExtractAsOfDateUnknown(countyContent, dateOf);
  }

  /** mergeSourceMeta: each baseline stamped with the date and the check time. */
  function MergeSourceMeta(lastChecked: string, asOfDate: string): (m: FloridaSourceMeta)
    ensures m.partyTotals.asOfDate == asOfDate && m.partyTotals.lastChecked == lastChecked
    ensures m.countyBreakdown.asOfDate == asOfDate && m.countyBreakdown.lastChecked == lastChecked
    ensures SameSource(m.partyTotals, FLORIDA_PARTY_BASELINE)
    ensures SameSource(m.countyBreakdown, FLORIDA_COUNTY_BASELINE)
  {
    FloridaSourceMeta(
      FLORIDA_PARTY_BASELINE.(asOfDate := asOfDate, lastChecked := lastChecked),
      FLORIDA_COUNTY_BASELINE.(asOfDate := asOfDate, lastChecked := lastChecked))
  }

  /** Two descriptions name the same source: they differ at most in their
      date and check time. */
  predicate SameSource(a: DatasetMeta, b: DatasetMeta) {
    a.id == b.id && a.name == b.name && a.publisher == b.publisher && a.url == b.url && a.notes == b.notes
  }

  /** The metadata records exactly the date and the check time it was given,
      and the two sources it describes are distinct. */
  lemma MergeSourceMetaInjective(c1: string, d1: string, c2: string, d2: string)
    ensures MergeSourceMeta(c1, d1) == MergeSourceMeta(c2, d2) <==> c1 == c2 && d1 == d2
    ensures MergeSourceMeta(c1, d1).partyTotals.id != MergeSourceMeta(c1, d1).countyBreakdown.id
  {
    var a := MergeSourceMeta(c1, d1).partyTotals.id;
    var b := MergeSourceMeta(c1, d1).countyBreakdown.id;
    assert a[7] == 'p' && b[7] == 'c';
  }

  /** The optional argument of buildFloridaRegistration; `None` is an absent
      property. */
  datatype BuildOptions = BuildOptions(
    lastChecked: Option<string>,
    usedFallback: Option<bool>,
    diagnostics: Option<seq<string>>)

  const NO_OPTIONS: BuildOptions := BuildOptions(None, None, None)

  const FLORIDA_ATTRIBUTION_NOTE: string :=
    "Florida registration counts are official administrative records from the Florida Division of Elections."

  /** The record buildFloridaRegistration makes of a parsed payload. */
  function RegistrationOf(parsed: ParsedPayload, options: BuildOptions, now: string): FloridaRegistration {
    var lastChecked := options.lastChecked.GetOr(now);
    FloridaRegistration(
      totals := parsed.totals,
      byCounty := parsed.counties,
      sourceMeta := MergeSourceMeta(lastChecked, parsed.asOfDate),
      notes := [FLORIDA_ATTRIBUTION_NOTE, VOTER_STATS_METHOD_NOTE] + options.diagnostics.GetOr([]),
      lastRefreshed := lastChecked,
      usedFallback := options.usedFallback.GetOr(false))
  }

  /** The record keeps the payload; the check time is the given one or else
      the current time, and both source entries and lastRefreshed carry it;
      the notes are the attribution and the method note followed by the
      diagnostics in order; usedFallback is false unless stated. */
  lemma RegistrationFields(parsed: ParsedPayload, options: BuildOptions, now: string)
    ensures var reg := RegistrationOf(parsed, options, now);
            reg.totals == parsed.totals && reg.byCounty == parsed.counties
            && reg.sourceMeta.partyTotals.asOfDate == parsed.asOfDate
            && reg.sourceMeta.countyBreakdown.asOfDate == parsed.asOfDate
    ensures var reg := RegistrationOf(parsed, options, now);
            var checked := if options.lastChecked.Some? then options.lastChecked.value else now;
            reg.lastRefreshed == checked
            && reg.sourceMeta.partyTotals.lastChecked == checked
            && reg.sourceMeta.countyBreakdown.lastChecked == checked
            && SameSource(reg.sourceMeta.partyTotals, FLORIDA_PARTY_BASELINE)
            && SameSource(reg.sourceMeta.countyBreakdown, FLORIDA_COUNTY_BASELINE)
    ensures var reg := RegistrationOf(parsed, options, now);
            var diagnostics := if options.diagnostics.Some? then options.diagnostics.value else [];
            |reg.notes| == 2 + |diagnostics|
            && reg.notes[0] == FLORIDA_ATTRIBUTION_NOTE && reg.notes[1] == VOTER_STATS_METHOD_NOTE
            && reg.notes[2..] == diagnostics
    ensures RegistrationOf(parsed, options, now).usedFallback <==> options.usedFallback == Some(true)
  {
  }

  /** buildFloridaRegistration. `now` is `new Date().toISOString()`, read
      only when no check time is given. */
  function BuildFloridaRegistration(partyContent: string, countyContent: string, options: BuildOptions,
                                    now: string, dateOf: string -> Option<CalendarDate>): (r: Option<FloridaRegistration>)
    ensures var parsed := ParseFloridaPayload(partyContent, countyContent, dateOf);
            (r.None? <==> parsed.None?)
            && (r.Some? ==> r.value == RegistrationOf(parsed.value, options, now))
  {
    match ParseFloridaPayload(partyContent, countyContent, dateOf)
    case None => None
    case Some(parsed) => Some(RegistrationOf(parsed, options, now))
  }

  /** A built registration is stamped with the given check time, or else the
      current time, in lastRefreshed and both source entries. */
  lemma RegistrationStamped(partyContent: string, countyContent: string, options: BuildOptions,
                            now: string, dateOf: string -> Option<CalendarDate>)
    ensures var r := BuildFloridaRegistration(partyContent, countyContent, options, now, dateOf);
            var checked := if options.lastChecked.Some? then options.lastChecked.value else now;
            r.Some? ==> r.value.lastRefreshed == checked
                        && r.value.sourceMeta.partyTotals.lastChecked == checked
                        && r.value.sourceMeta.countyBreakdown.lastChecked == checked
  {
  }

  /** The registration exists exactly when the party page yields totals and
      the county page yields at least one county. */
  lemma RegistrationNullIff(partyContent: string, countyContent: string, options: BuildOptions,
                            now: string, dateOf: string -> Option<CalendarDate>)
    ensures var none := ParsePartyTotals(partyContent).None? || CountyRows(countyContent) == [];
            BuildFloridaRegistration(partyContent, countyContent, options, now, dateOf).None? <==> none
  {
  }

  /** The counties of a registration are sorted by total, largest first, and
      each carries shares that are its counts over its total. */
  lemma RegistrationCountiesSorted(partyContent: string, countyContent: string, options: BuildOptions,
                                   now: string, dateOf: string -> Option<CalendarDate>)
    requires BuildFloridaRegistration(partyContent, countyContent, options, now, dateOf).Some?
    ensures var reg := BuildFloridaRegistration(partyContent, countyContent, options, now, dateOf).value;
            reg.byCounty != [] && SortedDesc(reg.byCounty, RowTotal)
            && forall row | row in reg.byCounty :: HasShares(row)
  {
    CountyRowsSorted(countyContent);
  }

  // ---------------------------------------------------------------------
  // The bundled fallback
  // ---------------------------------------------------------------------

  /** The time the bundled snapshot was taken. */
  const FALLBACK_CHECKED: string := "2026-02-08T00:00:00.000Z"

  const FALLBACK_LOADED_NOTE: string := "Loaded bundled Florida fallback snapshot."

  const FALLBACK_UNPARSED_NOTE: string :=
    "Fallback snapshot could not be parsed; totals are hardcoded from Florida DOS report."

  const FALLBACK_TOTALS: FloridaPartyTotals :=
    FloridaPartyTotals(republican := 5509354, democratic := 4330372, npa := 3847473, minor := 403778, total := 14091977)

  /** The record used when the bundled pages do not parse. */
  const HARDCODED_FALLBACK: FloridaRegistration := FloridaRegistration(
    totals := FALLBACK_TOTALS,
    byCounty := [],
    sourceMeta := MergeSourceMeta(FALLBACK_CHECKED, "2025-12-31"),
    notes := [FALLBACK_UNPARSED_NOTE, VOTER_STATS_METHOD_NOTE],
    lastRefreshed := FALLBACK_CHECKED,
    usedFallback := true)

  /** The options the bundled pages are built with. */
  const FALLBACK_OPTIONS: BuildOptions :=
    BuildOptions(Some(FALLBACK_CHECKED), Some(true), Some([FALLBACK_LOADED_NOTE]))

  /** floridaFallbackRegistration, for the bundled pages `partyText` and
      `countyText` (FLORIDA_PARTY_FALLBACK_TEXT and
      FLORIDA_COUNTY_FALLBACK_TEXT below): the pages run through the builder
      with the snapshot's check time, or the hardcoded record when they do not
      parse. `now` is never read, since a check time is given. */
  function FloridaFallbackRegistration(partyText: string, countyText: string, now: string,
                                       dateOf: string -> Option<CalendarDate>): (r: FloridaRegistration)
    ensures var built := BuildFloridaRegistration(partyText, countyText, FALLBACK_OPTIONS, now, dateOf);
            (built.Some? ==> r == built.value) && (built.None? ==> r == HARDCODED_FALLBACK)
  {
    var built := BuildFloridaRegistration(partyText, countyText, FALLBACK_OPTIONS, now, dateOf);
    if built.Some? then built.value else HARDCODED_FALLBACK
  }

  /** Whichever branch is taken, the fallback is marked as such and was
      checked at the snapshot time. */
  lemma FallbackFields(partyText: string, countyText: string, now: string, dateOf: string -> Option<CalendarDate>)
    ensures var r := FloridaFallbackRegistration(partyText, countyText, now, dateOf);
            r.usedFallback && r.lastRefreshed == FALLBACK_CHECKED
            && r.sourceMeta.partyTotals.lastChecked == FALLBACK_CHECKED
            && r.sourceMeta.countyBreakdown.lastChecked == FALLBACK_CHECKED
  {
    var built := BuildFloridaRegistration(partyText, countyText, FALLBACK_OPTIONS, now, dateOf);
    if built.Some? {
      FallbackOfParsed(ParseFloridaPayload(partyText, countyText, dateOf).value, now);
    }
  }

  /** After a successful parse the fallback's notes are the two standard notes
      and the loading diagnostic; otherwise they are the hardcoded-totals note
      and the method note, with the hardcoded totals and no counties. */
  lemma FallbackNotes(partyText: string, countyText: string, now: string, dateOf: string -> Option<CalendarDate>)
    ensures var r := FloridaFallbackRegistration(partyText, countyText, now, dateOf);
            var parsed := ParseFloridaPayload(partyText, countyText, dateOf);
            (parsed.Some? ==> r.notes == [FLORIDA_ATTRIBUTION_NOTE, VOTER_STATS_METHOD_NOTE, FALLBACK_LOADED_NOTE]
                              && r.totals == parsed.value.totals && r.byCounty == parsed.value.counties)
            && (parsed.None? ==> r.notes == [FALLBACK_UNPARSED_NOTE, VOTER_STATS_METHOD_NOTE]
                                 && r.totals == FALLBACK_TOTALS && r.byCounty == [])
  {
    var parsed := ParseFloridaPayload(partyText, countyText, dateOf);
    if parsed.Some? {
      FallbackOfParsed(parsed.value, now);
    }
  }

  /** The bundled pages' record, once parsed. */
  lemma FallbackOfParsed(parsed: ParsedPayload, now: string)
    ensures var reg := RegistrationOf(parsed, FALLBACK_OPTIONS, now);
            reg.notes == [FLORIDA_ATTRIBUTION_NOTE, VOTER_STATS_METHOD_NOTE, FALLBACK_LOADED_NOTE]
            && reg.usedFallback && reg.lastRefreshed == FALLBACK_CHECKED
            && reg.sourceMeta.partyTotals.lastChecked == FALLBACK_CHECKED
            && reg.sourceMeta.countyBreakdown.lastChecked == FALLBACK_CHECKED
            && reg.totals == parsed.totals && reg.byCounty == parsed.counties
  {
    RegistrationFields(parsed, FALLBACK_OPTIONS, now);
    assert [FLORIDA_ATTRIBUTION_NOTE, VOTER_STATS_METHOD_NOTE] + [FALLBACK_LOADED_NOTE]
        == [FLORIDA_ATTRIBUTION_NOTE, VOTER_STATS_METHOD_NOTE, FALLBACK_LOADED_NOTE];
  }

  /** The bundled party page. */
  const FLORIDA_PARTY_FALLBACK_TEXT: string :=
    "\n"
    + "Data as of December 31, 2025.\n"
    + "Year Republican Democratic Minor No Party Affiliation Total\n"
    + "2025 5,509,354 4,330,372 403,778 3,847,473 14,091,977\n"

  const FLORIDA_COUNTY_FALLBACK_TEXT: string :=
    "\n"
    + "Data as of December 31, 2025\n"
    + "County Republican Democratic Minor No Party Affiliation Total\n"
    + "ALACHUA 47,605 73,487 4,274 52,342 177,708\n"
    + "BAKER 7,867 2,585 164 1,939 12,555\n"
    + "BAY 67,370 32,971 2,396 36,458 139,195\n"
    + "BRADFORD 8,724 2,695 217 2,205 13,841\n"
    + "BREVARD 228,217 146,168 11,918 145,779 532,082\n"
    + "BROWARD 284,358 605,495 38,056 283,128 1,211,037\n"
    + "CALHOUN 4,413 1,913 197 1,630 8,153\n"
    + "CHARLOTTE 67,435 39,374 2,678 34,757 144,244\n"
    + "CITRUS 51,286 30,240 2,182 25,031 108,739\n"
    + "CLAY 84,038 35,430 2,502 45,422 167,392\n"
    + "COLLIER 120,542 89,523 6,594 82,476 299,135\n"
    + "COLUMBIA 24,697 10,659 850 8,862 45,068\n"
    + "DESOTO 8,469 8,478 1,169 7,286 25,402\n"
    + "DIXIE 6,766 2,356 193 1,565 10,880\n"
    + "DUVAL 287,878 285,841 22,372 207,689 803,780\n"
    + "ESCAMBIA 101,415 68,631 5,823 49,378 225,247\n"
    + "FLAGLER 43,026 27,684 2,111 26,393 99,214\n"
    + "FRANKLIN 3,623 1,617 157 1,304 6,701\n"
    + "GADSDEN 8,993 26,843 1,533 7,580 44,949\n"
    + "GILCHRIST 6,861 2,502 176 1,961 11,500\n"
    + "GLADES 4,224 1,825 214 1,601 7,864\n"
    + "GULF 5,972 3,042 198 2,447 11,659\n"
    + "HAMILTON 3,468 3,367 194 1,878 8,907\n"
    + "HARDEE 8,005 6,260 716 6,088 21,069\n"
    + "HENDRY 9,527 8,063 950 7,145 25,685\n"
    + "HERNANDO 62,208 36,586 3,479 31,658 133,931\n"
    + "HIGHLANDS 31,073 18,690 1,709 16,552 68,024\n"
    + "HILLSBOROUGH 322,869 309,029 27,276 245,424 904,598\n"
    + "HOLMES 7,721 1,938 182 1,731 11,572\n"
    + "INDIAN RIVER 58,134 43,383 3,248 30,511 135,276\n"
    + "JACKSON 15,104 5,647 510 5,056 26,317\n"
    + "JEFFERSON 2,698 4,917 286 1,993 9,894\n"
    + "LAFAYETTE 3,266 988 65 849 5,168\n"
    + "LAKE 150,193 92,225 7,199 90,886 340,503\n"
    + "LEE 252,995 154,595 13,403 159,100 580,093\n"
    + "LEON 67,269 112,236 8,174 67,697 255,376\n"
    + "LEVY 15,632 6,725 448 5,233 28,038\n"
    + "LIBERTY 2,749 1,226 72 918 4,965\n"
    + "MADISON 4,502 5,435 395 2,356 12,688\n"
    + "MANATEE 141,828 108,104 8,213 90,596 348,741\n"
    + "MARION 137,577 76,165 5,587 79,729 299,058\n"
    + "MARTIN 59,322 34,705 2,765 37,339 134,131\n"
    + "MIAMI-DADE 444,220 580,642 37,186 420,778 1,482,826\n"
    + "MONROE 22,610 20,575 2,018 19,047 64,250\n"
    + "NASSAU 39,960 16,818 1,186 20,464 78,428\n"
    + "OKALOOSA 91,647 45,538 3,591 45,886 186,662\n"
    + "OKEECHOBEE 10,304 5,262 501 4,716 20,783\n"
    + "ORANGE 229,523 343,411 26,214 308,352 907,500\n"
    + "OSCEOLA 86,102 111,173 10,981 95,702 303,958\n"
    + "PALM BEACH 290,348 363,515 30,397 283,519 967,779\n"
    + "PASCO 210,917 125,804 9,966 118,773 465,460\n"
    + "PINELLAS 240,777 233,412 18,149 179,365 671,703\n"
    + "POLK 218,489 161,289 12,694 140,995 533,467\n"
    + "PUTNAM 26,254 11,906 944 10,445 49,549\n"
    + "ST. JOHNS 123,090 68,212 4,883 72,317 268,502\n"
    + "ST. LUCIE 95,775 95,768 8,369 82,535 282,447\n"
    + "SANTA ROSA 82,231 35,823 2,654 32,950 153,658\n"
    + "SARASOTA 148,155 112,037 8,188 87,040 355,420\n"
    + "SEMINOLE 123,274 116,163 9,450 92,668 341,555\n"
    + "SUMTER 63,338 37,584 2,851 25,177 128,950\n"
    + "SUWANNEE 14,184 7,558 450 5,412 27,604\n"
    + "TAYLOR 8,794 3,615 224 2,339 14,972\n"
    + "UNION 5,655 1,506 102 1,066 8,329\n"
    + "VOLUSIA 176,412 145,670 10,714 109,766 442,562\n"
    + "WAKULLA 13,091 6,678 493 4,971 25,233\n"
    + "WALTON 31,016 11,912 900 12,539 56,367\n"
    + "WASHINGTON 9,596 3,215 227 2,595 15,633\n"
    + "TOTALS 5,509,354 4,330,372 403,778 3,847,473 14,091,977\n"

  /** The hardcoded totals do not add up: the four parties come to 1,000
      fewer voters than the stated total (the bundled TOTALS line carries the
      same figures). */
  lemma FallbackTotalsGap()
    ensures FALLBACK_TOTALS.republican + FALLBACK_TOTALS.democratic + FALLBACK_TOTALS.npa + FALLBACK_TOTALS.minor + 1000
            == FALLBACK_TOTALS.total
  {
  }

  // ---------------------------------------------------------------------
  // Composition chart
  // ---------------------------------------------------------------------

  datatype CompositionKey = RepublicanKey | DemocraticKey | NpaKey | MinorKey | OtherKey

  datatype CompositionDatum = CompositionDatum(
    key: CompositionKey,
    partyLabel: string,
    value: nat,
    percent: real,
    color: string)

  /** PARTY_COLORS. */
  function PartyColor(key: CompositionKey): string {
    match key
    case RepublicanKey => "#1f3a5f"
    case DemocraticKey => "#5f7ea6"
    case NpaKey => "#a9b7cc"
    case MinorKey => "#b24c57"
    case OtherKey => "#8f9bb0"
  }

  /** The label each row key is shown with. */
  function PartyLabel(key: CompositionKey): string {
    match key
    case RepublicanKey => "Republican"
    case DemocraticKey => "Democratic"
    case NpaKey => "No Party Affiliation"
    case MinorKey => "Minor Parties"
    case OtherKey => "Other (NPA + Minor)"
  }

  /** One chart row, its percent a fraction of the total. */
  function Datum(key: CompositionKey, value: nat, total: nat): CompositionDatum
    requires total > 0
  {
    CompositionDatum(key, PartyLabel(key), value, value as real / total as real, PartyColor(key))
  }

  /** buildFloridaCompositionData. */
  function BuildFloridaCompositionData(totals: FloridaPartyTotals, twoPartyView: bool): (r: seq<CompositionDatum>)
    ensures totals.total == 0 <==> r == []
    ensures totals.total > 0 ==> |r| == if twoPartyView then 3 else 4
    ensures forall i | 0 <= i < |r| :: r[i].percent * totals.total as real == r[i].value as real
    ensures forall i | 0 <= i < |r| :: r[i].color == PartyColor(r[i].key) && r[i].partyLabel == PartyLabel(r[i].key)
  {
    var t := totals.total;
    if t == 0 then []
    else if twoPartyView then
      [Datum(RepublicanKey, totals.republican, t), Datum(DemocraticKey, totals.democratic, t),
       Datum(OtherKey, totals.npa + totals.minor, t)]
    else
      [Datum(RepublicanKey, totals.republican, t), Datum(DemocraticKey, totals.democratic, t),
       Datum(NpaKey, totals.npa, t), Datum(MinorKey, totals.minor, t)]
  }

  function RowKeys(rows: seq<CompositionDatum>): seq<CompositionKey> {
    Map(rows, (d: CompositionDatum) => d.key)
  }

  function RowValues(rows: seq<CompositionDatum>): seq<nat> {
    Map(rows, (d: CompositionDatum) => d.value)
  }

  function SumValues(rows: seq<CompositionDatum>): nat {
    if rows == [] then 0 else rows[0].value + SumValues(rows[1..])
  }

  function SumPercents(rows: seq<CompositionDatum>): real {
    if rows == [] then 0.0 else rows[0].percent + SumPercents(rows[1..])
  }

  /** The rows come in a fixed order and carry the party counts: "other" is
      NPA plus minor parties in the two-party view. */
  lemma CompositionRows(totals: FloridaPartyTotals, twoPartyView: bool)
    requires totals.total > 0
    ensures var r := BuildFloridaCompositionData(totals, twoPartyView);
            twoPartyView ==> RowKeys(r) == [RepublicanKey, DemocraticKey, OtherKey]
                             && RowValues(r) == [totals.republican, totals.democratic, totals.npa + totals.minor]
    ensures var r := BuildFloridaCompositionData(totals, twoPartyView);
            !twoPartyView ==> RowKeys(r) == [RepublicanKey, DemocraticKey, NpaKey, MinorKey]
                              && RowValues(r) == [totals.republican, totals.democratic, totals.npa, totals.minor]
  {
  }

  /** Both views count the same voters: when the four parties make up the
      total, the values sum to the total and the percents to one. */
  lemma {:induction false} CompositionPercentsSum(totals: FloridaPartyTotals, twoPartyView: bool)
    requires totals.total > 0
    requires totals.republican + totals.democratic + totals.npa + totals.minor == totals.total
    ensures SumValues(BuildFloridaCompositionData(totals, twoPartyView)) == totals.total
    ensures SumPercents(BuildFloridaCompositionData(totals, twoPartyView)) == 1.0
  {
    var r := BuildFloridaCompositionData(totals, twoPartyView);
    CompositionValuesSum(totals, twoPartyView);
    CompositionScaled(totals, twoPartyView);
    PercentsOfWhole(r, totals.total as real);
  }

  lemma CompositionScaled(totals: FloridaPartyTotals, twoPartyView: bool)
    requires totals.total > 0
    ensures var r := BuildFloridaCompositionData(totals, twoPartyView);
            SumPercents(r) * totals.total as real == SumValues(r) as real
  {
    SumPercentsScaled(BuildFloridaCompositionData(totals, twoPartyView), totals.total as real);
  }

  /** Fractions of a whole that scale back to it sum to one. */
  lemma {:induction false} PercentsOfWhole(r: seq<CompositionDatum>, t: real)
    requires t > 0.0
    requires SumPercents(r) * t == SumValues(r) as real
    requires SumValues(r) as real == t
    ensures SumPercents(r) == 1.0
  {
    UnitFactor(SumPercents(r), t, SumValues(r) as real);
  }

  lemma CompositionValuesSum(totals: FloridaPartyTotals, twoPartyView: bool)
    requires totals.total > 0
    requires totals.republican + totals.democratic + totals.npa + totals.minor == totals.total
    ensures SumValues(BuildFloridaCompositionData(totals, twoPartyView)) == totals.total
  {
    var r := BuildFloridaCompositionData(totals, twoPartyView);
    if twoPartyView {
      SumOfThree(r);
    } else {
      SumOfFour(r);
    }
  }

  lemma UnitFactor(x: real, t: real, y: real)
    requires t > 0.0 && x * t == y && y == t
    ensures x == 1.0
  {
    assert (x - 1.0) * t == 0.0;
  }

  lemma SumOfThree(r: seq<CompositionDatum>)
    requires |r| == 3
    ensures SumValues(r) == r[0].value + r[1].value + r[2].value
  {
    assert SumValues(r[1..][1..][1..]) == 0;
    assert SumValues(r[1..][1..]) == r[2].value;
    assert SumValues(r[1..]) == r[1].value + r[2].value;
  }

  lemma SumOfFour(r: seq<CompositionDatum>)
    requires |r| == 4
    ensures SumValues(r) == r[0].value + r[1].value + r[2].value + r[3].value
  {
    SumOfThree(r[1..]);
  }

  /** The percents scale back to the values. */
  lemma {:induction false} SumPercentsScaled(rows: seq<CompositionDatum>, t: real)
    requires t > 0.0
    requires forall i | 0 <= i < |rows| :: rows[i].percent * t == rows[i].value as real
    ensures SumPercents(rows) * t == SumValues(rows) as real
  {
    if rows != [] {
      SumPercentsScaled(rows[1..], t);
      assert (rows[0].percent + SumPercents(rows[1..])) * t == rows[0].percent * t + SumPercents(rows[1..]) * t;
    }
  }

  // ---------------------------------------------------------------------
  // County ranking
  // ---------------------------------------------------------------------

  /** FloridaCountySortKey. */
  datatype CountySortKey = ByRepublican | ByDemocratic | ByNpa | ByTotal | ByRepShare | ByDemShare

  /** `row[sortKey]`. */
  function SortValue(key: CountySortKey, row: FloridaCountyRegistration): real {
    match key
    case ByRepublican => row.republican as real
    case ByDemocratic => row.democratic as real
    case ByNpa => row.npa as real
    case ByTotal => row.total as real
    case ByRepShare => row.repShare
    case ByDemShare => row.demShare
  }

  function KeyOf(key: CountySortKey): FloridaCountyRegistration -> real {
    row => SortValue(key, row)
  }

  /** `query.trim().toLowerCase()`. */
  function NormalizedQuery(query: string): string {
    ToLower(Trim(query))
  }

  /** The county's lower-cased name contains the query. */
  predicate MatchesQuery(q: string, row: FloridaCountyRegistration) {
    Includes(ToLower(row.county), q)
  }

  function Matcher(q: string): FloridaCountyRegistration -> bool {
    row => MatchesQuery(q, row)
  }

  /** The rows shown when the list is collapsed. */
  const RANKING_PREVIEW: nat := 10

  /** The rows the ranking draws from: those matching the normalized query,
      or all rows when the query is blank. */
  function RankingCandidates(counties: seq<FloridaCountyRegistration>, query: string): (r: seq<FloridaCountyRegistration>)
    ensures multiset(r) <= multiset(counties)
    ensures NormalizedQuery(query) == [] ==> r == counties
    ensures NormalizedQuery(query) != [] ==>
              forall x :: x in r <==> x in counties && MatchesQuery(NormalizedQuery(query), x)
    ensures NormalizedQuery(query) != [] ==>
              forall x :: multiset(r)[x] == if MatchesQuery(NormalizedQuery(query), x) then multiset(counties)[x] else 0
  {
    var q := NormalizedQuery(query);
    if q != [] then FilterCount(counties, Matcher(q)); Filter(counties, Matcher(q)) else counties
  }

  /** getCountyRanking: filter by the normalized query when it is not empty,
      sort a copy by the key, largest first, and keep the first ten only when
      there is no query and the full list was not asked for. */
  function GetCountyRanking(counties: seq<FloridaCountyRegistration>, query: string,
                            sortKey: CountySortKey, viewAll: bool): (r: seq<FloridaCountyRegistration>)
    ensures SortedDesc(r, KeyOf(sortKey))
    ensures multiset(r) <= multiset(counties)
  {
    var q := NormalizedQuery(query);
    var sorted := SortDesc(RankingCandidates(counties, query), KeyOf(sortKey));
    if viewAll || |q| > 0 then sorted
    else
      PrefixSorted(sorted, RANKING_PREVIEW, KeyOf(sortKey));
      Take(sorted, RANKING_PREVIEW)
  }

  /** A prefix of an ordered sequence is ordered and holds part of it. */
  lemma PrefixSorted<T>(s: seq<T>, n: nat, key: T -> real)
    requires SortedDesc(s, key)
    ensures SortedDesc(Take(s, n), key)
    ensures multiset(Take(s, n)) <= multiset(s)
  {
    if n < |s| {
      assert s == s[..n] + s[n..];
    }
  }

  /** With a query or the full list asked for, the ranking is the candidates,
      all of them, reordered: a permutation that keeps the input order of rows
      with equal keys. */
  lemma RankingIsSortedCandidates(counties: seq<FloridaCountyRegistration>, query: string,
                                  sortKey: CountySortKey, viewAll: bool, k: real)
    requires viewAll || NormalizedQuery(query) != []
    ensures var r := GetCountyRanking(counties, query, sortKey, viewAll);
            multiset(r) == multiset(RankingCandidates(counties, query))
            && WithKey(r, KeyOf(sortKey), k) == WithKey(RankingCandidates(counties, query), KeyOf(sortKey), k)
  {
    SortDescStable(RankingCandidates(counties, query), KeyOf(sortKey), k);
  }

  /** With a query or the full list asked for, the ranking holds every
      matching row of the input as often as the input does and no other row,
      and rows with equal keys appear in their input order. */
  lemma RankingIsSortedMatches(counties: seq<FloridaCountyRegistration>, query: string,
                               sortKey: CountySortKey, viewAll: bool, k: real)
    requires viewAll || NormalizedQuery(query) != []
    ensures var q := NormalizedQuery(query);
            var r := GetCountyRanking(counties, query, sortKey, viewAll);
            (forall x :: multiset(r)[x] == if q == [] || MatchesQuery(q, x) then multiset(counties)[x] else 0)
            && WithKey(r, KeyOf(sortKey), k)
               == if q == [] then WithKey(counties, KeyOf(sortKey), k)
                  else Filter(WithKey(counties, KeyOf(sortKey), k), Matcher(q))
  {
    RankingIsSortedCandidates(counties, query, sortKey, viewAll, k);
    var q := NormalizedQuery(query);
    if q != [] {
      WithKeyFilter(counties, Matcher(q), KeyOf(sortKey), k);
    }
  }

  /** The rows of one key among the filtered rows are the filtered rows of
      that key. */
  lemma {:induction false} WithKeyFilter<T>(s: seq<T>, p: T -> bool, key: T -> real, k: real)
    ensures WithKey(Filter(s, p), key, k) == Filter(WithKey(s, key, k), p)
    decreases |s|
  {
    if s != [] {
      var h, t := s[0], s[1..];
      assert s == [h] + t;
      WithKeyFilter(t, p, key, k);
      var ft, wt := Filter(t, p), WithKey(t, key, k);
      var both := if p(h) && key(h) == k then [h] else [];
      FilterCons(h, t, p);
      WithKeyCons(h, t, key, k);
      assert WithKey(Filter(s, p), key, k) == both + WithKey(ft, key, k) by {
        if p(h) { WithKeyCons(h, ft, key, k); } else { assert Filter(s, p) == ft; }
      }
      assert Filter(WithKey(s, key, k), p) == both + Filter(wt, p) by {
        if key(h) == k { FilterCons(h, wt, p); } else { assert WithKey(s, key, k) == wt; }
      }
    }
  }

  /** A non-blank query keeps exactly the rows whose lower-cased name
      contains it. */
  lemma RankingMembers(counties: seq<FloridaCountyRegistration>, query: string,
                       sortKey: CountySortKey, viewAll: bool, x: FloridaCountyRegistration)
    requires NormalizedQuery(query) != []
    ensures x in GetCountyRanking(counties, query, sortKey, viewAll)
            <==> x in counties && Includes(ToLower(x.county), NormalizedQuery(query))
  {
    var c := RankingCandidates(counties, query);
    var r := GetCountyRanking(counties, query, sortKey, viewAll);
    assert multiset(r) == multiset(c);
    assert x in r <==> x in multiset(r);
    assert x in c <==> x in multiset(c);
  }

  /** A query of whitespace only is no query. */
  lemma RankingBlankQuery(counties: seq<FloridaCountyRegistration>, query: string,
                          sortKey: CountySortKey, viewAll: bool)
    requires forall i | 0 <= i < |query| :: IsSpace(query[i])
    ensures GetCountyRanking(counties, query, sortKey, viewAll) == GetCountyRanking(counties, "", sortKey, viewAll)
    ensures RankingCandidates(counties, query) == counties
  {
    BlankTrims(query);
    BlankTrims("");
  }

  lemma BlankTrims(s: string)
    requires forall i | 0 <= i < |s| :: IsSpace(s[i])
    ensures NormalizedQuery(s) == []
  {
    BlankTrimEnd(s);
  }

  lemma {:induction false} BlankTrimEnd(s: string)
    requires forall i | 0 <= i < |s| :: IsSpace(s[i])
    ensures TrimEnd(s) == []
    decreases |s|
  {
    if s != [] {
      BlankTrimEnd(s[..|s| - 1]);
    }
  }

  /** Without a query the collapsed list is the top ten: as many rows as there
      are, up to ten, and no row left out has a larger key than a row shown. */
  lemma {:induction false} RankingPreview(counties: seq<FloridaCountyRegistration>, query: string, sortKey: CountySortKey)
    requires NormalizedQuery(query) == []
    ensures var r := GetCountyRanking(counties, query, sortKey, false);
            |r| == (if |counties| < RANKING_PREVIEW then |counties| else RANKING_PREVIEW)
            && forall x, y | x in r && y in counties && y !in r :: SortValue(sortKey, x) >= SortValue(sortKey, y)
  {
    var s := SortDesc(counties, KeyOf(sortKey));
    var r := GetCountyRanking(counties, query, sortKey, false);
    assert r == Take(s, RANKING_PREVIEW);
    forall x, y | x in r && y in counties && y !in r
      ensures SortValue(sortKey, x) >= SortValue(sortKey, y)
    {
      assert y in multiset(s);
      var j :| 0 <= j < |s| && s[j] == y;
      var i :| 0 <= i < |r| && r[i] == x;
      assert s[i] == x;
      assert j >= |r|;
      assert KeyOf(sortKey)(s[i]) >= KeyOf(sortKey)(s[j]);
    }
  }
}
