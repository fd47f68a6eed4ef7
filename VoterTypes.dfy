/**
 * The voter-statistics records (app/data/voter-stats/types.ts) and the
 * source constants they are stamped with (app/data/voter-stats/sources.ts).
 * Timestamps and dates are kept as the strings the repository stores.
 */
module VoterTypes {

  /** Describes one remote data source. */
  datatype DatasetMeta = DatasetMeta(
    id: string,
    name: string,
    publisher: string,
    asOfDate: string,
    lastChecked: string,
    url: string,
    notes: string)

  /** Statewide registration counts by party. */
  datatype FloridaPartyTotals = FloridaPartyTotals(
    republican: nat,
    democratic: nat,
    npa: nat,
    minor: nat,
    total: nat)

  /** One county row; the four shares are derived from the counts. */
  datatype FloridaCountyRegistration = FloridaCountyRegistration(
    county: string,
    republican: nat,
    democratic: nat,
    npa: nat,
    minor: nat,
    total: nat,
    repShare: real,
    demShare: real,
    npaShare: real,
    minorShare: real)

  datatype FloridaSourceMeta = FloridaSourceMeta(partyTotals: DatasetMeta, countyBreakdown: DatasetMeta)

  /** The Florida snapshot served by the API. */
  datatype FloridaRegistration = FloridaRegistration(
    totals: FloridaPartyTotals,
    byCounty: seq<FloridaCountyRegistration>,
    sourceMeta: FloridaSourceMeta,
    notes: seq<string>,
    lastRefreshed: string,
    usedFallback: bool)

  datatype NationalDemographicRow = NationalDemographicRow(
    group: string,
    democratic: int,
    republican: int,
    independent: int,
    total: int)

  datatype NationalDemographicDimension = Gender | Age

  datatype NationalSourceMeta = NationalSourceMeta(
    pewFactSheet: DatasetMeta,
    pewGender: DatasetMeta,
    gallupPartyId: DatasetMeta)

  /** The national survey snapshot. */
  datatype NationalPartyId = NationalPartyId(
    sourceMeta: NationalSourceMeta,
    byGender: seq<NationalDemographicRow>,
    byAge: seq<NationalDemographicRow>,
    methodNotes: seq<string>,
    lastRefreshed: string,
    usedFallback: bool)

  /** The `meta` part of both API responses. */
  datatype ResponseMeta = ResponseMeta(lastRefreshed: string, usedFallback: bool, diagnostics: seq<string>)

  datatype FloridaApiResponse = FloridaApiResponse(data: FloridaRegistration, meta: ResponseMeta)

  datatype NationalApiResponse = NationalApiResponse(data: NationalPartyId, meta: ResponseMeta)

  const FLORIDA_PARTY_AFFILIATION_URL: string :=
    "https://dos.fl.gov/elections/data-statistics/voter-registration-statistics/voter-registration-by-party-affiliation/"

  const FLORIDA_COUNTY_PARTY_URL: string :=
    "https://dos.fl.gov/elections/data-statistics/voter-registration-statistics/voter-registration-by-county-and-party/"

  const PEW_FACT_SHEET_URL: string :=
    "https://www.pewresearch.org/politics/2024/04/09/the-partisanship-and-ideology-of-american-voters/"

  const PEW_GENDER_URL: string :=
    "https://www.pewresearch.org/politics/2024/04/09/the-partisanship-and-ideology-of-american-voters/#partisan-composition-by-gender"

  const GALLUP_PARTY_AFFILIATION_URL: string :=
    "https://news.gallup.com/poll/15370/party-affiliation.aspx"

  const FLORIDA_PARTY_BASELINE: DatasetMeta := DatasetMeta(
    "fl-dos-party-totals",
    "Voter Registration by Party Affiliation",
    "Florida Department of State, Division of Elections",
    "Unknown",
    "Unknown",
    FLORIDA_PARTY_AFFILIATION_URL,
    "Official statewide registration counts by party.")

  const FLORIDA_COUNTY_BASELINE: DatasetMeta := DatasetMeta(
    "fl-dos-county-party",
    "Voter Registration by County and Party",
    "Florida Department of State, Division of Elections",
    "Unknown",
    "Unknown",
    FLORIDA_COUNTY_PARTY_URL,
    "Official county-level registration counts by party.")

  const PEW_FACT_SHEET_BASELINE: DatasetMeta := DatasetMeta(
    "pew-partisanship-fact-sheet",
    "The Partisanship and Ideology of American Voters",
    "Pew Research Center",
    "2024-04-09",
    "Unknown",
    PEW_FACT_SHEET_URL,
    "Survey-based party identification and partisan leaning among U.S. registered voters.")

  const PEW_GENDER_BASELINE: DatasetMeta := DatasetMeta(
    "pew-partisanship-gender",
    "Partisan Composition by Gender",
    "Pew Research Center",
    "2024-04-09",
    "Unknown",
    PEW_GENDER_URL,
    "Survey results by gender; identifies/leans Democratic, Republican, and independent/other.")

  const GALLUP_BASELINE: DatasetMeta := DatasetMeta(
    "gallup-party-affiliation",
    "Gallup Party Affiliation",
    "Gallup",
    "2025-01-15",
    "Unknown",
    GALLUP_PARTY_AFFILIATION_URL,
    "Long-running trend of U.S. adults identifying as Democrat, Republican, or independent.")

  const VOTER_STATS_METHOD_NOTE: string :=
    "Registration counts are administrative records; turnout is election participation; party identification is survey self-identification/leaning. These measures are not interchangeable."
}
