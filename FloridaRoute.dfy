/**
 * The Florida API route (app/api/voter-stats/fl/route.ts). Each `fetch` is an
 * outcome the caller supplies: a response with a status and a body, or a
 * rejection. Both pages are fetched, each falling back to a mirror proxy,
 * while a shared diagnostics list records what failed; the parsed snapshot
 * is served when the pages parse, the bundled snapshot otherwise.
 */
module FloridaRoute {
  import opened Wrappers
  import opened Fetching
  import opened JsString
  import opened VoterTypes
  import opened FloridaText
  import opened FloridaParser
  import opened Florida

  function FetchFailedMessage(status: nat, url: string): string {
    "Fetch failed (" + NatToString(status) + ") for " + url
  }

  /** fetchTextFromUrl: the body of a successful response; a response with a
      failing status throws an Error naming the status and the URL, and a
      rejection rethrows its reason. */
  function FetchTextFromUrl(outcome: FetchOutcome, url: string): (r: Result<string, Thrown>)
    ensures r.Ok? <==> Succeeds(outcome)
    ensures r.Ok? ==> r.value == outcome.body
    ensures outcome.Response? && !IsOkStatus(outcome.status) ==>
              r == Err(ErrorObject(FetchFailedMessage(outcome.status, url)))
    ensures outcome.Rejected? ==> r == Err(outcome.reason)
  {
    match outcome
    case Rejected(reason) => Err(reason)
    case Response(status, body) =>
      if IsOkStatus(status) then Ok(body) else Err(ErrorObject(FetchFailedMessage(status, url)))
  }

  const HTTPS_SCHEME: string := "https://"
  const HTTP_SCHEME: string := "http://"
  const MIRROR_PREFIX: string := "https://r.jina.ai/http://"

  /** `url.replace(/^https?:\/\//, "")`: one leading scheme removed. */
  function StripScheme(url: string): (r: string)
    ensures StartsWith(url, HTTPS_SCHEME) ==> url == HTTPS_SCHEME + r
    ensures StartsWith(url, HTTP_SCHEME) ==> url == HTTP_SCHEME + r
    ensures !StartsWith(url, HTTPS_SCHEME) && !StartsWith(url, HTTP_SCHEME) ==> r == url
  {
    assert StartsWith(url, HTTPS_SCHEME) ==>
             url == url[..|HTTPS_SCHEME|] + url[|HTTPS_SCHEME|..] && url[4] == 's' && !StartsWith(url, HTTP_SCHEME);
    assert StartsWith(url, HTTP_SCHEME) ==> url == url[..|HTTP_SCHEME|] + url[|HTTP_SCHEME|..];
    if StartsWith(url, HTTPS_SCHEME) then url[|HTTPS_SCHEME|..]
    else if StartsWith(url, HTTP_SCHEME) then url[|HTTP_SCHEME|..]
    else url
  }

  /** The mirror proxy's URL for `url`. */
  function MirrorUrl(url: string): (m: string)
    ensures StartsWith(m, MIRROR_PREFIX)
  {
    MIRROR_PREFIX + StripScheme(url)
  }

  /** With either scheme, or none, a host and path reach the same mirror URL. */
  lemma MirrorUrlSchemeBlind(rest: string)
    ensures MirrorUrl(HTTPS_SCHEME + rest) == MIRROR_PREFIX + rest
    ensures MirrorUrl(HTTP_SCHEME + rest) == MIRROR_PREFIX + rest
    ensures !StartsWith(rest, HTTPS_SCHEME) && !StartsWith(rest, HTTP_SCHEME) ==> MirrorUrl(rest) == MIRROR_PREFIX + rest
  {
    assert (HTTP_SCHEME + rest)[4] == ':';
    assert !StartsWith(HTTP_SCHEME + rest, HTTPS_SCHEME);
    assert (HTTPS_SCHEME + rest)[..|HTTPS_SCHEME|] == HTTPS_SCHEME;
    assert (HTTP_SCHEME + rest)[..|HTTP_SCHEME|] == HTTP_SCHEME;
  }

  function PrimaryFailedNote(sourceLabel: string): string {
    sourceLabel + ": primary source fetch failed, trying mirror proxy."
  }

  function MirrorFailedNote(sourceLabel: string): string {
    sourceLabel + ": mirror fetch failed."
  }

  /** What fetchWithMirror returns or throws, and the diagnostics it adds.
      Nothing is added when the primary fetch succeeds; one note when only the
      mirror succeeds; two when both fail, and then the mirror's error is
      rethrown if it is an Error, the primary's otherwise. */
  function MirrorFetch(fetch: Fetcher, url: string, sourceLabel: string): (r: (Result<string, Thrown>, seq<string>))
    ensures Succeeds(fetch(url)) ==> r == (Ok(fetch(url).body), [])
    ensures !Succeeds(fetch(url)) && Succeeds(fetch(MirrorUrl(url))) ==>
              r == (Ok(fetch(MirrorUrl(url)).body), [PrimaryFailedNote(sourceLabel)])
    ensures !Succeeds(fetch(url)) && !Succeeds(fetch(MirrorUrl(url))) ==>
              r.0.Err? && r.1 == [PrimaryFailedNote(sourceLabel), MirrorFailedNote(sourceLabel)]
    ensures r.0.Ok? <==> Succeeds(fetch(url)) || Succeeds(fetch(MirrorUrl(url)))
  {
    match FetchTextFromUrl(fetch(url), url)
    case Ok(text) => (Ok(text), [])
    case Err(primaryError) =>
      var mirrorUrl := MirrorUrl(url);
      match FetchTextFromUrl(fetch(mirrorUrl), mirrorUrl)
      case Ok(text) => (Ok(text), [PrimaryFailedNote(sourceLabel)])
      case Err(mirrorError) =>
        (Err(if mirrorError.ErrorObject? then mirrorError else primaryError),
         [PrimaryFailedNote(sourceLabel), MirrorFailedNote(sourceLabel)])
  }

  /** The error both failing fetches rethrow: the mirror's when it is an
      Error, which a failing status always is. */
  lemma MirrorErrorChoice(fetch: Fetcher, url: string, sourceLabel: string)
    requires !Succeeds(fetch(url)) && !Succeeds(fetch(MirrorUrl(url)))
    ensures var mirror := FetchTextFromUrl(fetch(MirrorUrl(url)), MirrorUrl(url));
            var primary := FetchTextFromUrl(fetch(url), url);
            MirrorFetch(fetch, url, sourceLabel).0
            == (if mirror.error.ErrorObject? then mirror else primary)
    ensures fetch(MirrorUrl(url)).Response? ==>
              MirrorFetch(fetch, url, sourceLabel).0
              == Err(ErrorObject(FetchFailedMessage(fetch(MirrorUrl(url)).status, MirrorUrl(url))))
  {
  }

  /** fetchWithMirror: the primary fetch, then the mirror, appending to the
      shared log as it goes. */
  method FetchWithMirror(fetch: Fetcher, url: string, diagnostics: DiagnosticLog, sourceLabel: string)
    returns (r: Result<string, Thrown>)
    modifies diagnostics
    ensures r == MirrorFetch(fetch, url, sourceLabel).0
    ensures diagnostics.entries == old(diagnostics.entries) + MirrorFetch(fetch, url, sourceLabel).1
  {
    var primary := FetchTextFromUrl(fetch(url), url);
    if primary.Ok? {
      return primary;
    }
    diagnostics.Push(PrimaryFailedNote(sourceLabel));
    var normalized := StripScheme(url);
    var mirrorUrl := MIRROR_PREFIX + normalized;
    var mirror := FetchTextFromUrl(fetch(mirrorUrl), mirrorUrl);
    if mirror.Ok? {
      return mirror;
    }
    diagnostics.Push(MirrorFailedNote(sourceLabel));
    r := Err(if mirror.error.ErrorObject? then mirror.error else primary.error);
  }

  const PARTY_LABEL: string := "party totals"
  const COUNTY_LABEL: string := "county table"
  const PARSER_EMPTY_NOTE: string := "Parser returned no rows; serving fallback snapshot."
  const REMOTE_UNAVAILABLE_NOTE: string := "Remote Florida sources unavailable; returned last-known-good bundled snapshot."
  const FETCH_FAILED_DIAGNOSTIC: string := "Remote Florida source fetch failed. Served fallback snapshot."

  /** The bundled snapshot re-stamped with the request time and given notes;
      totals, counties, asOfDate and usedFallback are kept. */
  function Restamp(bundled: FloridaRegistration, lastChecked: string, notes: seq<string>): FloridaRegistration {
    bundled.(
      lastRefreshed := lastChecked,
      sourceMeta := FloridaSourceMeta(
        bundled.sourceMeta.partyTotals.(lastChecked := lastChecked),
        bundled.sourceMeta.countyBreakdown.(lastChecked := lastChecked)),
      notes := notes)
  }

  /** `data` is the bundled snapshot with only the time stamps and notes
      changed. */
  predicate RestampedFrom(data: FloridaRegistration, bundled: FloridaRegistration, lastChecked: string) {
    data.totals == bundled.totals && data.byCounty == bundled.byCounty
    && data.usedFallback == bundled.usedFallback
    && data.lastRefreshed == lastChecked
    && data.sourceMeta.partyTotals == bundled.sourceMeta.partyTotals.(lastChecked := lastChecked)
    && data.sourceMeta.countyBreakdown == bundled.sourceMeta.countyBreakdown.(lastChecked := lastChecked)
  }

  /** The options GET builds the snapshot with. */
  function FreshOptions(lastChecked: string, diagnostics: seq<string>): BuildOptions {
    BuildOptions(Some(lastChecked), Some(false), Some(diagnostics))
  }

  /** The response of the catch branch. */
  function CaughtResponse(bundled: FloridaRegistration, lastChecked: string): (r: FloridaApiResponse)
    ensures RestampedFrom(r.data, bundled, lastChecked)
    ensures r.data.notes == bundled.notes + [REMOTE_UNAVAILABLE_NOTE]
    ensures r.meta == ResponseMeta(lastChecked, true, [FETCH_FAILED_DIAGNOSTIC])
  {
    var fallback := Restamp(bundled, lastChecked, bundled.notes + [REMOTE_UNAVAILABLE_NOTE]);
    FloridaApiResponse(fallback, ResponseMeta(fallback.lastRefreshed, true, [FETCH_FAILED_DIAGNOSTIC]))
  }

  /** The response once both pages are in and `parsed` is what the builder
      made of them: the parsed snapshot when there is one, else the bundled
      one, the parser note appended to the diagnostics, which follow the
      bundled notes. */
  function PagesResponse(parsed: Option<FloridaRegistration>, diagnostics: seq<string>,
                         lastChecked: string, bundled: FloridaRegistration): (r: FloridaApiResponse)
    ensures parsed.Some? ==>
              r.data == parsed.value && r.meta == ResponseMeta(parsed.value.lastRefreshed, false, diagnostics)
    ensures var all := diagnostics + [PARSER_EMPTY_NOTE];
            parsed.None? ==> RestampedFrom(r.data, bundled, lastChecked) && r.data.notes == bundled.notes + all
                             && r.meta == ResponseMeta(lastChecked, true, all)
  {
    match parsed
    case Some(reg) => FloridaApiResponse(reg, ResponseMeta(reg.lastRefreshed, false, diagnostics))
    case None =>
      var all := diagnostics + [PARSER_EMPTY_NOTE];
      var fallback := Restamp(bundled, lastChecked, bundled.notes + all);
      FloridaApiResponse(fallback, ResponseMeta(fallback.lastRefreshed, true, all))
  }

  /** Both pages' texts and the diagnostics of both fetches, party page
      first, or `None` when either fetch throws. */
  function PagesOf(fetch: Fetcher, partyUrl: string, countyUrl: string): (r: Option<(string, string, seq<string>)>)
    ensures var party := MirrorFetch(fetch, partyUrl, PARTY_LABEL);
            var county := MirrorFetch(fetch, countyUrl, COUNTY_LABEL);
            (r.None? <==> party.0.Err? || county.0.Err?)
            && (r.Some? ==> r.value == (party.0.value, county.0.value, party.1 + county.1))
  {
    var party := MirrorFetch(fetch, partyUrl, PARTY_LABEL);
    var county := MirrorFetch(fetch, countyUrl, COUNTY_LABEL);
    if party.0.Err? || county.0.Err? then None else Some((party.0.value, county.0.value, party.1 + county.1))
  }

  /** What GET does with the two pages, the options for this request and
      the log: buildFloridaRegistration (see Builder). */
  type PageBuilder = (string, string, BuildOptions) -> Option<FloridaRegistration>

  /** buildFloridaRegistration, reading `now` when no check time is given. */
  function Builder(now: string, dateOf: string -> Option<CalendarDate>): PageBuilder {
    (partyContent: string, countyContent: string, options: BuildOptions) =>
      BuildFloridaRegistration(partyContent, countyContent, options, now, dateOf)
  }

  /** The response GET serves at time `lastChecked`, the party page at
      `partyUrl` and the county page at `countyUrl` (FLORIDA_PARTY_AFFILIATION_URL
      and FLORIDA_COUNTY_PARTY_URL): the caught response when a fetch throws,
      else what `build` makes of the pages with this request's time and
      diagnostics. */
  function FloridaResponse(fetch: Fetcher, partyUrl: string, countyUrl: string, lastChecked: string,
                           bundled: FloridaRegistration, build: PageBuilder): FloridaApiResponse
  {
    match PagesOf(fetch, partyUrl, countyUrl)
    case None => CaughtResponse(bundled, lastChecked)
    case Some((partyContent, countyContent, diagnostics)) =>
      PagesResponse(build(partyContent, countyContent, FreshOptions(lastChecked, diagnostics)),
                    diagnostics, lastChecked, bundled)
  }

  /** The `Promise.all` of GET: the party page, then the county page, both
      through fetchWithMirror on the shared log. */
  method FetchPages(fetch: Fetcher, partyUrl: string, countyUrl: string, diagnostics: DiagnosticLog)
    returns (pages: Option<(string, string)>)
    modifies diagnostics
    ensures var expected := PagesOf(fetch, partyUrl, countyUrl);
            (pages.None? <==> expected.None?)
            && (pages.Some? ==> pages.value == (expected.value.0, expected.value.1)
                                && diagnostics.entries == old(diagnostics.entries) + expected.value.2)
  {
    var partyContent := FetchWithMirror(fetch, partyUrl, diagnostics, PARTY_LABEL);
    if partyContent.Err? {
      return None;
    }
    var countyContent := FetchWithMirror(fetch, countyUrl, diagnostics, COUNTY_LABEL);
    if countyContent.Err? {
      return None;
    }
    pages := Some((partyContent.value, countyContent.value));
  }

  /** The rest of GET's `try` once both pages are in: build the snapshot
      from the pages and the log; when that fails, log the parser note and
      serve the bundled snapshot. */
  method RespondWithPages(partyContent: string, countyContent: string, diagnostics: DiagnosticLog,
                          lastChecked: string, bundled: FloridaRegistration,
                          dateOf: string -> Option<CalendarDate>)
    returns (response: FloridaApiResponse)
    modifies diagnostics
    ensures response == PagesResponse(Builder(lastChecked, dateOf)(partyContent, countyContent,
                                        FreshOptions(lastChecked, old(diagnostics.entries))),
                                      old(diagnostics.entries), lastChecked, bundled)
  {
    var parsed := BuildFloridaRegistration(partyContent, countyContent,
                                           FreshOptions(lastChecked, diagnostics.entries), lastChecked, dateOf);
    if parsed.Some? {
      response := FloridaApiResponse(parsed.value, ResponseMeta(parsed.value.lastRefreshed, false, diagnostics.entries));
      return;
    }
    diagnostics.Push(PARSER_EMPTY_NOTE);
    var fallback := Restamp(bundled, lastChecked, bundled.notes + diagnostics.entries);
    response := FloridaApiResponse(fallback, ResponseMeta(fallback.lastRefreshed, true, diagnostics.entries));
  }

  /** GET, with the request time, the bundled snapshot and the two page URLs
      given. */
  method Get(fetch: Fetcher, partyUrl: string, countyUrl: string, now: string,
             bundled: FloridaRegistration, dateOf: string -> Option<CalendarDate>)
    returns (response: FloridaApiResponse)
    ensures response == FloridaResponse(fetch, partyUrl, countyUrl, now, bundled, Builder(now, dateOf))
  {
    var lastChecked := now;
    var diagnostics := new DiagnosticLog();
    var pages := FetchPages(fetch, partyUrl, countyUrl, diagnostics);
    ghost var expected := PagesOf(fetch, partyUrl, countyUrl);
    if pages.None? {
      assert expected.None?;
      return CaughtResponse(bundled, lastChecked);
    }
    var partyContent := pages.value.0;
    var countyContent := pages.value.1;
    assert diagnostics.entries == expected.value.2;
    response := RespondWithPages(partyContent, countyContent, diagnostics, lastChecked, bundled, dateOf);
  }

  /** A failing fetch of either page serves the bundled snapshot re-stamped
      with the request time, one fixed note appended and one fixed
      diagnostic. */
  lemma ResponseOnFetchFailure(fetch: Fetcher, partyUrl: string, countyUrl: string, lastChecked: string,
                               bundled: FloridaRegistration, build: PageBuilder)
    requires MirrorFetch(fetch, partyUrl, PARTY_LABEL).0.Err? || MirrorFetch(fetch, countyUrl, COUNTY_LABEL).0.Err?
    ensures var r := FloridaResponse(fetch, partyUrl, countyUrl, lastChecked, bundled, build);
            RestampedFrom(r.data, bundled, lastChecked)
            && r.data.notes == bundled.notes + [REMOTE_UNAVAILABLE_NOTE]
            && r.meta == ResponseMeta(lastChecked, true, [FETCH_FAILED_DIAGNOSTIC])
  {
  }

  /** Once both pages arrive, the snapshot is built with this request's time
      and the diagnostics of both fetches, party page first. A built snapshot
      is served as fresh; otherwise the parser note is appended to the
      diagnostics and the bundled snapshot is served with its notes followed
      by them. */
  lemma ResponseOnPages(fetch: Fetcher, partyUrl: string, countyUrl: string, lastChecked: string,
                        bundled: FloridaRegistration, build: PageBuilder)
    requires MirrorFetch(fetch, partyUrl, PARTY_LABEL).0.Ok? && MirrorFetch(fetch, countyUrl, COUNTY_LABEL).0.Ok?
    ensures var party := MirrorFetch(fetch, partyUrl, PARTY_LABEL);
            var county := MirrorFetch(fetch, countyUrl, COUNTY_LABEL);
            var diagnostics := party.1 + county.1;
            var parsed := build(party.0.value, county.0.value, BuildOptions(Some(lastChecked), Some(false), Some(diagnostics)));
            var r := FloridaResponse(fetch, partyUrl, countyUrl, lastChecked, bundled, build);
            (parsed.Some? ==> r.data == parsed.value && r.meta == ResponseMeta(parsed.value.lastRefreshed, false, diagnostics))
            && (parsed.None? ==> RestampedFrom(r.data, bundled, lastChecked)
                                 && r.data.notes == bundled.notes + diagnostics + [PARSER_EMPTY_NOTE]
                                 && r.meta == ResponseMeta(lastChecked, true, diagnostics + [PARSER_EMPTY_NOTE]))
  {
  }

  /** With the real builder, whatever happens, the response is stamped with
      the request time, and meta repeats the data's lastRefreshed. */
  lemma ResponseStampedNow(fetch: Fetcher, partyUrl: string, countyUrl: string, lastChecked: string,
                           bundled: FloridaRegistration, dateOf: string -> Option<CalendarDate>)
    ensures var r := FloridaResponse(fetch, partyUrl, countyUrl, lastChecked, bundled, Builder(lastChecked, dateOf));
            r.data.lastRefreshed == lastChecked && r.meta.lastRefreshed == r.data.lastRefreshed
            && r.data.sourceMeta.partyTotals.lastChecked == lastChecked
            && r.data.sourceMeta.countyBreakdown.lastChecked == lastChecked
  {
    var pages := PagesOf(fetch, partyUrl, countyUrl);
    if pages.Some? {
      var (partyContent, countyContent, diagnostics) := pages.value;
      RegistrationStamped(partyContent, countyContent, FreshOptions(lastChecked, diagnostics), lastChecked, dateOf);
    }
  }

  /** The snapshot is fresh exactly when both pages were fetched and the
      builder made a snapshot of them, and meta.usedFallback says so. For
      buildFloridaRegistration that is when the party page yields totals and
      the county page a county (RegistrationNullIff). */
  lemma ResponseFallbackFlag(fetch: Fetcher, partyUrl: string, countyUrl: string, lastChecked: string,
                             bundled: FloridaRegistration, build: PageBuilder)
    ensures var r := FloridaResponse(fetch, partyUrl, countyUrl, lastChecked, bundled, build);
            var pages := PagesOf(fetch, partyUrl, countyUrl);
            !r.meta.usedFallback
            <==> pages.Some? && build(pages.value.0, pages.value.1, FreshOptions(lastChecked, pages.value.2)).Some?
  {
  }

  /** When both primary fetches succeed, no diagnostics are logged, and a
      snapshot built from the two bodies is served as fresh. */
  lemma ResponseCleanRun(fetch: Fetcher, partyUrl: string, countyUrl: string, lastChecked: string,
                         bundled: FloridaRegistration, build: PageBuilder)
    requires Succeeds(fetch(partyUrl)) && Succeeds(fetch(countyUrl))
    requires build(fetch(partyUrl).body, fetch(countyUrl).body, FreshOptions(lastChecked, [])).Some?
    ensures var built := build(fetch(partyUrl).body, fetch(countyUrl).body, FreshOptions(lastChecked, [])).value;
            var r := FloridaResponse(fetch, partyUrl, countyUrl, lastChecked, bundled, build);
            r.data == built && r.meta == ResponseMeta(built.lastRefreshed, false, [])
  {
    assert PagesOf(fetch, partyUrl, countyUrl).value.2 == [];
  }

  /** A bundled snapshot marked as a fallback, as floridaFallbackRegistration
      always is (FallbackFields), yields a response whose data is marked
      whenever its meta is. */
  lemma BundledFallbackMarked(fetch: Fetcher, partyUrl: string, countyUrl: string, lastChecked: string,
                              bundled: FloridaRegistration, build: PageBuilder)
    requires bundled.usedFallback
    requires forall p, c, o | build(p, c, o).Some? :: !build(p, c, o).value.usedFallback || o.usedFallback == Some(true)
    ensures var r := FloridaResponse(fetch, partyUrl, countyUrl, lastChecked, bundled, build);
            r.meta.usedFallback ==> r.data.usedFallback
  {
  }

  /** The route serves the module's bundled snapshot, floridaFallbackRegistration:
      whichever branch that snapshot took, a response whose meta says fallback
      has data marked as one. */
  lemma FloridaFallbackServed(fetch: Fetcher, partyUrl: string, countyUrl: string, lastChecked: string,
                              now: string, dateOf: string -> Option<CalendarDate>, build: PageBuilder)
    requires forall p, c, o | build(p, c, o).Some? :: !build(p, c, o).value.usedFallback || o.usedFallback == Some(true)
    ensures var bundled := FloridaFallbackRegistration(FLORIDA_PARTY_FALLBACK_TEXT, FLORIDA_COUNTY_FALLBACK_TEXT, now, dateOf);
            var r := FloridaResponse(fetch, partyUrl, countyUrl, lastChecked, bundled, build);
            bundled.usedFallback && (r.meta.usedFallback ==> r.data.usedFallback)
  {
    var bundled := FloridaFallbackRegistration(FLORIDA_PARTY_FALLBACK_TEXT, FLORIDA_COUNTY_FALLBACK_TEXT, now, dateOf);
    FallbackFields(FLORIDA_PARTY_FALLBACK_TEXT, FLORIDA_COUNTY_FALLBACK_TEXT, now, dateOf);
    BundledFallbackMarked(fetch, partyUrl, countyUrl, lastChecked, bundled, build);
  }
}
