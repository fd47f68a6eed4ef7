/**
 * The national API route (app/api/voter-stats/national/route.ts): it checks
 * the three national sources, logs one diagnostic per source whose check
 * failed, and serves the curated snapshot stamped with the request time,
 * marked as a fallback exactly when some check failed.
 */
module NationalRoute {
  import opened Wrappers
  import opened Fetching
  import opened JsString
  import opened VoterTypes
  import opened National

  /** What one promise of `Promise.allSettled` settles to. */
  datatype Settled = Fulfilled | RejectedWith(reason: Thrown)

  function CheckFailedMessage(status: nat, url: string): string {
    "Source check failed (" + NatToString(status) + ") for " + url
  }

  /** checkSource: fulfilled on a successful response; a failing status
      rejects with an Error naming the status and the URL, and a rejected
      fetch passes its reason on. */
  function CheckSource(outcome: FetchOutcome, url: string): (r: Settled)
    ensures r.Fulfilled? <==> Succeeds(outcome)
    ensures outcome.Response? && !IsOkStatus(outcome.status) ==>
              r == RejectedWith(ErrorObject(CheckFailedMessage(outcome.status, url)))
    ensures outcome.Rejected? ==> r == RejectedWith(outcome.reason)
  {
    match outcome
    case Rejected(reason) => RejectedWith(reason)
    case Response(status, _) =>
      if IsOkStatus(status) then Fulfilled else RejectedWith(ErrorObject(CheckFailedMessage(status, url)))
  }

  /** The source named by the position of its check. */
  function SourceLabel(index: nat): string {
    if index == 0 then "Pew fact sheet"
    else if index == 1 then "Pew gender dataset"
    else "Gallup party affiliation"
  }

  function RemoteCheckNote(sourceLabel: string): string {
    sourceLabel + ": remote check failed, serving curated snapshot."
  }

  /** The note for the check at `index`. */
  function FailureNote(index: nat): string {
    RemoteCheckNote(SourceLabel(index))
  }

  /** The diagnostics of the settled checks: one note per rejected check, in
      the order of the checks. */
  function FailureNotes(results: seq<Settled>): seq<string>
    decreases |results|
  {
    if results == [] then []
    else
      var n := |results| - 1;
      FailureNotes(results[..n]) + (if results[n].RejectedWith? then [FailureNote(n)] else [])
  }

  /** The forEach over the settled checks, pushing onto a fresh diagnostics
      list. */
  method ReportFailures(results: seq<Settled>) returns (diagnostics: seq<string>)
    ensures diagnostics == FailureNotes(results)
  {
    var log := new DiagnosticLog();
    for index := 0 to |results|
      invariant log.entries == FailureNotes(results[..index])
    {
      assert results[..index + 1][..index] == results[..index];
      if results[index].RejectedWith? {
        log.Push(FailureNote(index));
      }
    }
    assert results[..|results|] == results;
    diagnostics := log.entries;
  }

  /** There are no diagnostics exactly when every check was fulfilled, and
      never more diagnostics than checks. */
  lemma {:induction false} FailureNotesEmpty(results: seq<Settled>)
    ensures |FailureNotes(results)| <= |results|
    ensures FailureNotes(results) == [] <==> forall i | 0 <= i < |results| :: results[i].Fulfilled?
    decreases |results|
  {
    if results != [] {
      var n := |results| - 1;
      FailureNotesEmpty(results[..n]);
      assert forall i | 0 <= i < n :: results[..n][i] == results[i];
    }
  }

  /** Every note of the diagnostics names a rejected check. */
  lemma {:induction false} FailureNotesNameRejected(results: seq<Settled>)
    ensures forall note | note in FailureNotes(results) ::
              exists i | 0 <= i < |results| :: results[i].RejectedWith? && note == FailureNote(i)
    decreases |results|
  {
    if results != [] {
      var n := |results| - 1;
      FailureNotesNameRejected(results[..n]);
      forall note | note in FailureNotes(results)
        ensures exists i | 0 <= i < |results| :: results[i].RejectedWith? && note == FailureNote(i)
      {
        if note in FailureNotes(results[..n]) {
          var i :| 0 <= i < n && results[..n][i].RejectedWith? && note == FailureNote(i);
          assert results[i] == results[..n][i];
        } else {
          assert results[n].RejectedWith? && note == FailureNote(n);
        }
      }
    }
  }

  /** Every rejected check has its note among the diagnostics. */
  lemma {:induction false} RejectedHasNote(results: seq<Settled>, i: nat)
    requires i < |results| && results[i].RejectedWith?
    ensures FailureNote(i) in FailureNotes(results)
    decreases |results|
  {
    var n := |results| - 1;
    if i < n {
      assert results[..n][i] == results[i];
      RejectedHasNote(results[..n], i);
    }
  }

  /** The three sources have three different notes. */
  lemma FailureNotesDistinct(i: nat, j: nat)
    requires i < 3 && j < 3 && i != j
    ensures FailureNote(i) != FailureNote(j)
  {
    assert |FailureNote(i)| != |FailureNote(j)|;
  }

  /** With at most three checks, the note of a source is among the
      diagnostics exactly when its check was rejected. */
  lemma NoteIffRejected(results: seq<Settled>, i: nat)
    requires |results| <= 3 && i < |results|
    ensures FailureNote(i) in FailureNotes(results) <==> results[i].RejectedWith?
  {
    if results[i].RejectedWith? {
      RejectedHasNote(results, i);
    } else if FailureNote(i) in FailureNotes(results) {
      FailureNotesNameRejected(results);
      var j :| 0 <= j < |results| && results[j].RejectedWith? && FailureNote(i) == FailureNote(j);
      FailureNotesDistinct(i, j);
    }
  }

  /** The settled checks of the Pew fact sheet, the Pew gender dataset and
      Gallup, in that order. */
  function SourceChecks(fetch: Fetcher): seq<Settled> {
    [CheckSource(fetch(PEW_FACT_SHEET_URL), PEW_FACT_SHEET_URL),
     CheckSource(fetch(PEW_GENDER_URL), PEW_GENDER_URL),
     CheckSource(fetch(GALLUP_PARTY_AFFILIATION_URL), GALLUP_PARTY_AFFILIATION_URL)]
  }

  /** The response the route serves at time `lastChecked`. */
  function NationalResponse(fetch: Fetcher, lastChecked: string): NationalApiResponse {
    var diagnostics := FailureNotes(SourceChecks(fetch));
    var data := BuildNationalSnapshot(
      NationalOptions(Some(lastChecked), Some(diagnostics), Some(|diagnostics| > 0)), lastChecked);
    NationalApiResponse(data, ResponseMeta(data.lastRefreshed, data.usedFallback, diagnostics))
  }

  /** GET, with the request time `lastChecked` as a parameter. */
  method Get(fetch: Fetcher, lastChecked: string) returns (response: NationalApiResponse)
    ensures response == NationalResponse(fetch, lastChecked)
  {
    var sourceChecks := SourceChecks(fetch);
    var diagnostics := ReportFailures(sourceChecks);
    var usedFallback := |diagnostics| > 0;
    var data := BuildNationalSnapshot(
      NationalOptions(Some(lastChecked), Some(diagnostics), Some(usedFallback)), lastChecked);
    response := NationalApiResponse(data, ResponseMeta(data.lastRefreshed, data.usedFallback, diagnostics));
  }

  /** The snapshot of the response is stamped with the request time, its
      meta repeats its lastRefreshed and usedFallback, and its notes are the
      method notes followed by the diagnostics. */
  lemma ResponseShape(fetch: Fetcher, lastChecked: string)
    ensures var r := NationalResponse(fetch, lastChecked);
            CheckedAt(r.data.sourceMeta, lastChecked)
            && r.data.lastRefreshed == lastChecked && r.meta.lastRefreshed == lastChecked
            && r.meta.usedFallback == r.data.usedFallback
            && r.data.methodNotes == NATIONAL_METHOD_NOTES + r.meta.diagnostics
            && r.data.byGender == PEW_GENDER_SNAPSHOT && r.data.byAge == PEW_AGE_SNAPSHOT
  {
    var r := NationalResponse(fetch, lastChecked);
    var k := |NATIONAL_METHOD_NOTES|;
    assert r.data.methodNotes == r.data.methodNotes[..k] + r.data.methodNotes[k..];
  }

  /** The diagnostics of the response are those of the three checks and
      it is marked as a fallback exactly when there are some. */
  lemma ResponseDiagnostics(fetch: Fetcher, lastChecked: string)
    ensures var r := NationalResponse(fetch, lastChecked);
            r.meta.diagnostics == FailureNotes(SourceChecks(fetch))
            && (r.meta.usedFallback <==> FailureNotes(SourceChecks(fetch)) != [])
  {
  }

  /** All three checks are fulfilled exactly when all three fetches succeed. */
  lemma ChecksFulfilled(fetch: Fetcher)
    ensures var checks := SourceChecks(fetch);
            (forall i | 0 <= i < |checks| :: checks[i].Fulfilled?)
            <==> Succeeds(fetch(PEW_FACT_SHEET_URL)) && Succeeds(fetch(PEW_GENDER_URL))
                 && Succeeds(fetch(GALLUP_PARTY_AFFILIATION_URL))
  {
    var checks := SourceChecks(fetch);
    assert (forall i | 0 <= i < |checks| :: checks[i].Fulfilled?)
           <==> checks[0].Fulfilled? && checks[1].Fulfilled? && checks[2].Fulfilled?;
  }

  /** The response is marked as a fallback exactly when some source check
      failed. */
  lemma ResponseFallbackIff(fetch: Fetcher, lastChecked: string)
    ensures NationalResponse(fetch, lastChecked).meta.usedFallback
            <==> !(Succeeds(fetch(PEW_FACT_SHEET_URL)) && Succeeds(fetch(PEW_GENDER_URL))
                   && Succeeds(fetch(GALLUP_PARTY_AFFILIATION_URL)))
  {
    ResponseDiagnostics(fetch, lastChecked);
    FailureNotesEmpty(SourceChecks(fetch));
    ChecksFulfilled(fetch);
  }

  /** The diagnostics of the checks name the Pew fact sheet, the Pew gender
      dataset and Gallup each exactly when that source's check failed. */
  lemma ChecksNameFailures(fetch: Fetcher)
    ensures var d := FailureNotes(SourceChecks(fetch));
            (FailureNote(0) in d <==> !Succeeds(fetch(PEW_FACT_SHEET_URL)))
            && (FailureNote(1) in d <==> !Succeeds(fetch(PEW_GENDER_URL)))
            && (FailureNote(2) in d <==> !Succeeds(fetch(GALLUP_PARTY_AFFILIATION_URL)))
  {
    var checks := SourceChecks(fetch);
    NoteIffRejected(checks, 0);
    NoteIffRejected(checks, 1);
    NoteIffRejected(checks, 2);
  }

  /** The diagnostics of the response name the Pew fact sheet, the Pew
      gender dataset and Gallup each exactly when that source's check
      failed. */
  lemma ResponseNamesFailures(fetch: Fetcher, lastChecked: string)
    ensures var d := NationalResponse(fetch, lastChecked).meta.diagnostics;
            (RemoteCheckNote("Pew fact sheet") in d <==> !Succeeds(fetch(PEW_FACT_SHEET_URL)))
            && (RemoteCheckNote("Pew gender dataset") in d <==> !Succeeds(fetch(PEW_GENDER_URL)))
            && (RemoteCheckNote("Gallup party affiliation") in d <==> !Succeeds(fetch(GALLUP_PARTY_AFFILIATION_URL)))
  {
    ResponseDiagnostics(fetch, lastChecked);
    ChecksNameFailures(fetch);
  }
}
