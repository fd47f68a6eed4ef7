# Catalyst Patriot voter statistics and civic widgets, modelled in Dafny

Catalyst Patriot is a civic-data site. This project models the logic at its core:

- **The Florida voter-registration pipeline.** Two Florida Division of Elections HTML pages are fetched. The parser flattens them to text and decodes five fixed entities. It collapses whitespace line by line and reads the "Data as of" date. It takes the statewide party totals from the latest year row, or from a TOTALS row when there is no year row. It reads every county row, an upper-case name followed by five count columns, and gives each county its party shares. The county rows are sorted by total, largest first.
- **The Florida snapshot.** The snapshot is assembled from the parsed pages, or from the bundled fallback when they do not parse. The model also covers the party-composition rows and the county ranking.
- **The Florida trend series.** This covers the seeded monthly series and the two-party and full-composition chart points. It also covers indexing against a base month, shares of the total, the padded axis domain and the first-to-last delta chips.
- **The two API routes.** The Florida route fetches each page, falling back to a mirror proxy, and logs diagnostics. It serves the fresh snapshot, or the bundled one when parsing or fetching fails. The national route checks three sources, logs one note per failed check, and marks the curated snapshot as a fallback exactly when a check failed.
- **The national snapshot.** This is the curated Pew party-identification rows, by gender and by age, and the chart rows built from them.
- **The small interface state machines.** These are the Konami-code and rapid-tap easter eggs, the state carousel, the source card's PDF-page link and badge, the source tooltip, the state budget explorer's sorting and selection, and the trend chart's series, ranges, y-domain and tooltip percentages.

## How the model is written

- Each source file is one module. Pure code becomes functions. Code that changes state becomes classes or methods with loops, each method proved against a specification function.
  - The diagnostics list that the Florida route appends to is the class `Fetching.DiagnosticLog`.
  - The county-row loop, the seeded-series loops, the index, share and domain loops, and the national route's failure loop are methods with loop invariants.
- Every regular expression is a hand-written matcher over one line or one text. `Array.prototype.sort` with a key comparator is a stable descending insertion sort (`Sorting`). The modules `JsString` and `JsArray` give the string and array built-ins as total functions.
- The network is a parameter. Each `fetch(url)` is an outcome: a response with a status and a body, or a rejection with the thrown value.
- JavaScript `new Date(text)` is the parameter `dateOf`. The clock is the parameter `now`. `Number(page)` is the parameter `numberText`.
- The Florida route's bundled snapshot, the module constant `floridaFallbackRegistration`, is the parameter `bundled`. `FloridaRoute.FloridaFallbackServed` states what the route serves when `bundled` is that snapshot, built from the bundled page texts.
- Counts are natural numbers. Shares, percentages, indexed values and axis bounds are exact reals.

## Behaviour of the code worth knowing

- `<br>` flattens to a newline followed by `>`: the break pattern stops before the `>` (`FloridaText.FlattenBreakKeepsAngle`).
- Entity decoding is a single pass in a fixed order, so `&amp;nbsp;` becomes `&nbsp;` and not a space (`FloridaText.DecodeIsSinglePass`).
- The TOTALS row is matched case-insensitively, because the pattern has the `i` flag.
- When both the primary and the mirror fetch fail, the route rethrows the mirror's error when it is an `Error`, and the primary's error only otherwise. A failing mirror status always throws an `Error`, so in practice the mirror's error is the one rethrown. The model follows the code here (`FloridaRoute.MirrorErrorChoice`).
- The hardcoded fallback totals add up to 1,000 fewer than the stated total (`Florida.FallbackTotalsGap`).
- "Open Floating Tracker" dispatches a synthetic `D` keydown. The Konami handler sees that key, which resets the typed count to 0 (`Konami.TrackerKeyResets`).

## Model

| member | source | states |
|---|---|---|
| FloridaText.DecodeHtmlEntities | app/data/voter-stats/florida.ts:114-121 | replaces every `&nbsp;`, then every `&amp;`, `&#8217;`, `&quot;` and `&#39;`, each over the whole text in that order; stated by `DecodeWithoutAmpersand`, `DecodeIsSinglePass`, `DecodeAmpFirst`, `NbspSkipsAmp`, `AmpDecodedOnce` and `DecodeNbspLeft` |
| FloridaText.DecodeWithoutAmpersand | app/data/voter-stats/florida.ts:114-121 | text without `&` has no entity to decode |
| FloridaText.DecodeIsSinglePass | app/data/voter-stats/florida.ts:114-121 | decoding is one pass in a fixed order: `&amp;nbsp;` becomes `&nbsp;` and not a space |
| FloridaText.DecodeAmpFirst | app/data/voter-stats/florida.ts:116-117 | the first two replacements turn `&amp;nbsp;` into `&nbsp;` |
| FloridaText.NbspSkipsAmp | app/data/voter-stats/florida.ts:116 | the `&nbsp;` replacement does not touch `&amp;nbsp;` |
| FloridaText.AmpDecodedOnce | app/data/voter-stats/florida.ts:117 | the `&amp;` replacement turns `&amp;nbsp;` into `&nbsp;` |
| FloridaText.DecodeNbspLeft | app/data/voter-stats/florida.ts:118-120 | the last three replacements leave `&nbsp;` alone |
| FloridaText.ReplaceOnlyAtStart | app/data/voter-stats/florida.ts:114-121 | a replacement whose pattern starts with `&` leaves a text alone whose only `&` is at its start and does not begin the pattern |
| FloridaText.SpaceRun | app/data/voter-stats/florida.ts:126 | the length of the longest run of `\s` characters that starts the text |
| FloridaText.ReplaceBreaks | app/data/voter-stats/florida.ts:126 | a text without `<` is left as it is |
| FloridaText.ReplaceAllIgnoreCase | app/data/voter-stats/florida.ts:127-129 | a text without `<` is left as it is |
| FloridaText.TagEnd | app/data/voter-stats/florida.ts:130 | a tag ends at the first `>` after at least one other character |
| FloridaText.ReplaceTags | app/data/voter-stats/florida.ts:130 | a text without `<` is left as it is |
| FloridaText.FlattenHtmlToText | app/data/voter-stats/florida.ts:123-134 | turns breaks and row, paragraph and item ends into newlines and every other tag into a space, decodes entities, then turns carriage returns into newlines and no-break spaces into spaces; stated by `FlattenRemovesCarriageReturnAndNbsp`, `FlattenPlainText` and `FlattenBreakKeepsAngle` |
| FloridaText.FlattenRemovesCarriageReturnAndNbsp | app/data/voter-stats/florida.ts:123-134 | flattened text never holds a carriage return or a no-break space |
| FloridaText.FlattenPlainText | app/data/voter-stats/florida.ts:123-134 | text without `<`, `&`, carriage returns or no-break spaces is left as it is |
| FloridaText.FlattenBreakKeepsAngle | app/data/voter-stats/florida.ts:126-130 | `<br>` flattens to a newline followed by `>`, because the break pattern does not consume the `>` |
| FloridaText.CollapseWhitespace | app/data/voter-stats/florida.ts:137 | the result has only plain spaces as whitespace and never two in a row |
| FloridaText.CollapseKeeps | app/data/voter-stats/florida.ts:137 | every character that is not whitespace survives collapsing |
| FloridaText.CollapseAddsOnlySpaces | app/data/voter-stats/florida.ts:137 | collapsing adds no character other than a space |
| FloridaText.CollapseFixes | app/data/voter-stats/florida.ts:137 | collapsed text is left as it is |
| FloridaText.NormalizeLine | app/data/voter-stats/florida.ts:136-138 | collapses whitespace runs to one space and trims; stated by `NormalizeLineIsNormalized`, `NormalizeLineFixes`, `NormalizeLineIdempotent`, `NormalizeLineKeeps` and `NormalizeLineNoNewChars` |
| FloridaText.NormalizeLineIsNormalized | app/data/voter-stats/florida.ts:136-138 | a normalized line has no leading or trailing whitespace and single plain spaces inside |
| FloridaText.NormalizeLineFixes | app/data/voter-stats/florida.ts:136-138 | a line already in that shape is left as it is |
| FloridaText.NormalizeLineIdempotent | app/data/voter-stats/florida.ts:136-138 | normalizing twice is normalizing once |
| FloridaText.NormalizeLineKeeps | app/data/voter-stats/florida.ts:136-138 | characters other than whitespace survive normalization |
| FloridaText.NormalizeLineNoNewChars | app/data/voter-stats/florida.ts:136-138 | normalization adds no character other than a space |
| FloridaText.DigitsOf | app/data/voter-stats/florida.ts:141 | only digits are kept, and never more characters than the token has |
| FloridaText.DigitsOfConcat | app/data/voter-stats/florida.ts:141 | keeping the digits distributes over concatenation |
| FloridaText.DigitsOfDigits | app/data/voter-stats/florida.ts:141 | a token of digits only is kept whole |
| FloridaText.ParseIntegerToken | app/data/voter-stats/florida.ts:140-142 | the decimal value of the digits the token holds, every other character dropped; stated by `ParseIntegerTokenIgnoresComma`, `DigitsOf`, `DigitsOfConcat` and `DigitsOfDigits` |
| FloridaText.ParseIntegerTokenIgnoresComma | app/data/voter-stats/florida.ts:140-142 | a thousands separator anywhere in a token does not change its value |
| FloridaText.CleanDateText | app/data/voter-stats/florida.ts:149 | the text handed to the date parser has no period |
| FloridaText.ToIsoDate | app/data/voter-stats/florida.ts:144-159 | "Unknown" for an empty input; the cleaned text when the parser rejects it; otherwise the parsed date as year-MM-DD |
| FloridaText.PadTwoDigits | app/data/voter-stats/florida.ts:156-157 | a padded month or day has two digits and reads back as itself |
| FloridaText.IsoDateTextRoundTrip | app/data/voter-stats/florida.ts:155-158 | for a four-digit year the output is ten characters and reads back as the same calendar date |
| FloridaText.AfterAsOfLabel | app/data/voter-stats/florida.ts:165 | what follows the "Data as of" label is shorter than the text |
| FloridaText.LetterRun | app/data/voter-stats/florida.ts:165 | the length of the longest run of ASCII letters that starts the text |
| FloridaText.DigitRun | app/data/voter-stats/florida.ts:172 | the length of the longest run of digits that starts the text |
| FloridaText.MonthDayYearGroup | app/data/voter-stats/florida.ts:164-166 | a matched month-name group is a non-empty prefix of the text holding a digit |
| FloridaText.MonthDayYearSpan | app/data/voter-stats/florida.ts:165 | the group's length, past the position of a digit of the day |
| FloridaText.NumericDateGroup | app/data/voter-stats/florida.ts:171-173 | a matched numeric group is a non-empty prefix of the text holding a digit |
| FloridaText.MonthDateAt | app/data/voter-stats/florida.ts:164-166 | a month-name match after the label holds a digit |
| FloridaText.NumericDateAt | app/data/voter-stats/florida.ts:171-173 | a numeric match after the label holds a digit |
| FloridaText.FirstMatch | app/data/voter-stats/florida.ts:164-173 | no match exactly when the pattern matches at no position of the text |
| FloridaText.FirstMatchIsAMatch | app/data/voter-stats/florida.ts:164-173 | the leftmost match is the pattern's match at some position |
| FloridaText.IsoDateTextIsKnown | app/data/voter-stats/florida.ts:158 | a formatted date is never "Unknown" |
| FloridaText.CleanDateTextKeepsDigit | app/data/voter-stats/florida.ts:149 | cleaning keeps the digits of a date text |
| FloridaText.MatchedDateIsKnown | app/data/voter-stats/florida.ts:144-159 | a date text holding a digit never converts to "Unknown" |
| FloridaText.ExtractAsOfDate | app/data/voter-stats/florida.ts:161-179 | the ISO date of the first month-name date after "Data as of", else of the first numeric one, else "Unknown"; stated by `ExtractAsOfDateUnknown` and `ExtractAsOfDateOrder` |
| FloridaText.ExtractAsOfDateUnknown | app/data/voter-stats/florida.ts:161-179 | the date is "Unknown" exactly when neither pattern matches the flattened text |
| FloridaText.ExtractAsOfDateOrder | app/data/voter-stats/florida.ts:161-179 | the month-name date is used wherever it matches; the numeric date only when the month-name form matches nowhere |
| FloridaParser.TextLinesNormalized | app/data/voter-stats/florida.ts:213-217 | every line of a page is non-empty and normalized |
| FloridaParser.NumericRun | app/data/voter-stats/florida.ts:220 | the length of the longest run of `[\d,]` characters that starts the text |
| FloridaParser.NumericColumns | app/data/voter-stats/florida.ts:220 | a match of n space-separated columns is n tokens of digits and commas |
| FloridaParser.NumericColumnsOfColumns | app/data/voter-stats/florida.ts:220 | columns written out with a space before each read back as the same tokens |
| FloridaParser.NumericRunsOfColumns | app/data/voter-stats/florida.ts:224 | on a line of matched columns, the global `[\d,]+` match finds exactly those columns |
| FloridaParser.YearRowColumns | app/data/voter-stats/florida.ts:220 | a year row has exactly five count columns |
| FloridaParser.TotalsRowColumns | app/data/voter-stats/florida.ts:242 | a TOTALS row has exactly five count columns |
| FloridaParser.TotalsFromColumns | app/data/voter-stats/florida.ts:226-237 | republican, democratic, minor, NPA and total are the five columns read in that order |
| FloridaParser.YearRowRuns | app/data/voter-stats/florida.ts:224 | the tokens of a year row are its year followed by its five columns |
| FloridaParser.TotalsRowRuns | app/data/voter-stats/florida.ts:247 | the tokens of a TOTALS row are its five columns |
| FloridaParser.LatestRowTotals | app/data/voter-stats/florida.ts:224-225 | a year row has at least six tokens, the columns after the year |
| FloridaParser.LatestYearTotalsOfLatestRow | app/data/voter-stats/florida.ts:219-240 | with year rows present, the totals are read from the first row of the latest year |
| FloridaParser.TotalsRowTotalsOfFirstRow | app/data/voter-stats/florida.ts:242-258 | the TOTALS fallback reads the first TOTALS row, and gives nothing without one |
| FloridaParser.ParsePartyTotals | app/data/voter-stats/florida.ts:212-259 | the totals of the latest year row, else of the first TOTALS row, else none; stated by `PartyTotalsFromLatestYear`, `PartyTotalsFromTotalsRow`, `PartyTotalsNull` and `LinesTotalsNull` |
| FloridaParser.PartyTotalsFromLatestYear | app/data/voter-stats/florida.ts:212-240 | a page with year rows yields the totals of its latest year's first row |
| FloridaParser.PartyTotalsFromTotalsRow | app/data/voter-stats/florida.ts:242-258 | a page without year rows yields its first TOTALS row, or nothing |
| FloridaParser.PartyTotalsNull | app/data/voter-stats/florida.ts:212-259 | no totals exactly when the page has neither a year row nor a TOTALS row |
| FloridaParser.LinesTotalsNull | app/data/voter-stats/florida.ts:219-258 | no totals exactly when no line is a year row or a TOTALS row |
| FloridaParser.SampleYearRow | app/data/voter-stats/florida.ts:467-471 | the self-check's year row parses to 1,000 republicans, 500 NPA and a total of 2,500 |
| FloridaParser.SampleTokenValues | app/data/voter-stats/florida.ts:467-471 | the self-check's tokens "1,000", "500" and "2,500" read as 1000, 500 and 2500 |
| FloridaParser.ThousandsToken | app/data/voter-stats/florida.ts:140-142 | a token with one thousands separator reads as its digits joined |
| FloridaParser.YearRowColumnsOf | app/data/voter-stats/florida.ts:220 | a "20YY" year followed by five columns is a year row with those columns |
| FloridaParser.YearKeyOfYearRow | app/data/voter-stats/florida.ts:221 | the sort key of a year row is its four-digit year |
| FloridaParser.SplitFirstPiece | app/data/voter-stats/florida.ts:221 | the first piece of a split ends at the first separator |
| FloridaParser.CountyRowMatch | app/data/voter-stats/florida.ts:270-273 | a match splits the line into a name of at least two characters starting with an upper-case letter, followed by five count columns |
| FloridaParser.CountyRowMatchRoundTrip | app/data/voter-stats/florida.ts:270-273 | a county name followed by five columns matches as exactly that name and those columns |
| FloridaParser.CountyLineNameRun | app/data/voter-stats/florida.ts:272 | on such a line the non-numeric prefix is the name and one space |
| FloridaParser.ComputeShares | app/data/voter-stats/florida.ts:188-210 | all shares 0 for a zero total; otherwise each share times the total is its count |
| FloridaParser.ComputeSharesPartition | app/data/voter-stats/florida.ts:204-209 | when the four counts make up a positive total, the shares lie in [0, 1] and add up to one |
| FloridaParser.CapitalizeWords | app/data/voter-stats/florida.ts:184 | same length; exactly the word characters that start a word are upper-cased |
| FloridaParser.FormatCountyName | app/data/voter-stats/florida.ts:181-186 | same length; a character is upper-cased after lower-casing exactly when it starts a word, lower-cased otherwise |
| FloridaParser.FormatCountyNameIdempotent | app/data/voter-stats/florida.ts:181-186 | formatting a formatted name changes nothing |
| FloridaParser.FormatCountyNameHyphenated | app/data/voter-stats/florida.ts:184 | "MIAMI-DADE" is formatted as "Miami-Dade" |
| FloridaParser.FormatCountyNameAbbreviated | app/data/voter-stats/florida.ts:181-186 | "ST. JOHNS" is formatted as "St. Johns" |
| FloridaParser.CountyRowFromColumns | app/data/voter-stats/florida.ts:284-299 | the row carries the name, the five columns read in order, and the shares of its counts |
| FloridaParser.CountyRowOf | app/data/voter-stats/florida.ts:270-299 | a row made of a line carries the shares of its counts |
| FloridaParser.KeptName | app/data/voter-stats/florida.ts:279-299 | a matched line whose name is neither TOTALS nor COUNTY is the row of the formatted name and the columns |
| FloridaParser.SkippedName | app/data/voter-stats/florida.ts:279-282 | a matched line named TOTALS or COUNTY yields no row |
| FloridaParser.TotalsLineNoRow | app/data/voter-stats/florida.ts:280 | a TOTALS line yields no county row |
| FloridaParser.LowerSecondCharNoRow | app/data/voter-stats/florida.ts:272 | a line whose second character is a lower-case letter is no county row |
| FloridaParser.CountyRowsOfMembers | app/data/voter-stats/florida.ts:269-300 | a row is among the pushed rows exactly when some line makes it |
| FloridaParser.CountyRowsOfShares | app/data/voter-stats/florida.ts:290-299 | every pushed row carries the shares of its counts |
| FloridaParser.PushCountyRows | app/data/voter-stats/florida.ts:268-300 | the loop pushes the row of every line that makes one, in line order |
| FloridaParser.CountyRowsOfSnoc | app/data/voter-stats/florida.ts:269-300 | one more line adds its row, if it makes one, at the end |
| FloridaParser.CountyRows | app/data/voter-stats/florida.ts:261-303 | the county rows of the flattened page, sorted by total, largest first; stated by `ParseCountyRows` (the loop computes it) and `CountyRowsSorted` |
| FloridaParser.ParseCountyRows | app/data/voter-stats/florida.ts:261-303 | the result is the pushed rows sorted by total |
| FloridaParser.CountyRowsSorted | app/data/voter-stats/florida.ts:302 | the county rows are a permutation of the pushed rows, sorted by total largest first, keeping the order of equal totals, each with its shares |
| FloridaParser.SampleCountyRows | app/data/voter-stats/florida.ts:473-482 | a page shaped like the self-check's yields one county row, "Sample", with a total of 240 |
| FloridaParser.OneCountyRowPage | app/data/voter-stats/florida.ts:473-482 | two header lines, one county line and a TOTALS line yield exactly that county's row |
| FloridaParser.SampleRow | app/data/voter-stats/florida.ts:476 | the self-check's SAMPLE line yields the row "Sample" with a total of 240 |
| Florida.ParseFloridaPayload | app/data/voter-stats/florida.ts:305-325 | nothing exactly when the party page has no totals or the county page no county row; otherwise those totals and county rows |
| Florida.PayloadAsOfDate | app/data/voter-stats/florida.ts:316-318 | the party page's date unless it is "Unknown", then the county page's; "Unknown" exactly when neither page matches a date pattern |
| Florida.MergeSourceMeta | app/data/voter-stats/florida.ts:327-343 | both baselines keep their identity and carry the given date and check time |
| Florida.MergeSourceMetaInjective | app/data/voter-stats/florida.ts:327-343 | the metadata records exactly the date and check time it was given, and its two sources have different ids |
| Florida.RegistrationFields | app/data/voter-stats/florida.ts:359-372 | the record keeps the payload; lastRefreshed and both sources carry the given check time or the current time; the notes are the attribution and method notes then the diagnostics; usedFallback only when stated |
| Florida.BuildFloridaRegistration | app/data/voter-stats/florida.ts:345-373 | nothing exactly when the payload does not parse, otherwise the record of the parsed payload |
| Florida.RegistrationStamped | app/data/voter-stats/florida.ts:359-370 | a built registration is stamped with the given check time, or the current time, everywhere |
| Florida.RegistrationNullIff | app/data/voter-stats/florida.ts:354-357 | the registration exists exactly when the party page yields totals and the county page at least one county |
| Florida.RegistrationCountiesSorted | app/data/voter-stats/florida.ts:302 | a built registration's counties are non-empty, sorted by total largest first, each with shares of its total |
| Florida.FloridaFallbackRegistration | app/data/voter-stats/florida.ts:375-396 | the bundled pages built with the snapshot's options, or the hardcoded record when they do not parse |
| Florida.FallbackFields | app/data/voter-stats/florida.ts:375-396 | on either branch the fallback is marked as such and checked at the snapshot time |
| Florida.FallbackNotes | app/data/voter-stats/florida.ts:375-396 | parsed: the two standard notes and the loading note with the parsed data; otherwise the hardcoded-totals note and method note, hardcoded totals and no counties |
| Florida.FallbackOfParsed | app/data/voter-stats/florida.ts:376-379 | the bundled pages' record, once parsed, has the three notes, the fallback mark, the snapshot time and the parsed data |
| Florida.FallbackTotalsGap | app/data/voter-stats/florida.ts:381-387 | the hardcoded four party counts come to 1,000 fewer than the hardcoded total |
| Florida.BuildFloridaCompositionData | app/data/voter-stats/florida.ts:398-435 | no rows exactly when the total is zero; 3 rows in the two-party view, 4 otherwise; each row's percent is its value's fraction of the total, with its key's colour and label |
| Florida.CompositionRows | app/data/voter-stats/florida.ts:408-428 | the rows' keys and values in order; "other" is NPA plus minor in the two-party view |
| Florida.CompositionPercentsSum | app/data/voter-stats/florida.ts:398-435 | when the four parties make up the total, the values sum to it and the percents to one in both views |
| Florida.CompositionScaled | app/data/voter-stats/florida.ts:416-433 | the percents summed and scaled by the total give the values summed |
| Florida.CompositionValuesSum | app/data/voter-stats/florida.ts:408-428 | when the four parties make up the total, the row values sum to it in both views |
| Florida.RankingCandidates | app/data/voter-stats/florida.ts:445-449 | all rows for a blank query; else exactly the rows whose lower-cased name contains the trimmed lower-cased query, each matching row as often as in the input |
| Florida.GetCountyRanking | app/data/voter-stats/florida.ts:437-460 | the ranking is sorted by the key, largest first, and holds only rows of the input; which rows it holds is stated by `RankingIsSortedMatches` and `RankingPreview` |
| Florida.PrefixSorted | app/data/voter-stats/florida.ts:459 | the first ten of a sorted list are sorted and part of it |
| Florida.RankingIsSortedCandidates | app/data/voter-stats/florida.ts:451-457 | with a query or the full list, the ranking is a permutation of the candidates keeping the order of equal keys |
| Florida.RankingIsSortedMatches | app/data/voter-stats/florida.ts:437-460 | with a query or the full list, the ranking holds every matching input row exactly as often as the input does and no other row, and rows with equal keys keep their input order |
| Florida.RankingMembers | app/data/voter-stats/florida.ts:445-449 | a non-blank query keeps exactly the rows whose lower-cased name contains it |
| Florida.RankingBlankQuery | app/data/voter-stats/florida.ts:445-449 | a query of whitespace only acts as no query |
| Florida.BlankTrims | app/data/voter-stats/florida.ts:445 | a whitespace-only query normalizes to empty |
| Florida.RankingPreview | app/data/voter-stats/florida.ts:455-459 | without a query the collapsed list has min(10, count) rows and no row left out outranks a row shown |
| FloridaTrend.KeyIndex | app/data/voter-stats/florida-trend.ts:180-186 | every series key has its place in the list of series keys |
| FloridaTrend.Round | app/data/voter-stats/florida-trend.ts:64-67 | the nearest integer, halves rounded up, as Math.round |
| FloridaTrend.RoundOfInt | app/data/voter-stats/florida-trend.ts:64 | rounding an integer gives it back |
| FloridaTrend.BuildSeededSeries | app/data/voter-stats/florida-trend.ts:53-82 | the nested loops push 36 points, the point of month index i at position i |
| FloridaTrend.MonthOfIndex | app/data/voter-stats/florida-trend.ts:61-78 | month index q * 12 + r is month r of year q |
| FloridaTrend.SeedPointAt | app/data/voter-stats/florida-trend.ts:62-70 | the point of a year and month is dated the end of that month |
| FloridaTrend.SeedRepublican | app/data/voter-stats/florida-trend.ts:64 | the seeded Republicans are 5,300,000 plus 5,981 a month plus the month's wave |
| FloridaTrend.WaveBounds | app/data/voter-stats/florida-trend.ts:46 | each month's wave lies between 0 and 740 |
| FloridaTrend.SeedRepublicanRises | app/data/voter-stats/florida-trend.ts:64 | the seeded Republicans grow every month |
| FloridaTrend.SeedDemocraticFalls | app/data/voter-stats/florida-trend.ts:65 | the seeded Democrats shrink every month |
| FloridaTrend.WithFloridaTrendTotals | app/data/voter-stats/florida-trend.ts:87-94 | each point keeps its counts and gains the total of its four parties |
| FloridaTrend.MapFloridaTrendTwoParty | app/data/voter-stats/florida-trend.ts:96-111 | each chart point carries the raw counts, no NPA or minor series, and an Other series of NPA plus minor |
| FloridaTrend.MapFloridaTrendFullComposition | app/data/voter-stats/florida-trend.ts:113-128 | each chart point carries the raw counts and NPA and minor series equal to them, and no Other series |
| FloridaTrend.TwoPartyMergesFull | app/data/voter-stats/florida-trend.ts:96-128 | the two-party Other is the full composition's NPA plus minor, with the same Republicans and total |
| FloridaTrend.WriteSeriesValue | app/data/voter-stats/florida-trend.ts:150-174 | the written series reads back the value; every other series and every raw field is unchanged |
| FloridaTrend.PointExtensionality | app/data/voter-stats/florida-trend.ts:130-148 | two points with the same raw fields and the same series are equal |
| FloridaTrend.Transform | app/data/voter-stats/florida-trend.ts:198-212 | the copied point keeps the raw fields; each present series is replaced by the function of its value, absent ones stay absent |
| FloridaTrend.TransformStep | app/data/voter-stats/florida-trend.ts:201-210 | one turn of the key loop transforms one more series and leaves the rest |
| FloridaTrend.TransformDone | app/data/voter-stats/florida-trend.ts:201-212 | after the loop over every key the point is the transformed point |
| FloridaTrend.BaseIndex | app/data/voter-stats/florida-trend.ts:196 | the base is the first point whose date starts with the base key, or the first point when none does |
| FloridaTrend.BaseIndexFinds | app/data/voter-stats/florida-trend.ts:196 | the base index picks the point `find(...) ?? points[0]` picks |
| FloridaTrend.IndexedPoint | app/data/voter-stats/florida-trend.ts:198-212 | each present series is indexed against the base point's value of that series, absent ones stay absent |
| FloridaTrend.IndexedSeries | app/data/voter-stats/florida-trend.ts:188-214 | every point is indexed against the same base point; no points give none |
| FloridaTrend.ToIndexed | app/data/voter-stats/florida-trend.ts:188-214 | the loop over the points yields the indexed series |
| FloridaTrend.IndexPoint | app/data/voter-stats/florida-trend.ts:199-212 | the loop over the series keys yields the indexed point |
| FloridaTrend.IndexedBaseIsHundred | app/data/voter-stats/florida-trend.ts:208 | every present series of the base point is indexed to 100 |
| FloridaTrend.IndexValue | app/data/voter-stats/florida-trend.ts:206-208 | a value as a percentage of a positive base, 100 when the base is not positive; stated by `SelfIndexIsHundred` |
| FloridaTrend.SelfIndexIsHundred | app/data/voter-stats/florida-trend.ts:208 | a value indexed against itself is 100, a positive base or not |
| FloridaTrend.IndexedKeepsFrame | app/data/voter-stats/florida-trend.ts:198-212 | indexing keeps the number of points, their raw fields and which series are present |
| FloridaTrend.IndexedValue | app/data/voter-stats/florida-trend.ts:206-208 | against a positive base a present series becomes its value over the base's, times 100 |
| FloridaTrend.ShareSeries | app/data/voter-stats/florida-trend.ts:216-232 | one share point per point |
| FloridaTrend.ToShare | app/data/voter-stats/florida-trend.ts:216-232 | the loop over the points yields the share series |
| FloridaTrend.SharePointOf | app/data/voter-stats/florida-trend.ts:217-231 | the loop over the series keys yields the share point |
| FloridaTrend.ShareValue | app/data/voter-stats/florida-trend.ts:219-227 | a share keeps the raw fields and the present series; each present series times the denominator is 100 times its value |
| FloridaTrend.FullSharesSumToHundred | app/data/voter-stats/florida-trend.ts:216-232 | the shares of a full-composition point with a positive total add up to 100 |
| FloridaTrend.PointValuesMembers | app/data/voter-stats/florida-trend.ts:241-247 | a value is collected from a point exactly when one of the keys holds it |
| FloridaTrend.SeqMin | app/data/voter-stats/florida-trend.ts:254 | the smallest of the values, one of them |
| FloridaTrend.SeqMax | app/data/voter-stats/florida-trend.ts:255 | the largest of the values, one of them |
| FloridaTrend.Domain | app/data/voter-stats/florida-trend.ts:250-264 | [0, 1] without values; a flat series padded by the larger of the scaled value and 1; otherwise the span scaled by the padding on both sides; stated by `DomainOfNothing`, `DomainFlatWidth`, `DomainContains` and `GetDomain` |
| FloridaTrend.GetDomain | app/data/voter-stats/florida-trend.ts:234-265 | the loops over points and keys yield the domain of the collected values |
| FloridaTrend.DomainContains | app/data/voter-stats/florida-trend.ts:254-264 | with non-negative padding every collected value lies inside the domain |
| FloridaTrend.Widened | app/data/voter-stats/florida-trend.ts:262-264 | padding both ends keeps every value inside |
| FloridaTrend.DomainFlatWidth | app/data/voter-stats/florida-trend.ts:257-259 | a flat series gets a domain at least 2 wide, centred on its value |
| FloridaTrend.DomainOfNothing | app/data/voter-stats/florida-trend.ts:250-252 | without any present value the domain is [0, 1] |
| FloridaTrend.NothingPresent | app/data/voter-stats/florida-trend.ts:241-248 | when no key holds a value nothing is collected |
| FloridaTrend.BuildDelta | app/data/voter-stats/florida-trend.ts:303-320 | start plus delta is the end; the percent change is 0 from a zero start and otherwise the delta as a percentage of the start |
| FloridaTrend.ChipSeries | app/data/voter-stats/florida-trend.ts:282-287 | the mapped and transformed series has one point per input point |
| FloridaTrend.ChipsBetween | app/data/voter-stats/florida-trend.ts:289-326 | three chips |
| FloridaTrend.ChipsBetweenKeys | app/data/voter-stats/florida-trend.ts:291-326 | Rep, Dem and Other or NPA, each running from its series' value in the first point to its value in the last, 0 when absent |
| FloridaTrend.GetFloridaTrendDeltaChips | app/data/voter-stats/florida-trend.ts:267-327 | no chips for fewer than two points, three otherwise |
| FloridaTrend.DeltaChipKeys | app/data/voter-stats/florida-trend.ts:280-301 | the chips are Republican, Democratic and Other in the two-party view, NPA otherwise |
| FloridaTrend.DeltaChipsAbsolute | app/data/voter-stats/florida-trend.ts:279-326 | in absolute mode the chips run from the first point's counts to the last point's |
| Fetching.DiagnosticLog.constructor | app/api/voter-stats/fl/route.ts:51 | the diagnostics list starts empty |
| Fetching.DiagnosticLog.Push | app/api/voter-stats/fl/route.ts:35 | one note is appended at the end and nothing else changes |
| FloridaRoute.FetchTextFromUrl | app/api/voter-stats/fl/route.ts:15-29 | the body exactly on a response with an ok status; a failing status throws an Error naming the status and URL; a rejection rethrows its reason |
| FloridaRoute.StripScheme | app/api/voter-stats/fl/route.ts:37 | one leading `https://` or `http://` is removed, anything else is kept |
| FloridaRoute.MirrorUrl | app/api/voter-stats/fl/route.ts:38 | the mirror URL starts with the proxy prefix |
| FloridaRoute.MirrorUrlSchemeBlind | app/api/voter-stats/fl/route.ts:37-38 | a host and path reach the same mirror URL with either scheme or none |
| FloridaRoute.MirrorFetch | app/api/voter-stats/fl/route.ts:31-47 | nothing logged when the primary succeeds; the mirror's body and one note when only the mirror succeeds; an error and two notes when both fail; a text exactly when one of them succeeds |
| FloridaRoute.MirrorErrorChoice | app/api/voter-stats/fl/route.ts:44 | when both fail the mirror's error is rethrown if it is an Error, the primary's otherwise; a failing mirror status always gives the mirror's Error |
| FloridaRoute.FetchWithMirror | app/api/voter-stats/fl/route.ts:31-47 | returns what MirrorFetch returns and appends exactly its notes to the shared log |
| FloridaRoute.CaughtResponse | app/api/voter-stats/fl/route.ts:105-137 | the bundled snapshot re-stamped with the request time, the "unavailable" note appended, and one fixed diagnostic in a fallback meta |
| FloridaRoute.PagesResponse | app/api/voter-stats/fl/route.ts:59-104 | a built snapshot is served as fresh with the diagnostics; otherwise the parser note is appended and the re-stamped bundled snapshot is served with its notes followed by the diagnostics |
| FloridaRoute.PagesOf | app/api/voter-stats/fl/route.ts:54-57 | both pages and the diagnostics of both fetches, party page first, and none exactly when either fetch throws |
| FloridaRoute.FetchPages | app/api/voter-stats/fl/route.ts:54-57 | the two texts when both fetches succeed, with their notes appended to the log in order |
| FloridaRoute.RespondWithPages | app/api/voter-stats/fl/route.ts:59-104 | the response is PagesResponse of the builder's outcome for the log as it stood |
| FloridaRoute.Get | app/api/voter-stats/fl/route.ts:49-138 | the response is the caught response when a fetch throws, else the response for the built pages |
| FloridaRoute.ResponseOnFetchFailure | app/api/voter-stats/fl/route.ts:105-137 | a failing fetch of either page serves the re-stamped bundled snapshot with the fixed note and diagnostic |
| FloridaRoute.ResponseOnPages | app/api/voter-stats/fl/route.ts:54-104 | with both pages in, the builder gets the request time and both fetches' diagnostics; its snapshot is served fresh, or the bundled one with the parser note |
| FloridaRoute.ResponseStampedNow | app/api/voter-stats/fl/route.ts:49-137 | on every path the data and both sources are stamped with the request time, and meta repeats the data's lastRefreshed |
| FloridaRoute.ResponseFallbackFlag | app/api/voter-stats/fl/route.ts:65-129 | meta.usedFallback is false exactly when both pages were fetched and built into a snapshot |
| FloridaRoute.ResponseCleanRun | app/api/voter-stats/fl/route.ts:53-76 | when both primary fetches succeed no diagnostics are logged and a built snapshot is served fresh |
| FloridaRoute.BundledFallbackMarked | app/api/voter-stats/fl/route.ts:79-133 | with a bundled snapshot marked as a fallback, a response whose meta says fallback has data marked as one |
| FloridaRoute.FloridaFallbackServed | app/api/voter-stats/fl/route.ts:7-133 | the module's bundled snapshot is marked as a fallback on either branch, so a response whose meta says fallback has data marked as one |
| National.CuratedRowsAddUp | app/data/voter-stats/national.ts:15-61 | every curated Pew row's three shares add up to its total of 100 |
| National.BuildNationalSnapshot | app/data/voter-stats/national.ts:90-120 | the three sources and lastRefreshed are stamped with the given check time, else the current time; the notes are the bundled notes followed by the diagnostics; usedFallback holds unless stated false; the curated rows are unchanged |
| National.SnapshotOfFallback | app/data/voter-stats/national.ts:63-120 | building at the bundled check time without diagnostics gives back the bundled snapshot |
| National.GetNationalRows | app/data/voter-stats/national.ts:122-131 | the age rows for the age dimension, the gender rows for gender |
| National.BuildNationalChartData | app/data/voter-stats/national.ts:133-151 | one chart row per input row, in order, with group and the two party shares, and the independent share exactly when asked for |
| National.ChartRowsAddUp | app/data/voter-stats/national.ts:15-61 | the chart rows of either curated dimension, with the independent share, add up to 100 |
| NationalRoute.CheckSource | app/api/voter-stats/national/route.ts:13-25 | fulfilled exactly on a response with an ok status; a failing status rejects with an Error naming the status and URL; a rejected fetch passes its reason on |
| NationalRoute.FailureNotes | app/api/voter-stats/national/route.ts:37-50 | one note per rejected check, in source order; stated by `ReportFailures`, `FailureNotesEmpty`, `FailureNotesNameRejected`, `RejectedHasNote`, `NoteIffRejected` and `ChecksNameFailures` |
| NationalRoute.ReportFailures | app/api/voter-stats/national/route.ts:37-50 | the loop's diagnostics are one note per rejected check, in the order of the checks |
| NationalRoute.FailureNotesEmpty | app/api/voter-stats/national/route.ts:37-52 | no diagnostics exactly when every check was fulfilled, and never more diagnostics than checks |
| NationalRoute.FailureNotesNameRejected | app/api/voter-stats/national/route.ts:37-50 | every diagnostic is the note of some rejected check |
| NationalRoute.RejectedHasNote | app/api/voter-stats/national/route.ts:37-50 | every rejected check has its note among the diagnostics |
| NationalRoute.FailureNotesDistinct | app/api/voter-stats/national/route.ts:42-49 | the three sources' notes differ |
| NationalRoute.NoteIffRejected | app/api/voter-stats/national/route.ts:37-50 | a source's note is among the diagnostics exactly when its check was rejected |
| NationalRoute.NationalResponse | app/api/voter-stats/national/route.ts:27-70 | the national snapshot built with the request time, the check notes as diagnostics and a fallback mark exactly when there is a note, wrapped with a meta that repeats the refresh time, the mark and the notes; stated by `Get`, `ResponseShape`, `ResponseDiagnostics`, `ResponseFallbackIff` and `ResponseNamesFailures` |
| NationalRoute.Get | app/api/voter-stats/national/route.ts:27-70 | the response is the snapshot built from the three checks' diagnostics at the request time |
| NationalRoute.ResponseShape | app/api/voter-stats/national/route.ts:54-67 | the data is stamped with the request time, the meta repeats its lastRefreshed and usedFallback, and its notes are the method notes followed by the diagnostics |
| NationalRoute.ResponseDiagnostics | app/api/voter-stats/national/route.ts:52-66 | the meta's diagnostics are those of the checks, and the response is a fallback exactly when there are some |
| NationalRoute.ChecksFulfilled | app/api/voter-stats/national/route.ts:31-35 | all three checks are fulfilled exactly when all three fetches succeed |
| NationalRoute.ResponseFallbackIff | app/api/voter-stats/national/route.ts:52-64 | the response is marked as a fallback exactly when some source check failed |
| NationalRoute.ChecksNameFailures | app/api/voter-stats/national/route.ts:37-50 | the diagnostics name each source exactly when its check failed |
| NationalRoute.ResponseNamesFailures | app/api/voter-stats/national/route.ts:42-66 | the response's diagnostics name the Pew fact sheet, the Pew gender dataset and Gallup each exactly when that source's check failed |
| Konami.KeyDown | app/components/DebtKonamiEasterEgg.tsx:45-66 | a key in a form field changes nothing; otherwise the count stays below the code's length, and the unlock count grows only together with opening the overlay |
| Konami.KeyDownAdvances | app/components/DebtKonamiEasterEgg.tsx:50-62 | a matching key short of the end advances the count by one and changes nothing else |
| Konami.KeyDownCompletes | app/components/DebtKonamiEasterEgg.tsx:53-59 | the key that completes the code opens the overlay, adds one unlock and resets the count |
| Konami.KeyDownMismatch | app/components/DebtKonamiEasterEgg.tsx:65 | a key that does not match restarts the count at 1 for "arrowup" and 0 for anything else |
| Konami.RunLaunchCount | app/components/DebtKonamiEasterEgg.tsx:45-66 | over any run of keys the unlock count never falls and grows by at most one per key |
| Konami.RunTyping | app/components/DebtKonamiEasterEgg.tsx:46-48 | keys typed into form fields leave the state as it was |
| Konami.RunRest | app/components/DebtKonamiEasterEgg.tsx:50-62 | with part of the code matched, typing the rest of it opens the overlay with one more unlock |
| Konami.KonamiUnlocks | app/components/DebtKonamiEasterEgg.tsx:6-17 | from a count of zero, typing the ten keys of the code opens the overlay and adds exactly one unlock |
| Konami.TrackerKeyResets | app/components/DebtKonamiEasterEgg.tsx:114-117 | the synthetic "D" keydown matches no key of the code and resets the count, keeping the unlock count |
| Konami.DebtKonamiEasterEgg.constructor | app/components/DebtKonamiEasterEgg.tsx:29-31 | count zero, closed, no unlocks |
| Konami.DebtKonamiEasterEgg.OnKeyDown | app/components/DebtKonamiEasterEgg.tsx:45-66 | the new state is the handler's transition on that key |
| Konami.DebtKonamiEasterEgg.Dismiss | app/components/DebtKonamiEasterEgg.tsx:124 | closes the overlay and changes nothing else |
| Konami.DebtKonamiEasterEgg.OpenFloatingTracker | app/components/DebtKonamiEasterEgg.tsx:114-117 | the state after the component's own listener sees "D", then closed |
| RapidTap.Candidates | app/components/LogoRapidTapEasterEgg.tsx:27 | the earlier taps within 3800 ms of the new one, in order, followed by the new tap; each time is counted as often as it was tapped |
| RapidTap.Tap | app/components/LogoRapidTapEasterEgg.tsx:26-33 | opens exactly when five or more taps are in the window, then clears them; otherwise stores the taps in the window, always fewer than five |
| RapidTap.QuickTapsInit | app/components/LogoRapidTapEasterEgg.tsx:27 | every earlier tap of a quick run lies inside the last tap's window |
| RapidTap.QuickTapsStored | app/components/LogoRapidTapEasterEgg.tsx:26-33 | from no taps, up to four quick taps are all stored and none opens the overlay |
| RapidTap.StoredStep | app/components/LogoRapidTapEasterEgg.tsx:26-33 | a tap within the window of all stored taps, with room for it, is stored after them |
| RapidTap.FiveQuickTapsOpen | app/components/LogoRapidTapEasterEgg.tsx:6-7 | five taps within 3800 ms open the overlay on the fifth |
| RapidTap.LateTapStartsOver | app/components/LogoRapidTapEasterEgg.tsx:27-32 | a tap more than 3800 ms after every stored tap leaves only itself stored and does not open |
| RapidTap.CandidatesAllNow | app/components/LogoRapidTapEasterEgg.tsx:27 | when no earlier tap is in the window, the new tap is the only candidate |
| RapidTap.LogoRapidTapEasterEgg.constructor | app/components/LogoRapidTapEasterEgg.tsx:10-11 | no taps and closed |
| RapidTap.LogoRapidTapEasterEgg.OnClick | app/components/LogoRapidTapEasterEgg.tsx:14-34 | a click off the logo changes nothing; a click on it stores the tap's outcome and opens the overlay when the tap opens it |
| RapidTap.LogoRapidTapEasterEgg.Close | app/components/LogoRapidTapEasterEgg.tsx:70 | closes the overlay and keeps the taps |
| SourceCard.WithoutFragment | app/components/SourceCard.tsx:23 | the base has no `#`, is a prefix of the href, and is followed in the href by `#` when shorter |
| SourceCard.BuildSourceHref | app/components/SourceCard.tsx:9-25 | no link exactly when the href is absent or empty; the href unchanged without a page or with a page that is not a number; otherwise the href before its first `#`, then `#page=` and the number |
| SourceCard.NumberedLinkShape | app/components/SourceCard.tsx:23-24 | a numbered link starts with the href's fragment-free base plus `#page=`, and its only `#` is the one after the base |
| SourceCard.BuildSourceHrefIdempotent | app/components/SourceCard.tsx:9-25 | building the link again from a built link with the same page gives the same link |
| SourceCard.BadgeStatus | app/components/SourceCard.tsx:42-50 | "Source verified" exactly when a category is selected, "Awaiting selection" otherwise |
| SourceIndicator.LinkLabel | app/components/SourceIndicator.tsx:18-60 | the label is "Open PDF" exactly when the lower-cased URL contains ".pdf" or ends with "/pdf", "Open source" otherwise |
| SourceIndicator.IsPdf | app/components/SourceIndicator.tsx:18-20 | the lower-cased URL contains ".pdf" or ends in "/pdf"; stated by `LinkLabel`, `IsPdfIgnoresCase`, `IsPdfOfLower`, `PdfExtension`, `PdfSuffix` and `NoDotNoSlash` |
| SourceIndicator.IsPdfIgnoresCase | app/components/SourceIndicator.tsx:18-20 | two URLs equal up to ASCII case are both PDFs or neither |
| SourceIndicator.IsPdfOfLower | app/components/SourceIndicator.tsx:18-20 | lower-casing a URL first does not change whether it is a PDF |
| SourceIndicator.PdfExtension | app/components/SourceIndicator.tsx:18-20 | a URL holding ".pdf" in any case anywhere is a PDF |
| SourceIndicator.PdfSuffix | app/components/SourceIndicator.tsx:18-20 | a URL ending in "/pdf" in any case is a PDF |
| SourceIndicator.NoDotNoSlash | app/components/SourceIndicator.tsx:18-20 | a URL without `.` and without `/` is never a PDF |
| SourceIndicator.OpenAfter | app/components/SourceIndicator.tsx:26-43 | a click toggles the tooltip; a key leaves it open exactly when it was open and the key is not Escape; a blur leaves it open exactly when it was open and focus stays inside the wrapper |
| SourceIndicator.OnlyClickOpens | app/components/SourceIndicator.tsx:26-43 | a closed tooltip opens only on a click |
| SourceIndicator.ClickTwice | app/components/SourceIndicator.tsx:38 | two clicks restore the open state |
| SourceIndicator.SourceIndicator.constructor | app/components/SourceIndicator.tsx:17 | the tooltip starts closed |
| SourceIndicator.SourceIndicator.OnClick | app/components/SourceIndicator.tsx:38 | the new open state is the transition of a click |
| SourceIndicator.SourceIndicator.OnKeyDown | app/components/SourceIndicator.tsx:39-43 | the new open state is the transition of that key |
| SourceIndicator.SourceIndicator.OnBlur | app/components/SourceIndicator.tsx:26-30 | the new open state is the transition of that blur |
| StateBudgetExplorer.SortedCategories | components/StateBudgetExplorer.tsx:17-20 | the sorted categories are a permutation of the budget's, in non-increasing amount |
| StateBudgetExplorer.SortedKeepsTies | components/StateBudgetExplorer.tsx:18 | categories of equal amount keep their budget order (the sort is stable) |
| StateBudgetExplorer.InitialName | components/StateBudgetExplorer.tsx:22-24 | the first sorted category's name, or "" without categories |
| StateBudgetExplorer.InitialIsLargest | components/StateBudgetExplorer.tsx:17-24 | the initial selection names the budget's largest category, the first of several equally large ones |
| StateBudgetExplorer.Selected | components/StateBudgetExplorer.tsx:26-29 | none exactly without categories; a listed category of the selected name when there is one; the first sorted category otherwise |
| StateBudgetExplorer.InitialSelection | components/StateBudgetExplorer.tsx:22-29 | the initial name selects the first sorted category |
| StateBudgetExplorer.SelectingShowsIt | components/StateBudgetExplorer.tsx:26-29 | selecting a listed category's name selects a category of that name, that very one when names are unique |
| StateBudgetExplorer.Render | components/StateBudgetExplorer.tsx:31-57 | nothing exactly without categories; otherwise the sidebar, donut, centre label and detail all show the selected category |
| StateBudgetExplorer.Explorer.constructor | components/StateBudgetExplorer.tsx:17-24 | the state holds the sorted categories and the initial name |
| StateBudgetExplorer.Explorer.SelectCategory | components/StateBudgetExplorer.tsx:41-56 | the selected name becomes the category's, and a listed category then shows as active |
| StateCarousel.ChunkStates | app/components/StateCarousel.tsx:12-18 | the loop's slides are the states cut into consecutive chunks of the slide size |
| StateCarousel.ChunkedFlatten | app/components/StateCarousel.tsx:12-18 | the slides concatenated give back the states in order |
| StateCarousel.ChunkedSizes | app/components/StateCarousel.tsx:12-18 | no slide is empty or over the slide size, and every slide but the last is full |
| StateCarousel.ChunkedCount | app/components/StateCarousel.tsx:12-18 | the number of slides is the states' count divided by the slide size, rounded up |
| StateCarousel.CardsPerSlide | app/components/StateCarousel.tsx:26-28 | one or two cards, two exactly from a width of 768 |
| StateCarousel.LastSlideIndex | app/components/StateCarousel.tsx:36 | the index of the last slide, 0 without slides |
| StateCarousel.CurrentSlide | app/components/StateCarousel.tsx:37 | the active slide clamped to the last: never past either, equal to one of them |
| StateCarousel.CurrentIsASlide | app/components/StateCarousel.tsx:36-37 | with slides, the current slide is one of them |
| StateCarousel.Previous | app/components/StateCarousel.tsx:39-41 | one slide back, never below the first |
| StateCarousel.Next | app/components/StateCarousel.tsx:43-45 | one slide on, never past the last |
| StateCarousel.NextPreviousInverse | app/components/StateCarousel.tsx:39-45 | inside the range of slides, next and previous undo each other where they move |
| StateCarousel.SwipeMove | app/components/StateCarousel.tsx:51-66 | a swipe goes on exactly when it moved over 50 pixels left and back exactly when over 50 right |
| StateCarousel.KeyMove | app/components/StateCarousel.tsx:68-78 | ArrowLeft exactly goes back, ArrowRight exactly goes on |
| StateCarousel.Carousel.constructor | app/components/StateCarousel.tsx:21-23 | one card per slide, the first slide, no touch recorded |
| StateCarousel.Carousel.UpdateCardsPerSlide | app/components/StateCarousel.tsx:25-33 | the card count follows the width; nothing else changes |
| StateCarousel.Carousel.GoToPrevious | app/components/StateCarousel.tsx:39-41 | the active slide becomes the one before the current |
| StateCarousel.Carousel.GoToNext | app/components/StateCarousel.tsx:43-45 | the active slide becomes the one after the current |
| StateCarousel.Carousel.TouchStart | app/components/StateCarousel.tsx:47-49 | records the touch's x and changes nothing else |
| StateCarousel.Carousel.TouchEnd | app/components/StateCarousel.tsx:51-66 | without a start nothing moves; otherwise the swipe's move is made and the start cleared |
| StateCarousel.Carousel.KeyDown | app/components/StateCarousel.tsx:68-78 | the key's move is made; other keys change nothing |
| TrendChart.SeriesValue | app/components/voter-stats/FloridaRegistrationTrendChart.tsx:91-106 | the point's value of the series when it has one, 0 otherwise |
| TrendChart.RawValue | app/components/voter-stats/FloridaRegistrationTrendChart.tsx:108-123 | the raw count of each series; `other` falls back to NPA plus minor |
| TrendChart.RawOtherIsNpaPlusMinor | app/components/voter-stats/FloridaRegistrationTrendChart.tsx:108-123 | under both mappings the raw `other` count is the point's NPA plus minor |
| TrendChart.RawValueOfFrame | app/components/voter-stats/FloridaRegistrationTrendChart.tsx:108-123 | raw counts depend only on a point's frame, which indexing and shares keep |
| TrendChart.SeriesKeys | app/components/voter-stats/FloridaRegistrationTrendChart.tsx:291-295 | one key per plotted series, in the series' order |
| TrendChart.SeriesKeysOfView | app/components/voter-stats/FloridaRegistrationTrendChart.tsx:201-265 | republican, democratic, other in the two-party view; republican, democratic, npa, minor otherwise |
| TrendChart.SeriesMatchMapping | app/components/voter-stats/FloridaRegistrationTrendChart.tsx:201-265 | each mapping's points have exactly the series the chart plots in its view |
| TrendChart.Transformed | app/components/voter-stats/FloridaRegistrationTrendChart.tsx:267-275 | as many points as the data, the data itself in the absolute view |
| TrendChart.TransformedKeepsFrame | app/components/voter-stats/FloridaRegistrationTrendChart.tsx:267-275 | every view keeps each point's frame, its series and its raw counts |
| TrendChart.Sliced | app/components/voter-stats/FloridaRegistrationTrendChart.tsx:277-284 | a suffix of the data; all of it unless absolute with a bounded range, then the last 12 or 24 points or all when fewer |
| TrendChart.SlicedNested | app/components/voter-stats/FloridaRegistrationTrendChart.tsx:277-284 | the 12-month window is a suffix of the 24-month one |
| TrendChart.ComputeYDomain | app/components/voter-stats/FloridaRegistrationTrendChart.tsx:286-296 | [0, 1] in the share view, else the padded domain of the plotted values (8% indexed, 6% absolute) |
| TrendChart.PresentValuesHas | app/data/voter-stats/florida-trend.ts:239-248 | every present value of a listed series at any point is among the values the domain is taken over |
| TrendChart.PlottedInsideDomain | app/components/voter-stats/FloridaRegistrationTrendChart.tsx:286-296 | outside the share view every plotted value lies inside the y-axis domain |
| TrendChart.SeriesKeyOf | app/components/voter-stats/FloridaRegistrationTrendChart.tsx:158 | the series a data key names, exactly when it names one |
| TrendChart.TooltipPercent | app/components/voter-stats/FloridaRegistrationTrendChart.tsx:161 | with a positive total the percent times the total is 100 times the count; 0 otherwise |
| TrendChart.Row | app/components/voter-stats/FloridaRegistrationTrendChart.tsx:155-161 | a line keeps the entry's name, reports its share of the total, and without a point a raw count of 0 and the entry's own value |
| TrendChart.Tooltip | app/components/voter-stats/FloridaRegistrationTrendChart.tsx:144-161 | nothing exactly when inactive, without payload or without label; otherwise the label and one line per non-total entry against the first entry's point |
| TrendChart.TooltipDropsTotal | app/components/voter-stats/FloridaRegistrationTrendChart.tsx:155-156 | every line belongs to a payload entry other than the total |
| TrendChart.RowOfSeries | app/components/voter-stats/FloridaRegistrationTrendChart.tsx:158-161 | a series entry's line reports the point's raw count, the plotted value and the share of the total |
| TrendChart.PercentsSumToHundred | app/components/voter-stats/FloridaRegistrationTrendChart.tsx:155-161 | at a point whose counts make up its positive total, the plotted series' percentages add up to 100 in either view |
| TrendChart.MappedPointSums | app/components/voter-stats/FloridaRegistrationTrendChart.tsx:155-161 | a mapped point of any view whose four counts make up its positive total has percentages adding up to 100 |
| TrendChart.Chart.constructor | app/components/voter-stats/FloridaRegistrationTrendChart.tsx:199 | the range starts at "all" |
| TrendChart.Chart.SelectRange | app/components/voter-stats/FloridaRegistrationTrendChart.tsx:335 | the range becomes the chosen one, and "all" plots every transformed point |

## Left out

- Network I/O, Next.js `revalidate` caching and `NextResponse`: each fetch is an outcome the caller supplies, and a response is a record of its data and meta.
- Concurrency: `Promise.all` and `Promise.allSettled` are evaluated in source order, one outcome after another.
- FloridaRoute.PagesOf, FloridaRoute.FetchPages and FloridaRoute.ResponseOnPages: the two `fetchWithMirror` calls run at the same time under `Promise.all` and push onto the shared diagnostics list after their own awaits. The real order of the notes depends on timing. For example, when both primary fetches fail before either mirror answers, the list is party primary, county primary, party mirror, county mirror. The model takes the one schedule in which the party-page fetch finishes before the county-page fetch starts. The national route has no such gap: its `forEach` runs over the `allSettled` results in source order.
- Florida.FloridaFallbackRegistration: which branch the bundled page texts take is not proved, because evaluating the parser on the bundled page texts is beyond what the verifier can do within its resource limit. The party text has a 2025 year row and the county text has county rows, so by reading they take the parsed branch. Every fact about the bundled snapshot the route relies on, its fallback mark and its check time, is proved for both branches (`Florida.FallbackFields`).
- JavaScript `Date` parsing and `monthEndIso`: a string is turned into a date by the parameter `dateOf`, and month ends by the parameter `monthEnd`. The current time is the parameter `now`.
- `Intl` number and date formatting, `toFixed`, and the chart's axis and label formatters are not modelled.
- IEEE floating point: shares, indexed values, share values, percentages and padding are exact reals. Rounding error and `Number.isFinite` (every real is finite) are not modelled.
- `Number(page)` in the source card is the parameter `numberText`. `None` stands for NaN.
- Case mapping covers ASCII letters only. `toLowerCase` and `toUpperCase` of other characters, and the case-insensitive regular expressions beyond ASCII, are not modelled.
- DOM plumbing is a boolean input: `isTypingTarget` in the Konami egg, the `data-secret-logo` lookup in the rapid-tap egg, and the wrapper's `contains(relatedTarget)` in the source tooltip.
- Timers, focus handling, scroll locking, window listeners and their removal are not modelled.
- React rendering, JSX, styling, recharts, the Radix dialog and the fade-in observers are not modelled.
- StateCarousel.ChunkStates: a chunk size of 0 is excluded. The component only ever uses 1 or 2, and a size of 0 would make its loop run forever.
- StateBudgetExplorer.BudgetCategory: the provenance record of a category is dropped, because nothing in the explorer reads it.
- Non-mutation of inputs (for example `getCountyRanking` sorting a copy) holds trivially, because the model works on values.
- FloridaText.ParseIntegerToken: a token without any digit reads as 0, where JavaScript gives NaN. The only matchers that call it hand it tokens with digits, apart from a token made only of commas.
- The `console.assert` calls of `runFloridaParserSelfCheck` are stated as lemmas, for example `FloridaParser.SampleYearRow` and `FloridaParser.SampleCountyRows`. The development-only call site and the logging are not modelled.
- FloridaText.ReplaceBreaks, FloridaText.ReplaceAllIgnoreCase and FloridaText.ReplaceTags: their own contracts state only that text without `<` is unchanged. What flattening does with tags is stated through `FloridaText.FlattenBreakKeepsAngle` and `FloridaText.FlattenRemovesCarriageReturnAndNbsp`.
- The debt tracker, the budget datasets, the compare and dashboard pages, navigation, the waitlist and share features, and the other hardcoded datasets are not part of this model.
