/**
 * The line parsers of app/data/voter-stats/florida.ts: statewide party
 * totals (from the latest year row, else from a TOTALS row) and the county
 * rows with their shares, sorted by total.
 *
 * The page text is flattened, split at newlines, each line normalized and
 * empty lines dropped (`TextLines`). Each regular expression is a matcher
 * over one such line.
 */
module FloridaParser {
  import opened Wrappers
  import opened JsString
  import opened JsArray
  import opened Sorting
  import opened FloridaText
  import opened VoterTypes

  // ---------------------------------------------------------------------
  // Lines and numeric columns
  // ---------------------------------------------------------------------

  predicate NonEmptyLine(line: string) {
    |line| > 0
  }

  /** `text.split("\n").map(normalizeLine).filter((line) => line.length > 0)`. */
  function TextLines(text: string): seq<string> {
    NormalizedLines(Split(text, '\n'))
  }

  /** The normalized non-empty pieces, in order. */
  function NormalizedLines(pieces: seq<string>): seq<string> {
    Filter(Map(pieces, NormalizeLine), NonEmptyLine)
  }

  /** Every line handed to the matchers is non-empty and normalized. */
  lemma TextLinesNormalized(text: string)
    ensures forall line | line in TextLines(text) :: line != [] && IsNormalized(line)
  {
    NormalizedLinesNormalized(Split(text, '\n'));
  }

  lemma NormalizedLinesNormalized(pieces: seq<string>)
    ensures forall line | line in NormalizedLines(pieces) :: line != [] && IsNormalized(line)
  {
    var mapped := Map(pieces, NormalizeLine);
    forall line | line in mapped ensures IsNormalized(line) {
      var i :| 0 <= i < |mapped| && mapped[i] == line;
      NormalizeLineIsNormalized(pieces[i]);
    }
  }

  /** The `[\d,]` class. */
  predicate IsNumeric(c: char) {
    IsDigit(c) || c == ','
  }

  /** A match of `[\d,]+`. */
  predicate IsNumericToken(t: string) {
    t != [] && forall i | 0 <= i < |t| :: IsNumeric(t[i])
  }

  predicate AllNumericTokens(tokens: seq<string>) {
    forall k | 0 <= k < |tokens| :: IsNumericToken(tokens[k])
  }

  lemma AllNumericTokensCons(t: string, tokens: seq<string>)
    requires IsNumericToken(t) && AllNumericTokens(tokens)
    ensures AllNumericTokens([t] + tokens)
  {
    assert forall k | 1 <= k < |tokens| + 1 :: ([t] + tokens)[k] == tokens[k - 1];
  }

  /** The length of the `[\d,]*` run that starts `s`. */
  function NumericRun(s: string): (n: nat)
    ensures n <= |s|
    ensures forall i | 0 <= i < n :: IsNumeric(s[i])
    ensures n == |s| || !IsNumeric(s[n])
  {
    if s == [] || !IsNumeric(s[0]) then 0 else 1 + NumericRun(s[1..])
  }

  lemma NumericRunToken(s: string)
    requires NumericRun(s) > 0
    ensures IsNumericToken(s[..NumericRun(s)])
  {
    var m := NumericRun(s);
    forall i | 0 <= i < m ensures IsNumeric(s[..m][i]) {
      assert s[..m][i] == s[i];
    }
  }

  /** Matches `(\s+[\d,]+){n}$` against the whole of `t` and gives the runs. */
  function NumericColumns(t: string, n: nat): (r: Option<seq<string>>)
    ensures r.Some? ==> |r.value| == n && AllNumericTokens(r.value)
    decreases n
  {
    if n == 0 then (if t == [] then Some([]) else None)
    else
      var k := SpaceRun(t);
      if k == 0 then None
      else
        var u := t[k..];
        var m := NumericRun(u);
        if m == 0 then None
        else
          match NumericColumns(u[m..], n - 1)
          case None => None
          case Some(rest) =>
            ColumnToken(u, rest);
            Some([u[..m]] + rest)
  }

  /** A non-empty `[\d,]` run in front of numeric tokens is one more. */
  lemma ColumnToken(u: string, rest: seq<string>)
    requires NumericRun(u) > 0 && AllNumericTokens(rest)
    ensures AllNumericTokens([u[..NumericRun(u)]] + rest)
  {
    NumericRunToken(u);
    AllNumericTokensCons(u[..NumericRun(u)], rest);
  }

  /** Columns written out, each after a single space. */
  function Columns(tokens: seq<string>): string {
    if tokens == [] then [] else " " + tokens[0] + Columns(tokens[1..])
  }

  lemma {:induction false} NumericRunConcat(a: string, b: string)
    requires forall i | 0 <= i < |a| :: IsNumeric(a[i])
    requires b == [] || !IsNumeric(b[0])
    ensures NumericRun(a + b) == |a|
    decreases |a|
  {
    if a == [] {
      assert a + b == b;
    } else {
      assert (a + b)[1..] == a[1..] + b;
      NumericRunConcat(a[1..], b);
    }
  }

  /** The index of the first `[\d,]` character of `s`, or its length. */
  function NonNumericRun(s: string): (n: nat)
    ensures n <= |s|
    ensures forall i | 0 <= i < n :: !IsNumeric(s[i])
    ensures n == |s| || IsNumeric(s[n])
  {
    if s == [] || IsNumeric(s[0]) then 0 else 1 + NonNumericRun(s[1..])
  }

  lemma {:induction false} NonNumericRunConcat(a: string, b: string)
    requires forall i | 0 <= i < |a| :: !IsNumeric(a[i])
    requires b != [] && IsNumeric(b[0])
    ensures NonNumericRun(a + b) == |a|
    decreases |a|
  {
    if a == [] {
      assert a + b == b;
    } else {
      assert (a + b)[1..] == a[1..] + b;
      NonNumericRunConcat(a[1..], b);
    }
  }

  /** The column matcher reads back the columns it is given. */
  lemma {:induction false} NumericColumnsOfColumns(tokens: seq<string>)
    requires AllNumericTokens(tokens)
    ensures NumericColumns(Columns(tokens), |tokens|) == Some(tokens)
    decreases |tokens|
  {
    if tokens != [] {
      var t, tail := tokens[0], tokens[1..];
      assert AllNumericTokens(tail) by {
        forall k | 0 <= k < |tail| ensures IsNumericToken(tail[k]) {
          assert tail[k] == tokens[k + 1];
        }
      }
      NumericColumnsOfColumns(tail);
      NumericColumnsCons(t, tail);
      assert tokens == [t] + tail;
    }
  }

  /** One more token in front of columns the matcher reads back. */
  lemma NumericColumnsCons(t: string, tail: seq<string>)
    requires IsNumericToken(t)
    requires NumericColumns(Columns(tail), |tail|) == Some(tail)
    ensures NumericColumns(Columns([t] + tail), |tail| + 1) == Some([t] + tail)
  {
    var rest := Columns(tail);
    ColumnsStartWithSpace(tail);
    NumericColumnsStep(t, rest, |tail|, tail);
    assert ([t] + tail)[1..] == tail;
    assert Columns([t] + tail) == " " + t + rest;
  }

  lemma ColumnsStartWithSpace(tokens: seq<string>)
    ensures Columns(tokens) == [] || Columns(tokens)[0] == ' '
  {
  }

  /** One more column in front: a space and a numeric token. */
  lemma NumericColumnsStep(t: string, rest: string, n: nat, cols: seq<string>)
    requires IsNumericToken(t) && (rest == [] || rest[0] == ' ')
    requires NumericColumns(rest, n) == Some(cols)
    ensures NumericColumns(" " + t + rest, n + 1) == Some([t] + cols)
  {
    var s := " " + t + rest;
    var u := t + rest;
    assert s == " " + u && u[0] == t[0] && IsNumeric(t[0]);
    SpaceRunAfterSpace(u);
    assert s[1..] == u;
    NumericRunConcat(t, rest);
    assert u[..|t|] == t && u[|t|..] == rest;
  }

  /** `line.match(/[\d,]+/g)`: every maximal run of digits and commas. */
  function NumericRuns(s: string): (r: seq<string>)
    decreases |s|
  {
    if s == [] then []
    else if IsNumeric(s[0]) then
      var m := NumericRun(s);
      [s[..m]] + NumericRuns(s[m..])
    else NumericRuns(s[1..])
  }

  lemma {:induction false} NumericRunsSkip(s: string, k: nat)
    requires k <= |s|
    requires forall i | 0 <= i < k :: !IsNumeric(s[i])
    ensures NumericRuns(s) == NumericRuns(s[k..])
    decreases k
  {
    if k > 0 {
      assert s[1..][k - 1..] == s[k..];
      NumericRunsSkip(s[1..], k - 1);
    }
  }

  /** The global `[\d,]+` match of a line finds exactly its columns. */
  lemma {:induction false} NumericRunsOfColumns(t: string, n: nat)
    requires NumericColumns(t, n).Some?
    ensures NumericRuns(t) == NumericColumns(t, n).value
    decreases n
  {
    if n == 0 {
      assert t == [];
    } else {
      var k := SpaceRun(t);
      var u := t[k..];
      var m := NumericRun(u);
      var rest := NumericColumns(u[m..], n - 1);
      assert k > 0 && m > 0 && rest.Some?;
      assert NumericColumns(t, n).value == [u[..m]] + rest.value;
      forall i | 0 <= i < k ensures !IsNumeric(t[i]) {
        SpaceNotNumeric(t[i]);
      }
      NumericRunsSkip(t, k);
      assert NumericRuns(u) == [u[..m]] + NumericRuns(u[m..]);
      NumericRunsOfColumns(u[m..], n - 1);
    }
  }

  lemma SpaceNotNumeric(c: char)
    requires IsSpace(c)
    ensures !IsNumeric(c)
  {
  }

  // ---------------------------------------------------------------------
  // Statewide party totals
  // ---------------------------------------------------------------------

  /** `^20\d{2}\s+[\d,]+\s+[\d,]+\s+[\d,]+\s+[\d,]+\s+[\d,]+$`: the five
      count columns of a year row. */
  function YearRowColumns(line: string): (r: Option<seq<string>>)
    ensures r.Some? ==> |r.value| == 5
  {
    if |line| >= 4 && line[0] == '2' && line[1] == '0' && IsDigit(line[2]) && IsDigit(line[3])
    then NumericColumns(line[4..], 5)
    else None
  }

  predicate IsYearRow(line: string) {
    YearRowColumns(line).Some?
  }

  /** `^TOTALS\s+[\d,]+\s+[\d,]+\s+[\d,]+\s+[\d,]+\s+[\d,]+$` under the `i`
      flag: the five count columns of a totals row. */
  function TotalsRowColumns(line: string): (r: Option<seq<string>>)
    ensures r.Some? ==> |r.value| == 5
  {
    if StartsWithIgnoreCase(line, "totals") then NumericColumns(line[6..], 5) else None
  }

  predicate IsTotalsRow(line: string) {
    TotalsRowColumns(line).Some?
  }

  /** The sort key of a year row, `parseIntegerToken(line.split(" ")[0])`. */
  function YearKey(line: string): real {
    ParseIntegerToken(Split(line, ' ')[0]) as real
  }

  /** The first five counts in the pages' column order: republican,
      democratic, minor, no party affiliation, total. */
  function TotalsFromColumns(columns: seq<string>): (t: FloridaPartyTotals)
    requires |columns| >= 5
    ensures t.republican == ParseIntegerToken(columns[0]) && t.democratic == ParseIntegerToken(columns[1])
    ensures t.minor == ParseIntegerToken(columns[2]) && t.npa == ParseIntegerToken(columns[3])
    ensures t.total == ParseIntegerToken(columns[4])
  {
    FloridaPartyTotals(
      republican := ParseIntegerToken(columns[0]),
      democratic := ParseIntegerToken(columns[1]),
      npa := ParseIntegerToken(columns[3]),
      minor := ParseIntegerToken(columns[2]),
      total := ParseIntegerToken(columns[4]))
  }

  /** The totals of the first row of the latest year, as the sort of the
      year rows and the global token match find them. */
  function LatestYearTotals(lines: seq<string>): Option<FloridaPartyTotals> {
    var candidates := SortDesc(Filter(lines, IsYearRow), YearKey);
    if |candidates| > 0 then
      var tokens := NumericRuns(candidates[0]);
      if |tokens| >= 6 then Some(TotalsFromColumns(tokens[1..])) else None
    else None
  }

  /** The totals of the first TOTALS row. */
  function TotalsRowTotals(lines: seq<string>): Option<FloridaPartyTotals> {
    match Find(lines, IsTotalsRow)
    case None => None
    case Some(line) =>
      var tokens := NumericRuns(line);
      if |tokens| < 5 then None else Some(TotalsFromColumns(tokens))
  }

  /** parsePartyTotalsFromText. */
  function ParsePartyTotals(content: string): Option<FloridaPartyTotals> {
    LinesTotals(TextLines(FlattenHtmlToText(content)))
  }

  /** The totals of the latest year row, else of the first TOTALS row. */
  function LinesTotals(lines: seq<string>): Option<FloridaPartyTotals> {
    var fromYearRow := LatestYearTotals(lines);
    if fromYearRow.Some? then fromYearRow else TotalsRowTotals(lines)
  }

  /** The global match of a year row finds the year and its five columns, so
      the `tokens.length >= 6` test always passes. */
  lemma YearRowRuns(line: string)
    requires IsYearRow(line)
    ensures NumericRuns(line) == [line[..4]] + YearRowColumns(line).value
  {
    assert |line| >= 4 && line[0] == '2' && line[1] == '0' && IsDigit(line[2]) && IsDigit(line[3]);
    assert YearRowColumns(line) == NumericColumns(line[4..], 5);
    assert SpaceRun(line[4..]) > 0;
    SpaceNotNumeric(line[4]);
    forall i | 0 <= i < 4 ensures IsNumeric(line[i]) {
      if i < 2 {
        assert i == 0 || i == 1;
      } else {
        assert i == 2 || i == 3;
      }
    }
    NumericPrefixRuns(line, 4);
    NumericRunsOfColumns(line[4..], 5);
  }

  /** The global match starts with the leading `[\d,]` run of `line`. */
  lemma NumericPrefixRuns(line: string, k: nat)
    requires 0 < k <= |line|
    requires forall i | 0 <= i < k :: IsNumeric(line[i])
    requires k == |line| || !IsNumeric(line[k])
    ensures NumericRuns(line) == [line[..k]] + NumericRuns(line[k..])
  {
    var run := line[..k];
    var rest := line[k..];
    forall i | 0 <= i < k ensures IsNumeric(run[i]) {
      assert run[i] == line[i];
    }
    assert run + rest == line;
    NumericRunConcat(run, rest);
  }

  lemma LowerLetterNotNumeric(c: char)
    requires IsAsciiLower(ToLowerChar(c))
    ensures !IsNumeric(c)
  {
  }

  lemma TotalsIsLowerLetters()
    ensures forall j | 0 <= j < 6 :: IsAsciiLower("totals"[j])
  {
  }

  /** The global match of a totals row finds exactly its five columns. */
  lemma TotalsRowRuns(line: string)
    requires IsTotalsRow(line)
    ensures NumericRuns(line) == TotalsRowColumns(line).value
  {
    assert ToLower(line[..6]) == "totals";
    TotalsIsLowerLetters();
    forall i | 0 <= i < 6 ensures !IsNumeric(line[i]) {
      assert line[..6][i] == line[i];
      assert ToLower(line[..6])[i] == ToLowerChar(line[i]);
      LowerLetterNotNumeric(line[i]);
    }
    NumericRunsSkip(line, 6);
    NumericRunsOfColumns(line[6..], 5);
  }

  /** With year rows present, the first row of the largest year gives the
      totals, columns 1-5. */
  lemma LatestYearTotalsOfLatestRow(lines: seq<string>)
    requires Filter(lines, IsYearRow) != []
    ensures var years := Filter(lines, IsYearRow);
            var top := years[FirstMaxIndex(years, YearKey)];
            IsYearRow(top) && LatestYearTotals(lines) == Some(TotalsFromColumns(YearRowColumns(top).value))
  {
    var years := Filter(lines, IsYearRow);
    var top := years[FirstMaxIndex(years, YearKey)];
    assert top in years;
    SortDescHead(years, YearKey);
    assert SortDesc(years, YearKey)[0] == top;
    LatestRowTotals(top);
  }

  /** The totals a year row contributes, columns 1-5 of its global match. */
  lemma LatestRowTotals(top: string)
    requires IsYearRow(top)
    ensures var tokens := NumericRuns(top);
            |tokens| >= 6 && tokens[1..] == YearRowColumns(top).value
  {
    YearRowRuns(top);
  }

  /** The first TOTALS row gives the totals, columns 0-4. */
  lemma TotalsRowTotalsOfFirstRow(lines: seq<string>)
    ensures match FindIndex(lines, IsTotalsRow)
            case None => TotalsRowTotals(lines).None?
            case Some(k) => TotalsRowTotals(lines) == Some(TotalsFromColumns(TotalsRowColumns(lines[k]).value))
  {
    match FindIndex(lines, IsTotalsRow)
    case None => {}
    case Some(k) => {
      assert Find(lines, IsTotalsRow) == Some(lines[k]);
      TotalsRowRuns(lines[k]);
    }
  }

  /** When year rows exist, the totals come from the first row of the largest
      year (`FirstMaxIndex`: every earlier row has a strictly smaller year and
      no row a larger one), mapped columns 1-5 in page order. */
  lemma PartyTotalsFromLatestYear(content: string)
    requires Filter(TextLines(FlattenHtmlToText(content)), IsYearRow) != []
    ensures var years := Filter(TextLines(FlattenHtmlToText(content)), IsYearRow);
            var top := years[FirstMaxIndex(years, YearKey)];
            IsYearRow(top) && ParsePartyTotals(content) == Some(TotalsFromColumns(YearRowColumns(top).value))
  {
    LatestYearTotalsOfLatestRow(TextLines(FlattenHtmlToText(content)));
  }

  /** Without a year row, the totals come from the first TOTALS row (any
      letter case), columns 0-4 in page order; with neither the result is
      null. */
  lemma PartyTotalsFromTotalsRow(content: string)
    requires Filter(TextLines(FlattenHtmlToText(content)), IsYearRow) == []
    ensures var lines := TextLines(FlattenHtmlToText(content));
            match FindIndex(lines, IsTotalsRow)
            case None => ParsePartyTotals(content).None?
            case Some(k) => ParsePartyTotals(content) == Some(TotalsFromColumns(TotalsRowColumns(lines[k]).value))
  {
    var lines := TextLines(FlattenHtmlToText(content));
    assert LatestYearTotals(lines).None?;
    TotalsRowTotalsOfFirstRow(lines);
  }

  /** parsePartyTotalsFromText returns null exactly when the page has neither a
      year row nor a TOTALS row. */
  lemma PartyTotalsNull(content: string)
    ensures var lines := TextLines(FlattenHtmlToText(content));
            var none := forall i | 0 <= i < |lines| :: !IsYearRow(lines[i]) && !IsTotalsRow(lines[i]);
            ParsePartyTotals(content).None? <==> none
  {
    LinesTotalsNull(TextLines(FlattenHtmlToText(content)));
  }

  lemma LinesTotalsNull(lines: seq<string>)
    ensures LinesTotals(lines).None? <==> forall i | 0 <= i < |lines| :: !IsYearRow(lines[i]) && !IsTotalsRow(lines[i])
  {
    var years := Filter(lines, IsYearRow);
    if years != [] {
      LatestYearTotalsOfLatestRow(lines);
      var top := years[FirstMaxIndex(years, YearKey)];
      assert top in lines;
    } else {
      forall i | 0 <= i < |lines| ensures !IsYearRow(lines[i]) {
        assert lines[i] in lines;
      }
      TotalsRowTotalsOfFirstRow(lines);
    }
  }

  /** The year row of the sample page, "2026 1,000 900 100 500 2,500" (the
      year and five columns, each after one space): republican 1000, no
      party affiliation 500, total 2500. */
  lemma SampleYearRow()
    ensures var line := "2026" + Columns(["1,000", "900", "100", "500", "2,500"]);
            IsYearRow(line)
            && var t := TotalsFromColumns(YearRowColumns(line).value);
               t.republican == 1000 && t.npa == 500 && t.total == 2500
  {
    var cols := ["1,000", "900", "100", "500", "2,500"];
    assert AllNumericTokens(cols) by {
      assert IsNumericToken("1,000") && IsNumericToken("900") && IsNumericToken("100");
      assert IsNumericToken("500") && IsNumericToken("2,500");
    }
    YearRowColumnsOf("2026", cols);
    SampleTokenValues();
  }

  lemma SampleTokenValues()
    ensures ParseIntegerToken("1,000") == 1000
    ensures ParseIntegerToken("500") == 500
    ensures ParseIntegerToken("2,500") == 2500
  {
    Value1000();
    Value500();
    Value2500();
    ThousandsToken("1", "000", "1000");
    assert "1" + "," + "000" == "1,000";
    ThousandsToken("2", "500", "2500");
    assert "2" + "," + "500" == "2,500";
    DigitsToken("500");
  }

  lemma Value1000()
    ensures DigitsValue("1000") == 1000
  {
    assert "1000"[..3] == "100" && "100"[..2] == "10" && "10"[..1] == "1";
  }

  lemma Value500()
    ensures DigitsValue("500") == 500
  {
    assert "500"[..2] == "50" && "50"[..1] == "5";
  }

  lemma Value2500()
    ensures DigitsValue("2500") == 2500
  {
    assert "2500"[..3] == "250" && "250"[..2] == "25" && "25"[..1] == "2";
  }

  lemma ThousandsToken(a: string, b: string, digits: string)
    requires a + b == digits
    requires forall i | 0 <= i < |digits| :: IsDigit(digits[i])
    ensures ParseIntegerToken(a + "," + b) == DigitsValue(digits)
  {
    ParseIntegerTokenIgnoresComma(a, b);
    DigitsToken(digits);
  }

  lemma DigitsToken(s: string)
    requires forall i | 0 <= i < |s| :: IsDigit(s[i])
    ensures ParseIntegerToken(s) == DigitsValue(s)
  {
    DigitsOfDigits(s);
  }

  /** The year matcher reads back a year followed by five columns. */
  lemma YearRowColumnsOf(year: string, cols: seq<string>)
    requires |year| == 4 && year[0] == '2' && year[1] == '0' && IsDigit(year[2]) && IsDigit(year[3])
    requires |cols| == 5 && AllNumericTokens(cols)
    ensures YearRowColumns(year + Columns(cols)) == Some(cols)
  {
    var line := year + Columns(cols);
    assert line[..4] == year && line[4..] == Columns(cols);
    assert line[0] == '2' && line[1] == '0' && IsDigit(line[2]) && IsDigit(line[3]);
    NumericColumnsOfColumns(cols);
  }

  /** In a normalized year row the sort key is the year itself, 20YY. */
  lemma YearKeyOfYearRow(line: string)
    requires IsYearRow(line) && IsNormalized(line)
    ensures |line| >= 4 && YearKey(line) == YearOf(line) as real
  {
    assert |line| >= 4 && line[0] == '2' && line[1] == '0' && IsDigit(line[2]) && IsDigit(line[3]);
    assert YearRowColumns(line) == NumericColumns(line[4..], 5);
    assert SpaceRun(line[4..]) > 0;
    assert IsSpace(line[4]);
    assert line[4] == ' ';
    YearKeyOfYearText(line);
  }

  /** The year `20YY` a row starts with. */
  function YearOf(line: string): int
    requires |line| >= 4
  {
    2000 + 10 * (line[2] as int - '0' as int) + (line[3] as int - '0' as int)
  }

  lemma YearKeyOfYearText(line: string)
    requires |line| >= 5 && line[0] == '2' && line[1] == '0' && IsDigit(line[2]) && IsDigit(line[3])
    requires line[4] == ' '
    ensures YearKey(line) == YearOf(line) as real
  {
    var year := line[..4];
    assert year == [line[0], line[1], line[2], line[3]];
    SplitFirstPiece(line, ' ', 4);
    DigitsOfDigits(year);
    var y3 := year[..3];
    var y2 := y3[..2];
    var y1 := y2[..1];
    assert y1 == ['2'] && y2 == ['2', '0'] && y3 == ['2', '0', line[2]];
    assert y1[..0] == [];
    assert DigitsValue(y1) == 2;
    assert DigitsValue(y2) == 20;
    assert DigitsValue(y3) == 200 + (line[2] as int - '0' as int);
    assert DigitsValue(year) == YearOf(line);
  }

  lemma {:induction false} SplitFirstPiece(s: string, separator: char, k: nat)
    requires k < |s| && s[k] == separator
    requires separator !in s[..k]
    ensures Split(s, separator)[0] == s[..k]
    decreases k
  {
    if k > 0 {
      assert s[1..][..k - 1] == s[1..k];
      assert separator !in s[1..][..k - 1];
      SplitFirstPiece(s[1..], separator, k - 1);
      assert s[..k] == [s[0]] + s[1..][..k - 1];
    }
  }

  // ---------------------------------------------------------------------
  // County rows
  // ---------------------------------------------------------------------

  /** The `[A-Z.\-\s]` class. */
  predicate IsNameChar(c: char) {
    IsAsciiUpper(c) || c == '.' || c == '-' || IsSpace(c)
  }

  predicate NameCharsBefore(line: string, e: nat)
    requires e <= |line|
  {
    forall i | 1 <= i < e :: IsNameChar(line[i])
  }

  /** `^([A-Z][A-Z.\-\s]+?)\s+([\d,]+)\s+([\d,]+)\s+([\d,]+)\s+([\d,]+)\s+([\d,]+)$`:
      the raw name and the five columns. The name cannot hold a digit or a
      comma, so it ends before the first one; being lazy, it stops at the
      whitespace run that precedes that character, but takes at least two
      characters. */
  function CountyRowMatch(line: string): (r: Option<(string, seq<string>)>)
    ensures r.Some? ==> StartsWith(line, r.value.0)
                        && NumericColumns(line[|r.value.0|..], 5) == Some(r.value.1)
    ensures r.Some? ==> |r.value.0| >= 2 && IsAsciiUpper(r.value.0[0])
  {
    var f := NonNumericRun(line);
    var w := |TrimEnd(line[..f])|;
    var e := if w < 2 then 2 else w;
    if e > |line| || !IsAsciiUpper(line[0]) || !NameCharsBefore(line, e) then None
    else
      match NumericColumns(line[e..], 5)
      case None => None
      case Some(cols) => Some((line[..e], cols))
  }

  /** A county name as the pages print it. */
  predicate IsCountyName(name: string) {
    && |name| >= 2
    && IsAsciiUpper(name[0])
    && (forall i | 0 <= i < |name| :: IsNameChar(name[i]))
    && !IsSpace(name[|name| - 1])
  }

  /** The county matcher reads back a name followed by five columns. */
  lemma CountyRowMatchRoundTrip(name: string, cols: seq<string>)
    requires IsCountyName(name)
    requires |cols| == 5 && AllNumericTokens(cols)
    ensures CountyRowMatch(name + Columns(cols)) == Some((name, cols))
  {
    var rest := Columns(cols);
    var line := name + rest;
    CountyLineNameRun(name, cols);
    assert rest == " " + cols[0] + Columns(cols[1..]);
    CountyNameEnd(name, rest);
    CountyNameChars(name, rest);
    NumericColumnsOfColumns(cols);
    CountyRowMatchWhen(line, |name|, cols);
  }

  /** Up to the space after it, a county line trims back to its name. */
  lemma CountyNameEnd(name: string, rest: string)
    requires |name| >= 2 && !IsSpace(name[|name| - 1])
    requires rest != [] && rest[0] == ' '
    ensures TrimEnd((name + rest)[..|name| + 1]) == name
  {
    assert (name + rest)[..|name| + 1] == name + " ";
    var s := name + " ";
    assert s[..|s| - 1] == name;
    assert TrimEnd(name) == name;
  }

  /** A county line holds its name's characters up to the name's end. */
  lemma CountyNameChars(name: string, rest: string)
    requires IsCountyName(name)
    ensures var line := name + rest;
            IsAsciiUpper(line[0]) && NameCharsBefore(line, |name|)
            && line[..|name|] == name && line[|name|..] == rest
  {
    var line := name + rest;
    forall i | 1 <= i < |name| ensures IsNameChar(line[i]) {
      assert line[i] == name[i];
    }
  }

  /** The matcher's result once its name end and its columns are known. */
  lemma CountyRowMatchWhen(line: string, e: nat, cols: seq<string>)
    requires 2 <= e <= |line| && IsAsciiUpper(line[0]) && NameCharsBefore(line, e)
    requires |TrimEnd(line[..NonNumericRun(line)])| == e
    requires NumericColumns(line[e..], 5) == Some(cols)
    ensures CountyRowMatch(line) == Some((line[..e], cols))
  {
  }

  /** The first `[\d,]` of a county line is the first digit of its first
      column, right after the name and one space. */
  lemma CountyLineNameRun(name: string, cols: seq<string>)
    requires IsCountyName(name)
    requires |cols| == 5 && AllNumericTokens(cols)
    ensures NonNumericRun(name + Columns(cols)) == |name| + 1
  {
    var head := name + " ";
    var tail := cols[0] + Columns(cols[1..]);
    assert Columns(cols) == " " + tail;
    assert name + Columns(cols) == head + tail;
    forall i | 0 <= i < |head| ensures !IsNumeric(head[i]) {
      if i < |name| {
        assert IsNameChar(name[i]);
      }
    }
    assert IsNumericToken(cols[0]);
    assert tail[0] == cols[0][0];
    NonNumericRunConcat(head, tail);
  }

  /** computeShares: each count over the total, or all four 0 when the total
      is not positive. */
  datatype Shares = Shares(repShare: real, demShare: real, npaShare: real, minorShare: real)

  function ComputeShares(republican: nat, democratic: nat, minor: nat, npa: nat, total: nat): (s: Shares)
    ensures total == 0 ==> s == Shares(0.0, 0.0, 0.0, 0.0)
    ensures total > 0 ==>
              && s.repShare * total as real == republican as real
              && s.demShare * total as real == democratic as real
              && s.npaShare * total as real == npa as real
              && s.minorShare * total as real == minor as real
  {
    if total <= 0 then Shares(0.0, 0.0, 0.0, 0.0)
    else Shares(
      republican as real / total as real,
      democratic as real / total as real,
      npa as real / total as real,
      minor as real / total as real)
  }

  /** When the four parties add up to the total, the four shares add up to
      one, and each lies in [0, 1]. */
  lemma ComputeSharesPartition(republican: nat, democratic: nat, minor: nat, npa: nat, total: nat)
    requires total > 0 && total == republican + democratic + minor + npa
    ensures var s := ComputeShares(republican, democratic, minor, npa, total);
            s.repShare + s.demShare + s.npaShare + s.minorShare == 1.0
            && 0.0 <= s.repShare <= 1.0 && 0.0 <= s.demShare <= 1.0
            && 0.0 <= s.npaShare <= 1.0 && 0.0 <= s.minorShare <= 1.0
  {
    var s := ComputeShares(republican, democratic, minor, npa, total);
    var t := total as real;
    var r, d, n, m := republican as real, democratic as real, npa as real, minor as real;
    assert s == Shares(r / t, d / t, n / t, m / t);
    QuotientsOfWhole(r, d, n, m, t);
    ShareBounds(republican, total);
    ShareBounds(democratic, total);
    ShareBounds(npa, total);
    ShareBounds(minor, total);
  }

  /** Four parts of a positive whole, each over the whole, add up to one. */
  lemma QuotientsOfWhole(a: real, b: real, c: real, d: real, whole: real)
    requires whole > 0.0 && a + b + c + d == whole
    ensures a / whole + b / whole + c / whole + d / whole == 1.0
  {
    QuotientsAdd(a, b, whole);
    QuotientsAdd(a + b, c, whole);
    QuotientsAdd(a + b + c, d, whole);
    assert whole / whole == 1.0;
  }

  /** Quotients by one positive divisor add like their dividends. */
  lemma QuotientsAdd(x: real, y: real, divisor: real)
    requires divisor > 0.0
    ensures x / divisor + y / divisor == (x + y) / divisor
  {
  }

  lemma ShareBounds(count: nat, total: nat)
    requires 0 < total && count <= total
    ensures 0.0 <= count as real / total as real <= 1.0
  {
    var q := count as real / total as real;
    var t := total as real;
    assert q * t == count as real;
    assert (1.0 - q) * t == t - count as real;
  }

  /** `\b\w` in lower-cased text made upper case: a word character starts a
      word when the character before it (`afterWord` at the start) is not a
      word character. */
  function CapitalizeWords(s: string, afterWord: bool): (r: string)
    ensures |r| == |s|
    ensures forall i | 0 <= i < |s| ::
      r[i] == (if IsWordChar(s[i]) && !WordBefore(s, i, afterWord) then ToUpperChar(s[i]) else s[i])
    decreases |s|
  {
    if s == [] then []
    else
      var c := s[0];
      var rest := CapitalizeWords(s[1..], IsWordChar(c));
      assert forall i | 1 <= i < |s| :: WordBefore(s, i, afterWord) == WordBefore(s[1..], i - 1, IsWordChar(c));
      [if IsWordChar(c) && !afterWord then ToUpperChar(c) else c] + rest
  }

  /** Whether the character before index `i` is a word character. */
  predicate WordBefore(s: string, i: nat, atStart: bool)
    requires i < |s|
  {
    if i == 0 then atStart else IsWordChar(s[i - 1])
  }

  /** Index `i` starts a word of `s`. */
  predicate StartsWord(s: string, i: nat)
    requires i < |s|
  {
    IsWordChar(s[i]) && !WordBefore(s, i, false)
  }

  /** formatCountyName: every word upper case at its first letter and lower
      case elsewhere. (The trailing `.replace("St. ", "St. ")` of the source
      replaces a text by itself and changes nothing.) */
  function FormatCountyName(rawCounty: string): (r: string)
    ensures |r| == |rawCounty|
    ensures forall i | 0 <= i < |r| ::
      r[i] == (if StartsWord(rawCounty, i) then ToUpperChar(ToLowerChar(rawCounty[i])) else ToLowerChar(rawCounty[i]))
  {
    var lower := ToLower(rawCounty);
    assert forall i | 0 <= i < |lower| :: IsWordChar(lower[i]) == IsWordChar(rawCounty[i]);
    assert forall i | 0 <= i < |lower| :: StartsWord(lower, i) == StartsWord(rawCounty, i);
    CapitalizeWords(lower, false)
  }

  /** Formatting a formatted name changes nothing. */
  lemma FormatCountyNameIdempotent(rawCounty: string)
    ensures FormatCountyName(FormatCountyName(rawCounty)) == FormatCountyName(rawCounty)
  {
    var once := FormatCountyName(rawCounty);
    var twice := FormatCountyName(once);
    forall i | 0 <= i < |once| ensures IsWordChar(once[i]) == IsWordChar(rawCounty[i]) {
      CaseMappingChar(rawCounty[i]);
    }
    forall i | 0 <= i < |once| ensures twice[i] == once[i] {
      assert StartsWord(once, i) == StartsWord(rawCounty, i);
      CaseMappingChar(rawCounty[i]);
    }
  }

  /** ASCII case mapping keeps the word characters and is settled after one
      round. */
  lemma CaseMappingChar(c: char)
    ensures IsWordChar(ToLowerChar(c)) == IsWordChar(c)
    ensures IsWordChar(ToUpperChar(ToLowerChar(c))) == IsWordChar(c)
    ensures ToLowerChar(ToLowerChar(c)) == ToLowerChar(c)
    ensures ToUpperChar(ToLowerChar(ToUpperChar(ToLowerChar(c)))) == ToUpperChar(ToLowerChar(c))
  {
  }

  /** A hyphenated name: "MIAMI-DADE" becomes "Miami-Dade". */
  lemma FormatCountyNameHyphenated(raw: string)
    requires raw == "MIAMI-DADE"
    ensures FormatCountyName(raw) == "Miami-Dade"
  {
    var r := FormatCountyName(raw);
    assert StartsWord(raw, 0) && !StartsWord(raw, 1) && !StartsWord(raw, 2) && !StartsWord(raw, 3) && !StartsWord(raw, 4);
    assert !StartsWord(raw, 5) && StartsWord(raw, 6) && !StartsWord(raw, 7) && !StartsWord(raw, 8) && !StartsWord(raw, 9);
    assert r[0] == 'M' && r[1] == 'i' && r[2] == 'a' && r[3] == 'm' && r[4] == 'i';
    assert r[5] == '-' && r[6] == 'D' && r[7] == 'a' && r[8] == 'd' && r[9] == 'e';
  }

  /** An abbreviated name: "ST. JOHNS" becomes "St. Johns". */
  lemma FormatCountyNameAbbreviated(raw: string)
    requires raw == "ST. JOHNS"
    ensures FormatCountyName(raw) == "St. Johns"
  {
    var r := FormatCountyName(raw);
    assert StartsWord(raw, 0) && !StartsWord(raw, 1) && !StartsWord(raw, 2) && !StartsWord(raw, 3) && StartsWord(raw, 4);
    assert !StartsWord(raw, 5) && !StartsWord(raw, 6) && !StartsWord(raw, 7) && !StartsWord(raw, 8);
    assert r[0] == 'S' && r[1] == 't' && r[2] == '.' && r[3] == ' ' && r[4] == 'J';
    assert r[5] == 'o' && r[6] == 'h' && r[7] == 'n' && r[8] == 's';
  }

  /** One county row from its formatted name and five columns. */
  function CountyRowFromColumns(county: string, columns: seq<string>): (row: FloridaCountyRegistration)
    requires |columns| == 5
    ensures row.county == county
    ensures row.republican == ParseIntegerToken(columns[0]) && row.democratic == ParseIntegerToken(columns[1])
    ensures row.minor == ParseIntegerToken(columns[2]) && row.npa == ParseIntegerToken(columns[3])
    ensures row.total == ParseIntegerToken(columns[4])
    ensures HasShares(row)
  {
    var republican := ParseIntegerToken(columns[0]);
    var democratic := ParseIntegerToken(columns[1]);
    var minor := ParseIntegerToken(columns[2]);
    var npa := ParseIntegerToken(columns[3]);
    var total := ParseIntegerToken(columns[4]);
    var s := ComputeShares(republican, democratic, minor, npa, total);
    FloridaCountyRegistration(county, republican, democratic, npa, minor, total,
      s.repShare, s.demShare, s.npaShare, s.minorShare)
  }

  /** The shares of a row are those computeShares derives from its counts. */
  predicate HasShares(row: FloridaCountyRegistration) {
    ComputeShares(row.republican, row.democratic, row.minor, row.npa, row.total)
      == Shares(row.repShare, row.demShare, row.npaShare, row.minorShare)
  }

  /** The county row a line yields, if any: header and totals rows (named
      COUNTY or TOTALS) are skipped. */
  function CountyRowOf(line: string): (r: Option<FloridaCountyRegistration>)
    ensures r.Some? ==> HasShares(r.value)
  {
    match CountyRowMatch(line)
    case None => None
    case Some((rawName, columns)) =>
      var countyRaw := NormalizeLine(rawName);
      if countyRaw == "TOTALS" || countyRaw == "COUNTY" then None
      else Some(CountyRowFromColumns(FormatCountyName(countyRaw), columns))
  }

  /** The rows the loop pushes for `lines`, in line order. */
  function CountyRowsOf(lines: seq<string>): seq<FloridaCountyRegistration> {
    Values(Map(lines, CountyRowOf))
  }

  /** A row is pushed exactly when some line yields it. */
  lemma CountyRowsOfMembers(lines: seq<string>, row: FloridaCountyRegistration)
    ensures row in CountyRowsOf(lines) <==> exists i | 0 <= i < |lines| :: CountyRowOf(lines[i]) == Some(row)
  {
    ValuesMembers(Map(lines, CountyRowOf), row);
  }

  /** Every pushed row carries the shares of its counts. */
  lemma CountyRowsOfShares(lines: seq<string>)
    ensures forall row | row in CountyRowsOf(lines) :: HasShares(row)
  {
    forall row | row in CountyRowsOf(lines) ensures HasShares(row) {
      CountyRowsOfMembers(lines, row);
      var i :| 0 <= i < |lines| && CountyRowOf(lines[i]) == Some(row);
    }
  }

  function RowTotal(row: FloridaCountyRegistration): real {
    row.total as real
  }

  /** The result of parseCountyRowsFromText. */
  function CountyRows(content: string): seq<FloridaCountyRegistration> {
    SortDesc(CountyRowsOf(TextLines(FlattenHtmlToText(content))), RowTotal)
  }

  /** parseCountyRowsFromText: push the row of every matching line, then sort
      by total, largest first. */
  method ParseCountyRows(content: string) returns (rows: seq<FloridaCountyRegistration>)
    ensures rows == CountyRows(content)
  {
    var lines := TextLines(FlattenHtmlToText(content));
    var pushed := PushCountyRows(lines);
    rows := SortDesc(pushed, RowTotal);
  }

  /** The loop of parseCountyRowsFromText over the page's lines. */
  method PushCountyRows(lines: seq<string>) returns (pushed: seq<FloridaCountyRegistration>)
    ensures pushed == CountyRowsOf(lines)
  {
    pushed := [];
    for i := 0 to |lines|
      invariant pushed == CountyRowsOf(lines[..i])
    {
      assert lines[..i + 1] == lines[..i] + [lines[i]];
      CountyRowsOfSnoc(lines[..i], lines[i]);
      var matched := CountyRowMatch(lines[i]);
      if matched.None? {
        continue;
      }
      var countyRaw := NormalizeLine(matched.value.0);
      if countyRaw == "TOTALS" || countyRaw == "COUNTY" {
        continue;
      }
      pushed := pushed + [CountyRowFromColumns(FormatCountyName(countyRaw), matched.value.1)];
    }
    assert lines[..|lines|] == lines;
  }

  lemma CountyRowsOfSnoc(lines: seq<string>, line: string)
    ensures CountyRowsOf(lines + [line])
         == CountyRowsOf(lines) + (match CountyRowOf(line) case None => [] case Some(row) => [row])
  {
    MapSnoc(lines, line, CountyRowOf);
    ValuesSnoc(Map(lines, CountyRowOf), CountyRowOf(line));
  }

  /** The county rows are the pushed rows reordered, largest total first, with
      the input order kept among equal totals, each carrying its shares. */
  lemma CountyRowsSorted(content: string)
    ensures var rows := CountyRows(content);
            var pushed := CountyRowsOf(TextLines(FlattenHtmlToText(content)));
            && multiset(rows) == multiset(pushed)
            && SortedDesc(rows, RowTotal)
            && (forall t :: WithKey(rows, RowTotal, t) == WithKey(pushed, RowTotal, t))
            && (forall k | 0 <= k < |rows| :: HasShares(rows[k]))
  {
    var pushed := CountyRowsOf(TextLines(FlattenHtmlToText(content)));
    var rows := CountyRows(content);
    forall t ensures WithKey(rows, RowTotal, t) == WithKey(pushed, RowTotal, t) {
      SortDescStable(pushed, RowTotal, t);
    }
    CountyRowsOfShares(TextLines(FlattenHtmlToText(content)));
    forall k | 0 <= k < |rows| ensures HasShares(rows[k]) {
      assert rows[k] in multiset(pushed);
    }
  }

  /** The county sample page: two header lines ("Data as of January 31,
      2026" and "County Republican Democratic ... Total", both with a
      lower-case second letter), "SAMPLE 100 90 10 40 240" and
      "TOTALS 100 90 10 40 240": each name followed by the same five columns
      (each after one space), the last of them 240. The header and totals
      lines give no row, and the page gives one row, "Sample" with total
      240. */
  lemma SampleCountyRows(lines: seq<string>, cols: seq<string>)
    requires |cols| == 5 && AllNumericTokens(cols) && cols[4] == "240"
    requires |lines| == 4
    requires |lines[0]| >= 2 && IsAsciiLower(lines[0][1])
    requires |lines[1]| >= 2 && IsAsciiLower(lines[1][1])
    requires lines[2] == "SAMPLE" + Columns(cols) && lines[3] == "TOTALS" + Columns(cols)
    ensures var rows := CountyRowsOf(lines);
            |rows| == 1 && rows[0].total == 240 && rows[0].county == "Sample"
  {
    var sample := SampleRow(lines[2], "SAMPLE", cols);
    OneCountyRowPage(lines, sample);
  }

  /** Two header lines, a county line and a totals line give the county
      line's row alone. */
  lemma OneCountyRowPage(lines: seq<string>, row: FloridaCountyRegistration)
    requires |lines| == 4
    requires |lines[0]| >= 2 && IsAsciiLower(lines[0][1])
    requires |lines[1]| >= 2 && IsAsciiLower(lines[1][1])
    requires CountyRowOf(lines[2]) == Some(row)
    requires exists cols :: |cols| == 5 && AllNumericTokens(cols) && lines[3] == "TOTALS" + Columns(cols)
    ensures CountyRowsOf(lines) == [row]
  {
    var cols :| |cols| == 5 && AllNumericTokens(cols) && lines[3] == "TOTALS" + Columns(cols);
    LowerSecondCharNoRow(lines[0]);
    LowerSecondCharNoRow(lines[1]);
    TotalsLineNoRow(lines[3], cols);
    var m := Map(lines, CountyRowOf);
    forall j | 0 <= j < 4 && j != 2 ensures m[j].None? {
      assert m[j] == CountyRowOf(lines[j]);
      if j < 2 {
        assert j == 0 || j == 1;
      } else {
        assert j == 3;
      }
    }
    ValuesSingle(m, 2, row);
  }

  lemma SampleRow(line: string, name: string, cols: seq<string>) returns (row: FloridaCountyRegistration)
    requires name == "SAMPLE"
    requires |cols| == 5 && AllNumericTokens(cols) && cols[4] == "240"
    requires line == name + Columns(cols)
    ensures CountyRowOf(line) == Some(row) && row.total == 240 && row.county == "Sample"
  {
    SampleRowMatch(line, name, cols);
    KeptName(line, name, cols);
    FormatCountyNameWord(name);
    SampleRowTotal(cols);
    row := CountyRowFromColumns(FormatCountyName(name), cols);
  }

  lemma SampleRowMatch(line: string, name: string, cols: seq<string>)
    requires name == "SAMPLE"
    requires |cols| == 5 && AllNumericTokens(cols)
    requires line == name + Columns(cols)
    ensures CountyRowMatch(line) == Some((name, cols)) && NormalizeLine(name) == name
  {
    SampleName(name);
    CountyRowMatchRoundTrip(name, cols);
  }

  lemma SampleRowTotal(cols: seq<string>)
    requires |cols| == 5 && cols[4] == "240"
    ensures ParseIntegerToken(cols[4]) == 240
  {
    assert DigitsValue("240") == 240 by {
      assert "240"[..2] == "24" && "24"[..1] == "2";
    }
    DigitsToken("240");
  }

  /** A line matched with any other name gives the row of that name. */
  lemma KeptName(line: string, name: string, cols: seq<string>)
    requires CountyRowMatch(line) == Some((name, cols))
    requires NormalizeLine(name) == name && name != "TOTALS" && name != "COUNTY"
    ensures CountyRowOf(line) == Some(CountyRowFromColumns(FormatCountyName(name), cols))
  {
  }

  lemma FormatCountyNameWord(raw: string)
    requires raw == "SAMPLE"
    ensures FormatCountyName(raw) == "Sample"
  {
    var r := FormatCountyName(raw);
    assert StartsWord(raw, 0) && !StartsWord(raw, 1) && !StartsWord(raw, 2);
    assert !StartsWord(raw, 3) && !StartsWord(raw, 4) && !StartsWord(raw, 5);
    assert r[0] == 'S' && r[1] == 'a' && r[2] == 'm' && r[3] == 'p' && r[4] == 'l' && r[5] == 'e';
  }

  /** The statewide TOTALS line is matched but skipped. */
  lemma TotalsLineNoRow(line: string, cols: seq<string>)
    requires |cols| == 5 && AllNumericTokens(cols)
    requires line == "TOTALS" + Columns(cols)
    ensures CountyRowOf(line).None?
  {
    TotalsName("TOTALS");
    CountyRowMatchRoundTrip("TOTALS", cols);
    SkippedName(line, "TOTALS", cols);
  }

  lemma TotalsName(name: string)
    requires name == "TOTALS"
    ensures IsCountyName(name) && NormalizeLine(name) == name
  {
    SampleName(name);
  }

  /** A line matched with a skipped name gives no row. */
  lemma SkippedName(line: string, name: string, cols: seq<string>)
    requires CountyRowMatch(line) == Some((name, cols))
    requires NormalizeLine(name) == "TOTALS" || NormalizeLine(name) == "COUNTY"
    ensures CountyRowOf(line).None?
  {
  }

  /** An all-capital word is a county name and normalizes to itself. */
  lemma SampleName(name: string)
    requires |name| >= 2 && forall i | 0 <= i < |name| :: IsAsciiUpper(name[i])
    ensures IsCountyName(name) && NormalizeLine(name) == name
  {
    forall i | 0 <= i < |name| ensures !IsSpace(name[i]) && IsNameChar(name[i]) {
      assert IsAsciiUpper(name[i]);
    }
    NoSpaceNormalizes(name);
  }

  /** A line whose second character is a lower-case letter is no county row. */
  lemma LowerSecondCharNoRow(line: string)
    requires |line| >= 2 && IsAsciiLower(line[1])
    ensures CountyRowOf(line).None?
  {
    var f := NonNumericRun(line);
    var w := |TrimEnd(line[..f])|;
    var e := if w < 2 then 2 else w;
    if e <= |line| {
      assert !IsNameChar(line[1]);
      assert !NameCharsBefore(line, e);
    }
    assert CountyRowMatch(line).None?;
  }
}
