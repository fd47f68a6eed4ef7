/**
 * Text clean-up for the Florida registration pages (the first part of
 * app/data/voter-stats/florida.ts): flattening HTML to text, decoding the
 * five entities, collapsing whitespace per line, reading integer tokens and
 * extracting the "Data as of" date.
 *
 * Every regular expression of the source is a hand-written matcher here.
 * JavaScript's `new Date(text)` followed by the `getUTC*` accessors is the
 * parameter `dateOf`, which returns the UTC calendar date or `None` for an
 * invalid date.
 */
module FloridaText {
  import opened Wrappers
  import opened JsString

  // ---------------------------------------------------------------------
  // Entities and tags
  // ---------------------------------------------------------------------

  /** The five fixed entity replacements, applied in this order. */
  function DecodeHtmlEntities(value: string): string {
    var a := ReplaceAll(value, "&nbsp;", " ");
    var b := ReplaceAll(a, "&amp;", "&");
    var c := ReplaceAll(b, "&#8217;", "'");
    var d := ReplaceAll(c, "&quot;", "\"");
    ReplaceAll(d, "&#39;", "'")
  }

  /** Text with no `&` has no entity to decode. */
  lemma DecodeWithoutAmpersand(value: string)
    requires '&' !in value
    ensures DecodeHtmlEntities(value) == value
  {
  }

  /** Decoding is one pass: `&amp;nbsp;` becomes `&nbsp;` and stays so, because
      the `&nbsp;` replacement has already run when `&amp;` is decoded. */
  lemma DecodeIsSinglePass(tail: string)
    requires '&' !in tail
    ensures DecodeHtmlEntities("&amp;nbsp;" + tail) == "&nbsp;" + tail
  {
    DecodeAmpFirst(tail);
    DecodeNbspLeft(tail);
  }

  /** The first two replacements turn `&amp;nbsp;` into `&nbsp;`. */
  lemma DecodeAmpFirst(tail: string)
    requires '&' !in tail
    ensures ReplaceAll(ReplaceAll("&amp;nbsp;" + tail, "&nbsp;", " "), "&amp;", "&") == "&nbsp;" + tail
  {
    NbspSkipsAmp(tail);
    AmpFreeAfterNbsp(tail);
    AmpDecodedOnce(tail);
  }

  lemma NbspSkipsAmp(tail: string)
    requires '&' !in tail
    ensures ReplaceAll("&amp;nbsp;" + tail, "&nbsp;", " ") == "&amp;nbsp;" + tail
  {
    var s := "&amp;nbsp;" + tail;
    assert s[1..] == "amp;nbsp;" + tail;
    assert !StartsWith(s, "&nbsp;") by {
      assert s[..6][1] == 'a';
    }
    ReplaceOnlyAtStart(s, "&nbsp;", " ");
  }

  lemma AmpFreeAfterNbsp(tail: string)
    requires '&' !in tail
    ensures '&' !in "nbsp;" + tail
  {
  }

  lemma AmpDecodedOnce(tail: string)
    requires '&' !in "nbsp;" + tail
    ensures ReplaceAll("&amp;nbsp;" + tail, "&amp;", "&") == "&nbsp;" + tail
  {
    assert "&amp;nbsp;" + tail == "&amp;" + ("nbsp;" + tail);
    ReplaceAtStart("&amp;", "nbsp;" + tail, "&");
  }

  /** A pattern at the start, and no other occurrence of its first
      character, is replaced once. */
  lemma ReplaceAtStart(pattern: string, rest: string, replacement: string)
    requires |pattern| > 0 && pattern[0] !in rest
    ensures ReplaceAll(pattern + rest, pattern, replacement) == replacement + rest
  {
    var s := pattern + rest;
    assert s[..|pattern|] == pattern && s[|pattern|..] == rest;
  }

  /** The last three replacements leave `&nbsp;` alone. */
  lemma DecodeNbspLeft(tail: string)
    requires '&' !in tail
    ensures var b := "&nbsp;" + tail;
            ReplaceAll(ReplaceAll(ReplaceAll(b, "&#8217;", "'"), "&quot;", "\""), "&#39;", "'") == b
  {
    var b := "&nbsp;" + tail;
    assert b[1..] == "nbsp;" + tail;
    assert !StartsWith(b, "&#8217;") by {
      if |b| >= 7 {
        assert b[..7][1] == 'n';
      }
    }
    ReplaceOnlyAtStart(b, "&#8217;", "'");
    assert !StartsWith(b, "&quot;") by {
      assert b[..6][1] == 'n';
    }
    ReplaceOnlyAtStart(b, "&quot;", "\"");
    assert !StartsWith(b, "&#39;") by {
      assert b[..5][1] == 'n';
    }
    ReplaceOnlyAtStart(b, "&#39;", "'");
  }

  /** A text whose one `&` is at its start, not starting the pattern, is left
      alone by a replacement of an `&`-pattern. */
  lemma ReplaceOnlyAtStart(s: string, pattern: string, replacement: string)
    requires |pattern| > 0 && pattern[0] == '&'
    requires s != [] && '&' !in s[1..] && !StartsWith(s, pattern)
    ensures ReplaceAll(s, pattern, replacement) == s
  {
    assert s == [s[0]] + s[1..];
  }

  /** The length of the longest prefix of `s` made of `\s` characters. */
  function SpaceRun(s: string): (n: nat)
    ensures n <= |s|
    ensures forall i | 0 <= i < n :: IsSpace(s[i])
    ensures n == |s| || !IsSpace(s[n])
  {
    if s == [] || !IsSpace(s[0]) then 0 else 1 + SpaceRun(s[1..])
  }

  /** `s` starts with the lower-case ASCII pattern, ignoring ASCII case. */
  predicate StartsWithIgnoreCase(s: string, lowerPattern: string) {
    |lowerPattern| <= |s| && ToLower(s[..|lowerPattern|]) == lowerPattern
  }

  /** Only `<` lowers to `<`, so an ignore-case match of a pattern that starts
      with `<` needs a `<` in the text. */
  lemma StartsWithAngle(s: string, lowerPattern: string)
    requires |lowerPattern| > 0 && lowerPattern[0] == '<'
    requires StartsWithIgnoreCase(s, lowerPattern)
    ensures s[0] == '<'
  {
    assert ToLower(s[..|lowerPattern|])[0] == ToLowerChar(s[0]);
  }

  /** `replaceAll(/<br\s*\/?/gi, "\n")`: `<br`, any whitespace and an optional
      `/` become a newline. The pattern has no `>`, so a closing `>` stays. */
  function ReplaceBreaks(s: string): (r: string)
    ensures '<' !in s ==> r == s
    decreases |s|
  {
    if s == [] then []
    else if StartsWithIgnoreCase(s, "<br") then
      var n := 3 + SpaceRun(s[3..]);
      var m := if n < |s| && s[n] == '/' then n + 1 else n;
      "\n" + ReplaceBreaks(s[m..])
    else
      StartsWithAngleNot(s);
      [s[0]] + ReplaceBreaks(s[1..])
  }

  lemma StartsWithAngleNot(s: string)
    requires s != []
    ensures '<' !in s ==> !StartsWithIgnoreCase(s, "<br")
  {
    if '<' !in s && StartsWithIgnoreCase(s, "<br") {
      StartsWithAngle(s, "<br");
    }
  }

  /** `replaceAll(/<lowerPattern>/gi, replacement)` for a literal pattern
      starting with `<`, such as `</tr>`. */
  function ReplaceAllIgnoreCase(s: string, lowerPattern: string, replacement: string): (r: string)
    requires |lowerPattern| > 0 && lowerPattern[0] == '<'
    ensures '<' !in s ==> r == s
    decreases |s|
  {
    if s == [] then []
    else if StartsWithIgnoreCase(s, lowerPattern) then
      StartsWithAngle(s, lowerPattern);
      replacement + ReplaceAllIgnoreCase(s[|lowerPattern|..], lowerPattern, replacement)
    else [s[0]] + ReplaceAllIgnoreCase(s[1..], lowerPattern, replacement)
  }

  /** The index of the first `c` in `s`, if any. */
  function IndexOf(s: string, c: char): (r: Option<nat>)
    ensures r.Some? ==> r.value < |s| && s[r.value] == c && c !in s[..r.value]
    ensures r.None? ==> c !in s
  {
    if s == [] then None
    else if s[0] == c then Some(0)
    else match IndexOf(s[1..], c)
      case None => None
      case Some(k) => assert s[..k + 1] == [s[0]] + s[1..][..k]; Some(k + 1)
  }

  /** The end of a tag `<[^>]+>` that starts `s`: the index of its `>`. */
  function TagEnd(s: string): (r: Option<nat>)
    ensures r.Some? ==> 2 <= r.value < |s| && s[0] == '<' && s[r.value] == '>'
                        && '>' !in s[1..r.value]
  {
    if s == [] || s[0] != '<' then None
    else match IndexOf(s[1..], '>')
      case None => None
      case Some(k) => if k == 0 then None else Some(k + 1)
  }

  /** `replaceAll(/<[^>]+>/g, " ")`: every complete tag becomes one space. */
  function ReplaceTags(s: string): (r: string)
    ensures '<' !in s ==> r == s
    decreases |s|
  {
    if s == [] then []
    else match TagEnd(s)
      case Some(k) => " " + ReplaceTags(s[k + 1..])
      case None => [s[0]] + ReplaceTags(s[1..])
  }

  /** flattenHtmlToText. */
  function FlattenHtmlToText(content: string): string {
    var a := ReplaceBreaks(content);
    var b := ReplaceAllIgnoreCase(a, "</tr>", "\n");
    var c := ReplaceAllIgnoreCase(b, "</p>", "\n");
    var d := ReplaceAllIgnoreCase(c, "</li>", "\n");
    var e := ReplaceTags(d);
    var f := DecodeHtmlEntities(e);
    var g := ReplaceAll(f, "\r", "\n");
    ReplaceAll(g, "\U{00A0}", " ")
  }

  /** Flattened text never holds a carriage return or a no-break space. */
  lemma FlattenRemovesCarriageReturnAndNbsp(content: string)
    ensures '\r' !in FlattenHtmlToText(content)
    ensures '\U{00A0}' !in FlattenHtmlToText(content)
  {
    var a := ReplaceBreaks(content);
    var b := ReplaceAllIgnoreCase(a, "</tr>", "\n");
    var c := ReplaceAllIgnoreCase(b, "</p>", "\n");
    var d := ReplaceAllIgnoreCase(c, "</li>", "\n");
    var e := ReplaceTags(d);
    var f := DecodeHtmlEntities(e);
    var g := ReplaceAll(f, "\r", "\n");
    ReplaceAllRemoves(f, '\r', "\n");
    ReplaceAllRemoves(g, '\U{00A0}', " ");
  }

  /** Plain text without `<`, `&`, carriage returns or no-break spaces passes
      through unchanged. */
  lemma FlattenPlainText(content: string)
    requires '<' !in content && '&' !in content
    requires '\r' !in content && '\U{00A0}' !in content
    ensures FlattenHtmlToText(content) == content
  {
  }

  /** `<br>` turns into a newline followed by the `>` that the pattern leaves. */
  lemma FlattenBreakKeepsAngle()
    ensures FlattenHtmlToText("<br>") == "\n>"
  {
    BreakKeepsAngle();
    FlattenPlainTextAfterBreaks("\n>");
  }

  lemma BreakKeepsAngle()
    ensures ReplaceBreaks("<br>") == "\n>"
  {
    var s := "<br>";
    assert StartsWithIgnoreCase(s, "<br") by {
      assert ToLower(s[..3]) == "<br";
    }
    assert s[3..] == ">";
    SpaceRunAtNonSpace(">");
    assert ReplaceBreaks(">") == ">";
  }

  /** A single space before a non-space character is a run of one. */
  lemma SpaceRunAfterSpace(s: string)
    requires s == [] || !IsSpace(s[0])
    ensures SpaceRun(" " + s) == 1
  {
    var t := " " + s;
    assert t[1..] == s;
  }

  /** No whitespace run starts at a character that is not whitespace. */
  lemma SpaceRunAtNonSpace(s: string)
    requires s == [] || !IsSpace(s[0])
    ensures SpaceRun(s) == 0
  {
  }

  lemma FlattenPlainTextAfterBreaks(a: string)
    requires a == "\n>"
    ensures ReplaceTags(ReplaceAllIgnoreCase(ReplaceAllIgnoreCase(ReplaceAllIgnoreCase(a, "</tr>", "\n"), "</p>", "\n"), "</li>", "\n")) == a
    ensures DecodeHtmlEntities(a) == a
    ensures ReplaceAll(ReplaceAll(a, "\r", "\n"), "\U{00A0}", " ") == a
  {
  }

  // ---------------------------------------------------------------------
  // Lines and integer tokens
  // ---------------------------------------------------------------------

  /** Every whitespace character is a plain space and no two are adjacent. */
  predicate Collapsed(s: string) {
    && (forall i | 0 <= i < |s| :: IsSpace(s[i]) ==> s[i] == ' ')
    && (forall i | 0 <= i < |s| - 1 :: !(IsSpace(s[i]) && IsSpace(s[i + 1])))
  }

  /** The shape normalizeLine produces. */
  predicate IsNormalized(s: string) {
    Collapsed(s) && (s == [] || (!IsSpace(s[0]) && !IsSpace(s[|s| - 1])))
  }

  /** `replaceAll(/\s+/g, " ")`: each run of whitespace becomes one space. */
  function CollapseWhitespace(s: string): (r: string)
    ensures Collapsed(r)
    ensures (s == [] || !IsSpace(s[0])) ==> (r == [] || !IsSpace(r[0]))
    decreases |s|
  {
    if s == [] then []
    else if IsSpace(s[0]) then
      var t := TrimStart(s);
      assert |t| < |s|;
      var rest := CollapseWhitespace(t);
      CollapsedCons(' ', rest);
      " " + rest
    else
      var rest := CollapseWhitespace(s[1..]);
      CollapsedCons(s[0], rest);
      [s[0]] + rest
  }

  lemma CollapsedCons(c: char, rest: string)
    requires Collapsed(rest)
    requires IsSpace(c) ==> c == ' ' && (rest == [] || !IsSpace(rest[0]))
    ensures Collapsed([c] + rest)
  {
    var s := [c] + rest;
    forall i | 1 <= i < |s| ensures s[i] == rest[i - 1] { }
  }

  /** Collapsing keeps every character that is not whitespace. */
  lemma {:induction false} CollapseKeeps(s: string, c: char)
    requires c in s && !IsSpace(c)
    ensures c in CollapseWhitespace(s)
    decreases |s|
  {
    if IsSpace(s[0]) {
      var t := TrimStart(s);
      var i :| 0 <= i < |s| && s[i] == c;
      assert i >= |s| - |t|;
      assert t[i - (|s| - |t|)] == c;
      CollapseKeeps(t, c);
    } else if c != s[0] {
      assert c in s[1..];
      CollapseKeeps(s[1..], c);
    }
  }

  /** Collapsing adds no character other than a space. */
  lemma {:induction false} CollapseAddsOnlySpaces(s: string, c: char)
    requires c !in s && c != ' '
    ensures c !in CollapseWhitespace(s)
    decreases |s|
  {
    if s != [] {
      if IsSpace(s[0]) {
        var t := TrimStart(s);
        assert forall x | x in t :: x in s;
        CollapseAddsOnlySpaces(t, c);
      } else {
        CollapseAddsOnlySpaces(s[1..], c);
      }
    }
  }

  /** Collapsed text is left as it is. */
  lemma {:induction false} CollapseFixes(s: string)
    requires Collapsed(s)
    ensures CollapseWhitespace(s) == s
    decreases |s|
  {
    if s != [] {
      var tail := s[1..];
      assert Collapsed(tail) by { CollapsedSlice(s, 1, |s|); }
      CollapseFixes(tail);
      if IsSpace(s[0]) {
        assert s[0] == ' ';
        assert TrimStart(s) == tail by {
          assert tail == [] || !IsSpace(tail[0]) by {
            if |s| > 1 {
              assert !(IsSpace(s[0]) && IsSpace(s[1]));
            }
          }
          assert TrimStart(tail) == tail;
        }
        assert CollapseWhitespace(s) == " " + CollapseWhitespace(tail);
      } else {
        assert CollapseWhitespace(s) == [s[0]] + CollapseWhitespace(tail);
      }
      assert s == [s[0]] + tail;
    }
  }

  lemma CollapsedSlice(s: string, a: nat, b: nat)
    requires Collapsed(s) && a <= b <= |s|
    ensures Collapsed(s[a..b])
  {
    var t := s[a..b];
    forall i | 0 <= i < |t| - 1 ensures !(IsSpace(t[i]) && IsSpace(t[i + 1])) {
      assert t[i] == s[a + i] && t[i + 1] == s[a + i + 1];
    }
    forall i | 0 <= i < |t| ensures IsSpace(t[i]) ==> t[i] == ' ' {
      assert t[i] == s[a + i];
    }
  }

  /** normalizeLine: collapse whitespace, then trim. */
  function NormalizeLine(line: string): string {
    Trim(CollapseWhitespace(line))
  }

  /** normalizeLine yields no leading or trailing whitespace and no two
      adjacent whitespace characters. */
  lemma {:induction false} NormalizeLineIsNormalized(line: string)
    ensures IsNormalized(NormalizeLine(line))
  {
    var c := CollapseWhitespace(line);
    var e := TrimEnd(c);
    assert Collapsed(e) by {
      CollapsedSlice(c, 0, |e|);
      assert c[0..|e|] == e;
    }
    var t := TrimStart(e);
    assert Collapsed(t) by {
      CollapsedSlice(e, |e| - |t|, |e|);
      assert e[|e| - |t|..|e|] == t;
    }
    assert NormalizeLine(line) == Trim(c) == t;
  }

  /** A normalized line is left as it is. */
  lemma {:induction false} NormalizeLineFixes(line: string)
    requires IsNormalized(line)
    ensures NormalizeLine(line) == line
  {
    CollapseFixes(line);
    assert TrimEnd(line) == line;
    assert TrimStart(line) == line;
  }

  /** normalizeLine is idempotent. */
  /** A line without whitespace is already normalized. */
  lemma NoSpaceNormalizes(line: string)
    requires forall i | 0 <= i < |line| :: !IsSpace(line[i])
    ensures NormalizeLine(line) == line
  {
    assert IsNormalized(line);
    NormalizeLineFixes(line);
  }

  lemma NormalizeLineIdempotent(line: string)
    ensures NormalizeLine(NormalizeLine(line)) == NormalizeLine(line)
  {
    NormalizeLineIsNormalized(line);
    NormalizeLineFixes(NormalizeLine(line));
  }

  /** Characters other than whitespace survive normalization. */
  lemma {:induction false} NormalizeLineKeeps(line: string, c: char)
    requires c in line && !IsSpace(c)
    ensures c in NormalizeLine(line)
  {
    var s := CollapseWhitespace(line);
    CollapseKeeps(line, c);
    var i :| 0 <= i < |s| && s[i] == c;
    var e := TrimEnd(s);
    assert i < |e|;
    assert e[i] == c;
    var t := TrimStart(e);
    assert i >= |e| - |t|;
    assert t[i - (|e| - |t|)] == c;
  }

  /** The digits of `s`, in order (`replaceAll(/[^\d]/g, "")`). */
  function DigitsOf(s: string): (r: string)
    ensures forall i | 0 <= i < |r| :: IsDigit(r[i])
    ensures |r| <= |s|
  {
    if s == [] then [] else (if IsDigit(s[0]) then [s[0]] else []) + DigitsOf(s[1..])
  }

  /** parseIntegerToken: drop every non-digit and read the rest in base ten.
      A token without any digit reads as 0 here (JavaScript yields NaN). */
  function ParseIntegerToken(token: string): (n: nat) {
    DigitsValue(DigitsOf(token))
  }

  /** Thousands separators are ignored: a comma anywhere in a token leaves
      its value unchanged. */
  lemma ParseIntegerTokenIgnoresComma(a: string, b: string)
    ensures ParseIntegerToken(a + "," + b) == ParseIntegerToken(a + b)
  {
    DigitsOfConcat(a + ",", b);
    DigitsOfConcat(a, ",");
    DigitsOfConcat(a, b);
    assert ","[1..] == [];
    assert DigitsOf(",") == [];
    assert DigitsOf(a + "," + b) == DigitsOf(a + b);
  }

  /** Keeping the digits distributes over concatenation. */
  lemma {:induction false} DigitsOfConcat(a: string, b: string)
    ensures DigitsOf(a + b) == DigitsOf(a) + DigitsOf(b)
    decreases |a|
  {
    if a == [] {
      assert a + b == b;
    } else {
      assert (a + b)[0] == a[0];
      assert (a + b)[1..] == a[1..] + b;
      DigitsOfConcat(a[1..], b);
    }
  }

  /** A token of digits only reads as its decimal value. */
  lemma {:induction false} DigitsOfDigits(s: string)
    requires forall i | 0 <= i < |s| :: IsDigit(s[i])
    ensures DigitsOf(s) == s
  {
    if s != [] {
      DigitsOfDigits(s[1..]);
    }
  }

  // ---------------------------------------------------------------------
  // Dates
  // ---------------------------------------------------------------------

  /** The UTC calendar fields of a JavaScript `Date`: `getUTCFullYear()`,
      `getUTCMonth() + 1` and `getUTCDate()`. */
  datatype CalendarDate = CalendarDate(year: int, month: nat, day: nat)

  const UNKNOWN_DATE: string := "Unknown"

  /** The text toIsoDate hands to the date parser: periods removed, then
      whitespace normalized. */
  function CleanDateText(raw: string): (text: string)
    ensures '.' !in text
  {
    var noDots := ReplaceAll(raw, ".", "");
    ReplaceAllRemoves(raw, '.', "");
    NormalizeLineNoNewChars(noDots, '.');
    NormalizeLine(noDots)
  }

  lemma {:induction false} NormalizeLineNoNewChars(s: string, c: char)
    requires c !in s && c != ' '
    ensures c !in NormalizeLine(s)
  {
    var t := CollapseWhitespace(s);
    CollapseAddsOnlySpaces(s, c);
    var e := TrimEnd(t);
    assert forall x | x in e :: x in t;
    var u := TrimStart(e);
    assert forall x | x in u :: x in e;
  }

  /** `${year}-${MM}-${DD}`, months and days padded to two digits. */
  function IsoDateText(d: CalendarDate): string {
    IntToString(d.year) + "-" + PadTwo(d.month) + "-" + PadTwo(d.day)
  }

  /** toIsoDate. An empty input gives "Unknown"; text the parser rejects is
      returned cleaned but otherwise as it is. */
  function ToIsoDate(raw: string, dateOf: string -> Option<CalendarDate>): (r: string)
    ensures raw == [] ==> r == UNKNOWN_DATE
    ensures raw != [] && dateOf(CleanDateText(raw)).None? ==> r == CleanDateText(raw)
    ensures raw != [] && dateOf(CleanDateText(raw)).Some? ==> r == IsoDateText(dateOf(CleanDateText(raw)).value)
  {
    if raw == [] then UNKNOWN_DATE
    else
      var text := CleanDateText(raw);
      match dateOf(text)
      case None => text
      case Some(d) => IsoDateText(d)
  }

  /** A calendar date of a four-digit year, as ISO 8601 writes it. */
  predicate IsFourDigitDate(d: CalendarDate) {
    1000 <= d.year <= 9999 && 1 <= d.month <= 12 && 1 <= d.day <= 31
  }

  /** Reads an ISO 8601 extended calendar date `YYYY-MM-DD`. */
  function ParseIsoDate(s: string): Option<CalendarDate> {
    if |s| == 10 && s[4] == '-' && s[7] == '-'
       && (forall i | 0 <= i < 10 && i != 4 && i != 7 :: IsDigit(s[i]))
    then Some(CalendarDate(DigitsValue(s[..4]), DigitsValue(s[5..7]), DigitsValue(s[8..])))
    else None
  }

  lemma NatToStringFourDigits(n: nat)
    requires 1000 <= n <= 9999
    ensures |NatToString(n)| == 4
  {
    assert |NatToString(n / 1000)| == 1;
    assert |NatToString(n / 100)| == 2;
    assert |NatToString(n / 10)| == 3;
  }

  lemma PadTwoDigits(n: nat)
    requires n < 100
    ensures |PadTwo(n)| == 2
    ensures forall i | 0 <= i < 2 :: IsDigit(PadTwo(n)[i])
    ensures DigitsValue(PadTwo(n)) == n
  {
    DigitsValueOfNatToString(n);
    if n < 10 {
      var p := PadTwo(n);
      assert p[..1] == "0";
      assert DigitsValue("0") == 0;
    } else {
      assert |NatToString(n / 10)| == 1;
    }
  }

  /** For a four-digit year the output of toIsoDate is an ISO 8601 extended
      calendar date (`YYYY-MM-DD`) that reads back as the parsed date. */
  lemma IsoDateTextRoundTrip(d: CalendarDate)
    requires IsFourDigitDate(d)
    ensures |IsoDateText(d)| == 10
    ensures ParseIsoDate(IsoDateText(d)) == Some(d)
  {
    var y := NatToString(d.year);
    NatToStringFourDigits(d.year);
    DigitsValueOfNatToString(d.year);
    PadTwoDigits(d.month);
    PadTwoDigits(d.day);
    var s := IsoDateText(d);
    assert s == y + "-" + PadTwo(d.month) + "-" + PadTwo(d.day);
    assert s[..4] == y;
    assert s[5..7] == PadTwo(d.month);
    assert s[8..] == PadTwo(d.day);
    forall i | 0 <= i < 10 && i != 4 && i != 7 ensures IsDigit(s[i]) {
      if i < 4 { assert s[i] == y[i]; }
      else if i < 7 { assert s[i] == PadTwo(d.month)[i - 5]; }
      else { assert s[i] == PadTwo(d.day)[i - 8]; }
    }
  }

  /** The text after `Data\s+as\s+of\s*:?\s*` when `t` starts with that label
      (ASCII case ignored, as under the `i` flag). */
  function AfterAsOfLabel(t: string): (r: Option<string>)
    ensures r.Some? ==> |r.value| < |t|
  {
    if !StartsWithIgnoreCase(t, "data") then None
    else
      var a := t[4..];
      var n1 := SpaceRun(a);
      if n1 == 0 || !StartsWithIgnoreCase(a[n1..], "as") then None
      else
        var b := a[n1 + 2..];
        var n2 := SpaceRun(b);
        if n2 == 0 || !StartsWithIgnoreCase(b[n2..], "of") then None
        else
          var c := b[n2 + 2..];
          var d := c[SpaceRun(c)..];
          var e := if d != [] && d[0] == ':' then d[1..] else d;
          Some(e[SpaceRun(e)..])
  }

  predicate IsAsciiLetter(c: char) {
    IsAsciiUpper(c) || IsAsciiLower(c)
  }

  /** The length of the `[A-Za-z]*` run that starts `s`. */
  function LetterRun(s: string): (n: nat)
    ensures n <= |s|
    ensures forall i | 0 <= i < n :: IsAsciiLetter(s[i])
    ensures n == |s| || !IsAsciiLetter(s[n])
  {
    if s == [] || !IsAsciiLetter(s[0]) then 0 else 1 + LetterRun(s[1..])
  }

  /** The length of the `\d*` run that starts `s`. */
  function DigitRun(s: string): (n: nat)
    ensures n <= |s|
    ensures forall i | 0 <= i < n :: IsDigit(s[i])
    ensures n == |s| || !IsDigit(s[n])
  {
    if s == [] || !IsDigit(s[0]) then 0 else 1 + DigitRun(s[1..])
  }

  /** `s` holds a decimal digit. */
  predicate ContainsDigit(s: string) {
    exists i | 0 <= i < |s| :: IsDigit(s[i])
  }

  /** The group `([A-Za-z]+\s+\d{1,2},\s*\d{4})` at the start of `u`. */
  function MonthDayYearGroup(u: string): (r: Option<string>)
    ensures r.Some? ==> r.value != [] && StartsWith(u, r.value)
    ensures r.Some? ==> ContainsDigit(r.value)
  {
    match MonthDayYearSpan(u)
    case None => None
    case Some((len, at)) =>
      PrefixWithDigit(u, len, at);
      Some(u[..len])
  }

  /** The length of that group, with the position of the day's first
      digit. */
  function MonthDayYearSpan(u: string): (r: Option<(nat, nat)>)
    ensures r.Some? ==> r.value.1 < r.value.0 <= |u| && IsDigit(u[r.value.1])
  {
    var letters := LetterRun(u);
    if letters == 0 then None
    else
      var afterMonth := u[letters..];
      var spaces := SpaceRun(afterMonth);
      var dayText := afterMonth[spaces..];
      var day := DigitRun(dayText);
      if spaces == 0 || day == 0 || day > 2 || day >= |dayText| || dayText[day] != ',' then None
      else
        var afterComma := dayText[day + 1..];
        var gap := SpaceRun(afterComma);
        var year := DigitRun(afterComma[gap..]);
        if year < 4 then None
        else
          var p := letters + spaces;
          assert u[p] == dayText[0] && IsDigit(dayText[0]);
          Some((p + day + 1 + gap + 4, p))
  }

  /** A non-empty prefix of `u` that reaches past a digit of `u`. */
  lemma PrefixWithDigit(u: string, len: nat, at: nat)
    requires at < len <= |u| && IsDigit(u[at])
    ensures u[..len] != [] && StartsWith(u, u[..len]) && ContainsDigit(u[..len])
  {
    assert u[..len][at] == u[at];
  }

  /** The group `(\d{1,2}\/\d{1,2}\/\d{2,4})` at the start of `u`. */
  function NumericDateGroup(u: string): (r: Option<string>)
    ensures r.Some? ==> r.value != [] && StartsWith(u, r.value)
    ensures r.Some? ==> ContainsDigit(r.value)
  {
    var m := DigitRun(u);
    if m == 0 || m > 2 || m >= |u| || u[m] != '/' then None
    else
      var v := u[m + 1..];
      var d := DigitRun(v);
      if d == 0 || d > 2 || d >= |v| || v[d] != '/' then None
      else
        var w := v[d + 1..];
        var y := DigitRun(w);
        if y < 2 then None
        else
          var len := m + 1 + d + 1 + (if y < 4 then y else 4);
          var g := u[..len];
          assert IsDigit(g[0]);
          Some(g)
  }

  /** The month-name pattern matched at the start of `t`. */
  function MonthDateAt(t: string): (r: Option<string>)
    ensures r.Some? ==> ContainsDigit(r.value)
  {
    match AfterAsOfLabel(t)
    case None => None
    case Some(u) => MonthDayYearGroup(u)
  }

  /** The numeric pattern matched at the start of `t`. */
  function NumericDateAt(t: string): (r: Option<string>)
    ensures r.Some? ==> ContainsDigit(r.value)
  {
    match AfterAsOfLabel(t)
    case None => None
    case Some(u) => NumericDateGroup(u)
  }

  /** `text.match(pattern)?.[1]`: the group of the leftmost match. */
  function FirstMatch(text: string, at: string -> Option<string>): (r: Option<string>)
    ensures r.None? <==> forall k | 0 <= k <= |text| :: at(text[k..]).None?
    decreases |text|
  {
    if at(text).Some? then assert text[0..] == text; at(text)
    else if text == [] then None
    else
      var r := FirstMatch(text[1..], at);
      assert forall k | 1 <= k <= |text| :: text[k..] == text[1..][k - 1..];
      assert text[0..] == text;
      r
  }

  /** extractAsOfDate: the month-name form is tried first, then the numeric
      form; with neither the date is "Unknown". */
  function ExtractAsOfDate(content: string, dateOf: string -> Option<CalendarDate>): string {
    var text := FlattenHtmlToText(content);
    match FirstMatch(text, MonthDateAt)
    case Some(g) => ToIsoDate(g, dateOf)
    case None =>
      match FirstMatch(text, NumericDateAt)
      case Some(g) => ToIsoDate(g, dateOf)
      case None => UNKNOWN_DATE
  }

  /** The month-name form wins wherever it matches, whatever the numeric form
      finds; the numeric form is used only when the month-name form matches
      nowhere. */
  lemma ExtractAsOfDateOrder(content: string, dateOf: string -> Option<CalendarDate>)
    ensures var text := FlattenHtmlToText(content);
            (FirstMatch(text, MonthDateAt).Some? ==>
               ExtractAsOfDate(content, dateOf) == ToIsoDate(FirstMatch(text, MonthDateAt).value, dateOf))
            && (FirstMatch(text, MonthDateAt).None? && FirstMatch(text, NumericDateAt).Some? ==>
               ExtractAsOfDate(content, dateOf) == ToIsoDate(FirstMatch(text, NumericDateAt).value, dateOf))
  {
  }

  /** A formatted date is never "Unknown": it holds a `-`. */
  lemma IsoDateTextIsKnown(d: CalendarDate)
    ensures IsoDateText(d) != UNKNOWN_DATE
  {
    var r := IsoDateText(d);
    var n := |IntToString(d.year)|;
    assert r[n] == '-';
    assert forall j | 0 <= j < |UNKNOWN_DATE| :: UNKNOWN_DATE[j] != '-';
  }

  /** Cleaning keeps the digits of the date text. */
  lemma CleanDateTextKeepsDigit(g: string)
    requires ContainsDigit(g)
    ensures ContainsDigit(CleanDateText(g))
  {
    var i :| 0 <= i < |g| && IsDigit(g[i]);
    var c := g[i];
    ReplaceAllKeepsOthers(g, '.', c);
    NormalizeLineKeeps(ReplaceAll(g, ".", ""), c);
    var t := CleanDateText(g);
    var j :| 0 <= j < |t| && t[j] == c;
    assert IsDigit(t[j]);
  }

  lemma UnknownHasNoDigit()
    ensures !ContainsDigit(UNKNOWN_DATE)
  {
    assert forall j | 0 <= j < |UNKNOWN_DATE| :: !IsDigit(UNKNOWN_DATE[j]);
  }

  /** A matched date group never comes back as "Unknown": either it parses and
      is written with `-` separators, or it keeps its digits. */
  lemma {:induction false} MatchedDateIsKnown(g: string, dateOf: string -> Option<CalendarDate>)
    requires ContainsDigit(g)
    ensures ToIsoDate(g, dateOf) != UNKNOWN_DATE
  {
    assert g != [];
    var text := CleanDateText(g);
    if dateOf(text).Some? {
      IsoDateTextIsKnown(dateOf(text).value);
    } else {
      CleanDateTextKeepsDigit(g);
      UnknownHasNoDigit();
    }
  }

  /** Removing a one-character pattern keeps every other character. */
  lemma {:induction false} ReplaceAllKeepsOthers(s: string, c: char, d: char)
    requires d in s && d != c
    ensures d in ReplaceAll(s, [c], "")
    decreases |s|
  {
    if s[0] == d {
      assert !StartsWith(s, [c]);
    } else {
      assert d in s[1..];
      ReplaceAllKeepsOthers(s[1..], c, d);
    }
  }

  /** extractAsOfDate answers "Unknown" exactly when neither pattern matches
      anywhere in the flattened text. */
  lemma ExtractAsOfDateUnknown(content: string, dateOf: string -> Option<CalendarDate>)
    ensures ExtractAsOfDate(content, dateOf) == UNKNOWN_DATE
        <==> (FirstMatch(FlattenHtmlToText(content), MonthDateAt).None?
              && FirstMatch(FlattenHtmlToText(content), NumericDateAt).None?)
  {
    var text := FlattenHtmlToText(content);
    match FirstMatch(text, MonthDateAt)
    case Some(g) => {
      FirstMatchIsAMatch(text, MonthDateAt);
      MatchedDateIsKnown(g, dateOf);
    }
    case None => {
      match FirstMatch(text, NumericDateAt)
      case Some(g) => {
        FirstMatchIsAMatch(text, NumericDateAt);
        MatchedDateIsKnown(g, dateOf);
      }
      case None => {}
    }
  }

  /** The leftmost match is a match at some position. */
  lemma {:induction false} FirstMatchIsAMatch(text: string, at: string -> Option<string>)
    requires FirstMatch(text, at).Some?
    ensures exists k | 0 <= k <= |text| :: at(text[k..]) == FirstMatch(text, at)
    decreases |text|
  {
    if at(text).Some? {
      assert text[0..] == text;
    } else {
      FirstMatchIsAMatch(text[1..], at);
      var k :| 0 <= k <= |text[1..]| && at(text[1..][k..]) == FirstMatch(text[1..], at);
      assert text[1..][k..] == text[k + 1..];
    }
  }
}
