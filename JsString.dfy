/**
 * The JavaScript string built-ins the repository relies on, written as total
 * functions over `seq<char>`: the `\s` and `\d` character classes, ASCII case
 * mapping, `replaceAll` with a literal pattern, `split` on one character,
 * `trim`, `includes`, `startsWith` and decimal rendering of a natural number.
 */
module JsString {

  /** The `\s` class of JavaScript regular expressions (WhiteSpace and
      LineTerminator); `String.prototype.trim` strips exactly these. */
  predicate IsSpace(c: char) {
    c == ' ' || c == '\t' || c == '\n' || c == '\r' || c == '\U{000B}' || c == '\U{000C}'
    || c == '\U{00A0}' || c == '\U{1680}' || ('\U{2000}' <= c <= '\U{200A}')
    || c == '\U{2028}' || c == '\U{2029}' || c == '\U{202F}' || c == '\U{205F}'
    || c == '\U{3000}' || c == '\U{FEFF}'
  }

  /** The `\d` class. */
  predicate IsDigit(c: char) {
    '0' <= c <= '9'
  }

  predicate IsAsciiUpper(c: char) {
    'A' <= c <= 'Z'
  }

  predicate IsAsciiLower(c: char) {
    'a' <= c <= 'z'
  }

  /** The `\w` class: ASCII letters, digits and the underscore. */
  predicate IsWordChar(c: char) {
    IsAsciiUpper(c) || IsAsciiLower(c) || IsDigit(c) || c == '_'
  }

  function ToLowerChar(c: char): (r: char)
    ensures IsAsciiUpper(c) ==> IsAsciiLower(r)
    ensures !IsAsciiUpper(c) ==> r == c
  {
    if IsAsciiUpper(c) then (c as int - 'A' as int + 'a' as int) as char else c
  }

  function ToUpperChar(c: char): (r: char)
    ensures IsAsciiLower(c) ==> IsAsciiUpper(r)
    ensures !IsAsciiLower(c) ==> r == c
  {
    if IsAsciiLower(c) then (c as int - 'a' as int + 'A' as int) as char else c
  }

  /** `toLowerCase()` on the ASCII range. */
  function ToLower(s: string): (r: string)
    ensures |r| == |s|
    ensures forall i | 0 <= i < |s| :: r[i] == ToLowerChar(s[i])
  {
    if s == [] then [] else [ToLowerChar(s[0])] + ToLower(s[1..])
  }

  /** ASCII case-insensitive equality, the comparison a regex with the `i` flag
      makes between ASCII pattern characters and the input. */
  predicate EqualsIgnoreCase(a: string, b: string) {
    ToLower(a) == ToLower(b)
  }

  predicate StartsWith(s: string, prefix: string) {
    |prefix| <= |s| && s[..|prefix|] == prefix
  }

  /** `s.endsWith(suffix)`. */
  predicate EndsWith(s: string, suffix: string) {
    |suffix| <= |s| && s[|s| - |suffix|..] == suffix
  }

  /** Lower-casing commutes with concatenation. */
  lemma ToLowerConcat(a: string, b: string)
    ensures ToLower(a + b) == ToLower(a) + ToLower(b)
  {
    var l := ToLower(a + b);
    var r := ToLower(a) + ToLower(b);
    assert forall i | 0 <= i < |l| :: l[i] == r[i] by {
      forall i | 0 <= i < |l| ensures l[i] == r[i] {
        if i < |a| {
          assert (a + b)[i] == a[i];
        } else {
          assert (a + b)[i] == b[i - |a|];
        }
      }
    }
  }

  /** Lower-casing twice is lower-casing once. */
  lemma ToLowerIdempotent(s: string)
    ensures ToLower(ToLower(s)) == ToLower(s)
  {
    var once := ToLower(s);
    assert forall i | 0 <= i < |s| :: ToLowerChar(once[i]) == once[i];
  }

  /** `s.includes(part)`. */
  predicate Includes(s: string, part: string)
    decreases |s|
  {
    StartsWith(s, part) || (|s| > 0 && Includes(s[1..], part))
  }

  /** `part` occurs in `s` at index `i`. */
  predicate OccursAt(s: string, part: string, i: int) {
    0 <= i <= |s| - |part| && s[i..i + |part|] == part
  }

  /** `includes` holds exactly when the part occurs at some index. */
  lemma {:induction false} IncludesAt(s: string, part: string)
    ensures Includes(s, part) <==> exists i :: OccursAt(s, part, i)
    decreases |s|
  {
    if StartsWith(s, part) {
      assert OccursAt(s, part, 0);
    } else if |s| > 0 {
      IncludesAt(s[1..], part);
      if Includes(s[1..], part) {
        var i :| OccursAt(s[1..], part, i);
        assert s[i + 1..i + 1 + |part|] == s[1..][i..i + |part|];
        assert OccursAt(s, part, i + 1);
      }
      if exists i :: OccursAt(s, part, i) {
        var i :| OccursAt(s, part, i);
        assert i != 0;
        assert s[1..][i - 1..i - 1 + |part|] == s[i..i + |part|];
        assert OccursAt(s[1..], part, i - 1);
      }
    } else {
      assert |part| > 0;
    }
  }

  /** `s.replaceAll(pattern, replacement)` for a literal, non-empty pattern:
      occurrences are replaced left to right, without overlap. */
  function ReplaceAll(s: string, pattern: string, replacement: string): (r: string)
    requires |pattern| > 0
    ensures forall c | c !in s && c !in replacement :: c !in r
    ensures pattern[0] !in s ==> r == s
    decreases |s|
  {
    if s == [] then []
    else if StartsWith(s, pattern) then replacement + ReplaceAll(s[|pattern|..], pattern, replacement)
    else [s[0]] + ReplaceAll(s[1..], pattern, replacement)
  }

  /** Replacing a one-character pattern with text that does not contain it
      removes that character entirely (`replaceAll(/\r/g, "\n")`). */
  lemma {:induction false} ReplaceAllRemoves(s: string, c: char, replacement: string)
    requires c !in replacement
    ensures c !in ReplaceAll(s, [c], replacement)
    decreases |s|
  {
    if s != [] {
      if StartsWith(s, [c]) {
        ReplaceAllRemoves(s[1..], c, replacement);
      } else {
        ReplaceAllRemoves(s[1..], c, replacement);
      }
    }
  }

  /** `s.split(separator)` for a one-character separator; like JavaScript,
      the empty string splits into one empty piece. */
  function Split(s: string, separator: char): (pieces: seq<string>)
    ensures |pieces| >= 1
    ensures forall k | 0 <= k < |pieces| :: separator !in pieces[k]
    decreases |s|
  {
    if s == [] then [[]]
    else
      var rest := Split(s[1..], separator);
      if s[0] == separator then [[]] + rest
      else [[s[0]] + rest[0]] + rest[1..]
  }

  /** The first piece of a split is the longest prefix without the
      separator: it is followed by the separator, or it is all of `s`. */
  lemma {:induction false} SplitFirst(s: string, separator: char)
    ensures var first := Split(s, separator)[0];
            separator !in first && StartsWith(s, first)
            && (|first| < |s| ==> s[|first|] == separator)
    decreases |s|
  {
    if s != [] && s[0] != separator {
      SplitFirst(s[1..], separator);
      var rest := Split(s[1..], separator);
      var first := [s[0]] + rest[0];
      assert Split(s, separator)[0] == first;
      assert s[..|first|] == [s[0]] + s[1..][..|rest[0]|];
    }
  }

  /** Text without the separator, then the separator: the first piece is that
      text. */
  lemma {:induction false} SplitFirstOf(head: string, separator: char, tail: string)
    requires separator !in head
    ensures Split(head + [separator] + tail, separator)[0] == head
    decreases |head|
  {
    var s := head + [separator] + tail;
    if head != [] {
      assert s[0] == head[0] && s[1..] == head[1..] + [separator] + tail;
      SplitFirstOf(head[1..], separator, tail);
      assert head == [head[0]] + head[1..];
    }
  }

  /** `pieces.join(separator)`. */
  function Join(pieces: seq<string>, separator: string): string {
    if pieces == [] then []
    else if |pieces| == 1 then pieces[0]
    else pieces[0] + separator + Join(pieces[1..], separator)
  }

  /** Splitting and joining again gives back the original text. */
  lemma {:induction false} JoinSplit(s: string, separator: char)
    ensures Join(Split(s, separator), [separator]) == s
    decreases |s|
  {
    if s != [] {
      var rest := Split(s[1..], separator);
      JoinSplit(s[1..], separator);
      if s[0] == separator {
        assert Split(s, separator) == [[]] + rest;
      } else {
        var pieces := Split(s, separator);
        assert pieces == [[s[0]] + rest[0]] + rest[1..];
        if |rest| == 1 {
          assert Join(rest, [separator]) == rest[0];
        } else {
          assert Join(rest, [separator]) == rest[0] + [separator] + Join(rest[1..], [separator]);
          assert pieces[1..] == rest[1..];
        }
      }
    }
  }

  /** `trimStart()`. */
  function TrimStart(s: string): (r: string)
    ensures r == [] || !IsSpace(r[0])
    ensures |r| <= |s| && r == s[|s| - |r|..]
    ensures forall i | 0 <= i < |s| - |r| :: IsSpace(s[i])
    decreases |s|
  {
    if s != [] && IsSpace(s[0]) then TrimStart(s[1..]) else s
  }

  /** `trimEnd()`. */
  function TrimEnd(s: string): (r: string)
    ensures r == [] || !IsSpace(r[|r| - 1])
    ensures |r| <= |s| && r == s[..|r|]
    ensures forall i | |r| <= i < |s| :: IsSpace(s[i])
    decreases |s|
  {
    if s != [] && IsSpace(s[|s| - 1]) then TrimEnd(s[..|s| - 1]) else s
  }

  /** `trim()`. */
  function Trim(s: string): (r: string)
    ensures r == [] || (!IsSpace(r[0]) && !IsSpace(r[|r| - 1]))
  {
    TrimStart(TrimEnd(s))
  }

  /** The decimal digit of a value below ten. */
  function DigitChar(d: nat): (c: char)
    requires d < 10
    ensures IsDigit(c)
  {
    ('0' as int + d) as char
  }

  /** `String(n)` for a natural number: its decimal digits, without leading zeros. */
  function NatToString(n: nat): (r: string)
    ensures |r| >= 1
    ensures forall i | 0 <= i < |r| :: IsDigit(r[i])
    ensures n >= 10 <==> |r| > 1
    decreases n
  {
    if n < 10 then [DigitChar(n)] else NatToString(n / 10) + [DigitChar(n % 10)]
  }

  /** `String(n)` for an integer, with a leading `-` when negative. */
  function IntToString(n: int): string {
    if n < 0 then "-" + NatToString(-n) else NatToString(n)
  }

  /** `String(n).padStart(2, "0")`. */
  function PadTwo(n: nat): (r: string)
    ensures n < 100 ==> |r| == 2
  {
    if n < 10 then "0" + NatToString(n) else NatToString(n)
  }

  /** The value of a string of decimal digits. */
  function DigitsValue(s: string): (n: nat)
    requires forall i | 0 <= i < |s| :: IsDigit(s[i])
    decreases |s|
  {
    if s == [] then 0
    else
      var last := s[|s| - 1];
      assert IsDigit(last);
      DigitsValue(s[..|s| - 1]) * 10 + (last as int - '0' as int)
  }

  /** Reading back the digits of `String(n)` gives `n`. */
  lemma {:induction false} DigitsValueOfNatToString(n: nat)
    ensures DigitsValue(NatToString(n)) == n
    decreases n
  {
    if n >= 10 {
      DigitsValueOfNatToString(n / 10);
      var s := NatToString(n);
      assert s[..|s| - 1] == NatToString(n / 10);
    }
  }
}
