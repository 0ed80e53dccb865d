/** The string operations of JavaScript that the server relies on: `split` with a
    one-character separator, `toLowerCase`, `trim`, number printing, and the date
    part of `Date.prototype.toISOString`. */
module Strings {

  import Js

  // ---------------------------------------------------------------------------
  // split and join

  /** Number of occurrences of `c` in `s`. */
  function Occurrences(s: string, c: char): (n: nat)
    ensures n <= |s|
    ensures n == 0 <==> c !in s
  {
    if s == [] then 0
    else (if s[0] == c then 1 else 0) + Occurrences(s[1..], c)
  }

  /** `s.split(sep)` for a one-character `sep`: the pieces between separators, so
      `"".split(",")` is `[""]` and `",".split(",")` is `["", ""]`. */
  function Split(s: string, sep: char): (parts: seq<string>)
    ensures |parts| >= 1
  {
    if s == [] then [""]
    else
      var rest := Split(s[1..], sep);
      if s[0] == sep then [""] + rest
      else [[s[0]] + rest[0]] + rest[1..]
  }

  /** `parts.join(sep)`. */
  function Join(parts: seq<string>, sep: char): string
  {
    if parts == [] then ""
    else if |parts| == 1 then parts[0]
    else parts[0] + [sep] + Join(parts[1..], sep)
  }

  lemma {:induction false} SplitCount(s: string, sep: char)
    ensures |Split(s, sep)| == Occurrences(s, sep) + 1
  {
    if s != [] {
      SplitCount(s[1..], sep);
    }
  }

  lemma {:induction false} SplitPiecesFree(s: string, sep: char)
    ensures forall i :: 0 <= i < |Split(s, sep)| ==> sep !in Split(s, sep)[i]
  {
    if s != [] {
      SplitPiecesFree(s[1..], sep);
    }
  }

  /** Joining the pieces back with the separator gives the original string. */
  lemma {:induction false} SplitJoin(s: string, sep: char)
    ensures Join(Split(s, sep), sep) == s
  {
    if s != [] {
      var rest := Split(s[1..], sep);
      SplitJoin(s[1..], sep);
      if s[0] == sep {
        assert Split(s, sep) == [""] + rest;
        assert s == [sep] + s[1..];
      } else if |rest| == 1 {
        assert s == [s[0]] + s[1..];
      } else {
        var parts := Split(s, sep);
        assert parts[1..] == rest[1..];
        assert s == [s[0]] + s[1..];
      }
    }
  }

  /** Splitting a string that starts with a separator-free piece. */
  lemma {:induction false} SplitAfterPiece(a: string, b: string, sep: char)
    requires sep !in a
    ensures Split(a + [sep] + b, sep) == [a] + Split(b, sep)
  {
    if a == [] {
      assert [sep] + b == a + [sep] + b;
      assert ([sep] + b)[1..] == b;
    } else {
      var s := a + [sep] + b;
      assert s[1..] == a[1..] + [sep] + b;
      SplitAfterPiece(a[1..], b, sep);
      assert [a[0]] + a[1..] == a;
    }
  }

  /** A string without the separator splits into itself. */
  lemma {:induction false} SplitWhole(a: string, sep: char)
    requires sep !in a
    ensures Split(a, sep) == [a]
  {
    if a != [] {
      SplitWhole(a[1..], sep);
      assert [a[0]] + a[1..] == a;
    }
  }

  /** The other round trip: splitting a join of separator-free pieces gives the pieces. */
  lemma {:induction false} JoinSplit(parts: seq<string>, sep: char)
    requires |parts| >= 1
    requires forall i :: 0 <= i < |parts| ==> sep !in parts[i]
    ensures Split(Join(parts, sep), sep) == parts
  {
    if |parts| == 1 {
      SplitWhole(parts[0], sep);
    } else {
      JoinSplit(parts[1..], sep);
      SplitAfterPiece(parts[0], Join(parts[1..], sep), sep);
      assert [parts[0]] + parts[1..] == parts;
    }
  }

  // ---------------------------------------------------------------------------
  // toLowerCase and trim

  predicate IsUpper(c: char) { 'A' <= c <= 'Z' }

  /** Lower-casing of one character, for the ASCII letters. */
  function LowerChar(c: char): char
  {
    if IsUpper(c) then (c as int + 32) as char else c
  }

  function ToLower(s: string): string
  {
    seq(|s|, i requires 0 <= i < |s| => LowerChar(s[i]))
  }

  /** `toLowerCase` keeps the length, leaves no upper-case letter, changes only
      letters, and is idempotent. */
  lemma LowerCaseProperties(s: string)
    ensures |ToLower(s)| == |s|
    ensures forall i :: 0 <= i < |s| ==> !IsUpper(ToLower(s)[i])
    ensures forall i :: 0 <= i < |s| && !IsUpper(s[i]) ==> ToLower(s)[i] == s[i]
    ensures ToLower(ToLower(s)) == ToLower(s)
  {
  }

  /** The characters `String.prototype.trim` removes: the ECMAScript WhiteSpace
      and LineTerminator code points. */
  predicate IsSpace(c: char)
  {
    c in {'\t', '\n', '\U{000B}', '\U{000C}', '\r', ' ', '\U{00A0}', '\U{1680}',
          '\U{2028}', '\U{2029}', '\U{202F}', '\U{205F}', '\U{3000}', '\U{FEFF}'}
    || ('\U{2000}' <= c <= '\U{200A}')
  }

  /** Length of the run of white space at the start of `s`. */
  function LeadingSpaces(s: string): (k: nat)
    ensures k <= |s|
    ensures forall i :: 0 <= i < k ==> IsSpace(s[i])
    ensures k < |s| ==> !IsSpace(s[k])
  {
    if s == [] || !IsSpace(s[0]) then 0 else 1 + LeadingSpaces(s[1..])
  }

  /** Length of the run of white space at the end of `s`. */
  function TrailingSpaces(s: string): (k: nat)
    ensures k <= |s|
    ensures forall i :: |s| - k <= i < |s| ==> IsSpace(s[i])
    ensures k < |s| ==> !IsSpace(s[|s| - 1 - k])
  {
    if s == [] || !IsSpace(s[|s| - 1]) then 0 else 1 + TrailingSpaces(s[..|s| - 1])
  }

  /** `s.trim()`: what is left of `s` between its leading and trailing white
      space, that is one slice of `s` starting after the leading white space,
      with no white space at either end and only white space after it. */
  function Trim(s: string): (r: string)
    ensures LeadingSpaces(s) + |r| <= |s|
    ensures r == s[LeadingSpaces(s)..LeadingSpaces(s) + |r|]
    ensures r == [] || (!IsSpace(r[0]) && !IsSpace(r[|r| - 1]))
    ensures forall i :: LeadingSpaces(s) + |r| <= i < |s| ==> IsSpace(s[i])
  {
    var i := LeadingSpaces(s);
    if i == |s| then ""
    else
      var j := |s| - TrailingSpaces(s);
      assert i < j;
      s[i..j]
  }

  // ---------------------------------------------------------------------------
  // decimal numbers

  predicate IsDigit(c: char) { '0' <= c <= '9' }

  predicate AllDigits(s: string) { forall i :: 0 <= i < |s| ==> IsDigit(s[i]) }

  function DigitChar(d: nat): (c: char)
    requires d < 10
  {
    ('0' as int + d) as char
  }

  function DigitValue(c: char): nat
    requires IsDigit(c)
  {
    c as int - '0' as int
  }

  /** The decimal text of `n`, as a template literal prints it: no leading zeros. */
  function NatToString(n: nat): (s: string)
    ensures 1 <= |s| && AllDigits(s)
    ensures |s| > 1 ==> s[0] != '0'
  {
    if n < 10 then [DigitChar(n)] else NatToString(n / 10) + [DigitChar(n % 10)]
  }

  function IntToString(n: int): string
  {
    if n < 0 then "-" + NatToString(-n) else NatToString(n)
  }

  function Pow10(k: nat): (p: nat)
    ensures p >= 1
  {
    if k == 0 then 1 else 10 * Pow10(k - 1)
  }

  /** The last `width` decimal digits of `n`, zero-padded on the left. */
  function Padded(n: nat, width: nat): (s: string)
    ensures |s| == width && AllDigits(s)
  {
    if width == 0 then "" else Padded(n / 10, width - 1) + [DigitChar(n % 10)]
  }

  function ParseDecimal(s: string): nat
    requires AllDigits(s)
  {
    if s == [] then 0 else ParseDecimal(s[..|s| - 1]) * 10 + DigitValue(s[|s| - 1])
  }

  lemma {:induction false} ParseNatToString(n: nat)
    ensures ParseDecimal(NatToString(n)) == n
  {
    if n >= 10 {
      ParseNatToString(n / 10);
      var s := NatToString(n);
      assert s[..|s| - 1] == NatToString(n / 10);
    }
  }

  lemma {:induction false} ParsePadded(n: nat, width: nat)
    requires n < Pow10(width)
    ensures ParseDecimal(Padded(n, width)) == n
  {
    if width > 0 {
      ParsePadded(n / 10, width - 1);
      var s := Padded(n, width);
      assert s[..|s| - 1] == Padded(n / 10, width - 1);
    }
  }

  /** A string that JavaScript reads as an array index: digits without a leading
      zero (`"0"` itself is allowed). */
  function CanonicalIndex(s: string): (r: Js.Option<nat>)
    ensures r.Some? ==> AllDigits(s) && r.value == ParseDecimal(s)
    ensures r.Some? ==> NatToString(r.value) == s
  {
    if |s| > 0 && AllDigits(s) && (|s| == 1 || s[0] != '0') then
      PrintParsed(s);
      Js.Some(ParseDecimal(s))
    else Js.None
  }

  lemma CanonicalIndexOfPrinted(n: nat)
    ensures CanonicalIndex(NatToString(n)) == Js.Some(n)
  {
    ParseNatToString(n);
  }

  /** Whatever number a string prints, it is the index that string names. */
  lemma CanonicalIndexOfAnyPrinted(s: string)
    ensures forall k: nat :: s == NatToString(k) ==> CanonicalIndex(s) == Js.Some(k)
  {
    forall k: nat | s == NatToString(k)
      ensures CanonicalIndex(s) == Js.Some(k)
    {
      CanonicalIndexOfPrinted(k);
    }
  }

  /** A string is an array index exactly when it is the decimal text of a number,
      and then it names that number. */
  lemma CanonicalIndexExactlyPrinted(s: string, n: nat)
    ensures CanonicalIndex(s) == Js.Some(n) <==> s == NatToString(n)
  {
    if s == NatToString(n) {
      CanonicalIndexOfPrinted(n);
    }
  }

  /** Digits without a leading zero read as a number that prints as them. */
  lemma {:induction false} PrintParsed(s: string)
    requires |s| > 0 && AllDigits(s) && (|s| == 1 || s[0] != '0')
    ensures NatToString(ParseDecimal(s)) == s
    decreases |s|
  {
    var last := s[|s| - 1];
    if |s| == 1 {
      assert s == [last];
      assert s[..0] == [];
    } else {
      var init := s[..|s| - 1];
      assert init[0] == s[0];
      PrintParsed(init);
      LeadingDigitPositive(init);
      var p := ParseDecimal(s);
      assert p == ParseDecimal(init) * 10 + DigitValue(last);
      assert p / 10 == ParseDecimal(init) && p % 10 == DigitValue(last);
      assert DigitChar(p % 10) == last;
      assert s == init + [last];
    }
  }

  lemma {:induction false} LeadingDigitPositive(s: string)
    requires |s| > 0 && AllDigits(s) && s[0] != '0'
    ensures ParseDecimal(s) >= 1
    decreases |s|
  {
    if |s| > 1 {
      var init := s[..|s| - 1];
      assert init[0] == s[0];
      LeadingDigitPositive(init);
    }
  }

  // ---------------------------------------------------------------------------
  // dates

  /** A moment in UTC, as `Date.prototype.toISOString` renders it. Years outside
      0..9999 use the extended six-digit form there, which this model excludes. */
  datatype Instant = Instant(year: nat, month: nat, day: nat,
                             hour: nat, minute: nat, second: nat, millis: nat)

  predicate ValidInstant(t: Instant)
  {
    t.year <= 9999 && 1 <= t.month <= 12 && 1 <= t.day <= 31 &&
    t.hour < 24 && t.minute < 60 && t.second < 60 && t.millis < 1000
  }

  /** The date part of the ISO string, `YYYY-MM-DD`. */
  function IsoDatePart(t: Instant): string
  {
    Padded(t.year, 4) + "-" + Padded(t.month, 2) + "-" + Padded(t.day, 2)
  }

  /** `t.toISOString()`: `YYYY-MM-DDTHH:mm:ss.sssZ`. */
  function IsoString(t: Instant): string
  {
    IsoDatePart(t) + "T" + Padded(t.hour, 2) + ":" + Padded(t.minute, 2) + ":" +
    Padded(t.second, 2) + "." + Padded(t.millis, 3) + "Z"
  }

  lemma DigitsHaveNo(s: string, c: char)
    requires AllDigits(s) && !IsDigit(c)
    ensures c !in s
  {
  }

  /** `toISOString().split("T")[0].split("-")` concatenated: the date as YYYYMMDD.
      It is eight digits long and reads back as the year, month and day. */
  function CompactDate(t: Instant): (d: string)
    requires ValidInstant(t)
    ensures |d| == 8 && AllDigits(d)
    ensures ParseDecimal(d[..4]) == t.year
    ensures ParseDecimal(d[4..6]) == t.month
    ensures ParseDecimal(d[6..]) == t.day
  {
    var pieces := Split(Split(IsoString(t), 'T')[0], '-');
    CompactDateSplits(t);
    var d := pieces[0] + pieces[1] + pieces[2];
    assert d[..4] == Padded(t.year, 4);
    assert d[4..6] == Padded(t.month, 2);
    assert d[6..] == Padded(t.day, 2);
    ParsePadded(t.year, 4);
    ParsePadded(t.month, 2);
    ParsePadded(t.day, 2);
    d
  }

  lemma CompactDateSplits(t: Instant)
    ensures Split(Split(IsoString(t), 'T')[0], '-')
            == [Padded(t.year, 4), Padded(t.month, 2), Padded(t.day, 2)]
  {
    var date := IsoDatePart(t);
    var time := Padded(t.hour, 2) + ":" + Padded(t.minute, 2) + ":" +
                Padded(t.second, 2) + "." + Padded(t.millis, 3) + "Z";
    var y, m, d := Padded(t.year, 4), Padded(t.month, 2), Padded(t.day, 2);
    DigitsHaveNo(y, 'T');
    DigitsHaveNo(m, 'T');
    DigitsHaveNo(d, 'T');
    DigitsHaveNo(y, '-');
    DigitsHaveNo(m, '-');
    DigitsHaveNo(d, '-');
    assert 'T' !in date;
    assert IsoString(t) == date + ['T'] + time;
    SplitAfterPiece(date, time, 'T');
    assert date == y + ['-'] + (m + ['-'] + d);
    SplitAfterPiece(y, m + ['-'] + d, '-');
    SplitAfterPiece(m, d, '-');
    SplitWhole(d, '-');
  }
}
