/** The Python string built-ins the bot relies on: `sep.join(parts)` for a
    one-character separator, `s.split(sep)` (its inverse, used to state what
    joining keeps) and `str(n)` for an integer. */
module PyStr {
  import opened Wrappers

  /** Total length of all parts. */
  function SumLengths(parts: seq<string>): nat
  {
    if |parts| == 0 then 0 else |parts[0]| + SumLengths(parts[1..])
  }

  /** `sep.join(parts)`: the parts in order, one separator between neighbours. */
  function Join(parts: seq<string>, sep: char): (s: string)
    ensures |s| == SumLengths(parts) + (if |parts| == 0 then 0 else |parts| - 1)
  {
    if |parts| == 0 then ""
    else if |parts| == 1 then parts[0]
    else parts[0] + [sep] + Join(parts[1..], sep)
  }

  /** Position of the first occurrence of `c` in `s`. */
  function IndexOf(s: string, c: char): (i: nat)
    requires c in s
    ensures i < |s| && s[i] == c && c !in s[..i]
  {
    if s[0] == c then 0
    else
      var j := IndexOf(s[1..], c);
      assert s[..j + 1] == [s[0]] + s[1..][..j];
      j + 1
  }

  /** `s.split(sep)`: the pieces between separators; never empty, and empty
      pieces are kept (so it has as many pieces as `s` has separators, plus one). */
  function Split(s: string, sep: char): (parts: seq<string>)
    ensures |parts| >= 1
    ensures forall k :: 0 <= k < |parts| ==> sep !in parts[k]
    decreases |s|
  {
    if sep !in s then [s]
    else
      var i := IndexOf(s, sep);
      [s[..i]] + Split(s[i + 1..], sep)
  }

  /** A separator placed right after a piece that does not contain it is the
      first separator of the whole string. */
  lemma IndexAfterPiece(a: string, sep: char, b: string)
    requires sep !in a
    ensures sep in a + [sep] + b && IndexOf(a + [sep] + b, sep) == |a|
  {
    var s := a + [sep] + b;
    assert s[|a|] == sep;
  }

  /** Splitting undoes joining when no part contains the separator. */
  lemma {:induction false} SplitJoin(parts: seq<string>, sep: char)
    requires |parts| >= 1
    requires forall k :: 0 <= k < |parts| ==> sep !in parts[k]
    ensures Split(Join(parts, sep), sep) == parts
    decreases |parts|
  {
    if |parts| > 1 {
      var rest := Join(parts[1..], sep);
      var s := parts[0] + [sep] + rest;
      IndexAfterPiece(parts[0], sep, rest);
      assert s[..|parts[0]|] == parts[0];
      assert s[|parts[0]| + 1..] == rest;
      SplitJoin(parts[1..], sep);
      assert [parts[0]] + parts[1..] == parts;
    }
  }

  /** Joining undoes splitting, for every string. */
  lemma {:induction false} JoinSplit(s: string, sep: char)
    ensures Join(Split(s, sep), sep) == s
    decreases |s|
  {
    if sep in s {
      var i := IndexOf(s, sep);
      var tail := s[i + 1..];
      JoinSplit(tail, sep);
      var parts := [s[..i]] + Split(tail, sep);
      assert parts[1..] == Split(tail, sep);
      assert s == s[..i] + [sep] + tail;
    }
  }

  predicate IsDigit(c: char)
  {
    '0' <= c <= '9'
  }

  predicate AllDigits(s: string)
  {
    forall k :: 0 <= k < |s| ==> IsDigit(s[k])
  }

  function DigitChar(d: nat): (c: char)
    requires d < 10
    ensures IsDigit(c)
  {
    ('0' as int + d) as char
  }

  function DigitValue(c: char): (d: nat)
    requires IsDigit(c)
    ensures d < 10
  {
    c as int - '0' as int
  }

  /** Decimal digits of a natural number, most significant first, without
      leading zeros. */
  function Digits(n: nat): (s: string)
    ensures |s| >= 1 && AllDigits(s)
    ensures s[0] == '0' <==> n == 0
    ensures |s| > 1 ==> s[0] != '0'
  {
    if n < 10 then [DigitChar(n)] else Digits(n / 10) + [DigitChar(n % 10)]
  }

  /** The texts `str` gives for ints: an optional minus sign, then at least one
      digit, with no leading zero and no "-0". */
  predicate Canonical(s: string)
  {
    var digits := if |s| > 0 && s[0] == '-' then s[1..] else s;
    |digits| >= 1 && AllDigits(digits)
    && (|digits| > 1 ==> digits[0] != '0')
    && (|s| > 0 && s[0] == '-' ==> digits != "0")
  }

  /** `str(n)` for a Python int: an optional minus sign, then the digits. */
  function Decimal(n: int): (s: string)
    ensures Canonical(s)
    ensures s[0] == '-' <==> n < 0
  {
    if n < 0 then "-" + Digits(-n) else Digits(n)
  }

  /** The number a string of digits denotes. */
  function DigitsValue(s: string): nat
    requires AllDigits(s)
  {
    if |s| == 0 then 0 else DigitsValue(s[..|s| - 1]) * 10 + DigitValue(s[|s| - 1])
  }

  /** Reads back what `Decimal` writes: an optional minus sign and at least one digit. */
  function ParseDecimal(s: string): Option<int>
  {
    if |s| >= 2 && s[0] == '-' && AllDigits(s[1..]) then Some(-(DigitsValue(s[1..]) as int))
    else if |s| >= 1 && AllDigits(s) then Some(DigitsValue(s))
    else None
  }

  lemma {:induction false} DigitsRoundTrip(n: nat)
    ensures DigitsValue(Digits(n)) == n
  {
    if n >= 10 {
      var s := Digits(n);
      DigitsRoundTrip(n / 10);
      assert s[..|s| - 1] == Digits(n / 10);
    }
  }

  /** The text of a natural number reads back as that number. */
  lemma DigitsParse(n: nat)
    ensures ParseDecimal(Digits(n)) == Some(n)
  {
    var s := Digits(n);
    assert IsDigit(s[0]);
    DigitsRoundTrip(n);
  }

  /** A minus sign before the text of a natural number reads back as its negation. */
  lemma NegatedDigitsParse(m: nat)
    ensures ParseDecimal("-" + Digits(m)) == Some(0 - m)
  {
    var d := Digits(m);
    var s := "-" + d;
    assert s[1..] == d;
    DigitsRoundTrip(m);
  }

  /** `str` loses nothing: the integer can be read back from its text. */
  lemma DecimalRoundTrip(n: int)
    ensures ParseDecimal(Decimal(n)) == Some(n)
  {
    if n < 0 {
      NegatedDigitsParse(-n);
    } else {
      DigitsParse(n);
    }
  }

  /** Distinct integers have distinct texts. */
  lemma DecimalInjective(a: int, b: int)
    requires a != b
    ensures Decimal(a) != Decimal(b)
  {
    DecimalRoundTrip(a);
    DecimalRoundTrip(b);
  }
}
