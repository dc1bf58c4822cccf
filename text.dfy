/**
 * Text primitives the core relies on: splitting a delimited line on commas and
 * joining it back, the decimal rendering of a Kotlin `Long`/`Int`
 * (`toString`), and the decimal parse of `Integer.parseInt`.
 */
module Text {
  import opened Wrappers

  const Comma: char := ','

  /** Splits `s` at every comma; empty fields are kept, so there is always one more field than commas. */
  function Split(s: string): (r: seq<string>)
    ensures |r| >= 1
    ensures forall k :: 0 <= k < |r| ==> Comma !in r[k]
    decreases |s|
  {
    if |s| == 0 then [""]
    else if s[0] == Comma then [""] + Split(s[1..])
    else
      var rest := Split(s[1..]);
      [[s[0]] + rest[0]] + rest[1..]
  }

  /** Joins non-empty `parts` with a comma between each pair. */
  function Join(parts: seq<string>): (s: string)
    requires |parts| >= 1
    decreases |parts|
  {
    if |parts| == 1 then parts[0] else parts[0] + [Comma] + Join(parts[1..])
  }

  /** Joining what was split gives back the line. */
  lemma {:induction false} JoinSplit(s: string)
    ensures Join(Split(s)) == s
    decreases |s|
  {
    if |s| == 0 {
    } else if s[0] == Comma {
      JoinSplit(s[1..]);
      assert s == [Comma] + s[1..];
    } else {
      var rest := Split(s[1..]);
      JoinSplit(s[1..]);
      if |rest| == 1 {
        assert Join(rest) == rest[0];
      } else {
        assert Join(rest) == rest[0] + [Comma] + Join(rest[1..]);
      }
      assert s == [s[0]] + s[1..];
    }
  }

  /** Splitting a line joined from comma-free fields gives back exactly those fields. */
  lemma {:induction false} SplitJoin(parts: seq<string>)
    requires |parts| >= 1
    requires forall k :: 0 <= k < |parts| ==> Comma !in parts[k]
    ensures Split(Join(parts)) == parts
    decreases |parts|, |parts[0]|
  {
    var p := parts[0];
    if |parts| == 1 {
      SplitFieldOnly(p);
    } else {
      var tail := Join(parts[1..]);
      SplitJoin(parts[1..]);
      SplitPrefix(p, tail);
    }
  }

  /** A comma-free text splits into itself alone. */
  lemma {:induction false} SplitFieldOnly(p: string)
    requires Comma !in p
    ensures Split(p) == [p]
    decreases |p|
  {
    if |p| > 0 {
      SplitFieldOnly(p[1..]);
      assert p == [p[0]] + p[1..];
    }
  }

  /** A comma-free field followed by a comma contributes exactly that field in front of the rest. */
  lemma {:induction false} SplitPrefix(p: string, tail: string)
    requires Comma !in p
    ensures Split(p + [Comma] + tail) == [p] + Split(tail)
    decreases |p|
  {
    if |p| == 0 {
      assert p + [Comma] + tail == [Comma] + tail;
    } else {
      assert (p + [Comma] + tail)[1..] == p[1..] + [Comma] + tail;
      SplitPrefix(p[1..], tail);
      assert p == [p[0]] + p[1..];
    }
  }

  predicate IsDigit(c: char) { '0' <= c <= '9' }

  function DigitChar(d: nat): (c: char)
    requires d < 10
    ensures IsDigit(c)
  {
    "0123456789"[d]
  }

  function DigitValue(c: char): (d: nat)
    requires IsDigit(c)
    ensures d < 10
  {
    (c as int - '0' as int) as nat
  }

  /** Decimal digits of `n`, most significant first, without leading zeros. */
  function FormatNat(n: nat): (s: string)
    ensures |s| >= 1
    ensures forall k :: 0 <= k < |s| ==> IsDigit(s[k])
  {
    if n < 10 then [DigitChar(n)] else FormatNat(n / 10) + [DigitChar(n % 10)]
  }

  /** Kotlin's `toString` of an integer: a leading '-' for negative values, then the digits. */
  function FormatInt(n: int): (s: string)
    ensures |s| >= 1
    ensures Comma !in s
  {
    if n < 0 then "-" + FormatNat(-n) else FormatNat(n)
  }

  /** The value of a non-empty run of decimal digits. */
  function DigitsValue(s: string): (n: nat)
    requires |s| >= 1
    requires forall k :: 0 <= k < |s| ==> IsDigit(s[k])
  {
    if |s| == 1 then DigitValue(s[0])
    else DigitsValue(s[..|s| - 1]) * 10 + DigitValue(s[|s| - 1])
  }

  predicate AllDigits(s: string)
  {
    |s| >= 1 && forall k :: 0 <= k < |s| ==> IsDigit(s[k])
  }

  /**
   * Decimal parse as `Integer.parseInt` reads its text, before the range check:
   * an optional '-' or '+' sign followed by at least one digit; anything else is absent.
   */
  function ParseInt(s: string): (r: Option<int>)
    ensures r.Some? <==> AllDigits(s) || (|s| >= 2 && (s[0] == '-' || s[0] == '+') && AllDigits(s[1..]))
  {
    if |s| >= 1 && (s[0] == '-' || s[0] == '+') then
      if AllDigits(s[1..]) then
        var magnitude: int := DigitsValue(s[1..]);
        Some(if s[0] == '-' then -magnitude else magnitude)
      else None
    else if AllDigits(s) then Some(DigitsValue(s))
    else None
  }

  const MinInt32: int := -0x8000_0000
  const MaxInt32: int := 0x7FFF_FFFF

  predicate InInt32(n: int) { MinInt32 <= n <= MaxInt32 }

  /** `Integer.parseInt`: the decimal parse, failing when the value does not fit a 32-bit `Int`. */
  function ParseInt32(s: string): (r: Option<int>)
    ensures r.Some? ==> InInt32(r.value) && ParseInt(s) == r
    ensures ParseInt(s).Some? && InInt32(ParseInt(s).value) ==> r == ParseInt(s)
  {
    match ParseInt(s)
    case Some(n) => if InInt32(n) then Some(n) else None
    case None => None
  }

  /** Reading back the digits of `n` gives `n`. */
  lemma {:induction false} DigitsValueFormatNat(n: nat)
    ensures DigitsValue(FormatNat(n)) == n
  {
    if n >= 10 {
      var s := FormatNat(n);
      DigitsValueFormatNat(n / 10);
      assert s[..|s| - 1] == FormatNat(n / 10);
    }
  }

  /** Parsing the digits of a natural number gives the number back. */
  lemma ParseFormatNat(n: nat)
    ensures ParseInt(FormatNat(n)) == Some(n)
  {
    var s := FormatNat(n);
    assert IsDigit(s[0]);
    assert AllDigits(s);
    DigitsValueFormatNat(n);
  }

  /** A '-' before a run of digits parses as the negated value of the digits. */
  lemma ParseNegative(digits: string)
    requires AllDigits(digits)
    ensures ParseInt("-" + digits) == Some(-(DigitsValue(digits) as int))
  {
    var s := "-" + digits;
    assert s[1..] == digits;
  }

  /** Parsing the rendering of any integer gives the integer back. */
  lemma ParseFormatInt(n: int)
    ensures ParseInt(FormatInt(n)) == Some(n)
  {
    if n < 0 {
      var m: nat := -n;
      var digits := FormatNat(m);
      assert FormatInt(n) == "-" + digits;
      DigitsValueFormatNat(m);
      ParseNegative(digits);
    } else {
      ParseFormatNat(n);
    }
  }

  /** `Integer.parseInt` reads back `toString` of every 32-bit value. */
  lemma ParseInt32FormatInt(n: int)
    requires InInt32(n)
    ensures ParseInt32(FormatInt(n)) == Some(n)
  {
    ParseFormatInt(n);
  }
}
