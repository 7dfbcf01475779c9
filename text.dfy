/** The few `fmt` and `strings` routines the core depends on: the `%d` and
    `%03d` integer formats, `fmt.Fscan` reading one integer, and
    `strings.TrimSpace`. */
module Text {
  import opened Base

  const MinInt64: int := -0x8000_0000_0000_0000
  const MaxInt64: int := 0x7fff_ffff_ffff_ffff

  /** Go's `int` on the 64-bit hosts the tool runs on. */
  type Int64 = x: int | -0x8000_0000_0000_0000 <= x <= 0x7fff_ffff_ffff_ffff

  /** `n++` on a Go `int`: wraps around at the top of the range. */
  function Inc64(n: Int64): (r: Int64)
    ensures r != n
    ensures n < MaxInt64 ==> r == n + 1
  {
    if n == MaxInt64 then MinInt64 else n + 1
  }

  /** White space as `unicode.IsSpace` and `fmt`'s scanner both define it. */
  predicate IsSpace(c: char) {
    ('\U{0009}' <= c <= '\U{000D}') || c == '\U{0020}' || c == '\U{0085}' || c == '\U{00A0}'
    || c == '\U{1680}' || ('\U{2000}' <= c <= '\U{200A}') || c == '\U{2028}' || c == '\U{2029}'
    || c == '\U{202F}' || c == '\U{205F}' || c == '\U{3000}'
  }

  predicate IsDigit(c: char) { '0' <= c <= '9' }

  predicate AllDigits(s: string) { forall i :: 0 <= i < |s| ==> IsDigit(s[i]) }

  function DigitChar(d: nat): (c: char)
    requires d < 10
    ensures IsDigit(c) && c as int - '0' as int == d
  {
    (d + '0' as int) as char
  }

  /** Value of a string of decimal digits, leading zeros allowed. */
  function DigitsValue(s: string): nat
    requires AllDigits(s)
  {
    if s == [] then 0 else DigitsValue(s[..|s| - 1]) * 10 + (s[|s| - 1] as int - '0' as int)
  }

  /** Decimal digits of a natural number, without leading zeros. */
  function NatDigits(n: nat): (s: string)
    ensures |s| > 0 && AllDigits(s)
    ensures |s| > 1 ==> s[0] != '0'
    decreases n
  {
    if n < 10 then [DigitChar(n)] else NatDigits(n / 10) + [DigitChar(n % 10)]
  }

  /** `fmt.Sprintf("%d", n)`. */
  function Itoa(n: int): string {
    if n < 0 then "-" + NatDigits(-n) else NatDigits(n)
  }

  /** `fmt.Sprintf("%03d", n)`: the digits zero-padded so that sign and
      digits together are at least three characters wide. */
  function Format03d(n: int): string {
    if n < 0 then "-" + ZeroPad(NatDigits(-n), 2) else ZeroPad(NatDigits(n), 3)
  }

  function ZeroPad(s: string, width: nat): (r: string)
    ensures AllDigits(s) ==> AllDigits(r)
  {
    if |s| >= width then s else Zeros(width - |s|) + s
  }

  function Zeros(k: nat): (z: string)
    ensures |z| == k && AllDigits(z)
  {
    if k == 0 then [] else "0" + Zeros(k - 1)
  }

  /** What remains after skipping leading white space (also `TrimLeft`). */
  function SkipSpace(s: string): (r: string)
    ensures |r| <= |s| && r == s[|s| - |r|..]
    ensures r == [] || !IsSpace(r[0])
    ensures forall i :: 0 <= i < |s| - |r| ==> IsSpace(s[i])
  {
    if s != [] && IsSpace(s[0]) then SkipSpace(s[1..]) else s
  }

  /** Number of decimal digits at the start of `s`. */
  function LeadingDigits(s: string): (n: nat)
    ensures n <= |s| && AllDigits(s[..n])
    ensures n < |s| ==> !IsDigit(s[n])
  {
    if s != [] && IsDigit(s[0]) then 1 + LeadingDigits(s[1..]) else 0
  }

  /** `fmt.Fscan(r, &n)` with `n` an `int`: skip white space, take an optional
      sign and the longest run of decimal digits, and check that the value
      fits in 64 bits. Text after the number is not read. */
  function Scan(text: string): Result<Int64> {
    var s := SkipSpace(text);
    if s == [] then Err(UnexpectedEof) else ScanNumber(s)
  }

  /** The number at the start of `s`, after white space was skipped. */
  function ScanNumber(s: string): Result<Int64>
    requires s != []
  {
    var negative := s[0] == '-';
    var body := if s[0] == '+' || negative then s[1..] else s;
    var n := LeadingDigits(body);
    if n == 0 then Err(ExpectedInteger)
    else
      var v: int := if negative then -(DigitsValue(body[..n]) as int) else DigitsValue(body[..n]);
      if MinInt64 <= v <= MaxInt64 then Ok(v) else Err(ValueOutOfRange)
  }

  /** `strings.TrimSpace`. */
  function TrimSpace(s: string): (r: string)
    ensures r == [] || (!IsSpace(r[0]) && !IsSpace(r[|r| - 1]))
    ensures exists i, j :: (0 <= i <= j <= |s| && r == s[i..j]
                            && (forall k :: 0 <= k < i ==> IsSpace(s[k]))
                            && (forall k :: j <= k < |s| ==> IsSpace(s[k])))
  {
    var t := SkipSpace(s);
    var r := TrimRight(t);
    var i := |s| - |t|;
    assert r == s[i..i + |r|];
    assert forall k :: i + |r| <= k < |s| ==> s[k] == t[k - i];
    r
  }

  function TrimRight(s: string): (r: string)
    ensures |r| <= |s| && r == s[..|r|]
    ensures r == [] || !IsSpace(r[|r| - 1])
    ensures forall k :: |r| <= k < |s| ==> IsSpace(s[k])
  {
    if s != [] && IsSpace(s[|s| - 1]) then TrimRight(s[..|s| - 1]) else s
  }

  // ---------------------------------------------------------------------------
  // Properties

  lemma {:induction false} DigitsValueOfNatDigits(n: nat)
    ensures DigitsValue(NatDigits(n)) == n
    decreases n
  {
    if n >= 10 {
      var s := NatDigits(n);
      assert s[..|s| - 1] == NatDigits(n / 10);
      DigitsValueOfNatDigits(n / 10);
    }
  }

  lemma {:induction false} LeadingZeroIgnored(s: string)
    requires AllDigits(s)
    ensures DigitsValue("0" + s) == DigitsValue(s)
    decreases |s|
  {
    if s != [] {
      var t := "0" + s;
      assert t[..|t| - 1] == "0" + s[..|s| - 1];
      LeadingZeroIgnored(s[..|s| - 1]);
    }
  }

  lemma {:induction false} ZerosIgnored(k: nat, s: string)
    requires AllDigits(s)
    ensures AllDigits(Zeros(k) + s)
    ensures DigitsValue(Zeros(k) + s) == DigitsValue(s)
    decreases k
  {
    if k > 0 {
      var z := Zeros(k - 1) + s;
      ZerosIgnored(k - 1, s);
      assert Zeros(k) + s == "0" + z;
      LeadingZeroIgnored(z);
    } else {
      assert Zeros(k) + s == s;
    }
  }

  lemma {:induction false} LeadingDigitsOf(d: string, rest: string)
    requires AllDigits(d)
    requires rest == [] || !IsDigit(rest[0])
    ensures LeadingDigits(d + rest) == |d|
    decreases |d|
  {
    if d != [] {
      assert (d + rest)[1..] == d[1..] + rest;
      LeadingDigitsOf(d[1..], rest);
    } else {
      assert d + rest == rest;
    }
  }

  /** A run of digits followed by a non-digit scans as its value. */
  lemma ScanDigits(d: string, rest: string)
    requires d != [] && AllDigits(d) && DigitsValue(d) <= MaxInt64
    requires rest == [] || !IsDigit(rest[0])
    ensures ScanNumber(d + rest) == Ok(DigitsValue(d))
  {
    var s := d + rest;
    LeadingDigitsOf(d, rest);
    assert s[..|d|] == d;
    assert IsDigit(s[0]) && s[0] != '-' && s[0] != '+';
  }

  /** The same run after a minus sign scans as its negation. */
  lemma ScanNegativeDigits(d: string, rest: string)
    requires d != [] && AllDigits(d) && MinInt64 <= -(DigitsValue(d) as int)
    requires rest == [] || !IsDigit(rest[0])
    ensures ScanNumber("-" + (d + rest)) == Ok(-(DigitsValue(d) as int))
  {
    var s := "-" + (d + rest);
    LeadingDigitsOf(d, rest);
    assert s[1..] == d + rest;
    assert (d + rest)[..|d|] == d;
  }

  /** The `"%d"` text of a 64-bit integer, followed by anything that does not
      start with a digit (the newline `WritePID` appends), reads back as that
      integer. */
  lemma ScanItoa(n: Int64, rest: string)
    requires rest == [] || !IsDigit(rest[0])
    ensures Scan(Itoa(n) + rest) == Ok(n)
  {
    if n < 0 {
      var m: nat := -(n as int);
      var d := NatDigits(m);
      DigitsValueOfNatDigits(m);
      ScanNegativeDigits(d, rest);
      assert Itoa(n) + rest == "-" + (d + rest);
      ScanStartsAtNumber("-" + (d + rest));
    } else {
      var d := NatDigits(n);
      DigitsValueOfNatDigits(n);
      ScanDigits(d, rest);
      ScanStartsAtNumber(d + rest);
    }
  }

  lemma ScanStartsAtNumber(text: string)
    requires text != [] && !IsSpace(text[0])
    ensures Scan(text) == ScanNumber(text)
  {
  }

  /** Digits and sign of a `%03d` text: what `NextName`'s names are made of. */
  lemma Format03dValue(n: int)
    ensures |Format03d(n)| > 0
    ensures n < 0 <==> Format03d(n)[0] == '-'
    ensures n >= 0 ==> AllDigits(Format03d(n)) && DigitsValue(Format03d(n)) == n
    ensures n < 0 ==> AllDigits(Format03d(n)[1..]) && DigitsValue(Format03d(n)[1..]) == -n
  {
    var m: nat := if n < 0 then -n else n;
    var d := NatDigits(m);
    var w := if n < 0 then 2 else 3;
    DigitsValueOfNatDigits(m);
    if |d| < w {
      ZerosIgnored(w - |d|, d);
    }
    if n < 0 {
      assert Format03d(n)[1..] == ZeroPad(d, 2);
    }
  }

  /** Distinct counters give distinct `%03d` texts. */
  lemma Format03dInjective(a: int, b: int)
    requires Format03d(a) == Format03d(b)
    ensures a == b
  {
    Format03dValue(a);
    Format03dValue(b);
  }

  /** The all-space strings, and only they, trim to the empty string. */
  lemma TrimSpaceEmpty(s: string)
    ensures TrimSpace(s) == [] <==> forall k :: 0 <= k < |s| ==> IsSpace(s[k])
  {
  }

  lemma TrimSpaceIdempotent(s: string)
    ensures TrimSpace(TrimSpace(s)) == TrimSpace(s)
  {
  }
}
