/**
 * The C library pieces the key filter relies on: `strtol(s, nullptr, 10)`
 * with its clamping to the range of `long`, and the modular conversion of a
 * `long` to a 32-bit `int`.
 */
module CNumbers {

  /** Width of C's `long`: 32 bits on Windows and 32-bit ARM, 64 bits on LP64 targets. */
  datatype LongWidth = Long32 | Long64

  const INT_MIN: int := -0x8000_0000
  const INT_MAX: int := 0x7FFF_FFFF

  function LongMin(w: LongWidth): int {
    match w
    case Long32 => INT_MIN
    case Long64 => -0x8000_0000_0000_0000
  }

  function LongMax(w: LongWidth): int {
    match w
    case Long32 => INT_MAX
    case Long64 => 0x7FFF_FFFF_FFFF_FFFF
  }

  /** strtol's overflow rule: an out-of-range value becomes LONG_MIN or LONG_MAX. */
  function ClampLong(v: int, w: LongWidth): (r: int)
    ensures LongMin(w) <= r <= LongMax(w)
    ensures LongMin(w) <= v <= LongMax(w) ==> r == v
    ensures v < LongMin(w) ==> r == LongMin(w)
    ensures v > LongMax(w) ==> r == LongMax(w)
  {
    if v < LongMin(w) then LongMin(w) else if v > LongMax(w) then LongMax(w) else v
  }

  /** The characters C's isspace accepts in the "C" locale. */
  predicate IsSpace(c: char) {
    c == ' ' || c == '\t' || c == '\n' || c == '\U{B}' || c == '\U{C}' || c == '\r'
  }

  predicate IsDigit(c: char) {
    '0' <= c <= '9'
  }

  predicate AllSpaces(ws: string) {
    |ws| == 0 || (IsSpace(ws[0]) && AllSpaces(ws[1..]))
  }

  predicate AllDigits(d: string) {
    |d| == 0 || (IsDigit(d[0]) && AllDigits(d[1..]))
  }

  function DigitValue(c: char): (v: nat)
    requires IsDigit(c)
    ensures v < 10
  {
    (c as int) - ('0' as int)
  }

  function DigitChar(v: nat): (c: char)
    requires v < 10
    ensures IsDigit(c) && DigitValue(c) == v
  {
    (('0' as int) + v) as char
  }

  /** What is left of `s` once its leading white space is skipped. */
  function SkipSpaces(s: string): (t: string)
    ensures t == [] || !IsSpace(t[0])
  {
    if |s| > 0 && IsSpace(s[0]) then SkipSpaces(s[1..]) else s
  }

  /** The unsigned part of a numeral after the white space and the optional sign. */
  function Unsigned(t: string): string {
    if |t| > 0 && (t[0] == '+' || t[0] == '-') then t[1..] else t
  }

  /**
   * strtol's digit loop: while the next character is a decimal digit, the
   * value read so far is multiplied by ten and the digit added; the first
   * other character ends the numeral.
   */
  function ReadDigits(u: string, acc: nat): nat {
    if |u| > 0 && IsDigit(u[0]) then ReadDigits(u[1..], 10 * acc + DigitValue(u[0])) else acc
  }

  /** The number a string of decimal digits denotes. */
  function DigitsValue(d: string): nat {
    ReadDigits(d, 0)
  }

  /**
   * `strtol(s, nullptr, 10)`: skip white space, read an optional sign, then as
   * many decimal digits as follow; no digits at all gives 0, and a value
   * outside the range of `long` is clamped to it.
   */
  function StrToL(s: string, w: LongWidth): (r: int)
    ensures LongMin(w) <= r <= LongMax(w)
  {
    var t := SkipSpaces(s);
    var magnitude: int := ReadDigits(Unsigned(t), 0);
    ClampLong(if |t| > 0 && t[0] == '-' then -magnitude else magnitude, w)
  }

  /** The conversion of an integer to a 32-bit `int`, modulo 2^32 as C++20 defines it. */
  function ToInt32(v: int): (r: int)
    ensures INT_MIN <= r <= INT_MAX
    ensures (v - r) % 0x1_0000_0000 == 0
    ensures INT_MIN <= v <= INT_MAX ==> r == v
  {
    (v + 0x8000_0000) % 0x1_0000_0000 - 0x8000_0000
  }

  /** The canonical decimal numeral of `n`: no sign, no leading zeros. */
  function Decimal(n: nat): (d: string)
    ensures |d| > 0
  {
    if n < 10 then [DigitChar(n)] else Decimal(n / 10) + [DigitChar(n % 10)]
  }

  /** Appending a digit keeps a string all digits. */
  lemma {:induction false} AllDigitsSnoc(p: string, c: char)
    requires AllDigits(p) && IsDigit(c)
    ensures AllDigits(p + [c])
  {
    if |p| > 0 {
      assert (p + [c])[1..] == p[1..] + [c];
      AllDigitsSnoc(p[1..], c);
    } else {
      assert p + [c] == [c];
    }
  }

  /** One more digit at the end multiplies the value by ten and adds the digit. */
  lemma {:induction false} ReadDigitsSnoc(p: string, c: char, acc: nat)
    requires AllDigits(p) && IsDigit(c)
    ensures ReadDigits(p + [c], acc) == 10 * ReadDigits(p, acc) + DigitValue(c)
  {
    if |p| > 0 {
      assert (p + [c])[1..] == p[1..] + [c];
      ReadDigitsSnoc(p[1..], c, 10 * acc + DigitValue(p[0]));
    } else {
      assert p + [c] == [c];
      assert [c][1..] == [];
    }
  }

  /** The digit loop stops at the first character that is not a digit. */
  lemma {:induction false} ReadDigitsStops(d: string, rest: string, acc: nat)
    requires AllDigits(d)
    requires rest == [] || !IsDigit(rest[0])
    ensures ReadDigits(d + rest, acc) == ReadDigits(d, acc)
  {
    if |d| > 0 {
      assert (d + rest)[1..] == d[1..] + rest;
      ReadDigitsStops(d[1..], rest, 10 * acc + DigitValue(d[0]));
    } else {
      assert d + rest == rest;
    }
  }

  /** Reading the canonical numeral of `n` gives back `n`. */
  lemma {:induction false} DecimalValue(n: nat)
    ensures AllDigits(Decimal(n)) && DigitsValue(Decimal(n)) == n
  {
    if n >= 10 {
      DecimalValue(n / 10);
      var p := Decimal(n / 10);
      AllDigitsSnoc(p, DigitChar(n % 10));
      ReadDigitsSnoc(p, DigitChar(n % 10), 0);
      assert DigitsValue(Decimal(n)) == 10 * (n / 10) + n % 10;
    } else {
      var c := DigitChar(n);
      assert Decimal(n) == [c] && [c][1..] == [];
      assert AllDigits([c][1..]);
      assert ReadDigits([c], 0) == ReadDigits([], DigitValue(c));
    }
  }

  /** White space in front of a non-space character is skipped entirely. */
  lemma {:induction false} SkipSpacesPrefix(ws: string, t: string)
    requires AllSpaces(ws)
    requires t == [] || !IsSpace(t[0])
    ensures SkipSpaces(ws + t) == t
  {
    if ws != [] {
      assert (ws + t)[1..] == ws[1..] + t;
      SkipSpacesPrefix(ws[1..], t);
    } else {
      assert ws + t == t;
    }
  }

  /** strtol ignores the white space in front of a numeral. */
  lemma LeadingSpaces(ws: string, t: string, w: LongWidth)
    requires AllSpaces(ws)
    requires t == [] || !IsSpace(t[0])
    ensures StrToL(ws + t, w) == StrToL(t, w)
  {
    SkipSpacesPrefix(ws, t);
    assert SkipSpaces(t) == t;
  }

  /** strtol of a string that does not start with white space, from its sign and its digits. */
  lemma StrToLUnspaced(t: string, w: LongWidth)
    requires t == [] || !IsSpace(t[0])
    ensures StrToL(t, w) == ClampLong(if |t| > 0 && t[0] == '-' then -(ReadDigits(Unsigned(t), 0) as int)
                                      else ReadDigits(Unsigned(t), 0), w)
  {
    assert SkipSpaces(t) == t;
  }

  /** An optional sign in front of a digit is dropped by Unsigned. */
  lemma UnsignedAfterSign(sign: string, u: string)
    requires sign == "" || sign == "+" || sign == "-"
    requires |u| > 0 && IsDigit(u[0])
    ensures Unsigned(sign + u) == u
    ensures (sign + u)[0] == '-' <==> sign == "-"
    ensures !IsSpace((sign + u)[0])
  {
    if sign != "" {
      assert (sign + u)[1..] == u;
    } else {
      assert sign + u == u;
    }
  }

  /** A sign directly followed by a run of digits that ends the numeral. */
  lemma SignedDigits(sign: string, d: string, rest: string, w: LongWidth)
    requires sign == "" || sign == "+" || sign == "-"
    requires |d| > 0 && AllDigits(d)
    requires rest == [] || !IsDigit(rest[0])
    ensures StrToL(sign + (d + rest), w) == ClampLong(if sign == "-" then -(DigitsValue(d) as int) else DigitsValue(d), w)
  {
    assert (d + rest)[0] == d[0];
    SignedNumeral(sign, d + rest, w);
    ReadDigitsStops(d, rest, 0);
  }

  /** An optional sign directly followed by a digit. */
  lemma SignedNumeral(sign: string, u: string, w: LongWidth)
    requires sign == "" || sign == "+" || sign == "-"
    requires |u| > 0 && IsDigit(u[0])
    ensures StrToL(sign + u, w) == ClampLong(if sign == "-" then -(ReadDigits(u, 0) as int) else ReadDigits(u, 0), w)
  {
    UnsignedAfterSign(sign, u);
    StrToLUnspaced(sign + u, w);
  }

  /**
   * Round trip: white space, an optional sign, the canonical numeral of `n`
   * and any tail that does not start with a digit ("12abc") read back as the
   * signed value of `n`, clamped to the range of `long`.
   */
  lemma NumeralRoundTrip(ws: string, sign: string, n: nat, rest: string, w: LongWidth)
    requires AllSpaces(ws)
    requires sign == "" || sign == "+" || sign == "-"
    requires rest == [] || !IsDigit(rest[0])
    ensures StrToL(ws + (sign + (Decimal(n) + rest)), w) == ClampLong(if sign == "-" then -(n as int) else n, w)
  {
    var d := Decimal(n);
    DecimalValue(n);
    var t := sign + (d + rest);
    assert (d + rest)[0] == d[0];
    UnsignedAfterSign(sign, d + rest);
    LeadingSpaces(ws, t, w);
    SignedDigits(sign, d, rest, w);
  }

  /** A string with no digit after its white space and optional sign reads as 0. */
  lemma NoDigitsReadsZero(s: string, w: LongWidth)
    requires var u := Unsigned(SkipSpaces(s)); u == [] || !IsDigit(u[0])
    ensures StrToL(s, w) == 0
  {
  }
}
