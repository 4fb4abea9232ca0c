/**
 * Positional numerals as Python writes and reads them: the digits of
 * `str(n)` and `hex(n)`, and the parser behind `int(s)` / `int(s, 16)`.
 */
module Numerals {
  import opened Wrappers

  /** The digits of `n` in `base` (10 or 16), most significant first; `0` has the single digit `0`. */
  function Digits(n: nat, base: nat): (ds: seq<nat>)
    requires base == 10 || base == 16
    ensures 1 <= |ds|
    ensures forall i :: 0 <= i < |ds| ==> ds[i] < base
    ensures n == 0 ==> ds == [0]
    ensures n > 0 ==> ds[0] != 0
    decreases n
  {
    if n < base then [n]
    else
      DivStep(n, base);
      Digits(n / base, base) + [n % base]
  }

  /** Dividing a number at least `base` by `base` leaves a smaller, positive quotient. */
  lemma DivStep(n: nat, base: nat)
    requires base == 10 || base == 16
    requires base <= n
    ensures 0 < n / base < n && n % base < base
  {
    if base == 10 {
      assert 0 < n / 10 < n;
    } else {
      assert 0 < n / 16 < n;
    }
  }

  /** The number a digit sequence denotes (most significant digit first). */
  function FromDigits(ds: seq<nat>, base: nat): nat
  {
    if ds == [] then 0 else FromDigits(ds[..|ds| - 1], base) * base + ds[|ds| - 1]
  }

  lemma AppendDigit(ds: seq<nat>, n: nat, base: nat)
    requires 2 <= base
    requires FromDigits(ds, base) == n / base
    ensures FromDigits(ds + [n % base], base) == n
  {
    assert (ds + [n % base])[..|ds|] == ds;
  }

  lemma {:induction false} FromDigitsOfDigits(n: nat, base: nat)
    requires base == 10 || base == 16
    ensures FromDigits(Digits(n, base), base) == n
    decreases n
  {
    if n < base {
      assert Digits(n, base) == [n];
      assert [n][..0] == [];
    } else {
      FromDigitsOfDigits(n / base, base);
      AppendDigit(Digits(n / base, base), n, base);
    }
  }

  /** The character Python prints for a digit below 16 (lower-case letters). */
  function DigitChar(d: nat): char
    requires d < 16
  {
    if d < 10 then (48 + d) as char else (87 + d) as char
  }

  /** The value of a digit character in `base`, case-insensitive, as `int(s, base)` reads it. */
  function DigitValue(c: char, base: nat): Option<nat>
  {
    if '0' <= c <= '9' && c as int - 48 < base then Some(c as int - 48)
    else if 'a' <= c <= 'z' && c as int - 87 < base then Some(c as int - 87)
    else if 'A' <= c <= 'Z' && c as int - 55 < base then Some(c as int - 55)
    else None
  }

  lemma DigitValueOfDigitChar(d: nat, base: nat)
    requires d < base <= 16
    ensures DigitValue(DigitChar(d), base) == Some(d)
  {
  }

  function DigitString(ds: seq<nat>): (s: string)
    requires forall i :: 0 <= i < |ds| ==> ds[i] < 16
    ensures |s| == |ds|
    ensures forall i :: 0 <= i < |ds| ==> s[i] == DigitChar(ds[i])
  {
    if ds == [] then "" else [DigitChar(ds[0])] + DigitString(ds[1..])
  }

  /** The numeral of a natural number, without sign or prefix. */
  function Numeral(n: nat, base: nat): string
    requires base == 10 || base == 16
  {
    DigitString(Digits(n, base))
  }

  /** Python's `str(i)` for an int. */
  function DecimalString(i: int): string
  {
    (if i < 0 then "-" else "") + Numeral(if i < 0 then -i else i, 10)
  }

  /** Python's `hex(i)`: an optional minus sign, `0x`, then lower-case hex digits without leading zeros. */
  function HexString(i: int): string
  {
    (if i < 0 then "-" else "") + ("0x" + Numeral(if i < 0 then -i else i, 16))
  }

  /**
   * The ASCII characters `int(s)` strips as whitespace: space, tab, line feed, vertical tab,
   * form feed, carriage return, and the separators 0x1c to 0x1f.
   */
  predicate IsSpace(c: char)
  {
    c == ' ' || c == '\t' || c == '\n' || c == '\r' || c as int == 11 || c as int == 12
    || 28 <= c as int <= 31
  }

  function StripLeft(s: string): (t: string)
    ensures |t| <= |s|
  {
    if |s| > 0 && IsSpace(s[0]) then StripLeft(s[1..]) else s
  }

  function StripRight(s: string): (t: string)
    ensures |t| <= |s|
  {
    if |s| > 0 && IsSpace(s[|s| - 1]) then StripRight(s[..|s| - 1]) else s
  }

  function Strip(s: string): string
  {
    StripRight(StripLeft(s))
  }

  /**
   * A run of digits of `base` in which single underscores may separate two digits,
   * as `int(s, base)` accepts it; `None` when `s` is not such a run.
   */
  function DigitRun(s: string, base: nat): Option<seq<nat>>
  {
    if |s| == 0 then None
    else match DigitValue(s[0], base)
      case None => None
      case Some(d) =>
        if |s| == 1 then Some([d])
        else
          var rest := if s[1] == '_' then s[2..] else s[1..];
          match DigitRun(rest, base)
          case None => None
          case Some(ds) => Some([d] + ds)
  }

  /** What follows an optional `0x`/`0X` prefix (and an underscore after it) in base 16. */
  function DropHexPrefix(s: string): string
  {
    if 2 <= |s| && s[0] == '0' && (s[1] == 'x' || s[1] == 'X') then
      (if 3 <= |s| && s[2] == '_' then s[3..] else s[2..])
    else s
  }

  /**
   * Python's `int(s, base)` for bases 10 and 16: surrounding whitespace, an optional sign,
   * in base 16 an optional `0x` prefix, then a digit run. `None` is the `ValueError` case.
   */
  function ParseInt(s: string, base: nat): Option<int>
    requires base == 10 || base == 16
  {
    ParseSigned(Strip(s), base)
  }

  /** `int(t, base)` for a `t` without surrounding whitespace. */
  function ParseSigned(t: string, base: nat): Option<int>
    requires base == 10 || base == 16
  {
    if |t| > 0 && t[0] == '-' then
      match ParseUnsigned(t[1..], base)
      case None => None
      case Some(v) => Some(-v)
    else if |t| > 0 && t[0] == '+' then ParseUnsigned(t[1..], base)
    else ParseUnsigned(t, base)
  }

  /** The magnitude after the sign: an optional `0x` prefix in base 16, then a digit run. */
  function ParseUnsigned(u: string, base: nat): Option<int>
    requires base == 10 || base == 16
  {
    var body := if base == 16 then DropHexPrefix(u) else u;
    match DigitRun(body, base)
    case None => None
    case Some(ds) => Some(FromDigits(ds, base))
  }

  lemma {:induction false} DigitRunOfDigitString(ds: seq<nat>, base: nat)
    requires 1 <= |ds|
    requires base <= 16
    requires forall i :: 0 <= i < |ds| ==> ds[i] < base
    ensures DigitRun(DigitString(ds), base) == Some(ds)
    decreases |ds|
  {
    var s := DigitString(ds);
    DigitValueOfDigitChar(ds[0], base);
    if |ds| == 1 {
      assert ds == [ds[0]];
    } else {
      assert s[1] == DigitChar(ds[1]) && s[1] != '_';
      assert s[1..] == DigitString(ds[1..]);
      DigitRunOfDigitString(ds[1..], base);
      assert [ds[0]] + ds[1..] == ds;
    }
  }

  lemma StripKeeps(s: string)
    requires |s| > 0 && !IsSpace(s[0]) && !IsSpace(s[|s| - 1])
    ensures Strip(s) == s
  {
    assert StripLeft(s) == s;
  }

  /** The characters of a printed numeral: digits and letters only. */
  lemma NumeralChars(n: nat, base: nat)
    requires base == 10 || base == 16
    ensures var s := Numeral(n, base);
      |s| > 0 && forall i :: 0 <= i < |s| ==> ('0' <= s[i] <= '9' || 'a' <= s[i] <= 'f')
  {
  }

  lemma {:induction false} ParseNumeral(n: nat, base: nat)
    requires base == 10 || base == 16
    ensures DigitRun(Numeral(n, base), base) == Some(Digits(n, base))
    ensures FromDigits(Digits(n, base), base) == n
  {
    DigitRunOfDigitString(Digits(n, base), base);
    FromDigitsOfDigits(n, base);
  }

  /** Reading back what `str(i)` prints gives `i`: `int(str(i)) == i`. */
  lemma {:induction false} ParseDecimalString(i: int)
    ensures ParseInt(DecimalString(i), 10) == Some(i)
  {
    var m: nat := if i < 0 then -i else i;
    var digits := Numeral(m, 10);
    NumeralChars(m, 10);
    ParseNumeral(m, 10);
    assert ParseUnsigned(digits, 10) == Some(m);
    ParseSignedPrinted(digits, 10, m, i < 0);
  }

  /**
   * A magnitude `u` that starts with neither a sign nor whitespace and does not end
   * in whitespace reads back, after an optional minus sign, as the signed magnitude.
   */
  lemma ParseSignedPrinted(u: string, base: nat, m: nat, negative: bool)
    requires base == 10 || base == 16
    requires |u| > 0 && u[0] != '-' && u[0] != '+' && !IsSpace(u[0]) && !IsSpace(u[|u| - 1])
    requires ParseUnsigned(u, base) == Some(m)
    ensures ParseInt((if negative then "-" else "") + u, base) == Some(if negative then -(m as int) else m as int)
  {
    var s := (if negative then "-" else "") + u;
    assert s[|s| - 1] == u[|u| - 1];
    StripKeeps(s);
    if negative {
      assert s[1..] == u;
    } else {
      assert s == u;
    }
  }

  lemma {:induction false} ParsePrefixedHex(m: nat)
    ensures ParseUnsigned("0x" + Numeral(m, 16), 16) == Some(m)
  {
    var digits := Numeral(m, 16);
    NumeralChars(m, 16);
    ParseNumeral(m, 16);
    var prefixed := "0x" + digits;
    assert prefixed[2] == digits[0];
    assert prefixed[2..] == digits;
  }

  /** Reading back what `hex(i)` prints as base 16 gives `i`: `int(hex(i), 16) == i`. */
  lemma {:induction false} ParseHexString(i: int)
    ensures ParseInt(HexString(i), 16) == Some(i)
  {
    var m: nat := if i < 0 then -i else i;
    var digits := Numeral(m, 16);
    var prefixed := "0x" + digits;
    NumeralChars(m, 16);
    ParsePrefixedHex(m);
    assert prefixed[|prefixed| - 1] == digits[|digits| - 1];
    ParseSignedPrinted(prefixed, 16, m, i < 0);
  }
}
