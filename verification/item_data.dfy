/**
 * `Color` of `mercapi/models/item/data.py` and its `rgb_code` property, Python's
 * `hex()` of the colour's integer value.
 */
module ItemData {
  import opened Wrappers
  import Numerals

  datatype Color = Color(id: int, name: string, rgb: int)
  {
    /**
     * `hex(self.rgb)`: `0x` and lower-case hex digits without leading zeros, after a
     * minus sign when the value is negative.
     */
    function RgbCode(): (s: string)
      ensures rgb >= 0 ==> "0x" <= s && |s| > 2
      ensures rgb < 0 ==> "-0x" <= s && |s| > 3
      ensures rgb == 0 ==> s == "0x0"
    {
      Numerals.HexString(rgb)
    }
  }

  /** The text after the sign and the `0x` prefix. */
  function HexDigits(c: Color): string
  {
    var s := c.RgbCode();
    var start := if c.rgb < 0 then 3 else 2;
    NumeralLength(c.rgb);
    s[start..]
  }

  lemma NumeralLength(i: int)
    ensures |Numerals.HexString(i)| >= (if i < 0 then 4 else 3)
  {
    Numerals.NumeralChars(if i < 0 then -i else i, 16);
  }

  /**
   * The digits are lower-case hex digits, at least one of them, and the first is not
   * `0` unless the value is `0`.
   */
  lemma RgbCodeDigits(c: Color)
    ensures var d := HexDigits(c);
      |d| > 0
      && (forall i :: 0 <= i < |d| ==> ('0' <= d[i] <= '9' || 'a' <= d[i] <= 'f'))
      && (d[0] == '0' <==> c.rgb == 0)
  {
    var m: nat := if c.rgb < 0 then -c.rgb else c.rgb;
    HexDigitsNumeral(c);
    Numerals.NumeralChars(m, 16);
    var ds := Numerals.Digits(m, 16);
    assert HexDigits(c)[0] == Numerals.DigitChar(ds[0]);
    assert ds[0] == 0 <==> m == 0;
  }

  /** The digits of `rgb_code` are the hex numeral of the value's magnitude. */
  lemma HexDigitsNumeral(c: Color)
    ensures HexDigits(c) == Numerals.Numeral(if c.rgb < 0 then -c.rgb else c.rgb, 16)
  {
    var digits := Numerals.Numeral(if c.rgb < 0 then -c.rgb else c.rgb, 16);
    if c.rgb < 0 {
      assert c.RgbCode() == "-0x" + digits;
    } else {
      assert c.RgbCode() == "0x" + digits;
    }
  }

  /** Reading `rgb_code` back with `int(rgb_code, 16)` gives the colour's value. */
  lemma RgbCodeRoundTrip(c: Color)
    ensures Numerals.ParseInt(c.RgbCode(), 16) == Some(c.rgb)
  {
    Numerals.ParseHexString(c.rgb);
  }

  /** Two colours have the same `rgb_code` exactly when they have the same value. */
  lemma RgbCodeInjective(a: Color, b: Color)
    ensures a.RgbCode() == b.RgbCode() <==> a.rgb == b.rgb
  {
    RgbCodeRoundTrip(a);
    RgbCodeRoundTrip(b);
  }

  /** A negative value prints as `-` followed by the `rgb_code` of its absolute value. */
  lemma NegativeRgbCode(c: Color)
    requires c.rgb < 0
    ensures c.RgbCode() == "-" + c.(rgb := -c.rgb).RgbCode()
  {
  }
}
