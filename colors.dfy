/**
 * `rgbToHex`, which turns a key's "r,g,b" colour string into the "#rrggbb"
 * value of its colour picker, and the reading of "#rrggbb" back into bytes.
 */
module Colors {
  import opened Wrappers
  import opened JsText
  import opened Keys

  /**
   * Fewer than three comma-separated components leave `b` (or `g`) undefined,
   * and calling `toString` on undefined throws a TypeError.
   */
  datatype ColorError = MissingComponent

  /** A colour as three channel values. */
  datatype Rgb = Rgb(r: nat, g: nat, b: nat)

  predicate IsByteColor(c: Rgb) {
    c.r < 256 && c.g < 256 && c.b < 256
  }

  /** The "r,g,b" form the key table stores its colours in. */
  function RgbString(c: Rgb): string {
    Join([Decimal(c.r), Decimal(c.g), Decimal(c.b)], ',')
  }

  function Decimal(n: nat): string {
    NumberToString(Finite(n), 10)
  }

  /** `x.toString(16).padStart(2, '0')` */
  function HexComponent(x: JsNumber): (h: string)
    ensures |h| >= 2
  {
    PadStart(NumberToString(x, 16), 2, '0')
  }

  /** `rgbToHex(rgb)`: it fails exactly when `rgb` holds fewer than two commas. */
  function RgbToHex(rgb: string): (r: Result<string, ColorError>)
    ensures r.Failure? <==> multiset(rgb)[','] < 2
    ensures r.Success? ==> |r.value| >= 7 && r.value[0] == '#'
  {
    var parts := Split(rgb, ',');
    SplitCount(rgb, ',');
    if |parts| < 3 then Failure(MissingComponent)
    else
      var r, g, b := HexComponent(ToNumber(parts[0])), HexComponent(ToNumber(parts[1])), HexComponent(ToNumber(parts[2]));
      Success("#" + r + g + b)
  }

  predicate IsHexColor(s: string) {
    |s| == 7 && s[0] == '#' && AllDigits(s[1..], 16)
  }

  /** Reads "#rrggbb" (lower-case digits, as `toString(16)` writes them) back into bytes. */
  function HexToRgb(s: string): (c: Option<Rgb>)
    ensures c.Some? <==> IsHexColor(s)
    ensures c.Some? ==> IsByteColor(c.value)
  {
    if !IsHexColor(s) then None
    else
      var hi := s[1..];
      assert forall i :: 0 <= i < 6 ==> 0 <= DigitValue(hi[i]) < 16;
      Some(Rgb(Byte(hi[0], hi[1]), Byte(hi[2], hi[3]), Byte(hi[4], hi[5])))
  }

  function Byte(hi: char, lo: char): (v: nat)
    requires 0 <= DigitValue(hi) < 16 && 0 <= DigitValue(lo) < 16
    ensures v < 256
  {
    DigitValue(hi) * 16 + DigitValue(lo)
  }

  /** The two hex digits of a byte, high digit first. */
  function HexPair(n: nat): string
    requires n < 256
  {
    DivMod(n, 16);
    [DigitChar(n / 16), DigitChar(n % 16)]
  }

  /** A byte is written as exactly its two hex digits. */
  lemma ByteHex(n: nat)
    requires n < 256
    ensures HexComponent(Finite(n)) == HexPair(n)
  {
    var digits := NumberToString(Finite(n), 16);
    if n < 16 {
      assert digits == [DigitChar(n)];
      assert HexComponent(Finite(n)) == PadStart(['0'] + digits, 2, '0');
      assert DigitChar(0) == '0';
    } else {
      DivMod(n, 16);
      assert digits == ToRadix(n / 16, 16) + [DigitChar(n % 16)];
      assert ToRadix(n / 16, 16) == [DigitChar(n / 16)];
    }
  }

  /** A decimal numeral holds no comma. */
  lemma NoCommaInDecimal(n: nat)
    ensures ',' !in Decimal(n)
  {
    assert AllDigits(Decimal(n), 10);
    assert DigitValue(',') == -1;
  }

  /** `rgbToHex` reads the first three pieces of the split. */
  lemma RgbToHexOfParts(rgb: string, parts: seq<string>)
    requires Split(rgb, ',') == parts && |parts| >= 3
    ensures RgbToHex(rgb) == Success("#" + HexComponent(ToNumber(parts[0])) + HexComponent(ToNumber(parts[1]))
                                         + HexComponent(ToNumber(parts[2])))
  {
  }

  /** `rgbToHex` of a byte colour written as "r,g,b". */
  lemma RgbToHexOfBytes(c: Rgb)
    requires IsByteColor(c)
    ensures RgbToHex(RgbString(c)) == Success("#" + HexPair(c.r) + HexPair(c.g) + HexPair(c.b))
  {
    var parts := [Decimal(c.r), Decimal(c.g), Decimal(c.b)];
    SplitRgbString(c);
    DecimalByteHex(c.r);
    DecimalByteHex(c.g);
    DecimalByteHex(c.b);
    RgbToHexOfParts(RgbString(c), parts);
  }

  /** "r,g,b" splits into its three numerals. */
  lemma SplitRgbString(c: Rgb)
    ensures Split(RgbString(c), ',') == [Decimal(c.r), Decimal(c.g), Decimal(c.b)]
  {
    NoCommaInDecimal(c.r);
    NoCommaInDecimal(c.g);
    NoCommaInDecimal(c.b);
    SplitJoin([Decimal(c.r), Decimal(c.g), Decimal(c.b)], ',');
  }

  /** A byte's decimal numeral, read by `Number` and written in hex, is its hex pair. */
  lemma DecimalByteHex(n: nat)
    requires n < 256
    ensures HexComponent(ToNumber(Decimal(n))) == HexPair(n)
  {
    DecimalRoundTrip(n);
    ByteHex(n);
  }

  /** Every byte colour survives `rgbToHex` and reading its hex form back. */
  lemma HexRoundTrip(c: Rgb)
    requires IsByteColor(c)
    ensures RgbToHex(RgbString(c)).Success?
    ensures IsHexColor(RgbToHex(RgbString(c)).value)
    ensures HexToRgb(RgbToHex(RgbString(c)).value) == Some(c)
  {
    RgbToHexOfBytes(c);
    HexOfPairs(c);
  }

  lemma HexOfPairs(c: Rgb)
    requires IsByteColor(c)
    ensures var h := "#" + HexPair(c.r) + HexPair(c.g) + HexPair(c.b);
      IsHexColor(h) && HexToRgb(h) == Some(c)
  {
    var x, y, z := HexPair(c.r), HexPair(c.g), HexPair(c.b);
    var h := "#" + x + y + z;
    PairReadsBack(c.r);
    PairReadsBack(c.g);
    PairReadsBack(c.b);
    assert h[1..] == x + y + z;
    assert AllDigits(h[1..], 16) by {
      forall i | 0 <= i < 6 ensures 0 <= DigitValue(h[1..][i]) < 16 {
        if i < 2 { assert h[1..][i] == x[i]; }
        else if i < 4 { assert h[1..][i] == y[i - 2]; }
        else { assert h[1..][i] == z[i - 4]; }
      }
    }
    assert h[1] == x[0] && h[2] == x[1] && h[3] == y[0] && h[4] == y[1] && h[5] == z[0] && h[6] == z[1];
  }

  lemma PairReadsBack(n: nat)
    requires n < 256
    ensures AllDigits(HexPair(n), 16)
    ensures Byte(HexPair(n)[0], HexPair(n)[1]) == n
  {
    DivMod(n, 16);
  }

  /** Components beyond the third are ignored, whatever the first three are. */
  lemma ExtraComponentsIgnored(parts: seq<string>, extra: string)
    requires |parts| == 3 && forall i :: 0 <= i < |parts| ==> ',' !in parts[i]
    ensures RgbToHex(Join(parts, ',') + "," + extra) == RgbToHex(Join(parts, ','))
  {
    var rgb := Join(parts, ',');
    var tail := Split(extra, ',');
    var all := parts + tail;
    assert Join(all, ',') == rgb + "," + extra by {
      JoinSplit(extra, ',');
      JoinAppend(parts, tail, ',');
    }
    assert Split(rgb + "," + extra, ',') == all by {
      assert forall i :: 0 <= i < |all| ==> ',' !in all[i];
      SplitJoin(all, ',');
    }
    assert Split(rgb, ',') == parts by {
      SplitJoin(parts, ',');
    }
    RgbToHexOfParts(rgb + "," + extra, all);
    RgbToHexOfParts(rgb, parts);
  }

  lemma {:induction false} JoinAppend(a: seq<string>, b: seq<string>, sep: char)
    requires |a| >= 1 && |b| >= 1
    ensures Join(a + b, sep) == Join(a, sep) + [sep] + Join(b, sep)
    decreases |a|
  {
    if |a| == 1 {
      assert (a + b)[1..] == b;
    } else {
      JoinAppend(a[1..], b, sep);
      assert (a + b)[1..] == a[1..] + b;
    }
  }

  /** A first component that `Number` cannot read is written as "NaN", unpadded. */
  lemma NonNumericComponent(s: string, g: nat, b: nat)
    requires ',' !in s && ToNumber(s) == NaN && g < 256 && b < 256
    ensures RgbToHex(Join([s, Decimal(g), Decimal(b)], ',')) == Success("#NaN" + HexPair(g) + HexPair(b))
  {
    var parts := [s, Decimal(g), Decimal(b)];
    assert Split(Join(parts, ','), ',') == parts by {
      NoCommaInDecimal(g);
      NoCommaInDecimal(b);
      SplitJoin(parts, ',');
    }
    assert HexComponent(NaN) == "NaN";
    assert "#" + "NaN" == "#NaN";
    DecimalByteHex(g);
    DecimalByteHex(b);
    RgbToHexOfParts(Join(parts, ','), parts);
  }
}
