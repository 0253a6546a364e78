/**
 * The colour arithmetic of the theme generator (vsskin-app/src/lib/themeGenerator.ts):
 * hex parsing and printing, darken, lighten, brightness and opacity. Numbers
 * are exact reals; JavaScript doubles are not modelled.
 */
module ColorMath {
  import opened Builtins

  /** Channels as `hexToRgb` returns them. */
  datatype Rgb = Rgb(r: int, g: int, b: int)

  predicate IsByte(n: int) {
    0 <= n < 256
  }

  predicate IsChannels(c: Rgb) {
    IsByte(c.r) && IsByte(c.g) && IsByte(c.b)
  }

  /** Every channel of `a` is at most the same channel of `b`. */
  predicate NoBrighter(a: Rgb, b: Rgb) {
    a.r <= b.r && a.g <= b.g && a.b <= b.b
  }

  /** What `/^#?([a-f\d]{2})([a-f\d]{2})([a-f\d]{2})$/i` accepts. */
  predicate IsHexColor(hex: string) {
    (|hex| == 6 || (|hex| == 7 && hex[0] == '#')) && forall i | |hex| - 6 <= i < |hex| :: IsHexDigit(hex[i])
  }

  /** The six digits of an accepted colour. */
  function Digits(hex: string): (d: string)
    requires IsHexColor(hex)
    ensures |d| == 6 && AllHex(d)
  {
    hex[|hex| - 6..]
  }

  /** '#' and six lower-case digits: the form `rgbToHex` writes for channels in range. */
  predicate IsCanonicalHex(s: string) {
    |s| == 7 && s[0] == '#' && forall i | 1 <= i < 7 :: IsLowerHexDigit(s[i])
  }

  /** `hexToRgb`: the three bytes of an accepted colour, black for anything else. */
  function HexToRgb(hex: string): (c: Rgb)
    ensures IsChannels(c)
    ensures !IsHexColor(hex) ==> c == Rgb(0, 0, 0)
  {
    if IsHexColor(hex) then
      var o := |hex| - 6;
      Rgb(PairValue(hex[o], hex[o + 1]), PairValue(hex[o + 2], hex[o + 3]), PairValue(hex[o + 4], hex[o + 5]))
    else Rgb(0, 0, 0)
  }

  /** One channel of `rgbToHex`: `Math.round(x).toString(16).padStart(2, '0')`. */
  function ChannelHex(x: real): string {
    ByteText(Round(x))
  }

  function ByteText(n: int): string {
    PadStart2(IntToHex(n))
  }

  predicate InChannelRange(x: real) {
    0.0 <= x <= 255.0
  }

  /** `rgbToHex`: '#' and each rounded channel in hex, padded to two digits. */
  function RgbToHex(r: real, g: real, b: real): string {
    "#" + ChannelHex(r) + ChannelHex(g) + ChannelHex(b)
  }

  /** For channels in [0, 255] `rgbToHex` is canonical and reads back as the rounded channels. */
  lemma RgbToHexReadsBack(r: real, g: real, b: real)
    requires InChannelRange(r) && InChannelRange(g) && InChannelRange(b)
    ensures var hex := RgbToHex(r, g, b);
      IsCanonicalHex(hex) && HexToRgb(hex) == Rgb(Round(r), Round(g), Round(b))
  {
    RoundBetween(r, 0, 255);
    RoundBetween(g, 0, 255);
    RoundBetween(b, 0, 255);
    BytesAsHex(Round(r), Round(g), Round(b));
  }

  /** Whole channels are printed canonically and read back unchanged. */
  lemma ChannelsToHex(c: Rgb)
    requires IsChannels(c)
    ensures var out := RgbToHex(c.r as real, c.g as real, c.b as real);
      IsCanonicalHex(out) && HexToRgb(out) == c
  {
    RoundOfInt(c.r);
    RoundOfInt(c.g);
    RoundOfInt(c.b);
    RgbToHexReadsBack(c.r as real, c.g as real, c.b as real);
  }

  /** A whole channel value is written as its two digits. */
  lemma ChannelOfByte(n: int)
    requires IsByte(n)
    ensures ByteText(n) == Hex2(n)
  {
    PaddedByte(n);
  }

  /** Three bytes written by `rgbToHex` and parsed back. */
  lemma BytesAsHex(r: int, g: int, b: int)
    requires IsByte(r) && IsByte(g) && IsByte(b)
    ensures var hex := "#" + ByteText(r) + ByteText(g) + ByteText(b);
      hex == "#" + Hex2(r) + Hex2(g) + Hex2(b) && IsCanonicalHex(hex) && HexToRgb(hex) == Rgb(r, g, b)
  {
    ChannelOfByte(r);
    ChannelOfByte(g);
    ChannelOfByte(b);
    HexOfBytes(r, g, b);
  }

  lemma HexOfBytes(r: int, g: int, b: int)
    requires IsByte(r) && IsByte(g) && IsByte(b)
    ensures var hex := "#" + Hex2(r) + Hex2(g) + Hex2(b);
      IsCanonicalHex(hex) && HexToRgb(hex) == Rgb(r, g, b)
  {
    var x, y, z := Hex2(r), Hex2(g), Hex2(b);
    var d := [x[0], x[1], y[0], y[1], z[0], z[1]];
    SixDigits(x, y, z);
    assert AllLowerHex(d) by {
      forall i | 0 <= i < 6 ensures IsLowerHexDigit(d[i]) {
        if i < 2 { assert d[i] == x[i]; } else if i < 4 { assert d[i] == y[i - 2]; } else { assert d[i] == z[i - 4]; }
      }
    }
    PairOfHex2(r);
    PairOfHex2(g);
    PairOfHex2(b);
  }

  lemma SixDigits(x: string, y: string, z: string)
    requires |x| == 2 && |y| == 2 && |z| == 2
    ensures ("#" + x + y + z)[0] == '#' && |"#" + x + y + z| == 7
    ensures ("#" + x + y + z)[1..] == [x[0], x[1], y[0], y[1], z[0], z[1]]
  {
    assert "#" + x + y + z == ['#', x[0], x[1], y[0], y[1], z[0], z[1]];
  }

  /** Parsing and re-printing a colour: lower-cased digits with '#', black for junk. */
  lemma Reprint(hex: string)
    ensures var c := HexToRgb(hex);
      RgbToHex(c.r as real, c.g as real, c.b as real)
      == if IsHexColor(hex) then "#" + ToLower(Digits(hex)) else "#000000"
  {
    var c := HexToRgb(hex);
    RoundOfInt(c.r);
    RoundOfInt(c.g);
    RoundOfInt(c.b);
    BytesAsHex(c.r, c.g, c.b);
    if IsHexColor(hex) {
      ReprintDigits(Digits(hex));
    } else {
      assert Hex2(0) == "00";
    }
  }

  lemma ReprintDigits(d: string)
    requires |d| == 6 && AllHex(d)
    ensures "#" + Hex2(PairValue(d[0], d[1])) + Hex2(PairValue(d[2], d[3])) + Hex2(PairValue(d[4], d[5]))
      == "#" + ToLower(d)
  {
    Hex2OfPair(d[0], d[1]);
    Hex2OfPair(d[2], d[3]);
    Hex2OfPair(d[4], d[5]);
    var x, y, z := Hex2(PairValue(d[0], d[1])), Hex2(PairValue(d[2], d[3])), Hex2(PairValue(d[4], d[5]));
    SixDigits(x, y, z);
    assert ToLower(d) == [x[0], x[1], y[0], y[1], z[0], z[1]];
    assert "#" + x + y + z == ['#'] + ("#" + x + y + z)[1..];
  }

  /** `darken`: every channel scaled by `1 - factor`. */
  function Darken(hex: string, factor: real): string {
    var c := HexToRgb(hex);
    var k := 1.0 - factor;
    RgbToHex(Scale(c.r as real, k), Scale(c.g as real, k), Scale(c.b as real, k))
  }

  /** Darkening by a factor in [0, 1] gives a canonical colour with no channel brighter than before. */
  lemma DarkenDims(hex: string, factor: real)
    requires 0.0 <= factor <= 1.0
    ensures var out := Darken(hex, factor);
      IsCanonicalHex(out) && NoBrighter(HexToRgb(out), HexToRgb(hex))
  {
    ScaledChannels(HexToRgb(hex), 1.0 - factor);
  }

  lemma ScaledChannels(c: Rgb, k: real)
    requires IsChannels(c) && 0.0 <= k <= 1.0
    ensures var out := RgbToHex(Scale(c.r as real, k), Scale(c.g as real, k), Scale(c.b as real, k));
      IsCanonicalHex(out) && NoBrighter(HexToRgb(out), c)
  {
    Scaled(c.r, k);
    Scaled(c.g, k);
    Scaled(c.b, k);
    RgbToHexReadsBack(Scale(c.r as real, k), Scale(c.g as real, k), Scale(c.b as real, k));
  }

  /** A byte scaled by a factor in [0, 1] stays a channel and does not grow when rounded. */
  lemma Scaled(x: int, k: real)
    ensures IsByte(x) && 0.0 <= k <= 1.0 ==> InChannelRange(Scale(x as real, k)) && Round(Scale(x as real, k)) <= x
  {
    if IsByte(x) && 0.0 <= k <= 1.0 {
      RoundMonotone(Scale(x as real, k), x as real);
      RoundOfInt(x);
    }
  }

  /** `lighten`: every channel moved towards 255 by `factor` of the remaining distance. */
  function Lighten(hex: string, factor: real): string {
    var c := HexToRgb(hex);
    RgbToHex(
      Mix(c.r as real, 255.0, factor),
      Mix(c.g as real, 255.0, factor),
      Mix(c.b as real, 255.0, factor))
  }

  /** Lightening by a factor in [0, 1] gives a canonical colour with no channel darker than before. */
  lemma LightenRaises(hex: string, factor: real)
    requires 0.0 <= factor <= 1.0
    ensures var out := Lighten(hex, factor);
      IsCanonicalHex(out) && NoBrighter(HexToRgb(hex), HexToRgb(out))
  {
    RaisedChannels(HexToRgb(hex), factor);
  }

  lemma RaisedChannels(c: Rgb, f: real)
    requires IsChannels(c) && 0.0 <= f <= 1.0
    ensures var out := RgbToHex(
        Mix(c.r as real, 255.0, f),
        Mix(c.g as real, 255.0, f),
        Mix(c.b as real, 255.0, f));
      IsCanonicalHex(out) && NoBrighter(c, HexToRgb(out))
  {
    Raised(c.r, f);
    Raised(c.g, f);
    Raised(c.b, f);
    RgbToHexReadsBack(
      Mix(c.r as real, 255.0, f),
      Mix(c.g as real, 255.0, f),
      Mix(c.b as real, 255.0, f));
  }

  /** A byte raised towards 255 by a factor in [0, 1] stays a channel and does not shrink when rounded. */
  lemma Raised(x: int, f: real)
    ensures IsByte(x) && 0.0 <= f <= 1.0 ==>
      InChannelRange(Mix(x as real, 255.0, f)) && x <= Round(Mix(x as real, 255.0, f))
  {
    if IsByte(x) && 0.0 <= f <= 1.0 {
      RoundMonotone(x as real, Mix(x as real, 255.0, f));
      RoundOfInt(x);
    }
  }

  /** Darkening fully gives black. */
  lemma DarkenFully(hex: string)
    ensures Darken(hex, 1.0) == "#000000"
  {
    var c := HexToRgb(hex);
    assert Darken(hex, 1.0) == RgbToHex(0.0, 0.0, 0.0) by {
      assert Scale(c.r as real, 0.0) == 0.0;
      assert Scale(c.g as real, 0.0) == 0.0;
      assert Scale(c.b as real, 0.0) == 0.0;
    }
    Black();
  }

  lemma Black()
    ensures RgbToHex(0.0, 0.0, 0.0) == "#000000"
  {
    assert RgbToHex(0.0, 0.0, 0.0) == "#" + ByteText(0) + ByteText(0) + ByteText(0) by {
      RoundOfInt(0);
    }
    assert ByteText(0) == "00" by {
      ChannelOfByte(0);
    }
  }

  /** Darkening by nothing re-prints the parsed colour. */
  lemma DarkenByNothing(hex: string)
    ensures var c := HexToRgb(hex); Darken(hex, 0.0) == RgbToHex(c.r as real, c.g as real, c.b as real)
  {
    var c := HexToRgb(hex);
    assert Scale(c.r as real, 1.0) == c.r as real;
    assert Scale(c.g as real, 1.0) == c.g as real;
    assert Scale(c.b as real, 1.0) == c.b as real;
  }

  /** Lightening fully gives white. */
  lemma LightenFully(hex: string)
    ensures Lighten(hex, 1.0) == "#ffffff"
  {
    var c := HexToRgb(hex);
    assert Lighten(hex, 1.0) == RgbToHex(255.0, 255.0, 255.0) by {
      assert Mix(c.r as real, 255.0, 1.0) == 255.0;
      assert Mix(c.g as real, 255.0, 1.0) == 255.0;
      assert Mix(c.b as real, 255.0, 1.0) == 255.0;
    }
    White();
  }

  lemma White()
    ensures RgbToHex(255.0, 255.0, 255.0) == "#ffffff"
  {
    assert RgbToHex(255.0, 255.0, 255.0) == "#" + ByteText(255) + ByteText(255) + ByteText(255) by {
      RoundOfInt(255);
    }
    assert ByteText(255) == "ff" by {
      ChannelOfByte(255);
      assert HexDigit(15) == 'f';
    }
  }

  /** Lightening by nothing re-prints the parsed colour. */
  lemma LightenByNothing(hex: string)
    ensures var c := HexToRgb(hex); Lighten(hex, 0.0) == RgbToHex(c.r as real, c.g as real, c.b as real)
  {
    var c := HexToRgb(hex);
    assert Mix(c.r as real, 255.0, 0.0) == c.r as real;
    assert Mix(c.g as real, 255.0, 0.0) == c.g as real;
    assert Mix(c.b as real, 255.0, 0.0) == c.b as real;
  }

  function MinReal(a: real, b: real): real {
    if a <= b then a else b
  }

  /** `adjustBrightness`: every channel multiplied by `factor`, capped at 255. */
  function AdjustBrightness(hex: string, factor: real): string {
    var c := HexToRgb(hex);
    RgbToHex(MinReal(255.0, Scale(c.r as real, factor)), MinReal(255.0, Scale(c.g as real, factor)),
      MinReal(255.0, Scale(c.b as real, factor)))
  }

  /**
   * With a non-negative factor `adjustBrightness` gives a canonical colour, no
   * brighter than before for a factor up to 1 and no darker for a factor from 1.
   */
  lemma BrightnessBounds(hex: string, factor: real)
    requires 0.0 <= factor
    ensures var out := AdjustBrightness(hex, factor);
      && IsCanonicalHex(out)
      && (factor <= 1.0 ==> NoBrighter(HexToRgb(out), HexToRgb(hex)))
      && (1.0 <= factor ==> NoBrighter(HexToRgb(hex), HexToRgb(out)))
  {
    var c := HexToRgb(hex);
    Multiplied(c.r, factor);
    Multiplied(c.g, factor);
    Multiplied(c.b, factor);
    RgbToHexReadsBack(MinReal(255.0, Scale(c.r as real, factor)), MinReal(255.0, Scale(c.g as real, factor)),
      MinReal(255.0, Scale(c.b as real, factor)));
  }

  /** A byte multiplied by a non-negative factor and capped stays a channel, on the factor's side of 1. */
  lemma Multiplied(x: int, f: real)
    ensures IsByte(x) && 0.0 <= f ==> var y := MinReal(255.0, Scale(x as real, f));
      InChannelRange(y) && (f <= 1.0 ==> Round(y) <= x) && (1.0 <= f ==> x <= Round(y))
  {
    if IsByte(x) && 0.0 <= f {
      Capped(Scale(x as real, f), x);
    }
  }

  /** Capping a non-negative value at 255 keeps it a channel and keeps its side of a byte. */
  lemma Capped(m: real, x: int)
    requires IsByte(x) && 0.0 <= m
    ensures InChannelRange(MinReal(255.0, m))
    ensures m <= x as real ==> Round(MinReal(255.0, m)) <= x
    ensures x as real <= m ==> x <= Round(MinReal(255.0, m))
  {
    RoundOfInt(x);
    if m <= x as real {
      RoundMonotone(MinReal(255.0, m), x as real);
    }
    if x as real <= m {
      RoundMonotone(x as real, MinReal(255.0, m));
    }
  }

  /**
   * `adjustOpacity`: the colour text followed by two digits of alpha. The parsed
   * channels the source computes are unused and not modelled.
   */
  function AdjustOpacity(hex: string, opacity: real): (out: string)
    ensures |out| >= |hex| && out[..|hex|] == hex
  {
    hex + ChannelHex(opacity * 255.0)
  }

  /** For an opacity in [0, 1] the suffix is two lower-case digits reading back as the opacity scaled to a byte. */
  lemma OpacityDigits(hex: string, opacity: real)
    requires 0.0 <= opacity <= 1.0
    ensures var out := AdjustOpacity(hex, opacity);
      |out| == |hex| + 2 && AllLowerHex(out[|hex|..]) && HexValue(out[|hex|..]) == Round(opacity * 255.0)
  {
    var out := AdjustOpacity(hex, opacity);
    RoundBetween(opacity * 255.0, 0, 255);
    PaddedByte(Round(opacity * 255.0));
    Hex2Value(Round(opacity * 255.0));
    assert out[|hex|..] == ChannelHex(opacity * 255.0);
  }

  /** Half opacity is written `80` and full opacity `ff`. */
  lemma OpacityExamples(hex: string)
    ensures AdjustOpacity(hex, 0.5) == hex + "80"
    ensures AdjustOpacity(hex, 1.0) == hex + "ff"
  {
    assert Round(0.5 * 255.0) == 128;
    RoundOfInt(255);
    PaddedByte(128);
    PaddedByte(255);
    assert Hex2(128) == "80";
    assert Hex2(255) == "ff";
  }

  // ------------------------------------------------------ products and mixes

  lemma MulNonNeg(a: real, b: real)
    requires 0.0 <= a && 0.0 <= b
    ensures 0.0 <= a * b
  {
  }

  lemma MulAtMost(a: real, f: real)
    requires 0.0 <= a && f <= 1.0
    ensures a * f <= a
  {
    MulNonNeg(a, 1.0 - f);
    assert a * (1.0 - f) == a - a * f;
  }

  lemma MulAtLeast(a: real, f: real)
    requires 0.0 <= a && 1.0 <= f
    ensures a <= a * f
  {
    MulNonNeg(a, f - 1.0);
    assert a * (f - 1.0) == a * f - a;
  }

  /** `a * w`, with the bounds a product of non-negative numbers obeys. */
  function Scale(a: real, w: real): (m: real)
    ensures 0.0 <= a && 0.0 <= w ==> 0.0 <= m
    ensures 0.0 <= a && 0.0 <= w <= 1.0 ==> m <= a
    ensures 0.0 <= a && 1.0 <= w ==> a <= m
  {
    if 0.0 <= a && 0.0 <= w then
      MulNonNeg(a, w);
      if w <= 1.0 then MulAtMost(a, w); a * w
      else MulAtLeast(a, w); a * w
    else a * w
  }

  /** `p + (q - p) * w`: for a weight in [0, 1], a point between `p` and `q`. */
  function Mix(p: real, q: real, w: real): (v: real)
    ensures p <= q && 0.0 <= w <= 1.0 ==> p <= v <= q
  {
    p + Scale(q - p, w)
  }
}
