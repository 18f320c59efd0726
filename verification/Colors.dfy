/**
 scripts/maintenance/palettes.ts 49-97: colors and their contrast. Arithmetic is exact; the conversion
 from OKLCH and the powers are parameters.
 */
module Colors {
  /** A power maps the unit interval into itself, whatever its positive exponent. */
  type Power = f: real -> real | forall x: real :: 0.0 <= x <= 1.0 ==> 0.0 <= f(x) <= 1.0 witness ((x: real) => x)

  datatype Rgb = Rgb(red: real, green: real, blue: real)

  /** `linear` takes OKLCH to linear sRGB, `raise` is the power of 2.4 and `lower` the power of 1 / 2.4. */
  datatype Optics = Optics(linear: (real, real, real) -> Rgb, raise: Power, lower: Power)

  /** The bytes of a color like "#a1b2c3". */
  datatype Color = Color(red: nat, green: nat, blue: nat)

  function Clamp(value: real): (clamped: real)
    ensures 0.0 <= clamped <= 1.0 && (0.0 <= value <= 1.0 ==> clamped == value)
  {
    if value < 0.0 then 0.0 else if value > 1.0 then 1.0 else value
  }

  /** The curved part of the encoding and its inverse, but for the power. */
  function Curve(lowered: real): real {
    1.055 * lowered - 0.055
  }

  function Uncurve(value: real): real {
    (value + 0.055) / 1.055
  }

  function EncodeWith(lower: Power, value: real): real {
    if value <= 0.0031308 then 12.92 * value else Curve(lower(value))
  }

  function Encode(o: Optics, value: real): real {
    EncodeWith(o.lower, value)
  }

  function Decode(o: Optics, value: real): (decoded: real)
    ensures 0.0 <= value <= 1.0 ==> 0.0 <= decoded <= 1.0
  {
    if value <= 0.04045 then value / 12.92 else o.raise(Uncurve(value))
  }

  predicate InRange(value: real) {
    -0.0005 <= value <= 1.0005
  }

  predicate InGamut(rgb: Rgb) {
    InRange(rgb.red) && InRange(rgb.green) && InRange(rgb.blue)
  }

  // ----- the gamut -----

  function Reduced(chroma: real): real {
    if chroma - 0.002 < 0.0 then 0.0 else chroma - 0.002
  }

  /** How often a chroma can be reduced before none is left. */
  function Reductions(chroma: real): (times: nat)
  {
    if chroma <= 0.0 then 0 else (chroma * 500.0).Floor + 1
  }

  lemma ReducedHasFewer(chroma: real)
    requires chroma > 0.0
    ensures Reductions(Reduced(chroma)) < Reductions(chroma)
  {
  }

  predicate Settles(o: Optics, lightness: real, chroma: real, hue: real) {
    InGamut(o.linear(lightness, chroma, hue)) || chroma <= 0.0
  }

  /** The first chroma on the way down that fits the gamut, or none at all. */
  function FittedChroma(o: Optics, lightness: real, chroma: real, hue: real): real
    decreases Reductions(chroma)
  {
    if Settles(o, lightness, chroma, hue) then chroma
    else
      ReducedHasFewer(chroma);
      FittedChroma(o, lightness, Reduced(chroma), hue)
  }

  function Encoded(o: Optics, linear: Rgb): Rgb {
    Rgb(Encode(o, Clamp(linear.red)), Encode(o, Clamp(linear.green)), Encode(o, Clamp(linear.blue)))
  }

  function RgbAt(o: Optics, lightness: real, chroma: real, hue: real): Rgb {
    Encoded(o, o.linear(lightness, FittedChroma(o, lightness, chroma, hue), hue))
  }

  method RgbOf(o: Optics, lightness: real, chroma: real, hue: real) returns (rgb: Rgb)
    ensures rgb == RgbAt(o, lightness, chroma, hue)
  {
    var reduced := chroma;
    var linear := o.linear(lightness, reduced, hue);
    while !InGamut(linear) && reduced > 0.0
      invariant linear == o.linear(lightness, reduced, hue)
      invariant FittedChroma(o, lightness, reduced, hue) == FittedChroma(o, lightness, chroma, hue)
      decreases Reductions(reduced)
    {
      ReducedHasFewer(reduced);
      reduced := Reduced(reduced);
      linear := o.linear(lightness, reduced, hue);
    }
    rgb := Rgb(Encode(o, Clamp(linear.red)), Encode(o, Clamp(linear.green)), Encode(o, Clamp(linear.blue)));
  }

  /** A channel of the color lies outside what a screen shows, but for a small tolerance. */
  predicate IsOutside(rgb: Rgb) {
    || rgb.red < -0.0005 || rgb.red > 1.0005 || rgb.green < -0.0005 || rgb.green > 1.0005
    || rgb.blue < -0.0005 || rgb.blue > 1.0005
  }

  /** Which chromas lead to a color outside. */
  function Outside(o: Optics, lightness: real, hue: real): real -> bool {
    (chroma: real) => IsOutside(o.linear(lightness, chroma, hue))
  }

  /** The chroma after so many steps of 0.002, but never less than none, if all chromas before it were outside. */
  predicate IsReached(outside: real -> bool, chroma: real, times: nat, reached: real)
    decreases times
  {
    if times == 0 then reached == chroma
    else chroma > 0.0 && outside(chroma) && IsReached(outside, if chroma > 0.002 then chroma - 0.002 else 0.0, times - 1, reached)
  }

  lemma ReducedStep(chroma: real)
    requires chroma > 0.0
    ensures Reduced(chroma) == if chroma > 0.002 then chroma - 0.002 else 0.0
    ensures 0.0 <= Reduced(chroma) < chroma
  {
  }

  lemma OutsideIsNotInside(rgb: Rgb)
    ensures InGamut(rgb) <==> !IsOutside(rgb)
  {
  }

  lemma SettlesOutside(o: Optics, lightness: real, chroma: real, hue: real)
    ensures Settles(o, lightness, chroma, hue) <==> chroma <= 0.0 || !Outside(o, lightness, hue)(chroma)
  {
    OutsideIsNotInside(o.linear(lightness, chroma, hue));
  }

  lemma OneMoreStep(outside: real -> bool, chroma: real, times: nat, reached: real)
    requires chroma > 0.0 && outside(chroma) && IsReached(outside, Reduced(chroma), times, reached)
    ensures IsReached(outside, chroma, times + 1, reached)
  {
    ReducedStep(chroma);
  }

  lemma {:induction false} ReachedIsBetween(outside: real -> bool, chroma: real, times: nat, reached: real)
    requires chroma >= 0.0 && IsReached(outside, chroma, times, reached)
    ensures 0.0 <= reached <= chroma
    decreases times
  {
    if times > 0 {
      ReachedIsBetween(outside, if chroma > 0.002 then chroma - 0.002 else 0.0, times - 1, reached);
    }
  }

  /** The loop ends in the gamut or without chroma, and every chroma it passed on the way was outside. */
  lemma {:induction false} ChromaIsFitted(o: Optics, lightness: real, chroma: real, hue: real) returns (times: nat)
    ensures IsReached(Outside(o, lightness, hue), chroma, times, FittedChroma(o, lightness, chroma, hue))
    ensures FittedChroma(o, lightness, chroma, hue) <= 0.0
      || !Outside(o, lightness, hue)(FittedChroma(o, lightness, chroma, hue))
    decreases Reductions(chroma)
  {
    SettlesOutside(o, lightness, chroma, hue);
    if Settles(o, lightness, chroma, hue) {
      times := 0;
    } else {
      ReducedHasFewer(chroma);
      times := ChromaIsFitted(o, lightness, Reduced(chroma), hue);
      OneMoreStep(Outside(o, lightness, hue), chroma, times, FittedChroma(o, lightness, chroma, hue));
      times := times + 1;
    }
  }

  /** The fitted chroma lies between none and the one asked for. */
  lemma FittedIsBetween(o: Optics, lightness: real, chroma: real, hue: real)
    requires chroma >= 0.0
    ensures 0.0 <= FittedChroma(o, lightness, chroma, hue) <= chroma
  {
    var times := ChromaIsFitted(o, lightness, chroma, hue);
    ReachedIsBetween(Outside(o, lightness, hue), chroma, times, FittedChroma(o, lightness, chroma, hue));
  }

  // ----- bytes -----

  /** `Math.round` rounds halves up. */
  function Byte(value: real): (byte: nat)
    ensures byte <= 255
  {
    (Clamp(value) * 255.0 + 0.5).Floor
  }

  /** The nearest byte. */
  lemma ByteIsNearest(value: real)
    ensures -0.5 <= Byte(value) as real - Clamp(value) * 255.0 <= 0.5
    ensures value < 0.0 ==> Byte(value) == 0
    ensures value > 1.0 ==> Byte(value) == 255
  {
  }

  function Hex(rgb: Rgb): Color {
    Color(Byte(rgb.red), Byte(rgb.green), Byte(rgb.blue))
  }

  function Ok(o: Optics, lightness: real, chroma: real, hue: real): Color {
    Hex(RgbAt(o, lightness, chroma, hue))
  }

  /** The byte that a channel gets for its light. */
  function ByteOfLight(lower: Power, light: real): nat {
    Byte(EncodeWith(lower, Clamp(light)))
  }

  lemma HexOfLight(o: Optics, light: Rgb)
    ensures Hex(Encoded(o, light)) ==
      Color(ByteOfLight(o.lower, light.red), ByteOfLight(o.lower, light.green), ByteOfLight(o.lower, light.blue))
  {
  }

  /** The light that a color is made of. */
  function Light(o: Optics, l: real, c: real, h: real): Rgb {
    o.linear(l, FittedChroma(o, l, c, h), h)
  }

  /** Every channel of a color is that of its own light and of nothing else, and a gray light gives a gray color. */
  lemma ChannelsStandAlone(o: Optics, l: real, c: real, h: real, p: Optics, m: real, d: real, k: real)
    requires o.lower == p.lower
    ensures Light(o, l, c, h).red == Light(p, m, d, k).red ==> Ok(o, l, c, h).red == Ok(p, m, d, k).red
    ensures Light(o, l, c, h).green == Light(p, m, d, k).green ==> Ok(o, l, c, h).green == Ok(p, m, d, k).green
    ensures Light(o, l, c, h).blue == Light(p, m, d, k).blue ==> Ok(o, l, c, h).blue == Ok(p, m, d, k).blue
    ensures Light(o, l, c, h).red == Light(o, l, c, h).green == Light(o, l, c, h).blue ==>
      Ok(o, l, c, h).red == Ok(o, l, c, h).green == Ok(o, l, c, h).blue
  {
    HexOfLight(o, Light(o, l, c, h));
    HexOfLight(p, Light(p, m, d, k));
  }

  lemma StraightPart(o: Optics, value: real)
    requires 0.0 <= value <= 0.0031308
    ensures Decode(o, Encode(o, value)) == value
  {
  }

  lemma UncurveInvertsCurve(lowered: real)
    ensures Uncurve(Curve(lowered)) == lowered
  {
  }

  lemma CurvedPart(o: Optics, value: real)
    requires 0.0031308 < value <= 1.0 && o.raise(o.lower(value)) == value && Encode(o, value) > 0.04045
    ensures Decode(o, Encode(o, value)) == value
  {
    UncurveInvertsCurve(o.lower(value));
  }

  /**
   What is encoded is decoded again: on the straight part always, and on the curved part when the two powers are inverse there and the
   encoded value lies above the seam.
   */
  lemma DecodeInvertsEncode(o: Optics, value: real)
    requires 0.0 <= value <= 1.0
    requires value > 0.0031308 ==> o.raise(o.lower(value)) == value && Encode(o, value) > 0.04045
    ensures Decode(o, Encode(o, value)) == value
  {
    if value <= 0.0031308 {
      StraightPart(o, value);
    } else {
      CurvedPart(o, value);
    }
  }

  function Fraction(byte: nat): (fraction: real)
    ensures 0.0 <= fraction && (byte <= 255 ==> fraction <= 1.0)
  {
    byte as real / 255.0
  }

  function Channel(o: Optics, byte: nat): (decoded: real)
    ensures 0.0 <= decoded && (byte <= 255 ==> decoded <= 1.0)
  {
    var value := Fraction(byte);
    if value <= 1.0 then Decode(o, value) else 1.0
  }

  function Weighted(red: real, green: real, blue: real): (weighted: real)
    ensures 0.0 <= red && 0.0 <= green && 0.0 <= blue ==> 0.0 <= weighted
    ensures red <= 1.0 && green <= 1.0 && blue <= 1.0 ==> weighted <= 1.0
  {
    0.2126 * red + 0.7152 * green + 0.0722 * blue
  }

  lemma WeightsOfPrimaries()
    ensures Weighted(1.0, 0.0, 0.0) == 0.2126 && Weighted(0.0, 1.0, 0.0) == 0.7152 && Weighted(0.0, 0.0, 1.0) == 0.0722
    ensures Weighted(1.0, 1.0, 1.0) == 1.0 && Weighted(0.0, 0.0, 0.0) == 0.0
  {
  }

  function Luminance(o: Optics, color: Color): (luminance: real)
    ensures 0.0 <= luminance
    ensures color.red <= 255 && color.green <= 255 && color.blue <= 255 ==> luminance <= 1.0
  {
    Weighted(Channel(o, color.red), Channel(o, color.green), Channel(o, color.blue))
  }

  lemma FullByte()
    ensures Fraction(255) == 1.0 && Fraction(0) == 0.0
  {
  }

  /** No light and, for a power that keeps one, all light are decoded as they are. */
  lemma DecodeAtEnds(o: Optics)
    ensures Decode(o, 1.0) == o.raise(1.0) && Decode(o, 0.0) == 0.0
  {
    assert Uncurve(1.0) == 1.0;
  }

  /** A channel is the light that its share of a full byte stands for. */
  lemma ChannelIsDecoded(o: Optics, byte: nat, share: real)
    requires Fraction(byte) == share && share <= 1.0
    ensures Channel(o, byte) == Decode(o, share)
  {
  }

  /** The primaries, white and black have the luminance of their channels alone. */
  lemma LuminanceOfPrimaries(o: Optics, full: nat, empty: nat)
    requires Channel(o, full) == 1.0 && Channel(o, empty) == 0.0
    ensures Luminance(o, Color(full, empty, empty)) == Weighted(1.0, 0.0, 0.0)
    ensures Luminance(o, Color(empty, full, empty)) == Weighted(0.0, 1.0, 0.0)
    ensures Luminance(o, Color(empty, empty, full)) == Weighted(0.0, 0.0, 1.0)
    ensures Luminance(o, Color(full, full, full)) == Weighted(1.0, 1.0, 1.0)
    ensures Luminance(o, Color(empty, empty, empty)) == Weighted(0.0, 0.0, 0.0)
  {
  }

  lemma QuotientBounds(high: real, low: real)
    requires 0.0 < low <= high
    ensures 1.0 <= high / low && (high <= 21.0 * low ==> high / low <= 21.0)
  {
    assert high / low * low == high;
  }

  function Ratio(high: real, low: real): (ratio: real)
    requires 0.0 <= low <= high
    ensures 1.0 <= ratio && (high <= 1.0 ==> ratio <= 21.0)
  {
    QuotientBounds(high + 0.05, low + 0.05);
    (high + 0.05) / (low + 0.05)
  }

  function RatioOf(a: real, b: real): (ratio: real)
    requires 0.0 <= a && 0.0 <= b
    ensures 1.0 <= ratio && (a <= 1.0 && b <= 1.0 ==> ratio <= 21.0)
  {
    if a >= b then Ratio(a, b) else Ratio(b, a)
  }

  function Contrast(o: Optics, first: Color, second: Color): real {
    RatioOf(Luminance(o, first), Luminance(o, second))
  }

  lemma RatioIsSymmetric(a: real, b: real)
    requires 0.0 <= a && 0.0 <= b
    ensures RatioOf(a, b) == RatioOf(b, a)
  {
  }

  /** Contrast does not depend on the order, and it lies between 1 and 21. */
  lemma ContrastIsSymmetric(o: Optics, first: Color, second: Color)
    ensures Contrast(o, first, second) == Contrast(o, second, first)
  {
    RatioIsSymmetric(Luminance(o, first), Luminance(o, second));
  }

  /** The contrast ratio of WCAG 2: the lighter of the two luminances over the darker one, each with the flare of 0.05. */
  lemma RatioIsOfLighter(a: real, b: real)
    requires 0.0 <= b <= a
    ensures RatioOf(a, b) == RatioOf(b, a) && RatioOf(a, b) * (b + 0.05) == a + 0.05
  {
  }

  /** White on black has the greatest contrast there is, and a color none to itself. */
  lemma ContrastAtEnds(o: Optics, white: Color, black: Color)
    requires Luminance(o, white) == 1.0 && Luminance(o, black) == 0.0
    ensures Contrast(o, white, black) == 21.0 && Contrast(o, white, white) == 1.0
  {
  }

  predicate Bytes(color: Color) {
    color.red <= 255 && color.green <= 255 && color.blue <= 255
  }

  lemma ContrastIsBounded(o: Optics, first: Color, second: Color)
    requires Bytes(first) && Bytes(second)
    ensures 1.0 <= Contrast(o, first, second) <= 21.0
  {
    var a, b := Luminance(o, first), Luminance(o, second);
    var ratio := Ratio(if a >= b then a else b, if a >= b then b else a);
    assert Contrast(o, first, second) == ratio;
  }

  // ----- the text of a color -----

  const DIGITS: string := "0123456789abcdef"

  function Digit(value: nat): char
    requires value < 16
  {
    DIGITS[value]
  }

  function DigitValue(digit: char): nat {
    if '0' <= digit <= '9' then digit as nat - '0' as nat
    else if 'a' <= digit <= 'f' then digit as nat - 'a' as nat + 10
    else 0
  }

  /** `toString(16).padStart(2, "0")` */
  function ByteText(byte: nat): string
    requires byte <= 255
  {
    [Digit(byte / 16), Digit(byte % 16)]
  }

  function Text(color: Color): string
    requires Bytes(color)
  {
    "#" + ByteText(color.red) + ByteText(color.green) + ByteText(color.blue)
  }

  function ByteOf(text: string, index: nat): nat
    requires index + 1 < |text|
  {
    16 * DigitValue(text[index]) + DigitValue(text[index + 1])
  }

  /** `parse`: the bytes at 1, 3 and 5; an alpha after them does not count. */
  function Parsed(text: string): Color
    requires |text| >= 7
  {
    Color(ByteOf(text, 1), ByteOf(text, 3), ByteOf(text, 5))
  }

  lemma DigitOfValue(value: nat)
    requires value < 16
    ensures DigitValue(Digit(value)) == value
  {
  }

  lemma ByteOfText(byte: nat)
    requires byte <= 255
    ensures ByteOf(ByteText(byte), 0) == byte
  {
    DigitOfValue(byte / 16);
    DigitOfValue(byte % 16);
  }

  /** What is compared is the color that was written, with or without an alpha. */
  lemma ParsedInvertsText(color: Color, alpha: string)
    requires Bytes(color)
    ensures Parsed(Text(color) + alpha) == color
  {
    ByteOfText(color.red);
    ByteOfText(color.green);
    ByteOfText(color.blue);
  }
}
