/** How a star looks: its colour from the B-V colour index (bv2rgb), its
    brightness and size from the visual magnitude
    (calculateAppearanceOfStar), and the vertex buffer the WebGL star
    renderer fills from the catalogue (hoshizora.js:300-326, 626-685).

    Math.pow(10, y) and Math.sqrt are parameters: `exp10` stands for
    y |-> 10^y, which is positive, and `sqrt` for the square root. */
module Appearance {
  import opened Numeric

  type PositiveReal = x: real | 0.0 < x witness 1.0

  /** A colour with 8-bit channels held as numbers (0..255 after unpacking,
      fractions after interpolation). */
  datatype Rgb = Rgb(r: real, g: real, b: real)

  /** B-V from -0.40 to 2.00 in steps of 0.05: 49 colours, 0xRRGGBB. */
  const BvColors: seq<bv32> :=
    [0x9bb2ff, 0x9eb5ff, 0xa3b9ff, 0xaabfff, 0xb2c5ff, 0xbbccff, 0xc4d2ff, 0xccd8ff,
     0xd3ddff, 0xdae2ff, 0xdfe5ff, 0xe4e9ff, 0xe9ecff, 0xeeefff, 0xf3f2ff, 0xf8f6ff,
     0xfef9ff, 0xfff9fb, 0xfff7f5, 0xfff5ef, 0xfff3ea, 0xfff1e5, 0xffefe0, 0xffeddb,
     0xffebd6, 0xffe9d2, 0xffe8ce, 0xffe6ca, 0xffe5c6, 0xffe3c3, 0xffe2bf, 0xffe0bb,
     0xffdfb8, 0xffddb4, 0xffdbb0, 0xffdaad, 0xffd8a9, 0xffd6a5, 0xffd5a1, 0xffd29c,
     0xffd096, 0xffcc8f, 0xffc885, 0xffc178, 0xffb765, 0xffa94b, 0xff9523, 0xff7b00,
     0xff5200]

  predicate ChannelsInRange(c: Rgb)
  {
    0.0 <= c.r <= 255.0 && 0.0 <= c.g <= 255.0 && 0.0 <= c.b <= 255.0
  }

  /** The red, green and blue bytes of 0xRRGGBB: c >> 16 & 255,
      c >> 8 & 255 and c & 255. */
  function Unpack(c: bv32): (rgb: Rgb)
    ensures ChannelsInRange(rgb)
  {
    Rgb(((c >> 16) & 0xff) as int as real, ((c >> 8) & 0xff) as int as real, (c & 0xff) as int as real)
  }

  /** The three bytes Unpack takes apart put the colour back together. */
  lemma UnpackedBytesRebuildColor(c: bv32)
    requires c <= 0xff_ffff
    ensures (((c >> 16) & 0xff) << 16) | (((c >> 8) & 0xff) << 8) | (c & 0xff) == c
  {
  }

  /** interpolate(x, y, a) = x * (1 - a) + y * a: at a = 0 it is x, at a = 1
      it is y, and for a in [0, 1] it lies between them. */
  function Interpolate(x: real, y: real, a: real): (r: real)
    ensures a == 0.0 ==> r == x
    ensures a == 1.0 ==> r == y
    ensures 0.0 <= a <= 1.0 && x <= y ==> x <= r <= y
    ensures 0.0 <= a <= 1.0 && y <= x ==> y <= r <= x
  {
    var r := x * (1.0 - a) + y * a;
    InterpolateBounds(x, y, a, r);
    r
  }

  lemma InterpolateBounds(x: real, y: real, a: real, r: real)
    requires r == x * (1.0 - a) + y * a
    ensures a == 0.0 ==> r == x
    ensures a == 1.0 ==> r == y
    ensures 0.0 <= a <= 1.0 && x <= y ==> x <= r <= y
    ensures 0.0 <= a <= 1.0 && y <= x ==> y <= r <= x
  {
    var p := (y - x) * a;
    InterpolateOffset(x, y, a, p);
    Stretch(y - x, a, p);
  }

  lemma InterpolateOffset(x: real, y: real, a: real, p: real)
    requires p == (y - x) * a
    ensures x * (1.0 - a) + y * a == x + p
  {
  }

  /** For a in [0, 1], p = d * a lies between 0 and d. */
  lemma Stretch(d: real, a: real, p: real)
    requires p == d * a
    ensures a == 0.0 ==> p == 0.0
    ensures a == 1.0 ==> p == d
    ensures 0.0 <= a <= 1.0 && 0.0 <= d ==> 0.0 <= p <= d
    ensures 0.0 <= a <= 1.0 && d <= 0.0 ==> d <= p <= 0.0
  {
    if 0.0 <= a <= 1.0 {
      assert d - p == d * (1.0 - a);
      if 0.0 <= d {
        NonNegProduct(d, a);
        NonNegProduct(d, 1.0 - a);
      } else {
        NonNegProduct(-d, a);
        NonNegProduct(-d, 1.0 - a);
      }
    }
  }

  lemma NonNegProduct(x: real, y: real)
    requires 0.0 <= x && 0.0 <= y
    ensures 0.0 <= x * y
  {
  }

  /** Every channel of c lies between those of c0 and c1. */
  predicate Between(c: Rgb, c0: Rgb, c1: Rgb)
  {
    (c0.r <= c.r <= c1.r || c1.r <= c.r <= c0.r)
    && (c0.g <= c.g <= c1.g || c1.g <= c.g <= c0.g)
    && (c0.b <= c.b <= c1.b || c1.b <= c.b <= c0.b)
  }

  /** Each channel interpolated from c0 towards c1 by the fraction a. */
  function Mix(c0: Rgb, c1: Rgb, a: real): (c: Rgb)
    ensures 0.0 <= a <= 1.0 ==> Between(c, c0, c1)
    ensures 0.0 <= a <= 1.0 && ChannelsInRange(c0) && ChannelsInRange(c1) ==> ChannelsInRange(c)
  {
    Rgb(Interpolate(c0.r, c1.r, a), Interpolate(c0.g, c1.g, a), Interpolate(c0.b, c1.b, a))
  }

  /** The table position of a B-V index: indexF = (bv - (-0.40)) / 0.05. */
  function TablePosition(bv: real): real
  {
    (bv - -0.40) / 0.05
  }

  /** bv2rgb.  Below the table it gives the first entry, from B-V 2.00 on the
      last one, and in between it interpolates each channel between the two
      neighbouring entries.  The last branch of the source returns the
      input when it is NaN; reals have no NaN and the branch is dead. */
  function Bv2Rgb(bv: real): (c: Rgb)
    ensures bv < -0.40 ==> c == Unpack(BvColors[0])
    ensures 2.00 <= bv ==> c == Unpack(BvColors[48])
    ensures -0.40 <= bv < 2.00 ==>
              var index := TablePosition(bv).Floor;
              0 <= index < 48 && Between(c, Unpack(BvColors[index]), Unpack(BvColors[index + 1]))
    ensures ChannelsInRange(c)
  {
    var indexF := TablePosition(bv);
    var index := indexF.Floor;
    var alpha := indexF - index as real;
    if index < 0 then
      Unpack(BvColors[0])
    else if index + 1 < |BvColors| then
      Mix(Unpack(BvColors[index]), Unpack(BvColors[index + 1]), alpha)
    else if index >= 0 then
      Unpack(BvColors[|BvColors| - 1])
    else
      assert false; Rgb(0.0, 0.0, 0.0)
  }

  /** At each of the 49 tabulated B-V values, -0.40 + 0.05 k, bv2rgb gives
      table entry k exactly. */
  lemma Bv2RgbAtTableEntry(k: nat)
    requires k < 49
    ensures Bv2Rgb(-0.40 + 0.05 * k as real) == Unpack(BvColors[k])
  {
    var bv := -0.40 + 0.05 * k as real;
    assert TablePosition(bv) == k as real;
    assert TablePosition(bv).Floor == k;
  }

  /** Between two tabulated B-V values, a fraction t of the way from entry k
      to entry k + 1, bv2rgb interpolates each channel linearly by t. */
  lemma Bv2RgbBetweenEntries(k: nat, t: real)
    requires k < 48 && 0.0 <= t < 1.0
    ensures Bv2Rgb(-0.40 + 0.05 * (k as real + t)) == Mix(Unpack(BvColors[k]), Unpack(BvColors[k + 1]), t)
  {
    var bv := -0.40 + 0.05 * (k as real + t);
    assert TablePosition(bv) == k as real + t;
    assert TablePosition(bv).Floor == k;
  }

  // ---------------------------------------------------------------------
  // Brightness and size

  /** The final colours and radius of calculateAppearanceOfStar. */
  datatype StarAppearance = StarAppearance(red: real, green: real, blue: real, radius: real)

  /** 1 / 10^((mag - 3) / 2.5), clamped to [0, 10]: 1 at magnitude 3. */
  function RawIntensity(mag: real, exp10: real -> PositiveReal): (i: real)
    ensures 0.0 <= i <= 10.0
  {
    Clamp(1.0 / exp10((mag - 3.0) / 2.5), 0.0, 10.0)
  }

  /** Lines 663-665: an intensity below 0.5 is raised to i * 0.75 + 0.125.
      The result never falls below i, is at least 0.125 for a non-negative
      i, and is below 0.5 exactly when i is: the floor does not lift a dim
      star past a bright one's threshold. */
  function DimFloor(i: real): (r: real)
    ensures i <= r
    ensures 0.0 <= i ==> 0.125 <= r
    ensures (r < 0.5) == (i < 0.5)
    ensures 0.5 <= i ==> r == i
  {
    if i < 0.5 then i * 0.75 + 0.125 else i
  }

  /** The floor keeps the order of intensities. */
  lemma DimFloorMonotone(i: real, j: real)
    requires i <= j
    ensures DimFloor(i) <= DimFloor(j)
  {
  }

  /** calculateAppearanceOfStar(mag, bv). */
  function CalculateAppearanceOfStar(mag: real, bv: real, exp10: real -> PositiveReal,
                                     sqrt: real -> real): (a: StarAppearance)
    ensures 0.0 <= a.red <= 1.0 && 0.0 <= a.green <= 1.0 && 0.0 <= a.blue <= 1.0
    ensures 1.0 <= a.radius <= 6.0
  {
    Shade(DimFloor(RawIntensity(mag, exp10)), Bv2Rgb(bv), sqrt)
  }

  /** Lines 668-683 for a given intensity and table colour: the colour
      scaled by the intensity clamped to [0, 1] and brought to [0, 1], and
      the radius sqrt(intensity) clamped to [1, 6]. */
  function Shade(intensity: real, color: Rgb, sqrt: real -> real): (a: StarAppearance)
    requires ChannelsInRange(color)
    ensures 0.0 <= a.red <= 1.0 && 0.0 <= a.green <= 1.0 && 0.0 <= a.blue <= 1.0
    ensures 1.0 <= a.radius <= 6.0
  {
    var c := Clamp(intensity, 0.0, 1.0);
    ScaledChannel(c, color.r);
    ScaledChannel(c, color.g);
    ScaledChannel(c, color.b);
    StarAppearance(c * color.r / 255.0, c * color.g / 255.0, c * color.b / 255.0,
                   Clamp(sqrt(intensity), 1.0, 6.0))
  }

  lemma ScaledChannel(c: real, x: real)
    requires 0.0 <= c <= 1.0 && 0.0 <= x <= 255.0
    ensures 0.0 <= c * x / 255.0 <= 1.0
  {
    assert 0.0 <= c * x <= x;
  }

  /** The final intensity of a star of magnitude mag. */
  function FinalIntensity(mag: real, exp10: real -> PositiveReal): real
  {
    DimFloor(RawIntensity(mag, exp10))
  }

  /** From intensity 1 on a star is drawn in its full table colour, however
      bright: more light shows only as a larger radius. */
  lemma BrightStarHasFullColor(mag: real, bv: real, exp10: real -> PositiveReal, sqrt: real -> real)
    requires 1.0 <= FinalIntensity(mag, exp10)
    ensures var a := CalculateAppearanceOfStar(mag, bv, exp10, sqrt);
            var color := Bv2Rgb(bv);
            a.red == color.r / 255.0 && a.green == color.g / 255.0 && a.blue == color.b / 255.0
  {
    BrightShade(FinalIntensity(mag, exp10), Bv2Rgb(bv), sqrt);
  }

  lemma BrightShade(i: real, color: Rgb, sqrt: real -> real)
    requires ChannelsInRange(color) && 1.0 <= i
    ensures Shade(i, color, sqrt)
         == StarAppearance(color.r / 255.0, color.g / 255.0, color.b / 255.0, Clamp(sqrt(i), 1.0, 6.0))
  {
    assert Clamp(i, 0.0, 1.0) == 1.0;
  }

  /** Below intensity 1 the star keeps the minimum radius and its light is
      shown by dimming its colour in proportion. */
  lemma DimStarHasMinimumRadius(mag: real, bv: real, exp10: real -> PositiveReal, sqrt: real -> real)
    requires FinalIntensity(mag, exp10) < 1.0
    requires sqrt(FinalIntensity(mag, exp10)) <= 1.0
    ensures var a := CalculateAppearanceOfStar(mag, bv, exp10, sqrt);
            var i := FinalIntensity(mag, exp10);
            var color := Bv2Rgb(bv);
            a.radius == 1.0 && a.red == i * color.r / 255.0 && a.green == i * color.g / 255.0
            && a.blue == i * color.b / 255.0
  {
    DimShade(FinalIntensity(mag, exp10), Bv2Rgb(bv), sqrt);
  }

  lemma DimShade(i: real, color: Rgb, sqrt: real -> real)
    requires ChannelsInRange(color) && 0.0 <= i < 1.0 && sqrt(i) <= 1.0
    ensures Shade(i, color, sqrt)
         == StarAppearance(i * color.r / 255.0, i * color.g / 255.0, i * color.b / 255.0, 1.0)
  {
  }

  /** A star of magnitude 3 has intensity 1, full colour and radius 1. */
  lemma MagnitudeThree(bv: real, exp10: real -> PositiveReal, sqrt: real -> real)
    requires exp10(0.0) == 1.0 && sqrt(1.0) == 1.0
    ensures var color := Bv2Rgb(bv);
            CalculateAppearanceOfStar(3.0, bv, exp10, sqrt)
              == StarAppearance(color.r / 255.0, color.g / 255.0, color.b / 255.0, 1.0)
  {
    assert (3.0 - 3.0) / 2.5 == 0.0;
    assert RawIntensity(3.0, exp10) == 1.0;
    assert FinalIntensity(3.0, exp10) == 1.0;
    BrightShade(1.0, Bv2Rgb(bv), sqrt);
  }

  // ---------------------------------------------------------------------
  // The star vertex buffer

  /** The six floats of star i: ra, dec, red, green, blue and the point
      size radius * 2 + 1. */
  function Vertex(stars: seq<real>, i: nat, exp10: real -> PositiveReal, sqrt: real -> real): (v: seq<real>)
    requires i < |stars| / 4
    ensures |v| == 6
    ensures v[0] == stars[4 * i] && v[1] == stars[4 * i + 1]
    ensures 0.0 <= v[2] <= 1.0 && 0.0 <= v[3] <= 1.0 && 0.0 <= v[4] <= 1.0
    ensures 3.0 <= v[5] <= 13.0
  {
    var a := CalculateAppearanceOfStar(stars[4 * i + 2], stars[4 * i + 3], exp10, sqrt);
    [stars[4 * i], stars[4 * i + 1], a.red, a.green, a.blue, a.radius * 2.0 + 1.0]
  }

  lemma VertexFields(stars: seq<real>, i: nat, exp10: real -> PositiveReal, sqrt: real -> real, a: StarAppearance)
    requires i < |stars| / 4
    requires a == CalculateAppearanceOfStar(stars[4 * i + 2], stars[4 * i + 3], exp10, sqrt)
    ensures Vertex(stars, i, exp10, sqrt) == [stars[4 * i], stars[4 * i + 1], a.red, a.green, a.blue, a.radius * 2.0 + 1.0]
  {
  }

  /** The six writes of one pass: star i's floats, after the stars before it. */
  method StoreVertex(bufferData: array<real>, i: nat, ra: real, dec: real, red: real, green: real, blue: real,
                     size: real)
    requires 6 * i + 6 <= bufferData.Length
    modifies bufferData
    ensures bufferData[..6 * i] == old(bufferData[..6 * i])
    ensures bufferData[6 * i .. 6 * i + 6] == [ra, dec, red, green, blue, size]
    ensures bufferData[6 * i + 6 ..] == old(bufferData[6 * i + 6 ..])
  {
    bufferData[i * 6 + 0] := ra;
    bufferData[i * 6 + 1] := dec;
    bufferData[i * 6 + 2] := red;
    bufferData[i * 6 + 3] := green;
    bufferData[i * 6 + 4] := blue;
    bufferData[i * 6 + 5] := size;
  }

  /** The vertices of all whole stars of the catalogue, in order. */
  function Vertices(stars: seq<real>, exp10: real -> PositiveReal, sqrt: real -> real): (vs: seq<seq<real>>)
    ensures |vs| == |stars| / 4
    ensures forall i :: 0 <= i < |vs| ==> vs[i] == Vertex(stars, i, exp10, sqrt)
  {
    seq(|stars| / 4, i requires 0 <= i < |stars| / 4 => Vertex(stars, i, exp10, sqrt))
  }

  /** Six-float vertices laid one after the other. */
  function Flatten(vs: seq<seq<real>>): (b: seq<real>)
    requires forall j :: 0 <= j < |vs| ==> |vs[j]| == 6
    ensures |b| == 6 * |vs|
  {
    if |vs| == 0 then [] else Flatten(vs[..|vs| - 1]) + vs[|vs| - 1]
  }

  /** Float k of vertex i sits at 6 * i + k. */
  lemma {:induction false} FlattenSlot(vs: seq<seq<real>>, i: nat, k: nat)
    requires forall j :: 0 <= j < |vs| ==> |vs[j]| == 6
    requires i < |vs| && k < 6
    ensures Flatten(vs)[6 * i + k] == vs[i][k]
  {
    var front := vs[..|vs| - 1];
    assert Flatten(vs) == Flatten(front) + vs[|vs| - 1];
    if i < |vs| - 1 {
      FlattenSlot(front, i, k);
      assert front[i] == vs[i];
    }
  }

  /** One more vertex puts its six floats at the end. */
  lemma FlattenGrow(vs: seq<seq<real>>, i: nat)
    requires forall j :: 0 <= j < |vs| ==> |vs[j]| == 6
    requires i < |vs|
    ensures Flatten(vs[..i + 1]) == Flatten(vs[..i]) + vs[i]
  {
    assert vs[..i + 1][..i] == vs[..i];
  }

  /** In the packed buffer float k of star i is at 6 * i + k. */
  lemma BufferSlot(stars: seq<real>, exp10: real -> PositiveReal, sqrt: real -> real, i: nat, k: nat)
    requires i < |stars| / 4 && k < 6
    ensures Flatten(Vertices(stars, exp10, sqrt))[6 * i + k] == Vertex(stars, i, exp10, sqrt)[k]
  {
    FlattenSlot(Vertices(stars, exp10, sqrt), i, k);
  }

  /** The StarRenderer loop: a buffer of six floats for each whole group of
      four catalogue numbers (ra, dec, magnitude, B-V). */
  method PackStars(stars: seq<real>, exp10: real -> PositiveReal, sqrt: real -> real)
    returns (bufferData: array<real>)
    ensures bufferData[..] == Flatten(Vertices(stars, exp10, sqrt))
  {
    var numStars := |stars| / 4;
    ghost var vs := Vertices(stars, exp10, sqrt);
    bufferData := new real[numStars * 6];
    for i := 0 to numStars
      invariant bufferData[..6 * i] == Flatten(vs[..i])
    {
      PackStar(stars, i, exp10, sqrt, bufferData);
      FlattenGrow(vs, i);
    }
    assert vs[..numStars] == vs;
    assert bufferData[..] == bufferData[..6 * numStars];
  }

  /** One pass of that loop: the appearance of star i and its six floats,
      written after the stars before it. */
  method PackStar(stars: seq<real>, i: nat, exp10: real -> PositiveReal, sqrt: real -> real,
                  bufferData: array<real>)
    requires i < |stars| / 4 && 6 * i + 6 <= bufferData.Length
    modifies bufferData
    ensures bufferData[..6 * (i + 1)] == old(bufferData[..6 * i]) + Vertex(stars, i, exp10, sqrt)
  {
    var ra := stars[i * 4 + 0];
    var dec := stars[i * 4 + 1];
    var vmag := stars[i * 4 + 2];
    var bv := stars[i * 4 + 3];
    var appearance := CalculateAppearanceOfStar(vmag, bv, exp10, sqrt);
    VertexFields(stars, i, exp10, sqrt, appearance);
    StoreVertex(bufferData, i, ra, dec, appearance.red, appearance.green, appearance.blue,
                appearance.radius * 2.0 + 1.0);
    assert bufferData[..6 * (i + 1)] == bufferData[..6 * i] + bufferData[6 * i .. 6 * i + 6];
  }
}
