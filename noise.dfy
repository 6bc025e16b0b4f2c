/**
 * The film-grain noise canvas. `generateNoise` allocates a blank RGBA image the size of the
 * canvas and walks its bytes four at a time, one pixel per step: it draws one noise value
 * per pixel, writes it to the colour channels the colour mode selects (zero to the others)
 * and sets the alpha byte to `patternAlpha`.
 *
 * The pixel buffer is a `Uint8ClampedArray`, so each Number written to it is stored as a
 * byte by clamping to [0, 255] and rounding to the nearest integer, ties to even; that
 * conversion is written out here. The `Math.random() * 255` draws are a parameter.
 */
module Noise {
  import opened Common

  /** The `color` prop; anything but red, blue or green takes the default (white) branch. */
  datatype ColorMode = White | Red | Blue | Green

  const DefaultPatternAlpha: real := 35.0

  /** How a `Uint8ClampedArray` stores a (finite) Number. */
  function ClampedByte(x: real): (b: Byte)
    ensures x <= 0.0 ==> b == 0
    ensures x >= 255.0 ==> b == 255
    ensures 0.0 <= x <= 255.0 ==> -0.5 <= b as real - x <= 0.5
  {
    if x <= 0.0 then 0
    else if x >= 255.0 then 255
    else
      var f := x.Floor;
      var frac := x - f as real;
      if frac < 0.5 then f
      else if frac > 0.5 then f + 1
      else if f % 2 == 0 then f
      else f + 1
  }

  /** The four bytes (R, G, B, A) one step writes for noise byte `v`. */
  function Pixel(color: ColorMode, v: Byte, alpha: Byte): (p: seq<Byte>)
    ensures |p| == 4
  {
    match color
    case Red => [v, 0, 0, alpha]
    case Blue => [0, 0, v, alpha]
    case Green => [0, v, 0, alpha]
    case White => [v, v, v, alpha]
  }

  /** The image the loop produces from the per-pixel noise bytes, pixel after pixel. */
  function NoiseImage(color: ColorMode, alpha: Byte, values: seq<Byte>): (img: seq<Byte>)
    ensures |img| == 4 * |values|
  {
    if values == [] then []
    else NoiseImage(color, alpha, values[..|values| - 1]) + Pixel(color, values[|values| - 1], alpha)
  }

  /** Byte `r` of pixel `p` sits at index `4 * p + r` of the image. */
  lemma {:induction false} NoiseImageAt(color: ColorMode, alpha: Byte, values: seq<Byte>, p: nat, r: nat)
    requires p < |values| && r < 4
    ensures NoiseImage(color, alpha, values)[4 * p + r] == Pixel(color, values[p], alpha)[r]
  {
    var n := |values| - 1;
    if p < n {
      NoiseImageAt(color, alpha, values[..n], p, r);
    }
  }

  /** The bytes of pixel `p` in the image are that pixel's four bytes. */
  lemma PixelBytes(color: ColorMode, alpha: Byte, values: seq<Byte>, p: nat)
    requires p < |values|
    ensures NoiseImage(color, alpha, values)[4 * p..4 * p + 4] == Pixel(color, values[p], alpha)
  {
    var img, px := NoiseImage(color, alpha, values), Pixel(color, values[p], alpha);
    forall r | 0 <= r < 4 ensures img[4 * p..4 * p + 4][r] == px[r] {
      NoiseImageAt(color, alpha, values, p, r);
    }
  }

  /**
   * Per pixel `p`, with noise byte `v`: the alpha byte is `alpha` in every mode; red mode
   * writes (v, 0, 0), blue (0, 0, v), green (0, v, 0), and white the same `v` to all three.
   */
  lemma ChannelsByMode(color: ColorMode, alpha: Byte, values: seq<Byte>, p: nat)
    requires p < |values|
    ensures var img, v := NoiseImage(color, alpha, values), values[p];
      |img| == 4 * |values| &&
      img[4 * p + 3] == alpha &&
      (color == Red ==> img[4 * p] == v && img[4 * p + 1] == 0 && img[4 * p + 2] == 0) &&
      (color == Blue ==> img[4 * p] == 0 && img[4 * p + 1] == 0 && img[4 * p + 2] == v) &&
      (color == Green ==> img[4 * p] == 0 && img[4 * p + 1] == v && img[4 * p + 2] == 0) &&
      (color == White ==> img[4 * p] == v && img[4 * p + 1] == v && img[4 * p + 2] == v)
  {
    PixelBytes(color, alpha, values, p);
    var img := NoiseImage(color, alpha, values);
    assert img[4 * p..4 * p + 4][3] == img[4 * p + 3];
    assert img[4 * p..4 * p + 4][0] == img[4 * p];
    assert img[4 * p..4 * p + 4][1] == img[4 * p + 1];
    assert img[4 * p..4 * p + 4][2] == img[4 * p + 2];
  }

  /** The alpha byte of every pixel is `alpha`. */
  lemma AlphaEverywhere(color: ColorMode, alpha: Byte, values: seq<Byte>)
    ensures forall p :: 0 <= p < |values| ==> NoiseImage(color, alpha, values)[4 * p + 3] == alpha
  {
    forall p | 0 <= p < |values| ensures NoiseImage(color, alpha, values)[4 * p + 3] == alpha {
      NoiseImageAt(color, alpha, values, p, 3);
    }
  }

  /** A noise draw `Math.random() * 255` lies in [0, 255). */
  predicate ValidDraws(draws: seq<real>) {
    forall k :: 0 <= k < |draws| ==> 0.0 <= draws[k] < 255.0
  }

  /** The bytes the draws are stored as. */
  function NoiseBytes(draws: seq<real>): (vs: seq<Byte>)
    requires ValidDraws(draws)
    ensures |vs| == |draws|
    ensures forall k :: 0 <= k < |draws| ==> -0.5 <= vs[k] as real - draws[k] <= 0.5
  {
    seq(|draws|, k requires 0 <= k < |draws| => ClampedByte(draws[k]))
  }

  /** The image of the first `p + 1` values extends the image of the first `p` by pixel `p`. */
  lemma NoiseImageSnoc(color: ColorMode, alpha: Byte, values: seq<Byte>, p: nat)
    requires p < |values|
    ensures NoiseImage(color, alpha, values[..p + 1]) ==
      NoiseImage(color, alpha, values[..p]) + Pixel(color, values[p], alpha)
  {
    assert values[..p + 1][..p] == values[..p];
  }

  /**
   * One step of the loop at byte `i`: the colour switch writes the three colour channels of
   * the pixel, then the alpha byte is written. Nothing before `i` changes.
   */
  method WritePixel(data: array<Byte>, i: nat, color: ColorMode, noise: Byte, alpha: Byte)
    requires i + 4 <= data.Length
    modifies data
    ensures data[..i + 4] == old(data[..i]) + Pixel(color, noise, alpha)
  {
    match color {
      case Red =>
        data[i] := noise;
        data[i + 1] := 0;
        data[i + 2] := 0;
      case Blue =>
        data[i] := 0;
        data[i + 1] := 0;
        data[i + 2] := noise;
      case Green =>
        data[i] := 0;
        data[i + 1] := noise;
        data[i + 2] := 0;
      case White =>
        data[i] := noise;
        data[i + 1] := noise;
        data[i + 2] := noise;
    }
    data[i + 3] := alpha;
    assert data[..i + 4] == data[..i] + data[i..i + 4];
  }

  /**
   * The loop of `generateNoise` over an allocated buffer, pixel `p` taking noise byte
   * `values[p]`: every byte is written, and the buffer ends up holding the noise image.
   */
  method WriteNoise(data: array<Byte>, color: ColorMode, alpha: Byte, values: seq<Byte>)
    requires data.Length == 4 * |values|
    modifies data
    ensures data[..] == NoiseImage(color, alpha, values)
  {
    var i := 0;
    ghost var p := 0;
    while i < data.Length
      invariant i == 4 * p && 0 <= p <= |values|
      invariant data[..i] == NoiseImage(color, alpha, values[..p])
    {
      var noise := values[i / 4];
      assert i / 4 == p;
      WritePixel(data, i, color, noise, alpha);
      NoiseImageSnoc(color, alpha, values, p);
      i, p := i + 4, p + 1;
    }
    assert values[..p] == values;
    assert data[..] == data[..i];
  }

  /**
   * `generateNoise` for a `width` by `height` canvas, pixel `p` drawing `draws[p]`.
   * `createImageData` throws an IndexSizeError when either side is 0, and nothing is drawn:
   * the result is `None`. Otherwise it is a fresh buffer of `4 * width * height` bytes holding
   * exactly the noise image of the stored draws with the stored `patternAlpha`.
   */
  method GenerateNoise(width: nat, height: nat, color: ColorMode, patternAlpha: real, draws: seq<real>)
    returns (result: Option<array<Byte>>)
    requires |draws| == width * height && ValidDraws(draws)
    ensures result.None? <==> width == 0 || height == 0
    ensures result.Some? ==> fresh(result.value) && result.value.Length == 4 * (width * height)
    ensures result.Some? ==> result.value[..] == NoiseImage(color, ClampedByte(patternAlpha), NoiseBytes(draws))
  {
    if width == 0 || height == 0 {
      return None;
    }
    var data := new Byte[4 * (width * height)];
    WriteNoise(data, color, ClampedByte(patternAlpha), NoiseBytes(draws));
    return Some(data);
  }
}
