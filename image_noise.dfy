/** The noise pass of the renderer over the canvas's RGBA byte buffer: every
    pixel gets one offset, added to its red, green and blue bytes, each result
    clamped to a byte; the alpha byte is left as it was. The random offsets
    are a parameter: one integer per pixel. */
module ImageNoise {

  /** Bytes per pixel in the buffer: red, green, blue, alpha. */
  const BytesPerPixel: int := 4
  /** The largest offset the noise source draws, in either direction. */
  const NoiseAmplitude: int := 25

  /** `Math.max(0, Math.min(255, v))`: the nearest byte value to `v`. */
  function Clamp(v: int): (r: int)
    ensures 0 <= r <= 255
    ensures 0 <= v <= 255 ==> r == v
    ensures v < 0 ==> r == 0
    ensures 255 < v ==> r == 255
  {
    if v < 0 then 0 else if 255 < v then 255 else v
  }

  /** Whether byte `k` of the buffer is an alpha byte. */
  predicate IsAlpha(k: int)
  {
    k % BytesPerPixel == 3
  }

  /** The buffer after the noise pass, offset `noise[p]` going to pixel `p`:
      the same length, every colour byte a byte value, every alpha byte as
      it was. */
  function Noised(pixels: seq<int>, noise: seq<int>): (r: seq<int>)
    requires |pixels| == BytesPerPixel * |noise|
    ensures |r| == |pixels|
    ensures forall k :: 0 <= k < |r| && IsAlpha(k) ==> r[k] == pixels[k]
    ensures forall k :: 0 <= k < |r| && !IsAlpha(k) ==> 0 <= r[k] <= 255
  {
    seq(|pixels|, k requires 0 <= k < |pixels| =>
      if IsAlpha(k) then pixels[k] else Clamp(pixels[k] + noise[k / BytesPerPixel]))
  }

  /** The loop of `renderImage` over the image data, stepping one pixel
      (four bytes) at a time and rewriting its red, green and blue bytes in
      place. */
  method ApplyNoise(data: array<int>, noise: seq<int>)
    requires data.Length == BytesPerPixel * |noise|
    modifies data
    ensures data[..] == Noised(old(data[..]), noise)
  {
    ghost var before := data[..];
    var i := 0;
    while i < data.Length
      invariant 0 <= i <= data.Length && i % BytesPerPixel == 0
      invariant forall k :: 0 <= k < i ==> data[k] == Noised(before, noise)[k]
      invariant forall k :: i <= k < data.Length ==> data[k] == before[k]
    {
      var offset := noise[i / BytesPerPixel];
      data[i] := Clamp(data[i] + offset);
      data[i + 1] := Clamp(data[i + 1] + offset);
      data[i + 2] := Clamp(data[i + 2] + offset);
      i := i + BytesPerPixel;
    }
  }

  /** Clamping a byte moved by `d` moves it by no more than `d`. */
  lemma ClampMovesAtMost(v: int, d: int)
    requires 0 <= v <= 255
    ensures d >= 0 ==> v <= Clamp(v + d) <= v + d
    ensures d < 0 ==> v + d <= Clamp(v + d) <= v
  {
  }

  /** A buffer of bytes under offsets within the noise amplitude stays a
      buffer of bytes, and no byte moves by more than the amplitude. */
  lemma NoiseBounded(pixels: seq<int>, noise: seq<int>)
    requires |pixels| == BytesPerPixel * |noise|
    requires forall k :: 0 <= k < |pixels| ==> 0 <= pixels[k] <= 255
    requires forall p :: 0 <= p < |noise| ==> -NoiseAmplitude <= noise[p] <= NoiseAmplitude
    ensures forall k :: 0 <= k < |pixels| ==>
      0 <= Noised(pixels, noise)[k] <= 255 &&
      -NoiseAmplitude <= Noised(pixels, noise)[k] - pixels[k] <= NoiseAmplitude
  {
    forall k | 0 <= k < |pixels|
      ensures -NoiseAmplitude <= Noised(pixels, noise)[k] - pixels[k] <= NoiseAmplitude
    {
      if !IsAlpha(k) {
        ClampMovesAtMost(pixels[k], noise[k / BytesPerPixel]);
      }
    }
  }

  /** One offset per pixel: where no clamping happens, the red, green and
      blue bytes of pixel `p` all move by exactly `noise[p]`. */
  lemma NoiseSharedByChannels(pixels: seq<int>, noise: seq<int>, p: int)
    requires |pixels| == BytesPerPixel * |noise|
    requires 0 <= p < |noise|
    requires 0 <= pixels[4 * p] + noise[p] <= 255
    requires 0 <= pixels[4 * p + 1] + noise[p] <= 255
    requires 0 <= pixels[4 * p + 2] + noise[p] <= 255
    ensures var r := Noised(pixels, noise);
      r[4 * p] - pixels[4 * p] == noise[p] &&
      r[4 * p + 1] - pixels[4 * p + 1] == noise[p] &&
      r[4 * p + 2] - pixels[4 * p + 2] == noise[p]
  {
    assert (4 * p) / BytesPerPixel == (4 * p + 1) / BytesPerPixel == (4 * p + 2) / BytesPerPixel == p;
  }

  /** A pixel of the background colour #0101F9, opaque, stays within 25 of
      it in every colour and keeps alpha 255. */
  lemma BackgroundPixelNoise(d: int)
    requires -NoiseAmplitude <= d <= NoiseAmplitude
    ensures var r := Noised([1, 1, 249, 255], [d]);
      0 <= r[0] <= 26 && 0 <= r[1] <= 26 && 224 <= r[2] <= 255 && r[3] == 255
  {
    ClampMovesAtMost(1, d);
    ClampMovesAtMost(249, d);
  }
}
