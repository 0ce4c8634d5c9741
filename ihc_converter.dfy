/**
 * The channel arithmetic of `HEToIHCConverter`: the GAN normalisation of
 * `preprocess_image` / `postprocess_image`, and `_generate_synthetic_ihc`,
 * which shifts hue, scales saturation and adds clipped noise in place.
 * OpenCV's colour conversions and morphological close are parameters:
 * `toHsv` and `toRgb` act pixel by pixel, as `cv2.cvtColor` does, and
 * `close` acts on the whole image.
 */
module IhcConverter {
  import opened Wrappers
  import opened Images

  /** One pixel of the float buffer handed to and returned by the generator. */
  datatype GanPixel = GanPixel(g0: real, g1: real, g2: real)

  predicate InGanRange(x: real)
  {
    -1.0 <= x <= 1.0
  }

  predicate IsGanPixel(q: GanPixel)
  {
    InGanRange(q.g0) && InGanRange(q.g1) && InGanRange(q.g2)
  }

  /** The hue offset that simulates brown DAB staining, and OpenCV's largest 8-bit hue. */
  const HueShift: int := 10
  const HueMax: int := 179

  /** Truncation toward zero, as numpy's float-to-integer cast does. */
  function Truncate(x: real): (n: int)
    ensures 0.0 <= x ==> 0 <= n && n as real <= x < n as real + 1.0
    ensures x < 0.0 ==> n <= 0 && n as real - 1.0 < x <= n as real
  {
    if x >= 0.0 then x.Floor else -((-x).Floor)
  }

  /**
   * `astype(np.uint8)` of a float: truncation, keeping the low eight bits
   * when the value does not fit (what two's-complement platforms do with
   * an out-of-range cast).
   */
  function CastToUint8(x: real): (v: int)
    ensures IsByte(v)
    ensures 0.0 <= x < 256.0 ==> v == x.Floor
  {
    Truncate(x) % 256
  }

  /** `v / 127.5 - 1.0`: a channel value mapped into [-1, 1]. */
  function NormaliseChannel(v: int): (g: real)
    ensures IsByte(v) ==> InGanRange(g)
  {
    v as real / 127.5 - 1.0
  }

  /** `((g + 1.0) * 127.5).astype(np.uint8)`. */
  function DenormaliseChannel(g: real): (v: int)
    ensures IsByte(v)
    ensures InGanRange(g) ==> v == ((g + 1.0) * 127.5).Floor
  {
    CastToUint8((g + 1.0) * 127.5)
  }

  /** Denormalising undoes normalising on every channel value. */
  lemma DenormaliseNormalise(v: int)
    requires IsByte(v)
    ensures DenormaliseChannel(NormaliseChannel(v)) == v
  {
  }

  /**
   * `postprocess_image` as written: the clip to [0, 255] runs after the
   * cast to `uint8`, so it never changes a value.
   */
  function PostprocessChannelAsWritten(g: real): (v: int)
    ensures v == DenormaliseChannel(g)
  {
    Clamp(DenormaliseChannel(g), 0, 255)
  }

  /**
   * `postprocess_image` with the clip applied before the cast, as its
   * comment ("Ensure valid pixel range") intends: out-of-range values
   * saturate instead of wrapping.
   */
  function PostprocessChannel(g: real): (v: int)
    ensures IsByte(v)
    ensures 1.0 <= g ==> v == 255
    ensures g <= -1.0 ==> v == 0
    ensures InGanRange(g) ==> v == PostprocessChannelAsWritten(g)
  {
    CastToUint8(ClampReal((g + 1.0) * 127.5, 0.0, 255.0))
  }

  /** A generated value of 1.1 comes back as 11 as written, and as 255 once clipped first. */
  lemma PostprocessOutOfRange()
    ensures PostprocessChannelAsWritten(1.1) == 11
    ensures PostprocessChannel(1.1) == 255
  {
  }

  /**
   * `np.clip(h + 10, 0, 179)` on a `uint8` hue: the addition wraps modulo
   * 256 before the clip. OpenCV's 8-bit hue is at most 179, and there the
   * result is `min(h + 10, 179)`.
   */
  function ShiftHue(h: int): (r: int)
    ensures 0 <= r <= HueMax
    ensures 0 <= h <= HueMax ==> r == if h + HueShift <= HueMax then h + HueShift else HueMax
  {
    Clamp((h + HueShift) % 256, 0, HueMax)
  }

  /** The floor of a non-negative integer quotient taken over the reals is integer division. */
  lemma FloorOfQuotient(n: int, d: int)
    requires 0 <= n && 0 < d
    ensures (n as real / d as real).Floor == n / d
  {
    var q, m := n / d, n % d;
    assert n == q * d + m && 0 <= m < d;
    assert n as real / d as real == q as real + m as real / d as real;
  }

  /**
   * `np.clip(s * 1.3, 0, 255)` stored back into the `uint8` saturation
   * channel, which truncates; 1.3 is taken as exactly 13/10. For every
   * channel value the result is `min(s * 13 / 10, 255)` in integer division.
   */
  function ScaleSaturation(s: int): (r: int)
    ensures IsByte(r)
    ensures 0 <= s ==> r == if s * 13 / 10 <= 255 then s * 13 / 10 else 255
  {
    var scaled := ClampReal(s as real * 13.0 / 10.0, 0.0, 255.0);
    if 0 <= s then FloorOfQuotient(s * 13, 10); scaled.Floor else scaled.Floor
  }

  /** The hue and saturation update of one HSV pixel; the value channel is left alone. */
  function AdjustHsv(p: Pixel): (q: Pixel)
    ensures 0 <= q.c0 <= HueMax && IsByte(q.c1)
    ensures q.c0 == ShiftHue(p.c0) && q.c1 == ScaleSaturation(p.c1)
    ensures q.c2 == p.c2
  {
    Pixel(ShiftHue(p.c0), ScaleSaturation(p.c1), p.c2)
  }

  /** The value an `int16` holds after a sum wraps. */
  function Wrap16(x: int): (r: int)
    ensures -32768 <= r <= 32767
    ensures -32768 <= x <= 32767 ==> r == x
    ensures (x - r) % 65536 == 0
  {
    (x + 32768) % 65536 - 32768
  }

  /**
   * `np.clip(c.astype(np.int16) + n, 0, 255)` for one channel: the sum is
   * `int16` arithmetic, then it is clipped to the pixel range.
   */
  function NoisyChannel(c: int, n: int): (r: int)
    ensures IsByte(r)
    ensures -32768 <= c + n <= 32767 ==> r == Clamp(c + n, 0, 255)
  {
    Clamp(Wrap16(c + n), 0, 255)
  }

  function AddNoisePixel(p: Pixel, n: Pixel): (q: Pixel)
    ensures IsBytePixel(q)
  {
    Pixel(NoisyChannel(p.c0, n.c0), NoisyChannel(p.c1, n.c1), NoisyChannel(p.c2, n.c2))
  }

  /** A per-pixel operation applied to a whole image. */
  function Apply(f: Pixel -> Pixel, s: seq<Pixel>): (r: seq<Pixel>)
    ensures |r| == |s|
    ensures forall i :: 0 <= i < |s| ==> r[i] == f(s[i])
  {
    seq(|s|, i requires 0 <= i < |s| => f(s[i]))
  }

  /** Noise added channel by channel; the result is a valid 8-bit image whatever the noise. */
  function AddNoiseAll(s: seq<Pixel>, noise: seq<Pixel>): (r: seq<Pixel>)
    requires |noise| == |s|
    ensures |r| == |s| && AllBytes(r)
    ensures forall i :: 0 <= i < |s| ==> r[i] == AddNoisePixel(s[i], noise[i])
  {
    seq(|s|, i requires 0 <= i < |s| => AddNoisePixel(s[i], noise[i]))
  }

  function NormalisePixel(p: Pixel): (q: GanPixel)
    ensures IsBytePixel(p) ==> IsGanPixel(q)
  {
    GanPixel(NormaliseChannel(p.c0), NormaliseChannel(p.c1), NormaliseChannel(p.c2))
  }

  function DenormalisePixel(q: GanPixel): (p: Pixel)
    ensures IsBytePixel(p)
  {
    Pixel(DenormaliseChannel(q.g0), DenormaliseChannel(q.g1), DenormaliseChannel(q.g2))
  }

  function PostprocessPixel(q: GanPixel): (p: Pixel)
    ensures IsBytePixel(p)
  {
    Pixel(PostprocessChannelAsWritten(q.g0), PostprocessChannelAsWritten(q.g1), PostprocessChannelAsWritten(q.g2))
  }

  function NormaliseImage(s: seq<Pixel>): (r: seq<GanPixel>)
    ensures |r| == |s|
    ensures AllBytes(s) ==> forall i :: 0 <= i < |r| ==> IsGanPixel(r[i])
  {
    seq(|s|, i requires 0 <= i < |s| => NormalisePixel(s[i]))
  }

  function DenormaliseImage(s: seq<GanPixel>): (r: seq<Pixel>)
    ensures |r| == |s| && AllBytes(r)
  {
    seq(|s|, i requires 0 <= i < |s| => DenormalisePixel(s[i]))
  }

  function PostprocessImage(s: seq<GanPixel>): (r: seq<Pixel>)
    ensures |r| == |s| && AllBytes(r)
  {
    seq(|s|, i requires 0 <= i < |s| => PostprocessPixel(s[i]))
  }

  /** Normalising an 8-bit image and denormalising it gives the image back. */
  lemma DenormaliseNormaliseImage(s: seq<Pixel>)
    requires AllBytes(s)
    ensures DenormaliseImage(NormaliseImage(s)) == s
  {
    var r := DenormaliseImage(NormaliseImage(s));
    forall i | 0 <= i < |s|
      ensures r[i] == s[i]
    {
      DenormaliseNormalise(s[i].c0);
      DenormaliseNormalise(s[i].c1);
      DenormaliseNormalise(s[i].c2);
    }
  }

  /** Post-processing a normalised 8-bit image gives the image back. */
  lemma PostprocessNormaliseImage(s: seq<Pixel>)
    requires AllBytes(s)
    ensures PostprocessImage(NormaliseImage(s)) == s
  {
  }

  /** What `cv2.morphologyEx` promises on a `uint8` image: the same size, still 8-bit. */
  ghost predicate ClosePreservesImages(close: seq<Pixel> -> seq<Pixel>)
  {
    forall s :: |close(s)| == |s| && (AllBytes(s) ==> AllBytes(close(s)))
  }

  /**
   * The 8-bit image `_generate_synthetic_ihc` builds from the 8-bit
   * original: to HSV, hue and saturation adjusted, back to RGB, noise
   * added, closed.
   */
  function SyntheticIhcPixels(original: seq<Pixel>, noise: seq<Pixel>,
                              toHsv: Pixel -> Pixel, toRgb: Pixel -> Pixel,
                              close: seq<Pixel> -> seq<Pixel>): (r: seq<Pixel>)
    requires |noise| == |original|
    requires ClosePreservesImages(close)
    ensures |r| == |original| && AllBytes(r)
  {
    close(AddNoiseAll(Apply(toRgb, Apply(AdjustHsv, Apply(toHsv, original))), noise))
  }

  /** `hsv[:, :, 0]` and `hsv[:, :, 1]` overwritten in place. */
  method AdjustHueSaturation(hsv: array<Pixel>)
    modifies hsv
    ensures hsv[..] == Apply(AdjustHsv, old(hsv[..]))
  {
    for i := 0 to hsv.Length
      invariant forall k :: 0 <= k < i ==> hsv[k] == AdjustHsv(old(hsv[k]))
      invariant forall k :: i <= k < hsv.Length ==> hsv[k] == old(hsv[k])
    {
      hsv[i] := AdjustHsv(hsv[i]);
    }
  }

  /** `np.clip(img.astype(np.int16) + noise, 0, 255)` stored back into the image. */
  method AddNoise(img: array<Pixel>, noise: array<Pixel>)
    requires noise.Length == img.Length
    requires noise != img
    modifies img
    ensures img[..] == AddNoiseAll(old(img[..]), noise[..])
    ensures AllBytes(img[..])
  {
    for i := 0 to img.Length
      invariant forall k :: 0 <= k < i ==> img[k] == AddNoisePixel(old(img[k]), noise[k])
      invariant forall k :: i <= k < img.Length ==> img[k] == old(img[k])
    {
      img[i] := AddNoisePixel(img[i], noise[i]);
    }
  }

  /**
   * `_generate_synthetic_ihc`: the normalised input is turned back into an
   * 8-bit image, converted, adjusted and noised in place, closed, and
   * normalised again.
   */
  method GenerateSyntheticIhc(he: seq<GanPixel>, noise: array<Pixel>,
                              toHsv: Pixel -> Pixel, toRgb: Pixel -> Pixel,
                              close: seq<Pixel> -> seq<Pixel>)
    returns (out: seq<GanPixel>)
    requires noise.Length == |he|
    requires ClosePreservesImages(close)
    ensures out == NormaliseImage(SyntheticIhcPixels(DenormaliseImage(he), noise[..], toHsv, toRgb, close))
    ensures |out| == |he| && forall i :: 0 <= i < |out| ==> IsGanPixel(out[i])
  {
    var original := DenormaliseImage(he);
    var hsv := new Pixel[|original|](i requires 0 <= i < |original| => toHsv(original[i]));
    assert hsv[..] == Apply(toHsv, original);
    AdjustHueSaturation(hsv);
    var rgb := new Pixel[hsv.Length](i reads hsv requires 0 <= i < hsv.Length => toRgb(hsv[i]));
    assert rgb[..] == Apply(toRgb, hsv[..]);
    AddNoise(rgb, noise);
    var closed := close(rgb[..]);
    out := NormaliseImage(closed);
  }

  /**
   * `preprocess_image`: `None` from `cv2.imread` raises; otherwise the
   * (converted and resized) image is normalised to [-1, 1].
   */
  function Preprocess(image: Option<seq<Pixel>>, path: string): (r: Result<seq<GanPixel>, string>)
    ensures r.Failure? <==> image.None?
    ensures r.Failure? ==> r.error == LoadError(path)
    ensures r.Success? ==> r.value == NormaliseImage(image.value)
  {
    match image
    case None => Failure(LoadError(path))
    case Some(s) => Success(NormaliseImage(s))
  }

  /** The image files on disk, by path. */
  class ImageFiles {
    var files: map<string, seq<Pixel>>

    constructor ()
      ensures files == map[]
    {
      files := map[];
    }
  }

  /**
   * `convert`: an unreadable input raises before anything is written; the
   * output file is written only as the last step, and holds the synthetic
   * image, all of whose channels are 8-bit values. `saveError` is what
   * `Image.fromarray` / `save` raise, if anything: `convert` re-raises it
   * and no file is written.
   */
  method Convert(disk: ImageFiles, image: Option<seq<Pixel>>, hePath: string, outputPath: string,
                 noise: array<Pixel>, toHsv: Pixel -> Pixel, toRgb: Pixel -> Pixel,
                 close: seq<Pixel> -> seq<Pixel>, saveError: Option<string>)
    returns (r: Outcome<string>)
    requires image.Some? ==> AllBytes(image.value) && noise.Length == |image.value|
    requires ClosePreservesImages(close)
    modifies disk
    ensures image.None? ==> r == Fail(LoadError(hePath)) && disk.files == old(disk.files)
    ensures image.Some? && saveError.Some? ==> r == Fail(saveError.value) && disk.files == old(disk.files)
    ensures image.Some? && saveError.None? ==> r == Pass
    ensures image.Some? && saveError.None? ==>
              disk.files == old(disk.files)[outputPath := SyntheticIhcPixels(image.value, noise[..], toHsv, toRgb, close)]
    ensures image.Some? && saveError.None? ==> AllBytes(disk.files[outputPath])
  {
    var pre := Preprocess(image, hePath);
    if pre.Failure? {
      r := Fail(pre.error);
      return;
    }
    var generated := GenerateSyntheticIhc(pre.value, noise, toHsv, toRgb, close);
    DenormaliseNormaliseImage(image.value);
    ghost var pixels := SyntheticIhcPixels(image.value, noise[..], toHsv, toRgb, close);
    PostprocessNormaliseImage(pixels);
    var ihc := PostprocessImage(generated);
    if saveError.Some? {
      r := Fail(saveError.value);
      return;
    }
    disk.files := disk.files[outputPath := ihc];
    r := Pass;
  }
}
