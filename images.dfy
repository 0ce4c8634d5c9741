/** The 8-bit, three-channel pixel buffers that both image models work on. */
module Images {

  /** One pixel: channels in the order of the buffer (RGB, or H, S, V after conversion). */
  datatype Pixel = Pixel(c0: int, c1: int, c2: int)

  /** A value that a `uint8` channel can hold. */
  predicate IsByte(v: int)
  {
    0 <= v <= 255
  }

  predicate IsBytePixel(p: Pixel)
  {
    IsByte(p.c0) && IsByte(p.c1) && IsByte(p.c2)
  }

  /** Every channel of every pixel fits in a `uint8`. */
  predicate AllBytes(s: seq<Pixel>)
  {
    forall i :: 0 <= i < |s| ==> IsBytePixel(s[i])
  }

  /** `np.clip(v, lo, hi)` on one integer value. */
  function Clamp(v: int, lo: int, hi: int): (r: int)
    requires lo <= hi
    ensures lo <= r <= hi
    ensures lo <= v <= hi ==> r == v
    ensures v <= lo ==> r == lo
    ensures hi <= v ==> r == hi
  {
    if v < lo then lo else if v > hi then hi else v
  }

  /** `np.clip(x, lo, hi)` on one real value. */
  function ClampReal(x: real, lo: real, hi: real): (r: real)
    requires lo <= hi
    ensures lo <= r <= hi
    ensures lo <= x <= hi ==> r == x
    ensures x <= lo ==> r == lo
    ensures hi <= x ==> r == hi
  {
    if x < lo then lo else if x > hi then hi else x
  }

  /** The message of the `ValueError` raised when `cv2.imread` returns `None`. */
  function LoadError(path: string): string
  {
    "Could not load image from " + path
  }
}
