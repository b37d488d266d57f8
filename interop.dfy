/** Value helpers of the native interop layer: ARGB colour packing and the
    rectangle handed to the native clip call. The foreign calls themselves are
    not part of this model. */
module Interop {

  /** The 32-bit unsigned ARGB value of four colour channels: alpha in the top
      byte, then red, green and blue. */
  function PackColor(a: bv8, r: bv8, g: bv8, b: bv8): (c: bv32)
    ensures ((c >> 24) & 0xFF) as bv8 == a
    ensures ((c >> 16) & 0xFF) as bv8 == r
    ensures ((c >> 8) & 0xFF) as bv8 == g
    ensures (c & 0xFF) as bv8 == b
  {
    (a as bv32 << 24) | (r as bv32 << 16) | (g as bv32 << 8) | b as bv32
  }

  /** The packed colour is the weighted sum of its channels, computed in
      32-bit unsigned arithmetic: the shifted channels occupy disjoint bits. */
  lemma PackColorValue(a: bv8, r: bv8, g: bv8, b: bv8)
    ensures PackColor(a, r, g, b)
         == (a as bv32) * 0x100_0000 + (r as bv32) * 0x1_0000 + (g as bv32) * 0x100 + b as bv32
  {
  }

  /** Different channel quadruples never pack to the same colour. */
  lemma PackColorInjective(a: bv8, r: bv8, g: bv8, b: bv8, a': bv8, r': bv8, g': bv8, b': bv8)
    requires PackColor(a, r, g, b) == PackColor(a', r', g', b')
    ensures a == a' && r == r' && g == g' && b == b'
  {
  }

  /** A colour with full alpha is at least 0xFF000000: fully opaque. */
  lemma OpaqueColor(r: bv8, g: bv8, b: bv8)
    ensures PackColor(0xFF, r, g, b) >= 0xFF00_0000
  {
  }

  /** The native rectangle: edges as single-precision numbers, modelled as reals. */
  datatype SkRect = SkRect(left: real, top: real, right: real, bottom: real)

  /** The rectangle anchored at the origin with the given size. */
  function FromSize(width: real, height: real): (rect: SkRect)
    ensures rect.left == 0.0 && rect.top == 0.0
    ensures rect.right - rect.left == width && rect.bottom - rect.top == height
  {
    SkRect(0.0, 0.0, width, height)
  }
}
