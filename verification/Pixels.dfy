/** Converting an image's pixels to the byte order and premultiplied alpha that cairo wants, row by row,
    on a little-endian machine. */
module Pixels {
  newtype Byte = x: int | 0 <= x < 0x100

  /** PREMUL_ALPHA: rounded division by 255 in shifts. */
  function Premul(color: Byte, alpha: Byte): (x: Byte)
  {
    var z := color as int * alpha as int + 0x80;
    ProductRange(color as int, alpha as int);
    ((z + z / 0x100) / 0x100) as Byte
  }

  lemma ProductRange(a: int, b: int)
    requires 0 <= a < 0x100 && 0 <= b < 0x100
    ensures 0 <= a * b <= 255 * b && a * b <= 255 * a && a * b <= 65025
  {
    NonNegative(a, b);
    NonNegative(255 - a, b);
    NonNegative(a, 255 - b);
    assert (255 - a) * b == 255 * b - a * b && a * (255 - b) == 255 * a - a * b;
  }

  lemma NonNegative(x: int, y: int)
    requires x >= 0 && y >= 0
    ensures x * y >= 0
  {
  }

  lemma ShiftRounds(t: int)
    requires 0 <= t <= 65025
    ensures var z := t + 0x80;
            -127 <= 255 * ((z + z / 0x100) / 0x100) - t <= 127
  {
    var z := t + 0x80;
    var q, r := z / 0x100, z % 0x100;
    assert z + q == 0x100 * q + (q + r);
    assert (z + q) / 0x100 == q + (q + r) / 0x100;
  }

  /** The nearest integer to color * alpha / 255, and never more than either factor. */
  lemma PremulRounds(color: Byte, alpha: Byte)
    ensures var x, t := Premul(color, alpha) as int, color as int * alpha as int;
            && -127 <= 255 * x - t <= 127
            && (forall y: int :: -127 <= 255 * y - t <= 127 ==> y == x)
            && x <= alpha as int && x <= color as int
  {
    ProductRange(color as int, alpha as int);
    ShiftRounds(color as int * alpha as int);
  }

  // ----- one pixel, one row

  /** Pixel `j` of the row at `d`, converted from the row at `s`: blue first, the fourth byte as it was. */
  predicate RgbAt(src: seq<Byte>, s: nat, dst: seq<Byte>, before: seq<Byte>, d: nat, j: nat)
    requires s + 3 * j + 3 <= |src| && d + 4 * j + 4 <= |dst| == |before|
  {
    && dst[d + 4 * j] == src[s + 3 * j + 2]
    && dst[d + 4 * j + 1] == src[s + 3 * j + 1]
    && dst[d + 4 * j + 2] == src[s + 3 * j]
    && dst[d + 4 * j + 3] == before[d + 4 * j + 3]
  }

  predicate RgbaAt(src: seq<Byte>, s: nat, dst: seq<Byte>, d: nat, j: nat)
    requires s + 4 * j + 4 <= |src| && d + 4 * j + 4 <= |dst|
  {
    var alpha := src[s + 4 * j + 3];
    && dst[d + 4 * j] == Premul(src[s + 4 * j + 2], alpha)
    && dst[d + 4 * j + 1] == Premul(src[s + 4 * j + 1], alpha)
    && dst[d + 4 * j + 2] == Premul(src[s + 4 * j], alpha)
    && dst[d + 4 * j + 3] == alpha
  }

  predicate Same(a: seq<Byte>, b: seq<Byte>, from: int, to: int)
    requires |a| == |b|
  {
    forall k :: 0 <= k < |a| && from <= k < to ==> a[k] == b[k]
  }

  predicate RowDone(chan: nat, src: seq<Byte>, s: nat, dst: seq<Byte>, before: seq<Byte>, d: nat, w: nat)
    requires 3 <= chan <= 4 && s + chan * w <= |src| && d + 4 * w <= |dst| == |before|
  {
    if chan == 3 then forall j :: 0 <= j < w ==> RgbAt(src, s, dst, before, d, j)
    else forall j :: 0 <= j < w ==> RgbaAt(src, s, dst, d, j)
  }

  /** The inner loop for three channels. */
  method RgbRow(src: array<Byte>, s: nat, dst: array<Byte>, d: nat, w: nat)
    requires src != dst && s + 3 * w <= src.Length && d + 4 * w <= dst.Length
    modifies dst
    ensures RowDone(3, src[..], s, dst[..], old(dst[..]), d, w)
    ensures Same(dst[..], old(dst[..]), 0, d) && Same(dst[..], old(dst[..]), d + 4 * w, dst.Length)
  {
    ghost var before := dst[..];
    ghost var j := 0;
    var gp, cp := s, d;
    while gp < s + 3 * w
      invariant j <= w && gp == s + 3 * j && cp == d + 4 * j
      invariant forall k :: 0 <= k < j ==> RgbAt(src[..], s, dst[..], before, d, k)
      invariant forall k :: 0 <= k < dst.Length && !(d <= k < cp) ==> dst[k] == before[k]
    {
      ghost var was := dst[..];
      dst[cp] := src[gp + 2];
      dst[cp + 1] := src[gp + 1];
      dst[cp + 2] := src[gp];
      forall k | 0 <= k < j ensures RgbAt(src[..], s, dst[..], before, d, k) {
        assert RgbAt(src[..], s, was, before, d, k);
      }
      gp, cp, j := gp + 3, cp + 4, j + 1;
    }
  }

  /** The inner loop for four channels. */
  method RgbaRow(src: array<Byte>, s: nat, dst: array<Byte>, d: nat, w: nat)
    requires src != dst && s + 4 * w <= src.Length && d + 4 * w <= dst.Length
    modifies dst
    ensures RowDone(4, src[..], s, dst[..], old(dst[..]), d, w)
    ensures Same(dst[..], old(dst[..]), 0, d) && Same(dst[..], old(dst[..]), d + 4 * w, dst.Length)
  {
    hide Premul;
    ghost var before := dst[..];
    ghost var j := 0;
    var gp, cp := s, d;
    while gp < s + 4 * w
      invariant j <= w && gp == s + 4 * j && cp == d + 4 * j
      invariant forall k :: 0 <= k < j ==> RgbaAt(src[..], s, dst[..], d, k)
      invariant forall k :: 0 <= k < dst.Length && !(d <= k < cp) ==> dst[k] == before[k]
    {
      ghost var was := dst[..];
      var alpha := src[gp + 3];
      dst[cp] := Premul(src[gp + 2], alpha);
      dst[cp + 1] := Premul(src[gp + 1], alpha);
      dst[cp + 2] := Premul(src[gp], alpha);
      dst[cp + 3] := alpha;
      forall k | 0 <= k < j ensures RgbaAt(src[..], s, dst[..], d, k) {
        assert RgbaAt(src[..], s, was, d, k);
      }
      gp, cp, j := gp + 4, cp + 4, j + 1;
    }
  }

  // ----- the whole image

  /** The rows fit: only the last row of the source may lack its padding. */
  predicate Fits(chan: nat, w: nat, h: nat, stride: nat, cstride: nat, source: nat, target: nat) {
    && 3 <= chan <= 4 && chan * w <= stride && 4 * w <= cstride
    && (h > 0 ==> (h - 1) * stride + chan * w <= source)
    && h * cstride <= target
  }

  lemma RowAfterRow(a: nat, b: nat, stride: nat)
    requires a <= b
    ensures a * stride <= b * stride
  {
  }

  lemma NextRow(a: nat, stride: nat)
    ensures (a + 1) * stride == a * stride + stride
  {
  }

  lemma RowFits(chan: nat, w: nat, h: nat, stride: nat, cstride: nat, source: nat, target: nat, i: nat)
    requires Fits(chan, w, h, stride, cstride, source, target) && i < h
    ensures i * stride + chan * w <= source && i * cstride + 4 * w <= (i + 1) * cstride <= target
    ensures i * cstride >= 0 && i * stride >= 0
  {
    RowAfterRow(i, h - 1, stride);
    RowAfterRow(i + 1, h, cstride);
    RowAfterRow(0, i, stride);
    RowAfterRow(0, i, cstride);
    NextRow(i, cstride);
  }

  lemma RowsApart(w: nat, cstride: nat, r: nat, i: nat)
    requires r < i && 4 * w <= cstride
    ensures r * cstride + 4 * w <= i * cstride
  {
    NextRow(r, cstride);
    RowAfterRow(r + 1, i, cstride);
  }

  /** A row stays done when only bytes behind it change. */
  lemma RowKept(chan: nat, src: seq<Byte>, s: nat, dst: seq<Byte>, dst': seq<Byte>, before: seq<Byte>, d: nat, w: nat, at: nat)
    requires 3 <= chan <= 4 && s + chan * w <= |src| && d + 4 * w <= |dst| == |before| == |dst'|
    requires RowDone(chan, src, s, dst, before, d, w) && d + 4 * w <= at && Same(dst', dst, 0, at)
    ensures RowDone(chan, src, s, dst', before, d, w)
  {
    hide Premul;
    if chan == 3 {
      forall j | 0 <= j < w ensures RgbAt(src, s, dst', before, d, j) {
        assert RgbAt(src, s, dst, before, d, j);
      }
    } else {
      forall j | 0 <= j < w ensures RgbaAt(src, s, dst', d, j) {
        assert RgbaAt(src, s, dst, d, j);
      }
    }
  }

  /** Row `r` of the image. */
  predicate RowOf(chan: nat, w: nat, h: nat, stride: nat, cstride: nat, src: seq<Byte>, dst: seq<Byte>, before: seq<Byte>, r: nat)
    requires Fits(chan, w, h, stride, cstride, |src|, |dst|) && |dst| == |before| && r < h
  {
    RowFits(chan, w, h, stride, cstride, |src|, |dst|, r);
    RowDone(chan, src, r * stride, dst, before, r * cstride, w)
  }

  predicate InRow(w: nat, h: nat, cstride: nat, k: int) {
    exists r :: 0 <= r < h && r * cstride <= k < r * cstride + 4 * w
  }

  /** One row, in a target that still has its first contents from there on. */
  method ConvertRow(chan: nat, src: array<Byte>, s: nat, dst: array<Byte>, d: nat, w: nat, ghost start: seq<Byte>)
    requires src != dst && 3 <= chan <= 4 && s + chan * w <= src.Length && d + 4 * w <= dst.Length == |start|
    requires Same(dst[..], start, d, dst.Length)
    modifies dst
    ensures RowDone(chan, src[..], s, dst[..], start, d, w)
    ensures Same(dst[..], old(dst[..]), 0, d) && Same(dst[..], start, d + 4 * w, dst.Length)
  {
    ghost var before := dst[..];
    if chan == 3 {
      RgbRow(src, s, dst, d, w);
      forall j | 0 <= j < w ensures RgbAt(src[..], s, dst[..], start, d, j) {
        assert RgbAt(src[..], s, dst[..], before, d, j);
      }
    } else {
      RgbaRow(src, s, dst, d, w);
    }
  }

  /** The two loops of `gdk_cairo_image_surface_create_from_pixbuf()`: every pixel of the target comes from
      the pixel at the same place in the source, and no byte between the rows is touched. */
  method Convert(chan: nat, src: array<Byte>, dst: array<Byte>, w: nat, h: nat, stride: nat, cstride: nat)
    requires src != dst && Fits(chan, w, h, stride, cstride, src.Length, dst.Length)
    modifies dst
    ensures forall r :: 0 <= r < h ==> RowOf(chan, w, h, stride, cstride, src[..], dst[..], old(dst[..]), r)
    ensures forall k :: 0 <= k < dst.Length && !InRow(w, h, cstride, k) ==> dst[k] == old(dst[k])
  {
    ghost var start := dst[..];
    var gdkpix, cpix := 0, 0;
    var i := h;
    while i > 0
      invariant 0 <= i <= h && gdkpix == (h - i) * stride && cpix == (h - i) * cstride
      invariant forall r :: 0 <= r < h - i ==> RowOf(chan, w, h, stride, cstride, src[..], dst[..], start, r)
      invariant Same(dst[..], start, cpix, dst.Length)
      invariant forall k :: 0 <= k < dst.Length && !InRow(w, h, cstride, k) ==> dst[k] == start[k]
    {
      ghost var row, before := h - i, dst[..];
      RowFits(chan, w, h, stride, cstride, src.Length, dst.Length, row);
      ConvertRow(chan, src, gdkpix, dst, cpix, w, start);
      hide RowDone, Same, InRow, Fits;
      forall r | 0 <= r < row ensures RowOf(chan, w, h, stride, cstride, src[..], dst[..], start, r) {
        RowFits(chan, w, h, stride, cstride, src.Length, dst.Length, r);
        RowsApart(w, cstride, r, row);
        assert RowOf(chan, w, h, stride, cstride, src[..], before, start, r);
        RowKept(chan, src[..], r * stride, before, dst[..], start, r * cstride, w, cpix);
      }
      OutsideKept(w, h, cstride, row, start, before, dst[..]);
      NextRow(row, stride);
      NextRow(row, cstride);
      gdkpix := gdkpix + stride;
      cpix := cpix + cstride;
      i := i - 1;
    }
  }

  lemma OutsideKept(w: nat, h: nat, cstride: nat, row: nat, start: seq<Byte>, before: seq<Byte>, after: seq<Byte>)
    requires row < h && |start| == |before| == |after|
    requires row * cstride >= 0
    requires forall k :: 0 <= k < |start| && !InRow(w, h, cstride, k) ==> before[k] == start[k]
    requires Same(after, before, 0, row * cstride) && Same(after, start, row * cstride + 4 * w, |start|)
    ensures forall k :: 0 <= k < |start| && !InRow(w, h, cstride, k) ==> after[k] == start[k]
  {
    forall k | 0 <= k < |start| && !InRow(w, h, cstride, k) ensures after[k] == start[k] {
      assert !(row * cstride <= k < row * cstride + 4 * w);
    }
  }
}
