/** The pixel remap of converter/converter.go: a packed 4:2:2 buffer of 4-byte
    groups (y1, cb, y2, cr) becomes an RGBA buffer of two pixels per group,
    (y1, cb, cr, 255) and (y2, cb, cr, 255). It is a channel shuffle only; no
    colour-space arithmetic is done. */
module Converter {
  import opened Wrappers
  import opened Types

  /** Bytes in one packed pixel pair */
  const Yuv422PxPairSize: nat := 4

  /** Every written pixel is fully opaque */
  const Alpha: uint8 := 255

  /** The eight RGBA bytes one packed group expands to (`px2rgba`) */
  function RgbaPair(y1: uint8, cb: uint8, y2: uint8, cr: uint8): seq<uint8>
  {
    [y1, cb, cr, Alpha, y2, cb, cr, Alpha]
  }

  /** The RGBA bytes the remap loop writes for the packed buffer `b`: output byte
      k is byte k%8 of the expansion of group k/8 (input bytes 4*(k/8) .. 4*(k/8)+3) */
  function Expand(b: seq<uint8>): (r: seq<uint8>)
    requires |b| % 4 == 0
    ensures |r| == 2 * |b|
  {
    seq(2 * |b|, k requires 0 <= k < 2 * |b| =>
      var g := k / 8;
      assert 4 * g + 4 <= |b| by { WindowOf(|b|, k); }
      RgbaPair(b[4 * g], b[4 * g + 1], b[4 * g + 2], b[4 * g + 3])[k % 8])
  }

  /** A buffer of `n` zero bytes, as `make([]uint8, n)` gives */
  function Zeros(n: nat): (r: seq<uint8>)
    ensures |r| == n && forall k :: 0 <= k < n ==> r[k] == 0
  {
    seq(n, _ => 0)
  }

  /** The bytes group `i` (a multiple of 4) writes: Pix[2i..2i+8] is
      y1, cb, cr, 255, y2, cb, cr, 255 taken from b[i..i+4] in positional order */
  lemma ExpandGroup(b: seq<uint8>, i: nat)
    requires |b| % 4 == 0 && i % 4 == 0 && i < |b|
    ensures 2 * i + 8 <= |Expand(b)|
    ensures forall k :: 2 * i <= k < 2 * i + 8 ==>
      Expand(b)[k] == RgbaPair(b[i], b[i + 1], b[i + 2], b[i + 3])[k - 2 * i]
  {
    var g := i / 4;
    assert i == 4 * g;
    forall k | 2 * i <= k < 2 * i + 8
      ensures Expand(b)[k] == RgbaPair(b[i], b[i + 1], b[i + 2], b[i + 3])[k - 2 * i]
    {
      assert k / 8 == g && k % 8 == k - 2 * i;
    }
  }

  /** Each output byte below 2*|b| is written by exactly one group: the one whose
      8-byte window [2i, 2i+8) holds it, and its value depends on that group only */
  lemma ExpandByte(b: seq<uint8>, k: nat)
    requires |b| % 4 == 0 && k < 2 * |b|
    ensures var i := k / 8 * 4;
      && i + 4 <= |b| && 2 * i <= k < 2 * i + 8
      && (forall i' :: 0 <= i' < |b| && i' % 4 == 0 && 2 * i' <= k < 2 * i' + 8 ==> i' == i)
      && Expand(b)[k] == RgbaPair(b[i], b[i + 1], b[i + 2], b[i + 3])[k - 2 * i]
  {
    WindowOf(|b|, k);
  }

  /** Arithmetic behind ExpandByte: the group window that holds output byte k */
  lemma WindowOf(len: nat, k: nat)
    requires len % 4 == 0 && k < 2 * len
    ensures var i := k / 8 * 4;
      && i + 4 <= len && 2 * i <= k < 2 * i + 8
      && (forall i' :: 0 <= i' < len && i' % 4 == 0 && 2 * i' <= k < 2 * i' + 8 ==> i' == i)
  {
    var g := k / 8;
    assert 8 * g <= k < 8 * g + 8;
    var q := len / 4;
    assert len == 4 * q;
    forall i' | 0 <= i' < len && i' % 4 == 0 && 2 * i' <= k < 2 * i' + 8
      ensures i' == g * 4
    {
      var g' := i' / 4;
      assert i' == 4 * g';
    }
  }

  /** Every pixel the remap writes is fully opaque: pixel p occupies bytes
      4p..4p+3 and its alpha byte is 255 */
  lemma ExpandOpaque(b: seq<uint8>, p: nat)
    requires |b| % 4 == 0 && p < |b| / 2
    ensures Expand(b)[4 * p + 3] == Alpha
  {
    var g := p / 2;
    assert 4 * p + 3 == 8 * g + 3 || 4 * p + 3 == 8 * g + 7;
    ExpandGroup(b, 4 * g);
  }

  /** The worked example: one group (0x10, 0x20, 0x30, 0x40) */
  lemma ExpandExample()
    ensures Expand([0x10, 0x20, 0x30, 0x40]) == [0x10, 0x20, 0x40, 0xFF, 0x30, 0x20, 0x40, 0xFF]
  {
  }

  /** get4bytes: the four bytes of a pixel pair, in positional order */
  function Get4Bytes(slice: array<uint8>): (r: (uint8, uint8, uint8, uint8))
    requires slice.Length == Yuv422PxPairSize
    reads slice
    ensures [r.0, r.1, r.2, r.3] == slice[..]
  {
    (slice[0], slice[1], slice[2], slice[3])
  }

  /** image.NewRGBA(image.Rect(0, 0, width, height)).Pix: 4 zero bytes per pixel */
  method NewRgbaPix(width: nat, height: nat) returns (pix: array<uint8>)
    ensures fresh(pix) && pix[..] == Zeros(4 * width * height)
  {
    pix := new uint8[4 * width * height](_ => 0);
  }

  /** The copy loop of the remap: the group at `i` into the scratch array */
  method LoadPair(bytes: seq<uint8>, i: nat, pair: array<uint8>)
    requires i + Yuv422PxPairSize <= |bytes| && pair.Length == Yuv422PxPairSize
    modifies pair
    ensures pair[..] == bytes[i..i + Yuv422PxPairSize]
  {
    var x := 0;
    while x < Yuv422PxPairSize
      invariant 0 <= x <= Yuv422PxPairSize
      invariant forall k :: 0 <= k < x ==> pair[k] == bytes[i + k]
    {
      pair[x] := bytes[i + x];
      x := x + 1;
    }
  }

  /** The store loop of the remap: `px2rgba` into pix[2i..2i+8], nothing else */
  method StorePair(px2rgba: array<uint8>, pix: array<uint8>, i: nat)
    requires px2rgba != pix && px2rgba.Length == 2 * Yuv422PxPairSize
    requires 2 * i + 2 * Yuv422PxPairSize <= pix.Length
    modifies pix
    ensures forall k :: 0 <= k < pix.Length ==>
      pix[k] == if 2 * i <= k < 2 * i + 8 then px2rgba[k - 2 * i] else old(pix[k])
  {
    var j := 0;
    while j < 2 * Yuv422PxPairSize
      invariant 0 <= j <= 2 * Yuv422PxPairSize
      invariant forall k :: 0 <= k < pix.Length ==>
        pix[k] == if 2 * i <= k < 2 * i + j then px2rgba[k - 2 * i] else old(pix[k])
    {
      pix[i * 2 + j] := px2rgba[j];
      j := j + 1;
    }
  }

  /** The remap loop of ConvertFrameToPng: fills pix in place, 8 output bytes per
      packed group, through the scratch arrays `yuv422pixelPair` and `px2rgba`.
      Bytes from 2*|bytes| on are left as they were. The Go loop indexes out of
      range unless the requires hold. */
  method FillPix(bytes: seq<uint8>, pix: array<uint8>)
    requires |bytes| % 4 == 0 && 2 * |bytes| <= pix.Length
    modifies pix
    ensures pix[..] == Expand(bytes) + old(pix[2 * |bytes|..])
  {
    ghost var e := Expand(bytes);
    var yuv422pixelPair := new uint8[Yuv422PxPairSize];
    var i := 0;
    while i < |bytes|
      invariant 0 <= i <= |bytes| && i % 4 == 0
      invariant forall k :: 0 <= k < 2 * i ==> pix[k] == e[k]
      invariant forall k :: 2 * i <= k < pix.Length ==> pix[k] == old(pix[k])
    {
      LoadPair(bytes, i, yuv422pixelPair);
      var (y1, cb, y2, cr) := Get4Bytes(yuv422pixelPair);
      var px2rgba := new uint8[2 * Yuv422PxPairSize] [y1, cb, cr, Alpha, y2, cb, cr, Alpha];
      assert px2rgba[..] == RgbaPair(bytes[i], bytes[i + 1], bytes[i + 2], bytes[i + 3]);
      ExpandGroup(bytes, i);
      StorePair(px2rgba, pix, i);
      i := i + 4;
    }
    assert pix[..] == e + old(pix[2 * |bytes|..]);
  }

  /** What ConvertFrameToPng leaves for the png encoder, or why it stopped */
  datatype Conversion =
    | ReadFailed(err: string)       // ioutil.ReadAll failed: nothing allocated or written
    | IndexOutOfRange               // the remap loop panics
    | Converted(pix: seq<uint8>)    // the RGBA buffer handed to the encoder

  /** ConvertFrameToPng up to the encoding step. `read` is what ioutil.ReadAll
      returned for the source. The buffer is sized by the target size alone,
      whatever the input length; a short input leaves a zero tail. */
  method ConvertFrameToPng(read: Result<seq<uint8>, string>, fc: FrameContainer) returns (r: Conversion)
    ensures read.Failure? ==> r == ReadFailed(read.error)
    ensures read.Success? ==>
      var b := read.value;
      var n := 4 * fc.imageSize444.width * fc.imageSize444.height;
      if |b| % 4 == 0 && 2 * |b| <= n
      then r.Converted? && |r.pix| == n && r.pix[..2 * |b|] == Expand(b)
           && forall k :: 2 * |b| <= k < n ==> r.pix[k] == 0
      else r == IndexOutOfRange
  {
    if read.Failure? {
      return ReadFailed(read.error);
    }
    var bytes := read.value;
    var img := NewRgbaPix(fc.imageSize444.width, fc.imageSize444.height);
    if |bytes| % 4 != 0 || 2 * |bytes| > img.Length {
      return IndexOutOfRange;
    }
    FillPix(bytes, img);
    r := Converted(img[..]);
  }

  /** A frame whose packed buffer holds exactly 4*w*h bytes for its 4:2:2 size
      (w, h), with w below 2^15 so the doubled width does not wrap, fills the
      whole (2w x h) RGBA buffer: the remap's preconditions hold and no zero
      tail is left. */
  lemma FullFrameFillsImage(b: seq<uint8>, size422: Size)
    requires size422.width < 0x8000 && |b| == 4 * size422.width * size422.height
    ensures var size444 := Size(Twice16(size422.width), size422.height);
      && size444.width == 2 * size422.width
      && |b| % 4 == 0
      && 2 * |b| == 4 * size444.width * size444.height
  {
    var w: int, h: int := size422.width, size422.height;
    var m := w * h;
    assert 4 * w * h == 4 * m;
    assert 4 * (2 * w) * h == 8 * m;
  }
}
