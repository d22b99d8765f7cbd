/**
 * The QBasic SCREEN 9 PUT-array decoder (`decode_put_array`).  The array
 * is a list of signed 32-bit words; their little-endian bytes hold a
 * header (width - 1 and height - 1, 16 bits each) and then, row by row,
 * four bitplanes of ceil(width / 8) bytes, most significant bit first.
 * A pixel is the EGA colour whose bit p is the pixel's bit in plane p.
 */
module Sprite {
  import opened Wrappers

  const Word: int := 0x1_0000_0000

  newtype byte = x: int | 0 <= x < 256

  /** Byte k of u, counting from the least significant: u shifted right by 8k bits, masked to 8 bits. */
  function ByteAt(u: int, k: nat): (b: int)
    ensures 0 <= b < 256
    decreases k
  {
    if k == 0 then u % 256 else ByteAt(u / 256, k - 1)
  }

  /** Byte k (0 = lowest) of the two's-complement form of w, as Python's `x & 0xFFFFFFFF` and shifts give it. */
  function WordByte(w: int, k: nat): byte
    requires k < 4
  {
    ByteAt(w % Word, k) as byte
  }

  /** The little-endian byte string of a list of words. */
  function ByteData(data: seq<int>): (bytes: seq<byte>)
    ensures |bytes| == 4 * |data|
  {
    seq(4 * |data|, i requires 0 <= i < 4 * |data| => WordByte(data[i / 4], i % 4))
  }

  /** The unsigned little-endian 16-bit value at byte offset o. */
  function U16(bytes: seq<byte>, o: nat): nat
    requires o + 2 <= |bytes|
  {
    bytes[o] as nat + 256 * bytes[o + 1] as nat
  }

  /** The ceil(width / 8) bytes of one row of one plane. */
  function BytesPerLine(width: nat): nat { (width + 7) / 8 }

  /** `b & (1 << k)` is not zero. */
  predicate BitSet(b: byte, k: nat)
    requires k < 8
  {
    (b as bv8) & ((1 as bv8) << k) != 0
  }

  /** Whether the bit of column x is set in the plane row that starts at offset off; a byte past the data reads as 0. */
  predicate PlaneBit(pix: seq<byte>, off: nat, x: nat) {
    off + x / 8 < |pix| && BitSet(pix[off + x / 8], 7 - x % 8)
  }

  /** The offset of the row of plane p for image row y. */
  function PlaneOffset(bpl: nat, y: nat, p: nat): nat { y * bpl * 4 + p * bpl }

  /** The pixel at (x, y) with only the planes below q merged in. */
  function PixelUpTo(pix: seq<byte>, bpl: nat, y: nat, x: nat, q: nat): (v: bv8)
    requires q <= 4
  {
    if q == 0 then 0
    else Merge(PixelUpTo(pix, bpl, y, x, q - 1), q - 1, PlaneBit(pix, PlaneOffset(bpl, y, q - 1), x))
  }

  /** `v | (1 << p)` when the plane's bit is set, v otherwise. */
  function Merge(v: bv8, p: nat, on: bool): bv8
    requires p < 8
  {
    if on then v | ((1 as bv8) << p) else v
  }

  /** The colour of the pixel at column x of row y. */
  function Pixel(pix: seq<byte>, bpl: nat, y: nat, x: nat): bv8 {
    PixelUpTo(pix, bpl, y, x, 4)
  }

  // ---------------------------------------------------------------------
  // Lemmas

  function Pow256(n: nat): nat { if n == 0 then 1 else 256 * Pow256(n - 1) }

  /** Adding a multiple of 256^n leaves the bytes below n alone. */
  lemma {:induction false} BytesBelow(x: int, c: int, n: nat, k: nat)
    requires k < n
    ensures ByteAt(x + Pow256(n) * c, k) == ByteAt(x, k)
    decreases k
  {
    var t := Pow256(n - 1) * c;
    assert Pow256(n) * c == 256 * t;
    if k > 0 {
      assert (x + 256 * t) / 256 == x / 256 + t;
      BytesBelow(x / 256, c, n - 1, k - 1);
    }
  }

  /** The four bytes of a number are those of its value modulo 2^32. */
  lemma Low32(x: int, k: nat)
    requires k < 4
    ensures ByteAt(x, k) == ByteAt(x % Word, k)
  {
    assert Pow256(4) == Word;
    BytesBelow(x % Word, x / Word, 4, k);
  }

  /** The four bytes of a word are its value modulo 2^32, least significant first. */
  lemma WordBytesRoundTrip(w: int)
    ensures WordByte(w, 0) as int + 0x100 * WordByte(w, 1) as int
      + 0x1_0000 * WordByte(w, 2) as int + 0x100_0000 * WordByte(w, 3) as int == w % Word
  {
    var u := w % Word;
    var q1 := u / 256;
    var q2 := q1 / 256;
    var q3 := q2 / 256;
    var b0, b1, b2, b3 := u % 256, q1 % 256, q2 % 256, q3 % 256;
    assert ByteAt(u, 1) == b1 by { assert ByteAt(u, 1) == ByteAt(q1, 0); }
    assert ByteAt(u, 2) == b2 by { assert ByteAt(u, 2) == ByteAt(q1, 1) == ByteAt(q2, 0); }
    assert ByteAt(u, 3) == b3 by { assert ByteAt(u, 3) == ByteAt(q1, 2) == ByteAt(q2, 1) == ByteAt(q3, 0); }
    assert u == b0 + 256 * q1;
    assert q1 == b1 + 256 * q2;
    assert q2 == b2 + 256 * q3;
    assert q3 < 256;
    assert q3 == b3;
  }

  /** The two 16-bit header fields of a word: its low half and its high half. */
  lemma WordHalves(w: int)
    ensures WordByte(w, 0) as int + 0x100 * WordByte(w, 1) as int == (w % Word) % 0x1_0000
    ensures WordByte(w, 2) as int + 0x100 * WordByte(w, 3) as int == (w % Word) / 0x1_0000
  {
    WordBytesRoundTrip(w);
    var lo := WordByte(w, 0) as int + 0x100 * WordByte(w, 1) as int;
    var hi := WordByte(w, 2) as int + 0x100 * WordByte(w, 3) as int;
    assert w % Word == lo + 0x1_0000 * hi;
    assert 0 <= lo < 0x1_0000;
  }

  /** Only the planes merged so far can be set: the partial pixel is below 2^q. */
  lemma {:induction false} PixelUpToBound(pix: seq<byte>, bpl: nat, y: nat, x: nat, q: nat)
    requires q <= 4
    ensures PixelUpTo(pix, bpl, y, x, q) < (1 as bv8) << q
  {
    if q > 0 {
      PixelUpToBound(pix, bpl, y, x, q - 1);
    }
  }

  /** Every pixel is one of the 16 EGA colours. */
  lemma PixelIsColour(pix: seq<byte>, bpl: nat, y: nat, x: nat)
    ensures Pixel(pix, bpl, y, x) < 16
  {
    PixelUpToBound(pix, bpl, y, x, 4);
  }

  /** Bit p of a pixel is exactly the pixel's bit in plane p. */
  lemma {:induction false} PixelPlanes(pix: seq<byte>, bpl: nat, y: nat, x: nat, q: nat, p: nat)
    requires p < q <= 4
    ensures (PixelUpTo(pix, bpl, y, x, q) >> p) & 1 == 1 <==> PlaneBit(pix, PlaneOffset(bpl, y, p), x)
  {
    PixelUpToBound(pix, bpl, y, x, q - 1);
    if p < q - 1 {
      PixelPlanes(pix, bpl, y, x, q - 1, p);
    }
  }

  /** A row whose planes all start past the data is blank. */
  lemma {:induction false} PastDataBlank(pix: seq<byte>, bpl: nat, y: nat, x: nat, q: nat)
    requires q <= 4 && |pix| <= y * bpl * 4
    ensures PixelUpTo(pix, bpl, y, x, q) == 0
  {
    if q > 0 {
      PastDataBlank(pix, bpl, y, x, q - 1);
    }
  }

  // ---------------------------------------------------------------------
  // The decoder as the source runs it

  /** The bytes of one more word follow the bytes of the words before it. */
  lemma ByteDataSnoc(data: seq<int>, w: int)
    ensures ByteData(data + [w]) == ByteData(data) + [WordByte(w, 0), WordByte(w, 1), WordByte(w, 2), WordByte(w, 3)]
  {
    var l := ByteData(data + [w]);
    var r := ByteData(data) + [WordByte(w, 0), WordByte(w, 1), WordByte(w, 2), WordByte(w, 3)];
    forall i | 0 <= i < |l|
      ensures l[i] == r[i]
    {
      if i < 4 * |data| {
        assert (data + [w])[i / 4] == data[i / 4];
      } else {
        assert i / 4 == |data|;
      }
    }
  }

  /** The byte list: four little-endian bytes per word. */
  method WordsToBytes(data: seq<int>) returns (bytes: seq<byte>)
    ensures bytes == ByteData(data)
  {
    bytes := [];
    var n := 0;
    while n < |data|
      invariant 0 <= n <= |data| && bytes == ByteData(data[..n])
    {
      var x := data[n];
      if x < 0 {
        x := x % Word;
      }
      FourBytes(x, data[n]);
      ByteDataSnoc(data[..n], data[n]);
      assert data[..n + 1] == data[..n] + [data[n]];
      bytes := bytes + [(x % 256) as byte, ((x / 256) % 256) as byte,
                        ((x / 256 / 256) % 256) as byte, ((x / 256 / 256 / 256) % 256) as byte];
      n := n + 1;
    }
    assert data[..n] == data;
  }

  /** The bytes the loop extracts from x are those of the word w when x and w agree modulo 2^32. */
  lemma FourBytes(x: int, w: int)
    requires x % Word == w % Word
    ensures (x % 256) as byte == WordByte(w, 0)
    ensures ((x / 256) % 256) as byte == WordByte(w, 1)
    ensures ((x / 256 / 256) % 256) as byte == WordByte(w, 2)
    ensures ((x / 256 / 256 / 256) % 256) as byte == WordByte(w, 3)
  {
    Low32(x, 0);
    Low32(x, 1);
    Low32(x, 2);
    Low32(x, 3);
    assert ByteAt(x, 1) == ByteAt(x / 256, 0);
    assert ByteAt(x, 2) == ByteAt(x / 256, 1) == ByteAt(x / 256 / 256, 0);
    assert ByteAt(x, 3) == ByteAt(x / 256, 2) == ByteAt(x / 256 / 256, 1) == ByteAt(x / 256 / 256 / 256, 0);
  }

  /** Columns lo .. hi - 1 of row y hold the pixels with the planes below q merged in. */
  ghost predicate RowUpTo(image: array2<bv8>, pix: seq<byte>, bpl: nat, y: nat, q: nat, lo: nat, hi: nat)
    requires y < image.Length0 && q <= 4 && hi <= image.Length1
    reads image
  {
    forall x :: lo <= x < hi ==> image[y, x] == PixelUpTo(pix, bpl, y, x, q)
  }

  /** ORs the bit of plane p into every pixel of row y. */
  method MergePlane(image: array2<bv8>, pix: seq<byte>, bpl: nat, y: nat, p: nat)
    requires y < image.Length0 && p < 4
    requires forall x :: 0 <= x < image.Length1 ==> image[y, x] == PixelUpTo(pix, bpl, y, x, p)
    modifies image
    ensures forall x :: 0 <= x < image.Length1 ==> image[y, x] == PixelUpTo(pix, bpl, y, x, p + 1)
    ensures forall y', x :: 0 <= y' < image.Length0 && y' != y && 0 <= x < image.Length1 ==>
      image[y', x] == old(image[y', x])
  {
    var offset := y * bpl * 4 + p * bpl;
    assert offset == PlaneOffset(bpl, y, p);
    var x := 0;
    while x < image.Length1
      invariant 0 <= x <= image.Length1
      invariant RowUpTo(image, pix, bpl, y, p + 1, 0, x) && RowUpTo(image, pix, bpl, y, p, x, image.Length1)
      invariant forall y', x' :: 0 <= y' < image.Length0 && y' != y && 0 <= x' < image.Length1 ==>
        image[y', x'] == old(image[y', x'])
    {
      var byteIdx := x / 8;
      var bitIdx := 7 - x % 8;
      var pixel := image[y, x];
      if offset + byteIdx < |pix| {
        var byteVal := pix[offset + byteIdx];
        if BitSet(byteVal, bitIdx) {
          pixel := pixel | ((1 as bv8) << p);
        }
      }
      assert pixel == PixelUpTo(pix, bpl, y, x, p + 1);
      label Before:
      image[y, x] := pixel;
      forall x' | 0 <= x' < image.Length1 && x' != x
        ensures image[y, x'] == old@Before(image[y, x'])
      {
      }
      x := x + 1;
    }
  }

  /** The four planes of row y, merged in turn into a blank row. */
  method DecodeRow(image: array2<bv8>, pix: seq<byte>, bpl: nat, y: nat)
    requires y < image.Length0
    requires forall x :: 0 <= x < image.Length1 ==> image[y, x] == 0
    modifies image
    ensures forall x :: 0 <= x < image.Length1 ==> image[y, x] == Pixel(pix, bpl, y, x)
    ensures forall y', x :: 0 <= y' < image.Length0 && y' != y && 0 <= x < image.Length1 ==>
      image[y', x] == old(image[y', x])
  {
    var plane := 0;
    while plane < 4
      invariant 0 <= plane <= 4
      invariant forall x :: 0 <= x < image.Length1 ==> image[y, x] == PixelUpTo(pix, bpl, y, x, plane)
      invariant forall y', x :: 0 <= y' < image.Length0 && y' != y && 0 <= x < image.Length1 ==>
        image[y', x] == old(image[y', x])
    {
      MergePlane(image, pix, bpl, y, plane);
      plane := plane + 1;
    }
  }

  /**
   * decode_put_array: the image as rows of colours, `image[y, x]` being
   * the pixel at column x of row y; None when the array is empty, where
   * reading the header raises.
   */
  method DecodePutArray(data: seq<int>) returns (image: Option<array2<bv8>>)
    ensures image.None? <==> |data| == 0
    ensures image.Some? ==> fresh(image.value)
    ensures image.Some? ==>
      image.value.Length0 == (data[0] % Word) / 0x1_0000 + 1 &&
      image.value.Length1 == (data[0] % Word) % 0x1_0000 + 1
    ensures image.Some? ==> forall y, x :: 0 <= y < image.value.Length0 && 0 <= x < image.value.Length1 ==>
      image.value[y, x] == Pixel(ByteData(data)[4..], BytesPerLine(image.value.Length1), y, x)
  {
    var byteData := WordsToBytes(data);
    if |byteData| < 4 {
      return None;
    }
    WordHalves(data[0]);
    var width := U16(byteData, 0) + 1;
    var height := U16(byteData, 2) + 1;
    var pixelData := byteData[4..];
    var img := new bv8[height, width]((y, x) => 0);
    var bpl := (width + 7) / 8;
    var y := 0;
    while y < height
      invariant 0 <= y <= height
      invariant forall y', x :: 0 <= y' < y && 0 <= x < width ==> img[y', x] == Pixel(pixelData, bpl, y', x)
      invariant forall y', x :: y <= y' < height && 0 <= x < width ==> img[y', x] == 0
    {
      DecodeRow(img, pixelData, bpl, y);
      y := y + 1;
    }
    image := Some(img);
  }
}
