/** Dots packed eight to a byte, the first in the highest bit. */
module Bits {
  type Byte = bv8

  /** 0x80 shifted right by `k`. */
  function Mask(k: nat): Byte
    requires k < 8
  {
    if k == 0 then 0x80 else if k == 1 then 0x40 else if k == 2 then 0x20 else if k == 3 then 0x10
    else if k == 4 then 0x08 else if k == 5 then 0x04 else if k == 6 then 0x02 else 0x01
  }

  predicate BitSet(b: Byte, k: nat)
    requires k < 8
  {
    b & Mask(k) != 0
  }

  lemma SetsOne(b: Byte, k: nat, j: nat)
    requires k < 8 && j < 8
    ensures BitSet(b | Mask(k), j) <==> BitSet(b, j) || j == k
  {
  }

  lemma ZeroIsClear(j: nat)
    requires j < 8
    ensures !BitSet(0, j)
  {
  }

  /** Whether dot `x` of row `y` is set, in rows of `stride` bytes. */
  predicate DotSet(bytes: seq<Byte>, stride: nat, x: nat, y: nat) {
    var i := y * stride + x / 8;
    i < |bytes| && BitSet(bytes[i], x % 8)
  }

  /** Whether packed rows have a dot set. */
  predicate PackedDot(packed: seq<seq<Byte>>, x: nat, y: nat) {
    y < |packed| && x / 8 < |packed[y]| && BitSet(packed[y][x / 8], x % 8)
  }

  /** No two dots that lie within their rows share a bit. */
  lemma OneBitEach(stride: nat, x: nat, y: nat, x': nat, y': nat)
    requires x / 8 < stride && x' / 8 < stride
    ensures y * stride + x / 8 == y' * stride + x' / 8 && x % 8 == x' % 8 <==> x == x' && y == y'
  {
    if y < y' {
      RowsApart(stride, y, y');
    } else if y' < y {
      RowsApart(stride, y', y);
    }
  }

  lemma RowsApart(stride: nat, y: nat, y': nat)
    requires y < y'
    ensures y * stride + stride <= y' * stride
  {
    assert (y' - y - 1) * stride >= 0;
    assert y' * stride == y * stride + stride + (y' - y - 1) * stride;
  }

  /** Setting the bit of one dot sets that dot and no other. */
  lemma SetDot(bytes: seq<Byte>, stride: nat, x: nat, y: nat, x': nat, y': nat)
    requires x / 8 < stride && x' / 8 < stride && y * stride + x / 8 < |bytes|
    ensures var i := y * stride + x / 8;
            DotSet(bytes[i := bytes[i] | Mask(x % 8)], stride, x', y')
            <==> DotSet(bytes, stride, x', y') || (x == x' && y == y')
  {
    OneBitEach(stride, x, y, x', y');
    SetsOne(bytes[y * stride + x / 8], x % 8, x' % 8);
  }

  /** Blank rows added below set no dot. */
  lemma BlankBelow(bytes: seq<Byte>, blank: seq<Byte>, stride: nat, x: nat, y: nat)
    requires forall i :: 0 <= i < |blank| ==> blank[i] == 0
    ensures DotSet(bytes + blank, stride, x, y) <==> DotSet(bytes, stride, x, y)
  {
    ZeroIsClear(x % 8);
  }

  lemma ExactRows(height: nat, stride: nat)
    requires stride > 0
    ensures height * stride / stride == height
  {
    var q := height * stride / stride;
    assert height * stride == q * stride + height * stride % stride;
    if q < height {
      RowsApart(stride, q, height);
    } else if height < q {
      RowsApart(stride, height, q);
    }
  }

  /** A row fits in the bytes it is given. */
  lemma RowFits(height: nat, stride: nat, x: nat, y: nat)
    requires x / 8 < stride && y < height
    ensures y * stride + x / 8 < height * stride
  {
    RowsApart(stride, y, height);
  }

  lemma RowIsPast(height: nat, stride: nat, x: nat, y: nat)
    requires height <= y
    ensures height * stride <= y * stride + x / 8
  {
    assert (y - height) * stride >= 0;
  }
}
