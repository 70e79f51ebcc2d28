/** Barcodes as grids of modules, scaled up, centred and packed for the paper. */
module Symbology {
  import opened Bits

  function Max(a: nat, b: nat): nat {
    if a < b then b else a
  }

  /** The white left of an image on wider paper. */
  function Side(paper: nat, width: nat): nat {
    if paper <= width then 0 else (paper - width) / 2
  }

  /** Where a module is kept, row by row. */
  function Cell(width: nat, x: nat, y: nat): nat {
    y * width + x
  }

  /** Modules in rows, each dark or light. */
  class BitMatrix {
    const width: nat
    const height: nat
    const bits: array<bool>

    predicate Valid()
      reads this
    {
      bits.Length == height * width
    }

    constructor (width: nat, height: nat)
      ensures Valid() && fresh(bits) && this.width == width && this.height == height
      ensures forall x: nat, y: nat :: !Get(x, y)
    {
      this.width, this.height := width, height;
      bits := new bool[height * width](_ => false);
    }

    predicate Get(x: nat, y: nat)
      reads this, bits
    {
      x < width && y < height && Cell(width, x, y) < bits.Length && bits[Cell(width, x, y)]
    }

    predicate Is1D()
      reads this
    {
      height == 1
    }

    method Set(x: nat, y: nat, on: bool)
      requires Valid()
      modifies bits
      ensures forall x': nat, y': nat ::
                Get(x', y') == if x' == x && y' == y && x < width && y < height then on else old(Get(x', y'))
    {
      if x < width && y < height {
        CellFits(width, height, x, y);
        forall x': nat, y': nat | x' < width && y' < height
          ensures Cell(width, x', y') == Cell(width, x, y) <==> x' == x && y' == y
        {
          OneCellEach(width, x, y, x', y');
        }
        bits[Cell(width, x, y)] := on;
      }
    }

    /** Every module becomes `scale` by `scale` dots, a single row becomes bars
        `barHeight` high, and white is left all round. */
    method Scaled(scale: nat, barHeight: nat, quiet: nat) returns (out: BitMatrix)
      requires Valid()
      ensures fresh(out) && fresh(out.bits) && out.Valid()
      ensures out.width == (width + 2 * quiet) * Max(scale, 1)
      ensures out.height == DotRows(scale, barHeight) + 2 * quiet * Max(scale, 1)
      ensures var s := Max(scale, 1);
              forall x: nat, y: nat ::
                out.Get(x, y) <==> ScaledDot(s, width * s, DotRows(s, barHeight), quiet * s, x, y)
    {
      var s := Max(scale, 1);
      var rows := if height == 1 then Max(barHeight, 1) else height * s;
      Margins(width, quiet, s);
      out := new BitMatrix((width + 2 * quiet) * s, rows + 2 * quiet * s);
      FillScaled(out, s, width * s, rows, quiet * s);
    }

    method FillScaled(out: BitMatrix, s: nat, columns: nat, rows: nat, margin: nat)
      requires Valid() && out.Valid() && out.bits != bits && s > 0
      requires out.width == columns + 2 * margin && out.height == rows + 2 * margin
      requires forall x: nat, y: nat :: !out.Get(x, y)
      modifies out.bits
      ensures forall x: nat, y: nat :: out.Get(x, y) <==> ScaledDot(s, columns, rows, margin, x, y)
    {
      for y := 0 to rows
        invariant forall x': nat, y': nat ::
          out.Get(x', y') <==> ScaledDot(s, columns, rows, margin, x', y') && y' < margin + y
      {
        var srcY := if height == 1 then 0 else y / s;
        for x := 0 to columns
          invariant forall x': nat, y': nat ::
            out.Get(x', y') <==>
            ScaledDot(s, columns, rows, margin, x', y') && (y' < margin + y || (y' == margin + y && x' < margin + x))
        {
          assert ScaledDot(s, columns, rows, margin, x + margin, y + margin) <==> Get(x / s, srcY);
          if Get(x / s, srcY) {
            out.Set(x + margin, y + margin, true);
          }
        }
      }
    }

    /** How many rows of dots the modules take, the white apart. */
    function DotRows(scale: nat, barHeight: nat): nat
      reads this
    {
      if Is1D() then Max(barHeight, 1) else height * Max(scale, 1)
    }

    /** Whether a dot of the scaled grid is black: `columns` by `rows` dots with
        `margin` dots of white around them, each showing its module. */
    predicate ScaledDot(s: nat, columns: nat, rows: nat, margin: nat, x: nat, y: nat)
      requires s > 0
      reads this, bits
    {
      margin <= x < margin + columns && margin <= y < margin + rows
      && Get((x - margin) / s, if height == 1 then 0 else (y - margin) / s)
    }

    /** Every dot of the block a module became is black exactly when the module is. */
    lemma DotShowsModule(s: nat, barHeight: nat, margin: nat, i: nat, j: nat, dx: nat, dy: nat)
      requires s > 0 && i < width && j < height && dx < s && dy < if height == 1 then Max(barHeight, 1) else s
      ensures ScaledDot(s, width * s, DotRows(s, barHeight), margin, margin + (i * s + dx), margin + (j * s + dy))
         <==> Get(i, j)
    {
      InBlock(width, s, i, dx);
      if height > 1 {
        InBlock(height, s, j, dy);
      } else {
        assert j * s == 0;
      }
    }

    /** The image shifted right so that it sits in the middle. */
    method CenteredIn(totalWidth: nat) returns (out: BitMatrix)
      requires Valid()
      ensures fresh(out) && fresh(out.bits) && out.Valid()
      ensures out.width == Max(width, totalWidth) && out.height == height
      ensures forall x: nat, y: nat :: out.Get(x, y) <==> Pad(totalWidth) <= x && Get(x - Pad(totalWidth), y)
    {
      var pad := Pad(totalWidth);
      out := new BitMatrix(Max(width, totalWidth), height);
      for y := 0 to height
        invariant fresh(out) && fresh(out.bits) && out.Valid()
        invariant forall x': nat, y': nat :: out.Get(x', y') <==> pad <= x' && Get(x' - pad, y') && y' < y
      {
        for x := 0 to width
          invariant fresh(out) && fresh(out.bits) && out.Valid()
          invariant forall x': nat, y': nat ::
            out.Get(x', y') <==> pad <= x' && Get(x' - pad, y') && (y' < y || (y' == y && x' < pad + x))
        {
          if Get(x, y) {
            out.Set(x + pad, y, true);
          }
        }
      }
    }

    function Pad(totalWidth: nat): nat
      reads this
    {
      Side(totalWidth, width)
    }

    /** A barcode as packed rows: scaled, then centred on the paper. */
    method Packed(scale: nat, barHeight: nat, quiet: nat, paper: nat) returns (packed: seq<seq<Byte>>)
      requires Valid()
      ensures var s := Max(scale, 1);
              |packed| == DotRows(s, barHeight) + 2 * quiet * s
              && forall x: nat, y: nat :: x < paper ==> (PackedDot(packed, x, y) <==> CodeDot(s, barHeight, quiet, paper, x, y))
    {
      var scaled := Scaled(scale, barHeight, quiet);
      var img := scaled.CenteredIn(paper);
      var bytesPerRow, rows := img.PackedRows(paper);
      packed := rows;
      forall x: nat, y: nat | x < paper ensures PackedDot(packed, x, y) <==> img.Get(x, y) {
      }
    }

    /** Whether a dot of a barcode, scaled and centred on paper, is black. */
    predicate CodeDot(s: nat, barHeight: nat, quiet: nat, paper: nat, x: nat, y: nat)
      requires s > 0
      reads this, bits
    {
      var pad := Side(paper, (width + 2 * quiet) * s);
      pad <= x && ScaledDot(s, width * s, DotRows(s, barHeight), quiet * s, x - pad, y)
    }

    /** Rows packed into bytes, as wide as the paper or the grid. */
    method PackedRows(totalWidth: nat) returns (bytesPerRow: nat, packed: seq<seq<Byte>>)
      requires Valid()
      ensures bytesPerRow == (Max(totalWidth, width) + 7) / 8 && |packed| == height
      ensures forall y :: 0 <= y < |packed| ==> |packed[y]| == bytesPerRow
      ensures forall x: nat, y: nat :: y < height && x / 8 < bytesPerRow ==> (BitSet(packed[y][x / 8], x % 8) <==> Get(x, y))
    {
      bytesPerRow := (Max(totalWidth, width) + 7) / 8;
      packed := [];
      for y := 0 to height
        invariant |packed| == y
        invariant forall y' :: 0 <= y' < y ==> |packed[y']| == bytesPerRow
        invariant forall x: nat, y': nat ::
          y' < y && x / 8 < bytesPerRow ==> (BitSet(packed[y'][x / 8], x % 8) <==> Get(x, y'))
      {
        var row := PackedRow(y, bytesPerRow);
        packed := packed + [row];
      }
    }

    method PackedRow(y: nat, bytesPerRow: nat) returns (row: seq<Byte>)
      requires y < height && width <= bytesPerRow * 8
      ensures |row| == bytesPerRow
      ensures forall x: nat :: x / 8 < bytesPerRow ==> (BitSet(row[x / 8], x % 8) <==> Get(x, y))
    {
      row := seq(bytesPerRow, _ => 0);
      forall x: nat ensures !BitSet(0, x % 8) {
        ZeroIsClear(x % 8);
      }
      for x := 0 to width
        invariant |row| == bytesPerRow
        invariant forall x': nat :: x' / 8 < bytesPerRow ==> (BitSet(row[x' / 8], x' % 8) <==> x' < x && Get(x', y))
      {
        if Get(x, y) {
          forall x': nat | x' / 8 == x / 8
            ensures BitSet(row[x / 8] | Mask(x % 8), x' % 8) <==> BitSet(row[x / 8], x' % 8) || x' == x
          {
            SetsOne(row[x / 8], x % 8, x' % 8);
          }
          row := row[x / 8 := row[x / 8] | Mask(x % 8)];
        }
      }
    }
  }

  lemma CellFits(width: nat, height: nat, x: nat, y: nat)
    requires x < width && y < height
    ensures Cell(width, x, y) < height * width
  {
    RowsApart(width, y, height);
  }

  lemma OneCellEach(width: nat, x: nat, y: nat, x': nat, y': nat)
    requires x < width && x' < width
    ensures Cell(width, x', y') == Cell(width, x, y) <==> x' == x && y' == y
  {
    if y < y' {
      RowsApart(width, y, y');
    } else if y' < y {
      RowsApart(width, y', y);
    }
  }

  lemma Margins(width: nat, quiet: nat, s: nat)
    ensures (width + 2 * quiet) * s == width * s + 2 * (quiet * s)
    ensures 2 * quiet * s == 2 * (quiet * s)
  {
  }

  lemma InBlock(n: nat, s: nat, i: nat, d: nat)
    requires d < s && i < n
    ensures i * s + d < n * s && (i * s + d) / s == i
  {
    RowsApart(s, i, n);
    var q := (i * s + d) / s;
    assert i * s + d == q * s + (i * s + d) % s;
    if q < i {
      RowsApart(s, q, i);
    } else if i < q {
      RowsApart(s, i, q);
    }
  }
}
