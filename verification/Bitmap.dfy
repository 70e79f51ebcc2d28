/** Monochrome images whose rows are packed, eight dots to the byte, and the
    quarter turns that fit them to the paper. */
module Bitmap {
  import opened Bits
  import S = Symbology

  datatype Rotation = Upright | Cw90 | Cw180 | Cw270

  /** An image as its size and its black dots, columns from the left and rows
      from the top. */
  datatype Image = Image(width: nat, height: nat, black: set<(nat, nat)>)

  predicate Within(img: Image) {
    (img.width == 0 ==> img.height == 0) && forall p :: p in img.black ==> p.0 < img.width && p.1 < img.height
  }

  predicate SwapsSides(r: Rotation) {
    r == Cw90 || r == Cw270
  }

  /** One turn after another, as one turn. */
  function Sum(a: Rotation, b: Rotation): Rotation {
    var q := Quarters(a) + Quarters(b);
    if q == 0 || q == 4 then Upright
    else if q == 1 || q == 5 then Cw90
    else if q == 2 || q == 6 then Cw180
    else Cw270
  }

  function Quarters(r: Rotation): nat {
    match r
    case Upright => 0
    case Cw90 => 1
    case Cw180 => 2
    case Cw270 => 3
  }

  /** Where a dot of a `w` by `h` image goes. */
  function Place(r: Rotation, w: nat, h: nat, p: (nat, nat)): (nat, nat)
    requires p.0 < w && p.1 < h
  {
    match r
    case Upright => p
    case Cw90 => (h - 1 - p.1, p.0)
    case Cw180 => (w - 1 - p.0, h - 1 - p.1)
    case Cw270 => (p.1, w - 1 - p.0)
  }

  /** Whether a place is on the turned image. */
  predicate On(r: Rotation, w: nat, h: nat, q: (nat, nat)) {
    if SwapsSides(r) then q.0 < h && q.1 < w else q.0 < w && q.1 < h
  }

  /** Where the dot at a place of the turned image comes from. */
  function Source(r: Rotation, w: nat, h: nat, q: (nat, nat)): (nat, nat)
    requires On(r, w, h, q)
  {
    match r
    case Upright => q
    case Cw90 => (q.1, h - 1 - q.0)
    case Cw180 => (w - 1 - q.0, h - 1 - q.1)
    case Cw270 => (w - 1 - q.1, q.0)
  }

  /** A turned image. One that would be nothing wide has no rows either. */
  function Turned(img: Image, r: Rotation): (turned: Image)
    requires Within(img)
    ensures Within(turned)
  {
    var (w, h) := if SwapsSides(r) then (img.height, img.width) else (img.width, img.height);
    Image(w, if w == 0 then 0 else h, set p | p in img.black :: Place(r, img.width, img.height, p))
  }

  lemma PlaceAndSource(r: Rotation, w: nat, h: nat, p: (nat, nat))
    requires p.0 < w && p.1 < h
    ensures var q := Place(r, w, h, p);
            On(r, w, h, q) && Source(r, w, h, q) == p
  {
  }

  /** Which dots of the turned image are black, asked of the image. */
  lemma TurnedDot(img: Image, r: Rotation, q: (nat, nat))
    requires Within(img)
    ensures q in Turned(img, r).black <==>
            q.0 < Turned(img, r).width && q.1 < Turned(img, r).height
            && Source(r, img.width, img.height, q) in img.black
  {
    if q.0 < Turned(img, r).width && q.1 < Turned(img, r).height {
      var p := Source(r, img.width, img.height, q);
      assert Place(r, img.width, img.height, p) == q;
    }
  }

  /** Whether two turns are their sum. An image with columns but no rows loses
      its width in a quarter turn, so there two quarter turns are not. */
  predicate Adds(img: Image, a: Rotation, b: Rotation) {
    img.height > 0 || img.width == 0 || !SwapsSides(a) || !SwapsSides(b)
  }

  lemma TurnsAdd(img: Image, a: Rotation, b: Rotation)
    requires Within(img)
    ensures Turned(Turned(img, a), b) == Turned(img, Sum(a, b)) <==> Adds(img, a, b)
  {
    var once := Turned(img, a);
    var twice, sum := Turned(once, b), Turned(img, Sum(a, b));
    if Adds(img, a, b) {
      forall q ensures q in twice.black <==> q in sum.black {
        SameDot(img, a, b, q);
      }
    }
  }

  lemma SourcesAdd(a: Rotation, b: Rotation, w: nat, h: nat, q: (nat, nat))
    requires On(Sum(a, b), w, h, q)
    ensures var (w', h') := if SwapsSides(a) then (h, w) else (w, h);
            On(b, w', h', q) && On(a, w, h, Source(b, w', h', q))
            && Source(a, w, h, Source(b, w', h', q)) == Source(Sum(a, b), w, h, q)
  {
  }

  lemma SidesAdd(img: Image, a: Rotation, b: Rotation)
    requires Within(img) && Adds(img, a, b)
    ensures var twice, sum := Turned(Turned(img, a), b), Turned(img, Sum(a, b));
            twice.width == sum.width && twice.height == sum.height
  {
  }

  lemma SameDot(img: Image, a: Rotation, b: Rotation, q: (nat, nat))
    requires Within(img) && Adds(img, a, b)
    ensures q in Turned(Turned(img, a), b).black <==> q in Turned(img, Sum(a, b)).black
  {
    var once := Turned(img, a);
    TurnedDot(once, b, q);
    TurnedDot(img, Sum(a, b), q);
    SidesAdd(img, a, b);
    if q.0 < Turned(once, b).width && q.1 < Turned(once, b).height {
      SourcesAdd(a, b, img.width, img.height, q);
      TurnedDot(img, a, Source(b, once.width, once.height, q));
    }
  }

  /** An image comes back after four quarter turns exactly if it has rows, or no
      columns either. */
  lemma FourQuarterTurns(img: Image)
    requires Within(img)
    ensures Turned(Turned(Turned(Turned(img, Cw90), Cw90), Cw90), Cw90) == img <==> img.height > 0 || img.width == 0
  {
    if img.height > 0 || img.width == 0 {
      TurnsBack(img);
    }
  }

  /** Eight columns and no rows: the width is gone after the first turn. */
  lemma WidthIsLost()
    ensures Turned(Image(8, 0, {}), Cw90) == Image(0, 0, {})
    ensures Turned(Turned(Image(8, 0, {}), Cw90), Cw90) != Turned(Image(8, 0, {}), Cw180)
  {
    assert Turned(Image(8, 0, {}), Cw90).black == {};
  }

  lemma TurnsBack(img: Image)
    requires Within(img) && (img.height > 0 || img.width == 0)
    ensures Turned(Turned(Turned(Turned(img, Cw90), Cw90), Cw90), Cw90) == img
  {
    TurnsAdd(img, Cw90, Cw90);
    TurnsAdd(img, Cw180, Cw90);
    TurnsAdd(img, Cw270, Cw90);
    assert Turned(img, Upright).black == img.black;
  }

  lemma TurnedWithout(img: Image, r: Rotation, p: (nat, nat))
    requires Within(img) && p in img.black
    ensures var rest, q := img.(black := img.black - {p}), Place(r, img.width, img.height, p);
            q !in Turned(rest, r).black && Turned(img, r).black == Turned(rest, r).black + {q}
  {
    var rest, q := img.(black := img.black - {p}), Place(r, img.width, img.height, p);
    PlaceAndSource(r, img.width, img.height, p);
    TurnedDot(rest, r, q);
    forall x ensures x in Turned(img, r).black <==> x in Turned(rest, r).black || x == q {
      TurnedDot(img, r, x);
      TurnedDot(rest, r, x);
      if On(r, img.width, img.height, x) {
        SourceAndPlace(r, img.width, img.height, x);
      }
    }
  }

  /** Turning keeps the number of black dots. */
  lemma {:induction false} TurnKeepsCount(img: Image, r: Rotation)
    requires Within(img)
    ensures |Turned(img, r).black| == |img.black|
    decreases |img.black|
  {
    if img.black != {} {
      var p :| p in img.black;
      TurnedWithout(img, r, p);
      TurnKeepsCount(img.(black := img.black - {p}), r);
    }
  }

  // The canvas.

  /** A 1 bit canvas that grows downwards. */
  class Canvas {
    const width: nat
    const bytesPerRow: nat
    var rows: seq<Byte>

    predicate Valid()
      reads this
    {
      bytesPerRow == (width + 7) / 8 && |rows| == Height() * bytesPerRow && (bytesPerRow == 0 ==> rows == [])
    }

    constructor (width: nat)
      ensures Valid() && this.width == width && Height() == 0
      ensures forall x: nat, y: nat :: !Get(x, y)
    {
      this.width := width;
      bytesPerRow := (width + 7) / 8;
      rows := [];
    }

    function Height(): nat
      reads this
    {
      if bytesPerRow == 0 then 0 else |rows| / bytesPerRow
    }

    predicate Get(x: nat, y: nat)
      reads this
    {
      x < width && DotSet(rows, bytesPerRow, x, y)
    }

    /** The image on the canvas. */
    function Picture(): (img: Image)
      reads this
      requires Valid()
      ensures Within(img)
    {
      Image(width, Height(), set x, y | 0 <= x < width && 0 <= y < Height() && Get(x, y) :: (x, y))
    }

    /** Nothing is black below the last row. */
    lemma BlackIsAbove(x: nat, y: nat)
      requires Valid() && Get(x, y)
      ensures y < Height()
    {
      if Height() <= y {
        RowIsPast(Height(), bytesPerRow, x, y);
      }
    }

    /** How high the canvas is once it reaches down to a row. */
    function Reaching(height: nat): nat
      reads this
    {
      if bytesPerRow == 0 || height <= Height() then Height() else height
    }

    method ReserveTo(height: nat)
      requires Valid()
      modifies this
      ensures Valid() && Height() == old(Reaching(height))
      ensures forall x: nat, y: nat :: Get(x, y) == old(Get(x, y))
    {
      var want := height * bytesPerRow;
      if |rows| < want {
        var blank := seq(want - |rows|, _ => 0 as Byte);
        forall x: nat, y: nat ensures DotSet(rows + blank, bytesPerRow, x, y) == DotSet(rows, bytesPerRow, x, y) {
          BlankBelow(rows, blank, bytesPerRow, x, y);
        }
        ExactRows(height, bytesPerRow);
        if height < Height() {
          RowsApart(bytesPerRow, height, Height());
        }
        rows := rows + blank;
      } else if Height() < height && bytesPerRow > 0 {
        RowsApart(bytesPerRow, Height(), height);
      }
    }

    method Feed(dots: nat)
      requires Valid()
      modifies this
      ensures Valid() && Height() == old(Reaching(Height() + dots))
      ensures forall x: nat, y: nat :: Get(x, y) == old(Get(x, y))
    {
      var h := Height();
      ReserveTo(h + dots);
    }

    /** Blacken a dot, if it is on the canvas. */
    method Set(x: nat, y: nat)
      requires Valid()
      modifies this
      ensures Valid() && Height() == old(Height())
      ensures forall x': nat, y': nat ::
                Get(x', y') <==> old(Get(x', y')) || (x' == x && y' == y && x < width && y < Height())
    {
      if x >= width {
        return;
      }
      var idx := y * bytesPerRow + x / 8;
      if y < Height() {
        RowFits(Height(), bytesPerRow, x, y);
      } else {
        RowIsPast(Height(), bytesPerRow, x, y);
      }
      if idx < |rows| {
        forall x': nat, y': nat | x' < width
          ensures DotSet(rows[idx := rows[idx] | Mask(x % 8)], bytesPerRow, x', y')
             <==> DotSet(rows, bytesPerRow, x', y') || (x == x' && y == y')
        {
          SetDot(rows, bytesPerRow, x, y, x', y');
        }
        rows := rows[idx := rows[idx] | Mask(x % 8)];
      }
    }

    /** Blit packed rows with their first row at `top`. */
    method Blit(top: nat, packed: seq<seq<Byte>>)
      requires Valid()
      modifies this
      ensures Valid() && Height() == old(Reaching(top + |packed|))
      ensures forall x: nat, y: nat :: Get(x, y) <==> old(Get(x, y)) || (x < width && top <= y && PackedDot(packed, x, y - top))
    {
      ReserveTo(top + |packed|);
      for y := 0 to |packed|
        invariant Valid() && Height() == old(Reaching(top + |packed|))
        invariant forall x': nat, y': nat ::
          Get(x', y') <==> old(Get(x', y')) || (x' < width && top <= y' < top + y && PackedDot(packed, x', y' - top))
      {
        var row := packed[y];
        for x := 0 to |row| * 8
          invariant Valid() && Height() == old(Reaching(top + |packed|))
          invariant forall x': nat, y': nat ::
            Get(x', y') <==>
              old(Get(x', y'))
              || (x' < width && top <= y' && (y' < top + y || (y' == top + y && x' < x)) && PackedDot(packed, x', y' - top))
        {
          if BitSet(row[x / 8], x % 8) {
            Set(x, top + y);
          }
        }
      }
    }

    /** Draw a barcode below what is there: scaled, centred on the paper, with
        some blank rows above and below. */
    method Barcode(m: S.BitMatrix, scale: nat, barHeight: nat, quiet: nat, margin: nat)
      requires Valid() && m.Valid()
      modifies this
      ensures Valid()
      ensures var s := S.Max(scale, 1);
              Height() == old(Reaching(Height() + margin + m.DotRows(s, barHeight) + 2 * quiet * s + margin))
      ensures var s, top := S.Max(scale, 1), old(Reaching(Height() + margin));
              forall x: nat, y: nat ::
                Get(x, y) <==>
                old(Get(x, y)) || (x < width && top <= y && m.CodeDot(s, barHeight, quiet, width, x, y - top))
    {
      var packed := m.Packed(scale, barHeight, quiet, width);
      Feed(margin);
      var top := Height();
      Blit(top, packed);
      Feed(margin);
    }

    lemma PictureDot(x: nat, y: nat)
      requires Valid()
      ensures Get(x, y) <==> (x, y) in Picture().black
    {
      if Get(x, y) {
        BlackIsAbove(x, y);
      }
    }

    /** A canvas is known by its size and its dots. */
    lemma PictureIs(img: Image)
      requires Valid() && Within(img) && width == img.width && Height() == img.height
      requires forall x: nat, y: nat :: Get(x, y) <==> (x, y) in img.black
      ensures Picture() == img
    {
      forall p ensures p in Picture().black <==> p in img.black {
        PictureDot(p.0, p.1);
      }
    }

    /** Whether the canvas has what a turn makes of an image before one dot. */
    ghost predicate Shows(img: Image, r: Rotation, x: nat, y: nat)
      reads this
    {
      forall nx: nat, ny: nat :: Get(nx, ny) <==> TurnedUpTo(img, r, nx, ny, x, y)
    }

    /** Put the dots of one row where the turn has them. */
    method TurnRow(r: Rotation, y: nat, out: Canvas, ghost img: Image)
      requires Valid() && img == Picture() && out != this && out.Valid() && y < Height()
      requires out.width == Turned(img, r).width && out.Height() == Turned(img, r).height && out.Shows(img, r, 0, y)
      modifies out
      ensures out.Valid() && out.Height() == old(out.Height()) && out.Shows(img, r, 0, y + 1)
    {
      for x := 0 to width
        invariant out.Valid() && out.Height() == old(out.Height()) && out.Shows(img, r, x, y)
      {
        PictureDot(x, y);
        OneMoreDot(img, r, x, y);
        if !Get(x, y) {
          continue;
        }
        var to := Place(r, width, Height(), (x, y));
        out.Set(to.0, to.1);
      }
      NextRow(img, r, y);
    }

    /** A new canvas with this one's picture, turned. */
    method Rotate(r: Rotation) returns (out: Canvas)
      requires Valid()
      ensures fresh(out) && out.Valid()
      ensures out.Picture() == Turned(Picture(), r)
    {
      ghost var img := Picture();
      if r == Upright {
        out := new Canvas(width);
        out.rows := rows;
        UprightIs(img);
        return;
      }
      var w, h := width, Height();
      var nw, nh := if SwapsSides(r) then h else w, if SwapsSides(r) then w else h;
      out := new Canvas(nw);
      out.ReserveTo(nh);
      for y := 0 to h
        invariant fresh(out) && out.Valid() && out.width == nw && out.Height() == if nw == 0 then 0 else nh
        invariant out.Shows(img, r, 0, y)
      {
        TurnRow(r, y, out, img);
      }
      AllTurned(img, r);
      out.PictureIs(Turned(img, r));
    }
  }

  /** Whether a place of the turned image comes from a black dot before dot `x`
      of row `y`. */
  predicate TurnedUpTo(img: Image, r: Rotation, nx: nat, ny: nat, x: nat, y: nat) {
    On(r, img.width, img.height, (nx, ny))
    && var p := Source(r, img.width, img.height, (nx, ny));
       p in img.black && (p.1 < y || (p.1 == y && p.0 < x))
  }

  lemma UprightIs(img: Image)
    requires Within(img)
    ensures Turned(img, Upright) == img
  {
    assert Turned(img, Upright).black == img.black;
  }

  lemma OneMoreDot(img: Image, r: Rotation, x: nat, y: nat)
    requires Within(img) && x < img.width && y < img.height
    ensures var to := Place(r, img.width, img.height, (x, y));
            On(r, img.width, img.height, to)
            && forall nx: nat, ny: nat ::
                 TurnedUpTo(img, r, nx, ny, x + 1, y)
                 <==> TurnedUpTo(img, r, nx, ny, x, y) || ((x, y) in img.black && (nx, ny) == to)
  {
    PlaceAndSource(r, img.width, img.height, (x, y));
    var to := Place(r, img.width, img.height, (x, y));
    forall nx: nat, ny: nat
      ensures TurnedUpTo(img, r, nx, ny, x + 1, y)
         <==> TurnedUpTo(img, r, nx, ny, x, y) || ((x, y) in img.black && (nx, ny) == to)
    {
      if On(r, img.width, img.height, (nx, ny)) {
        FromHere(img, r, x, y, to, nx, ny, Source(r, img.width, img.height, (nx, ny)));
      }
    }
  }

  lemma FromHere(img: Image, r: Rotation, x: nat, y: nat, to: (nat, nat), nx: nat, ny: nat, p: (nat, nat))
    requires x < img.width && y < img.height && On(r, img.width, img.height, (nx, ny))
    requires to == Place(r, img.width, img.height, (x, y)) && p == Source(r, img.width, img.height, (nx, ny))
    ensures p == (x, y) <==> (nx, ny) == to
  {
    SourceAndPlace(r, img.width, img.height, (nx, ny));
    PlaceAndSource(r, img.width, img.height, (x, y));
  }

  lemma SourceAndPlace(r: Rotation, w: nat, h: nat, q: (nat, nat))
    requires On(r, w, h, q)
    ensures var p := Source(r, w, h, q); p.0 < w && p.1 < h && Place(r, w, h, p) == q
  {
  }

  lemma NextRow(img: Image, r: Rotation, y: nat)
    requires Within(img)
    ensures forall nx: nat, ny: nat ::
              TurnedUpTo(img, r, nx, ny, img.width, y) <==> TurnedUpTo(img, r, nx, ny, 0, y + 1)
  {
  }

  lemma AllTurned(img: Image, r: Rotation)
    requires Within(img)
    ensures forall nx: nat, ny: nat ::
              TurnedUpTo(img, r, nx, ny, 0, img.height) <==> (nx, ny) in Turned(img, r).black
  {
    forall nx: nat, ny: nat
      ensures TurnedUpTo(img, r, nx, ny, 0, img.height) <==> (nx, ny) in Turned(img, r).black
    {
      TurnedDot(img, r, (nx, ny));
    }
  }
}
