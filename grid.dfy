/** The dungeon grids of the game and level files (dLight, dFlags, dPlayer,
    dItem, dMonster, dDead, dObject, dPreLight, automapview, dMissile in
    Source/loadsave.cpp). Every grid is written by two nested loops,

        for (j = 0; j < h; j++) for (i = 0; i < w; i++) ... grid[i][j] ...

    so the file holds the cells column index innermost: cell [i][j] is
    value number j * w + i. One generic grid codec covers every layer; dFlags
    is the one grid whose save masks its cells. */
module Grid {
  import opened Wire
  import opened Cursor
  import opened Layout
  import opened Codec

  /** w * h cells of one kind, in the order the loops visit them. */
  function GridLayout(k: Kind, w: nat, h: nat): (L: Layout)
    ensures |L| == w * h
  {
    Repeat(Field(k), w * h)
  }

  lemma {:induction false} GridSize(k: Kind, w: nat, h: nat)
    ensures Size(GridLayout(k, w, h)) == w * h * Width(k)
  {
    SizeRepeat(Field(k), w * h);
  }

  /** Where cell [i][j] sits among the values of a w-wide grid. */
  function Cell(i: nat, j: nat, w: nat): nat
  {
    j * w + i
  }

  lemma {:induction false} MulMono(a: nat, b: nat, w: nat)
    requires a <= b
    ensures a * w <= b * w
  {
    var d := b - a;
    assert b * w == a * w + d * w;
  }

  lemma {:induction false} MulStep(a: nat, b: nat, w: nat)
    ensures a < b ==> a * w + w <= b * w
    ensures w == 0 ==> a * w == 0
  {
    if a < b {
      MulMono(a + 1, b, w);
      assert (a + 1) * w == a * w + w;
    }
  }

  /** Euclidean division takes a position apart into its row and column. */
  lemma {:induction false} DivMod(n: nat, w: nat, q: nat, r: nat)
    requires r < w && n == q * w + r
    ensures n / w == q && n % w == r
  {
    var Q, R := n / w, n % w;
    assert n == Q * w + R;
    MulStep(Q, q, w);
    MulStep(q, Q, w);
  }

  /** Cell positions are inside the grid and name their cell uniquely. */
  lemma {:induction false} CellBounds(i: nat, j: nat, w: nat, h: nat)
    requires i < w && j < h
    ensures Cell(i, j, w) < w * h
    ensures Cell(i, j, w) % w == i && Cell(i, j, w) / w == j
  {
    MulStep(j, h, w);
    DivMod(j * w + i, w, j, i);
  }

  /** Every position inside the grid is the position of a cell. */
  lemma {:induction false} PositionBounds(n: nat, w: nat, h: nat)
    requires n < w * h
    ensures 0 < w && n % w < w && n / w < h
    ensures n == Cell(n % w, n / w, w)
  {
    MulStep(h, h, w);
    if n / w >= h {
      MulMono(h, n / w, w);
    }
  }

  /** The volatile bits BFLAG_MISSILE | BFLAG_VISIBLE | BFLAG_DEAD_PLAYER. */
  const VolatileFlags: nat := 0x07

  /** A dFlags cell as the save writes it, `& ~(BFLAG_MISSILE |
      BFLAG_VISIBLE | BFLAG_DEAD_PLAYER)`: the low three bits cleared. */
  function Masked(v: nat): (m: nat)
    ensures m <= v && m % 8 == 0 && v - m <= VolatileFlags
  {
    v - v % 8
  }

  /** The arithmetic above is the source's bitwise and. */
  lemma {:induction false} MaskedIsAnd(b: bv8)
    ensures Masked(b as nat) == (b & !(VolatileFlags as bv8)) as nat
  {
    assert b == (b & 0xF8) | (b & 7);
    assert (b & 7) as nat == b as nat % 8;
  }

  /** Clearing the bits twice clears them once. */
  lemma {:induction false} MaskedIdempotent(v: nat)
    ensures Masked(Masked(v)) == Masked(v)
  {
  }

  /** A cell with none of the volatile bits set is saved as it is. */
  lemma {:induction false} MaskedKeepsStable(v: nat)
    ensures Masked(v) == v <==> v % 8 == 0
  {
  }

  function MaskAll(x: Record): (y: Record)
    ensures |y| == |x| && forall n :: 0 <= n < |x| ==> y[n] == Num(Masked(NumOf(x[n])))
  {
    seq(|x|, n requires 0 <= n < |x| => Num(Masked(NumOf(x[n]))))
  }

  /** The values the save loops write: the cells, masked for dFlags. */
  function Written(x: Record, mask: bool): (y: Record)
    ensures |y| == |x|
  {
    if mask then MaskAll(x) else x
  }

  /** A grid of w * h cells of kind k; the save writes Written(cells,
      mask), the load reads every cell back. */
  function GridCodec(k: Kind, w: nat, h: nat, mask: bool): (c: Codec)
    ensures c.mem == GridLayout(k, w, h) && c.save == c.mem && c.load == c.mem
  {
    var L := GridLayout(k, w, h);
    Codec(L, L, L, (x: Arg) => Written(x.r, mask), (d: Arg) => d.r, (rec: Arg, d: Arg) => rec.r)
  }

  /** The layers the source keeps: bytes, big-endian words and bools. */
  predicate GridKind(k: Kind)
  {
    k.U8? || k.BE32? || k.Bool8?
  }

  lemma {:induction false} MaskFits(L: Layout, k: Kind, x: Record)
    requires GridKind(k) && WellFormed(L, x) && forall n :: 0 <= n < |L| ==> L[n].kind == k
    ensures WellFormed(L, MaskAll(x))
  {
    forall n | 0 <= n < |L|
      ensures Fits(L[n].kind, MaskAll(x)[n])
    {
      assert Fits(k, x[n]);
    }
  }

  lemma {:induction false} GridCodecValid(k: Kind, w: nat, h: nat, mask: bool)
    requires GridKind(k)
    ensures Valid(GridCodec(k, w, h, mask))
  {
    var c := GridCodec(k, w, h, mask);
    forall x | WellFormed(c.mem, x)
      ensures WellFormed(c.save, c.toWire(Arg(x)))
    {
      if mask {
        MaskFits(c.mem, k, x);
      }
    }
  }

  /** What a saved grid reads back as: every cell, masked for dFlags. */
  lemma {:induction false} GridExpected(k: Kind, w: nat, h: nat, mask: bool, x: Record, dest: Record)
    requires GridKind(k) && |x| == w * h && |dest| == w * h
    ensures Valid(GridCodec(k, w, h, mask))
    ensures Expected(GridCodec(k, w, h, mask), x, dest) == Written(x, mask)
  {
    GridCodecValid(k, w, h, mask);
    var L := GridLayout(k, w, h);
    MergeNoSkip(L, Written(x, mask), dest);
  }

  /** A plain grid comes back exactly; dFlags comes back with its volatile
      bits cleared and every other bit kept. */
  lemma {:induction false} FlagsRoundTrip(w: nat, h: nat, x: Record, dest: Record, i: nat, j: nat)
    requires |x| == w * h && |dest| == w * h && i < w && j < h
    ensures Cell(i, j, w) < w * h && Valid(GridCodec(U8, w, h, true))
    ensures var y := Expected(GridCodec(U8, w, h, true), x, dest);
            |y| == w * h && y[Cell(i, j, w)] == Num(Masked(NumOf(x[Cell(i, j, w)])))
  {
    GridExpected(U8, w, h, true, x, dest);
    CellBounds(i, j, w, h);
  }

  // ---------------------------------------------------------------------
  // The nested loops over a grid

  /** The cells of a grid in the order the loops visit them. */
  function Cells(a: array2<nat>): (x: Record)
    reads a
    ensures |x| == a.Length0 * a.Length1
  {
    seq(a.Length0 * a.Length1, n requires 0 <= n < a.Length0 * a.Length1 reads a => CellValue(a, n))
  }

  function CellValue(a: array2<nat>, n: nat): Value
    requires n < a.Length0 * a.Length1
    reads a
  {
    PositionBounds(n, a.Length0, a.Length1);
    Num(a[n % a.Length0, n / a.Length0])
  }

  /** The loads of the first n cells, from dest, in loop order. */
  ghost function LoadCells(k: Kind, dest: Record, r: Reader, n: nat): (res: (Record, Reader))
    requires n <= |dest|
  {
    DecodeFields(Repeat(Field(k), n), dest[..n], r)
  }

  /** The loops of a grid load: `grid[i][j] = file.next...()` for every cell
      in loop order; the cells read back as DecodeFields over the grid's
      layout predicts. */
  method LoadGrid(file: LoadHelper, a: array2<nat>, k: Kind)
    requires GridKind(k)
    modifies file, a
    ensures (Cells(a), file.State()) == DecodeFields(GridLayout(k, a.Length0, a.Length1), old(Cells(a)), old(file.State()))
  {
    ghost var dest, r := Cells(a), file.State();
    var j := 0;
    while j < a.Length1
      invariant 0 <= j <= a.Length1
      invariant Loaded(a, file.State(), k, dest, r, Cell(0, j, a.Length0))
    {
      LoadRow(file, a, j, k, dest, r);
      j := j + 1;
    }
    assert Cell(0, j, a.Length0) == |dest|;
    assert dest[..|dest|] == dest && Cells(a)[..|dest|] == Cells(a);
  }

  /** The inner loop: row j of the grid, cell after cell. */
  method LoadRow(file: LoadHelper, a: array2<nat>, j: nat, k: Kind, ghost dest: Record, ghost r: Reader)
    requires GridKind(k) && j < a.Length1
    requires Loaded(a, file.State(), k, dest, r, Cell(0, j, a.Length0))
    modifies file, a
    ensures Loaded(a, file.State(), k, dest, r, Cell(0, j + 1, a.Length0))
  {
    var i := 0;
    while i < a.Length0
      invariant 0 <= i <= a.Length0
      invariant Loaded(a, file.State(), k, dest, r, Cell(i, j, a.Length0))
    {
      LoadCell(file, a, i, j, k, dest, r);
      i := i + 1;
    }
    RowEnd(j, a.Length0);
  }

  /** Every cell index of row j, up to the one past its end, is within the grid. */
  lemma {:induction false} RowWithin(i: nat, j: nat, w: nat, h: nat)
    requires i <= w && j < h
    ensures Cell(i, j, w) <= w * h
  {
    MulStep(j, h, w);
    assert w * h == h * w;
  }

  /** The cell after the last of row j is the first of row j + 1. */
  lemma {:induction false} RowEnd(j: nat, w: nat)
    ensures Cell(w, j, w) == Cell(0, j + 1, w)
  {
    assert (j + 1) * w == j * w + w;
  }

  /** The first n cells hold what loading them gives, the others are as
      they were, and the file is past the n cells. */
  ghost predicate Loaded(a: array2<nat>, s: Reader, k: Kind, dest: Record, r: Reader, n: nat)
    reads a
  {
    n <= |dest| == |Cells(a)| && Cells(a)[n..] == dest[n..] && (Cells(a)[..n], s) == LoadCells(k, dest, r, n)
  }

  /** The body of the inner loop: cell [i][j], the n-th of the grid, read
      from the file. */
  method LoadCell(file: LoadHelper, a: array2<nat>, i: nat, j: nat, k: Kind, ghost dest: Record, ghost r: Reader)
    requires GridKind(k) && i < a.Length0 && j < a.Length1
    requires Loaded(a, file.State(), k, dest, r, Cell(i, j, a.Length0))
    modifies file, a
    ensures Loaded(a, file.State(), k, dest, r, Cell(i, j, a.Length0) + 1)
  {
    var w, h := a.Length0, a.Length1;
    ghost var n := Cell(i, j, w);
    CellBounds(i, j, w, h);
    ghost var before, s := Cells(a), file.State();
    assert before[n] == Num(a[i, j]) == dest[n];
    var v := LoadField(file, k, Num(a[i, j]));
    a[i, j] := NumOf(v);
    forall m | 0 <= m < w * h && m != n
      ensures Cells(a)[m] == before[m]
    {
      PositionBounds(m, w, h);
    }
    assert Cells(a) == before[n := v];
    LoadCellsStep(k, dest, r, n, before[..n], s);
    assert Cells(a)[..n + 1] == before[..n] + [v];
  }

  /** One more cell loaded. */
  lemma {:induction false} LoadCellsStep(k: Kind, dest: Record, r: Reader, n: nat, done: Record, s: Reader)
    requires n < |dest| && (done, s) == LoadCells(k, dest, r, n)
    ensures LoadCells(k, dest, r, n + 1) ==
            (done + [DecodeField(k, dest[n], s).0], DecodeField(k, dest[n], s).1)
  {
    var f := Field(k);
    assert Repeat(f, n + 1) == Repeat(f, n) + [f];
    assert dest[..n + 1] == dest[..n] + [dest[n]];
    DecodeConcat(Repeat(f, n), [f], dest[..n], [dest[n]], r);
    DecodeSingle(f, dest[n], s);
  }

  /** The saves of the first n values of xs, in loop order. */
  function SaveCells(k: Kind, xs: Record, w: Writer, n: nat): Writer
    requires n <= |xs|
  {
    EncodeFields(Repeat(Field(k), n), xs[..n], w)
  }

  lemma {:induction false} SaveCellsStep(k: Kind, xs: Record, w: Writer, n: nat)
    requires n < |xs|
    ensures SaveCells(k, xs, w, n + 1) == EncodeField(k, xs[n], SaveCells(k, xs, w, n))
  {
    var f := Field(k);
    assert Repeat(f, n + 1) == Repeat(f, n) + [f];
    assert xs[..n + 1] == xs[..n] + [xs[n]];
    EncodeConcat(Repeat(f, n), [f], xs[..n], [xs[n]], w);
    EncodeSingle(f, xs[n], SaveCells(k, xs, w, n));
  }

  /** Saving every cell one by one is the grid codec's save. */
  lemma {:induction false} SaveCellsAll(k: Kind, w: nat, h: nat, mask: bool, x: Record, w0: Writer)
    requires GridKind(k) && |x| == w * h && WriterOk(w0)
    ensures Valid(GridCodec(k, w, h, mask)) && Cell(0, h, w) == |Written(x, mask)|
    ensures Save(GridCodec(k, w, h, mask), x, w0) == SaveCells(k, Written(x, mask), w0, Cell(0, h, w))
  {
    GridCodecValid(k, w, h, mask);
    var xs := Written(x, mask);
    assert h * w == w * h;
    assert xs[..|xs|] == xs;
  }

  /** The loops of a grid save: `file.write...(grid[i][j])` for every cell
      in loop order, masked for dFlags; the file receives what the grid
      codec's Save writes. */
  method SaveGrid(file: SaveHelper, a: array2<nat>, k: Kind, mask: bool)
    requires GridKind(k) && file.Valid()
    modifies file, file.buffer
    ensures file.Valid() && file.buffer == old(file.buffer)
    ensures Valid(GridCodec(k, a.Length0, a.Length1, mask)) && WriterOk(old(file.State()))
    ensures file.State() == Save(GridCodec(k, a.Length0, a.Length1, mask), Cells(a), old(file.State()))
  {
    ghost var xs, w0 := Written(Cells(a), mask), file.State();
    var j := 0;
    while j < a.Length1
      invariant 0 <= j <= a.Length1 && Cell(0, j, a.Length0) <= |xs|
      invariant file.Valid() && file.buffer == old(file.buffer)
      invariant file.State() == SaveCells(k, xs, w0, Cell(0, j, a.Length0))
    {
      SaveRow(file, a, j, k, mask, xs, w0);
      j := j + 1;
    }
    SaveCellsAll(k, a.Length0, a.Length1, mask, Cells(a), w0);
  }

  /** The inner loop of a grid save: row j, cell after cell. */
  method SaveRow(file: SaveHelper, a: array2<nat>, j: nat, k: Kind, mask: bool, ghost xs: Record, ghost w0: Writer)
    requires j < a.Length1 && xs == Written(Cells(a), mask) && file.Valid()
    requires file.State() == SaveCells(k, xs, w0, Cell(0, j, a.Length0))
    modifies file, file.buffer
    ensures file.Valid() && file.buffer == old(file.buffer)
    ensures Cell(0, j + 1, a.Length0) <= |xs|
    ensures file.State() == SaveCells(k, xs, w0, Cell(0, j + 1, a.Length0))
  {
    assert |xs| == a.Length0 * a.Length1;
    var i := 0;
    while i < a.Length0
      invariant 0 <= i <= a.Length0 && Cell(i, j, a.Length0) <= |xs|
      invariant file.Valid() && file.buffer == old(file.buffer)
      invariant file.State() == SaveCells(k, xs, w0, Cell(i, j, a.Length0))
    {
      RowWithin(i + 1, j, a.Length0, a.Length1);
      SaveCell(file, a, i, j, k, mask, xs, w0);
      i := i + 1;
    }
    RowEnd(j, a.Length0);
  }

  method SaveCell(file: SaveHelper, a: array2<nat>, i: nat, j: nat, k: Kind, mask: bool, ghost xs: Record, ghost w0: Writer)
    requires i < a.Length0 && j < a.Length1 && xs == Written(Cells(a), mask) && file.Valid()
    requires Cell(i, j, a.Length0) < |xs|
    requires file.State() == SaveCells(k, xs, w0, Cell(i, j, a.Length0))
    modifies file, file.buffer
    ensures file.Valid() && file.buffer == old(file.buffer)
    ensures file.State() == SaveCells(k, xs, w0, Cell(i, j, a.Length0) + 1)
  {
    ghost var n := Cell(i, j, a.Length0);
    CellBounds(i, j, a.Length0, a.Length1);
    assert Cells(a)[n] == Num(a[i, j]);
    var v := if mask then Masked(a[i, j]) else a[i, j];
    assert xs[n] == Num(v);
    SaveCellsStep(k, xs, w0, n);
    SaveField(file, k, Num(v));
  }

  /** A grid of n zero cells. */
  function Zeros(n: nat): (x: Record)
    ensures |x| == n && forall m :: 0 <= m < n ==> x[m] == Num(0)
  {
    seq(n, _ => Num(0))
  }

  /** `grid[i][j] = 0` for every cell, row after row, as LoadLevel clears
      dMissile. */
  method ClearGrid(a: array2<nat>)
    modifies a
    ensures forall i, j :: 0 <= i < a.Length0 && 0 <= j < a.Length1 ==> a[i, j] == 0
    ensures Cells(a) == Zeros(a.Length0 * a.Length1)
  {
    var j := 0;
    while j < a.Length1
      invariant 0 <= j <= a.Length1
      invariant forall i', j' :: 0 <= i' < a.Length0 && 0 <= j' < j ==> a[i', j'] == 0
    {
      var i := 0;
      while i < a.Length0
        invariant 0 <= i <= a.Length0
        invariant forall i', j' :: 0 <= i' < a.Length0 && 0 <= j' < j ==> a[i', j'] == 0
        invariant forall i' :: 0 <= i' < i ==> a[i', j] == 0
      {
        a[i, j] := 0;
        i := i + 1;
      }
      j := j + 1;
    }
    forall m | 0 <= m < a.Length0 * a.Length1
      ensures Cells(a)[m] == Num(0)
    {
      PositionBounds(m, a.Length0, a.Length1);
    }
  }
}
