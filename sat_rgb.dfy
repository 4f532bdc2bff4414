/**
 * Colour parsing and the RGBA summed-area table (SAT) built on the CPU.
 *
 * The table has `(size+1) x (size+1)` cells of four channels, stored
 * row-major in a flat buffer. Cell `(j, i)` holds, for each of R, G, B, the
 * sum of that channel over all source pixels in rows `< j` and columns `< i`;
 * the alpha slot and the zero-padded first row and column hold 0.
 */
module SatRgb {
  import opened Basics

  // ---------------------------------------------------------------------
  // Flat RGBA indexing
  // ---------------------------------------------------------------------

  /** Flat index of channel `c` of cell (row `j`, column `i`) in a row-major RGBA grid `w` cells wide. */
  function Idx(w: nat, j: nat, i: nat, c: nat): nat { (j * w + i) * 4 + c }

  /** Flat index of channel `c` of table cell `(j, i)` for a tile of side `size`. */
  function SatIdx(size: nat, j: nat, i: nat, c: nat): nat { Idx(size + 1, j, i, c) }

  /** Length of the SAT buffer for a tile of side `size`: `(size+1)^2 * 4`. */
  function SatLen(size: nat): nat { (size + 1) * (size + 1) * 4 }

  lemma MulLeft(a: int, b: int, w: nat)
    requires a <= b
    ensures a * w <= b * w
  {}

  lemma IdxBound(h: nat, w: nat, j: nat, i: nat, c: nat)
    requires j < h && i < w && c < 4
    ensures Idx(w, j, i, c) < h * w * 4
  {
    MulLeft(j + 1, h, w);
  }

  /** Floor division and remainder by repeated subtraction (kept recursive so the solver does not unfold it freely). */
  function DivMod(a: nat, b: nat): (r: (nat, nat))
    requires b > 0
    ensures r.1 < b
    decreases a
  {
    if a < b then (0, a) else var qm := DivMod(a - b, b); (qm.0 + 1, qm.1)
  }

  lemma DivModOf(q: nat, b: nat, r: nat)
    requires 0 <= r < b
    ensures DivMod(q * b + r, b) == (q, r)
  {
    if q > 0 {
      assert q * b + r - b == (q - 1) * b + r;
      DivModOf(q - 1, b, r);
    }
  }

  lemma DivModSpec(a: nat, b: nat)
    requires b > 0
    ensures a == DivMod(a, b).0 * b + DivMod(a, b).1
  {
    if a >= b {
      DivModSpec(a - b, b);
    }
  }

  /** The flat index determines row, column and channel. */
  lemma Decode(w: nat, j: nat, i: nat, c: nat)
    requires i < w && c < 4
    ensures DivMod(Idx(w, j, i, c), 4) == (j * w + i, c)
    ensures DivMod(j * w + i, w) == (j, i)
  {
    DivModOf(j * w + i, 4, c);
    DivModOf(j, w, i);
  }

  // ---------------------------------------------------------------------
  // Specification of the table
  // ---------------------------------------------------------------------

  /** Channel `c` of the source pixel at row `r`, column `k`. */
  function Px(data: seq<Byte>, size: nat, r: nat, k: nat, c: nat): Byte
    requires |data| == size * size * 4 && r < size && k < size && c < 4
  {
    IdxBound(size, size, r, k, c);
    data[Idx(size, r, k, c)]
  }

  /** Sum of channel `c` over the first `i` pixels of source row `r`. */
  function RowPrefix(data: seq<Byte>, size: nat, r: nat, i: nat, c: nat): int
    requires |data| == size * size * 4 && r < size && i <= size && c < 4
  {
    if i == 0 then 0 else RowPrefix(data, size, r, i - 1, c) + Px(data, size, r, i - 1, c)
  }

  /** Sum of channel `c` over all source pixels with row `< j` and column `< i`. */
  function Sat(data: seq<Byte>, size: nat, j: nat, i: nat, c: nat): int
    requires |data| == size * size * 4 && j <= size && i <= size && c < 4
  {
    if j == 0 then 0 else Sat(data, size, j - 1, i, c) + RowPrefix(data, size, j - 1, i, c)
  }

  /** What `buildSatRgbInto` leaves at flat index `k` of `out`. */
  function OutAt(data: seq<Byte>, size: nat, k: nat): int
    requires |data| == size * size * 4
  {
    if k >= SatLen(size) then 0
    else
      var (cell, c) := DivMod(k, 4);
      var (j, i) := DivMod(cell, size + 1);
      if j <= size && c < 3 then Sat(data, size, j, i, c) else 0
  }

  /** What the horizontal pass leaves at flat index `k` of `temp`. */
  function TempAt(data: seq<Byte>, size: nat, k: nat): int
    requires |data| == size * size * 4
  {
    var (cell, c) := DivMod(k, 4);
    var (j, i) := DivMod(cell, size + 1);
    if 1 <= j <= size && 1 <= i && c < 3 then RowPrefix(data, size, j - 1, i, c) else 0
  }

  lemma OutAtIdx(data: seq<Byte>, size: nat, j: nat, i: nat, c: nat)
    requires |data| == size * size * 4 && j <= size && i <= size && c < 4
    ensures SatIdx(size, j, i, c) < SatLen(size)
    ensures OutAt(data, size, SatIdx(size, j, i, c)) == if c < 3 then Sat(data, size, j, i, c) else 0
  {
    IdxBound(size + 1, size + 1, j, i, c);
    Decode(size + 1, j, i, c);
  }

  lemma TempAtIdx(data: seq<Byte>, size: nat, j: nat, i: nat, c: nat)
    requires |data| == size * size * 4 && j <= size && i <= size && c < 4
    ensures SatIdx(size, j, i, c) < SatLen(size)
    ensures TempAt(data, size, SatIdx(size, j, i, c))
            == if 1 <= j && 1 <= i && c < 3 then RowPrefix(data, size, j - 1, i, c) else 0
  {
    IdxBound(size + 1, size + 1, j, i, c);
    Decode(size + 1, j, i, c);
  }

  /** The whole horizontal-pass buffer, entry by entry. */
  ghost function TempTable(data: seq<Byte>, size: nat): (t: seq<int>)
    requires |data| == size * size * 4
    ensures |t| == SatLen(size)
  {
    seq(SatLen(size), k requires 0 <= k => TempAt(data, size, k))
  }

  /** The whole table `buildSatRgbInto` produces, entry by entry. */
  ghost function OutTable(data: seq<Byte>, size: nat): (t: seq<int>)
    requires |data| == size * size * 4
    ensures |t| == SatLen(size)
  {
    seq(SatLen(size), k requires 0 <= k => OutAt(data, size, k))
  }

  /** Both tables are zero on their first row (the padding row). */
  lemma FirstRowZero(data: seq<Byte>, size: nat, k: nat)
    requires |data| == size * size * 4 && k < SatIdx(size, 1, 0, 0)
    ensures k < SatLen(size) && TempTable(data, size)[k] == 0 && OutTable(data, size)[k] == 0
  {
    var p1 := size + 1;
    MulLeft(1, p1, p1 * 4);
    var cell := DivMod(k, 4).0;
    DivModSpec(k, 4);
    DivModOf(0, p1, cell);
  }

  /** Channel `c` of the `i`-th RGBA cell after offset `base`. */
  function Cell(base: nat, i: nat, c: nat): nat { base + i * 4 + c }

  lemma IdxNextRow(size: nat, j: nat)
    ensures SatIdx(size, j + 1, 0, 0) == SatIdx(size, j, 0, 0) + (size + 1) * 4
  {}

  /** Row `j` of the horizontal-pass buffer is the running sum of source row `j - 1`. */
  lemma TempRowStep(data: seq<Byte>, size: nat, j: nat, b: nat, db: nat, i: nat, c: nat)
    requires |data| == size * size * 4 && 1 <= j <= size && i < size && c < 3
    requires b == SatIdx(size, j, 0, 0) && db == (j - 1) * size * 4
    ensures Cell(b, i + 1, c) < SatLen(size) && Cell(db, i, c) < |data|
    ensures TempTable(data, size)[Cell(b, i + 1, c)] == TempTable(data, size)[Cell(b, i, c)] + data[Cell(db, i, c)]
  {
    TempAtIdx(data, size, j, i + 1, c);
    TempAtIdx(data, size, j, i, c);
    IdxBound(size, size, j - 1, i, c);
  }

  /** The padding column and the alpha slots of the horizontal-pass buffer are zero. */
  lemma TempRowZero(data: seq<Byte>, size: nat, j: nat, b: nat, i: nat, c: nat)
    requires |data| == size * size * 4 && 1 <= j <= size && i <= size && c < 4 && (i == 0 || c == 3)
    requires b == SatIdx(size, j, 0, 0)
    ensures Cell(b, i, c) < SatLen(size) && TempTable(data, size)[Cell(b, i, c)] == 0
  {
    TempAtIdx(data, size, j, i, c);
  }

  /** Row `j` of the table is row `j - 1` plus row `j` of the horizontal-pass buffer. */
  lemma OutRowStep(data: seq<Byte>, size: nat, j: nat, i: nat, c: nat)
    requires |data| == size * size * 4 && 1 <= j <= size && i <= size && c < 4
    ensures Cell(SatIdx(size, j, 0, 0), i, c) < SatLen(size)
    ensures OutTable(data, size)[Cell(SatIdx(size, j, 0, 0), i, c)]
            == if c < 3 then OutTable(data, size)[Cell(SatIdx(size, j - 1, 0, 0), i, c)]
                             + TempTable(data, size)[Cell(SatIdx(size, j, 0, 0), i, c)]
               else 0
  {
    TempAtIdx(data, size, j, i, c);
    OutAtIdx(data, size, j, i, c);
    OutAtIdx(data, size, j - 1, i, c);
  }

  /** The whole contract of `buildSatRgbInto` on the buffer it fills. */
  ghost predicate IsSatOf(table: seq<int>, data: seq<Byte>, size: nat)
    requires |data| == size * size * 4
  {
    && |table| >= SatLen(size)
    && (forall j, i, c :: 0 <= j <= size && 0 <= i <= size && 0 <= c < 4 ==>
          SatIdx(size, j, i, c) < |table|
          && table[SatIdx(size, j, i, c)] == if c < 3 then Sat(data, size, j, i, c) else 0)
    && (forall k :: SatLen(size) <= k < |table| ==> table[k] == 0)
  }

  // ---------------------------------------------------------------------
  // buildSatRgbInto
  // ---------------------------------------------------------------------

  /** `TempRowStep` for a whole row; `b` and `db` are the offsets of table row `j` and source row `j - 1`. */
  lemma TempRow(data: seq<Byte>, size: nat, j: nat, b: nat, db: nat)
    requires |data| == size * size * 4 && 1 <= j <= size
    requires b == SatIdx(size, j, 0, 0) && db == (j - 1) * size * 4
    ensures b + (size + 1) * 4 <= SatLen(size) && db + size * 4 <= |data|
    ensures forall i, c :: 0 <= i <= size && 0 <= c < 4 && (i == 0 || c == 3) ==>
              TempTable(data, size)[Cell(b, i, c)] == 0
    ensures forall i, c :: 0 <= i < size && 0 <= c < 3 ==>
              Cell(db, i, c) < |data| &&
              TempTable(data, size)[Cell(b, i + 1, c)] == TempTable(data, size)[Cell(b, i, c)] + data[Cell(db, i, c)]
  {
    TempRowBounds(data, size, j, b, db);
    forall i, c | 0 <= i <= size && 0 <= c < 4 && (i == 0 || c == 3) {
      TempRowZero(data, size, j, b, i, c);
    }
    forall i, c | 0 <= i < size && 0 <= c < 3
      ensures Cell(db, i, c) < |data|
      ensures TempTable(data, size)[Cell(b, i + 1, c)] == TempTable(data, size)[Cell(b, i, c)] + data[Cell(db, i, c)]
    {
      TempRowStep(data, size, j, b, db, i, c);
    }
  }

  /** Row `j` of the table and source row `j - 1` lie inside their buffers. */
  lemma TempRowBounds(data: seq<Byte>, size: nat, j: nat, b: nat, db: nat)
    requires |data| == size * size * 4 && 1 <= j <= size
    requires b == SatIdx(size, j, 0, 0) && db == (j - 1) * size * 4
    ensures b + (size + 1) * 4 <= SatLen(size) && db + size * 4 <= |data|
  {
    TempRowZero(data, size, j, b, size, 3);
    MulLeft(j, size, size * 4);
  }

  /** `OutRowStep` for a whole row; `b` and `bUp` are the offsets of table rows `j` and `j - 1`. */
  lemma OutRow(data: seq<Byte>, size: nat, j: nat, b: nat, bUp: nat)
    requires |data| == size * size * 4 && 1 <= j <= size
    requires b == SatIdx(size, j, 0, 0) && bUp == SatIdx(size, j - 1, 0, 0)
    ensures b + (size + 1) * 4 <= SatLen(size)
    ensures forall i, c :: 0 <= i <= size && 0 <= c < 4 ==>
              OutTable(data, size)[Cell(b, i, c)]
              == if c < 3 then OutTable(data, size)[Cell(bUp, i, c)] + TempTable(data, size)[Cell(b, i, c)] else 0
  {
    OutRowStep(data, size, j, size, 3);
    forall i, c | 0 <= i <= size && 0 <= c < 4 {
      OutRowStep(data, size, j, i, c);
    }
  }

  /**
   * Two-pass SAT construction into `out`: a horizontal running sum per row
   * into a scratch buffer, then a vertical accumulation into `out`. The
   * whole of `out` is cleared first.
   */
  method BuildSatRgbInto(data: seq<Byte>, size: nat, out: array<int>)
    requires |data| == size * size * 4
    requires out.Length >= SatLen(size)
    modifies out
    ensures IsSatOf(out[..], data, size)
  {
    var p1 := size + 1;
    var len := p1 * p1 * 4;
    forall k | 0 <= k < out.Length {
      out[k] := 0;
    }
    var temp := new int[len](_ => 0);
    HorizontalPass(data, size, temp);
    VerticalPass(data, size, temp, out);
    forall j, i, c | 0 <= j <= size && 0 <= i <= size && 0 <= c < 4
      ensures SatIdx(size, j, i, c) < len
      ensures out[SatIdx(size, j, i, c)] == if c < 3 then Sat(data, size, j, i, c) else 0
    {
      OutAtIdx(data, size, j, i, c);
    }
  }

  /** Pass 1: `temp(j, i)` = sum of source row `j - 1` over columns `< i`. */
  method HorizontalPass(data: seq<Byte>, size: nat, temp: array<int>)
    requires |data| == size * size * 4 && temp.Length == SatLen(size)
    requires forall k :: 0 <= k < temp.Length ==> temp[k] == 0
    modifies temp
    ensures temp[..] == TempTable(data, size)
  {
    ghost var T := TempTable(data, size);
    forall k | 0 <= k < SatIdx(size, 1, 0, 0) ensures k < |T| && T[k] == 0 {
      FirstRowZero(data, size, k);
    }
    for j := 1 to size + 1
      invariant forall k :: 0 <= k < SatIdx(size, j, 0, 0) ==> k < |T| && temp[k] == T[k]
      invariant forall k :: SatIdx(size, j, 0, 0) <= k < |T| ==> temp[k] == 0
    {
      TempRow(data, size, j, SatIdx(size, j, 0, 0), (j - 1) * size * 4);
      IdxNextRow(size, j);
      HorizontalRow(data, size, temp, j, T, SatIdx(size, j, 0, 0), (j - 1) * size * 4);
    }
    assert SatIdx(size, size + 1, 0, 0) == |T|;
  }

  /** Pass 2: `out(j, i)` = `out(j - 1, i)` + `temp(j, i)`. */
  method VerticalPass(data: seq<Byte>, size: nat, temp: array<int>, out: array<int>)
    requires |data| == size * size * 4 && temp.Length == SatLen(size) <= out.Length && temp != out
    requires temp[..] == TempTable(data, size)
    requires forall k :: 0 <= k < out.Length ==> out[k] == 0
    modifies out
    ensures out[..SatLen(size)] == OutTable(data, size)
    ensures forall k :: SatLen(size) <= k < out.Length ==> out[k] == 0
  {
    ghost var T := TempTable(data, size);
    ghost var O := OutTable(data, size);
    forall k | 0 <= k < SatIdx(size, 1, 0, 0) ensures k < |O| && O[k] == 0 {
      FirstRowZero(data, size, k);
    }
    for j := 1 to size + 1
      invariant forall k :: 0 <= k < SatIdx(size, j, 0, 0) ==> k < |O| && out[k] == O[k]
      invariant forall k :: SatIdx(size, j, 0, 0) <= k < out.Length ==> out[k] == 0
    {
      OutRow(data, size, j, SatIdx(size, j, 0, 0), SatIdx(size, j - 1, 0, 0));
      IdxNextRow(size, j - 1);
      IdxNextRow(size, j);
      VerticalRow(size, temp, out, j, T, O, SatIdx(size, j, 0, 0), SatIdx(size, j - 1, 0, 0));
    }
    assert SatIdx(size, size + 1, 0, 0) == |O|;
  }

  /**
   * Pass 1 for source row `j - 1`: running R, G, B sums written to row `j`
   * of `temp`. `T` is the intended buffer, `b` and `db` the row offsets.
   */
  method HorizontalRow(data: seq<Byte>, size: nat, temp: array<int>, j: nat,
                       ghost T: seq<int>, ghost b: nat, ghost db: nat)
    requires 1 <= j && b == j * (size + 1) * 4 && db == (j - 1) * size * 4
    requires temp.Length == |T| && b + (size + 1) * 4 <= |T| && db + size * 4 <= |data|
    requires forall i, c :: 0 <= i <= size && 0 <= c < 4 && (i == 0 || c == 3) ==> T[Cell(b, i, c)] == 0
    requires forall i, c :: 0 <= i < size && 0 <= c < 3 ==>
               T[Cell(b, i + 1, c)] == T[Cell(b, i, c)] + data[Cell(db, i, c)]
    requires forall k :: 0 <= k < b ==> temp[k] == T[k]
    requires forall k :: b <= k < |T| ==> temp[k] == 0
    modifies temp
    ensures forall k :: 0 <= k < b + (size + 1) * 4 ==> temp[k] == T[k]
    ensures forall k :: b + (size + 1) * 4 <= k < |T| ==> temp[k] == 0
  {
    var p1 := size + 1;
    var sr: int, sg: int, sb: int := 0, 0, 0;
    var rowDataBase := (j - 1) * size * 4;
    var rowTempBase := j * p1 * 4;
    assert T[Cell(b, 0, 0)] == 0 && T[Cell(b, 0, 1)] == 0 && T[Cell(b, 0, 2)] == 0 && T[Cell(b, 0, 3)] == 0;
    for i := 1 to size + 1
      invariant forall k :: 0 <= k < rowTempBase + i * 4 ==> temp[k] == T[k]
      invariant forall k :: rowTempBase + i * 4 <= k < |T| ==> temp[k] == 0
      invariant sr == T[Cell(b, i - 1, 0)] && sg == T[Cell(b, i - 1, 1)] && sb == T[Cell(b, i - 1, 2)]
    {
      var di := rowDataBase + (i - 1) * 4;
      assert di + 2 == Cell(db, i - 1, 2);
      sr := sr + data[di];
      sg := sg + data[di + 1];
      sb := sb + data[di + 2];
      var ti := rowTempBase + i * 4;
      assert T[Cell(b, i, 0)] == sr && T[Cell(b, i, 1)] == sg && T[Cell(b, i, 2)] == sb && T[Cell(b, i, 3)] == 0;
      WriteRgb(temp, ti, sr, sg, sb);
    }
  }

  /**
   * Pass 2 for table row `j`: add row `j` of `temp` to row `j - 1` of `out`.
   * `T` and `O` are the intended buffers, `b` and `bUp` the offsets of rows
   * `j` and `j - 1`.
   */
  method VerticalRow(size: nat, temp: array<int>, out: array<int>, j: nat,
                     ghost T: seq<int>, ghost O: seq<int>, ghost b: nat, ghost bUp: nat)
    requires 1 <= j && b == j * (size + 1) * 4 && bUp == (j - 1) * (size + 1) * 4 && bUp + (size + 1) * 4 == b
    requires temp.Length == |T| == |O| && b + (size + 1) * 4 <= |O| <= out.Length && temp != out
    requires forall i, c :: 0 <= i <= size && 0 <= c < 4 ==>
               O[Cell(b, i, c)] == if c < 3 then O[Cell(bUp, i, c)] + T[Cell(b, i, c)] else 0
    requires forall k :: 0 <= k < |T| ==> temp[k] == T[k]
    requires forall k :: 0 <= k < b ==> out[k] == O[k]
    requires forall k :: b <= k < out.Length ==> out[k] == 0
    modifies out
    ensures forall k :: 0 <= k < b + (size + 1) * 4 ==> out[k] == O[k]
    ensures forall k :: b + (size + 1) * 4 <= k < out.Length ==> out[k] == 0
  {
    var p1 := size + 1;
    var rowOutCurBase := j * p1 * 4;
    var rowOutPrevBase := (j - 1) * p1 * 4;
    var rowTempBase := j * p1 * 4;
    for i := 0 to size + 1
      invariant forall k :: 0 <= k < rowOutCurBase + i * 4 ==> out[k] == O[k]
      invariant forall k :: rowOutCurBase + i * 4 <= k < out.Length ==> out[k] == 0
    {
      var idxCur := rowOutCurBase + i * 4;
      var idxUp := rowOutPrevBase + i * 4;
      var ti := rowTempBase + i * 4;
      assert O[Cell(b, i, 0)] == O[Cell(bUp, i, 0)] + T[Cell(b, i, 0)];
      assert O[Cell(b, i, 1)] == O[Cell(bUp, i, 1)] + T[Cell(b, i, 1)];
      assert O[Cell(b, i, 2)] == O[Cell(bUp, i, 2)] + T[Cell(b, i, 2)];
      assert O[Cell(b, i, 3)] == 0;
      WriteRgb(out, idxCur, out[idxUp] + temp[ti], out[idxUp + 1] + temp[ti + 1], out[idxUp + 2] + temp[ti + 2]);
    }
  }

  /** Stores one RGBA cell at `base`, with alpha 0. */
  method WriteRgb(a: array<int>, base: nat, r: int, g: int, b: int)
    requires base + 4 <= a.Length
    modifies a
    ensures a[base] == r && a[base + 1] == g && a[base + 2] == b && a[base + 3] == 0
    ensures forall k :: 0 <= k < a.Length && !(base <= k < base + 4) ==> a[k] == old(a[k])
  {
    a[base] := r;
    a[base + 1] := g;
    a[base + 2] := b;
    a[base + 3] := 0;
  }

  // ---------------------------------------------------------------------
  // Properties of the table
  // ---------------------------------------------------------------------

  /** Sum of channel `c` of source row `r` over columns `k0 <= k < k1`: an independent reference. */
  function RangeSum(data: seq<Byte>, size: nat, r: nat, k0: nat, k1: nat, c: nat): int
    requires |data| == size * size * 4 && r < size && k0 <= k1 <= size && c < 4
    decreases k1 - k0
  {
    if k0 == k1 then 0 else Px(data, size, r, k0, c) + RangeSum(data, size, r, k0 + 1, k1, c)
  }

  /** Sum of channel `c` over the rectangle of rows `[r0, r1)` and columns `[k0, k1)`. */
  function RectSum(data: seq<Byte>, size: nat, r0: nat, r1: nat, k0: nat, k1: nat, c: nat): int
    requires |data| == size * size * 4 && r0 <= r1 <= size && k0 <= k1 <= size && c < 4
    decreases r1 - r0
  {
    if r0 == r1 then 0 else RangeSum(data, size, r0, k0, k1, c) + RectSum(data, size, r0 + 1, r1, k0, k1, c)
  }

  lemma {:induction false} RangeSumSplit(data: seq<Byte>, size: nat, r: nat, k0: nat, k1: nat, c: nat)
    requires |data| == size * size * 4 && r < size && k0 < k1 <= size && c < 4
    ensures RangeSum(data, size, r, k0, k1, c) == RangeSum(data, size, r, k0, k1 - 1, c) + Px(data, size, r, k1 - 1, c)
    decreases k1 - k0
  {
    if k0 + 1 < k1 {
      RangeSumSplit(data, size, r, k0 + 1, k1, c);
    }
  }

  /** A difference of two row prefixes is the sum over the columns between them. */
  lemma {:induction false} RowPrefixDiff(data: seq<Byte>, size: nat, r: nat, k0: nat, k1: nat, c: nat)
    requires |data| == size * size * 4 && r < size && k0 <= k1 <= size && c < 4
    ensures RowPrefix(data, size, r, k1, c) - RowPrefix(data, size, r, k0, c) == RangeSum(data, size, r, k0, k1, c)
    decreases k1
  {
    if k0 < k1 {
      RowPrefixDiff(data, size, r, k0, k1 - 1, c);
      RangeSumSplit(data, size, r, k0, k1, c);
    }
  }

  lemma {:induction false} RectSumSplit(data: seq<Byte>, size: nat, r0: nat, r1: nat, k0: nat, k1: nat, c: nat)
    requires |data| == size * size * 4 && r0 < r1 <= size && k0 <= k1 <= size && c < 4
    ensures RectSum(data, size, r0, r1, k0, k1, c)
            == RectSum(data, size, r0, r1 - 1, k0, k1, c) + RangeSum(data, size, r1 - 1, k0, k1, c)
    decreases r1 - r0
  {
    if r0 + 1 < r1 {
      RectSumSplit(data, size, r0 + 1, r1, k0, k1, c);
    }
  }

  /**
   * Four-point inclusion-exclusion: the table's corners give the exact
   * channel sum of any axis-aligned rectangle of the source.
   */
  lemma {:induction false} SatRectangle(data: seq<Byte>, size: nat, j0: nat, j1: nat, i0: nat, i1: nat, c: nat)
    requires |data| == size * size * 4 && j0 <= j1 <= size && i0 <= i1 <= size && c < 4
    ensures Sat(data, size, j1, i1, c) - Sat(data, size, j0, i1, c) - Sat(data, size, j1, i0, c) + Sat(data, size, j0, i0, c)
            == RectSum(data, size, j0, j1, i0, i1, c)
    decreases j1
  {
    if j0 < j1 {
      SatRectangle(data, size, j0, j1 - 1, i0, i1, c);
      RowPrefixDiff(data, size, j1 - 1, i0, i1, c);
      RectSumSplit(data, size, j0, j1, i0, i1, c);
    }
  }

  lemma {:induction false} RowPrefixNonNegative(data: seq<Byte>, size: nat, r: nat, i: nat, c: nat)
    requires |data| == size * size * 4 && r < size && i <= size && c < 4
    ensures RowPrefix(data, size, r, i, c) >= 0
    decreases i
  {
    if i > 0 {
      RowPrefixNonNegative(data, size, r, i - 1, c);
    }
  }

  lemma {:induction false} SatColumnZero(data: seq<Byte>, size: nat, j: nat, c: nat)
    requires |data| == size * size * 4 && j <= size && c < 4
    ensures Sat(data, size, j, 0, c) == 0
    decreases j
  {
    if j > 0 {
      SatColumnZero(data, size, j - 1, c);
    }
  }

  /** Every entry is non-decreasing along both the row and the column direction. */
  lemma {:induction false} SatMonotone(data: seq<Byte>, size: nat, j: nat, i: nat, c: nat)
    requires |data| == size * size * 4 && j <= size && i <= size && c < 4
    ensures j < size ==> Sat(data, size, j, i, c) <= Sat(data, size, j + 1, i, c)
    ensures i < size ==> Sat(data, size, j, i, c) <= Sat(data, size, j, i + 1, c)
  {
    if j < size {
      RowPrefixNonNegative(data, size, j, i, c);
    }
    if i < size {
      SatRectangle(data, size, 0, j, i, i + 1, c);
      RectNonNegative(data, size, 0, j, i, i + 1, c);
      SatColumnZero(data, size, 0, c);
    }
  }

  lemma {:induction false} RectNonNegative(data: seq<Byte>, size: nat, r0: nat, r1: nat, k0: nat, k1: nat, c: nat)
    requires |data| == size * size * 4 && r0 <= r1 <= size && k0 <= k1 <= size && c < 4
    ensures RectSum(data, size, r0, r1, k0, k1, c) >= 0
    decreases r1 - r0
  {
    if r0 < r1 {
      RectNonNegative(data, size, r0 + 1, r1, k0, k1, c);
      RowPrefixDiff(data, size, r0, k0, k1, c);
      RowPrefixNonNegative(data, size, r0, k0, c);
      RangeNonNegative(data, size, r0, k0, k1, c);
    }
  }

  lemma {:induction false} RangeNonNegative(data: seq<Byte>, size: nat, r: nat, k0: nat, k1: nat, c: nat)
    requires |data| == size * size * 4 && r < size && k0 <= k1 <= size && c < 4
    ensures RangeSum(data, size, r, k0, k1, c) >= 0
    decreases k1 - k0
  {
    if k0 < k1 {
      RangeNonNegative(data, size, r, k0 + 1, k1, c);
    }
  }

  /** What a filled table promises at its borders: row 0, column 0 and every alpha slot read 0. */
  lemma TableBorders(table: seq<int>, data: seq<Byte>, size: nat, j: nat, i: nat, c: nat)
    requires |data| == size * size * 4 && IsSatOf(table, data, size) && j <= size && i <= size && c < 4
    ensures table[SatIdx(size, 0, i, c)] == 0
    ensures table[SatIdx(size, j, 0, c)] == 0
    ensures table[SatIdx(size, j, i, 3)] == 0
  {
    SatColumnZero(data, size, j, c);
  }

  /** Inclusion-exclusion read directly off a filled table. */
  lemma TableRectangle(table: seq<int>, data: seq<Byte>, size: nat, j0: nat, j1: nat, i0: nat, i1: nat, c: nat)
    requires |data| == size * size * 4 && IsSatOf(table, data, size)
    requires j0 <= j1 <= size && i0 <= i1 <= size && c < 3
    ensures table[SatIdx(size, j1, i1, c)] - table[SatIdx(size, j0, i1, c)]
            - table[SatIdx(size, j1, i0, c)] + table[SatIdx(size, j0, i0, c)]
            == RectSum(data, size, j0, j1, i0, i1, c)
  {
    SatRectangle(data, size, j0, j1, i0, i1, c);
  }

  // ---------------------------------------------------------------------
  // hexToRgb
  // ---------------------------------------------------------------------

  /** One colour component: `parseInt` of two characters divided by 255; `None` is NaN. */
  function HexComponent(h: string, at: nat): (v: Option<real>)
    ensures v.Some? ==> ParseIntHex(Substring(h, at, at + 2)).Some?
  {
    match ParseIntHex(Substring(h, at, at + 2))
    case Some(n) => Some(n as real / 255.0)
    case None => None
  }

  /**
   * `hexToRgb`: drop one leading `#`, then read the pairs at offsets 0, 2
   * and 4; an empty colour (or a lone `#`) has no component at all.
   */
  function HexToRgb(hex: string): (r: (Option<real>, Option<real>, Option<real>))
    ensures hex == "" || hex == "#" ==> r == (None, None, None)
  {
    ParseIntHexBlank("");
    var h := if |hex| > 0 && hex[0] == '#' then hex[1..] else hex;
    (HexComponent(h, 0), HexComponent(h, 2), HexComponent(h, 4))
  }

  /** The colour whose components are the bytes `r`, `g`, `b`, printed as `#rrggbb`. */
  function RgbToHex(r: Byte, g: Byte, b: Byte): (s: string)
    ensures IsHexColor(s)
  {
    "#" + ByteToHex2(r) + ByteToHex2(g) + ByteToHex2(b)
  }

  lemma ComponentOfPair(h: string, at: nat, p: string)
    requires |p| == 2 && AllHexDigits(p) && at + 2 <= |h| && h[at..at + 2] == p
    ensures HexComponent(h, at) == Some(HexValue(p) as real / 255.0)
  {
    assert Substring(h, at, at + 2) == p;
    ParseTwoHexDigits(p);
  }

  /** With a leading `#`, `hexToRgb` reads the pairs after it. */
  lemma HexToRgbStripsHash(s: string)
    requires |s| > 0 && s[0] == '#'
    ensures HexToRgb(s) == (HexComponent(s[1..], 0), HexComponent(s[1..], 2), HexComponent(s[1..], 4))
  {}

  /** The pair `p` at offset `at` of the six digits following `#`. */
  lemma ValidComponent(s: string, at: nat, p: string)
    requires IsHexColor(s) && at <= 4 && p == s[1 + at..3 + at]
    ensures AllHexDigits(p)
    ensures HexComponent(s[1..], at) == Some(HexValue(p) as real / 255.0)
    ensures 0.0 <= HexValue(p) as real / 255.0 <= 1.0
  {
    assert s[1..][at..at + 2] == p;
    assert forall k :: 0 <= k < 2 ==> p[k] == s[1..][at + k];
    ComponentOfPair(s[1..], at, p);
    ParseTwoHexDigits(p);
  }

  /** `hexToRgb` inverts the `#rrggbb` printing of three bytes, component by component. */
  lemma HexToRgbRoundTrip(r: Byte, g: Byte, b: Byte)
    ensures HexToRgb(RgbToHex(r, g, b)) == (Some(r as real / 255.0), Some(g as real / 255.0), Some(b as real / 255.0))
  {
    var h := ByteToHex2(r) + ByteToHex2(g) + ByteToHex2(b);
    assert RgbToHex(r, g, b) == "#" + h;
    HexToRgbStripsHash("#" + h);
    assert ("#" + h)[1..] == h;
    assert h[0..2] == ByteToHex2(r) && h[2..4] == ByteToHex2(g) && h[4..6] == ByteToHex2(b);
    ComponentOfByte(h, 0, r);
    ComponentOfByte(h, 2, g);
    ComponentOfByte(h, 4, b);
  }

  lemma ComponentOfByte(h: string, at: nat, v: Byte)
    requires at + 2 <= |h| && h[at..at + 2] == ByteToHex2(v)
    ensures HexComponent(h, at) == Some(v as real / 255.0)
  {
    ComponentOfPair(h, at, ByteToHex2(v));
  }

  /** For any valid `#RRGGBB` string every component is defined and lies in [0, 1]. */
  lemma HexToRgbValid(s: string)
    requires IsHexColor(s)
    ensures AllHexDigits(s[1..3]) && AllHexDigits(s[3..5]) && AllHexDigits(s[5..7])
    ensures HexToRgb(s) == (Some(HexValue(s[1..3]) as real / 255.0),
                            Some(HexValue(s[3..5]) as real / 255.0),
                            Some(HexValue(s[5..7]) as real / 255.0))
    ensures 0.0 <= HexValue(s[1..3]) as real / 255.0 <= 1.0
    ensures 0.0 <= HexValue(s[3..5]) as real / 255.0 <= 1.0
    ensures 0.0 <= HexValue(s[5..7]) as real / 255.0 <= 1.0
  {
    ValidComponent(s, 0, s[1..3]);
    ValidComponent(s, 2, s[3..5]);
    ValidComponent(s, 4, s[5..7]);
    HexToRgbStripsHash(s);
  }

  /** Only one leading `#` is stripped: a bare string and its `#`-prefixed form parse alike. */
  lemma HexToRgbHashOptional(h: string)
    requires |h| == 0 || h[0] != '#'
    ensures HexToRgb("#" + h) == HexToRgb(h)
  {
    assert ("#" + h)[1..] == h;
  }
}
