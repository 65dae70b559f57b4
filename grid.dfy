/** The maze: a rectangular walkable/blocked matrix, the four-way neighbour
    lists derived from it, the Manhattan heuristic, and walks through the
    neighbour lists. */
module Grid {

  datatype Option<T> = None | Some(value: T)

  /** A cell, identified by its place in the matrix: `grid[r][c]`.
      (The source stores the column in `Cell.row` and the row in `Cell.col`,
      because `main` builds `Cell(col, row)`; positions here use the matrix's
      own order.) */
  datatype Pos = Pos(r: int, c: int)

  /** `m[r][c]` is the `path` attribute of the cell in row r, column c:
      true when the cell is walkable. */
  type Matrix = seq<seq<bool>>

  ghost predicate Rectangular(m: Matrix)
  {
    forall i :: 0 <= i < |m| ==> |m[i]| == |m[0]|
  }

  /** ROWS and COLS of the source: the grid is built with exactly this shape. */
  function Rows(m: Matrix): nat { |m| }

  function Cols(m: Matrix): nat { if |m| == 0 then 0 else |m[0]| }

  predicate InBounds(m: Matrix, p: Pos)
  {
    0 <= p.r < Rows(m) && 0 <= p.c < Cols(m)
  }

  /** Every cell of the grid. */
  function AllCells(m: Matrix): (cells: set<Pos>)
    ensures forall p :: p in cells <==> InBounds(m, p)
  {
    set r, c | 0 <= r < Rows(m) && 0 <= c < Cols(m) :: Pos(r, c)
  }

  /** An in-bounds cell whose `path` attribute is true. */
  predicate Open(m: Matrix, p: Pos)
    requires Rectangular(m)
  {
    InBounds(m, p) && m[p.r][p.c]
  }

  /** `Cell.valid_neighbor(col, row, grid)`: the cell at `grid[row][col]`, or
      nothing when (col, row) lies outside the grid. The bounds test comes
      before the indexing, so there is no wrap-around at the edges. */
  function ValidNeighbor(m: Matrix, col: int, row: int): (cell: Option<Pos>)
    ensures cell.Some? <==> InBounds(m, Pos(row, col))
    ensures cell.Some? ==> cell.value == Pos(row, col)
  {
    if col > Cols(m) - 1 || col < 0 || row > Rows(m) - 1 || row < 0 then None
    else Some(Pos(row, col))
  }

  /** The four axis neighbours of `p` in the order the source tries them:
      top, right, bottom, left. */
  function Around(p: Pos): seq<Pos>
  {
    [Pos(p.r - 1, p.c), Pos(p.r, p.c + 1), Pos(p.r + 1, p.c), Pos(p.r, p.c - 1)]
  }

  /** The cells of `qs` that are open, in order: the `if … and ….path:
      append` sequence of `get_neighbors`. */
  function KeepOpen(m: Matrix, qs: seq<Pos>): seq<Pos>
    requires Rectangular(m)
  {
    if qs == [] then []
    else (if Open(m, qs[0]) then [qs[0]] else []) + KeepOpen(m, qs[1..])
  }

  /** The neighbour list `get_neighbors` leaves in `cell.neighbors`: the open
      cells among top, right, bottom and left, in that order. */
  function Neighbors(m: Matrix, p: Pos): seq<Pos>
    requires Rectangular(m)
  {
    KeepOpen(m, Around(p))
  }

  function Abs(x: int): nat { if x < 0 then -x else x }

  /** Two cells that share a side. */
  predicate Adjacent(p: Pos, q: Pos)
  {
    Abs(p.r - q.r) + Abs(p.c - q.c) == 1
  }

  /** `h(x1, y1, x2, y2)`: the Manhattan distance. */
  function H(x1: int, y1: int, x2: int, y2: int): nat
  {
    Abs(x1 - x2) + Abs(y1 - y2)
  }

  /** The heuristic from a cell to the end cell, called as the source calls it,
      `h(cell.row, cell.col, end.row, end.col)`, where `Cell.row` is the
      column. */
  function HTo(p: Pos, e: Pos): nat
  {
    H(p.c, p.r, e.c, e.r)
  }

  /** A walk through the neighbour lists: each cell is in the list of the
      cell before it. */
  ghost predicate IsWalk(m: Matrix, w: seq<Pos>)
    requires Rectangular(m)
  {
    |w| > 0 && forall i :: 0 <= i < |w| - 1 ==> w[i + 1] in Neighbors(m, w[i])
  }

  ghost predicate WalkFrom(m: Matrix, w: seq<Pos>, s: Pos, t: Pos)
    requires Rectangular(m)
  {
    IsWalk(m, w) && w[0] == s && w[|w| - 1] == t
  }

  /** `t` can be reached from `s` through the neighbour lists. */
  ghost predicate Reachable(m: Matrix, s: Pos, t: Pos)
    requires Rectangular(m)
  {
    exists w :: WalkFrom(m, w, s, t)
  }

  /** No walk from `s` to `t` has fewer than `k` steps. */
  ghost predicate NoShorterWalk(m: Matrix, s: Pos, t: Pos, k: nat)
    requires Rectangular(m)
  {
    forall w :: WalkFrom(m, w, s, t) ==> k <= |w| - 1
  }

  // ----- neighbour lists -----

  /** A neighbour list holds exactly the open cells that share a side with
      the cell: never a blocked or out-of-bounds cell, never the cell itself. */
  lemma {:induction false} KeepOpenExact(m: Matrix, qs: seq<Pos>, q: Pos)
    requires Rectangular(m)
    ensures q in KeepOpen(m, qs) <==> q in qs && Open(m, q)
  {
    if qs != [] {
      KeepOpenExact(m, qs[1..], q);
      assert q in qs <==> q == qs[0] || q in qs[1..];
    }
  }

  lemma NeighborsExact(m: Matrix, p: Pos, q: Pos)
    requires Rectangular(m)
    ensures q in Neighbors(m, p) <==> Open(m, q) && Adjacent(p, q)
  {
    KeepOpenExact(m, Around(p), q);
  }

  /** The neighbour list written out: the four tests of `get_neighbors`
      one after the other. */
  lemma NeighborsUnfold(m: Matrix, p: Pos)
    requires Rectangular(m)
    ensures Neighbors(m, p) ==
      (if Open(m, Pos(p.r - 1, p.c)) then [Pos(p.r - 1, p.c)] else []) +
      (if Open(m, Pos(p.r, p.c + 1)) then [Pos(p.r, p.c + 1)] else []) +
      (if Open(m, Pos(p.r + 1, p.c)) then [Pos(p.r + 1, p.c)] else []) +
      (if Open(m, Pos(p.r, p.c - 1)) then [Pos(p.r, p.c - 1)] else [])
  {
    var a := Around(p);
    var r3 := a[1..][1..][1..];
    assert r3 == [a[3]] && r3[1..] == [];
    assert KeepOpen(m, r3[1..]) == [];
    var k3 := KeepOpen(m, r3);
    assert k3 == (if Open(m, a[3]) then [a[3]] else []);
    var k2 := KeepOpen(m, a[1..][1..]);
    assert k2 == (if Open(m, a[2]) then [a[2]] else []) + k3;
    var k1 := KeepOpen(m, a[1..]);
    assert k1 == (if Open(m, a[1]) then [a[1]] else []) + k2;
    assert KeepOpen(m, a) == (if Open(m, a[0]) then [a[0]] else []) + k1;
  }

  /** `KeepOpen` keeps a subsequence: no repeats where `qs` has none. */
  lemma {:induction false} KeepOpenDistinct(m: Matrix, qs: seq<Pos>)
    requires Rectangular(m)
    requires forall i, j :: 0 <= i < j < |qs| ==> qs[i] != qs[j]
    ensures |KeepOpen(m, qs)| <= |qs|
    ensures forall i, j :: 0 <= i < j < |KeepOpen(m, qs)| ==> KeepOpen(m, qs)[i] != KeepOpen(m, qs)[j]
  {
    if qs != [] {
      var r := KeepOpen(m, qs[1..]);
      KeepOpenDistinct(m, qs[1..]);
      if Open(m, qs[0]) {
        var k := KeepOpen(m, qs);
        assert k == [qs[0]] + r;
        forall i, j | 0 <= i < j < |k|
          ensures k[i] != k[j]
        {
          assert k[j] == r[j - 1];
          if i == 0 {
            KeepOpenExact(m, qs[1..], r[j - 1]);
          } else {
            assert k[i] == r[i - 1];
          }
        }
      }
    }
  }

  /** The list keeps the fixed order top, right, bottom, left: it is `Around`
      with the cells that are not open taken out, so it has no repeats and at
      most four entries. */
  lemma NeighborsDistinct(m: Matrix, p: Pos)
    requires Rectangular(m)
    ensures |Neighbors(m, p)| <= 4
    ensures forall i, j :: 0 <= i < j < |Neighbors(m, p)| ==> Neighbors(m, p)[i] != Neighbors(m, p)[j]
  {
    KeepOpenDistinct(m, Around(p));
  }

  /** An open cell's neighbours list it back: the relation is symmetric
      between open cells. */
  lemma NeighborsSymmetric(m: Matrix, p: Pos, q: Pos)
    requires Rectangular(m)
    requires Open(m, p) && q in Neighbors(m, p)
    ensures p in Neighbors(m, q)
  {
    NeighborsExact(m, p, q);
    NeighborsExact(m, q, p);
  }

  // ----- heuristic -----

  /** The distance is zero exactly between a cell and itself. */
  lemma HZero(x1: int, y1: int, x2: int, y2: int)
    ensures H(x1, y1, x2, y2) == 0 <==> x1 == x2 && y1 == y2
  {
  }

  lemma HSymmetric(x1: int, y1: int, x2: int, y2: int)
    ensures H(x1, y1, x2, y2) == H(x2, y2, x1, y1)
  {
  }

  /** Between cells that share a side the heuristic changes by exactly one,
      so it is consistent for unit-cost moves. */
  lemma HStep(p: Pos, q: Pos, e: Pos)
    requires Adjacent(p, q)
    ensures HTo(p, e) == HTo(q, e) + 1 || HTo(q, e) == HTo(p, e) + 1
  {
  }

  /** Along a walk the heuristic drops by at most one per step: from any cell
      of a walk it is at most the steps left plus its value at the last cell. */
  lemma {:induction false} HAlongWalk(m: Matrix, w: seq<Pos>, i: nat, e: Pos)
    requires Rectangular(m) && IsWalk(m, w) && i < |w|
    ensures HTo(w[i], e) <= |w| - 1 - i + HTo(w[|w| - 1], e)
    decreases |w| - i
  {
    if i < |w| - 1 {
      HAlongWalk(m, w, i + 1, e);
      NeighborsExact(m, w[i], w[i + 1]);
      HStep(w[i], w[i + 1], e);
    }
  }

  /** No walk is shorter than the Manhattan distance between its ends. */
  lemma WalkAtLeastManhattan(m: Matrix, w: seq<Pos>, s: Pos, t: Pos)
    requires Rectangular(m) && WalkFrom(m, w, s, t)
    ensures HTo(s, t) <= |w| - 1
  {
    HAlongWalk(m, w, 0, t);
  }

  // ----- walks -----

  /** A walk followed by one more step through a neighbour list. */
  lemma WalkExtend(m: Matrix, w: seq<Pos>, q: Pos)
    requires Rectangular(m) && IsWalk(m, w) && q in Neighbors(m, w[|w| - 1])
    ensures IsWalk(m, w + [q])
  {
    var w' := w + [q];
    forall i | 0 <= i < |w'| - 1
      ensures w'[i + 1] in Neighbors(m, w'[i])
    {
      if i < |w| - 1 {
        assert w'[i] == w[i] && w'[i + 1] == w[i + 1];
      }
    }
  }
}
