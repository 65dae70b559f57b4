/** The mutable side of `main.py`: the cells' flags and neighbour lists, the
    selection state of `main`, and `astar`, `get_neighbors` and
    `backtrack_path` as the loops the source runs, each proved against the
    pure definitions of `Grid`, `SearchLoop` and `Path`. */
module Game {
  import opened Grid
  import opened SearchLoop
  import opened Path

  /** The cells before row `r`, column `c`, in the order the loops of `main`
      visit them, have their neighbour lists in `nb`. */
  ghost predicate WiredBefore(m: Matrix, nb: map<Pos, seq<Pos>>, r: int, c: int)
    requires Rectangular(m)
  {
    forall p :: p in nb && (p.r < r || (p.r == r && p.c < c)) ==> nb[p] == Neighbors(m, p)
  }

  lemma WiredNext(m: Matrix, nb: map<Pos, seq<Pos>>, r: int, c: int)
    requires Rectangular(m) && WiredBefore(m, nb, r, c)
    ensures WiredBefore(m, nb[Pos(r, c) := Neighbors(m, Pos(r, c))], r, c + 1)
  {
  }

  /** A finished row: every cell of the grid lies before `(r + 1, 0)`. */
  lemma WiredRow(m: Matrix, nb: map<Pos, seq<Pos>>, r: int)
    requires Rectangular(m) && nb.Keys == AllCells(m) && WiredBefore(m, nb, r, Cols(m))
    ensures WiredBefore(m, nb, r + 1, 0)
    ensures r >= Rows(m) - 1 ==> forall p :: p in nb ==> nb[p] == Neighbors(m, p)
  {
  }

  /** `Relax` takes the neighbours one at a time. */
  lemma RelaxUnfold(pol: Policy, e: Pos, curr: Pos, ns: seq<Pos>, j: nat, st: State)
    requires j < |ns|
    ensures Relax(pol, e, curr, ns[j..], st) == Relax(pol, e, curr, ns[j + 1..], RelaxOne(pol, e, curr, ns[j], st))
  {
    assert ns[j..][1..] == ns[j + 1..];
  }

  /** The loop of `astar` is still at work on `st`: the search invariant
      holds and carrying on from `st` ends where `Search` ends. */
  ghost predicate Going(pol: Policy, m: Matrix, s: Pos, e: Pos, inQ0: set<Pos>, outQ0: set<Pos>, st: State)
  {
    match st.status
    case Running => Inv(pol, m, s, e, st) && Run(pol, m, s, e, st) == Search(pol, m, s, e, inQ0, outQ0)
    case _ => false
  }

  /** The loop starts from `Init`, and `Search` is the run from there. */
  lemma StartsGoing(pol: Policy, m: Matrix, s: Pos, e: Pos, inQ0: set<Pos>, outQ0: set<Pos>)
    requires Setting(m, s, e)
    ensures Going(pol, m, s, e, inQ0, outQ0, Init(m, s, e, inQ0, outQ0))
  {
    InitInv(pol, m, s, e, inQ0, outQ0);
  }

  /** Relaxing edges never stops the search. */
  lemma {:induction false} RelaxKeepsStatus(pol: Policy, e: Pos, curr: Pos, ns: seq<Pos>, st: State)
    ensures Relax(pol, e, curr, ns, st).status == st.status
    decreases |ns|
  {
    if ns != [] {
      RelaxKeepsStatus(pol, e, curr, ns[1..], RelaxOne(pol, e, curr, ns[0], st));
    }
  }

  /** The turn that pops `end` is the last: `Search` returns its state, and
      the predecessor chain from `end` is there to follow. */
  lemma FoundIsResult(pol: Policy, m: Matrix, s: Pos, e: Pos, inQ0: set<Pos>, outQ0: set<Pos>, st: State)
    requires Going(pol, m, s, e, inQ0, outQ0, st) && st.queue != [] && st.queue[MinIndex(st.queue)].cell == e
    ensures Ranked(st.prev, st.g) && e in st.g && st.g[e].Fin?
    ensures var r := Search(pol, m, s, e, inQ0, outQ0);
      r.status == Found && r.g == st.g && r.prev == st.prev &&
      r.inQueue == st.inQueue - {e} && r.outQueue == st.outQueue
  {
    assert e in QueueCells(st.queue);
    StepInv(pol, m, s, e, st);
    RunStops(pol, m, s, e, Step(pol, m, s, e, st));
  }

  /** The turn that finds the queue empty is the last. */
  lemma ExhaustedIsResult(pol: Policy, m: Matrix, s: Pos, e: Pos, inQ0: set<Pos>, outQ0: set<Pos>, st: State)
    requires Going(pol, m, s, e, inQ0, outQ0, st) && st.queue == []
    ensures var r := Search(pol, m, s, e, inQ0, outQ0);
      r.status == Exhausted && r.inQueue == st.inQueue && r.outQueue == st.outQueue
  {
    StepInv(pol, m, s, e, st);
    RunStops(pol, m, s, e, Step(pol, m, s, e, st));
  }

  /** Any other turn keeps the loop going towards the same result, with a
      smaller measure. */
  lemma TurnContinues(pol: Policy, m: Matrix, s: Pos, e: Pos, inQ0: set<Pos>, outQ0: set<Pos>, st: State)
    requires Going(pol, m, s, e, inQ0, outQ0, st) && st.queue != [] && st.queue[MinIndex(st.queue)].cell != e
    ensures st.g.Keys == AllCells(m) && st.queue[MinIndex(st.queue)].cell in st.g
    ensures var st' := Step(pol, m, s, e, st);
      Going(pol, m, s, e, inQ0, outQ0, st') && Decreases(st, st')
  {
    var i := MinIndex(st.queue);
    var curr := st.queue[i].cell;
    assert curr in QueueCells(st.queue);
    StepExpandInv(pol, m, s, e, st);
    StepExpands(pol, m, s, e, st, i, Neighbors(m, curr));
    RelaxKeepsStatus(pol, e, curr, Neighbors(m, curr), st.(queue := RemoveAt(st.queue, i), openSet := st.openSet - {curr}));
  }

  /** The grid of cells together with `main`'s selection variables. A flag
      that is true on some cells is the set of those cells. */
  class Board {
    /** `cell.path` of every cell, `m[r][c]` for `grid[r][c]`. */
    const m: Matrix
    /** `cell.neighbors`. */
    var neighbors: map<Pos, seq<Pos>>
    var inQueue: set<Pos>
    var outQueue: set<Pos>
    var shortestPath: set<Pos>
    /** The cells whose `start` / `end` flag is true. */
    var starts: set<Pos>
    var ends: set<Pos>
    /** `start_cell`, `end_cell`, `is_start`, `is_end` of `main`. */
    var startCell: Option<Pos>
    var endCell: Option<Pos>
    var isStart: bool
    var isEnd: bool

    /** What the selection guards keep: `start` and `end` are each chosen at
        most once, only on walkable cells, never on the same cell, and the
        cell flags agree with `start_cell` and `end_cell`. */
    ghost predicate Valid()
      reads this`neighbors, this`starts, this`ends, this`startCell, this`endCell, this`isStart, this`isEnd
    {
      Rectangular(m) && neighbors.Keys == AllCells(m) &&
      (isStart <==> startCell.Some?) && (isEnd <==> endCell.Some?) &&
      starts == (if startCell.Some? then {startCell.value} else {}) &&
      ends == (if endCell.Some? then {endCell.value} else {}) &&
      (startCell.Some? ==> Open(m, startCell.value)) &&
      (endCell.Some? ==> Open(m, endCell.value)) &&
      (startCell.Some? && endCell.Some? ==> startCell.value != endCell.value)
    }

    /** Every neighbour list is the one `get_neighbors` computes. */
    ghost predicate Wired()
      reads this`neighbors
    {
      Rectangular(m) && forall p :: p in neighbors ==> neighbors[p] == Neighbors(m, p)
    }

    /** The selection state did not change. */
    twostate predicate SelectionKept()
      reads this`starts, this`ends, this`startCell, this`endCell, this`isStart, this`isEnd
    {
      starts == old(starts) && ends == old(ends) && startCell == old(startCell) &&
      endCell == old(endCell) && isStart == old(isStart) && isEnd == old(isEnd)
    }

    /** The grid `main` builds: every cell with all flags false and an empty
        neighbour list, nothing selected. */
    constructor(m0: Matrix)
      requires Rectangular(m0)
      ensures Valid() && m == m0
      ensures forall p :: p in neighbors ==> neighbors[p] == []
      ensures inQueue == {} && outQueue == {} && shortestPath == {}
      ensures startCell.None? && endCell.None?
    {
      m := m0;
      neighbors := map p | p in AllCells(m0) :: [];
      inQueue, outQueue, shortestPath := {}, {}, {};
      starts, ends := {}, {};
      startCell, endCell := None, None;
      isStart, isEnd := false, false;
    }

    /** The body of `cell.get_neighbors(grid)`: starting from an empty list,
        the open cells among top, right, bottom and left are appended in
        that order. */
    method NeighborList(p: Pos) returns (ns: seq<Pos>)
      requires Rectangular(m)
      ensures ns == Neighbors(m, p)
    {
      ns := [];
      // `Cell.row` holds the column and `Cell.col` the row
      var top := ValidNeighbor(m, p.c, p.r - 1);
      var right := ValidNeighbor(m, p.c + 1, p.r);
      var bottom := ValidNeighbor(m, p.c, p.r + 1);
      var left := ValidNeighbor(m, p.c - 1, p.r);
      if top.Some? && m[top.value.r][top.value.c] {
        ns := ns + [top.value];
      }
      if right.Some? && m[right.value.r][right.value.c] {
        ns := ns + [right.value];
      }
      if bottom.Some? && m[bottom.value.r][bottom.value.c] {
        ns := ns + [bottom.value];
      }
      if left.Some? && m[left.value.r][left.value.c] {
        ns := ns + [left.value];
      }
      NeighborsUnfold(m, p);
    }

    /** `cell.get_neighbors(grid)`: the cell's list is replaced. */
    method GetNeighbors(p: Pos)
      requires Valid() && InBounds(m, p)
      modifies this
      ensures Valid() && SelectionKept()
      ensures neighbors == old(neighbors)[p := Neighbors(m, p)]
      ensures inQueue == old(inQueue) && outQueue == old(outQueue) && shortestPath == old(shortestPath)
    {
      var ns := NeighborList(p);
      neighbors := neighbors[p := ns];
    }

    /** `for row in grid: for cell in row: cell.get_neighbors(grid)`. */
    method PrecomputeNeighbors()
      requires Valid()
      modifies this
      ensures Valid() && Wired() && SelectionKept()
      ensures inQueue == old(inQueue) && outQueue == old(outQueue) && shortestPath == old(shortestPath)
    {
      for r := 0 to |m|
        invariant Valid() && SelectionKept() && WiredBefore(m, neighbors, r, 0)
        invariant inQueue == old(inQueue) && outQueue == old(outQueue) && shortestPath == old(shortestPath)
      {
        for c := 0 to Cols(m)
          invariant Valid() && SelectionKept() && WiredBefore(m, neighbors, r, c)
          invariant inQueue == old(inQueue) && outQueue == old(outQueue) && shortestPath == old(shortestPath)
        {
          WiredNext(m, neighbors, r, c);
          GetNeighbors(Pos(r, c));
        }
        WiredRow(m, neighbors, r);
      }
      WiredRow(m, neighbors, |m|);
    }

    /** `backtrack_path(previous, cell, start)`: walks the predecessor chain
        back from `cell` and flags every cell it steps onto, marking `start`
        false and every other one true; `cell` itself is not touched. The
        scores `g` only witness that the chain ends. */
    method BacktrackPath(prev: map<Pos, Pos>, cell: Pos, start: Pos, ghost g: map<Pos, Score>)
      requires Ranked(prev, g) && cell in g && g[cell].Fin?
      modifies this
      ensures var c := Chain(prev, g, cell);
        forall x :: x in shortestPath <==>
          if x in c[..|c| - 1] then x != start else x in old(shortestPath)
      ensures neighbors == old(neighbors) && inQueue == old(inQueue) && outQueue == old(outQueue)
      ensures SelectionKept()
    {
      ghost var c := Chain(prev, g, cell);
      ghost var k := |c| - 1;
      ChainLinks(prev, g, cell);
      var x := cell;
      while x in prev
        invariant 0 <= k < |c| && x == c[k]
        invariant forall y :: y in shortestPath <==>
          if y in c[k..|c| - 1] then y != start else y in old(shortestPath)
        invariant neighbors == old(neighbors) && inQueue == old(inQueue) && outQueue == old(outQueue)
        invariant SelectionKept()
        decreases k
      {
        x := prev[x];
        k := k - 1;
        assert c[k..|c| - 1] == [c[k]] + c[k + 1..|c| - 1];
        if x == start {
          shortestPath := shortestPath - {x};
        } else {
          shortestPath := shortestPath + {x};
        }
      }
    }

    /** The two `for row in grid: for cell in row` loops of `astar` that set
        every score to infinity. */
    method AllInfinite() returns (t: map<Pos, Score>)
      requires Rectangular(m)
      ensures t == Unset(m)
    {
      t := map[];
      for r := 0 to |m|
        invariant forall p :: p in t <==> InBounds(m, p) && p.r < r
        invariant forall p :: p in t ==> t[p] == Inf
      {
        for c := 0 to Cols(m)
          invariant forall p :: p in t <==> InBounds(m, p) && (p.r < r || (p.r == r && p.c < c))
          invariant forall p :: p in t ==> t[p] == Inf
        {
          t := t[Pos(r, c) := Inf];
        }
      }
      assert t.Keys == Unset(m).Keys;
    }
    /** One pass of the inner loop of `astar`, for the edge from `curr` to
        `n`: it does what `RelaxOne` does, and of the cell flags it only
        sets `in_queue`. */
    method RelaxEdge(pol: Policy, e: Pos, curr: Pos, n: Pos, queue0: seq<Entry>,
                     openSet0: set<Pos>, count0: nat, g0: map<Pos, Score>, f0: map<Pos, Score>,
                     prev0: map<Pos, Pos>)
      returns (queue: seq<Entry>, openSet: set<Pos>, count: nat, g: map<Pos, Score>, f: map<Pos, Score>,
               prev: map<Pos, Pos>)
      requires curr in g0 && n in g0
      modifies this
      ensures State(queue, openSet, count, g, f, prev, inQueue, outQueue, Running) ==
        RelaxOne(pol, e, curr, n, State(queue0, openSet0, count0, g0, f0, prev0, old(inQueue), old(outQueue), Running))
      ensures neighbors == old(neighbors) && shortestPath == old(shortestPath) && SelectionKept()
    {
      queue, openSet, count, g, f, prev := queue0, openSet0, count0, g0, f0, prev0;
      var temp := Plus1(g[curr]);  // g_score[curr] + 1
      if Below(temp, g[n]) {
        g := g[n := temp];
        f := f[n := Fin(temp.n + HTo(n, e))];
        prev := prev[n := curr];
        if n !in openSet {
          count := count + 1;
          queue := queue + [Entry(temp.n + HTo(n, e), count, n)];
          openSet := openSet + {n};
          inQueue := inQueue + {n};
        } else if pol == DecreaseKey {
          queue := Reprioritize(queue, n, temp.n + HTo(n, e));
        }
      }
    }

    /** The inner `for neighbor in curr.neighbors` loop of `astar` on its
        local tables: it does what `Relax` does, and of the cell flags it
        only sets `in_queue`. */
    method RelaxNeighbors(pol: Policy, e: Pos, curr: Pos, ns: seq<Pos>, queue0: seq<Entry>,
                          openSet0: set<Pos>, count0: nat, g0: map<Pos, Score>, f0: map<Pos, Score>,
                          prev0: map<Pos, Pos>)
      returns (queue: seq<Entry>, openSet: set<Pos>, count: nat, g: map<Pos, Score>, f: map<Pos, Score>,
               prev: map<Pos, Pos>)
      requires Rectangular(m) && g0.Keys == AllCells(m) && curr in g0
      requires forall n :: n in ns ==> n in Neighbors(m, curr)
      modifies this
      ensures State(queue, openSet, count, g, f, prev, inQueue, outQueue, Running) ==
        Relax(pol, e, curr, ns, State(queue0, openSet0, count0, g0, f0, prev0, old(inQueue), old(outQueue), Running))
      ensures neighbors == old(neighbors) && shortestPath == old(shortestPath) && SelectionKept()
    {
      queue, openSet, count, g, f, prev := queue0, openSet0, count0, g0, f0, prev0;
      for j := 0 to |ns|
        invariant neighbors == old(neighbors) && shortestPath == old(shortestPath) && SelectionKept()
        invariant g.Keys == AllCells(m)
        invariant Relax(pol, e, curr, ns[j..], State(queue, openSet, count, g, f, prev, inQueue, outQueue, Running)) ==
          Relax(pol, e, curr, ns, State(queue0, openSet0, count0, g0, f0, prev0, old(inQueue), old(outQueue), Running))
      {
        RelaxUnfold(pol, e, curr, ns, j, State(queue, openSet, count, g, f, prev, inQueue, outQueue, Running));
        NeighborsExact(m, curr, ns[j]);
        queue, openSet, count, g, f, prev := RelaxEdge(pol, e, curr, ns[j], queue, openSet, count, g, f, prev);
      }
    }

    /** The first lines of `astar`: the start entry `(0, 0, start)`, empty
        `previous`, every score infinite except `g_score[start] = 0` and
        `f_score[start] = h(start, end)`, and `open_set_copy = {start}`. */
    method InitTables(s: Pos, e: Pos) returns (queue: seq<Entry>, openSet: set<Pos>, count: nat,
                                              g: map<Pos, Score>, f: map<Pos, Score>, prev: map<Pos, Pos>)
      requires Rectangular(m)
      ensures State(queue, openSet, count, g, f, prev, inQueue, outQueue, Running) == Init(m, s, e, inQueue, outQueue)
    {
      count := 0;
      queue := [Entry(0, count, s)];
      prev := map[];
      g := AllInfinite();
      g := g[s := Fin(0)];
      f := AllInfinite();
      f := f[s := Fin(HTo(s, e))];
      openSet := {s};
    }

    /** A turn of the `while` loop of `astar` whose popped cell `curr` is not
        `end`: `curr` leaves the queue and `open_set_copy`, its edges are
        relaxed, and it gets `out_queue` unless it is `start`. */
    method ExpandTurn(pol: Policy, s: Pos, e: Pos, i: nat, queue0: seq<Entry>,
                      openSet0: set<Pos>, count0: nat, g0: map<Pos, Score>, f0: map<Pos, Score>,
                      prev0: map<Pos, Pos>)
      returns (queue: seq<Entry>, openSet: set<Pos>, count: nat, g: map<Pos, Score>, f: map<Pos, Score>,
               prev: map<Pos, Pos>)
      requires Wired() && neighbors.Keys == AllCells(m) && g0.Keys == AllCells(m)
      requires queue0 != [] && i == MinIndex(queue0) && queue0[i].cell != e && queue0[i].cell in g0
      modifies this
      ensures State(queue, openSet, count, g, f, prev, inQueue, outQueue, Running) ==
        Step(pol, m, s, e, State(queue0, openSet0, count0, g0, f0, prev0, old(inQueue), old(outQueue), Running))
      ensures neighbors == old(neighbors) && shortestPath == old(shortestPath) && SelectionKept()
    {
      ghost var st := State(queue0, openSet0, count0, g0, f0, prev0, inQueue, outQueue, Running);
      var curr := queue0[i].cell;
      queue := RemoveAt(queue0, i);
      openSet := openSet0 - {curr};
      var ns := neighbors[curr];
      queue, openSet, count, g, f, prev := RelaxNeighbors(pol, e, curr, ns, queue, openSet, count0, g0, f0, prev0);
      if curr != s {
        outQueue := outQueue + {curr};
      }
      StepExpands(pol, m, s, e, st, i, ns);
    }

    /** The branch of `astar` that pops `end`: `backtrack_path(previous,
        end, start)`, then `end.in_queue = False`. */
    method FinishFound(prev: map<Pos, Pos>, s: Pos, e: Pos, ghost g: map<Pos, Score>)
      requires Ranked(prev, g) && e in g && g[e].Fin?
      modifies this
      ensures var c := Chain(prev, g, e);
        forall x :: x in shortestPath <==> if x in c[..|c| - 1] then x != s else x in old(shortestPath)
      ensures inQueue == old(inQueue) - {e} && outQueue == old(outQueue)
      ensures neighbors == old(neighbors) && SelectionKept()
    {
      BacktrackPath(prev, e, s, g);
      inQueue := inQueue - {e};
    }

    /** `astar(grid, start, end)` with the neighbour lists precomputed: the
        turns of `SearchLoop.Step` on local tables and on the `in_queue` and
        `out_queue` flags of the cells, and `backtrack_path` once `end` is
        popped. It returns what `Search` returns, leaves the flags as
        `Search` leaves them, and on True flags the predecessor chain of
        `end`. */
    method AStar(pol: Policy, s: Pos, e: Pos) returns (found: bool)
      requires Valid() && Wired() && Setting(m, s, e)
      modifies this
      ensures var r := Search(pol, m, s, e, old(inQueue), old(outQueue));
        found == (r.status == Found) && inQueue == r.inQueue && outQueue == r.outQueue &&
        (found ==> var c := Chain(r.prev, r.g, e);
          forall x :: x in shortestPath <==> if x in c[..|c| - 1] then x != s else x in old(shortestPath)) &&
        (!found ==> shortestPath == old(shortestPath))
      ensures Valid() && Wired() && SelectionKept() && neighbors == old(neighbors)
    {
      ghost var inQ0, outQ0 := inQueue, outQueue;
      var queue, openSet, count, g, f, prev := InitTables(s, e);
      StartsGoing(pol, m, s, e, inQ0, outQ0);
      ghost var st := State(queue, openSet, count, g, f, prev, inQueue, outQueue, Running);
      while queue != []
        invariant neighbors == old(neighbors) && shortestPath == old(shortestPath) && SelectionKept()
        invariant st == State(queue, openSet, count, g, f, prev, inQueue, outQueue, Running)
        invariant Going(pol, m, s, e, inQ0, outQ0, st)
        decreases Unreached(g), Slack(g), |queue|
      {
        var i := MinIndex(queue);  // open_set.get()
        if queue[i].cell == e {
          queue := RemoveAt(queue, i);
          openSet := openSet - {e};
          FoundIsResult(pol, m, s, e, inQ0, outQ0, st);
          FinishFound(prev, s, e, g);
          return true;
        }
        TurnContinues(pol, m, s, e, inQ0, outQ0, st);
        queue, openSet, count, g, f, prev := ExpandTurn(pol, s, e, i, queue, openSet, count, g, f, prev);
        st := Step(pol, m, s, e, st);
      }
      ExhaustedIsResult(pol, m, s, e, inQ0, outQ0, st);
      found := false;
    }

    /** A left click on cell `p`: it becomes `start_cell` when no start is
        chosen yet, the cell is walkable and it is not the end cell;
        otherwise nothing changes. */
    method SelectStart(p: Pos)
      requires Valid() && InBounds(m, p)
      modifies this`starts, this`startCell, this`isStart
      ensures Valid()
      ensures old(!isStart && m[p.r][p.c] && p !in ends) ==>
        startCell == Some(p) && starts == old(starts) + {p} && isStart
      ensures !old(!isStart && m[p.r][p.c] && p !in ends) ==>
        startCell == old(startCell) && starts == old(starts) && isStart == old(isStart)
    {
      if !isStart && m[p.r][p.c] && p !in ends {
        startCell := Some(p);
        starts := starts + {p};
        isStart := true;
      }
    }

    /** A right click on cell `p`: it becomes `end_cell` when no end is chosen
        yet, the cell is walkable and it is not the start cell; otherwise
        nothing changes. */
    method SelectEnd(p: Pos)
      requires Valid() && InBounds(m, p)
      modifies this`ends, this`endCell, this`isEnd
      ensures Valid()
      ensures old(!isEnd && m[p.r][p.c] && p !in starts) ==>
        endCell == Some(p) && ends == old(ends) + {p} && isEnd
      ensures !old(!isEnd && m[p.r][p.c] && p !in starts) ==>
        endCell == old(endCell) && ends == old(ends) && isEnd == old(isEnd)
    {
      if !isEnd && m[p.r][p.c] && p !in starts {
        endCell := Some(p);
        ends := ends + {p};
        isEnd := true;
      }
    }

    /** The space key: with both cells chosen, every neighbour list is
        recomputed and `astar` runs; `None` when a cell is missing. The
        result is True exactly when `end` is reachable from `start`, and then
        the cells flagged `shortest_path` are the chain of `end`, a walk from
        `start` of `g_score[end]` steps. */
    method PressSpace() returns (found: Option<bool>)
      requires Valid()
      modifies this
      ensures Valid() && SelectionKept()
      ensures found.Some? <==> startCell.Some? && endCell.Some?
      ensures found.Some? ==>
        var s, e := startCell.value, endCell.value;
        var r := Search(AsWritten, m, s, e, old(inQueue), old(outQueue));
        (found.value <==> Reachable(m, s, e)) && (found.value <==> r.status == Found) &&
        inQueue == r.inQueue && outQueue == r.outQueue && Wired() &&
        (found.value ==> var c := Chain(r.prev, r.g, e);
          WalkFrom(m, c, s, e) && |c| - 1 == r.g[e].n &&
          forall x :: x in shortestPath <==> if x in c[..|c| - 1] then x != s else x in old(shortestPath)) &&
        (!found.value ==> shortestPath == old(shortestPath))
      ensures found.None? ==>
        neighbors == old(neighbors) && inQueue == old(inQueue) && outQueue == old(outQueue) &&
        shortestPath == old(shortestPath)
    {
      if startCell.Some? && endCell.Some? {
        var s, e := startCell.value, endCell.value;
        ghost var inQ0, outQ0 := inQueue, outQueue;
        PrecomputeNeighbors();
        var b := AStar(AsWritten, s, e);
        SearchFindsIffReachable(AsWritten, m, s, e, inQ0, outQ0);
        if b {
          FoundPathIsWalk(AsWritten, m, s, e, inQ0, outQ0);
        }
        found := Some(b);
      } else {
        found := None;
      }
    }
  }
}
