/** The A* search loop of `astar` as a state machine: one `Step` is one turn
    of its `while` loop. `Inv` is the invariant every turn keeps; `Run` runs
    the loop to its end, and terminates because every turn either ends the
    loop, lowers some `g_score`, or shrinks the queue. */
module SearchLoop {
  import opened Grid

  /** A `g_score` or `f_score` value. The source starts every cell at
      `float("inf")`; every other score it writes is a natural number. */
  datatype Score = Inf | Fin(n: nat)

  /** `g_score[curr] + 1`, where infinity plus one stays infinite. */
  function Plus1(s: Score): Score
  {
    match s
    case Inf => Inf
    case Fin(k) => Fin(k + 1)
  }

  /** `a < b` on scores, infinity above every number. */
  predicate Below(a: Score, b: Score)
  {
    a.Fin? && (b.Inf? || a.n < b.n)
  }

  /** `a <= b` on scores. */
  predicate AtMost(a: Score, b: Score)
  {
    b.Inf? || (a.Fin? && a.n <= b.n)
  }

  /** `g + h`, the `f_score` that belongs to a `g_score`. */
  function FOf(g: Score, x: Pos, e: Pos): Score
  {
    match g
    case Inf => Inf
    case Fin(k) => Fin(k + HTo(x, e))
  }

  /** A priority-queue entry `(f_score, count, cell)`. */
  datatype Entry = Entry(f: nat, count: nat, cell: Pos)

  /** The tuple order the priority queue pops by: `f` first, then `count`.
      The cell is never compared, because no two entries share a count. */
  predicate Precedes(a: Entry, b: Entry)
  {
    a.f < b.f || (a.f == b.f && a.count <= b.count)
  }

  /** Where `open_set.get()` takes its entry from: an entry preceding all. */
  function MinIndex(q: seq<Entry>): (i: nat)
    requires |q| > 0
    ensures i < |q|
    ensures forall j :: 0 <= j < |q| ==> Precedes(q[i], q[j])
  {
    if |q| == 1 then 0
    else
      var k := MinIndex(q[1..]) + 1;
      if Precedes(q[0], q[k]) then 0 else k
  }

  function RemoveAt(q: seq<Entry>, i: nat): (q': seq<Entry>)
    requires i < |q|
    ensures |q'| == |q| - 1
    ensures forall j :: 0 <= j < i ==> q'[j] == q[j]
    ensures forall j :: i <= j < |q'| ==> q'[j] == q[j + 1]
  {
    q[..i] + q[i + 1..]
  }

  /** What happens to the queue entry of a cell that is already in the open
      set when its `g_score` improves. `AsWritten`: the entry keeps its old
      priority, as in the source. `DecreaseKey`: the entry's priority becomes
      the new `f_score` (the correction described in the README). */
  datatype Policy = AsWritten | DecreaseKey

  /** The queue with the entry of cell `x` given priority `f`. */
  function Reprioritize(q: seq<Entry>, x: Pos, f: nat): (q': seq<Entry>)
    ensures |q'| == |q|
    ensures forall i :: 0 <= i < |q| ==>
      q'[i] == if q[i].cell == x then Entry(f, q[i].count, x) else q[i]
  {
    if q == [] then []
    else [if q[0].cell == x then Entry(f, q[0].count, x) else q[0]] + Reprioritize(q[1..], x, f)
  }

  datatype Status = Running | Found | Exhausted

  /** The variables of `astar` between two turns of its loop, and the two
      cell flags it writes (`in_queue`, `out_queue`) as the sets of cells
      whose flag is true. */
  datatype State = State(
    queue: seq<Entry>,       // open_set, in insertion order
    openSet: set<Pos>,       // open_set_copy
    count: nat,
    g: map<Pos, Score>,      // g_score
    f: map<Pos, Score>,      // f_score
    prev: map<Pos, Pos>,     // previous
    inQueue: set<Pos>,
    outQueue: set<Pos>,
    status: Status)

  function ScoreOf(g: map<Pos, Score>, p: Pos): Score
  {
    if p in g then g[p] else Inf
  }

  /** The score table the two initialisation loops build: every cell infinite. */
  function Unset(m: Matrix): (scores: map<Pos, Score>)
    ensures scores.Keys == AllCells(m)
    ensures forall p :: p in scores ==> scores[p] == Inf
  {
    map p | p in AllCells(m) :: Inf
  }

  /** The state before the first turn: the start entry `(0, 0, start)` with
      priority 0 (not its `f_score`), `g_score[start] = 0`,
      `f_score[start] = h(start, end)`, every other score infinite. */
  function Init(m: Matrix, s: Pos, e: Pos, inQ0: set<Pos>, outQ0: set<Pos>): State
  {
    State([Entry(0, 0, s)], {s}, 0, Unset(m)[s := Fin(0)], Unset(m)[s := Fin(HTo(s, e))],
          map[], inQ0, outQ0, Running)
  }

  /** `g_score[n]`, `f_score[n]` and `previous[n]` after a better way to `n`
      through `curr`, of length `k`, is found. */
  function Lower(e: Pos, curr: Pos, n: Pos, k: nat, st: State): State
  {
    st.(g := st.g[n := Fin(k)], f := st.f[n := Fin(k + HTo(n, e))], prev := st.prev[n := curr])
  }

  /** `count += 1`, `open_set.put((f, count, n))`, `open_set_copy.add(n)`,
      `n.in_queue = True`. */
  function Enqueue(n: Pos, f: nat, st: State): State
  {
    st.(count := st.count + 1, queue := st.queue + [Entry(f, st.count + 1, n)],
        openSet := st.openSet + {n}, inQueue := st.inQueue + {n})
  }

  /** The `DecreaseKey` correction: the entry of `n` takes priority `f`. */
  function Requeue(n: Pos, f: nat, st: State): State
  {
    st.(queue := Reprioritize(st.queue, n, f))
  }

  /** One pass of the inner `for` loop: relaxing the edge from `curr` to
      `n`. */
  function RelaxOne(pol: Policy, e: Pos, curr: Pos, n: Pos, st: State): State
  {
    var t := Plus1(ScoreOf(st.g, curr));
    if !Below(t, ScoreOf(st.g, n)) then st
    else
      var st1 := Lower(e, curr, n, t.n, st);
      if n !in st.openSet then Enqueue(n, t.n + HTo(n, e), st1)
      else if pol == DecreaseKey then Requeue(n, t.n + HTo(n, e), st1)
      else st1
  }

  /** The inner `for` loop over `curr.neighbors`. */
  function Relax(pol: Policy, e: Pos, curr: Pos, ns: seq<Pos>, st: State): State
    decreases |ns|
  {
    if ns == [] then st else Relax(pol, e, curr, ns[1..], RelaxOne(pol, e, curr, ns[0], st))
  }

  /** One turn of the `while` loop. */
  function Step(pol: Policy, m: Matrix, s: Pos, e: Pos, st: State): State
    requires Rectangular(m)
  {
    if st.status != Running then st
    else if |st.queue| == 0 then st.(status := Exhausted)
    else
      var i := MinIndex(st.queue);
      var curr := st.queue[i].cell;
      var st1 := st.(queue := RemoveAt(st.queue, i), openSet := st.openSet - {curr});
      if curr == e then
        st1.(inQueue := st1.inQueue - {e}, status := Found)
      else
        var st2 := Relax(pol, e, curr, Neighbors(m, curr), st1);
        if curr != s then st2.(outQueue := st2.outQueue + {curr}) else st2
  }

  // ----- the invariant -----

  function QueueCells(q: seq<Entry>): set<Pos>
  {
    set i | 0 <= i < |q| :: q[i].cell
  }

  /** The queue holds each cell at most once, its counts rise strictly from
      front to back and never pass `count`, and `open_set_copy` is exactly the
      set of cells with an entry. */
  ghost predicate QueueOk(q: seq<Entry>, openSet: set<Pos>, count: nat)
  {
    (forall i, j :: 0 <= i < j < |q| ==> q[i].cell != q[j].cell && q[i].count < q[j].count) &&
    (forall i :: 0 <= i < |q| ==> q[i].count <= count) &&
    openSet == QueueCells(q)
  }

  /** Both tables cover every cell, `g_score[start]` is 0, `f_score` is
      `g_score + h` everywhere, and every queued cell has a finite score. */
  ghost predicate ScoresOk(m: Matrix, s: Pos, e: Pos, g: map<Pos, Score>, f: map<Pos, Score>, openSet: set<Pos>)
  {
    g.Keys == AllCells(m) && f.Keys == AllCells(m) &&
    s in g && g[s] == Fin(0) &&
    (forall x :: x in g ==> f[x] == FOf(g[x], x, e)) &&
    (forall x :: x in openSet ==> x in g && g[x].Fin?)
  }

  /** Every predecessor has a finite score strictly below its successor's. */
  ghost predicate Ranked(prev: map<Pos, Pos>, g: map<Pos, Score>)
  {
    forall n :: n in prev ==>
      n in g && prev[n] in g && g[n].Fin? && g[prev[n]].Fin? && g[prev[n]].n < g[n].n
  }

  /** `previous` links each cell to a cell whose neighbour list holds it;
      `start` never gets a predecessor, and every other cell with a finite
      score has one. */
  ghost predicate PrevOk(m: Matrix, s: Pos, prev: map<Pos, Pos>, g: map<Pos, Score>)
    requires Rectangular(m)
  {
    Ranked(prev, g) &&
    (forall n :: n in prev ==> n != s && n in Neighbors(m, prev[n])) &&
    (forall x :: x in g && g[x].Fin? && x != s ==> x in prev)
  }

  /** A closed cell (finite score, out of the open set, not `end`) has been
      expanded: each of its neighbours has a score at most one above it.
      While `curr` is being expanded, its neighbours still in `rest` are
      exempt. */
  ghost predicate ClosedOk(m: Matrix, e: Pos, g: map<Pos, Score>, openSet: set<Pos>, curr: Pos, rest: seq<Pos>)
    requires Rectangular(m)
  {
    forall x, n ::
      x in g && g[x].Fin? && x !in openSet && x != e && n in Neighbors(m, x) &&
      !(x == curr && n in rest)
      ==> n in g && g[n].Fin? && g[n].n <= g[x].n + 1
  }

  ghost predicate Closed(m: Matrix, e: Pos, g: map<Pos, Score>, openSet: set<Pos>)
    requires Rectangular(m)
  {
    ClosedOk(m, e, g, openSet, e, [])
  }

  /** Until `end` is popped it stays in the open set once it has a score; a
      found end has a score; an exhausted search has an empty queue. */
  ghost predicate StatusOk(e: Pos, status: Status, g: map<Pos, Score>, openSet: set<Pos>, q: seq<Entry>)
  {
    (status != Found && e in g && g[e].Fin? ==> e in openSet) &&
    (status == Found ==> e in g && g[e].Fin?) &&
    (status == Exhausted ==> q == [])
  }

  /** Under `DecreaseKey` every entry's priority is its cell's `f_score`,
      except the start entry, whose priority 0 is below it. */
  ghost predicate KeysExact(s: Pos, e: Pos, q: seq<Entry>, g: map<Pos, Score>)
  {
    forall i :: 0 <= i < |q| ==>
      var x := q[i].cell;
      x in g && g[x].Fin? && q[i].f <= g[x].n + HTo(x, e) &&
      (x != s ==> q[i].f == g[x].n + HTo(x, e))
  }

  ghost predicate Setting(m: Matrix, s: Pos, e: Pos)
  {
    Rectangular(m) && InBounds(m, s) && InBounds(m, e)
  }

  ghost predicate Inv(pol: Policy, m: Matrix, s: Pos, e: Pos, st: State)
  {
    Setting(m, s, e) &&
    QueueOk(st.queue, st.openSet, st.count) && ScoresOk(m, s, e, st.g, st.f, st.openSet) && PrevOk(m, s, st.prev, st.g) && Closed(m, e, st.g, st.openSet) &&
    StatusOk(e, st.status, st.g, st.openSet, st.queue) &&
    (pol == DecreaseKey ==> KeysExact(s, e, st.queue, st.g)) &&
    (pol == DecreaseKey && st.status == Found ==> NoShorterWalk(m, s, e, st.g[e].n))
  }

  /** The invariant in the middle of expanding `curr`, with `rest` the
      neighbours not yet relaxed. */
  ghost predicate RelaxInv(pol: Policy, m: Matrix, s: Pos, e: Pos, curr: Pos, rest: seq<Pos>, st: State)
  {
    Setting(m, s, e) &&
    st.status == Running && curr in st.g && st.g[curr].Fin? && curr !in st.openSet && curr != e &&
    (forall n :: n in rest ==> n in Neighbors(m, curr)) &&
    QueueOk(st.queue, st.openSet, st.count) && ScoresOk(m, s, e, st.g, st.f, st.openSet) && PrevOk(m, s, st.prev, st.g) && ClosedOk(m, e, st.g, st.openSet, curr, rest) &&
    StatusOk(e, st.status, st.g, st.openSet, st.queue) &&
    (pol == DecreaseKey ==> KeysExact(s, e, st.queue, st.g))
  }

  // ----- queue bookkeeping -----

  lemma QueueCellsAppend(q: seq<Entry>, x: Entry)
    ensures QueueCells(q + [x]) == QueueCells(q) + {x.cell}
  {
    var q' := q + [x];
    forall c | c in QueueCells(q')
      ensures c in QueueCells(q) + {x.cell}
    {
      var i :| 0 <= i < |q'| && q'[i].cell == c;
      if i < |q| {
        assert q[i].cell == c;
      }
    }
    forall c | c in QueueCells(q)
      ensures c in QueueCells(q')
    {
      var i :| 0 <= i < |q| && q[i].cell == c;
      assert q'[i].cell == c;
    }
    assert q'[|q|].cell == x.cell;
  }

  lemma QueueCellsRemove(q: seq<Entry>, i: nat)
    requires i < |q|
    requires forall a, b :: 0 <= a < b < |q| ==> q[a].cell != q[b].cell
    ensures QueueCells(RemoveAt(q, i)) == QueueCells(q) - {q[i].cell}
  {
    var q' := RemoveAt(q, i);
    forall c | c in QueueCells(q')
      ensures c in QueueCells(q) - {q[i].cell}
    {
      var j :| 0 <= j < |q'| && q'[j].cell == c;
      if j < i {
        assert q[j].cell == c;
      } else {
        assert q[j + 1].cell == c;
      }
    }
    forall c | c in QueueCells(q) - {q[i].cell}
      ensures c in QueueCells(q')
    {
      var j :| 0 <= j < |q| && q[j].cell == c;
      if j < i {
        assert q'[j].cell == c;
      } else {
        assert q'[j - 1].cell == c;
      }
    }
  }

  lemma QueueCellsReprioritize(q: seq<Entry>, x: Pos, f: nat)
    ensures QueueCells(Reprioritize(q, x, f)) == QueueCells(q)
  {
    var q' := Reprioritize(q, x, f);
    forall c | c in QueueCells(q')
      ensures c in QueueCells(q)
    {
      var j :| 0 <= j < |q'| && q'[j].cell == c;
      assert q[j].cell == c;
    }
    forall c | c in QueueCells(q)
      ensures c in QueueCells(q')
    {
      var j :| 0 <= j < |q| && q[j].cell == c;
      assert q'[j].cell == c;
    }
  }

  // ----- the initial state -----

  lemma InitInv(pol: Policy, m: Matrix, s: Pos, e: Pos, inQ0: set<Pos>, outQ0: set<Pos>)
    requires Setting(m, s, e)
    ensures Inv(pol, m, s, e, Init(m, s, e, inQ0, outQ0))
  {
    var st := Init(m, s, e, inQ0, outQ0);
    assert QueueCells(st.queue) == {s} by {
      assert st.queue[0].cell == s;
    }
  }

  // ----- one relaxation -----

  /** Scores only go down. */
  ghost predicate Lowered(g: map<Pos, Score>, g': map<Pos, Score>)
  {
    g'.Keys == g.Keys && forall x :: x in g ==> AtMost(g'[x], g[x])
  }

  /** Scores only go down, and one of them went down. */
  ghost predicate Improved(g: map<Pos, Score>, g': map<Pos, Score>)
  {
    Lowered(g, g') && exists x :: x in g && Below(g'[x], g[x])
  }

  /** What one expansion does to the loop's measure: nothing (and the queue
      keeps its length), or an improvement of the scores. */
  ghost predicate Progressed(st: State, st': State)
  {
    (st'.g == st.g && |st'.queue| == |st.queue|) || Improved(st.g, st'.g)
  }

  lemma QueueAfterInsert(st: State, st': State, x: Entry)
    requires QueueOk(st.queue, st.openSet, st.count) && x.cell !in st.openSet && x.count == st.count + 1
    requires st'.queue == st.queue + [x] && st'.openSet == st.openSet + {x.cell} && st'.count == st.count + 1
    ensures QueueOk(st'.queue, st'.openSet, st'.count)
  {
    QueueCellsAppend(st.queue, x);
    var q' := st.queue + [x];
    forall i, j | 0 <= i < j < |q'|
      ensures q'[i].cell != q'[j].cell && q'[i].count < q'[j].count
    {
      if j == |st.queue| {
        assert q'[i].cell in QueueCells(st.queue);
      }
    }
  }

  lemma QueueAfterReprioritize(st: State, st': State, x: Pos, f: nat)
    requires QueueOk(st.queue, st.openSet, st.count)
    requires st'.queue == Reprioritize(st.queue, x, f) && st'.openSet == st.openSet && st'.count == st.count
    ensures QueueOk(st'.queue, st'.openSet, st'.count)
  {
    QueueCellsReprioritize(st.queue, x, f);
  }

  /** Lowering the score of `n` to `t`, with `f_score` following, keeps the
      score tables well formed. */
  lemma ScoresAfterRelax(m: Matrix, s: Pos, e: Pos, st: State, st': State, n: Pos, t: nat)
    requires ScoresOk(m, s, e, st.g, st.f, st.openSet) && n in st.g && n != s
    requires st'.g == st.g[n := Fin(t)] && st'.f == st.f[n := Fin(t + HTo(n, e))]
    requires st'.openSet == st.openSet || st'.openSet == st.openSet + {n}
    ensures ScoresOk(m, s, e, st'.g, st'.f, st'.openSet)
  {
  }

  /** Making `curr` the predecessor of its neighbour `n`, whose score drops to
      one more than `curr`'s, keeps `previous` well formed. */
  lemma PrevAfterRelax(m: Matrix, s: Pos, st: State, st': State, curr: Pos, n: Pos, t: nat)
    requires Rectangular(m) && PrevOk(m, s, st.prev, st.g)
    requires n in st.g && curr in st.g && st.g[curr].Fin? && t == st.g[curr].n + 1 && n != s
    requires n in Neighbors(m, curr) && Below(Fin(t), st.g[n])
    requires st'.g == st.g[n := Fin(t)] && st'.prev == st.prev[n := curr]
    ensures PrevOk(m, s, st'.prev, st'.g)
  {
    var g' := st.g[n := Fin(t)];
    var prev' := st.prev[n := curr];
    assert n != curr by {
      NeighborsExact(m, curr, n);
    }
    forall y | y in prev'
      ensures y in g' && prev'[y] in g' && g'[y].Fin? && g'[prev'[y]].Fin? && g'[prev'[y]].n < g'[y].n
    {
      if y != n && st.prev[y] == n {
        assert g'[prev'[y]].n < st.g[n].n;
      }
    }
  }

  /** After relaxing `rest[0]`, the closed-cell condition holds with one
      neighbour of `curr` fewer exempt. */
  lemma ClosedAfterRelax(m: Matrix, e: Pos, st: State, st': State, curr: Pos, rest: seq<Pos>)
    requires Rectangular(m) && rest != [] && ClosedOk(m, e, st.g, st.openSet, curr, rest)
    requires curr in st.g && st.g[curr].Fin? && curr !in st.openSet
    requires rest[0] in st'.g && st'.g[rest[0]].Fin? && st'.g[rest[0]].n <= st.g[curr].n + 1
    requires Lowered(st.g, st'.g) && st.openSet <= st'.openSet
    requires forall x :: x in st.g && x != rest[0] ==> st'.g[x] == st.g[x]
    requires rest[0] != curr && (st'.g != st.g ==> rest[0] in st'.openSet)
    ensures ClosedOk(m, e, st'.g, st'.openSet, curr, rest[1..])
  {
    forall x, j |
      x in st'.g && st'.g[x].Fin? && x !in st'.openSet && x != e && j in Neighbors(m, x) &&
      !(x == curr && j in rest[1..])
      ensures j in st'.g && st'.g[j].Fin? && st'.g[j].n <= st'.g[x].n + 1
    {
      if x == curr && j == rest[0] {
      } else {
        assert x != rest[0] || st'.g == st.g;
        assert st'.g[x] == st.g[x];
        assert j in st.g && st.g[j].Fin? && st.g[j].n <= st.g[x].n + 1;
      }
    }
  }

  lemma KeysAfterInsert(s: Pos, e: Pos, st: State, st': State, n: Pos, t: nat)
    requires KeysExact(s, e, st.queue, st.g) && n !in QueueCells(st.queue) && n != s
    requires st'.g == st.g[n := Fin(t)] && st'.queue == st.queue + [Entry(t + HTo(n, e), st.count + 1, n)]
    ensures KeysExact(s, e, st'.queue, st'.g)
  {
    var q' := st.queue + [Entry(t + HTo(n, e), st.count + 1, n)];
    forall i | 0 <= i < |st.queue|
      ensures q'[i].cell != n
    {
      assert st.queue[i].cell in QueueCells(st.queue);
    }
  }

  lemma KeysAfterReprioritize(s: Pos, e: Pos, st: State, st': State, n: Pos, t: nat)
    requires KeysExact(s, e, st.queue, st.g) && n != s
    requires st'.g == st.g[n := Fin(t)] && st'.queue == Reprioritize(st.queue, n, t + HTo(n, e))
    ensures KeysExact(s, e, st'.queue, st'.g)
  {
  }

  lemma LowerOne(g: map<Pos, Score>, n: Pos, t: Score)
    requires n in g && Below(t, g[n])
    ensures Improved(g, g[n := t])
  {
    assert Below(g[n := t][n], g[n]);
  }

  /** The relaxation of `rest[0]` when it does not improve its score. */
  lemma RelaxSkipInv(pol: Policy, m: Matrix, s: Pos, e: Pos, curr: Pos, rest: seq<Pos>, st: State)
    requires RelaxInv(pol, m, s, e, curr, rest, st) && rest != []
    requires !Below(Plus1(ScoreOf(st.g, curr)), ScoreOf(st.g, rest[0]))
    ensures RelaxInv(pol, m, s, e, curr, rest[1..], st)
  {
    NeighborsExact(m, curr, rest[0]);
    ClosedAfterRelax(m, e, st, st, curr, rest);
  }

  /** `st'` is `RelaxOne` on `st` when the score of `n` drops to `k`, spelt
      out field by field. */
  ghost predicate LoweredTo(pol: Policy, e: Pos, curr: Pos, n: Pos, k: nat, st: State, st': State)
  {
    st'.g == st.g[n := Fin(k)] && st'.f == st.f[n := Fin(k + HTo(n, e))] &&
    st'.prev == st.prev[n := curr] && st'.status == st.status && st'.outQueue == st.outQueue &&
    if n !in st.openSet then
      st'.queue == st.queue + [Entry(k + HTo(n, e), st.count + 1, n)] && st'.count == st.count + 1 &&
      st'.openSet == st.openSet + {n} && st'.inQueue == st.inQueue + {n}
    else
      st'.count == st.count && st'.openSet == st.openSet && st'.inQueue == st.inQueue &&
      st'.queue == (if pol == DecreaseKey then Reprioritize(st.queue, n, k + HTo(n, e)) else st.queue)
  }

  lemma RelaxOneLowers(pol: Policy, e: Pos, curr: Pos, n: Pos, st: State)
    requires curr in st.g && st.g[curr].Fin? && Below(Fin(st.g[curr].n + 1), ScoreOf(st.g, n))
    ensures LoweredTo(pol, e, curr, n, st.g[curr].n + 1, st, RelaxOne(pol, e, curr, n, st))
  {
  }

  /** The relaxation of `rest[0]` when its score drops to `k`: the tables. */
  lemma LoweredTables(pol: Policy, m: Matrix, s: Pos, e: Pos, curr: Pos, rest: seq<Pos>, st: State, k: nat, st': State)
    requires Rectangular(m) && rest != [] && rest[0] in Neighbors(m, curr)
    requires ScoresOk(m, s, e, st.g, st.f, st.openSet) && PrevOk(m, s, st.prev, st.g)
    requires curr in st.g && st.g[curr].Fin?
    requires k == st.g[curr].n + 1 && Below(Fin(k), ScoreOf(st.g, rest[0]))
    requires LoweredTo(pol, e, curr, rest[0], k, st, st')
    ensures ScoresOk(m, s, e, st'.g, st'.f, st'.openSet) && PrevOk(m, s, st'.prev, st'.g) && Improved(st.g, st'.g)
  {
    NeighborsExact(m, curr, rest[0]);
    ScoresAfterRelax(m, s, e, st, st', rest[0], k);
    PrevAfterRelax(m, s, st, st', curr, rest[0], k);
    LowerOne(st.g, rest[0], Fin(k));
  }

  /** Lowering the score of `n` to `k` keeps the queue well formed. */
  lemma LoweredQueue(pol: Policy, e: Pos, curr: Pos, n: Pos, st: State, k: nat, st': State)
    requires QueueOk(st.queue, st.openSet, st.count) && LoweredTo(pol, e, curr, n, k, st, st')
    ensures QueueOk(st'.queue, st'.openSet, st'.count)
  {
    if n !in st.openSet {
      QueueAfterInsert(st, st', Entry(k + HTo(n, e), st.count + 1, n));
    } else if pol == DecreaseKey {
      QueueAfterReprioritize(st, st', n, k + HTo(n, e));
    }
  }

  /** Lowering the score of `n` to `k` keeps the priorities exact under
      `DecreaseKey`. */
  lemma LoweredKeys(e: Pos, s: Pos, curr: Pos, n: Pos, st: State, k: nat, st': State)
    requires QueueOk(st.queue, st.openSet, st.count) && KeysExact(s, e, st.queue, st.g) && n != s && LoweredTo(DecreaseKey, e, curr, n, k, st, st')
    ensures KeysExact(s, e, st'.queue, st'.g)
  {
    if n !in st.openSet {
      KeysAfterInsert(s, e, st, st', n, k);
    } else {
      KeysAfterReprioritize(s, e, st, st', n, k);
    }
  }

  /** The relaxation of `rest[0]` when its score drops to `k`: the closed
      cells and the status. */
  lemma LoweredClosed(pol: Policy, m: Matrix, e: Pos, curr: Pos, rest: seq<Pos>, st: State, k: nat, st': State)
    requires Rectangular(m) && rest != [] && rest[0] in st.g && st.status == Running
    requires curr in st.g && st.g[curr].Fin? && curr !in st.openSet
    requires ClosedOk(m, e, st.g, st.openSet, curr, rest) && StatusOk(e, st.status, st.g, st.openSet, st.queue)
    requires k == st.g[curr].n + 1 && Below(Fin(k), ScoreOf(st.g, rest[0]))
    requires LoweredTo(pol, e, curr, rest[0], k, st, st')
    ensures ClosedOk(m, e, st'.g, st'.openSet, curr, rest[1..]) && StatusOk(e, st'.status, st'.g, st'.openSet, st'.queue)
    ensures curr in st'.g && st'.g[curr].Fin? && curr !in st'.openSet
  {
    LowerOne(st.g, rest[0], Fin(k));
    ClosedAfterRelax(m, e, st, st', curr, rest);
  }

  /** The relaxation of `rest[0]` when it improves its score. */
  lemma RelaxLowerInv(pol: Policy, m: Matrix, s: Pos, e: Pos, curr: Pos, rest: seq<Pos>, st: State)
    requires RelaxInv(pol, m, s, e, curr, rest, st) && rest != []
    requires Below(Plus1(ScoreOf(st.g, curr)), ScoreOf(st.g, rest[0]))
    ensures RelaxInv(pol, m, s, e, curr, rest[1..], RelaxOne(pol, e, curr, rest[0], st))
    ensures Improved(st.g, RelaxOne(pol, e, curr, rest[0], st).g)
  {
    var k := st.g[curr].n + 1;
    var st' := RelaxOne(pol, e, curr, rest[0], st);
    RelaxOneLowers(pol, e, curr, rest[0], st);
    LoweredTables(pol, m, s, e, curr, rest, st, k, st');
    LoweredQueue(pol, e, curr, rest[0], st, k, st');
    if pol == DecreaseKey {
      LoweredKeys(e, s, curr, rest[0], st, k, st');
    }
    NeighborsExact(m, curr, rest[0]);
    LoweredClosed(pol, m, e, curr, rest, st, k, st');
  }

  lemma ImprovedThen(g: map<Pos, Score>, g1: map<Pos, Score>, g2: map<Pos, Score>)
    requires Improved(g, g1) && Lowered(g1, g2)
    ensures Improved(g, g2)
  {
    var x :| x in g && Below(g1[x], g[x]);
    assert Below(g2[x], g[x]);
  }

  /** The whole inner loop keeps the invariant, and either changes nothing or
      improves some score. */
  lemma {:induction false} RelaxAllInv(pol: Policy, m: Matrix, s: Pos, e: Pos, curr: Pos, rest: seq<Pos>, st: State)
    requires RelaxInv(pol, m, s, e, curr, rest, st)
    ensures RelaxInv(pol, m, s, e, curr, [], Relax(pol, e, curr, rest, st))
    ensures Progressed(st, Relax(pol, e, curr, rest, st))
    decreases |rest|
  {
    if rest != [] {
      var st1 := RelaxOne(pol, e, curr, rest[0], st);
      if Below(Plus1(ScoreOf(st.g, curr)), ScoreOf(st.g, rest[0])) {
        RelaxLowerInv(pol, m, s, e, curr, rest, st);
        RelaxAllInv(pol, m, s, e, curr, rest[1..], st1);
        var st2 := Relax(pol, e, curr, rest[1..], st1);
        if st2.g != st1.g {
          ImprovedThen(st.g, st1.g, st2.g);
        }
      } else {
        RelaxSkipInv(pol, m, s, e, curr, rest, st);
        RelaxAllInv(pol, m, s, e, curr, rest[1..], st1);
      }
    }
  }

  // ----- one turn of the loop -----

  /** A turn that pops a cell other than `end`, written out. */
  lemma StepExpands(pol: Policy, m: Matrix, s: Pos, e: Pos, st: State, i: nat, ns: seq<Pos>)
    requires Rectangular(m) && st.status == Running && |st.queue| > 0 && MinIndex(st.queue) == i
    requires st.queue[i].cell != e && ns == Neighbors(m, st.queue[i].cell)
    ensures Step(pol, m, s, e, st) ==
      var curr := st.queue[i].cell;
      var st2 := Relax(pol, e, curr, ns, st.(queue := RemoveAt(st.queue, i), openSet := st.openSet - {curr}));
      if curr != s then st2.(outQueue := st2.outQueue + {curr}) else st2
  {
  }

  /** An edge that does not improve its far end changes nothing. */
  lemma RelaxOneKeeps(pol: Policy, e: Pos, curr: Pos, n: Pos, st: State)
    requires !Below(Plus1(ScoreOf(st.g, curr)), ScoreOf(st.g, n))
    ensures RelaxOne(pol, e, curr, n, st) == st
  {
  }


  /** `open_set.get()` pops the entry with the least `f_score`, and among
      entries of equal `f_score` the one queued first. */
  lemma PopOrder(st: State)
    requires QueueOk(st.queue, st.openSet, st.count) && |st.queue| > 0
    ensures forall j :: 0 <= j < |st.queue| ==> st.queue[MinIndex(st.queue)].f <= st.queue[j].f
    ensures forall j :: 0 <= j < |st.queue| && st.queue[j].f == st.queue[MinIndex(st.queue)].f ==>
      MinIndex(st.queue) <= j
  {
  }

  /** With distinct counts, the entry that precedes every other is the one
      popped. */
  lemma MinIndexUnique(q: seq<Entry>, i: nat)
    requires forall a, b :: 0 <= a < b < |q| ==> q[a].count != q[b].count
    requires i < |q| && forall j :: 0 <= j < |q| ==> Precedes(q[i], q[j])
    ensures MinIndex(q) == i
  {
  }

  lemma QueueAfterPop(st: State, st': State, i: nat)
    requires QueueOk(st.queue, st.openSet, st.count) && i < |st.queue|
    requires st'.queue == RemoveAt(st.queue, i) && st'.openSet == st.openSet - {st.queue[i].cell}
    requires st'.count == st.count
    ensures QueueOk(st'.queue, st'.openSet, st'.count)
  {
    QueueCellsRemove(st.queue, i);
    var q := st.queue;
    var q' := st'.queue;
    forall a, b | 0 <= a < b < |q'|
      ensures q'[a].cell != q'[b].cell && q'[a].count < q'[b].count
    {
      var a0 := if a < i then a else a + 1;
      var b0 := if b < i then b else b + 1;
      assert q'[a] == q[a0] && q'[b] == q[b0];
    }
  }

  lemma KeysAfterPop(s: Pos, e: Pos, st: State, st': State, i: nat)
    requires KeysExact(s, e, st.queue, st.g) && i < |st.queue|
    requires st'.queue == RemoveAt(st.queue, i) && st'.g == st.g
    ensures KeysExact(s, e, st'.queue, st'.g)
  {
    forall j | 0 <= j < |st'.queue|
      ensures st'.queue[j] == st.queue[if j < i then j else j + 1]
    {
    }
  }

  /** Before `end` is popped, every walk from `start` to `end` passes through
      an open cell whose score is at most its place on the walk, by induction
      along the walk from the cell at place `i`. */
  lemma {:induction false} OpenOnWalk(m: Matrix, s: Pos, e: Pos, st: State, w: seq<Pos>, i: nat)
    requires Setting(m, s, e) && ScoresOk(m, s, e, st.g, st.f, st.openSet) && Closed(m, e, st.g, st.openSet) && StatusOk(e, st.status, st.g, st.openSet, st.queue)
    requires st.status != Found
    requires WalkFrom(m, w, s, e) && i < |w|
    requires w[i] in st.g && st.g[w[i]].Fin? && st.g[w[i]].n <= i
    ensures exists j :: i <= j < |w| && w[j] in st.openSet && st.g[w[j]].n <= j
    decreases |w| - i
  {
    if w[i] !in st.openSet {
      assert w[i] != e;
      assert i < |w| - 1;
      assert w[i + 1] in Neighbors(m, w[i]);
      OpenOnWalk(m, s, e, st, w, i + 1);
    }
  }

  /** While `end` has not been popped, a reachable `end` leaves the open set
      non-empty. */
  lemma ReachableKeepsOpen(m: Matrix, s: Pos, e: Pos, st: State, w: seq<Pos>)
    requires Setting(m, s, e) && ScoresOk(m, s, e, st.g, st.f, st.openSet) && Closed(m, e, st.g, st.openSet) && StatusOk(e, st.status, st.g, st.openSet, st.queue)
    requires st.status != Found && WalkFrom(m, w, s, e)
    ensures st.openSet != {}
  {
    OpenOnWalk(m, s, e, st, w, 0);
  }

  /** Under `DecreaseKey`, when `end` is at the head of the queue its score is
      no more than the length of any walk from `start` to `end`. */
  lemma PopsShortest(m: Matrix, s: Pos, e: Pos, st: State)
    requires Setting(m, s, e) && QueueOk(st.queue, st.openSet, st.count) && ScoresOk(m, s, e, st.g, st.f, st.openSet) && Closed(m, e, st.g, st.openSet) && StatusOk(e, st.status, st.g, st.openSet, st.queue)
    requires KeysExact(s, e, st.queue, st.g) && st.status != Found
    requires |st.queue| > 0 && st.queue[MinIndex(st.queue)].cell == e
    ensures e in st.g && st.g[e].Fin? && NoShorterWalk(m, s, e, st.g[e].n)
  {
    var q := st.queue;
    var i := MinIndex(q);
    assert q[i].cell in QueueCells(q);
    forall w | WalkFrom(m, w, s, e)
      ensures st.g[e].n <= |w| - 1
    {
      OpenOnWalk(m, s, e, st, w, 0);
      var j :| 0 <= j < |w| && w[j] in st.openSet && st.g[w[j]].n <= j;
      var k :| 0 <= k < |q| && q[k].cell == w[j];
      HAlongWalk(m, w, j, e);
      assert q[k].f <= |w| - 1;
      assert q[i].f <= q[k].f;
      if e != s {
        assert q[i].f == st.g[e].n + HTo(e, e);
      }
    }
  }

  /** The cells not yet reached. */
  ghost function Unreached(g: map<Pos, Score>): set<Pos>
  {
    set x | x in g && g[x].Inf?
  }

  /** One token `(x, k)` for each unit a finite score could still drop by. */
  ghost function Slack(g: map<Pos, Score>): set<(Pos, nat)>
  {
    set x, k: nat | x in g && g[x].Fin? && k < g[x].n :: (x, k)
  }

  /** An improvement reaches a new cell or lowers a reached one. */
  lemma ImprovedShrinks(g: map<Pos, Score>, g': map<Pos, Score>)
    requires Improved(g, g')
    ensures Unreached(g') < Unreached(g) || (Unreached(g') == Unreached(g) && Slack(g') < Slack(g))
  {
    var x :| x in g && Below(g'[x], g[x]);
    assert Unreached(g') <= Unreached(g);
    if g[x].Inf? {
      assert x in Unreached(g) && x !in Unreached(g');
    } else if Unreached(g') == Unreached(g) {
      forall p | p in Slack(g')
        ensures p in Slack(g)
      {
        var y, k: nat :| y in g' && g'[y].Fin? && k < g'[y].n && p == (y, k);
        assert y !in Unreached(g');
      }
      assert (x, g'[x].n) in Slack(g) - Slack(g');
    }
  }

  /** The loop's measure drops from `st` to `st'`. */
  ghost predicate Decreases(st: State, st': State)
  {
    (st.status == Running && st'.status != Running) ||
    (st.status == st'.status && (Unreached(st'.g) < Unreached(st.g) ||
      (Unreached(st'.g) == Unreached(st.g) && (Slack(st'.g) < Slack(st.g) ||
        (Slack(st'.g) == Slack(st.g) && |st'.queue| < |st.queue|)))))
  }

  /** The turn that finds the queue empty. */
  lemma StepExhaustedInv(pol: Policy, m: Matrix, s: Pos, e: Pos, st: State)
    requires Inv(pol, m, s, e, st) && st.status == Running && |st.queue| == 0
    ensures Inv(pol, m, s, e, Step(pol, m, s, e, st))
  {
  }

  /** Popping `end` closes no cell the closed-cell condition covers. */
  lemma ClosedAfterPopEnd(m: Matrix, e: Pos, g: map<Pos, Score>, openSet: set<Pos>)
    requires Rectangular(m) && Closed(m, e, g, openSet)
    ensures Closed(m, e, g, openSet - {e})
  {
  }

  /** The turn that pops `end`. */
  lemma StepFoundInv(pol: Policy, m: Matrix, s: Pos, e: Pos, st: State, i: nat, st': State)
    requires Inv(pol, m, s, e, st) && st.status == Running && |st.queue| > 0
    requires i == MinIndex(st.queue) && st.queue[i].cell == e
    requires st' == st.(queue := RemoveAt(st.queue, i), openSet := st.openSet - {e},
                        inQueue := st.inQueue - {e}, status := Found)
    ensures Inv(pol, m, s, e, st')
  {
    assert e in QueueCells(st.queue);
    QueueAfterPop(st, st', i);
    ClosedAfterPopEnd(m, e, st.g, st.openSet);
    if pol == DecreaseKey {
      KeysAfterPop(s, e, st, st', i);
      PopsShortest(m, s, e, st);
    }
  }

  /** Popping `curr` opens the exemption for all of its neighbours. */
  lemma ClosedAfterPop(m: Matrix, e: Pos, g: map<Pos, Score>, openSet: set<Pos>, curr: Pos)
    requires Rectangular(m) && Closed(m, e, g, openSet)
    ensures ClosedOk(m, e, g, openSet - {curr}, curr, Neighbors(m, curr))
  {
  }

  /** Taking a cell out of the open set keeps the score invariant. */
  lemma ScoresAfterPop(m: Matrix, s: Pos, e: Pos, g: map<Pos, Score>, f: map<Pos, Score>, openSet: set<Pos>, x: Pos)
    requires ScoresOk(m, s, e, g, f, openSet)
    ensures ScoresOk(m, s, e, g, f, openSet - {x})
  {
  }

  /** Popping a cell other than `end` keeps the status invariant. */
  lemma StatusAfterPop(e: Pos, g: map<Pos, Score>, openSet: set<Pos>, q: seq<Entry>, q': seq<Entry>, x: Pos)
    requires StatusOk(e, Running, g, openSet, q) && x != e
    ensures StatusOk(e, Running, g, openSet - {x}, q')
  {
  }

  /** `curr` just popped, before its neighbours are relaxed. */
  lemma PoppedInv(pol: Policy, m: Matrix, s: Pos, e: Pos, st: State, i: nat, st1: State)
    requires Inv(pol, m, s, e, st) && st.status == Running && i < |st.queue| && st.queue[i].cell != e
    requires st1 == st.(queue := RemoveAt(st.queue, i), openSet := st.openSet - {st.queue[i].cell})
    ensures RelaxInv(pol, m, s, e, st.queue[i].cell, Neighbors(m, st.queue[i].cell), st1)
  {
    var curr := st.queue[i].cell;
    assert curr in QueueCells(st.queue);
    assert curr in st.g && st.g[curr].Fin?;
    QueueAfterPop(st, st1, i);
    ScoresAfterPop(m, s, e, st.g, st.f, st.openSet, curr);
    StatusAfterPop(e, st.g, st.openSet, st.queue, st1.queue, curr);
    ClosedAfterPop(m, e, st.g, st.openSet, curr);
    if pol == DecreaseKey {
      KeysAfterPop(s, e, st, st1, i);
    }
  }

  /** After the inner loop, the invariant holds whatever `out_queue` does. */
  lemma RelaxedInv(pol: Policy, m: Matrix, s: Pos, e: Pos, curr: Pos, st: State, st': State)
    requires RelaxInv(pol, m, s, e, curr, [], st)
    requires st' == st.(outQueue := st'.outQueue)
    ensures Inv(pol, m, s, e, st')
  {
  }

  /** The end of an expansion: the invariant is back, and the measure has
      dropped, through the pop or through an improvement. */
  lemma ExpandedInv(pol: Policy, m: Matrix, s: Pos, e: Pos, curr: Pos, st: State, st1: State, st2: State, st3: State)
    requires st.status == Running && st1.g == st.g && |st1.queue| < |st.queue|
    requires RelaxInv(pol, m, s, e, curr, [], st2) && Progressed(st1, st2)
    requires st3 == st2.(outQueue := st3.outQueue)
    ensures Inv(pol, m, s, e, st3)
    ensures Decreases(st, st3)
  {
    RelaxedInv(pol, m, s, e, curr, st2, st3);
    if st2.g != st1.g {
      ImprovedShrinks(st.g, st3.g);
    }
  }

  /** The turn that expands a cell other than `end`. */
  lemma StepExpandInv(pol: Policy, m: Matrix, s: Pos, e: Pos, st: State)
    requires Inv(pol, m, s, e, st) && st.status == Running && |st.queue| > 0
    requires st.queue[MinIndex(st.queue)].cell != e
    ensures Inv(pol, m, s, e, Step(pol, m, s, e, st))
    ensures Decreases(st, Step(pol, m, s, e, st))
  {
    var i := MinIndex(st.queue);
    var curr := st.queue[i].cell;
    var ns := Neighbors(m, curr);
    var st1 := st.(queue := RemoveAt(st.queue, i), openSet := st.openSet - {curr});
    PoppedInv(pol, m, s, e, st, i, st1);
    RelaxAllInv(pol, m, s, e, curr, ns, st1);
    StepExpands(pol, m, s, e, st, i, ns);
    var st3 := Step(pol, m, s, e, st);
    ExpandedInv(pol, m, s, e, curr, st, st1, Relax(pol, e, curr, ns, st1), st3);
  }

  /** Every turn keeps the invariant, and a turn of a running search lowers
      the measure. */
  lemma StepInv(pol: Policy, m: Matrix, s: Pos, e: Pos, st: State)
    requires Inv(pol, m, s, e, st)
    ensures Inv(pol, m, s, e, Step(pol, m, s, e, st))
    ensures st.status == Running ==> Decreases(st, Step(pol, m, s, e, st))
  {
    if st.status == Running {
      if |st.queue| == 0 {
        StepExhaustedInv(pol, m, s, e, st);
      } else if st.queue[MinIndex(st.queue)].cell == e {
        var i := MinIndex(st.queue);
        StepFoundInv(pol, m, s, e, st, i, Step(pol, m, s, e, st));
      } else {
        StepExpandInv(pol, m, s, e, st);
      }
    }
  }

  // ----- the whole loop -----

  /** The `while` loop from `st` until it returns. */
  function Run(pol: Policy, m: Matrix, s: Pos, e: Pos, st: State): (r: State)
    requires Inv(pol, m, s, e, st)
    ensures Inv(pol, m, s, e, r) && r.status != Running
    decreases if st.status == Running then 1 else 0, Unreached(st.g), Slack(st.g), |st.queue|
  {
    if st.status != Running then st
    else
      StepInv(pol, m, s, e, st);
      Run(pol, m, s, e, Step(pol, m, s, e, st))
  }

  /** A search that has stopped stays where it is. */
  lemma RunStops(pol: Policy, m: Matrix, s: Pos, e: Pos, st: State)
    requires Inv(pol, m, s, e, st) && st.status != Running
    ensures Run(pol, m, s, e, st) == st
  {
  }

  /** `astar(grid, start, end)` from its first line to its `return`, with the
      cells' earlier `in_queue`/`out_queue` flags `inQ0`/`outQ0`. */
  function Search(pol: Policy, m: Matrix, s: Pos, e: Pos, inQ0: set<Pos>, outQ0: set<Pos>): (r: State)
    requires Setting(m, s, e)
    ensures Inv(pol, m, s, e, r) && r.status != Running
  {
    InitInv(pol, m, s, e, inQ0, outQ0);
    Run(pol, m, s, e, Init(m, s, e, inQ0, outQ0))
  }

  // ----- the cell flags -----

  /** The cells with a finite score other than `start`: exactly the cells
      the loop has put into the queue at least once. */
  ghost function Reached(s: Pos, g: map<Pos, Score>): set<Pos>
  {
    set x | x in g && g[x].Fin? && x != s
  }

  /** `in_queue` is set on every cell ever queued (not on `start`, which is
      queued without it), and cleared on `end` once it is found. */
  ghost predicate InFlags(s: Pos, e: Pos, inQ0: set<Pos>, status: Status, g: map<Pos, Score>, inQueue: set<Pos>)
  {
    inQueue == if status == Found then (inQ0 + Reached(s, g)) - {e} else inQ0 + Reached(s, g)
  }

  /** `out_queue` is only ever set on a cell that was queued and is not
      `end`, and it is set on every closed cell other than `start` and `end`
      (except `skip`, the cell being expanded). */
  ghost predicate OutFlags(s: Pos, e: Pos, outQ0: set<Pos>, g: map<Pos, Score>, openSet: set<Pos>,
                           outQueue: set<Pos>, skip: set<Pos>)
  {
    outQ0 <= outQueue && outQueue <= outQ0 + (Reached(s, g) - {e}) &&
    forall x :: x in g && g[x].Fin? && x !in openSet && x != s && x != e && x !in skip ==> x in outQueue
  }

  ghost predicate FlagsOk(s: Pos, e: Pos, inQ0: set<Pos>, outQ0: set<Pos>, st: State)
  {
    InFlags(s, e, inQ0, st.status, st.g, st.inQueue) && OutFlags(s, e, outQ0, st.g, st.openSet, st.outQueue, {})
  }

  lemma InitFlags(m: Matrix, s: Pos, e: Pos, inQ0: set<Pos>, outQ0: set<Pos>)
    requires Setting(m, s, e)
    ensures FlagsOk(s, e, inQ0, outQ0, Init(m, s, e, inQ0, outQ0))
  {
    var st := Init(m, s, e, inQ0, outQ0);
    assert Reached(s, st.g) == {};
  }

  /** Lowering the score of `n`, queued or not, keeps the flags. */
  lemma LoweredFlags(pol: Policy, s: Pos, e: Pos, inQ0: set<Pos>, outQ0: set<Pos>, curr: Pos, n: Pos,
                     k: nat, st: State, st': State)
    requires InFlags(s, e, inQ0, Running, st.g, st.inQueue)
    requires OutFlags(s, e, outQ0, st.g, st.openSet, st.outQueue, {curr})
    requires forall x :: x in st.openSet ==> x in st.g && st.g[x].Fin?
    requires n in st.g && n != s && LoweredTo(pol, e, curr, n, k, st, st')
    ensures InFlags(s, e, inQ0, Running, st'.g, st'.inQueue)
    ensures OutFlags(s, e, outQ0, st'.g, st'.openSet, st'.outQueue, {curr})
  {
    assert Reached(s, st'.g) == Reached(s, st.g) + {n};
  }

  /** One relaxation keeps the flags. */
  lemma RelaxOneFlags(pol: Policy, m: Matrix, s: Pos, e: Pos, inQ0: set<Pos>, outQ0: set<Pos>,
                      curr: Pos, n: Pos, st: State)
    requires Rectangular(m) && st.g.Keys == AllCells(m) && s in st.g && st.g[s] == Fin(0)
    requires curr in st.g && st.g[curr].Fin? && n in Neighbors(m, curr)
    requires forall x :: x in st.openSet ==> x in st.g && st.g[x].Fin?
    requires InFlags(s, e, inQ0, Running, st.g, st.inQueue)
    requires OutFlags(s, e, outQ0, st.g, st.openSet, st.outQueue, {curr})
    ensures var st' := RelaxOne(pol, e, curr, n, st);
      InFlags(s, e, inQ0, Running, st'.g, st'.inQueue) &&
      OutFlags(s, e, outQ0, st'.g, st'.openSet, st'.outQueue, {curr})
  {
    if Below(Plus1(ScoreOf(st.g, curr)), ScoreOf(st.g, n)) {
      NeighborsExact(m, curr, n);
      RelaxOneLowers(pol, e, curr, n, st);
      LoweredFlags(pol, s, e, inQ0, outQ0, curr, n, st.g[curr].n + 1, st, RelaxOne(pol, e, curr, n, st));
    } else {
      RelaxOneKeeps(pol, e, curr, n, st);
    }
  }

  /** The inner loop keeps the flags. */
  lemma {:induction false} RelaxFlags(pol: Policy, m: Matrix, s: Pos, e: Pos, inQ0: set<Pos>, outQ0: set<Pos>,
                                      curr: Pos, rest: seq<Pos>, st: State)
    requires RelaxInv(pol, m, s, e, curr, rest, st)
    requires InFlags(s, e, inQ0, Running, st.g, st.inQueue)
    requires OutFlags(s, e, outQ0, st.g, st.openSet, st.outQueue, {curr})
    ensures var st' := Relax(pol, e, curr, rest, st);
      InFlags(s, e, inQ0, Running, st'.g, st'.inQueue) &&
      OutFlags(s, e, outQ0, st'.g, st'.openSet, st'.outQueue, {curr})
    decreases |rest|
  {
    if rest != [] {
      RelaxOneFlags(pol, m, s, e, inQ0, outQ0, curr, rest[0], st);
      if Below(Plus1(ScoreOf(st.g, curr)), ScoreOf(st.g, rest[0])) {
        RelaxLowerInv(pol, m, s, e, curr, rest, st);
      } else {
        RelaxSkipInv(pol, m, s, e, curr, rest, st);
      }
      RelaxFlags(pol, m, s, e, inQ0, outQ0, curr, rest[1..], RelaxOne(pol, e, curr, rest[0], st));
    }
  }

  lemma FoundFlags(s: Pos, e: Pos, inQ0: set<Pos>, outQ0: set<Pos>, st: State, st': State)
    requires FlagsOk(s, e, inQ0, outQ0, st) && st.status == Running
    requires st'.g == st.g && st'.openSet == st.openSet - {e} && st'.inQueue == st.inQueue - {e}
    requires st'.outQueue == st.outQueue && st'.status == Found
    ensures FlagsOk(s, e, inQ0, outQ0, st')
  {
  }

  lemma PoppedFlags(s: Pos, e: Pos, inQ0: set<Pos>, outQ0: set<Pos>, curr: Pos, st: State, st': State)
    requires FlagsOk(s, e, inQ0, outQ0, st) && st.status == Running
    requires st'.g == st.g && st'.openSet == st.openSet - {curr} && st'.inQueue == st.inQueue
    requires st'.outQueue == st.outQueue
    ensures InFlags(s, e, inQ0, Running, st'.g, st'.inQueue)
    ensures OutFlags(s, e, outQ0, st'.g, st'.openSet, st'.outQueue, {curr})
  {
  }

  /** `curr.out_queue = True` unless `curr` is `start`. */
  lemma ExpandedFlags(s: Pos, e: Pos, inQ0: set<Pos>, outQ0: set<Pos>, curr: Pos, st: State, st': State)
    requires InFlags(s, e, inQ0, Running, st.g, st.inQueue)
    requires OutFlags(s, e, outQ0, st.g, st.openSet, st.outQueue, {curr})
    requires curr in st.g && st.g[curr].Fin? && curr != e && st.status == Running
    requires st' == st.(outQueue := if curr != s then st.outQueue + {curr} else st.outQueue)
    ensures FlagsOk(s, e, inQ0, outQ0, st')
  {
  }

  /** Every turn keeps the flags. */
  lemma StepFlags(pol: Policy, m: Matrix, s: Pos, e: Pos, inQ0: set<Pos>, outQ0: set<Pos>, st: State)
    requires Inv(pol, m, s, e, st) && FlagsOk(s, e, inQ0, outQ0, st)
    ensures FlagsOk(s, e, inQ0, outQ0, Step(pol, m, s, e, st))
  {
    if st.status == Running && |st.queue| > 0 {
      var i := MinIndex(st.queue);
      var curr := st.queue[i].cell;
      var st1 := st.(queue := RemoveAt(st.queue, i), openSet := st.openSet - {curr});
      if curr == e {
        FoundFlags(s, e, inQ0, outQ0, st, Step(pol, m, s, e, st));
      } else {
        PoppedInv(pol, m, s, e, st, i, st1);
        PoppedFlags(s, e, inQ0, outQ0, curr, st, st1);
        var ns := Neighbors(m, curr);
        RelaxFlags(pol, m, s, e, inQ0, outQ0, curr, ns, st1);
        RelaxAllInv(pol, m, s, e, curr, ns, st1);
        ExpandedFlags(s, e, inQ0, outQ0, curr, Relax(pol, e, curr, ns, st1), Step(pol, m, s, e, st));
      }
    }
  }

  lemma {:induction false} RunFlags(pol: Policy, m: Matrix, s: Pos, e: Pos, inQ0: set<Pos>, outQ0: set<Pos>, st: State)
    requires Inv(pol, m, s, e, st) && FlagsOk(s, e, inQ0, outQ0, st)
    ensures FlagsOk(s, e, inQ0, outQ0, Run(pol, m, s, e, st))
    decreases if st.status == Running then 1 else 0, Unreached(st.g), Slack(st.g), |st.queue|
  {
    if st.status == Running {
      StepInv(pol, m, s, e, st);
      StepFlags(pol, m, s, e, inQ0, outQ0, st);
      RunFlags(pol, m, s, e, inQ0, outQ0, Step(pol, m, s, e, st));
    }
  }

  /** When `astar` returns, `in_queue` is set on exactly the cells it queued
      (every reached cell but `start`, plus the earlier flags), minus `end`
      when it was found; `out_queue` is set on every closed cell but `start`
      and `end`, and only on queued cells other than `end`. */
  lemma SearchFlags(pol: Policy, m: Matrix, s: Pos, e: Pos, inQ0: set<Pos>, outQ0: set<Pos>)
    requires Setting(m, s, e)
    ensures FlagsOk(s, e, inQ0, outQ0, Search(pol, m, s, e, inQ0, outQ0))
  {
    InitInv(pol, m, s, e, inQ0, outQ0);
    InitFlags(m, s, e, inQ0, outQ0);
    RunFlags(pol, m, s, e, inQ0, outQ0, Init(m, s, e, inQ0, outQ0));
  }
}
