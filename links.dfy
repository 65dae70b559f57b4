/** The predecessor links of `astar` while it runs, under either policy.
    A link `previous[n] = a` is tight when `g_score[n] = g_score[a] + 1` and
    `a` is out of the open set. It becomes loose only when the score of `a`
    drops after the link was made; `a` is then queued again with an entry
    well below what the link allows. Such an entry is popped before `end`,
    so when `end` is popped every link on its chain is tight, and the chain
    has exactly `g_score[end]` steps. */
module Links {
  import opened Grid
  import opened SearchLoop

  /** The queue holds an entry for `a` whose priority is at least two below
      `bound`. */
  ghost predicate Marked(q: seq<Entry>, a: Pos, bound: int)
  {
    exists i :: 0 <= i < |q| && q[i].cell == a && q[i].f + 2 <= bound
  }

  /** The link of `n` is tight, or its far end `a` is queued below it. */
  ghost predicate LinkOk(e: Pos, st: State, n: Pos)
    requires n in st.prev
  {
    var a := st.prev[n];
    (a !in st.openSet && ScoreOf(st.g, n) == Plus1(ScoreOf(st.g, a))) ||
    (ScoreOf(st.g, n).Fin? && Marked(st.queue, a, ScoreOf(st.g, n).n + HTo(a, e)))
  }

  /** Every link is sound, except the links into `curr` from the cells of
      `rest`, while `curr` is being expanded. */
  ghost predicate LinksOk(e: Pos, st: State, curr: Pos, rest: seq<Pos>)
  {
    forall n :: n in st.prev && !(st.prev[n] == curr && n in rest) ==> LinkOk(e, st, n)
  }

  /** No entry for `end` has a priority below the score of `end`. */
  ghost predicate EndAbove(e: Pos, q: seq<Entry>, g: map<Pos, Score>)
  {
    forall i :: 0 <= i < |q| && q[i].cell == e ==> AtMost(ScoreOf(g, e), Fin(q[i].f))
  }

  /** The scores rise by exactly one along the chain back from `x`. */
  ghost predicate TightChain(prev: map<Pos, Pos>, g: map<Pos, Score>, x: Pos)
    requires Ranked(prev, g) && x in g && g[x].Fin?
    decreases g[x].n
  {
    x in prev ==> g[x].n == g[prev[x]].n + 1 && TightChain(prev, g, prev[x])
  }

  /** What the links promise between two turns: while the search runs,
      every link is sound; once `end` is found, its chain is tight. */
  ghost predicate Sound(e: Pos, st: State)
  {
    (st.status != Found ==> LinksOk(e, st, e, []) && EndAbove(e, st.queue, st.g)) &&
    (st.status == Found ==> Ranked(st.prev, st.g) && e in st.g && st.g[e].Fin? && TightChain(st.prev, st.g, e))
  }

  // ----- queue entries -----

  lemma MarkedAppend(q: seq<Entry>, x: Entry, a: Pos, bound: int)
    requires Marked(q, a, bound)
    ensures Marked(q + [x], a, bound)
  {
    var j :| 0 <= j < |q| && q[j].cell == a && q[j].f + 2 <= bound;
    assert (q + [x])[j] == q[j];
  }

  lemma MarkedNew(q: seq<Entry>, x: Entry, bound: int)
    requires x.f + 2 <= bound
    ensures Marked(q + [x], x.cell, bound)
  {
    assert (q + [x])[|q|] == x;
  }

  lemma MarkedRemove(q: seq<Entry>, i: nat, a: Pos, bound: int)
    requires i < |q| && q[i].cell != a && Marked(q, a, bound)
    ensures Marked(RemoveAt(q, i), a, bound)
  {
    var j :| 0 <= j < |q| && q[j].cell == a && q[j].f + 2 <= bound;
    var j' := if j < i then j else j - 1;
    assert RemoveAt(q, i)[j'] == q[j];
  }

  lemma MarkedReprioritize(q: seq<Entry>, x: Pos, f: nat, a: Pos, bound: int)
    requires Marked(q, a, bound) && (a != x || f + 2 <= bound)
    ensures Marked(Reprioritize(q, x, f), a, bound)
  {
    var j :| 0 <= j < |q| && q[j].cell == a && q[j].f + 2 <= bound;
    assert Reprioritize(q, x, f)[j].cell == a;
  }

  // ----- the turns -----

  lemma InitSound(m: Matrix, s: Pos, e: Pos, inQ0: set<Pos>, outQ0: set<Pos>)
    requires Setting(m, s, e)
    ensures Sound(e, Init(m, s, e, inQ0, outQ0))
  {
  }

  /** Popping `curr` keeps every link but those into `curr`, which the
      expansion of `curr` is about to settle. */
  lemma PoppedSound(m: Matrix, s: Pos, e: Pos, st: State, i: nat, st1: State)
    requires Rectangular(m) && PrevOk(m, s, st.prev, st.g) && i < |st.queue|
    requires LinksOk(e, st, e, []) && EndAbove(e, st.queue, st.g)
    requires st1 == st.(queue := RemoveAt(st.queue, i), openSet := st.openSet - {st.queue[i].cell})
    ensures LinksOk(e, st1, st.queue[i].cell, Neighbors(m, st.queue[i].cell))
    ensures EndAbove(e, st1.queue, st1.g)
  {
    var curr := st.queue[i].cell;
    forall n | n in st1.prev && !(st1.prev[n] == curr && n in Neighbors(m, curr))
      ensures LinkOk(e, st1, n)
    {
      assert LinkOk(e, st, n);
      var a := st.prev[n];
      if a !in st.openSet && ScoreOf(st.g, n) == Plus1(ScoreOf(st.g, a)) {
      } else {
        assert a != curr;
        MarkedRemove(st.queue, i, a, ScoreOf(st.g, n).n + HTo(a, e));
      }
    }
    forall j | 0 <= j < |st1.queue| && st1.queue[j].cell == e
      ensures AtMost(ScoreOf(st1.g, e), Fin(st1.queue[j].f))
    {
      assert st1.queue[j] == st.queue[if j < i then j else j + 1];
    }
  }

  /** Lowering the score of `n` keeps the link of any other cell `x`. */
  lemma LinkAfterLower(pol: Policy, e: Pos, curr: Pos, n: Pos, k: nat, st: State, st': State, x: Pos)
    requires Ranked(st.prev, st.g) && x in st.prev && x != n && LinkOk(e, st, x)
    requires Below(Fin(k), ScoreOf(st.g, n)) && LoweredTo(pol, e, curr, n, k, st, st')
    ensures x in st'.prev && LinkOk(e, st', x)
  {
    var a := st.prev[x];
    var bound := st.g[x].n + HTo(a, e);
    var entry := Entry(k + HTo(n, e), st.count + 1, n);
    assert ScoreOf(st'.g, x) == ScoreOf(st.g, x);
    if a == n {
      // `x` hangs off `n`, whose score drops below `g_score[x] - 1`
      if n !in st.openSet {
        MarkedNew(st.queue, entry, bound);
      } else if pol == DecreaseKey {
        MarkedReprioritize(st.queue, n, k + HTo(n, e), n, bound);
      }
    } else {
      assert ScoreOf(st'.g, a) == ScoreOf(st.g, a);
      if a !in st.openSet && ScoreOf(st.g, x) == Plus1(ScoreOf(st.g, a)) {
      } else if n !in st.openSet {
        MarkedAppend(st.queue, entry, a, bound);
      } else if pol == DecreaseKey {
        MarkedReprioritize(st.queue, n, k + HTo(n, e), a, bound);
      }
    }
  }

  /** Lowering a score never puts an entry of `end` below it. */
  lemma EndAfterLower(pol: Policy, e: Pos, curr: Pos, n: Pos, k: nat, st: State, st': State)
    requires EndAbove(e, st.queue, st.g) && Below(Fin(k), ScoreOf(st.g, n))
    requires LoweredTo(pol, e, curr, n, k, st, st')
    ensures EndAbove(e, st'.queue, st'.g)
  {
    assert HTo(e, e) == 0;
    forall x
      ensures AtMost(ScoreOf(st'.g, x), ScoreOf(st.g, x))
    {
    }
    forall j | 0 <= j < |st'.queue| && st'.queue[j].cell == e
      ensures AtMost(ScoreOf(st'.g, e), Fin(st'.queue[j].f))
    {
      if n !in st.openSet && j == |st.queue| {
        assert st'.queue[j].f == k + HTo(n, e);
      } else if n !in st.openSet {
        assert st'.queue[j] == st.queue[j];
      }
    }
  }

  /** One relaxation settles the link of `rest[0]` into `curr` and keeps the
      others. */
  lemma RelaxOneSound(pol: Policy, m: Matrix, e: Pos, curr: Pos, rest: seq<Pos>, st: State)
    requires Rectangular(m) && rest != [] && rest[0] in Neighbors(m, curr)
    requires Ranked(st.prev, st.g) && curr in st.g && st.g[curr].Fin? && curr !in st.openSet
    requires LinksOk(e, st, curr, rest) && EndAbove(e, st.queue, st.g)
    ensures var st' := RelaxOne(pol, e, curr, rest[0], st);
      LinksOk(e, st', curr, rest[1..]) && EndAbove(e, st'.queue, st'.g)
  {
    var n := rest[0];
    var st' := RelaxOne(pol, e, curr, n, st);
    if Below(Plus1(ScoreOf(st.g, curr)), ScoreOf(st.g, n)) {
      var k := st.g[curr].n + 1;
      NeighborsExact(m, curr, n);
      RelaxOneLowers(pol, e, curr, n, st);
      forall x | x in st'.prev && !(st'.prev[x] == curr && x in rest[1..])
        ensures LinkOk(e, st', x)
      {
        if x != n {
          assert rest == [n] + rest[1..];
          LinkAfterLower(pol, e, curr, n, k, st, st', x);
        }
      }
      EndAfterLower(pol, e, curr, n, k, st, st');
    } else {
      RelaxOneKeeps(pol, e, curr, n, st);
      forall x | x in st.prev && !(st.prev[x] == curr && x in rest[1..])
        ensures LinkOk(e, st, x)
      {
        assert rest == [n] + rest[1..];
      }
    }
  }

  /** The inner loop settles every link into `curr`. */
  lemma {:induction false} RelaxSound(pol: Policy, m: Matrix, s: Pos, e: Pos, curr: Pos, rest: seq<Pos>, st: State)
    requires RelaxInv(pol, m, s, e, curr, rest, st)
    requires LinksOk(e, st, curr, rest) && EndAbove(e, st.queue, st.g)
    ensures var st' := Relax(pol, e, curr, rest, st);
      LinksOk(e, st', curr, []) && EndAbove(e, st'.queue, st'.g)
    decreases |rest|
  {
    if rest != [] {
      RelaxOneSound(pol, m, e, curr, rest, st);
      if Below(Plus1(ScoreOf(st.g, curr)), ScoreOf(st.g, rest[0])) {
        RelaxLowerInv(pol, m, s, e, curr, rest, st);
      } else {
        RelaxSkipInv(pol, m, s, e, curr, rest, st);
      }
      RelaxSound(pol, m, s, e, curr, rest[1..], RelaxOne(pol, e, curr, rest[0], st));
    }
  }

  /** When no queue entry is below `bound`, the chain back from a cell whose
      `g + h` is at most `bound` is tight: a loose link on it would leave an
      entry below `bound`. */
  lemma {:induction false} ChainTightFrom(m: Matrix, s: Pos, e: Pos, st: State, bound: nat, x: Pos)
    requires Rectangular(m) && PrevOk(m, s, st.prev, st.g) && LinksOk(e, st, e, [])
    requires forall j :: 0 <= j < |st.queue| ==> bound <= st.queue[j].f
    requires x in st.g && st.g[x].Fin? && st.g[x].n + HTo(x, e) <= bound
    ensures TightChain(st.prev, st.g, x)
    decreases st.g[x].n
  {
    if x in st.prev {
      var a := st.prev[x];
      NeighborsExact(m, a, x);
      HStep(a, x, e);
      assert LinkOk(e, st, x);
      assert !Marked(st.queue, a, st.g[x].n + HTo(a, e)) by {
        forall j | 0 <= j < |st.queue| && st.queue[j].cell == a
          ensures st.queue[j].f + 2 > st.g[x].n + HTo(a, e)
        {
          assert bound <= st.queue[j].f;
        }
      }
      ChainTightFrom(m, s, e, st, bound, a);
    }
  }

  /** The turn that pops `end`: the least entry is not below `g_score[end]`,
      so the chain of `end` is tight. */
  lemma FoundSound(m: Matrix, s: Pos, e: Pos, st: State)
    requires Rectangular(m) && PrevOk(m, s, st.prev, st.g) && |st.queue| > 0
    requires st.queue[MinIndex(st.queue)].cell == e && e in st.g && st.g[e].Fin?
    requires LinksOk(e, st, e, []) && EndAbove(e, st.queue, st.g)
    ensures TightChain(st.prev, st.g, e)
  {
    var q := st.queue;
    var i := MinIndex(q);
    assert AtMost(ScoreOf(st.g, e), Fin(q[i].f));
    ChainTightFrom(m, s, e, st, st.g[e].n, e);
  }

  /** Expanding `curr` (popping it and relaxing its neighbours) keeps the
      links sound. */
  lemma ExpandSound(pol: Policy, m: Matrix, s: Pos, e: Pos, st: State, i: nat)
    requires Inv(pol, m, s, e, st) && st.status == Running && i < |st.queue| && st.queue[i].cell != e
    requires LinksOk(e, st, e, []) && EndAbove(e, st.queue, st.g)
    ensures var curr := st.queue[i].cell;
      var st2 := Relax(pol, e, curr, Neighbors(m, curr), st.(queue := RemoveAt(st.queue, i), openSet := st.openSet - {curr}));
      st2.status == Running && LinksOk(e, st2, e, []) && EndAbove(e, st2.queue, st2.g)
  {
    var curr := st.queue[i].cell;
    var st1 := st.(queue := RemoveAt(st.queue, i), openSet := st.openSet - {curr});
    var ns := Neighbors(m, curr);
    PoppedInv(pol, m, s, e, st, i, st1);
    PoppedSound(m, s, e, st, i, st1);
    RelaxSound(pol, m, s, e, curr, ns, st1);
    RelaxAllInv(pol, m, s, e, curr, ns, st1);
  }

  /** A turn that expands a cell other than `end` keeps the links sound. */
  lemma ExpandStepSound(pol: Policy, m: Matrix, s: Pos, e: Pos, st: State)
    requires Inv(pol, m, s, e, st) && st.status == Running && |st.queue| > 0
    requires st.queue[MinIndex(st.queue)].cell != e && Sound(e, st)
    ensures Sound(e, Step(pol, m, s, e, st))
  {
    var i := MinIndex(st.queue);
    var curr := st.queue[i].cell;
    ExpandSound(pol, m, s, e, st, i);
    StepExpands(pol, m, s, e, st, i, Neighbors(m, curr));
    var st2 := Relax(pol, e, curr, Neighbors(m, curr), st.(queue := RemoveAt(st.queue, i), openSet := st.openSet - {curr}));
    var st3 := Step(pol, m, s, e, st);
    forall n | n in st3.prev
      ensures LinkOk(e, st3, n)
    {
      assert LinkOk(e, st2, n);
    }
  }

  /** Every turn keeps the links sound. */
  lemma StepSound(pol: Policy, m: Matrix, s: Pos, e: Pos, st: State)
    requires Inv(pol, m, s, e, st) && Sound(e, st)
    ensures Sound(e, Step(pol, m, s, e, st))
  {
    if st.status == Running && |st.queue| > 0 {
      if st.queue[MinIndex(st.queue)].cell == e {
        assert e in QueueCells(st.queue);
        FoundSound(m, s, e, st);
      } else {
        ExpandStepSound(pol, m, s, e, st);
      }
    }
  }

  lemma {:induction false} RunSound(pol: Policy, m: Matrix, s: Pos, e: Pos, st: State)
    requires Inv(pol, m, s, e, st) && Sound(e, st)
    ensures Sound(e, Run(pol, m, s, e, st))
    decreases if st.status == Running then 1 else 0, Unreached(st.g), Slack(st.g), |st.queue|
  {
    if st.status == Running {
      StepInv(pol, m, s, e, st);
      StepSound(pol, m, s, e, st);
      RunSound(pol, m, s, e, Step(pol, m, s, e, st));
    }
  }

  /** When `astar` returns True, under either policy, the scores rise by
      exactly one along the chain from `end`. */
  lemma SearchSound(pol: Policy, m: Matrix, s: Pos, e: Pos, inQ0: set<Pos>, outQ0: set<Pos>)
    requires Setting(m, s, e)
    ensures var r := Search(pol, m, s, e, inQ0, outQ0);
      r.status == Found ==> Ranked(r.prev, r.g) && e in r.g && r.g[e].Fin? && TightChain(r.prev, r.g, e)
  {
    InitInv(pol, m, s, e, inQ0, outQ0);
    InitSound(m, s, e, inQ0, outQ0);
    RunSound(pol, m, s, e, Init(m, s, e, inQ0, outQ0));
  }
}
